/** Presigned tokens (src/auth.rs:109-153) and the client that builds them
    (tests/integration.rs:393-406). JSON, Ed25519 and the Unicode case table are
    parameters; base64url is concrete. */
module Token {
  import opened Prelude
  import opened Text
  import opened Base64Url

  newtype I64 = x: int | -0x8000_0000_0000_0000 <= x < 0x8000_0000_0000_0000

  datatype Payload = Payload(version: Byte, expiry: I64, verb: string, bucket: string, path: string)

  datatype AuthError =
    | MalformedSignature | MalformedPayload | InvalidSignature | UnsupportedVersion
    | Expired | MethodMismatch | BucketMismatch | PathMismatch

  /** What the token format is built on: the JSON printer and parser of payloads,
      the signer, the check of a 64-byte signature, and the uppercase of a character. */
  datatype Env = Env(toJson: Payload -> Bytes, fromJson: Bytes -> Option<Payload>,
                     sign: Bytes -> Bytes, signed: (Bytes, Bytes) -> bool,
                     upper: char -> string)

  /** `ed25519_dalek::SIGNATURE_LENGTH`, in bytes. */
  const SIGNATURE_LENGTH := 64

  /** A payload is parsed back from its own JSON, a signature has 64 bytes and is
      accepted for what it signs, and ASCII letters are uppercased as ASCII does. */
  ghost predicate Lawful(env: Env) {
    && (forall p :: env.fromJson(env.toJson(p)) == Some(p))
    && (forall m :: |env.sign(m)| == 64 && env.signed(m, env.sign(m)))
    && (forall c: char :: 'a' <= c <= 'z' ==> env.upper(c) == [(c as int - 32) as char])
    && (forall c: char :: 'A' <= c <= 'Z' ==> env.upper(c) == [c])
  }

  /** `to_uppercase`. */
  function Upper(env: Env, s: string): string {
    if s == "" then "" else env.upper(s[0]) + Upper(env, s[1..])
  }

  /** The request a token is presented for. */
  datatype Request = Request(verb: string, bucket: string, path: string)

  function CheckClaims(env: Env, now: I64, p: Payload, q: Request): Result<(), AuthError> {
    if p.version != 1 then Err(UnsupportedVersion)
    else if p.expiry < now then Err(Expired)
    else if Upper(env, p.verb) != Upper(env, q.verb) then Err(MethodMismatch)
    else if p.bucket != q.bucket then Err(BucketMismatch)
    else if p.path != q.path then Err(PathMismatch)
    else Ok(())
  }

  function CheckSignature(env: Env, payload: Bytes, text: string): Result<(), AuthError> {
    match Decode(text)
    case None => Err(MalformedSignature)
    case Some(signature) =>
      if |signature| != SIGNATURE_LENGTH then Err(MalformedSignature)
      else if !env.signed(payload, signature) then Err(InvalidSignature)
      else Ok(())
  }

  /** `split_once`. */
  function SplitOnce(s: string, c: char): Option<(string, string)> {
    var i := IndexOf(s, c);
    if i == |s| then None else Some((s[..i], s[i + 1..]))
  }

  /** `AuthState::verify`: the claims are checked before the signature is even decoded. */
  function Verify(env: Env, now: I64, q: Request, token: string): Result<(), AuthError> {
    match SplitOnce(token, '.')
    case None => Err(MalformedSignature)
    case Some((payloadText, signatureText)) =>
      match Decode(payloadText)
      case None => Err(MalformedPayload)
      case Some(payload) =>
        match env.fromJson(payload)
        case None => Err(MalformedPayload)
        case Some(p) =>
          match CheckClaims(env, now, p, q)
          case Err(e) => Err(e)
          case Ok(_) => CheckSignature(env, payload, signatureText)
  }

  function Dotted(payload: Bytes, signature: Bytes): string {
    Encode(payload) + ['.'] + Encode(signature)
  }

  function BuildSig(env: Env, p: Payload): string {
    var payload := env.toJson(p);
    Dotted(payload, env.sign(payload))
  }

  // ----- Splitting a dotted pair -----

  lemma DottedSplits(payload: Bytes, signature: Bytes)
    ensures SplitOnce(Dotted(payload, signature), '.') == Some((Encode(payload), Encode(signature)))
    ensures Decode(Encode(payload)) == Some(payload) && Decode(Encode(signature)) == Some(signature)
  {
    hide Encode, Decode;
    DecodesOnlyItsEncoding(Encode(payload), payload);
    DecodesOnlyItsEncoding(Encode(signature), signature);
    NoDots(payload);
    IndexOfFirst(Encode(payload), '.', Encode(signature));
  }

  lemma NoDots(b: Bytes)
    ensures !Contains(Encode(b), '.')
  {
    SymbolsInvert("", Pack(b));
    assert !IsSymbol('.');
  }

  lemma SplitIsDotted(token: string, payload: Bytes, signature: Bytes)
    requires SplitOnce(token, '.').Some?
    requires Decode(SplitOnce(token, '.').value.0) == Some(payload)
    requires Decode(SplitOnce(token, '.').value.1) == Some(signature)
    ensures token == Dotted(payload, signature)
  {
    hide Encode, Decode;
    var i := IndexOf(token, '.');
    DecodesOnlyItsEncoding(token[..i], payload);
    DecodesOnlyItsEncoding(token[i + 1..], signature);
    assert token == token[..i] + ['.'] + token[i + 1..];
  }

  // ----- What is accepted -----

  /** `token` is the dotted text of `payload` and `signature`, and both are in order. */
  ghost predicate Vouches(env: Env, now: I64, q: Request, token: string, payload: Bytes, signature: Bytes) {
    && token == Dotted(payload, signature)
    && |signature| == 64 && env.signed(payload, signature)
    && match env.fromJson(payload)
       case None => false
       case Some(p) =>
         && p.version == 1 && now <= p.expiry
         && Upper(env, p.verb) == Upper(env, q.verb) && p.bucket == q.bucket && p.path == q.path
  }

  /** A token is accepted exactly when every check holds of the one pair of byte
      strings whose dotted text it is. */
  lemma AcceptedIsVouched(env: Env, now: I64, q: Request, token: string)
    ensures Verify(env, now, q, token) == Ok(())
       <==> exists payload, signature :: Vouches(env, now, q, token, payload, signature)
  {
    hide Decode, Dotted, IndexOf;
    if Verify(env, now, q, token) == Ok(()) {
      var parts := SplitOnce(token, '.').value;
      var payload, signature := Decode(parts.0).value, Decode(parts.1).value;
      SplitIsDotted(token, payload, signature);
      assert Vouches(env, now, q, token, payload, signature);
    }
    if payload, signature :| Vouches(env, now, q, token, payload, signature) {
      DottedSplits(payload, signature);
    }
  }

  /** A token holds one payload and one signature: no other text is accepted for them. */
  lemma OneTextPerToken(payload: Bytes, signature: Bytes, payload': Bytes, signature': Bytes)
    requires Dotted(payload, signature) == Dotted(payload', signature')
    ensures payload == payload' && signature == signature'
  {
    DottedSplits(payload, signature);
    DottedSplits(payload', signature');
  }

  // ----- Which failure is reported -----

  predicate Broken(env: Env, now: I64, p: Payload, q: Request, e: AuthError) {
    match e
    case UnsupportedVersion => p.version != 1
    case Expired => p.expiry < now
    case MethodMismatch => Upper(env, p.verb) != Upper(env, q.verb)
    case BucketMismatch => p.bucket != q.bucket
    case PathMismatch => p.path != q.path
    case _ => false
  }

  /** The place of a claim's check among the others. */
  function Rank(e: AuthError): nat {
    match e
    case UnsupportedVersion => 0
    case Expired => 1
    case MethodMismatch => 2
    case BucketMismatch => 3
    case PathMismatch => 4
    case _ => 5
  }

  /** The claims are refused for the first of them that is broken. */
  lemma FirstBrokenClaim(env: Env, now: I64, p: Payload, q: Request, e: AuthError)
    ensures CheckClaims(env, now, p, q) == Err(e)
       <==> Broken(env, now, p, q, e) && forall f :: Rank(f) < Rank(e) ==> !Broken(env, now, p, q, f)
  {
    hide Upper;
    if CheckClaims(env, now, p, q) == Err(e) || Broken(env, now, p, q, e) {
      assert Rank(UnsupportedVersion) < Rank(Expired) < Rank(MethodMismatch) < Rank(BucketMismatch) < Rank(PathMismatch);
    }
  }

  /** Without a dot there is no signature to speak of, and what stands before it must
      be an encoding. */
  lemma MalformedTokens(env: Env, now: I64, q: Request, token: string, before: string, rest: string)
    ensures !Contains(token, '.') ==> Verify(env, now, q, token) == Err(MalformedSignature)
    ensures !Contains(before, '.') && (forall b :: before != Encode(b)) ==>
      Verify(env, now, q, before + ['.'] + rest) == Err(MalformedPayload)
  {
    hide Encode, Decode;
    if !Contains(before, '.') && (forall b :: before != Encode(b)) {
      IndexOfFirst(before, '.', rest);
      if Decode(before).Some? {
        DecodesOnlyItsEncoding(before, Decode(before).value);
      }
    }
  }

  /** `rest` is the encoding of a 64-byte signature. */
  ghost predicate EncodesSignature(rest: string, signature: Bytes) {
    |signature| == 64 && rest == Encode(signature)
  }

  /** Whatever follows the dot, a payload that cannot be parsed or whose claims are
      refused decides the answer. Only when they hold does the rest matter: it is
      malformed if it is not the encoding of 64 bytes, and invalid if these do not
      sign the payload. */
  lemma ClaimsAnswerFirst(env: Env, now: I64, q: Request, payload: Bytes, rest: string)
    ensures var v := Verify(env, now, q, Encode(payload) + ['.'] + rest);
      match env.fromJson(payload)
      case None => v == Err(MalformedPayload)
      case Some(p) =>
        var claims := CheckClaims(env, now, p, q);
        && (claims.Err? ==> v == claims)
        && (claims.Ok? ==>
              && ((forall signature :: !EncodesSignature(rest, signature)) ==> v == Err(MalformedSignature))
              && (forall signature :: EncodesSignature(rest, signature) ==>
                    v == if env.signed(payload, signature) then Ok(()) else Err(InvalidSignature)))
  {
    hide Encode, Decode;
    NoDots(payload);
    DecodesOnlyItsEncoding(Encode(payload), payload);
    IndexOfFirst(Encode(payload), '.', rest);
    if Decode(rest).Some? {
      DecodesOnlyItsEncoding(rest, Decode(rest).value);
      assert |Decode(rest).value| == 64 ==> EncodesSignature(rest, Decode(rest).value);
    }
    forall signature | EncodesSignature(rest, signature) ensures Decode(rest) == Some(signature) {
      DecodesOnlyItsEncoding(rest, signature);
    }
  }

  // ----- What the client builds -----

  /** The built token is judged by its claims alone: at any clock value and for any
      request the answer is that of the claims, which the signature never changes. */
  lemma BuiltTokenSpeaksForItsClaims(env: Env, now: I64, p: Payload, q: Request)
    requires Lawful(env)
    ensures Verify(env, now, q, BuildSig(env, p)) == CheckClaims(env, now, p, q)
  {
    hide Decode, Dotted, SplitOnce;
    var payload := env.toJson(p);
    assert |env.sign(payload)| == 64 && env.signed(payload, env.sign(payload));
    DottedSplits(payload, env.sign(payload));
  }

  lemma UpperOfCase(env: Env, c: char, d: char)
    requires Lawful(env) && SameLetter(c, d)
    ensures env.upper(c) == env.upper(d)
  {}

  lemma {:induction false} UpperIgnoresCase(env: Env, s: string, t: string)
    requires Lawful(env) && EqualFold(s, t)
    ensures Upper(env, s) == Upper(env, t)
  {
    if s != "" {
      assert SameLetter(s[0], t[0]);
      UpperOfCase(env, s[0], t[0]);
      UpperIgnoresCase(env, s[1..], t[1..]);
    }
  }

  /** As HTTP methods are. */
  predicate AsciiLetters(s: string) {
    forall i :: 0 <= i < |s| ==> 'a' <= s[i] <= 'z' || 'A' <= s[i] <= 'Z'
  }

  lemma UpperOfLetter(env: Env, c: char, d: char)
    requires Lawful(env) && AsciiLetters([c]) && AsciiLetters([d])
    ensures |env.upper(c)| == 1 && |env.upper(d)| == 1
    ensures env.upper(c) == env.upper(d) <==> SameLetter(c, d)
  {
    assert [c][0] == c && [d][0] == d;
  }

  /** The comparison of methods tells two words of ASCII letters apart exactly if they
      differ in length, or in a letter other than by its case. */
  lemma {:induction false} UpperTellsApart(env: Env, s: string, t: string)
    requires Lawful(env) && AsciiLetters(s) && AsciiLetters(t)
    ensures |Upper(env, s)| == |s|
    ensures Upper(env, s) == Upper(env, t)
       <==> |s| == |t| && forall i :: 0 <= i < |s| ==> SameLetter(s[i], t[i])
  {
    if s != "" {
      UpperOfLetter(env, s[0], if t == "" then s[0] else t[0]);
    }
    if t != "" {
      UpperOfLetter(env, t[0], t[0]);
    }
    if s != "" && t != "" {
      UpperTellsApart(env, s[1..], t[1..]);
      var x, y := env.upper(s[0]), env.upper(t[0]);
      assert Upper(env, s) == x + Upper(env, s[1..]) && Upper(env, t) == y + Upper(env, t[1..]);
      assert Upper(env, s)[..1] == x && Upper(env, t)[..1] == y;
      assert Upper(env, s)[1..] == Upper(env, s[1..]) && Upper(env, t)[1..] == Upper(env, t[1..]);
      if Upper(env, s) == Upper(env, t) {
        forall i | 0 <= i < |s| ensures SameLetter(s[i], t[i]) {
          if i > 0 { assert s[i] == s[1..][i - 1] && t[i] == t[1..][i - 1]; }
        }
      }
      if |s| == |t| && forall i :: 0 <= i < |s| ==> SameLetter(s[i], t[i]) {
        forall i | 0 <= i < |s[1..]| ensures SameLetter(s[1..][i], t[1..][i]) {
          assert s[1..][i] == s[i + 1] && t[1..][i] == t[i + 1];
        }
      }
    } else if t != "" {
      UpperTellsApart(env, s, t[1..]);
      assert |Upper(env, t)| >= 1;
    } else if s != "" {
      UpperTellsApart(env, s[1..], t);
    }
  }

  /** For methods of ASCII letters the built token is accepted exactly if its version
      is 1, it has not expired, and the request is for its bucket, its path and, up to
      ASCII case, its method; a version 1 unexpired token presented with any other
      method is refused for that. */
  lemma BuiltTokenIsForItsRequest(env: Env, now: I64, p: Payload, q: Request)
    requires Lawful(env) && AsciiLetters(p.verb) && AsciiLetters(q.verb)
    ensures Verify(env, now, q, BuildSig(env, p)) == Ok(())
       <==> p.version == 1 && now <= p.expiry && EqualFold(p.verb, q.verb) && p.bucket == q.bucket && p.path == q.path
    ensures p.version == 1 && now <= p.expiry && !EqualFold(p.verb, q.verb) ==>
      Verify(env, now, q, BuildSig(env, p)) == Err(MethodMismatch)
  {
    hide Verify, BuildSig, Upper;
    BuiltTokenSpeaksForItsClaims(env, now, p, q);
    UpperTellsApart(env, p.verb, q.verb);
  }

  /** Every version 1 payload, at every clock value not after its expiry, is accepted
      for its bucket and path and its method in any ASCII case. */
  lemma TokenRoundTrip(env: Env, now: I64, p: Payload, verb: string)
    requires Lawful(env) && p.version == 1 && now <= p.expiry && EqualFold(verb, p.verb)
    ensures SplitOnce(BuildSig(env, p), '.')
         == Some((Encode(env.toJson(p)), Encode(env.sign(env.toJson(p)))))
    ensures Decode(Encode(env.toJson(p))) == Some(env.toJson(p))
    ensures Verify(env, now, Request(verb, p.bucket, p.path), BuildSig(env, p)) == Ok(())
  {
    hide Decode, SplitOnce, Dotted;
    DottedSplits(env.toJson(p), env.sign(env.toJson(p)));
    UpperIgnoresCase(env, verb, p.verb);
    BuiltTokenSpeaksForItsClaims(env, now, p, Request(verb, p.bucket, p.path));
  }
}
