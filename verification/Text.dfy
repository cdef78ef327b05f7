/** The string operations of Rust's `str` that the parsers use. */
module Text {
  import opened Prelude

  /** `char::is_whitespace`: the Unicode White_Space property. */
  predicate IsWhitespace(c: char) {
    var n := c as int;
    || 0x9 <= n <= 0xD || n == 0x20 || n == 0x85 || n == 0xA0 || n == 0x1680 || 0x2000 <= n <= 0x200A
    || n == 0x2028 || n == 0x2029 || n == 0x202F || n == 0x205F || n == 0x3000
  }

  /** The characters with that property, one by one. */
  lemma WhitespaceIs(c: char)
    ensures IsWhitespace(c) <==> c as int in {
      0x9, 0xA, 0xB, 0xC, 0xD, 0x20, 0x85, 0xA0, 0x1680,
      0x2000, 0x2001, 0x2002, 0x2003, 0x2004, 0x2005, 0x2006, 0x2007, 0x2008, 0x2009, 0x200A,
      0x2028, 0x2029, 0x202F, 0x205F, 0x3000}
  {}

  datatype Trimmed = Whitespace | Only(c: char)

  predicate Trims(w: Trimmed, c: char) {
    match w
    case Whitespace => IsWhitespace(c)
    case Only(d) => c == d
  }

  function TrimLeft(s: string, w: Trimmed): string {
    if s != "" && Trims(w, s[0]) then TrimLeft(s[1..], w) else s
  }

  function TrimRight(s: string, w: Trimmed): string {
    if s != "" && Trims(w, s[|s| - 1]) then TrimRight(s[..|s| - 1], w) else s
  }

  /** `trim` and `trim_matches`. */
  function Trim(s: string, w: Trimmed): string {
    TrimRight(TrimLeft(s, w), w)
  }

  predicate AllTrimmed(s: string, w: Trimmed) {
    forall i :: 0 <= i < |s| ==> Trims(w, s[i])
  }

  predicate Clean(s: string, w: Trimmed) {
    s != "" ==> !Trims(w, s[0]) && !Trims(w, s[|s| - 1])
  }

  lemma {:induction false} TrimLeftPad(pad: string, s: string, w: Trimmed)
    requires AllTrimmed(pad, w)
    ensures TrimLeft(pad + s, w) == TrimLeft(s, w)
  {
    if pad == "" {
      assert pad + s == s;
    } else {
      assert (pad + s)[1..] == pad[1..] + s;
      TrimLeftPad(pad[1..], s, w);
    }
  }

  lemma {:induction false} TrimRightPad(s: string, pad: string, w: Trimmed)
    requires AllTrimmed(pad, w)
    ensures TrimRight(s + pad, w) == TrimRight(s, w)
  {
    if pad == "" {
      assert s + pad == s;
    } else {
      var n := |pad| - 1;
      assert (s + pad)[..|s + pad| - 1] == s + pad[..n];
      TrimRightPad(s, pad[..n], w);
    }
  }

  /** The part before a kept character is not touched from the right. */
  lemma {:induction false} TrimRightAfter(a: string, s: string, w: Trimmed)
    requires a != "" && !Trims(w, a[|a| - 1])
    ensures TrimRight(a + s, w) == a + TrimRight(s, w)
  {
    if s == "" {
      assert a + s == a;
    } else if Trims(w, s[|s| - 1]) {
      assert (a + s)[..|a + s| - 1] == a + s[..|s| - 1];
      TrimRightAfter(a, s[..|s| - 1], w);
    }
  }

  lemma TrimPadded(pad: string, s: string, pad': string, w: Trimmed)
    requires AllTrimmed(pad, w) && AllTrimmed(pad', w) && Clean(s, w)
    ensures Trim(pad + s + pad', w) == s
  {
    assert pad + s + pad' == pad + (s + pad');
    TrimLeftPad(pad, s + pad', w);
    if s == "" {
      assert s + pad' == pad' + "";
      TrimLeftPad(pad', "", w);
    } else {
      TrimRightPad(s, pad', w);
    }
  }

  function LowerChar(c: char): char {
    if 'A' <= c <= 'Z' then (c as int + 32) as char else c
  }

  /** `to_ascii_lowercase`. */
  function Lower(s: string): (r: string)
    ensures |r| == |s| && forall i :: 0 <= i < |s| ==> r[i] == LowerChar(s[i])
  {
    seq(|s|, i requires 0 <= i < |s| => LowerChar(s[i]))
  }

  /** The same character, or the same ASCII letter in two cases. */
  predicate SameLetter(a: char, b: char) {
    || a == b
    || ('A' <= a <= 'Z' && b as int == a as int + 32)
    || ('A' <= b <= 'Z' && a as int == b as int + 32)
  }

  /** `eq_ignore_ascii_case`. */
  predicate EqualFold(s: string, t: string) {
    |s| == |t| && forall i :: 0 <= i < |s| ==> SameLetter(s[i], t[i])
  }

  predicate NoUpper(s: string) {
    forall i :: 0 <= i < |s| ==> !('A' <= s[i] <= 'Z')
  }

  /** Lowercasing gives the one string without ASCII capitals that is the same up to
      ASCII case. */
  lemma LowerIs(s: string, t: string)
    ensures Lower(s) == t <==> NoUpper(t) && EqualFold(s, t)
    ensures Lower(Lower(s)) == Lower(s)
  {
    assert NoUpper(Lower(s)) && EqualFold(s, Lower(s));
    if NoUpper(t) && EqualFold(s, t) {
      forall i | 0 <= i < |s| ensures Lower(s)[i] == t[i] {
        assert SameLetter(s[i], t[i]);
      }
    }
  }

  lemma LowerFolds(s: string, t: string)
    ensures Lower(s) == Lower(t) <==> EqualFold(s, t)
  {
    if EqualFold(s, t) {
      forall i | 0 <= i < |s| ensures Lower(s)[i] == Lower(t)[i] {
        assert SameLetter(s[i], t[i]);
      }
    }
    if Lower(s) == Lower(t) {
      assert |s| == |Lower(s)| == |t|;
      forall i | 0 <= i < |s| ensures SameLetter(s[i], t[i]) {
        assert Lower(s)[i] == Lower(t)[i];
      }
    }
  }

  predicate Contains(s: string, c: char) {
    exists i :: 0 <= i < |s| && s[i] == c
  }

  function IndexOf(s: string, c: char): (i: nat)
    ensures i <= |s|
    ensures i < |s| ==> s[i] == c
    ensures forall j :: 0 <= j < i ==> s[j] != c
    ensures i == |s| <==> !Contains(s, c)
  {
    if s == "" || s[0] == c then 0 else
    var i := 1 + IndexOf(s[1..], c);
    assert forall j :: 1 <= j < |s| ==> s[j] == s[1..][j - 1];
    i
  }

  /** `split(c)`: one piece more than there are separators. */
  function Split(s: string, c: char): (r: seq<string>)
    ensures r != []
    decreases |s|
  {
    var i := IndexOf(s, c);
    if i == |s| then [s] else [s[..i]] + Split(s[i + 1..], c)
  }

  function Join(parts: seq<string>, c: char): string
    requires parts != []
  {
    if |parts| == 1 then parts[0] else parts[0] + [c] + Join(parts[1..], c)
  }

  lemma IndexOfFirst(a: string, c: char, b: string)
    requires !Contains(a, c)
    ensures IndexOf(a + [c] + b, c) == |a|
    ensures (a + [c] + b)[..|a|] == a && (a + [c] + b)[|a| + 1..] == b
  {
    var s := a + [c] + b;
    assert s[|a|] == c;
    assert forall j :: 0 <= j < |a| ==> s[j] == a[j];
  }

  lemma SplitFirst(a: string, c: char, b: string)
    requires !Contains(a, c)
    ensures Split(a + [c] + b, c) == [a] + Split(b, c)
  {
    IndexOfFirst(a, c, b);
    hide IndexOf, Contains;
  }

  lemma SplitNothing(a: string, c: char)
    requires !Contains(a, c)
    ensures Split(a, c) == [a]
  {}

  lemma {:induction false} SplitJoin(parts: seq<string>, c: char)
    requires parts != [] && forall i :: 0 <= i < |parts| ==> !Contains(parts[i], c)
    ensures Split(Join(parts, c), c) == parts
  {
    hide Split, Contains;
    if |parts| == 1 {
      SplitNothing(parts[0], c);
      assert parts == [parts[0]];
    } else {
      SplitFirst(parts[0], c, Join(parts[1..], c));
      SplitJoin(parts[1..], c);
      assert parts == [parts[0]] + parts[1..];
    }
  }

  lemma {:induction false} JoinSplit(s: string, c: char)
    ensures Join(Split(s, c), c) == s
    ensures forall i :: 0 <= i < |Split(s, c)| ==> !Contains(Split(s, c)[i], c)
    decreases |s|
  {
    var i := IndexOf(s, c);
    if i < |s| {
      JoinSplit(s[i + 1..], c);
      assert s == s[..i] + [c] + s[i + 1..];
      assert Split(s, c)[1..] == Split(s[i + 1..], c);
    }
  }
}
