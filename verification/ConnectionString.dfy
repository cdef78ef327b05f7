/** The Azure connection-string parser (src/store/azure.rs). */
module ConnectionString {
  import opened Prelude
  import opened Text

  datatype Info = Info(account: string, accessKey: string, endpoint: Option<string>, allowHttp: bool)

  datatype ParseError = MissingAccountName | MissingAccountKey

  const ACCOUNT := "accountname"
  const KEY := "accountkey"
  const BLOB := "blobendpoint"
  const PROTOCOL := "defaultendpointsprotocol"
  const SUFFIX := "endpointsuffix"

  function Normalized(value: string): string {
    Trim(Trim(Trim(value, Only('"')), Only('\'')), Whitespace)
  }

  /** What one segment sets, if anything: its lowercased key and its value. */
  function ReadSegment(segment: string): Option<(string, string)> {
    var trimmed := Trim(segment, Whitespace);
    if trimmed == "" then None else
    var i := IndexOf(trimmed, '=');
    var key := Trim(trimmed[..i], Whitespace);
    var value := if i < |trimmed| then Trim(trimmed[i + 1..], Whitespace) else "";
    if key == "" then None else Some((Lower(key), Normalized(value)))
  }

  /** The value of the last segment that sets `name`. */
  function LastValue(segments: seq<string>, name: string): Option<string> {
    if segments == [] then None else
    var last := ReadSegment(segments[|segments| - 1]);
    if last.Some? && last.value.0 == name then Some(last.value.1)
    else LastValue(segments[..|segments| - 1], name)
  }

  function NonEmpty(v: Option<string>): Option<string> {
    if v == Some("") then None else v
  }

  predicate IsHttp(endpoint: string) {
    "http://" <= Lower(endpoint)
  }

  /** The result, from the values of the five known names. */
  function Derived(account: Option<string>, key: Option<string>, blob: Option<string>,
                   protocol: Option<string>, suffix: Option<string>): Result<Info, ParseError> {
    if NonEmpty(account).None? then Err(MissingAccountName)
    else if NonEmpty(key).None? then Err(MissingAccountKey)
    else
      var scheme := if protocol.Some? then Lower(protocol.value) else "https";
      var endpoint :=
        if NonEmpty(blob).Some? then blob
        else if suffix.Some? then Some(scheme + "://" + account.value + ".blob." + suffix.value)
        else None;
      Ok(Info(account.value, key.value, endpoint,
              (endpoint.Some? && IsHttp(endpoint.value)) || (protocol.Some? && scheme == "http")))
  }

  function ParseSpec(s: string): Result<Info, ParseError> {
    var segments := Split(s, ';');
    Derived(LastValue(segments, ACCOUNT), LastValue(segments, KEY), LastValue(segments, BLOB),
            LastValue(segments, PROTOCOL), LastValue(segments, SUFFIX))
  }

  lemma LastValueNext(segments: seq<string>, i: nat, name: string)
    requires i < |segments|
    ensures LastValue(segments[..i + 1], name) ==
      match ReadSegment(segments[i])
      case Some((key, value)) => if key == name then Some(value) else LastValue(segments[..i], name)
      case None => LastValue(segments[..i], name)
  {
    assert segments[..i + 1][..i] == segments[..i];
  }

  /** The loop over the segments: in the map, later ones win. */
  method ReadValues(s: string) returns (values: map<string, string>)
    ensures forall name :: SlotOf(values, name) == LastValue(Split(s, ';'), name)
  {
    hide Split, Trim, Lower;
    values := map[];
    var segments := Split(s, ';');
    var i := 0;
    while i < |segments|
      invariant 0 <= i <= |segments|
      invariant forall name :: SlotOf(values, name) == LastValue(segments[..i], name)
    {
      ghost var before := values;
      var trimmed := Trim(segments[i], Whitespace);
      if trimmed != "" {
        var eq := IndexOf(trimmed, '=');
        var key := Trim(trimmed[..eq], Whitespace);
        var value := "";
        if eq < |trimmed| {
          value := Trim(trimmed[eq + 1..], Whitespace);
        }
        if key != "" {
          value := Trim(Trim(Trim(value, Only('"')), Only('\'')), Whitespace);
          values := values[Lower(key) := value];
        }
      }
      assert values == match ReadSegment(segments[i]) case Some((k, v)) => before[k := v] case None => before;
      forall name ensures SlotOf(values, name) == LastValue(segments[..i + 1], name) {
        hide ReadSegment, LastValue;
        LastValueNext(segments, i, name);
      }
      i := i + 1;
    }
    assert segments[..|segments|] == segments;
  }

  lemma NamesDiffer()
    ensures |ACCOUNT| == 11 && |KEY| == 10 && |BLOB| == 12 && |PROTOCOL| == 24 && |SUFFIX| == 14
  {}

  /** The parser: the loop, then the known names taken out of the map in turn. */
  method ParseConnectionString(s: string) returns (r: Result<Info, ParseError>)
    ensures r == ParseSpec(s)
  {
    hide LastValue, Split, Lower, IsHttp;
    var values := ReadValues(s);
    NamesDiffer();

    var account := SlotOf(values, ACCOUNT);
    values := values - {ACCOUNT};
    if account.None? || account.value == "" {
      return Err(MissingAccountName);
    }
    var accessKey := SlotOf(values, KEY);
    values := values - {KEY};
    if accessKey.None? || accessKey.value == "" {
      return Err(MissingAccountKey);
    }
    var endpoint := SlotOf(values, BLOB);
    values := values - {BLOB};
    if endpoint == Some("") {
      endpoint := None;
    }
    var protocol := SlotOf(values, PROTOCOL);
    values := values - {PROTOCOL};
    if protocol.Some? {
      protocol := Some(Lower(protocol.value));
    }
    var suffix := SlotOf(values, SUFFIX);
    values := values - {SUFFIX};

    if endpoint.None? && suffix.Some? {
      var scheme := if protocol.Some? then protocol.value else "https";
      endpoint := Some(scheme + "://" + account.value + ".blob." + suffix.value);
    }
    var allowHttp := (endpoint.Some? && IsHttp(endpoint.value)) || protocol == Some("http");
    r := Ok(Info(account.value, accessKey.value, endpoint, allowHttp));
  }

  // ----- The last segment wins -----

  predicate Sets(segment: string, name: string, value: string) {
    ReadSegment(segment) == Some((name, value))
  }

  predicate Names(segment: string, name: string) {
    ReadSegment(segment).Some? && ReadSegment(segment).value.0 == name
  }

  /** Segment `i` is the last that sets `name`. */
  predicate SetLastAt(segments: seq<string>, name: string, i: nat, value: string) {
    && i < |segments| && Sets(segments[i], name, value)
    && forall j :: i < j < |segments| ==> !Names(segments[j], name)
  }

  lemma {:induction false} LastValueAt(segments: seq<string>, name: string, i: nat, value: string)
    requires SetLastAt(segments, name, i, value)
    ensures LastValue(segments, name) == Some(value)
  {
    hide ReadSegment;
    var n := |segments| - 1;
    if i < n {
      LastValueAt(segments[..n], name, i, value);
    }
  }

  lemma {:induction false} LastValueWhere(segments: seq<string>, name: string) returns (i: nat)
    ensures LastValue(segments, name).Some? ==> SetLastAt(segments, name, i, LastValue(segments, name).value)
    ensures LastValue(segments, name).None? ==> forall j :: 0 <= j < |segments| ==> !Names(segments[j], name)
  {
    hide ReadSegment;
    i := 0;
    if segments != [] {
      var n := |segments| - 1;
      var front := segments[..n];
      if Names(segments[n], name) {
        i := n;
      } else {
        i := LastValueWhere(front, name);
        assert forall j :: 0 <= j < n ==> segments[j] == front[j];
      }
    }
  }

  /** A name's value is that of the last segment with that lowercased key, a key
      without `=` counting as empty; it is unset exactly when no segment has it. */
  lemma {:induction false} LastSegmentWins(segments: seq<string>, name: string)
    ensures LastValue(segments, name).None? <==> forall i :: 0 <= i < |segments| ==> !Names(segments[i], name)
    ensures forall v :: LastValue(segments, name) == Some(v) <==> exists i :: SetLastAt(segments, name, i, v)
  {
    var i := LastValueWhere(segments, name);
    if LastValue(segments, name).Some? {
      assert Names(segments[i], name);
    }
    forall v, k: nat | SetLastAt(segments, name, k, v) ensures LastValue(segments, name) == Some(v) {
      LastValueAt(segments, name, k, v);
    }
  }

  // ----- The order of segments -----

  /** No two segments set the same name. */
  ghost predicate DistinctNames(segments: seq<string>) {
    forall i, j, name :: 0 <= i < j < |segments| && Names(segments[i], name) ==> !Names(segments[j], name)
  }

  lemma DistinctValue(segments: seq<string>, name: string, x: string)
    requires DistinctNames(segments) && x in segments && Names(x, name)
    ensures LastValue(segments, name) == Some(ReadSegment(x).value.1)
  {
    var i :| 0 <= i < |segments| && segments[i] == x;
    LastValueAt(segments, name, i, ReadSegment(x).value.1);
  }

  lemma PermutedValue(a: seq<string>, b: seq<string>, name: string)
    requires multiset(a) == multiset(b) && DistinctNames(a) && DistinctNames(b)
    ensures LastValue(a, name) == LastValue(b, name)
  {
    LastSegmentWins(a, name);
    LastSegmentWins(b, name);
    forall x ensures x in a <==> x in b {
      assert x in multiset(a) <==> x in multiset(b);
    }
    if x :| x in a && Names(x, name) {
      DistinctValue(a, name, x);
      DistinctValue(b, name, x);
    }
  }

  lemma {:induction false} Occurrences(a: seq<string>, x: string)
    ensures multiset(a)[x] >= 1 <==> exists i :: 0 <= i < |a| && a[i] == x
    ensures multiset(a)[x] >= 2 <==> exists i, j :: 0 <= i < j < |a| && a[i] == x && a[j] == x
  {
    if a != [] {
      var n := |a| - 1;
      var front := a[..n];
      assert a == front + [a[n]];
      Occurrences(front, x);
      if i :| 0 <= i < n && front[i] == x { assert a[i] == x; }
      if i, j :| 0 <= i < j < n && front[i] == x && front[j] == x { assert a[i] == x && a[j] == x; }
      if i :| 0 <= i < |a| && a[i] == x && i < n { assert front[i] == x; }
      if i, j :| 0 <= i < j < |a| && a[i] == x && a[j] == x { assert front[i] == x; if j < n { assert front[j] == x; } }
    }
  }

  lemma ClashIsShared(a: seq<string>, b: seq<string>, i: nat, j: nat, name: string)
    requires multiset(a) == multiset(b) && i < j < |b| && Names(b[i], name) && Names(b[j], name)
    ensures !DistinctNames(a)
  {
    Occurrences(b, b[i]);
    Occurrences(a, b[i]);
    Occurrences(b, b[j]);
    Occurrences(a, b[j]);
    if b[i] == b[j] {
      var m, n :| 0 <= m < n < |a| && a[m] == b[i] && a[n] == b[i];
      assert Names(a[m], name) && Names(a[n], name);
    } else {
      var p :| 0 <= p < |a| && a[p] == b[i];
      var q :| 0 <= q < |a| && a[q] == b[j];
      assert Names(a[p], name) && Names(a[q], name);
    }
  }

  lemma PermutedDistinct(a: seq<string>, b: seq<string>)
    requires multiset(a) == multiset(b) && DistinctNames(a)
    ensures DistinctNames(b)
  {
    forall i: nat, j: nat, name | i < j < |b| && Names(b[i], name) ensures !Names(b[j], name) {
      if Names(b[j], name) {
        ClashIsShared(a, b, i, j, name);
      }
    }
  }

  /** Permuting segments with distinct lowercased keys never changes the result. */
  lemma {:induction false} OrderDoesNotMatter(a: seq<string>, b: seq<string>)
    requires a != [] && multiset(a) == multiset(b) && DistinctNames(a)
    requires forall i :: 0 <= i < |a| ==> !Contains(a[i], ';')
    ensures b != [] && ParseSpec(Join(a, ';')) == ParseSpec(Join(b, ';'))
  {
    PermutedDistinct(a, b);
    assert |multiset(a)| == |a| && |multiset(b)| == |b|;
    forall i | 0 <= i < |b| ensures !Contains(b[i], ';') {
      assert b[i] in multiset(b);
    }
    SplitJoin(a, ';');
    SplitJoin(b, ';');
    PermutedValue(a, b, ACCOUNT);
    PermutedValue(a, b, KEY);
    PermutedValue(a, b, BLOB);
    PermutedValue(a, b, PROTOCOL);
    PermutedValue(a, b, SUFFIX);
  }
}
