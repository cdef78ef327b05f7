/** Printing connection strings in every layout the parser accepts, and reading
    them back (src/store/azure.rs:50-112). */
module ConnectionPrinter {
  import opened Prelude
  import opened Text
  import opened ConnectionString

  datatype Quote = Bare | Double | Single

  /** A segment: blank, or a key in any ASCII case and a value, with padding
      around both and at most one pair of quotes around the value. */
  datatype Item =
    | Blank(pad: string)
    | Field(lead: string, key: string, beforeEq: string, afterEq: string, quote: Quote, value: string, trail: string)

  function Quoted(q: Quote, value: string): string {
    match q
    case Bare => value
    case Double => ['"'] + value + ['"']
    case Single => ['\''] + value + ['\'']
  }

  function Print(x: Item): string {
    match x
    case Blank(pad) => pad
    case Field(lead, key, beforeEq, afterEq, quote, value, trail) =>
      lead + ((key + beforeEq + ['=']) + (afterEq + Quoted(quote, value) + trail))
  }

  function PrintAll(items: seq<Item>): string
    requires items != []
  {
    Join(Printed(items), ';')
  }

  function Printed(items: seq<Item>): seq<string> {
    seq(|items|, i requires 0 <= i < |items| => Print(items[i]))
  }

  // ----- Which items can be printed -----

  predicate Pad(s: string) {
    AllTrimmed(s, Whitespace)
  }

  predicate PlainKey(key: string) {
    && key != "" && Clean(key, Whitespace)
    && !Contains(key, '=') && !Contains(key, ';')
  }

  /** No `;`, and no whitespace or quote at either end. */
  predicate PlainValue(value: string) {
    && !Contains(value, ';')
    && Clean(value, Whitespace) && Clean(value, Only('"')) && Clean(value, Only('\''))
  }

  predicate Printable(x: Item) {
    match x
    case Blank(pad) => Pad(pad)
    case Field(lead, key, beforeEq, afterEq, _, value, trail) =>
      Pad(lead) && Pad(beforeEq) && Pad(afterEq) && Pad(trail) && PlainKey(key) && PlainValue(value)
  }

  /** `r` is what the item says: nothing, or its key in lowercase and its value. */
  predicate Means(x: Item, r: Option<(string, string)>) {
    match x
    case Blank(_) => r.None?
    case Field(_, key, _, _, _, value, _) =>
      r.Some? && NoUpper(r.value.0) && EqualFold(key, r.value.0) && r.value.1 == value
  }

  // ----- One segment -----

  lemma {:induction false} OneQuotePair(q: char, value: string)
    requires Clean(value, Only(q))
    ensures Trim([q] + value + [q], Only(q)) == value
  {
    assert AllTrimmed([q], Only(q));
    TrimPadded([q], value, [q], Only(q));
  }

  lemma NothingToTrim(value: string, w: Trimmed)
    requires Clean(value, w)
    ensures Trim(value, w) == value
  {
    assert "" + value + "" == value;
    TrimPadded("", value, "", w);
  }

  lemma QuotedEnds(q: Quote, value: string, w: Trimmed)
    requires Clean(value, w)
    requires q.Double? ==> !Trims(w, '"')
    requires q.Single? ==> !Trims(w, '\'')
    ensures Clean(Quoted(q, value), w)
  {}

  lemma NormalizedQuoted(q: Quote, value: string)
    requires PlainValue(value)
    ensures Normalized(Quoted(q, value)) == value
  {
    var v := Quoted(q, value);
    if q.Double? {
      OneQuotePair('"', value);
    } else {
      QuotedEnds(q, value, Only('"'));
      NothingToTrim(v, Only('"'));
    }
    if q.Single? {
      OneQuotePair('\'', value);
    } else {
      NothingToTrim(value, Only('\''));
    }
    NothingToTrim(value, Whitespace);
  }

  /** Trimming the whole segment, then the part after `=`, leaves what trimming
      that part alone would. */
  lemma TrimRest(afterEq: string, core: string, trail: string)
    requires Pad(afterEq) && Pad(trail) && Clean(core, Whitespace)
    ensures Trim(TrimRight(afterEq + core + trail, Whitespace), Whitespace) == core
  {
    TrimRightPad(afterEq + core, trail, Whitespace);
    if core == "" {
      assert afterEq + core == "" + afterEq;
      TrimRightPad("", afterEq, Whitespace);
    } else {
      assert afterEq + core == (afterEq + core) + "";
      TrimRightAfter(afterEq + core, "", Whitespace);
      assert afterEq + core == afterEq + core + "";
      TrimPadded(afterEq, core, "", Whitespace);
    }
  }

  lemma TrimmedSegment(x: Item)
    requires x.Field? && Printable(x)
    ensures Trim(Print(x), Whitespace) ==
      (x.key + x.beforeEq + ['=']) + TrimRight(x.afterEq + Quoted(x.quote, x.value) + x.trail, Whitespace)
  {
    var head := x.key + x.beforeEq + ['='];
    var rest := x.afterEq + Quoted(x.quote, x.value) + x.trail;
    TrimLeftPad(x.lead, head + rest, Whitespace);
    assert (head + rest)[0] == x.key[0];
    TrimRightAfter(head, rest, Whitespace);
  }

  lemma KeyPart(x: Item, rest: string)
    requires x.Field? && Printable(x)
    ensures var t := (x.key + x.beforeEq + ['=']) + rest;
      var i := IndexOf(t, '=');
      i < |t| && Trim(t[..i], Whitespace) == x.key && t[i + 1..] == rest
  {
    var a := x.key + x.beforeEq;
    forall j | 0 <= j < |a| ensures a[j] != '=' {
      if j < |x.key| { assert a[j] == x.key[j]; } else { assert a[j] == x.beforeEq[j - |x.key|]; }
    }
    IndexOfFirst(a, '=', rest);
    assert a == "" + x.key + x.beforeEq;
    TrimPadded("", x.key, x.beforeEq, Whitespace);
  }

  /** A printed segment reads back as what it means. */
  lemma ReadPrinted(x: Item)
    requires Printable(x)
    ensures Means(x, ReadSegment(Print(x)))
  {
    match x
    case Blank(pad) =>
      hide Trim;
      assert "" + "" + pad == pad;
      TrimPadded("", "", pad, Whitespace);
    case Field(_, _, _, afterEq, quote, value, trail) =>
      hide Trim, TrimRight, Quoted, Print, Normalized, Clean, Lower;
      TrimmedSegment(x);
      KeyPart(x, TrimRight(afterEq + Quoted(quote, value) + trail, Whitespace));
      QuotedEnds(quote, value, Whitespace);
      TrimRest(afterEq, Quoted(quote, value), trail);
      NormalizedQuoted(quote, value);
      LowerIs(x.key, Lower(x.key));
  }

  lemma PadHasNo(c: char, s: string)
    requires Pad(s) && !IsWhitespace(c)
    ensures !Contains(s, c)
  {}

  lemma ConcatHasNo(c: char, a: string, b: string)
    requires !Contains(a, c) && !Contains(b, c)
    ensures !Contains(a + b, c)
  {}

  lemma PrintedHasNoSeparator(x: Item)
    requires Printable(x)
    ensures !Contains(Print(x), ';')
  {
    match x
    case Blank(pad) => PadHasNo(';', pad);
    case Field(lead, key, beforeEq, afterEq, quote, value, trail) =>
      PadHasNo(';', lead);
      PadHasNo(';', beforeEq);
      PadHasNo(';', afterEq);
      PadHasNo(';', trail);
      assert !Contains(Quoted(quote, value), ';');
      ConcatHasNo(';', key, beforeEq);
      ConcatHasNo(';', key + beforeEq, ['=']);
      ConcatHasNo(';', afterEq, Quoted(quote, value));
      ConcatHasNo(';', afterEq + Quoted(quote, value), trail);
      ConcatHasNo(';', key + beforeEq + ['='], afterEq + Quoted(quote, value) + trail);
      ConcatHasNo(';', lead, (key + beforeEq + ['=']) + (afterEq + Quoted(quote, value) + trail));
  }

  // ----- The whole string -----

  /** Item `i` gives `name`, in whatever case, the value `value`, and no other item
      names it. */
  predicate GivenBy(items: seq<Item>, name: string, value: string, i: nat) {
    && i < |items| && items[i].Field? && EqualFold(items[i].key, name) && items[i].value == value
    && forall j :: 0 <= j < |items| && j != i && items[j].Field? ==> !EqualFold(items[j].key, name)
  }

  ghost predicate Given(items: seq<Item>, name: string, value: string) {
    exists i: nat :: GivenBy(items, name, value, i)
  }

  predicate Absent(items: seq<Item>, name: string) {
    forall j :: 0 <= j < |items| && items[j].Field? ==> !EqualFold(items[j].key, name)
  }

  /** `name` is given the value `v`, or not given at all. */
  ghost predicate Holds(items: seq<Item>, name: string, v: Option<string>) {
    match v
    case Some(value) => Given(items, name, value)
    case None => Absent(items, name)
  }

  ghost predicate AllPrintable(items: seq<Item>) {
    items != [] && forall i :: 0 <= i < |items| ==> Printable(items[i])
  }

  lemma SegmentsRead(items: seq<Item>)
    requires AllPrintable(items)
    ensures Split(PrintAll(items), ';') == Printed(items)
    ensures forall i :: 0 <= i < |items| ==> Means(items[i], ReadSegment(Printed(items)[i]))
  {
    hide ReadSegment, Print, Means;
    forall i | 0 <= i < |items|
      ensures !Contains(Printed(items)[i], ';') && Means(items[i], ReadSegment(Printed(items)[i]))
    {
      PrintedHasNoSeparator(items[i]);
      ReadPrinted(items[i]);
    }
    SplitJoin(Printed(items), ';');
  }

  /** A printed field names exactly what its key is up to case. */
  lemma NamesFolded(x: Item, segment: string, name: string)
    requires Means(x, ReadSegment(segment))
    ensures Names(segment, Lower(name)) <==> x.Field? && EqualFold(x.key, name)
  {
    hide ReadSegment;
    if x.Field? {
      LowerIs(x.key, ReadSegment(segment).value.0);
      LowerFolds(x.key, name);
    }
  }

  lemma GivenIsRead(items: seq<Item>, name: string, value: string)
    requires AllPrintable(items) && Given(items, name, value)
    ensures LastValue(Split(PrintAll(items), ';'), Lower(name)) == Some(value)
  {
    hide ReadSegment, Print, Lower, EqualFold;
    SegmentsRead(items);
    var i: nat :| GivenBy(items, name, value, i);
    forall j | 0 <= j < |items|
      ensures Names(Printed(items)[j], Lower(name)) <==> items[j].Field? && EqualFold(items[j].key, name)
    {
      NamesFolded(items[j], Printed(items)[j], name);
    }
    LastValueAt(Printed(items), Lower(name), i, value);
  }

  lemma AbsentIsUnset(items: seq<Item>, name: string)
    requires AllPrintable(items) && Absent(items, name)
    ensures LastValue(Split(PrintAll(items), ';'), Lower(name)).None?
  {
    hide ReadSegment, Print, Lower, EqualFold;
    SegmentsRead(items);
    forall j | 0 <= j < |items| ensures !Names(Printed(items)[j], Lower(name)) {
      NamesFolded(items[j], Printed(items)[j], name);
    }
    LastSegmentWins(Printed(items), Lower(name));
  }

  lemma HoldsIsRead(items: seq<Item>, name: string, v: Option<string>)
    requires AllPrintable(items) && Holds(items, name, v)
    ensures LastValue(Split(PrintAll(items), ';'), Lower(name)) == v
  {
    hide AllPrintable, Given, Absent, LastValue, Split, Lower;
    if v.Some? {
      GivenIsRead(items, name, v.value);
    } else {
      AbsentIsUnset(items, name);
    }
  }

  /** The names the parser looks for, in the case Azure prints them. */
  lemma KnownNames()
    ensures Lower("AccountName") == ACCOUNT && Lower("AccountKey") == KEY && Lower("BlobEndpoint") == BLOB
    ensures Lower("DefaultEndpointsProtocol") == PROTOCOL && Lower("EndpointSuffix") == SUFFIX
  {
    hide Lower;
    LowerIs("AccountName", ACCOUNT);
    LowerIs("AccountKey", KEY);
    LowerIs("BlobEndpoint", BLOB);
    LowerIs("DefaultEndpointsProtocol", PROTOCOL);
    LowerIs("EndpointSuffix", SUFFIX);
  }

  /** The URL starts with `http://`, in any case. */
  predicate HttpUrl(url: string) {
    |url| >= 7 && EqualFold(url[..7], "http://")
  }

  lemma IsHttpMeans(url: string)
    ensures IsHttp(url) <==> HttpUrl(url)
  {
    if |url| >= 7 {
      assert Lower(url)[..7] == Lower(url[..7]);
      LowerIs(url[..7], "http://");
      assert NoUpper("http://");
    }
  }

  /** The account's fields as one connection string gives them. */
  ghost predicate Describes(items: seq<Item>, account: Option<string>, key: Option<string>,
                            blob: Option<string>, protocol: Option<string>, suffix: Option<string>) {
    && Holds(items, "AccountName", account) && Holds(items, "AccountKey", key)
    && Holds(items, "BlobEndpoint", blob) && Holds(items, "DefaultEndpointsProtocol", protocol)
    && Holds(items, "EndpointSuffix", suffix)
  }

  lemma DescribedIsRead(items: seq<Item>, account: Option<string>, key: Option<string>,
                        blob: Option<string>, protocol: Option<string>, suffix: Option<string>)
    requires AllPrintable(items) && Describes(items, account, key, blob, protocol, suffix)
    ensures ParseSpec(PrintAll(items)) == Derived(account, key, blob, protocol, suffix)
  {
    hide AllPrintable, Holds, LastValue, Split, Lower, Derived;
    KnownNames();
    HoldsIsRead(items, "AccountName", account);
    HoldsIsRead(items, "AccountKey", key);
    HoldsIsRead(items, "BlobEndpoint", blob);
    HoldsIsRead(items, "DefaultEndpointsProtocol", protocol);
    HoldsIsRead(items, "EndpointSuffix", suffix);
  }

  /** The endpoint a scheme stands for: a blob endpoint that is not empty, or else the
      account's host under the suffix, or none. */
  function Endpoint(account: string, blob: Option<string>, scheme: string, suffix: Option<string>): Option<string> {
    if blob.Some? && blob.value != "" then blob
    else if suffix.Some? then Some(scheme + "://" + account + ".blob." + suffix.value)
    else None
  }

  /** `scheme` is the protocol in lowercase, and `https` if there is none. */
  predicate IsScheme(scheme: string, protocol: Option<string>) {
    match protocol
    case Some(p) => NoUpper(scheme) && EqualFold(p, scheme)
    case None => scheme == "https"
  }

  lemma SchemeIs(scheme: string, protocol: Option<string>)
    requires IsScheme(scheme, protocol)
    ensures scheme == if protocol.Some? then Lower(protocol.value) else "https"
  {
    hide Lower;
    if protocol.Some? {
      LowerIs(protocol.value, scheme);
    }
  }

  lemma DerivedMeans(account: string, key: string, blob: Option<string>, protocol: Option<string>,
                     suffix: Option<string>, scheme: string)
    requires account != "" && key != "" && IsScheme(scheme, protocol)
    ensures var endpoint := Endpoint(account, blob, scheme, suffix);
      Derived(Some(account), Some(key), blob, protocol, suffix) ==
        Ok(Info(account, key, endpoint,
                (endpoint.Some? && HttpUrl(endpoint.value)) || (protocol.Some? && scheme == "http")))
  {
    SchemeIs(scheme, protocol);
    hide Lower, IsHttp, HttpUrl, IsScheme;
    var endpoint := Endpoint(account, blob, scheme, suffix);
    if endpoint.Some? {
      IsHttpMeans(endpoint.value);
    }
  }

  /** Every description with an account and a key, printed in any order and layout and
      with its names in any case, reads back. Plain http is allowed exactly if the
      endpoint's URL or the protocol says so. */
  lemma InfoRoundTrip(items: seq<Item>, account: string, key: string, blob: Option<string>,
                      protocol: Option<string>, suffix: Option<string>, scheme: string)
    requires AllPrintable(items) && account != "" && key != "" && IsScheme(scheme, protocol)
    requires Describes(items, Some(account), Some(key), blob, protocol, suffix)
    ensures var endpoint := Endpoint(account, blob, scheme, suffix);
      ParseSpec(PrintAll(items)) ==
        Ok(Info(account, key, endpoint,
                (endpoint.Some? && HttpUrl(endpoint.value)) || (protocol.Some? && scheme == "http")))
  {
    hide AllPrintable, Describes, ParseSpec, PrintAll, HttpUrl, IsScheme, Derived;
    DescribedIsRead(items, Some(account), Some(key), blob, protocol, suffix);
    DerivedMeans(account, key, blob, protocol, suffix, scheme);
  }

  /** Without an account, or with an empty one, the account is reported missing; with
      one, but no key or an empty one, the key is. */
  lemma MissingFields(items: seq<Item>, account: Option<string>, key: Option<string>,
                      blob: Option<string>, protocol: Option<string>, suffix: Option<string>)
    requires AllPrintable(items) && Describes(items, account, key, blob, protocol, suffix)
    ensures account.None? || account == Some("") ==> ParseSpec(PrintAll(items)) == Err(MissingAccountName)
    ensures account.Some? && account != Some("") && (key.None? || key == Some("")) ==>
      ParseSpec(PrintAll(items)) == Err(MissingAccountKey)
  {
    DescribedIsRead(items, account, key, blob, protocol, suffix);
    hide AllPrintable, Describes, ParseSpec, PrintAll;
  }

  /** Account, key and blob endpoint, printed in any order and layout, read back. */
  lemma EndpointRoundTrip(items: seq<Item>, account: string, key: string, endpoint: string, suffix: Option<string>)
    requires AllPrintable(items) && account != "" && key != "" && endpoint != ""
    requires Describes(items, Some(account), Some(key), Some(endpoint), None, suffix)
    ensures ParseSpec(PrintAll(items)) == Ok(Info(account, key, Some(endpoint), HttpUrl(endpoint)))
  {
    hide AllPrintable, Describes, ParseSpec, PrintAll;
    InfoRoundTrip(items, account, key, Some(endpoint), None, suffix, "https");
  }

  /** Account, key, protocol and suffix, printed in any order and layout, read back
      with the endpoint they stand for. */
  lemma ProtocolRoundTrip(items: seq<Item>, account: string, key: string, protocol: string, scheme: string, suffix: string)
    requires AllPrintable(items) && account != "" && key != ""
    requires NoUpper(scheme) && EqualFold(protocol, scheme)
    requires Describes(items, Some(account), Some(key), None, Some(protocol), Some(suffix))
    ensures var endpoint := scheme + "://" + account + ".blob." + suffix;
      ParseSpec(PrintAll(items)) == Ok(Info(account, key, Some(endpoint), HttpUrl(endpoint) || scheme == "http"))
  {
    hide AllPrintable, Describes, ParseSpec, PrintAll;
    InfoRoundTrip(items, account, key, None, Some(protocol), Some(suffix), scheme);
  }

  // ----- The usual form -----

  function Usual(key: string, value: string): Item {
    Field("", key, "", "", Bare, value, "")
  }

  lemma UsualPrints(key: string, value: string)
    ensures Print(Usual(key, value)) == key + "=" + value
  {
    assert "" + ((key + "" + "=") + ("" + value + "")) == key + "=" + value;
  }

  lemma NamesArePlain()
    ensures PlainKey("AccountName") && PlainKey("AccountKey") && PlainKey("DefaultEndpointsProtocol") && PlainKey("EndpointSuffix")
  {}

  lemma NamesDifferInLength()
    ensures |"AccountName"| == 11 && |"AccountKey"| == 10 && |"BlobEndpoint"| == 12
    ensures |"DefaultEndpointsProtocol"| == 24 && |"EndpointSuffix"| == 14
  {}

  lemma SameIsEqual(s: string)
    ensures EqualFold(s, s)
  {}

  lemma SecureUrl(url: string)
    requires "https" <= url
    ensures !HttpUrl(url)
  {
    assert url[4] == "https"[4] == 's' && "http://"[4] == ':';
    if |url| >= 7 {
      assert !SameLetter(url[..7][4], "http://"[4]);
    }
  }

  /** A connection string as Azure issues it gives its account, its key and the https
      endpoint of the account, and allows nothing else. */
  lemma UsualString(account: string, key: string, suffix: string)
    requires account != "" && key != "" && PlainValue(account) && PlainValue(key) && PlainValue(suffix)
    ensures ParseSpec(
        "DefaultEndpointsProtocol" + "=" + "https" + ";" + ("AccountName" + "=" + account + ";"
        + ("AccountKey" + "=" + key + ";" + ("EndpointSuffix" + "=" + suffix))))
      == Ok(Info(account, key, Some("https" + "://" + account + ".blob." + suffix), false))
  {
    var items := [Usual("DefaultEndpointsProtocol", "https"), Usual("AccountName", account),
                  Usual("AccountKey", key), Usual("EndpointSuffix", suffix)];
    UsualIsPrinted(account, key, suffix, items);
    UsualDescribes(account, key, suffix, items);
    var url := "https" + "://" + account + ".blob." + suffix;
    SecureUrl(url);
    assert "https" != "http" by { assert |"https"| == 5 && |"http"| == 4; }
    hide AllPrintable, Describes, ParseSpec, PrintAll, HttpUrl, EqualFold, PlainValue;
    SameIsEqual("https");
    ProtocolRoundTrip(items, account, key, "https", "https", suffix);
  }

  lemma UsualIsPrinted(account: string, key: string, suffix: string, items: seq<Item>)
    requires items == [Usual("DefaultEndpointsProtocol", "https"), Usual("AccountName", account),
                       Usual("AccountKey", key), Usual("EndpointSuffix", suffix)]
    ensures PrintAll(items) ==
      "DefaultEndpointsProtocol" + "=" + "https" + ";" + ("AccountName" + "=" + account + ";"
      + ("AccountKey" + "=" + key + ";" + ("EndpointSuffix" + "=" + suffix)))
  {
    hide Print, Usual;
    UsualPrints("DefaultEndpointsProtocol", "https");
    UsualPrints("AccountName", account);
    UsualPrints("AccountKey", key);
    UsualPrints("EndpointSuffix", suffix);
    var p := Printed(items);
    assert Join(p, ';') == p[0] + [';'] + Join(p[1..], ';');
    assert Join(p[1..], ';') == p[1] + [';'] + Join(p[1..][1..], ';');
    assert p[1..][1..] == [p[2], p[3]];
    assert Join([p[2], p[3]], ';') == p[2] + [';'] + Join([p[2], p[3]][1..], ';');
    assert [p[2], p[3]][1..] == [p[3]];
  }

  lemma UsualDescribes(account: string, key: string, suffix: string, items: seq<Item>)
    requires items == [Usual("DefaultEndpointsProtocol", "https"), Usual("AccountName", account),
                       Usual("AccountKey", key), Usual("EndpointSuffix", suffix)]
    requires PlainValue(account) && PlainValue(key) && PlainValue(suffix)
    ensures AllPrintable(items)
    ensures Describes(items, Some(account), Some(key), None, Some("https"), Some(suffix))
  {
    NamesArePlain();
    NamesDifferInLength();
    SameIsEqual("DefaultEndpointsProtocol");
    SameIsEqual("AccountName");
    SameIsEqual("AccountKey");
    SameIsEqual("EndpointSuffix");
    assert PlainValue("https");
    hide PlainKey, PlainValue;
    assert forall i :: 0 <= i < |items| ==> Printable(items[i]);
    assert GivenBy(items, "DefaultEndpointsProtocol", "https", 0);
    assert GivenBy(items, "AccountName", account, 1);
    assert GivenBy(items, "AccountKey", key, 2);
    assert GivenBy(items, "EndpointSuffix", suffix, 3);
  }
}
