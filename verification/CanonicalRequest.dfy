/** The canonical request target and the signed, newline-framed request. */
module CanonicalRequest {
  import opened Query
  import Utf8
  import opened DecimalText

  // ------------------------------------------------------------------ reading a target

  datatype Target = Rejected | Target(path: string, pairs: seq<Pair>)

  function DropLeadingControls(s: string): string {
    if s != "" && s[0] <= ' ' then DropLeadingControls(s[1..]) else s
  }

  predicate IsLineControl(c: char) { c == '\t' || c == '\r' || c == '\n' }

  ghost predicate NoLineControl(s: string) { forall c :: c in s ==> !IsLineControl(c) }

  function DropLineControls(s: string): string {
    if s == "" then ""
    else (if IsLineControl(s[0]) then "" else [s[0]]) + DropLineControls(s[1..])
  }

  function Clean(target: string): string { DropLineControls(DropLeadingControls(target)) }

  /** The part after the authority: the fragment goes, the query starts at the first question mark. */
  function ReadRest(rest: string): Target {
    var url := Before(rest, '#');
    var path := Before(url, '?');
    if path == "" || path[0] != '/' then Rejected else Target(path, ReadPairs(After(url, '?')))
  }

  /** A scheme, an authority or a relative path is refused. Two slashes open an authority: it must be
      empty, and then the path is what follows. Without a leading slash there is a scheme or no absolute
      path, and either is refused. */
  function ReadTarget(target: string): Target { ReadClean(Clean(target)) }

  predicate OneSlash(s: string) { |s| >= 1 && s[0] == '/' }

  predicate FourSlashes(s: string) { TwoSlashes(s) && |s| >= 4 && s[2] == '/' && s[3] == '/' }

  predicate TwoSlashes(s: string) { OneSlash(s) && |s| >= 2 && s[1] == '/' }

  function ReadClean(url: string): Target {
    if !OneSlash(url) then Rejected
    else if !TwoSlashes(url) then ReadRest(url)
    else if |url| > 2 && url[2] != '/' && url[2] != '?' && url[2] != '#' then Rejected
    else ReadRest(url[2..])
  }

  // ------------------------------------------------------------------ printing it canonically

  datatype Canonical = Error | Text(text: string)

  function PrintTarget(path: string, pairs: seq<Pair>): string {
    if pairs == [] then path else path + "?" + PrintPairs(pairs)
  }

  function CanonicalTarget(target: string): Canonical {
    match ReadTarget(target)
    case Rejected => Error
    case Target(path, pairs) => Text(PrintTarget(path, Sort(pairs)))
  }

  /** What reading leaves in a path. */
  ghost predicate IsPath(path: string) {
    && path != "" && path[0] == '/' && '?' !in path && '#' !in path
    && NoLineControl(path)
  }

  lemma {:induction false} DropLineControlsDrops(s: string)
    ensures NoLineControl(DropLineControls(s))
  {
    if s != "" { DropLineControlsDrops(s[1..]); }
  }

  lemma {:induction false} DropsNothing(s: string)
    requires NoLineControl(s)
    ensures DropLineControls(s) == s
  {
    if s != "" { DropsNothing(s[1..]); }
  }

  lemma ReadRestPath(rest: string)
    requires NoLineControl(rest)
    ensures var t := ReadRest(rest); t.Target? ==> IsPath(t.path)
  {
    var url := Before(rest, '#');
    var path := Before(url, '?');
    assert forall c :: c in path ==> c in url;
    assert forall c :: c in url ==> c in rest;
  }

  lemma ReadTargetPath(target: string)
    ensures var t := ReadTarget(target); t.Target? ==> IsPath(t.path)
  {
    var url := Clean(target);
    DropLineControlsDrops(DropLeadingControls(target));
    ReadRestPath(url);
    if |url| >= 2 {
      assert forall c :: c in url[2..] ==> c in url;
      ReadRestPath(url[2..]);
    }
  }

  lemma PrintTargetInjective(path: string, pairs: seq<Pair>, path': string, pairs': seq<Pair>)
    requires IsPath(path) && IsPath(path')
    ensures PrintTarget(path, pairs) == PrintTarget(path', pairs') <==> path == path' && pairs == pairs'
  {
    ReadPrinted(path, pairs);
    ReadPrinted(path', pairs');
  }

  lemma ReadPathAlone(path: string)
    requires IsPath(path)
    ensures ReadRest(path) == Target(path, [])
  {
    FindNothing(path, '#');
    FindNothing(path, '?');
    assert ReadPairs("") == [];
  }

  lemma ReadPathAndQuery(path: string, query: string)
    requires IsPath(path) && '#' !in query
    ensures ReadRest(path + "?" + query) == Target(path, ReadPairs(query))
  {
    FindNothing(path + "?" + query, '#');
    FindSeparator(path, '?', query);
  }

  /** Splitting a printed target at the question mark gives its path and its pairs back. */
  lemma ReadPrinted(path: string, pairs: seq<Pair>)
    requires IsPath(path)
    ensures ReadRest(PrintTarget(path, pairs)) == Target(path, pairs)
  {
    PrintedPairsText(pairs);
    ReadOfPrintedPairs(pairs);
    if pairs == [] { ReadPathAlone(path); } else { ReadPathAndQuery(path, PrintPairs(pairs)); }
  }

  lemma PrintedText(path: string, pairs: seq<Pair>)
    requires IsPath(path)
    ensures NoLineControl(PrintTarget(path, pairs)) && PrintTarget(path, pairs)[0] == '/'
  {
    PrintedPairsText(pairs);
    assert NoLineControl(PrintPairs(pairs));
    assert NoLineControl("?");
  }

  lemma PrintedIsClean(path: string, pairs: seq<Pair>)
    requires IsPath(path)
    ensures Clean(PrintTarget(path, pairs)) == PrintTarget(path, pairs)
  {
    PrintedText(path, pairs);
    DropsNothing(PrintTarget(path, pairs));
  }

  // ------------------------------------------------------------------ main results about targets

  /** Accepted targets share a canonical form exactly when they have the same path and the same pairs,
      counted but in any order. */
  lemma SameCanonicalFormIff(s: string, t: string)
    requires ReadTarget(s).Target? && ReadTarget(t).Target?
    ensures CanonicalTarget(s) == CanonicalTarget(t) <==>
            ReadTarget(s).path == ReadTarget(t).path && multiset(ReadTarget(s).pairs) == multiset(ReadTarget(t).pairs)
  {
    var a, b := ReadTarget(s), ReadTarget(t);
    ReadTargetPath(s);
    ReadTargetPath(t);
    PrintTargetInjective(a.path, Sort(a.pairs), b.path, Sort(b.pairs));
    SortsEqualIff(a.pairs, b.pairs);
  }

  /** A path of one leading slash survives being read again. */
  lemma SingleSlashReadsBack(path: string, pairs: seq<Pair>)
    requires IsPath(path) && !(TwoSlashes(path))
    ensures ReadTarget(PrintTarget(path, pairs)) == Target(path, pairs)
  {
    PrintedIsClean(path, pairs);
    SingleSlashIsPath(path, pairs);
  }

  /** A printed target opens with its path, and with a question mark behind it. */
  lemma PrintedOpens(path: string, pairs: seq<Pair>)
    ensures path <= PrintTarget(path, pairs)
    ensures |path| < |PrintTarget(path, pairs)| ==> PrintTarget(path, pairs)[|path|] == '?'
  {
  }

  lemma SingleSlashIsPath(path: string, pairs: seq<Pair>)
    requires IsPath(path) && !TwoSlashes(path)
    ensures ReadClean(PrintTarget(path, pairs)) == Target(path, pairs)
  {
    PrintedOpens(path, pairs);
    ReadPrinted(path, pairs);
  }

  lemma DroppedTwo(path: string, pairs: seq<Pair>)
    requires |path| >= 2
    ensures |PrintTarget(path, pairs)| >= 2 && PrintTarget(path, pairs)[2..] == PrintTarget(path[2..], pairs)
  {
  }

  lemma DoubleSlashIsAuthority(path: string, pairs: seq<Pair>)
    requires IsPath(path) && TwoSlashes(path)
    ensures var t := ReadClean(PrintTarget(path, pairs)); t.Target? ==> t.path != path
  {
    PrintedOpens(path, pairs);
    DroppedTwo(path, pairs);
    if |path| > 2 && path[2] == '/' {
      ReadPrinted(path[2..], pairs);
    } else {
      RestIsRejected(path[2..], pairs);
    }
  }

  /** What is left of a path of two slashes is no absolute path, unless there is a third. */
  lemma RestIsRejected(rest: string, pairs: seq<Pair>)
    requires !OneSlash(rest) && '#' !in rest && '?' !in rest
    ensures ReadRest(PrintTarget(rest, pairs)) == Rejected
  {
    PrintedPairsText(pairs);
    FindNothing(PrintTarget(rest, pairs), '#');
    if pairs == [] { FindNothing(rest, '?'); } else { FindSeparator(rest, '?', PrintPairs(pairs)); }
  }

  /** A path of two leading slashes does not: they are read as an authority. */
  lemma DoubleSlashIsLost(path: string, pairs: seq<Pair>)
    requires IsPath(path) && TwoSlashes(path)
    ensures var t := ReadTarget(PrintTarget(path, pairs)); t.Target? ==> t.path != path
  {
    PrintedIsClean(path, pairs);
    DoubleSlashIsAuthority(path, pairs);
  }

  /** The path of an accepted target opens with two slashes exactly when the cleaned target opens with four. */
  lemma DoubleSlashIff(target: string)
    requires ReadTarget(target).Target?
    ensures TwoSlashes(ReadTarget(target).path) <==> FourSlashes(Clean(target))
  {
    var url := Clean(target);
    var rest := if TwoSlashes(url) then url[2..] else url;
    var path := ReadTarget(target).path;
    assert path == Before(Before(rest, '#'), '?');
    assert path <= rest;
    if TwoSlashes(rest) {
      assert Find(rest, '#') >= 2 && Find(Before(rest, '#'), '?') >= 2;
    }
  }

  /** Canonicalising an accepted target twice changes nothing unless the cleaned target opens with four
      slashes; then the canonical form is refused or means another path. */
  lemma CanonicalTwiceIff(target: string)
    requires CanonicalTarget(target).Text?
    ensures CanonicalTarget(CanonicalTarget(target).text) == CanonicalTarget(target) <==> !(FourSlashes(Clean(target)))
  {
    var t := ReadTarget(target);
    var printed := PrintTarget(t.path, Sort(t.pairs));
    ReadTargetPath(target);
    DoubleSlashIff(target);
    SortTwice(t.pairs);
    if TwoSlashes(t.path) {
      DoubleSlashIsLost(t.path, Sort(t.pairs));
      ReadTargetPath(printed);
      var again := ReadTarget(printed);
      if again.Target? {
        PrintTargetInjective(again.path, Sort(again.pairs), t.path, Sort(t.pairs));
      }
    } else {
      SingleSlashReadsBack(t.path, Sort(t.pairs));
    }
  }

  /** What is read of a target: path up to the question mark, query up to the number sign. */
  lemma ReadsPathAndQuery(path: string, query: string, fragment: string)
    requires IsPath(path) && !TwoSlashes(path) && '#' !in query && NoLineControl(query) && NoLineControl(fragment)
    ensures ReadTarget(path + "?" + query) == Target(path, ReadPairs(query))
    ensures ReadTarget(path + "?" + query + "#" + fragment) == Target(path, ReadPairs(query))
  {
    var url := path + "?" + query;
    DropsNothing(url);
    DropsNothing(url + "#" + fragment);
    FindNothing(url, '#');
    FindSeparator(url, '#', fragment);
    FindSeparator(path, '?', query);
  }

  /** A target without a leading slash, or with an authority behind two, is refused. */
  lemma Refuses(url: string)
    requires !OneSlash(url) || (TwoSlashes(url) && |url| > 2 && url[2] != '/' && url[2] != '?' && url[2] != '#')
    ensures ReadClean(url) == Rejected
  {
  }

  /** Cleaning drops leading controls and spaces, and tabs and line breaks anywhere. */
  lemma {:induction false} CleanIs(controls: string, target: string)
    requires (forall c :: c in controls ==> c <= ' ') && (target == "" || target[0] > ' ')
    ensures DropLeadingControls(controls + target) == target
    decreases |controls|
  {
    if controls == "" { assert controls + target == target; }
    else {
      assert (controls + target)[0] == controls[0] && controls[0] in controls;
      assert (controls + target)[1..] == controls[1..] + target;
      assert forall c :: c in controls[1..] ==> c in controls;
      CleanIs(controls[1..], target);
    }
  }

  lemma LineControlIsDropped(c: char)
    ensures DropLineControls([c]) == if c == '\t' || c == '\r' || c == '\n' then "" else [c]
  {
    assert [c][1..] == "";
  }

  lemma {:induction false} LineControlsAreDropped(a: string, b: string)
    ensures DropLineControls(a + b) == DropLineControls(a) + DropLineControls(b)
    decreases |a|
  {
    if a == "" { assert a + b == b; }
    else {
      assert (a + b)[0] == a[0];
      assert (a + b)[1..] == a[1..] + b;
      LineControlsAreDropped(a[1..], b);
    }
  }

  /** An empty authority in front of a printed target is skipped. */
  lemma EmptyAuthorityIsSkipped(path: string, pairs: seq<Pair>)
    requires IsPath(path)
    ensures ReadTarget("//" + PrintTarget(path, pairs)) == Target(path, pairs)
  {
    var printed := PrintTarget(path, pairs);
    PrintedText(path, pairs);
    DropsNothing("//" + printed);
    ReadPrinted(path, pairs);
    assert ("//" + printed)[2..] == printed;
  }

  lemma {:induction false} TwoSlashesRead()
    ensures ReadTarget("//a") == Rejected
  {
    DropsNothing("//a");
  }

  lemma FourSlashesAreRefused()
    ensures CanonicalTarget("////a") == Text("//a") && CanonicalTarget("//a") == Error
  {
    EmptyAuthorityIsSkipped("//a", []);
    assert "//" + "//a" == "////a";
    TwoSlashesRead();
  }

  // ------------------------------------------------------------------ the signed request

  const SCHEME := "BARAQ-HMAC-V2"

  datatype Request = Request(service: string, keyId: string, timestamp: int, nonce: string, httpMethod: string,
                             target: string, bodySha256: string)

  /** The upper-case mapping of one code point, which may be several. Nothing is used of it but that no
      mapping makes a line break. */
  type CaseMap = char -> string

  ghost predicate MakesNoLine(upper: CaseMap) { forall c :: c != '\n' ==> '\n' !in upper(c) }

  function Upper(upper: CaseMap, s: string): string {
    if s == "" then "" else upper(s[0]) + Upper(upper, s[1..])
  }

  function Join(fields: seq<string>): string {
    if fields == [] then "" else if |fields| == 1 then fields[0] else fields[0] + "\n" + Join(fields[1..])
  }

  function LaterFields(upper: CaseMap, r: Request, target: string): seq<string> {
    [Decimal(r.timestamp), r.nonce, Upper(upper, r.httpMethod), target, r.bodySha256]
  }

  function Fields(upper: CaseMap, r: Request, target: string): seq<string> {
    [SCHEME] + ([r.service] + ([r.keyId] + LaterFields(upper, r, target)))
  }

  datatype Signed = Refused | Bytes(bytes: seq<Utf8.Byte>)

  function CanonicalBytes(upper: CaseMap, r: Request): Signed {
    match CanonicalTarget(r.target)
    case Error => Refused
    case Text(target) => Bytes(Utf8.Encode(Join(Fields(upper, r, target))))
  }

  ghost predicate OneLine(s: string) { '\n' !in s }

  ghost predicate OneLineFields(r: Request) {
    OneLine(r.service) && OneLine(r.keyId) && OneLine(r.nonce) && OneLine(r.httpMethod) && OneLine(r.bodySha256)
  }

  ghost predicate AllOneLine(fields: seq<string>) { forall i :: 0 <= i < |fields| ==> OneLine(fields[i]) }

  lemma {:induction false} UpperStaysOneLine(upper: CaseMap, s: string)
    requires MakesNoLine(upper) && OneLine(s)
    ensures OneLine(Upper(upper, s))
  {
    if s != "" {
      assert s[0] in s;
      UpperStaysOneLine(upper, s[1..]);
    }
  }

  lemma {:induction false} JoinInjective(a: seq<string>, b: seq<string>)
    requires |a| == |b| && AllOneLine(a) && AllOneLine(b)
    ensures Join(a) == Join(b) <==> a == b
  {
    if |a| > 1 {
      FindSeparator(a[0], '\n', Join(a[1..]));
      FindSeparator(b[0], '\n', Join(b[1..]));
      JoinInjective(a[1..], b[1..]);
      assert a == [a[0]] + a[1..] && b == [b[0]] + b[1..];
    }
  }

  lemma CanonicalTargetIsOneLine(target: string)
    ensures CanonicalTarget(target).Text? ==> OneLine(CanonicalTarget(target).text)
  {
    var t := ReadTarget(target);
    if t.Target? {
      ReadTargetPath(target);
      PrintedText(t.path, Sort(t.pairs));
    }
  }

  lemma FieldsAreOneLine(upper: CaseMap, r: Request, target: string)
    requires MakesNoLine(upper) && OneLineFields(r) && OneLine(target)
    ensures AllOneLine(Fields(upper, r, target))
  {
    DecimalReadBack(r.timestamp);
    UpperStaysOneLine(upper, r.httpMethod);
  }

  /** What a signature over the canonical bytes fixes. */
  ghost predicate SameMeaning(upper: CaseMap, a: Request, b: Request) {
    && a.service == b.service && a.keyId == b.keyId && a.timestamp == b.timestamp && a.nonce == b.nonce
    && Upper(upper, a.httpMethod) == Upper(upper, b.httpMethod) && a.bodySha256 == b.bodySha256
    && ReadTarget(a.target).Target? && ReadTarget(b.target).Target?
    && ReadTarget(a.target).path == ReadTarget(b.target).path
    && multiset(ReadTarget(a.target).pairs) == multiset(ReadTarget(b.target).pairs)
  }

  lemma FieldsAre(upper: CaseMap, r: Request, target: string)
    ensures var f := Fields(upper, r, target);
      && |f| == 8 && f[0] == SCHEME && f[1] == r.service && f[2] == r.keyId && f[3] == Decimal(r.timestamp)
      && f[4] == r.nonce && f[5] == Upper(upper, r.httpMethod) && f[6] == target && f[7] == r.bodySha256
  {
  }

  lemma FieldsDetermine(upper: CaseMap, a: Request, s: string, b: Request, t: string)
    ensures Fields(upper, a, s) == Fields(upper, b, t) <==>
      && a.service == b.service && a.keyId == b.keyId && Decimal(a.timestamp) == Decimal(b.timestamp) && a.nonce == b.nonce
      && Upper(upper, a.httpMethod) == Upper(upper, b.httpMethod) && s == t && a.bodySha256 == b.bodySha256
  {
    FieldsAre(upper, a, s);
    FieldsAre(upper, b, t);
    var f, g := Fields(upper, a, s), Fields(upper, b, t);
    assert f == g ==> forall k :: 0 <= k < 8 ==> f[k] == g[k];
    assert f == [f[0], f[1], f[2], f[3], f[4], f[5], f[6], f[7]] && g == [g[0], g[1], g[2], g[3], g[4], g[5], g[6], g[7]];
  }

  /** Accepted requests with fields of one line have the same bytes exactly when they mean the same. */
  lemma SameBytesIff(upper: CaseMap, a: Request, b: Request)
    requires MakesNoLine(upper) && OneLineFields(a) && OneLineFields(b)
    ensures CanonicalBytes(upper, a).Bytes? && CanonicalBytes(upper, b).Bytes? ==>
      (CanonicalBytes(upper, a) == CanonicalBytes(upper, b) <==> SameMeaning(upper, a, b))
  {
    if !CanonicalBytes(upper, a).Bytes? || !CanonicalBytes(upper, b).Bytes? { return; }
    var s, t := CanonicalTarget(a.target).text, CanonicalTarget(b.target).text;
    var f, g := Fields(upper, a, s), Fields(upper, b, t);
    CanonicalTargetIsOneLine(a.target);
    CanonicalTargetIsOneLine(b.target);
    FieldsAreOneLine(upper, a, s);
    FieldsAreOneLine(upper, b, t);
    Utf8.EncodeInjective(Join(f), Join(g));
    JoinInjective(f, g);
    DecimalReadBack(a.timestamp);
    DecimalReadBack(b.timestamp);
    SameCanonicalFormIff(a.target, b.target);
    FieldsDetermine(upper, a, s, b, t);
  }

  // ------------------------------------------------------------------ the lines of the bytes

  function Breaks(text: string): nat {
    if text == "" then 0 else (if text[0] == '\n' then 1 else 0) + Breaks(text[1..])
  }

  /** The line after k line breaks. */
  function Line(text: string, k: nat): string
    decreases k
  {
    if k == 0 then Before(text, '\n') else Line(After(text, '\n'), k - 1)
  }

  lemma {:induction false} BreaksOf(a: string, b: string)
    requires OneLine(a)
    ensures Breaks(a) == 0 && Breaks(a + "\n" + b) == 1 + Breaks(b)
  {
    if a == "" {
      assert ("\n" + b)[1..] == b;
      assert a + "\n" + b == "\n" + b;
    } else {
      assert (a + "\n" + b)[0] == a[0] && a[0] in a;
      assert (a + "\n" + b)[1..] == a[1..] + "\n" + b;
      BreaksOf(a[1..], b);
    }
  }

  /** Joined lines can be read again one by one. */
  lemma {:induction false} LinesOfJoin(fields: seq<string>, k: nat)
    requires AllOneLine(fields) && k < |fields|
    ensures Breaks(Join(fields)) == |fields| - 1 && Line(Join(fields), k) == fields[k]
    decreases |fields|
  {
    if |fields| == 1 {
      BreaksOf(fields[0], "");
      FindNothing(fields[0], '\n');
    } else {
      BreaksOf(fields[0], Join(fields[1..]));
      FindSeparator(fields[0], '\n', Join(fields[1..]));
      LinesOfJoin(fields[1..], if k == 0 then 0 else k - 1);
    }
  }

  /** The eight lines to be signed, in this order. */
  ghost predicate IsFrame(text: string, upper: CaseMap, r: Request) {
    && Breaks(text) == 7
    && Line(text, 0) == "BARAQ-HMAC-V2"
    && Line(text, 1) == r.service
    && Line(text, 2) == r.keyId
    && IsPlain(Line(text, 3)) && ReadDecimal(Line(text, 3)) == r.timestamp
    && Line(text, 4) == r.nonce
    && Line(text, 5) == Upper(upper, r.httpMethod)
    && Text(Line(text, 6)) == CanonicalTarget(r.target)
    && Line(text, 7) == r.bodySha256
  }

  /** The bytes of an accepted request with fields of one line are the UTF-8 of those lines. */
  lemma BytesAreFrame(upper: CaseMap, r: Request)
    requires MakesNoLine(upper) && OneLineFields(r)
    ensures CanonicalBytes(upper, r).Bytes? ==> IsFrame(Utf8.Decode(CanonicalBytes(upper, r).bytes), upper, r)
  {
    if !CanonicalBytes(upper, r).Bytes? { return; }
    var target := CanonicalTarget(r.target).text;
    var fields := Fields(upper, r, target);
    CanonicalTargetIsOneLine(r.target);
    FieldsAreOneLine(upper, r, target);
    FieldsAre(upper, r, target);
    Utf8.DecodeOfEncoded(Join(fields));
    DecimalReadBack(r.timestamp);
    DecimalIsPlain(r.timestamp);
    forall k | 0 <= k < 8 ensures Breaks(Join(fields)) == 7 && Line(Join(fields), k) == fields[k] { LinesOfJoin(fields, k); }
  }

  /** Upper-casing maps one character at a time. */
  lemma {:induction false} UpperAppend(upper: CaseMap, a: string, b: string)
    ensures Upper(upper, a + b) == Upper(upper, a) + Upper(upper, b)
    ensures forall c :: Upper(upper, [c]) == upper(c)
    decreases |a|
  {
    forall c ensures Upper(upper, [c]) == upper(c) { assert [c][1..] == ""; }
    if a == "" { assert a + b == b; }
    else {
      assert (a + b)[0] == a[0] && (a + b)[1..] == a[1..] + b;
      UpperAppend(upper, a[1..], b);
    }
  }

  // ------------------------------------------------------------------ line breaks in fields

  lemma JoinMore(x: string, tail: seq<string>)
    requires tail != []
    ensures Join([x] + tail) == x + "\n" + Join(tail)
  {
    assert ([x] + tail)[1..] == tail;
  }

  lemma LineBreakMoves(a: string, b: string, c: string, tail: seq<string>)
    requires tail != []
    ensures Join([a + "\n" + b] + ([c] + tail)) == Join([a] + ([b + "\n" + c] + tail))
  {
    JoinMore(a + "\n" + b, [c] + tail);
    JoinMore(c, tail);
    JoinMore(a, [b + "\n" + c] + tail);
    JoinMore(b + "\n" + c, tail);
    var end := "\n" + Join(tail);
    assert (a + "\n" + b) + "\n" + (c + end) == a + "\n" + ((b + "\n" + c) + end);
  }

  lemma FieldsCollide(upper: CaseMap, r: Request, target: string, a: string, b: string, c: string)
    ensures Join(Fields(upper, r.(service := a + "\n" + b, keyId := c), target))
            == Join(Fields(upper, r.(service := a, keyId := b + "\n" + c), target))
  {
    var tail := LaterFields(upper, r, target);
    LineBreakMoves(a, b, c, tail);
    JoinMore(SCHEME, [a + "\n" + b] + ([c] + tail));
    JoinMore(SCHEME, [a] + ([b + "\n" + c] + tail));
  }

  /** Without that restriction two requests can share their bytes: a line break moves between fields. */
  lemma LineBreaksCanCollide(upper: CaseMap, r: Request, a: string, b: string, c: string)
    ensures CanonicalBytes(upper, r.(service := a + "\n" + b, keyId := c)) == CanonicalBytes(upper, r.(service := a, keyId := b + "\n" + c))
  {
    if CanonicalTarget(r.target).Text? {
      FieldsCollide(upper, r, CanonicalTarget(r.target).text, a, b, c);
    }
  }
}
