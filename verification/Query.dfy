/** Query strings: percent-encoding, pairs, printing, parsing and sorting. */
module Query {
  import opened Utf8

  datatype Pair = Pair(name: string, value: string)

  // ------------------------------------------------------------------ percent-encoding

  /** The characters that stay literal. */
  predicate Unreserved(c: char) {
    'A' <= c <= 'Z' || 'a' <= c <= 'z' || '0' <= c <= '9' || c == '-' || c == '.' || c == '_' || c == '~'
  }

  function HexDigit(d: int): char
    requires 0 <= d < 16
  {
    if d < 10 then '0' + d as char else 'A' + (d - 10) as char
  }

  predicate IsHex(c: char) { '0' <= c <= '9' || 'A' <= c <= 'F' || 'a' <= c <= 'f' }

  /** Either case is read. */
  function HexValue(c: char): int
    requires IsHex(c)
  {
    if c <= '9' then c as int - '0' as int
    else if c <= 'F' then c as int - 'A' as int + 10
    else c as int - 'a' as int + 10
  }

  function QuoteByte(b: Byte): string {
    if b < 128 && Unreserved(b as char) then [b as char] else ['%', HexDigit(b / 16), HexDigit(b % 16)]
  }

  function QuoteBytes(b: seq<Byte>): string {
    if b == [] then "" else QuoteByte(b[0]) + QuoteBytes(b[1..])
  }

  function Quote(s: string): string { QuoteBytes(Encode(s)) }

  predicate IsAscii(s: string) { forall i :: 0 <= i < |s| ==> s[i] < 128 as char }

  /** A percent sign without two hexadecimal digits behind it stands for itself. */
  function UnquoteBytes(s: string): seq<Byte>
    requires IsAscii(s)
  {
    if s == "" then []
    else if s[0] == '%' && |s| >= 3 && IsHex(s[1]) && IsHex(s[2]) then
      [HexValue(s[1]) * 16 + HexValue(s[2])] + UnquoteBytes(s[3..])
    else [s[0] as int] + UnquoteBytes(s[1..])
  }

  function AsciiRun(s: string): (n: nat)
    ensures n <= |s| && IsAscii(s[..n]) && (n < |s| ==> s[n] >= 128 as char)
  {
    if s == "" || s[0] >= 128 as char then 0 else 1 + AsciiRun(s[1..])
  }

  /** Runs of ASCII are unquoted and decoded one by one; other characters stay. */
  function Unquote(s: string): string {
    var n := AsciiRun(s);
    if s == "" then "" else if n == 0 then [s[0]] + Unquote(s[1..]) else Decode(UnquoteBytes(s[..n])) + Unquote(s[n..])
  }

  /** Printed text is made of these characters only. */
  ghost predicate IsQuoted(s: string) { forall c :: c in s ==> Unreserved(c) || c == '%' }

  lemma {:induction false} QuoteBytesIsQuoted(b: seq<Byte>)
    ensures IsQuoted(QuoteBytes(b)) && IsAscii(QuoteBytes(b))
  {
    if b != [] { QuoteBytesIsQuoted(b[1..]); }
  }

  lemma QuotedByteReadBack(b: Byte, rest: string)
    requires IsAscii(rest)
    ensures IsAscii(QuoteByte(b) + rest) && UnquoteBytes(QuoteByte(b) + rest) == [b] + UnquoteBytes(rest)
  {
    var q := QuoteByte(b);
    assert (q + rest)[|q|..] == rest;
    assert q == [q[0]] || q == [q[0], q[1], q[2]];
  }

  lemma {:induction false} UnquoteBytesOfQuoted(b: seq<Byte>)
    ensures IsAscii(QuoteBytes(b)) && UnquoteBytes(QuoteBytes(b)) == b
  {
    if b != [] {
      UnquoteBytesOfQuoted(b[1..]);
      QuotedByteReadBack(b[0], QuoteBytes(b[1..]));
    }
  }

  lemma {:induction false} AsciiRunOfAscii(s: string)
    requires IsAscii(s)
    ensures AsciiRun(s) == |s|
  {
    if s != "" { AsciiRunOfAscii(s[1..]); }
  }

  /** A byte is printed as its unreserved character, or as a percent sign and two upper-case digits for it. */
  lemma QuoteByteIs(b: Byte)
    ensures b < 128 && Unreserved(b as char) ==> QuoteByte(b) == [b as char]
    ensures !(b < 128 && Unreserved(b as char)) ==>
      exists h, l :: QuoteByte(b) == ['%', h, l] && IsUpperHex(h) && IsUpperHex(l) && HexValue(h) * 16 + HexValue(l) == b
  {
    if !(b < 128 && Unreserved(b as char)) {
      var h, l := HexDigit(b / 16), HexDigit(b % 16);
      assert QuoteByte(b) == ['%', h, l] && IsUpperHex(h) && IsUpperHex(l) && HexValue(h) * 16 + HexValue(l) == b;
    }
  }

  predicate IsUpperHex(c: char) { '0' <= c <= '9' || 'A' <= c <= 'F' }

  /** The sixteen digits count up, and lower case reads as upper case. */
  lemma HexValuesCountUp()
    ensures HexValue('0') == 0 && HexValue('A') == 10
    ensures forall c :: ('0' <= c < '9' || 'A' <= c < 'F') ==> HexValue((c as int + 1) as char) == HexValue(c) + 1
    ensures forall c :: 'A' <= c <= 'F' ==> HexValue((c as int + 32) as char) == HexValue(c)
  {
  }

  /** Printing is done byte by byte. */
  lemma {:induction false} QuoteBytesAppend(a: seq<Byte>, b: seq<Byte>)
    ensures QuoteBytes(a + b) == QuoteBytes(a) + QuoteBytes(b)
    decreases |a|
  {
    if a == [] { assert a + b == b; }
    else {
      assert (a + b)[0] == a[0] && (a + b)[1..] == a[1..] + b;
      QuoteBytesAppend(a[1..], b);
    }
  }

  /** A percent sign with two digits of either case is that byte. */
  lemma UnquotePercent(s: string)
    requires IsAscii(s) && |s| >= 3 && s[0] == '%' && IsHex(s[1]) && IsHex(s[2])
    ensures UnquoteBytes(s) == [HexValue(s[1]) * 16 + HexValue(s[2])] + UnquoteBytes(s[3..])
  {
  }

  /** Every other character, a percent sign without two digits included, stands for itself. */
  lemma UnquoteLiteral(s: string)
    requires IsAscii(s) && s != "" && (s[0] != '%' || |s| < 3 || !IsHex(s[1]) || !IsHex(s[2]))
    ensures UnquoteBytes(s) == [s[0] as int] + UnquoteBytes(s[1..])
  {
  }

  /** Unquoting undoes quoting, for every string of Unicode scalar values. */
  lemma UnquoteOfQuoted(s: string)
    ensures Unquote(Quote(s)) == s
  {
    var b, q := Encode(s), Quote(s);
    UnquoteBytesOfQuoted(b);
    AsciiRunOfAscii(q);
    DecodeOfEncoded(s);
    assert q[..|q|] == q && q[|q|..] == "";
    assert Unquote(q[|q|..]) == "";
  }

  // ------------------------------------------------------------------ splitting

  /** Where c first occurs, or the length. */
  function Find(s: string, c: char): (n: nat)
    ensures n <= |s| && c !in s[..n] && (n < |s| ==> s[n] == c)
  {
    if s == "" || s[0] == c then 0 else 1 + Find(s[1..], c)
  }

  function Before(s: string, c: char): string { s[..Find(s, c)] }

  function After(s: string, c: char): (r: string)
    ensures s != "" ==> |r| < |s|
  {
    if Find(s, c) < |s| then s[Find(s, c) + 1..] else ""
  }

  lemma {:induction false} FindSeparator(a: string, c: char, b: string)
    requires c !in a
    ensures Before(a + [c] + b, c) == a && After(a + [c] + b, c) == b
  {
    var s := a + [c] + b;
    if a == "" {
      assert s[1..] == b;
    } else {
      assert s[1..] == a[1..] + [c] + b;
      FindSeparator(a[1..], c, b);
      assert Find(s, c) == 1 + Find(s[1..], c) == |a|;
    }
  }

  lemma {:induction false} FindNothing(a: string, c: char)
    requires c !in a
    ensures Before(a, c) == a && After(a, c) == ""
  {
    if a != "" { FindNothing(a[1..], c); }
  }

  // ------------------------------------------------------------------ pairs

  function PlusToSpace(s: string): string {
    if s == "" then "" else [if s[0] == '+' then ' ' else s[0]] + PlusToSpace(s[1..])
  }

  function ReadText(s: string): string { Unquote(PlusToSpace(s)) }

  function ReadPair(piece: string): Pair { Pair(ReadText(Before(piece, '=')), ReadText(After(piece, '='))) }

  /** Empty pieces are skipped, blank values are kept. */
  function ReadPairs(query: string): seq<Pair>
    decreases |query|
  {
    if query == "" then []
    else
      var piece := Before(query, '&');
      (if piece == "" then [] else [ReadPair(piece)]) + ReadPairs(After(query, '&'))
  }

  function PrintPair(p: Pair): string { Quote(p.name) + "=" + Quote(p.value) }

  function PrintPairs(pairs: seq<Pair>): string {
    if pairs == [] then ""
    else if |pairs| == 1 then PrintPair(pairs[0])
    else PrintPair(pairs[0]) + "&" + PrintPairs(pairs[1..])
  }

  /** No separator of a larger structure, no control character. */
  ghost predicate IsQueryText(s: string) { forall c :: c in s ==> Unreserved(c) || c == '%' || c == '=' || c == '&' }

  lemma {:induction false} NothingToRewrite(s: string)
    requires IsQuoted(s)
    ensures PlusToSpace(s) == s
  {
    if s != "" {
      assert s[0] in s;
      NothingToRewrite(s[1..]);
    }
  }

  lemma ReadOfQuoted(s: string)
    ensures ReadText(Quote(s)) == s
  {
    QuoteBytesIsQuoted(Encode(s));
    NothingToRewrite(Quote(s));
    UnquoteOfQuoted(s);
  }

  lemma PrintedPairText(p: Pair)
    ensures PrintPair(p) != "" && '&' !in PrintPair(p) && IsQueryText(PrintPair(p))
  {
    QuoteBytesIsQuoted(Encode(p.name));
    QuoteBytesIsQuoted(Encode(p.value));
  }

  lemma ReadOfPrintedPair(p: Pair)
    ensures ReadPair(PrintPair(p)) == p
  {
    QuoteBytesIsQuoted(Encode(p.name));
    FindSeparator(Quote(p.name), '=', Quote(p.value));
    ReadOfQuoted(p.name);
    ReadOfQuoted(p.value);
  }

  lemma {:induction false} PrintedPairsText(pairs: seq<Pair>)
    ensures IsQueryText(PrintPairs(pairs)) && (PrintPairs(pairs) == "" <==> pairs == [])
  {
    if pairs != [] {
      PrintedPairText(pairs[0]);
      PrintedPairsText(pairs[1..]);
    }
  }

  lemma ReadPairThenRest(p: Pair, rest: string)
    ensures ReadPairs(PrintPair(p)) == [p] && ReadPairs(PrintPair(p) + "&" + rest) == [p] + ReadPairs(rest)
  {
    var first := PrintPair(p);
    PrintedPairText(p);
    ReadOfPrintedPair(p);
    FindNothing(first, '&');
    FindSeparator(first, '&', rest);
    assert ReadPairs("") == [];
  }

  /** Parsing undoes printing, for every list of pairs: empty names and values, repeated names, any text. */
  lemma {:induction false} ReadOfPrintedPairs(pairs: seq<Pair>)
    ensures ReadPairs(PrintPairs(pairs)) == pairs
  {
    if pairs != [] {
      ReadPairThenRest(pairs[0], PrintPairs(pairs[1..]));
      ReadOfPrintedPairs(pairs[1..]);
    }
  }

  // ------------------------------------------------------------------ what reading does to text that was not printed

  /** Pieces are read from the left, and an empty one is skipped. */
  lemma ReadPairsIs(piece: string, rest: string)
    requires '&' !in piece
    ensures ReadPairs(piece + "&" + rest) == (if piece == "" then [] else [ReadPair(piece)]) + ReadPairs(rest)
    ensures piece != "" ==> ReadPairs(piece) == [ReadPair(piece)]
  {
    FindSeparator(piece, '&', rest);
    FindNothing(piece, '&');
    assert ReadPairs("") == [];
    assert piece + "&" + rest != "";
  }

  /** The first equals sign ends the name; without one the value is blank. */
  lemma ReadPairIs(name: string, value: string)
    requires '=' !in name
    ensures ReadPair(name + "=" + value) == Pair(ReadText(name), ReadText(value))
    ensures ReadPair(name) == Pair(ReadText(name), "")
  {
    FindSeparator(name, '=', value);
    FindNothing(name, '=');
    assert ReadText("") == "";
  }

  /** A plus sign is a space, every other character itself, before anything is unquoted. */
  lemma {:induction false} PlusToSpaceIs(s: string)
    ensures |PlusToSpace(s)| == |s|
    ensures forall i :: 0 <= i < |s| ==> PlusToSpace(s)[i] == if s[i] == '+' then ' ' else s[i]
  {
    if s != "" { PlusToSpaceIs(s[1..]); }
  }

  /** The pieces of a printed query, from the left. */
  lemma PrintPairsIs(pairs: seq<Pair>)
    requires pairs != []
    ensures var first := Quote(pairs[0].name) + "=" + Quote(pairs[0].value);
      PrintPairs(pairs) == if |pairs| == 1 then first else first + "&" + PrintPairs(pairs[1..])
  {
  }

  // ------------------------------------------------------------------ sorting

  predicate TextLeq(a: string, b: string) {
    a == "" || (b != "" && (a[0] < b[0] || (a[0] == b[0] && TextLeq(a[1..], b[1..]))))
  }

  predicate PairLeq(p: Pair, q: Pair) {
    if p.name == q.name then TextLeq(p.value, q.value) else TextLeq(p.name, q.name)
  }

  lemma {:induction false} TextLeqTotal(a: string, b: string)
    ensures TextLeq(a, b) || TextLeq(b, a)
  {
    if a != "" && b != "" && a[0] == b[0] { TextLeqTotal(a[1..], b[1..]); }
  }

  lemma {:induction false} TextLeqAntisymmetric(a: string, b: string)
    requires TextLeq(a, b) && TextLeq(b, a)
    ensures a == b
  {
    if a != "" && b != "" {
      TextLeqAntisymmetric(a[1..], b[1..]);
      assert a == [a[0]] + a[1..] && b == [b[0]] + b[1..];
    }
  }

  lemma {:induction false} TextLeqTransitive(a: string, b: string, c: string)
    requires TextLeq(a, b) && TextLeq(b, c)
    ensures TextLeq(a, c)
  {
    if a != "" && a[0] == b[0] == c[0] { TextLeqTransitive(a[1..], b[1..], c[1..]); }
  }

  /** a is a prefix of b, or has the smaller code point where they first differ. */
  ghost predicate ComesFirst(a: string, b: string) {
    exists k :: DiffersAt(a, b, k)
  }

  ghost predicate DiffersAt(a: string, b: string, k: nat) {
    k <= |a| && k <= |b| && a[..k] == b[..k] && (k == |a| || (k < |b| && a[k] < b[k]))
  }

  lemma SameHead(a: string, b: string, k: nat)
    requires 0 < k <= |a| && k <= |b| && a[..k] == b[..k]
    ensures a[0] == b[0]
  {
    assert a[0] == a[..k][0] && b[0] == b[..k][0];
  }

  /** The order of texts is that of their code points, from the left. */
  lemma {:induction false} TextLeqIs(a: string, b: string)
    ensures TextLeq(a, b) <==> ComesFirst(a, b)
  {
    if a != "" && b != "" && a[0] == b[0] {
      TextLeqIs(a[1..], b[1..]);
      if k: nat :| DiffersAt(a[1..], b[1..], k) {
        assert a[..k + 1] == [a[0]] + a[1..][..k] && b[..k + 1] == [b[0]] + b[1..][..k];
        assert DiffersAt(a, b, k + 1);
      }
      if k: nat :| DiffersAt(a, b, k) {
        assert k > 0;
        assert a[1..][..k - 1] == a[..k][1..] && b[1..][..k - 1] == b[..k][1..];
        assert DiffersAt(a[1..], b[1..], k - 1);
      }
    } else {
      assert TextLeq(a, b) ==> DiffersAt(a, b, 0);
      forall k: nat | DiffersAt(a, b, k) ensures TextLeq(a, b) {
        if k > 0 { SameHead(a, b, k); }
      }
    }
  }

  /** Pairs are ordered by name, and by value where the names agree. */
  lemma PairLeqIs(p: Pair, q: Pair)
    ensures p.name == q.name ==> (PairLeq(p, q) <==> ComesFirst(p.value, q.value))
    ensures p.name != q.name ==> (PairLeq(p, q) <==> ComesFirst(p.name, q.name))
  {
    TextLeqIs(p.name, q.name);
    TextLeqIs(p.value, q.value);
  }

  lemma PairLeqTotal(p: Pair, q: Pair)
    ensures PairLeq(p, q) || PairLeq(q, p)
  {
    TextLeqTotal(p.name, q.name);
    TextLeqTotal(p.value, q.value);
  }

  lemma PairLeqAntisymmetric(p: Pair, q: Pair)
    requires PairLeq(p, q) && PairLeq(q, p)
    ensures p == q
  {
    if p.name == q.name { TextLeqAntisymmetric(p.value, q.value); } else { TextLeqAntisymmetric(p.name, q.name); }
  }

  lemma PairLeqTransitive(p: Pair, q: Pair, r: Pair)
    requires PairLeq(p, q) && PairLeq(q, r)
    ensures PairLeq(p, r)
  {
    if p.name == q.name && q.name == r.name {
      TextLeqTransitive(p.value, q.value, r.value);
    } else if p.name == r.name {
      TextLeqAntisymmetric(p.name, q.name);
    } else if p.name != q.name && q.name != r.name {
      TextLeqTransitive(p.name, q.name, r.name);
    }
  }

  function Insert(p: Pair, pairs: seq<Pair>): seq<Pair> {
    if pairs == [] then [p]
    else if PairLeq(p, pairs[0]) then [p] + pairs
    else [pairs[0]] + Insert(p, pairs[1..])
  }

  function Sort(pairs: seq<Pair>): seq<Pair> {
    if pairs == [] then [] else Insert(pairs[0], Sort(pairs[1..]))
  }

  /** The first pair is least, and so on down. */
  ghost predicate Sorted(pairs: seq<Pair>) {
    pairs == [] || ((forall p :: p in pairs ==> PairLeq(pairs[0], p)) && Sorted(pairs[1..]))
  }

  lemma {:induction false} InsertKeepsPairs(p: Pair, pairs: seq<Pair>)
    ensures multiset(Insert(p, pairs)) == multiset{p} + multiset(pairs)
  {
    if pairs != [] {
      assert pairs == [pairs[0]] + pairs[1..];
      if !PairLeq(p, pairs[0]) { InsertKeepsPairs(p, pairs[1..]); }
    }
  }

  lemma {:induction false} InsertKeepsSorted(p: Pair, pairs: seq<Pair>)
    requires Sorted(pairs)
    ensures Sorted(Insert(p, pairs))
  {
    PairLeqTotal(p, p);
    if pairs != [] {
      if PairLeq(p, pairs[0]) {
        forall q | q in pairs ensures PairLeq(p, q) { PairLeqTransitive(p, pairs[0], q); }
        assert ([p] + pairs)[1..] == pairs;
      } else {
        PairLeqTotal(p, pairs[0]);
        InsertKeepsSorted(p, pairs[1..]);
        InsertKeepsPairs(p, pairs[1..]);
        var rest := Insert(p, pairs[1..]);
        PairLeqTotal(pairs[0], pairs[0]);
        forall q | q in [pairs[0]] + rest ensures PairLeq(pairs[0], q) {
          assert q in rest ==> q in multiset(rest);
        }
        assert ([pairs[0]] + rest)[1..] == rest;
      }
    }
  }

  /** Sorting returns the same pairs in order. */
  lemma {:induction false} SortSorts(pairs: seq<Pair>)
    ensures Sorted(Sort(pairs)) && multiset(Sort(pairs)) == multiset(pairs)
  {
    if pairs != [] {
      SortSorts(pairs[1..]);
      InsertKeepsSorted(pairs[0], Sort(pairs[1..]));
      InsertKeepsPairs(pairs[0], Sort(pairs[1..]));
      assert pairs == [pairs[0]] + pairs[1..];
    }
  }

  /** A multiset of pairs has one sorted arrangement. */
  lemma {:induction false} SortedIsUnique(p: seq<Pair>, q: seq<Pair>)
    requires Sorted(p) && Sorted(q) && multiset(p) == multiset(q)
    ensures p == q
  {
    assert |p| == |multiset(p)| == |multiset(q)| == |q|;
    if p != [] {
      assert p[0] in multiset(q) && q[0] in multiset(p);
      PairLeqAntisymmetric(p[0], q[0]);
      assert p == [p[0]] + p[1..] && q == [q[0]] + q[1..];
      assert multiset(p[1..]) == multiset(p) - multiset{p[0]};
      assert multiset(q[1..]) == multiset(q) - multiset{q[0]};
      SortedIsUnique(p[1..], q[1..]);
    }
  }

  lemma SortsEqualIff(p: seq<Pair>, q: seq<Pair>)
    ensures Sort(p) == Sort(q) <==> multiset(p) == multiset(q)
  {
    SortSorts(p);
    SortSorts(q);
    if multiset(p) == multiset(q) { SortedIsUnique(Sort(p), Sort(q)); }
  }

  lemma SortTwice(p: seq<Pair>)
    ensures Sort(Sort(p)) == Sort(p)
  {
    SortSorts(p);
    SortsEqualIff(Sort(p), p);
  }
}
