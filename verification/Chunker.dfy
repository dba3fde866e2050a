/** The overlapping chunker of app/rag/chunker.py. A page comes with its sentence units: the result of
    normalising the page, splitting it at sentence boundaries and stripping the pieces. */
module Chunker {
  import opened Basics
  import opened Modular
  import opened Text

  datatype Page = Page(units: seq<string>, pageNumber: int, sectionTitle: string)

  datatype TextChunk = TextChunk(chunkIndex: nat, text: string, pageNumber: int, sectionTitle: string, tokenEstimate: nat)

  function EstimateTokens(text: string): nat { Max(1, |text| / 3) }

  predicate WellSplit(pages: seq<Page>) {
    forall p :: 0 <= p < |pages| ==> forall u :: u in pages[p].units ==> IsStripped(u)
  }

  // ------------------------------------------------------------------ cutting a long unit

  /** text[-overlap:] */
  function Tail(text: string, overlap: nat): string {
    if overlap == 0 then "" else if |text| <= overlap then text else text[|text| - overlap..]
  }

  function Take(text: string, n: nat): string { if |text| <= n then text else text[..n] }

  function Drop(text: string, n: nat): string { if |text| <= n then "" else text[n..] }

  /** text[start : start + size] for start in 0, step, 2 * step, ... with step = size - overlap. */
  function SplitLong(text: string, size: nat, overlap: nat): seq<string>
    requires overlap < size
    decreases |text|
  {
    if text == "" then []
    else [Take(text, size)] + SplitLong(Drop(text, size - overlap), size, overlap)
  }

  /** The first n characters of each part, joined. */
  function JoinHeads(parts: seq<string>, n: nat): string {
    if parts == [] then "" else Take(parts[0], n) + JoinHeads(parts[1..], n)
  }

  lemma JoinHeadsCons(part: string, parts: seq<string>, n: nat)
    ensures JoinHeads([part] + parts, n) == Take(part, n) + JoinHeads(parts, n)
  {
    assert ([part] + parts)[1..] == parts;
  }

  lemma TakeThenDrop(text: string, n: nat, m: nat)
    requires n <= m
    ensures Take(Take(text, m), n) + Drop(text, n) == text
  {
  }

  /** The parts lose nothing: their first (size - overlap) characters put the text back together. */
  lemma {:induction false} SplitReassembles(text: string, size: nat, overlap: nat)
    requires overlap < size
    ensures JoinHeads(SplitLong(text, size, overlap), size - overlap) == text
    decreases |text|
  {
    if text != "" {
      var rest := Drop(text, size - overlap);
      SplitReassembles(rest, size, overlap);
      JoinHeadsCons(Take(text, size), SplitLong(rest, size, overlap), size - overlap);
      TakeThenDrop(text, size - overlap, size);
    }
  }

  /** Each part but the last begins the next one with its own last `overlap` characters. */
  lemma {:induction false} SplitOverlaps(text: string, size: nat, overlap: nat, k: nat)
    requires overlap < size && k + 1 < |SplitLong(text, size, overlap)|
    ensures var parts := SplitLong(text, size, overlap);
      Drop(parts[k], size - overlap) <= parts[k + 1]
    decreases k
  {
    var rest := Drop(text, size - overlap);
    var tail := SplitLong(rest, size, overlap);
    assert SplitLong(text, size, overlap) == [Take(text, size)] + tail;
    if k == 0 {
      assert tail[0] == Take(rest, size);
    } else {
      SplitOverlaps(rest, size, overlap, k - 1);
    }
  }

  lemma {:induction false} PartsFit(text: string, size: nat, overlap: nat, k: nat)
    requires overlap < size && k < |SplitLong(text, size, overlap)|
    ensures 0 < |SplitLong(text, size, overlap)[k]| <= size
    decreases k
  {
    if k > 0 { PartsFit(Drop(text, size - overlap), size, overlap, k - 1); }
  }

  /** The tail is the end of the text, `overlap` characters of it if there are so many. */
  lemma TailIs(text: string, overlap: nat)
    ensures |Tail(text, overlap)| == if |text| < overlap then |text| else overlap
    ensures text[|text| - |Tail(text, overlap)|..] == Tail(text, overlap)
  {
  }

  function Slice(text: string, at: nat, size: nat): string
    requires at <= |text|
  {
    text[at..if at + size < |text| then at + size else |text|]
  }

  lemma SliceOfDrop(text: string, step: nat, at: nat, size: nat)
    requires at < |Drop(text, step)|
    ensures at + step < |text| && Slice(Drop(text, step), at, size) == Slice(text, at + step, size)
  {
  }

  /** Part k starts at k * (size - overlap) and is as long as size and the text allow. */
  lemma {:induction false} PartIs(text: string, size: nat, overlap: nat, k: nat)
    requires overlap < size && k < |SplitLong(text, size, overlap)|
    ensures var at := Times(k, size - overlap);
      at < |text| && SplitLong(text, size, overlap)[k] == Slice(text, at, size)
    decreases k
  {
    var step := size - overlap;
    var rest := SplitLong(Drop(text, step), size, overlap);
    assert SplitLong(text, size, overlap) == [Take(text, size)] + rest;
    if k > 0 {
      PartIs(Drop(text, step), size, overlap, k - 1);
      SliceOfDrop(text, step, Times(k - 1, step), size);
    }
  }

  /** And the parts go on as long as there is text at their start. */
  lemma {:induction false} PartsAreAll(text: string, size: nat, overlap: nat)
    requires overlap < size
    ensures Times(|SplitLong(text, size, overlap)|, size - overlap) >= |text|
    decreases |text|
  {
    if text != "" { PartsAreAll(Drop(text, size - overlap), size, overlap); }
  }

  // ------------------------------------------------------------------ the chunker on values

  /** Chunks so far, the pending text, and for each chunk whether it is a part of a cut unit. */
  datatype Progress = Progress(raw: seq<TextChunk>, current: string, cut: seq<bool>)

  function NewChunk(raw: seq<TextChunk>, page: Page, text: string): TextChunk {
    TextChunk(|raw|, text, page.pageNumber, page.sectionTitle, EstimateTokens(text))
  }

  function WithChunks(raw: seq<TextChunk>, page: Page, texts: seq<string>): seq<TextChunk> {
    if texts == [] then raw
    else
      var before := WithChunks(raw, page, texts[..|texts| - 1]);
      before + [NewChunk(before, page, texts[|texts| - 1])]
  }

  /** Greedy: a unit joins the pending text if the result fits, otherwise the pending text becomes a
      chunk and its tail opens the next one; a unit that does not fit on its own is cut. */
  function AddUnitTo(s: Progress, page: Page, unit: string, size: nat, overlap: nat): Progress
    requires overlap < size
  {
    var candidate := Strip(s.current + " " + unit);
    if |candidate| <= size then s.(current := candidate)
    else if s.current != "" then
      Progress(s.raw + [NewChunk(s.raw, page, s.current)], Tail(s.current, overlap) + " " + unit, s.cut + [false])
    else
      var parts := SplitLong(unit, size, overlap);
      Progress(WithChunks(s.raw, page, parts), "", s.cut + seq(|parts|, _ => true))
  }

  function AddUnits(s: Progress, page: Page, n: nat, size: nat, overlap: nat): Progress
    requires overlap < size && n <= |page.units|
  {
    if n == 0 then s else AddUnitTo(AddUnits(s, page, n - 1, size, overlap), page, page.units[n - 1], size, overlap)
  }

  /** The end of a page flushes the pending text and carries its tail to the next page. */
  function AddPage(s: Progress, page: Page, size: nat, overlap: nat): Progress
    requires overlap < size
  {
    if page.units == [] then s
    else
      var t := AddUnits(s, page, |page.units|, size, overlap);
      if t.current == "" then t
      else Progress(t.raw + [NewChunk(t.raw, page, t.current)], Tail(t.current, overlap), t.cut + [false])
  }

  function AddPages(pages: seq<Page>, n: nat, size: nat, overlap: nat): Progress
    requires overlap < size && n <= |pages|
  {
    if n == 0 then Progress([], "", []) else AddPage(AddPages(pages, n - 1, size, overlap), pages[n - 1], size, overlap)
  }

  // ------------------------------------------------------------------ overlap

  /** The pending text goes on from the last chunk: it starts with that chunk's tail, up to leading
      white space, unless the chunk is a part of a cut unit. */
  ghost predicate GoesOn(last: string, next: string, overlap: nat) {
    LStrip(Tail(last, overlap)) <= LStrip(next)
  }

  ghost predicate LinkedAt(raw: seq<TextChunk>, cut: seq<bool>, k: nat, next: string, overlap: nat)
    requires k < |raw| == |cut|
  {
    cut[k] || GoesOn(raw[k].text, next, overlap)
  }

  /** What follows chunk k: the next chunk, or the pending text. */
  function Following(raw: seq<TextChunk>, current: string, k: nat): string {
    if k + 1 < |raw| then raw[k + 1].text else current
  }

  /** Every chunk starts with the tail of the chunk before it, unless that one is a part of a cut unit. */
  ghost predicate Linked(s: Progress, overlap: nat) {
    && |s.cut| == |s.raw|
    && forall k :: 0 <= k < |s.raw| ==> LinkedAt(s.raw, s.cut, k, Following(s.raw, s.current, k), overlap)
  }

  lemma {:induction false} WithChunksShape(raw: seq<TextChunk>, page: Page, texts: seq<string>)
    ensures var r := WithChunks(raw, page, texts); |r| == |raw| + |texts| && raw <= r
    decreases |texts|
  {
    if texts != [] { WithChunksShape(raw, page, texts[..|texts| - 1]); }
  }

  /** The pending text becomes a chunk, and whatever goes on from it the new pending text. */
  lemma FlushKeepsLinked(s: Progress, chunk: TextChunk, next: string, overlap: nat)
    requires Linked(s, overlap) && chunk.text == s.current && GoesOn(s.current, next, overlap)
    ensures Linked(Progress(s.raw + [chunk], next, s.cut + [false]), overlap)
  {
    var t := Progress(s.raw + [chunk], next, s.cut + [false]);
    forall k | 0 <= k < |t.raw| ensures LinkedAt(t.raw, t.cut, k, Following(t.raw, t.current, k), overlap) {
      if k < |s.raw| { assert LinkedAt(s.raw, s.cut, k, Following(s.raw, s.current, k), overlap); }
    }
  }

  /** Parts of a cut unit follow only chunks without a tail to continue. */
  lemma CutKeepsLinked(s: Progress, raw: seq<TextChunk>, n: nat, overlap: nat)
    requires Linked(s, overlap) && s.current == "" && s.raw <= raw && |raw| == |s.raw| + n
    ensures Linked(Progress(raw, "", s.cut + seq(n, _ => true)), overlap)
  {
    var t := Progress(raw, "", s.cut + seq(n, _ => true));
    forall k | 0 <= k < |t.raw| ensures LinkedAt(t.raw, t.cut, k, Following(t.raw, t.current, k), overlap) {
      if k < |s.raw| {
        assert LinkedAt(s.raw, s.cut, k, Following(s.raw, s.current, k), overlap);
        assert raw[k] == s.raw[k];
        if k + 1 < |s.raw| { assert raw[k + 1] == s.raw[k + 1]; }
      }
    }
  }

  /** The pending text grows at its end only. */
  lemma GrowthKeepsLinked(s: Progress, next: string, overlap: nat)
    requires Linked(s, overlap) && LStrip(s.current) <= LStrip(next)
    ensures Linked(s.(current := next), overlap)
  {
    forall k | 0 <= k < |s.raw| ensures LinkedAt(s.raw, s.cut, k, Following(s.raw, next, k), overlap) {
      assert LinkedAt(s.raw, s.cut, k, Following(s.raw, s.current, k), overlap);
    }
  }

  lemma AddUnitKeepsLinked(s: Progress, page: Page, unit: string, size: nat, overlap: nat)
    requires overlap < size && IsStripped(unit) && Linked(s, overlap)
    ensures Linked(AddUnitTo(s, page, unit, size, overlap), overlap)
  {
    if |Strip(s.current + " " + unit)| <= size {
      StripJoin(s.current, unit);
      LStripJoin(LStrip(s.current), " " + unit);
      assert LStrip(s.current) + (" " + unit) == LStrip(s.current) + " " + unit;
      LStripTwice(s.current);
      GrowthKeepsLinked(s, Strip(s.current + " " + unit), overlap);
    } else if s.current != "" {
      var tail := Tail(s.current, overlap);
      LStripJoin(tail, " " + unit);
      assert tail + (" " + unit) == tail + " " + unit;
      FlushKeepsLinked(s, NewChunk(s.raw, page, s.current), tail + " " + unit, overlap);
    } else {
      var parts := SplitLong(unit, size, overlap);
      WithChunksShape(s.raw, page, parts);
      CutKeepsLinked(s, WithChunks(s.raw, page, parts), |parts|, overlap);
    }
  }

  lemma LStripTwice(s: string)
    ensures LStrip(LStrip(s)) == LStrip(s)
  {
    LStripResult(s);
  }

  lemma {:induction false} AddUnitsKeepsLinked(s: Progress, page: Page, n: nat, size: nat, overlap: nat)
    requires overlap < size && n <= |page.units| && Linked(s, overlap)
    requires forall u :: u in page.units ==> IsStripped(u)
    ensures Linked(AddUnits(s, page, n, size, overlap), overlap)
    decreases n
  {
    if n > 0 {
      AddUnitsKeepsLinked(s, page, n - 1, size, overlap);
      AddUnitKeepsLinked(AddUnits(s, page, n - 1, size, overlap), page, page.units[n - 1], size, overlap);
    }
  }

  lemma AddPageKeepsLinked(s: Progress, page: Page, size: nat, overlap: nat)
    requires overlap < size && Linked(s, overlap) && forall u :: u in page.units ==> IsStripped(u)
    ensures Linked(AddPage(s, page, size, overlap), overlap)
  {
    AddUnitsKeepsLinked(s, page, |page.units|, size, overlap);
    var t := AddUnits(s, page, |page.units|, size, overlap);
    FlushKeepsLinked(t, NewChunk(t.raw, page, t.current), Tail(t.current, overlap), overlap);
  }

  /** Over a whole document every chunk overlaps the one before it, across pages too. */
  lemma {:induction false} ChunksOverlap(pages: seq<Page>, n: nat, size: nat, overlap: nat)
    requires overlap < size && n <= |pages| && WellSplit(pages)
    ensures Linked(AddPages(pages, n, size, overlap), overlap)
    decreases n
  {
    if n > 0 {
      ChunksOverlap(pages, n - 1, size, overlap);
      AddPageKeepsLinked(AddPages(pages, n - 1, size, overlap), pages[n - 1], size, overlap);
    }
  }

  // ------------------------------------------------------------------ what the raw chunks cover

  /** Some raw chunk of this page has the text. */
  ghost predicate Emitted(raw: seq<TextChunk>, page: Page, text: string) {
    exists k :: 0 <= k < |raw| && raw[k].text == text && raw[k].pageNumber == page.pageNumber
                && raw[k].sectionTitle == page.sectionTitle
  }

  /** The unit lies inside a raw chunk of its page, or every part of it is a raw chunk of its page. */
  ghost predicate Covered(raw: seq<TextChunk>, page: Page, u: string, size: nat, overlap: nat)
    requires overlap < size
  {
    || (exists t :: Emitted(raw, page, t) && Contains(t, u))
    || (forall part :: part in SplitLong(u, size, overlap) ==> Emitted(raw, page, part))
  }

  ghost predicate PageCovered(raw: seq<TextChunk>, page: Page, size: nat, overlap: nat)
    requires overlap < size
  {
    forall u :: u in page.units ==> Covered(raw, page, u, size, overlap)
  }

  lemma EmittedGrows(raw: seq<TextChunk>, more: seq<TextChunk>, page: Page, text: string)
    requires Emitted(raw, page, text)
    ensures Emitted(raw + more, page, text)
  {
    var k :| 0 <= k < |raw| && raw[k].text == text && raw[k].pageNumber == page.pageNumber && raw[k].sectionTitle == page.sectionTitle;
    assert (raw + more)[k] == raw[k];
  }

  ghost predicate AllEmitted(raw: seq<TextChunk>, page: Page, texts: seq<string>) {
    forall t :: t in texts ==> Emitted(raw, page, t)
  }

  lemma OneMoreEmitted(raw: seq<TextChunk>, raw': seq<TextChunk>, page: Page, texts: seq<string>, t: string)
    requires raw <= raw' && AllEmitted(raw, page, texts) && Emitted(raw', page, t)
    ensures AllEmitted(raw', page, texts + [t])
  {
    assert raw + raw'[|raw|..] == raw';
    forall x | x in texts ensures Emitted(raw', page, x) {
      EmittedGrows(raw, raw'[|raw|..], page, x);
    }
  }

  lemma CoveredGrows(raw: seq<TextChunk>, more: seq<TextChunk>, page: Page, u: string, size: nat, overlap: nat)
    requires overlap < size && Covered(raw, page, u, size, overlap)
    ensures Covered(raw + more, page, u, size, overlap)
  {
    if t :| Emitted(raw, page, t) && Contains(t, u) {
      EmittedGrows(raw, more, page, t);
    } else {
      forall part | part in SplitLong(u, size, overlap) ensures Emitted(raw + more, page, part) {
        EmittedGrows(raw, more, page, part);
      }
    }
  }

  lemma PageCoveredGrows(raw: seq<TextChunk>, more: seq<TextChunk>, page: Page, size: nat, overlap: nat)
    requires overlap < size && PageCovered(raw, page, size, overlap)
    ensures PageCovered(raw + more, page, size, overlap)
  {
    forall u | u in page.units ensures Covered(raw + more, page, u, size, overlap) {
      CoveredGrows(raw, more, page, u, size, overlap);
    }
  }

  /** Within a page the pending text may still hold units. */
  ghost predicate Pending(raw: seq<TextChunk>, page: Page, n: nat, current: string, size: nat, overlap: nat)
    requires overlap < size && n <= |page.units|
  {
    forall i :: 0 <= i < n ==> Covered(raw, page, page.units[i], size, overlap) || Contains(current, page.units[i])
  }

  function Bound(size: nat, overlap: nat, longest: nat): nat { Max(size, overlap + 1 + longest) }

  ghost predicate RawOk(raw: seq<TextChunk>, bound: nat) {
    forall k :: 0 <= k < |raw| ==>
      raw[k].chunkIndex == k && |raw[k].text| <= bound && raw[k].tokenEstimate == EstimateTokens(raw[k].text)
  }

  ghost predicate UnitsUpTo(pages: seq<Page>, longest: nat) {
    forall p :: 0 <= p < |pages| ==> forall u :: u in pages[p].units ==> |u| <= longest
  }

  // ------------------------------------------------------------------ removing duplicates

  function Texts(chunks: seq<TextChunk>): set<string> {
    set k | 0 <= k < |chunks| :: chunks[k].text
  }

  lemma TextsAppend(chunks: seq<TextChunk>, c: TextChunk)
    ensures Texts(chunks + [c]) == Texts(chunks) + {c.text}
  {
    var more := chunks + [c];
    assert more[|chunks|] == c;
    forall t | t in Texts(chunks) ensures t in Texts(more) {
      var i :| 0 <= i < |chunks| && chunks[i].text == t;
      assert more[i].text == t;
    }
  }

  /** First occurrences of the stripped non-empty texts, renumbered. */
  function Dedup(raw: seq<TextChunk>): seq<TextChunk> {
    if raw == [] then []
    else
      var before := Dedup(raw[..|raw| - 1]);
      var item := raw[|raw| - 1];
      var key := Strip(item.text);
      if key != "" && key !in Texts(before) then before + [item.(chunkIndex := |before|, text := key)] else before
  }

  lemma {:induction false} DedupResult(raw: seq<TextChunk>, bound: nat)
    requires forall k :: 0 <= k < |raw| ==> |raw[k].text| <= bound
    ensures IsChunkList(Dedup(raw), bound)
    ensures forall k :: 0 <= k < |raw| ==> Strip(raw[k].text) == "" || Strip(raw[k].text) in Texts(Dedup(raw))
    decreases |raw|
  {
    if raw != [] {
      var init, item := raw[..|raw| - 1], raw[|raw| - 1];
      DedupResult(init, bound);
      StripResult(item.text);
      var before, after := Dedup(init), Dedup(raw);
      forall t | t in Texts(before) ensures t in Texts(after) {
        var k :| 0 <= k < |before| && before[k].text == t;
        assert after[k].text == t;
      }
      assert Strip(item.text) == "" || Strip(item.text) in Texts(after) by {
        if |after| > |before| { assert after[|before|].text == Strip(item.text); }
      }
      forall k | 0 <= k < |raw| ensures Strip(raw[k].text) == "" || Strip(raw[k].text) in Texts(after) {
        if k < |init| { assert raw[k] == init[k]; }
      }
      forall i, j | 0 <= i < j < |after| ensures after[i].text != after[j].text {
        if j == |before| { assert before[i].text in Texts(before); }
      }
    }
  }

  /** Indices 0..n-1, texts stripped, non-empty, distinct and within the bound. */
  ghost predicate IsChunkList(chunks: seq<TextChunk>, bound: nat) {
    && (forall k :: 0 <= k < |chunks| ==> chunks[k].chunkIndex == k && IsStripped(chunks[k].text) && |chunks[k].text| <= bound)
    && (forall i, j :: 0 <= i < j < |chunks| ==> chunks[i].text != chunks[j].text)
  }

  /** Where a unit can be found among the returned texts. */
  ghost predicate Kept(texts: set<string>, u: string, size: nat, overlap: nat)
    requires overlap < size
  {
    || (exists t :: t in texts && Contains(t, u))
    || (forall part :: part in SplitLong(u, size, overlap) ==> Strip(part) == "" || Strip(part) in texts)
  }

  lemma CoveredIsKept(raw: seq<TextChunk>, page: Page, u: string, size: nat, overlap: nat, bound: nat)
    requires overlap < size && IsStripped(u) && Covered(raw, page, u, size, overlap) && RawOk(raw, bound)
    ensures Kept(Texts(Dedup(raw)), u, size, overlap)
  {
    DedupResult(raw, bound);
    var texts := Texts(Dedup(raw));
    forall t | Emitted(raw, page, t) ensures Strip(t) == "" || Strip(t) in texts {
    }
    if t :| Emitted(raw, page, t) && Contains(t, u) {
      StripKeeps(t, u);
      var i :| ContainsAt(Strip(t), u, i);
      assert Strip(t) in texts;
    }
  }

  ghost predicate AllCovered(raw: seq<TextChunk>, pages: seq<Page>, size: nat, overlap: nat)
    requires overlap < size
  {
    forall p :: 0 <= p < |pages| ==> PageCovered(raw, pages[p], size, overlap)
  }

  lemma OnePageMore(raw: seq<TextChunk>, raw': seq<TextChunk>, pages: seq<Page>, page: Page, size: nat, overlap: nat)
    requires overlap < size && raw <= raw' && AllCovered(raw, pages, size, overlap) && PageCovered(raw', page, size, overlap)
    ensures AllCovered(raw', pages + [page], size, overlap)
  {
    assert raw + raw'[|raw|..] == raw';
    forall p | 0 <= p < |pages| ensures PageCovered(raw', pages[p], size, overlap) {
      PageCoveredGrows(raw, raw'[|raw|..], pages[p], size, overlap);
    }
  }

  lemma AllKept(raw: seq<TextChunk>, pages: seq<Page>, size: nat, overlap: nat, bound: nat)
    requires overlap < size && WellSplit(pages) && AllCovered(raw, pages, size, overlap) && RawOk(raw, bound)
    ensures forall p, u :: 0 <= p < |pages| && u in pages[p].units ==> Kept(Texts(Dedup(raw)), u, size, overlap)
  {
    forall p, u | 0 <= p < |pages| && u in pages[p].units ensures Kept(Texts(Dedup(raw)), u, size, overlap) {
      CoveredIsKept(raw, pages[p], u, size, overlap, bound);
    }
  }

  // ------------------------------------------------------------------ every step covers what it consumed

  lemma EmitKeeps(raw: seq<TextChunk>, page: Page, text: string, bound: nat)
    requires RawOk(raw, bound) && |text| <= bound
    ensures RawOk(raw + [NewChunk(raw, page, text)], bound) && Emitted(raw + [NewChunk(raw, page, text)], page, text)
  {
    assert (raw + [NewChunk(raw, page, text)])[|raw|].text == text;
  }

  lemma {:induction false} WithChunksEmits(raw: seq<TextChunk>, page: Page, texts: seq<string>, bound: nat)
    requires RawOk(raw, bound) && forall k :: 0 <= k < |texts| ==> |texts[k]| <= bound
    ensures RawOk(WithChunks(raw, page, texts), bound) && AllEmitted(WithChunks(raw, page, texts), page, texts)
    decreases |texts|
  {
    if texts != [] {
      var init, last := texts[..|texts| - 1], texts[|texts| - 1];
      WithChunksEmits(raw, page, init, bound);
      var before := WithChunks(raw, page, init);
      EmitKeeps(before, page, last, bound);
      OneMoreEmitted(before, WithChunks(raw, page, texts), page, init, last);
      assert texts == init + [last];
    }
  }

  lemma PendingGrows(raw: seq<TextChunk>, raw': seq<TextChunk>, page: Page, n: nat, current: string, size: nat, overlap: nat)
    requires overlap < size && n <= |page.units| && raw <= raw' && Pending(raw, page, n, current, size, overlap)
    ensures Pending(raw', page, n, current, size, overlap)
  {
    assert raw + raw'[|raw|..] == raw';
    forall i | 0 <= i < n && Covered(raw, page, page.units[i], size, overlap)
      ensures Covered(raw', page, page.units[i], size, overlap)
    {
      CoveredGrows(raw, raw'[|raw|..], page, page.units[i], size, overlap);
    }
  }

  /** Emitting the pending text covers every unit it holds. */
  lemma PendingIsEmitted(raw: seq<TextChunk>, raw': seq<TextChunk>, page: Page, n: nat, current: string, size: nat, overlap: nat)
    requires overlap < size && n <= |page.units| && raw <= raw' && Pending(raw, page, n, current, size, overlap)
    requires Emitted(raw', page, current)
    ensures forall i :: 0 <= i < n ==> Covered(raw', page, page.units[i], size, overlap)
  {
    PendingGrows(raw, raw', page, n, current, size, overlap);
  }

  /** Appending a unit to the pending text and stripping keeps every unit in it. */
  lemma PendingAppended(raw: seq<TextChunk>, page: Page, n: nat, current: string, size: nat, overlap: nat)
    requires overlap < size && n < |page.units| && Pending(raw, page, n, current, size, overlap)
    requires forall u :: u in page.units ==> IsStripped(u)
    ensures Pending(raw, page, n + 1, Strip(current + " " + page.units[n]), size, overlap)
  {
    var joined := current + " " + page.units[n];
    forall i | 0 <= i < n + 1
      ensures Covered(raw, page, page.units[i], size, overlap) || Contains(Strip(joined), page.units[i])
    {
      var u := page.units[i];
      if i == n {
        ContainsInMiddle(current + " ", u, "");
        assert current + " " + u + "" == joined;
        StripKeeps(joined, u);
      } else if Contains(current, u) {
        ContainsInPrefix(current, " " + page.units[n], u);
        assert current + (" " + page.units[n]) == joined;
        StripKeeps(joined, u);
      }
    }
  }

  /** Inside a page: sound chunks, a short enough pending text, the first n units covered or pending. */
  ghost predicate Inside(s: Progress, page: Page, n: nat, size: nat, overlap: nat, longest: nat)
    requires overlap < size && n <= |page.units|
  {
    && RawOk(s.raw, Bound(size, overlap, longest)) && |s.current| <= Bound(size, overlap, longest)
    && Pending(s.raw, page, n, s.current, size, overlap)
  }

  ghost predicate GoodUnits(page: Page, longest: nat) {
    forall u :: u in page.units ==> IsStripped(u) && |u| <= longest
  }

  lemma FlushStaysInside(s: Progress, page: Page, n: nat, size: nat, overlap: nat, longest: nat)
    requires overlap < size && n < |page.units| && GoodUnits(page, longest) && Inside(s, page, n, size, overlap, longest)
    requires |Strip(s.current + " " + page.units[n])| > size && s.current != ""
    ensures Inside(AddUnitTo(s, page, page.units[n], size, overlap), page, n + 1, size, overlap, longest)
  {
    var unit, tail := page.units[n], Tail(s.current, overlap);
    var t := AddUnitTo(s, page, unit, size, overlap);
    EmitKeeps(s.raw, page, s.current, Bound(size, overlap, longest));
    PendingIsEmitted(s.raw, t.raw, page, n, s.current, size, overlap);
    ContainsInMiddle(tail + " ", unit, "");
    assert tail + " " + unit + "" == t.current;
  }

  lemma CutStaysInside(s: Progress, page: Page, n: nat, size: nat, overlap: nat, longest: nat)
    requires overlap < size && n < |page.units| && GoodUnits(page, longest) && Inside(s, page, n, size, overlap, longest)
    requires |Strip(s.current + " " + page.units[n])| > size && s.current == ""
    ensures Inside(AddUnitTo(s, page, page.units[n], size, overlap), page, n + 1, size, overlap, longest)
  {
    var unit := page.units[n];
    var parts := SplitLong(unit, size, overlap);
    var t := AddUnitTo(s, page, unit, size, overlap);
    forall k | 0 <= k < |parts| ensures |parts[k]| <= size { PartsFit(unit, size, overlap, k); }
    WithChunksEmits(s.raw, page, parts, Bound(size, overlap, longest));
    WithChunksShape(s.raw, page, parts);
    PendingGrows(s.raw, t.raw, page, n, s.current, size, overlap);
  }

  lemma AddUnitStaysInside(s: Progress, t: Progress, page: Page, n: nat, size: nat, overlap: nat, longest: nat)
    requires overlap < size && n < |page.units| && GoodUnits(page, longest) && Inside(s, page, n, size, overlap, longest)
    requires t == AddUnitTo(s, page, page.units[n], size, overlap)
    ensures Inside(t, page, n + 1, size, overlap, longest)
  {
    if |Strip(s.current + " " + page.units[n])| <= size {
      PendingAppended(s.raw, page, n, s.current, size, overlap);
    } else if s.current != "" {
      FlushStaysInside(s, page, n, size, overlap, longest);
    } else {
      CutStaysInside(s, page, n, size, overlap, longest);
    }
  }

  lemma AddUnitExtends(s: Progress, page: Page, unit: string, size: nat, overlap: nat)
    requires overlap < size
    ensures s.raw <= AddUnitTo(s, page, unit, size, overlap).raw
  {
    WithChunksShape(s.raw, page, SplitLong(unit, size, overlap));
  }

  /** What every unit step keeps holds after all of them. */
  lemma {:induction false} UnitsInduction(P: (Progress, nat) -> bool, s: Progress, page: Page, n: nat, size: nat, overlap: nat)
    requires overlap < size && n <= |page.units| && P(s, 0)
    requires forall t, k: nat :: k < n && P(t, k) ==> P(AddUnitTo(t, page, page.units[k], size, overlap), k + 1)
    ensures P(AddUnits(s, page, n, size, overlap), n)
    decreases n
  {
    if n > 0 {
      UnitsInduction(P, s, page, n - 1, size, overlap);
      var t := AddUnits(s, page, n - 1, size, overlap);
      assert P(AddUnitTo(t, page, page.units[n - 1], size, overlap), n - 1 + 1);
    }
  }

  lemma AddUnitsStaysInside(s: Progress, page: Page, size: nat, overlap: nat, longest: nat)
    requires overlap < size && GoodUnits(page, longest)
    requires RawOk(s.raw, Bound(size, overlap, longest)) && |s.current| <= overlap
    ensures Inside(AddUnits(s, page, |page.units|, size, overlap), page, |page.units|, size, overlap, longest)
  {
    var P := (t: Progress, k: nat) => k <= |page.units| && Inside(t, page, k, size, overlap, longest);
    forall t, k: nat | k < |page.units| && P(t, k)
      ensures P(AddUnitTo(t, page, page.units[k], size, overlap), k + 1)
    {
      AddUnitStaysInside(t, AddUnitTo(t, page, page.units[k], size, overlap), page, k, size, overlap, longest);
    }
    UnitsInduction(P, s, page, |page.units|, size, overlap);
  }

  lemma {:induction false} AddUnitsExtends(s: Progress, page: Page, n: nat, size: nat, overlap: nat)
    requires overlap < size && n <= |page.units|
    ensures s.raw <= AddUnits(s, page, n, size, overlap).raw
    decreases n
  {
    if n > 0 {
      AddUnitsExtends(s, page, n - 1, size, overlap);
      AddUnitExtends(AddUnits(s, page, n - 1, size, overlap), page, page.units[n - 1], size, overlap);
    }
  }

  lemma AddPageCovers(s: Progress, page: Page, size: nat, overlap: nat, longest: nat)
    requires overlap < size && GoodUnits(page, longest) && RawOk(s.raw, Bound(size, overlap, longest)) && |s.current| <= overlap
    ensures var t := AddPage(s, page, size, overlap);
      && RawOk(t.raw, Bound(size, overlap, longest)) && |t.current| <= overlap
      && s.raw <= t.raw && PageCovered(t.raw, page, size, overlap)
  {
    AddUnitsStaysInside(s, page, size, overlap, longest);
    AddUnitsExtends(s, page, |page.units|, size, overlap);
    var u := AddUnits(s, page, |page.units|, size, overlap);
    var t := AddPage(s, page, size, overlap);
    if page.units != [] {
      if u.current != "" {
        EmitKeeps(u.raw, page, u.current, Bound(size, overlap, longest));
        PendingIsEmitted(u.raw, t.raw, page, |page.units|, u.current, size, overlap);
      }
      forall i | 0 <= i < |page.units| ensures Covered(t.raw, page, page.units[i], size, overlap) {
        if u.current == "" { assert Covered(u.raw, page, page.units[i], size, overlap) || Contains(u.current, page.units[i]); }
      }
    }
  }

  ghost predicate PagesCovered(s: Progress, pages: seq<Page>, size: nat, overlap: nat, longest: nat)
    requires overlap < size
  {
    RawOk(s.raw, Bound(size, overlap, longest)) && |s.current| <= overlap && AllCovered(s.raw, pages, size, overlap)
  }

  lemma OnePageCovers(s: Progress, pages: seq<Page>, page: Page, size: nat, overlap: nat, longest: nat)
    requires overlap < size && GoodUnits(page, longest) && PagesCovered(s, pages, size, overlap, longest)
    ensures PagesCovered(AddPage(s, page, size, overlap), pages + [page], size, overlap, longest)
  {
    AddPageCovers(s, page, size, overlap, longest);
    OnePageMore(s.raw, AddPage(s, page, size, overlap).raw, pages, page, size, overlap);
  }

  /** What every page step keeps holds after all of them. */
  lemma {:induction false} PagesInduction(P: (Progress, nat) -> bool, pages: seq<Page>, n: nat, size: nat, overlap: nat)
    requires overlap < size && n <= |pages| && P(Progress([], "", []), 0)
    requires forall t, k: nat :: k < n && P(t, k) ==> P(AddPage(t, pages[k], size, overlap), k + 1)
    ensures P(AddPages(pages, n, size, overlap), n)
    decreases n
  {
    if n > 0 {
      PagesInduction(P, pages, n - 1, size, overlap);
      assert P(AddPage(AddPages(pages, n - 1, size, overlap), pages[n - 1], size, overlap), n - 1 + 1);
    }
  }

  /** Raw chunks are numbered in order and no longer than max(size, overlap + 1 + longest unit); they
      cover every unit on its own page. */
  lemma AddPagesCovers(pages: seq<Page>, size: nat, overlap: nat, longest: nat)
    requires overlap < size && WellSplit(pages) && UnitsUpTo(pages, longest)
    ensures PagesCovered(AddPages(pages, |pages|, size, overlap), pages, size, overlap, longest)
  {
    var P := (t: Progress, k: nat) => k <= |pages| && PagesCovered(t, pages[..k], size, overlap, longest);
    forall t, k: nat | k < |pages| && P(t, k) ensures P(AddPage(t, pages[k], size, overlap), k + 1) {
      OnePageCovers(t, pages[..k], pages[k], size, overlap, longest);
      assert pages[..k + 1] == pages[..k] + [pages[k]];
    }
    PagesInduction(P, pages, |pages|, size, overlap);
    assert pages[..|pages|] == pages;
  }

  function Chunks(pages: seq<Page>, size: nat, overlap: nat): seq<TextChunk>
    requires overlap < size
  {
    Dedup(AddPages(pages, |pages|, size, overlap).raw)
  }

  /** Nothing is lost: every unit lies inside a returned chunk, or was cut into parts that are all
      returned, up to stripping and exact duplicates. Indices are 0..n-1, the texts stripped,
      non-empty, distinct and no longer than max(size, overlap + 1 + longest unit). */
  lemma ChunkingLosesNothing(pages: seq<Page>, size: nat, overlap: nat, longest: nat)
    requires overlap < size && WellSplit(pages) && UnitsUpTo(pages, longest)
    ensures IsChunkList(Chunks(pages, size, overlap), Bound(size, overlap, longest))
    ensures forall p, u :: 0 <= p < |pages| && u in pages[p].units ==> Kept(Texts(Chunks(pages, size, overlap)), u, size, overlap)
  {
    AddPagesCovers(pages, size, overlap, longest);
    var raw := AddPages(pages, |pages|, size, overlap).raw;
    DedupResult(raw, Bound(size, overlap, longest));
    AllKept(raw, pages, size, overlap, Bound(size, overlap, longest));
  }

  // ------------------------------------------------------------------ what a returned chunk carries

  /** Raw chunk i is the first whose stripped text is this one. */
  ghost predicate IsFirst(raw: seq<TextChunk>, i: nat, text: string) {
    i < |raw| && Strip(raw[i].text) == text && forall j :: 0 <= j < i ==> Strip(raw[j].text) != text
  }

  /** A returned chunk has the stripped text, page, section and estimate of the first raw chunk with that text. */
  lemma {:induction false} ReturnedCarries(raw: seq<TextChunk>, k: nat) returns (i: nat)
    requires k < |Dedup(raw)|
    ensures IsFirst(raw, i, Dedup(raw)[k].text)
    ensures var c := Dedup(raw)[k];
      c.pageNumber == raw[i].pageNumber && c.sectionTitle == raw[i].sectionTitle && c.tokenEstimate == raw[i].tokenEstimate
    decreases |raw|
  {
    var init := raw[..|raw| - 1];
    if k < |Dedup(init)| {
      i := ReturnedCarries(init, k);
      assert raw[i] == init[i];
    } else {
      i := |raw| - 1;
      forall j | 0 <= j < i ensures Strip(raw[j].text) != Strip(raw[i].text) { KeptBefore(init, j); }
    }
  }

  /** Every non-blank text is among the returned ones. */
  lemma {:induction false} KeptBefore(raw: seq<TextChunk>, j: nat)
    requires j < |raw|
    ensures Strip(raw[j].text) == "" || Strip(raw[j].text) in Texts(Dedup(raw))
    decreases |raw|
  {
    var init := raw[..|raw| - 1];
    var before, after := Dedup(init), Dedup(raw);
    if j < |init| {
      KeptBefore(init, j);
      assert raw[j] == init[j];
      if Strip(raw[j].text) != "" {
        var k :| 0 <= k < |before| && before[k].text == Strip(raw[j].text);
        assert after[k].text == Strip(raw[j].text);
      }
    } else if |after| > |before| {
      assert after[|before|].text == Strip(raw[j].text);
    }
  }

  /** So the estimate of a returned chunk is max(1, length / 3) of that raw text, before stripping. */
  lemma EstimateIs(text: string)
    ensures EstimateTokens(text) == if |text| < 6 then 1 else |text| / 3
  {
  }

  // ------------------------------------------------------------------ greedy packing

  /** A unit joins the pending text exactly when the two fit together; otherwise something is emitted. So no
      chunk is closed while the next unit still fits, and none is kept open when it does not. */
  lemma ClosesExactlyWhenFull(s: Progress, page: Page, n: nat, size: nat, overlap: nat)
    requires overlap < size && n < |page.units| && page.units[n] != ""
    ensures var before, unit := AddUnits(s, page, n, size, overlap), page.units[n];
      var after := AddUnits(s, page, n + 1, size, overlap);
      && (|Strip(before.current + " " + unit)| <= size ==>
            after.raw == before.raw && after.current == Strip(before.current + " " + unit))
      && (|Strip(before.current + " " + unit)| > size ==> |after.raw| > |before.raw|)
      && (|Strip(before.current + " " + unit)| > size && before.current != "" ==>
            after.raw[|before.raw|].text == before.current && |after.raw| == |before.raw| + 1)
  {
    var before, unit := AddUnits(s, page, n, size, overlap), page.units[n];
    WithChunksShape(before.raw, page, SplitLong(unit, size, overlap));
  }

  // ------------------------------------------------------------------ the chunker

  class ArabicAwareChunker {
    const chunkSize: nat
    const overlap: nat

    /** No chunker is made unless the overlap is smaller than the chunk size. */
    static method Create(chunkSize: nat, overlap: nat) returns (c: ArabicAwareChunker?)
      ensures c == null <==> overlap >= chunkSize
      ensures c != null ==> fresh(c) && c.chunkSize == chunkSize && c.overlap == overlap
    {
      if overlap >= chunkSize { return null; }
      c := new ArabicAwareChunker(chunkSize, overlap);
    }

    constructor (chunkSize: nat, overlap: nat)
      requires overlap < chunkSize
      ensures this.chunkSize == chunkSize && this.overlap == overlap
    {
      this.chunkSize := chunkSize;
      this.overlap := overlap;
    }

    method Chunk(pages: seq<Page>) returns (deduped: seq<TextChunk>)
      requires overlap < chunkSize
      ensures deduped == Chunks(pages, chunkSize, overlap)
    {
      var output: seq<TextChunk> := [];
      var carry := "";
      for p := 0 to |pages|
        invariant var t := AddPages(pages, p, chunkSize, overlap); output == t.raw && carry == t.current
      {
        output, carry := ChunkPage(output, carry, pages[p], AddPages(pages, p, chunkSize, overlap));
      }
      deduped := RemoveDuplicates(output);
    }

    /** One turn of the outer loop. */
    method ChunkPage(output: seq<TextChunk>, carry: string, page: Page, ghost s: Progress)
      returns (r: seq<TextChunk>, nextCarry: string)
      requires overlap < chunkSize && s.raw == output && s.current == carry
      ensures var t := AddPage(s, page, chunkSize, overlap); r == t.raw && nextCarry == t.current
    {
      r := output;
      if page.units == [] { return r, carry; }
      var current := carry;
      for n := 0 to |page.units|
        invariant var t := AddUnits(s, page, n, chunkSize, overlap); r == t.raw && current == t.current
      {
        var unit := page.units[n];
        var candidate := Strip(current + " " + unit);
        if |candidate| <= chunkSize {
          current := candidate;
          continue;
        }
        if current != "" {
          r := r + [TextChunk(|r|, current, page.pageNumber, page.sectionTitle, EstimateTokens(current))];
          current := Tail(current, overlap) + " " + unit;
        } else {
          r := EmitParts(r, page, unit);
          current := "";
        }
      }
      if current != "" {
        r := r + [TextChunk(|r|, current, page.pageNumber, page.sectionTitle, EstimateTokens(current))];
        nextCarry := Tail(current, overlap);
      } else {
        nextCarry := "";
      }
    }

    method EmitParts(output: seq<TextChunk>, page: Page, unit: string) returns (r: seq<TextChunk>)
      requires overlap < chunkSize
      ensures r == WithChunks(output, page, SplitLong(unit, chunkSize, overlap))
    {
      var parts := SplitLong(unit, chunkSize, overlap);
      r := output;
      for k := 0 to |parts|
        invariant r == WithChunks(output, page, parts[..k])
      {
        assert parts[..k + 1][..k] == parts[..k];
        r := r + [TextChunk(|r|, parts[k], page.pageNumber, page.sectionTitle, EstimateTokens(parts[k]))];
      }
      assert parts[..|parts|] == parts;
    }

    method RemoveDuplicates(output: seq<TextChunk>) returns (deduped: seq<TextChunk>)
      ensures deduped == Dedup(output)
    {
      deduped := [];
      var seen: set<string> := {};
      for k := 0 to |output|
        invariant deduped == Dedup(output[..k]) && seen == Texts(deduped)
      {
        assert output[..k + 1][..k] == output[..k];
        var item := output[k];
        var key := Strip(item.text);
        if key != "" && key !in seen {
          ghost var before := deduped;
          deduped := deduped + [item.(chunkIndex := |deduped|, text := key)];
          seen := seen + {key};
          TextsAppend(before, deduped[|before|]);
        }
      }
      assert output[..|output|] == output;
    }
  }
}
