/** The numbered context that a retrieval returns: a prefix of the ranked chunks within a budget. */
module Retrieval {
  import opened DecimalText

  /** A ranked chunk; page 0 and an empty section stand for a missing one; the guard is the warning line
      put before every text, and suspicious is what its patterns say of this one. */
  datatype Chunk = Chunk(chunkId: int, sourceId: string, page: nat, section: string, text: string, guard: string, suspicious: bool)
  datatype Citation = Citation(chunkId: int, sourceId: string, page: nat, section: string, excerpt: string)
  datatype Context = Context(text: string, citations: seq<Citation>, suspicious: bool)

  function Header(refNo: nat, c: Chunk): string {
    "[S" + Decimal(refNo) + "] source_id=" + c.sourceId
    + (if c.page != 0 then " page=" + Decimal(c.page) else "")
    + (if c.section != "" then " section=" + c.section else "")
  }

  function Block(refNo: nat, c: Chunk): string { Header(refNo, c) + "\n" + (c.guard + c.text) }

  function Cite(c: Chunk): Citation {
    Citation(c.chunkId, c.sourceId, c.page, c.section, if |c.text| <= 1200 then c.text else c.text[..1200])
  }

  function Blocks(chunks: seq<Chunk>, n: nat): (r: seq<string>)
    requires n <= |chunks|
    ensures |r| == n
  {
    if n == 0 then [] else Blocks(chunks, n - 1) + [Block(n, chunks[n - 1])]
  }

  function Cites(chunks: seq<Chunk>, n: nat): (r: seq<Citation>)
    requires n <= |chunks|
    ensures |r| == n && forall i :: 0 <= i < n ==> r[i] == Cite(chunks[i])
  {
    if n == 0 then [] else Cites(chunks, n - 1) + [Cite(chunks[n - 1])]
  }

  /** Characters in the parts, separators apart. */
  function Size(parts: seq<string>): nat {
    if parts == [] then 0 else Size(parts[..|parts| - 1]) + |parts[|parts| - 1]|
  }

  function Join(parts: seq<string>): string {
    if parts == [] then ""
    else if |parts| == 1 then parts[0]
    else Join(parts[..|parts| - 1]) + "\n\n" + parts[|parts| - 1]
  }

  /** The blocks that fit, up to the first that does not. */
  ghost predicate Taken(chunks: seq<Chunk>, budget: int, n: nat) {
    && n <= |chunks| && (n > 0 ==> Size(Blocks(chunks, n)) <= budget)
    && (n < |chunks| ==> Size(Blocks(chunks, n + 1)) > budget)
  }

  function AnySuspicious(chunks: seq<Chunk>, n: nat): bool
    requires n <= |chunks|
  {
    n > 0 && (AnySuspicious(chunks, n - 1) || chunks[n - 1].suspicious)
  }

  lemma {:induction false} AnySuspiciousIff(chunks: seq<Chunk>, n: nat)
    requires n <= |chunks|
    ensures AnySuspicious(chunks, n) <==> exists i :: 0 <= i < n && chunks[i].suspicious
  {
    if n > 0 { AnySuspiciousIff(chunks, n - 1); }
  }

  /** The chunks looked at: the first that does not fit is one of them, so it can raise the flag. */
  function Seen(chunks: seq<Chunk>, n: nat): nat { if n < |chunks| then n + 1 else |chunks| }

  lemma SizeOneMore(parts: seq<string>, part: string)
    ensures Size(parts + [part]) == Size(parts) + |part|
  {
    assert (parts + [part])[..|parts|] == parts;
  }

  lemma {:induction false} SizeGrows(chunks: seq<Chunk>, m: nat, n: nat)
    requires m <= n <= |chunks|
    ensures Size(Blocks(chunks, m)) <= Size(Blocks(chunks, n))
  {
    if m < n {
      SizeGrows(chunks, m, n - 1);
      SizeOneMore(Blocks(chunks, n - 1), Block(n, chunks[n - 1]));
    }
  }

  /** The chunks and the budget determine how many blocks are taken. */
  lemma TakenIsUnique(chunks: seq<Chunk>, budget: int, m: nat, n: nat)
    requires Taken(chunks, budget, m) && Taken(chunks, budget, n)
    ensures m == n
  {
    if m < n { SizeGrows(chunks, m + 1, n); } else if n < m { SizeGrows(chunks, n + 1, m); }
  }

  // ------------------------------------------------------------------ the joined text

  lemma {:induction false} JoinedLength(parts: seq<string>)
    ensures |Join(parts)| == Size(parts) + if parts == [] then 0 else 2 * (|parts| - 1)
  {
    if parts != [] { JoinedLength(parts[..|parts| - 1]); }
  }

  /** The first m blocks just fit, without the separators between them. */
  ghost predicate JustFits(chunks: seq<Chunk>, budget: int, m: nat) {
    && 2 <= m <= |chunks|
    && Size(Blocks(chunks, m)) <= budget < Size(Blocks(chunks, m)) + 2 * (m - 1)
    && (m == |chunks| || budget < Size(Blocks(chunks, m + 1)))
  }

  /** The separators are not counted, so the text overruns the budget exactly when some number of blocks
      just fits without them; and then by no more than the separators. */
  lemma OverrunsIff(chunks: seq<Chunk>, budget: nat, n: nat)
    requires Taken(chunks, budget, n)
    ensures |Join(Blocks(chunks, n))| > budget <==> exists m :: JustFits(chunks, budget, m)
    ensures n > 0 ==> |Join(Blocks(chunks, n))| <= budget + 2 * (n - 1)
  {
    JoinedLength(Blocks(chunks, n));
    if m :| JustFits(chunks, budget, m) { TakenIsUnique(chunks, budget, m, n); }
    else if n >= 2 { assert !JustFits(chunks, budget, n); }
  }

  /** Any two chunks overrun the budget that their blocks just fill. */
  lemma BudgetCanBeOverrun(chunks: seq<Chunk>)
    requires |chunks| == 2
    ensures var budget := Size(Blocks(chunks, 2)); Taken(chunks, budget, 2) && |Join(Blocks(chunks, 2))| == budget + 2
  {
    JoinedLength(Blocks(chunks, 2));
  }

  /** What the loop has collected from the first n chunks. */
  ghost predicate Collected(chunks: seq<Chunk>, n: nat, parts: seq<string>, citations: seq<Citation>, consumed: int, suspicious: bool) {
    && n <= |chunks| && parts == Blocks(chunks, n) && citations == Cites(chunks, n)
    && consumed == Size(parts) && suspicious == AnySuspicious(chunks, n)
  }

  lemma CollectOneMore(chunks: seq<Chunk>, n: nat, parts: seq<string>, citations: seq<Citation>, consumed: int, suspicious: bool,
                       block: string)
    requires n < |chunks| && Collected(chunks, n, parts, citations, consumed, suspicious) && block == Block(n + 1, chunks[n])
    ensures Collected(chunks, n + 1, parts + [block], citations + [Cite(chunks[n])], consumed + |block|, suspicious || chunks[n].suspicious)
    ensures consumed + |block| == Size(Blocks(chunks, n + 1)) && (suspicious || chunks[n].suspicious) == AnySuspicious(chunks, n + 1)
  {
    SizeOneMore(parts, block);
  }

  /** The loop: chunks are taken until one does not fit. */
  method Collect(chunks: seq<Chunk>, budget: int) returns (parts: seq<string>, citations: seq<Citation>, suspicious: bool, n: nat)
    ensures Taken(chunks, budget, n) && parts == Blocks(chunks, n) && citations == Cites(chunks, n)
    ensures suspicious == AnySuspicious(chunks, Seen(chunks, n))
  {
    parts, citations, suspicious, n := [], [], false, 0;
    var consumed := 0;
    while n < |chunks|
      invariant n <= |chunks| && Collected(chunks, n, parts, citations, consumed, suspicious) && (n > 0 ==> consumed <= budget)
    {
      var block := Block(n + 1, chunks[n]);
      CollectOneMore(chunks, n, parts, citations, consumed, suspicious, block);
      suspicious := suspicious || chunks[n].suspicious;
      if consumed + |block| > budget { return; }
      parts, citations := parts + [block], citations + [Cite(chunks[n])];
      consumed := consumed + |block|;
      n := n + 1;
    }
  }

  method Retrieve(chunks: seq<Chunk>, budget: int) returns (ctx: Context, n: nat)
    ensures Taken(chunks, budget, n)
    ensures ctx.text == Join(Blocks(chunks, n)) && ctx.citations == Cites(chunks, n)
    ensures ctx.suspicious <==> exists i :: 0 <= i < |chunks| && i <= n && chunks[i].suspicious
    ensures budget >= 0 ==> (|ctx.text| > budget <==> exists m :: JustFits(chunks, budget, m))
  {
    var parts, citations, suspicious;
    parts, citations, suspicious, n := Collect(chunks, budget);
    AnySuspiciousIff(chunks, Seen(chunks, n));
    if budget >= 0 { OverrunsIff(chunks, budget, n); }
    ctx := Context(Join(parts), citations, suspicious);
  }

  /** Where part k starts in the joined text. */
  function Offset(parts: seq<string>, k: nat): nat
    requires k < |parts|
  {
    Size(parts[..k]) + 2 * k
  }

  /** Part k stands whole in the joined text. */
  lemma {:induction false} PartIsPrinted(parts: seq<string>, k: nat)
    requires k < |parts|
    ensures Offset(parts, k) <= |Join(parts)| && parts[k] <= Join(parts)[Offset(parts, k)..]
  {
    var init, last := parts[..|parts| - 1], parts[|parts| - 1];
    JoinedLength(init);
    assert parts[..k] == init[..k];
    if k < |init| {
      PartIsPrinted(init, k);
      var at := Offset(init, k);
      assert Join(parts)[at..] == Join(init)[at..] + ("\n\n" + last);
    } else if k > 0 {
      assert init[..k] == init;
      assert Join(parts) == Join(init) + "\n\n" + last;
    }
  }

  lemma {:induction false} BlocksAt(chunks: seq<Chunk>, n: nat, k: nat)
    requires k < n <= |chunks|
    ensures Blocks(chunks, n)[k] == Block(k + 1, chunks[k])
  {
    if k < n - 1 { BlocksAt(chunks, n - 1, k); }
  }

  /** A citation's excerpt opens the text printed under its own number, after the header and the guard. */
  lemma ExcerptIsPrinted(chunks: seq<Chunk>, n: nat, refNo: nat)
    requires 1 <= refNo <= n <= |chunks|
    ensures var c, parts := chunks[refNo - 1], Blocks(chunks, n);
      var at := Offset(parts, refNo - 1);
      && at <= |Join(parts)|
      && (Header(refNo, c) + "\n" + (c.guard + Cites(chunks, n)[refNo - 1].excerpt)) <= Join(parts)[at..]
  {
    var c := chunks[refNo - 1];
    PartIsPrinted(Blocks(chunks, n), refNo - 1);
    BlocksAt(chunks, n, refNo - 1);
    ExcerptOpensBlock(Header(refNo, c), c);
  }

  lemma ExcerptOpensBlock(header: string, c: Chunk)
    ensures (header + "\n" + (c.guard + Cite(c).excerpt)) <= (header + "\n" + (c.guard + c.text))
  {
    assert Cite(c).excerpt <= c.text;
  }

  /** A block's header names its number and source, and page and section where there are any. */
  lemma HeaderIs(refNo: nat, c: Chunk)
    ensures var start := "[S" + Decimal(refNo) + "] source_id=" + c.sourceId;
      && (c.page == 0 && c.section == "" ==> Header(refNo, c) == start)
      && (c.page != 0 && c.section == "" ==> Header(refNo, c) == start + " page=" + Decimal(c.page))
      && (c.page == 0 && c.section != "" ==> Header(refNo, c) == start + " section=" + c.section)
      && (c.page != 0 && c.section != "" ==> Header(refNo, c) == start + " page=" + Decimal(c.page) + " section=" + c.section)
  {
  }

  /** A citation carries its chunk's identity and the first 1200 characters of its text. */
  lemma CitationIs(chunks: seq<Chunk>, n: nat, k: nat)
    requires k < n <= |chunks|
    ensures var c, cited := chunks[k], Cites(chunks, n)[k];
      && cited.chunkId == c.chunkId && cited.sourceId == c.sourceId && cited.page == c.page && cited.section == c.section
      && cited.excerpt <= c.text && |cited.excerpt| == (if |c.text| < 1200 then |c.text| else 1200)
  {
  }

  /** Between two blocks stands an empty line. */
  lemma SeparatorIsPrinted(parts: seq<string>, part: string)
    requires parts != []
    ensures Join(parts + [part]) == Join(parts) + "\n\n" + part
  {
    assert (parts + [part])[..|parts|] == parts;
  }
}
