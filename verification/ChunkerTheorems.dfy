/** What the chunker promises of any document. */
module ChunkerTheorems {
  import opened Identifiers
  import opened Text
  import opened Windows
  import opened Sections
  import References
  import opened Chunker
  import Pipeline
  import PipelineInvariant
  import opened Tables

  // --- where a chunk comes from ------------------------------------------------------------

  /** Chunk `k` is made of range `i` of section `m`. */
  ghost predicate ComesFrom(setup: Setup, sections: seq<Section>, k: nat, m: nat, i: nat)
    requires setup.Valid()
  {
    && k < |ChunksOf(setup, sections)| && m < |sections| && i < |RangesIn(setup, sections[m])|
    && k == |ChunksOf(setup, sections[..m])| + i
    && RangesIn(setup, sections[m])[i].start <= RangesIn(setup, sections[m])[i].end <= |TextOf(sections[m].blocks)|
    && ChunksOf(setup, sections)[k] == ChunkOf(sections[m], RangesIn(setup, sections[m])[i], k)
  }

  lemma {:induction false} ChunksOverAre(section: Section, ranges: seq<Range>, first: nat)
    requires References.RangesFit(TextOf(section.blocks), ranges)
    ensures var kept, chunks := References.Kept(TextOf(section.blocks), ranges), ChunksOver(section, ranges, first);
            && |chunks| == |kept|
            && forall i | 0 <= i < |kept| ::
                 && kept[i].start <= kept[i].end <= |TextOf(section.blocks)|
                 && chunks[i] == ChunkOf(section, kept[i], first + i)
  {
    hide ChunkOf, Blank, TextOf;
    if ranges != [] {
      ChunksOverAre(section, ranges[..|ranges| - 1], first);
    }
  }

  lemma ChunksInAre(setup: Setup, section: Section, first: nat)
    requires setup.Valid()
    ensures var ranges, chunks := RangesIn(setup, section), ChunksIn(setup, section, first);
            && |chunks| == |ranges|
            && forall i | 0 <= i < |ranges| ::
                 && ranges[i].start <= ranges[i].end <= |TextOf(section.blocks)|
                 && chunks[i] == ChunkOf(section, ranges[i], first + i)
  {
    hide ChunkOf, Blank, TextOf, RawRanges, References.Kept, ChunksOver;
    RangesFitText(setup, section);
    ChunksOverAre(section, RawRanges(setup, section), first);
  }

  lemma {:induction false} ChunkComesFrom(setup: Setup, sections: seq<Section>, k: nat) returns (m: nat, i: nat)
    requires setup.Valid() && k < |ChunksOf(setup, sections)|
    ensures ComesFrom(setup, sections, k, m, i)
  {
    hide ChunkOf, RangesIn, ChunksIn, TextOf;
    var n := |sections| - 1;
    var before := ChunksOf(setup, sections[..n]);
    ChunksInAre(setup, sections[n], |before|);
    if k < |before| {
      m, i := ChunkComesFrom(setup, sections[..n], k);
      assert sections[..n][..m] == sections[..m];
    } else {
      m, i := n, k - |before|;
    }
  }

  lemma {:induction false} RangeBecomes(setup: Setup, sections: seq<Section>, m: nat, i: nat) returns (k: nat)
    requires setup.Valid() && m < |sections| && i < |RangesIn(setup, sections[m])|
    ensures ComesFrom(setup, sections, k, m, i)
  {
    hide ChunkOf, RangesIn, ChunksIn, TextOf;
    var n := |sections| - 1;
    var before := ChunksOf(setup, sections[..n]);
    ChunksInAre(setup, sections[n], |before|);
    if m < n {
      k := RangeBecomes(setup, sections[..n], m, i);
      assert sections[..n][..m] == sections[..m];
    } else {
      k := |before| + i;
    }
  }

  // --- every chunk ----------------------------------------------------------------------------

  /**
   Chunks are numbered from zero without a gap, hold between one token and `size`, and quote a section
   that is not blank where they quote it.
   */
  lemma EveryChunk(setup: Setup, pages: seq<Page>, k: nat) returns (m: nat, start: nat)
    requires setup.Valid() && k < |Chunks(setup, pages)|
    ensures var chunk := Chunks(setup, pages)[k];
            && chunk.index == k
            && 1 <= chunk.tokenCount <= setup.size
            && (exists p | 0 <= p < |chunk.content| :: chunk.content[p] !in WHITESPACE)
            && m < |SectionsIn(setup, pages)|
            && var section := SectionsIn(setup, pages)[m];
            && chunk.section == section.title
            && start + |chunk.content| <= |TextOf(section.blocks)|
            && chunk.content == TextOf(section.blocks)[start..start + |chunk.content|]
  {
    hide SectionsIn, ChunksOf, RangesIn, TextOf, PagesCovering, Blank;
    var sections := SectionsIn(setup, pages);
    var i;
    m, i := ChunkComesFrom(setup, sections, k);
    RangesInAreGood(setup, sections[m]);
    start := RangesIn(setup, sections[m])[i].start;
    HasInk(Chunks(setup, pages)[k].content);
  }

  lemma HasInk(text: string)
    requires !Blank(text)
    ensures exists p | 0 <= p < |text| :: text[p] !in WHITESPACE
  {
    var p :| 0 <= p < |text| && !IsSpace(text[p]);
    WhitespaceIs(text[p]);
  }

  // --- nothing is lost ------------------------------------------------------------------------

  /** The block a character of a section lies in is one its chunk's pages cover. */
  lemma CharacterIsCovered(setup: Setup, section: Section, j: nat, p: nat) returns (i: nat)
    requires setup.Valid() && j < |section.blocks| && p < |section.blocks[j].text|
    requires !IsSpace(section.blocks[j].text[p])
    ensures i < |RangesIn(setup, section)|
    ensures var r, b := RangesIn(setup, section)[i], PlacedOf(section.blocks)[j];
            && r.start <= b.start + p < r.end
            && Touches(b, r.start, r.end)
  {
    hide RangesIn, TextOf, PlacedOf, RangeOk;
    BlockIsThere(section.blocks, j);
    RangesInAreGood(setup, section);
    var b, text := PlacedOf(section.blocks)[j], TextOf(section.blocks);
    assert text[b.start..b.end][p] == text[b.start + p];
    var ranges := RangesIn(setup, section);
    assert Covered(ranges, b.start + p);
    i :| 0 <= i < |ranges| && ranges[i].start <= b.start + p < ranges[i].end;
  }

  /** Every block of the document is a block of some section. */
  lemma {:induction false} BlockIsInSection(rules: Rules, flat: seq<FlatBlock>, sections: seq<Section>, n: nat, f: nat)
    returns (m: nat, j: nat)
    requires n <= |sections| && f < Offset(sections, n)
    requires forall i | 0 <= i < |sections| :: Placed(rules, flat, sections, i)
    ensures m < n && j < |sections[m].blocks| && f == Offset(sections, m) + j && f < |flat|
    ensures sections[m].blocks[j] == flat[f].block
  {
    if Offset(sections, n - 1) <= f {
      m, j := n - 1, f - Offset(sections, n - 1);
      assert Placed(rules, flat, sections, m);
    } else {
      hide Placed;
      m, j := BlockIsInSection(rules, flat, sections, n - 1, f);
    }
  }

  /** How many blocks the first `i` pages have. */
  function BlocksBefore(pages: seq<Page>, i: nat): nat
    requires i <= |pages|
  {
    if i == 0 then 0 else BlocksBefore(pages, i - 1) + |pages[i - 1].blocks|
  }

  lemma {:induction false} SameBefore(pages: seq<Page>, i: nat)
    requires i < |pages|
    ensures BlocksBefore(pages[..|pages| - 1], i) == BlocksBefore(pages, i)
  {
    if i > 0 {
      SameBefore(pages, i - 1);
    }
  }

  lemma {:induction false} FlatLength(rules: Rules, bodySize: real, pages: seq<Page>)
    ensures |Flat(rules, bodySize, pages)| == BlocksBefore(pages, |pages|)
  {
    if pages != [] {
      FlatLength(rules, bodySize, pages[..|pages| - 1]);
      SameBefore(pages, |pages| - 1);
    }
  }

  lemma {:induction false} BlockIsFlat(rules: Rules, bodySize: real, pages: seq<Page>, i: nat, j: nat) returns (f: nat)
    requires i < |pages| && j < |pages[i].blocks|
    ensures f == BlocksBefore(pages, i) + j < |Flat(rules, bodySize, pages)|
    ensures var b := pages[i].blocks[j];
            Flat(rules, bodySize, pages)[f]
            == FlatBlock(SectionBlock(b.text, pages[i].number), rules.heading(b.text, b.fontSize, bodySize))
  {
    var front, last := pages[..|pages| - 1], pages[|pages| - 1];
    SameBefore(pages, i);
    FlatLength(rules, bodySize, front);
    if i < |front| {
      f := BlockIsFlat(rules, bodySize, front, i, j);
    } else {
      f := |Flat(rules, bodySize, front)| + j;
    }
  }

  /**
   Where a block of the document is in its sections: in its place among all blocks, and first in a titled section
   exactly if it is a heading by its own size and the document's body size, whose text is then the title.
   */
  lemma HeadingsOpenSections(setup: Setup, pages: seq<Page>, bodySize: real, i: nat, j: nat) returns (m: nat, q: nat)
    requires IsBodySize(pages, bodySize) && i < |pages| && j < |pages[i].blocks|
    ensures var sections, b := SectionsIn(setup, pages), pages[i].blocks[j];
            && m < |sections| && q < |sections[m].blocks|
            && Offset(sections, m) + q == BlocksBefore(pages, i) + j
            && Offset(sections, |sections|) == BlocksBefore(pages, |pages|)
            && sections[m].blocks[q] == SectionBlock(b.text, pages[i].number)
            && (q == 0 && sections[m].title.Some? <==> setup.rules.heading(b.text, b.fontSize, bodySize))
            && (q == 0 && sections[m].title.Some? ==> sections[m].title == Some(setup.rules.title(b.text)))
            && (sections[m].title.None? ==> m == 0)
  {
    hide SectionsOf, Flat, Offset;
    BodySizeIsUnique(pages, bodySize, BodySizeOf(pages));
    var flat, sections := Flat(setup.rules, bodySize, pages), SectionsIn(setup, pages);
    var f := BlockIsFlat(setup.rules, bodySize, pages, i, j);
    FlatLength(setup.rules, bodySize, pages);
    SectionsDivide(setup.rules, flat);
    m, q := BlockIsInSection(setup.rules, flat, sections, |sections|, f);
    assert Sections.Placed(setup.rules, flat, sections, m);
    assert flat[Offset(sections, m) + q].heading <==> q == 0 && sections[m].title.Some?;
  }

  /**
   Chunking loses nothing: every character of every block that is not whitespace is in some chunk, at
   its own place in the section's text, and that chunk's pages include the block's page.
   */
  lemma NothingIsLost(setup: Setup, pages: seq<Page>, i: nat, j: nat, p: nat)
    returns (k: nat, m: nat, q: nat, start: nat)
    requires setup.Valid() && i < |pages| && j < |pages[i].blocks| && p < |pages[i].blocks[j].text|
    requires pages[i].blocks[j].text[p] !in WHITESPACE
    ensures m < |SectionsIn(setup, pages)| && q < |SectionsIn(setup, pages)[m].blocks|
    ensures SectionsIn(setup, pages)[m].blocks[q] == SectionBlock(pages[i].blocks[j].text, pages[i].number)
    ensures k < |Chunks(setup, pages)|
    ensures var chunk := Chunks(setup, pages)[k];
            var text := TextOf(SectionsIn(setup, pages)[m].blocks);
            var at := PlacedOf(SectionsIn(setup, pages)[m].blocks)[q].start + p;
            && start + |chunk.content| <= |text|
            && chunk.content == text[start..start + |chunk.content|]
            && start <= at < start + |chunk.content|
            && chunk.content[at - start] == pages[i].blocks[j].text[p]
            && chunk.pageStart <= pages[i].number <= chunk.pageEnd
  {
    hide SectionsOf, Flat, Divides, ChunksOf, RangesIn, TextOf, PlacedOf, PagesCovering, BodySizeOf, Touches;
    WhitespaceIs(pages[i].blocks[j].text[p]);
    var bodySize := BodySizeOf(pages);
    var flat := Flat(setup.rules, bodySize, pages);
    var sections := SectionsIn(setup, pages);
    var f := BlockIsFlat(setup.rules, bodySize, pages, i, j);
    m, q := FlatBlockIsInSection(setup.rules, flat, f);
    var r;
    r := CharacterIsCovered(setup, sections[m], q, p);
    k := RangeBecomes(setup, sections, m, r);
    start := RangesIn(setup, sections[m])[r].start;
    var b := PlacedOf(sections[m].blocks)[q];
    BlockIsThere(sections[m].blocks, q);
    PagesAre(PlacedOf(sections[m].blocks), start, RangesIn(setup, sections[m])[r].end, q);
    var text, end := TextOf(sections[m].blocks), RangesIn(setup, sections[m])[r].end;
    assert text[b.start..b.end][p] == text[b.start + p];
    assert text[start..end][b.start + p - start] == text[b.start + p];
  }

  lemma FlatBlockIsInSection(rules: Rules, flat: seq<FlatBlock>, f: nat) returns (m: nat, j: nat)
    requires f < |flat|
    ensures m < |SectionsOf(rules, flat)| && j < |SectionsOf(rules, flat)[m].blocks|
    ensures SectionsOf(rules, flat)[m].blocks[j] == flat[f].block
  {
    hide SectionsOf, Placed;
    SectionsDivide(rules, flat);
    var sections := SectionsOf(rules, flat);
    m, j := BlockIsInSection(rules, flat, sections, |sections|, f);
  }

  // --- page provenance --------------------------------------------------------------------------

  predicate PagesAscend(pages: seq<Page>) {
    forall i, j | 0 <= i < j < |pages| :: pages[i].number <= pages[j].number
  }

  predicate BlocksAscend(blocks: seq<SectionBlock>) {
    forall i, j | 0 <= i < j < |blocks| :: blocks[i].pageNumber <= blocks[j].pageNumber
  }

  /** The first and the last block a range draws from. */
  predicate DrawsFrom(placed: seq<PlacedBlock>, r: Range, a: nat, b: nat) {
    && a <= b < |placed|
    && placed[a].start < r.end && placed[a].end > r.start
    && placed[b].start < r.end && placed[b].end > r.start
    && (forall j | 0 <= j < a :: placed[j].end <= r.start)
    && (forall j | b < j < |placed| :: r.end <= placed[j].start)
  }

  predicate InOrder(placed: seq<PlacedBlock>) {
    && (forall j | 0 <= j < |placed| :: placed[j].start <= placed[j].end)
    && (forall i, j | 0 <= i < j < |placed| :: placed[i].end <= placed[j].start)
  }

  lemma {:induction false} PlacedInOrder(blocks: seq<SectionBlock>)
    ensures InOrder(PlacedOf(blocks))
  {
    hide PlacedOf, TextOf;
    var placed := PlacedOf(blocks);
    forall j | 0 <= j < |placed|
      ensures placed[j].start <= placed[j].end
    {
      BlockIsThere(blocks, j);
    }
    forall i, j | 0 <= i < j < |placed|
      ensures placed[i].end <= placed[j].start
    {
      BlocksAreInOrder(blocks, i, j);
    }
  }

  lemma {:induction false} FirstTouched(placed: seq<PlacedBlock>, r: Range, j: nat) returns (a: nat)
    requires InOrder(placed) && j < |placed| && Touches(placed[j], r.start, r.end)
    ensures a <= j && Touches(placed[a], r.start, r.end)
    ensures forall i | 0 <= i < a :: placed[i].end <= r.start
    decreases j
  {
    if j > 0 && placed[j - 1].end > r.start {
      a := FirstTouched(placed, r, j - 1);
    } else {
      a := j;
    }
  }

  lemma {:induction false} LastTouched(placed: seq<PlacedBlock>, r: Range, j: nat) returns (b: nat)
    requires InOrder(placed) && j < |placed| && Touches(placed[j], r.start, r.end)
    ensures j <= b < |placed| && Touches(placed[b], r.start, r.end)
    ensures forall i | b < i < |placed| :: r.end <= placed[i].start
    decreases |placed| - j
  {
    if j + 1 < |placed| && placed[j + 1].start < r.end {
      NextTouched(placed, r, j);
      b := LastTouched(placed, r, j + 1);
    } else {
      b := j;
    }
  }

  lemma NextTouched(placed: seq<PlacedBlock>, r: Range, j: nat)
    requires InOrder(placed) && j + 1 < |placed| && Touches(placed[j], r.start, r.end)
    requires placed[j + 1].start < r.end
    ensures Touches(placed[j + 1], r.start, r.end)
  {
  }

  lemma {:induction false} FlatAscends(rules: Rules, bodySize: real, pages: seq<Page>, i: nat, j: nat)
    requires PagesAscend(pages) && i < j < |Flat(rules, bodySize, pages)|
    ensures var flat := Flat(rules, bodySize, pages);
            flat[i].block.pageNumber <= flat[j].block.pageNumber
  {
    var front, last := pages[..|pages| - 1], pages[|pages| - 1];
    var before := Flat(rules, bodySize, front);
    if j < |before| {
      FlatAscends(rules, bodySize, front, i, j);
    } else if i < |before| {
      var q := FlatIsOnPage(rules, bodySize, front, i);
    }
  }

  lemma {:induction false} FlatIsOnPage(rules: Rules, bodySize: real, pages: seq<Page>, i: nat) returns (q: nat)
    requires i < |Flat(rules, bodySize, pages)|
    ensures q < |pages| && Flat(rules, bodySize, pages)[i].block.pageNumber == pages[q].number
  {
    var front := pages[..|pages| - 1];
    if i < |Flat(rules, bodySize, front)| {
      q := FlatIsOnPage(rules, bodySize, front, i);
    } else {
      q := |pages| - 1;
    }
  }

  lemma {:induction false} OffsetsGrow(s: seq<Section>, i: nat, j: nat)
    requires i <= j <= |s|
    ensures Offset(s, i) <= Offset(s, j)
  {
    if i < j {
      OffsetsGrow(s, i, j - 1);
    }
  }

  /** Pages do not go back from one block of the sections to a later one. */
  lemma SectionBlocksAscend(setup: Setup, pages: seq<Page>, m: nat, i: nat, n: nat, j: nat)
    requires PagesAscend(pages) && m <= n < |SectionsIn(setup, pages)|
    requires i < |SectionsIn(setup, pages)[m].blocks| && j < |SectionsIn(setup, pages)[n].blocks|
    requires m < n || i < j
    ensures SectionsIn(setup, pages)[m].blocks[i].pageNumber <= SectionsIn(setup, pages)[n].blocks[j].pageNumber
  {
    hide SectionsOf, BodySizeOf, Flat, Placed;
    var bodySize := BodySizeOf(pages);
    var flat, sections := Flat(setup.rules, bodySize, pages), SectionsIn(setup, pages);
    SectionsDivide(setup.rules, flat);
    BlockIsAt(setup.rules, flat, sections, m, i);
    BlockIsAt(setup.rules, flat, sections, n, j);
    if m < n {
      OffsetsGrow(sections, m + 1, n);
    }
    FlatAscends(setup.rules, bodySize, pages, Offset(sections, m) + i, Offset(sections, n) + j);
  }

  lemma BlockIsAt(rules: Rules, flat: seq<FlatBlock>, sections: seq<Section>, m: nat, i: nat)
    requires m < |sections| && i < |sections[m].blocks| && Placed(rules, flat, sections, m)
    ensures Offset(sections, m) + i < |flat| && flat[Offset(sections, m) + i].block == sections[m].blocks[i]
  {
    hide Offset;
  }

  lemma SectionAscends(setup: Setup, pages: seq<Page>, m: nat)
    requires PagesAscend(pages) && m < |SectionsIn(setup, pages)|
    ensures BlocksAscend(SectionsIn(setup, pages)[m].blocks)
  {
    hide SectionsIn;
    var blocks := SectionsIn(setup, pages)[m].blocks;
    forall i, j | 0 <= i < j < |blocks|
      ensures blocks[i].pageNumber <= blocks[j].pageNumber
    {
      SectionBlocksAscend(setup, pages, m, i, m, j);
    }
  }

  /** Some block of the section is drawn from. */
  lemma RangeTouches(setup: Setup, section: Section, i: nat) returns (j: nat)
    requires setup.Valid() && i < |RangesIn(setup, section)|
    ensures j < |section.blocks|
    ensures Touches(PlacedOf(section.blocks)[j], RangesIn(setup, section)[i].start, RangesIn(setup, section)[i].end)
  {
    hide RangesIn, TextOf, PlacedOf;
    RangesInAreGood(setup, section);
    var r, text := RangesIn(setup, section)[i], TextOf(section.blocks);
    var p :| 0 <= p < |text[r.start..r.end]| && !IsSpace(text[r.start..r.end][p]);
    assert text[r.start..r.end][p] == text[r.start + p];
    j := CharacterIsInBlock(section.blocks, r.start + p);
  }

  lemma {:induction false} PagesOfEnds(blocks: seq<SectionBlock>, r: Range, a: nat, b: nat)
    requires BlocksAscend(blocks) && DrawsFrom(PlacedOf(blocks), r, a, b)
    ensures PagesCovering(PlacedOf(blocks), r.start, r.end) == (blocks[a].pageNumber, blocks[b].pageNumber)
  {
    hide PlacedOf, PagesCovering, TextOf;
    var placed := PlacedOf(blocks);
    forall j | 0 <= j < |blocks|
      ensures placed[j].pageNumber == blocks[j].pageNumber
    {
      BlockIsThere(blocks, j);
    }
    PagesAre(placed, r.start, r.end, a);
    PagesAre(placed, r.start, r.end, b);
    var (first, last) := PagesCovering(placed, r.start, r.end);
    var i :| 0 <= i < |placed| && placed[i].start < r.end && placed[i].end > r.start && placed[i].pageNumber == first;
    var k :| 0 <= k < |placed| && placed[k].start < r.end && placed[k].end > r.start && placed[k].pageNumber == last;
    assert a <= i <= b && a <= k <= b;
  }

  /**
   With pages in ascending order, a chunk's first and last page are those of the first and the last
   block it draws characters from.
   */
  lemma PagesAreTight(setup: Setup, pages: seq<Page>, k: nat) returns (m: nat, i: nat, a: nat, b: nat)
    requires setup.Valid() && PagesAscend(pages) && k < |Chunks(setup, pages)|
    ensures ComesFrom(setup, SectionsIn(setup, pages), k, m, i)
    ensures var section, chunk := SectionsIn(setup, pages)[m], Chunks(setup, pages)[k];
            && DrawsFrom(PlacedOf(section.blocks), RangesIn(setup, section)[i], a, b)
            && chunk.pageStart == section.blocks[a].pageNumber
            && chunk.pageEnd == section.blocks[b].pageNumber
  {
    hide SectionsIn, ChunksOf, RangesIn, TextOf, PlacedOf, InOrder, PagesCovering, Touches, BlocksAscend;
    var sections := SectionsIn(setup, pages);
    m, i := ChunkComesFrom(setup, sections, k);
    var blocks, r := sections[m].blocks, RangesIn(setup, sections[m])[i];
    var j := RangeTouches(setup, sections[m], i);
    PlacedInOrder(blocks);
    a := FirstTouched(PlacedOf(blocks), r, j);
    b := LastTouched(PlacedOf(blocks), r, j);
    SectionAscends(setup, pages, m);
    PagesOfEnds(blocks, r, a, b);
  }

  /** A range that starts and ends later draws from later blocks. */
  lemma {:induction false} LaterRangeDrawsLater(placed: seq<PlacedBlock>, r: Range, a: nat, b: nat, s: Range, c: nat, d: nat)
    requires DrawsFrom(placed, r, a, b) && DrawsFrom(placed, s, c, d)
    requires r.start < s.start && r.end < s.end
    ensures a <= c && b <= d
  {
  }

  lemma {:induction false} EarlierChunksEnd(setup: Setup, sections: seq<Section>, m: nat, n: nat)
    requires setup.Valid() && m < n <= |sections|
    ensures |ChunksOf(setup, sections[..m])| + |RangesIn(setup, sections[m])| <= |ChunksOf(setup, sections[..n])|
    decreases n
  {
    hide RangesIn, ChunksIn;
    assert sections[..n][..n - 1] == sections[..n - 1];
    ChunksInAre(setup, sections[n - 1], |ChunksOf(setup, sections[..n - 1])|);
    if m < n - 1 {
      EarlierChunksEnd(setup, sections, m, n - 1);
    }
  }

  lemma ChunksFollowSections(setup: Setup, sections: seq<Section>, k: nat, m: nat, i: nat, l: nat, n: nat, j: nat)
    requires setup.Valid() && k < l
    requires ComesFrom(setup, sections, k, m, i) && ComesFrom(setup, sections, l, n, j)
    ensures m < n || (m == n && i < j)
  {
    hide RangesIn, ChunksOf, TextOf;
    if n < m {
      EarlierChunksEnd(setup, sections, n, m);
    }
  }

  lemma RangesInAdvance(setup: Setup, section: Section, i: nat, j: nat)
    requires setup.Valid() && i < j < |RangesIn(setup, section)|
    ensures RangesIn(setup, section)[i].start < RangesIn(setup, section)[j].start
    ensures RangesIn(setup, section)[i].end < RangesIn(setup, section)[j].end
  {
    hide RangesIn, TextOf, RangeOk, Covered;
    RangesInAreGood(setup, section);
  }

  /** And they do not go back from one chunk to a later one, of the same section or another. */
  lemma PagesDoNotGoBack(setup: Setup, pages: seq<Page>, k: nat, l: nat)
    requires setup.Valid() && PagesAscend(pages) && k < l < |Chunks(setup, pages)|
    ensures Chunks(setup, pages)[k].pageStart <= Chunks(setup, pages)[l].pageStart
    ensures Chunks(setup, pages)[k].pageEnd <= Chunks(setup, pages)[l].pageEnd
  {
    hide SectionsIn, Chunks, RangesIn, PlacedOf, ComesFrom, DrawsFrom, TextOf, PagesAscend, ChunksOf;
    ChunksAre(setup, pages);
    var sections := SectionsIn(setup, pages);
    var m, i, a, b := PagesAreTight(setup, pages, k);
    var n, j, c, d := PagesAreTight(setup, pages, l);
    ChunksFollowSections(setup, sections, k, m, i, l, n, j);
    Drawn(setup, sections, k, m, i, a, b);
    Drawn(setup, sections, l, n, j, c, d);
    if m == n {
      RangesInAdvance(setup, sections[m], i, j);
      LaterRangeDrawsLater(PlacedOf(sections[m].blocks), RangesIn(setup, sections[m])[i], a, b,
                           RangesIn(setup, sections[m])[j], c, d);
    }
    LaterBlockLaterPage(setup, pages, m, a, n, c);
    LaterBlockLaterPage(setup, pages, m, b, n, d);
  }

  lemma LaterBlockLaterPage(setup: Setup, pages: seq<Page>, m: nat, i: nat, n: nat, j: nat)
    requires PagesAscend(pages) && m < |SectionsIn(setup, pages)| && n < |SectionsIn(setup, pages)|
    requires i < |SectionsIn(setup, pages)[m].blocks| && j < |SectionsIn(setup, pages)[n].blocks|
    requires m < n || (m == n && i <= j)
    ensures SectionsIn(setup, pages)[m].blocks[i].pageNumber <= SectionsIn(setup, pages)[n].blocks[j].pageNumber
  {
    hide SectionsIn, PagesAscend;
    if m < n || i < j {
      SectionBlocksAscend(setup, pages, m, i, n, j);
    }
  }

  lemma {:induction false} ChunksAre(setup: Setup, pages: seq<Page>)
    requires setup.Valid()
    ensures Chunks(setup, pages) == ChunksOf(setup, SectionsIn(setup, pages))
  {
    hide ChunksOf, SectionsIn;
  }

  lemma Drawn(setup: Setup, sections: seq<Section>, k: nat, m: nat, i: nat, a: nat, b: nat)
    requires setup.Valid() && ComesFrom(setup, sections, k, m, i)
    requires DrawsFrom(PlacedOf(sections[m].blocks), RangesIn(setup, sections[m])[i], a, b)
    ensures m < |sections| && i < |RangesIn(setup, sections[m])|
    ensures a <= b < |sections[m].blocks|
  {
  }

  // --- the pipeline's assumption ------------------------------------------------------------------

  /** A pipeline whose chunkers are these chunkers is one the pipeline's theorems hold of. */
  lemma ChunkersAreGood(env: Pipeline.Env, setups: Version -> Setup)
    requires forall v :: setups(v).Valid()
    requires forall v, pages :: env.chunk(v, pages) == Chunks(setups(v), pages)
    ensures PipelineInvariant.GoodEnv(env)
  {
    hide Chunks;
    forall v, pages, i | 0 <= i < |env.chunk(v, pages)|
      ensures env.chunk(v, pages)[i].index == i
    {
      var m, start := EveryChunk(setups(v), pages, i);
    }
  }
}
