/** Section-aware chunking: pages in, chunks out. */
module Chunker {
  import opened Text
  import opened Windows
  import opened Sections
  import References

  const BLOCK_SEPARATOR := "\n\n"

  /** What a chunker is built from. Its constructor refuses an overlap that is not below the size. */
  datatype Setup = Setup(rules: Rules, tokenize: Tokenizer, find: References.EntryFinder, size: nat, overlap: nat) {
    ghost predicate Valid() {
      GoodTokenizer(tokenize) && References.GoodFinder(find) && overlap < size
    }
  }

  /** Where one block stands in its section's text, and the block's page. */
  datatype PlacedBlock = PlacedBlock(start: nat, end: nat, pageNumber: nat)

  // --- a section's text ----------------------------------------------------------------

  function TextOf(blocks: seq<SectionBlock>): string
    decreases |blocks|, 0
  {
    if blocks == [] then ""
    else Preceding(blocks[..|blocks| - 1]) + blocks[|blocks| - 1].text
  }

  /** The text of `blocks`, and a separator if there is any. */
  function Preceding(blocks: seq<SectionBlock>): string
    decreases |blocks|, 1
  {
    if blocks == [] then "" else TextOf(blocks) + BLOCK_SEPARATOR
  }

  function PlacedOf(blocks: seq<SectionBlock>): (placed: seq<PlacedBlock>)
    ensures |placed| == |blocks|
  {
    if blocks == [] then []
    else
      var front, last := blocks[..|blocks| - 1], blocks[|blocks| - 1];
      var start := |Preceding(front)|;
      PlacedOf(front) + [PlacedBlock(start, start + |last.text|, last.pageNumber)]
  }

  /** The parts one after another. */
  function Joined(parts: seq<string>): string {
    if parts == [] then "" else Joined(parts[..|parts| - 1]) + parts[|parts| - 1]
  }

  lemma {:induction false} JoinedWith(parts: seq<string>, part: string)
    ensures Joined(parts + [part]) == Joined(parts) + part
  {
    assert (parts + [part])[..|parts|] == parts;
  }

  lemma NothingJoined()
    ensures Joined([]) == ""
  {
  }

  /** `_section_text` */
  method SectionText(section: Section) returns (text: string, placed: seq<PlacedBlock>)
    ensures text == TextOf(section.blocks) && placed == PlacedOf(section.blocks)
  {
    hide Joined;
    NothingJoined();
    var parts: seq<string> := [];
    placed := [];
    var cursor := 0;
    for i := 0 to |section.blocks|
      invariant Joined(parts) == TextOf(section.blocks[..i])
      invariant cursor == |Joined(parts)|
      invariant placed == PlacedOf(section.blocks[..i])
      invariant parts == [] <==> i == 0
    {
      var block := section.blocks[i];
      assert section.blocks[..i + 1][..i] == section.blocks[..i];
      if parts != [] {
        cursor := cursor + |BLOCK_SEPARATOR|;
        JoinedWith(parts, BLOCK_SEPARATOR);
        parts := parts + [BLOCK_SEPARATOR];
      }
      JoinedWith(parts, block.text);
      parts := parts + [block.text];
      placed := placed + [PlacedBlock(cursor, cursor + |block.text|, block.pageNumber)];
      cursor := cursor + |block.text|;
    }
    assert section.blocks[..|section.blocks|] == section.blocks;
    text := Joined(parts);
  }

  /** The text starts with the text of any number of its first blocks. */
  lemma {:induction false} TextStarts(blocks: seq<SectionBlock>, n: nat)
    requires 0 < n <= |blocks|
    ensures TextOf(blocks[..n]) <= TextOf(blocks)
    ensures PlacedOf(blocks)[..n] == PlacedOf(blocks[..n])
  {
    if n == |blocks| {
      assert blocks[..n] == blocks;
    } else {
      var front := blocks[..|blocks| - 1];
      TextStarts(front, n);
      assert front[..n] == blocks[..n];
    }
  }

  /** Block `j` stands in the text verbatim, where it was placed. */
  lemma {:induction false} BlockIsThere(blocks: seq<SectionBlock>, j: nat)
    requires j < |blocks|
    ensures var b := PlacedOf(blocks)[j];
            && b.pageNumber == blocks[j].pageNumber
            && b.start <= b.end <= |TextOf(blocks)|
            && TextOf(blocks)[b.start..b.end] == blocks[j].text
  {
    TextStarts(blocks, j + 1);
    var front := blocks[..j + 1];
    assert front[..j] == blocks[..j] && front[j] == blocks[j];
    assert PlacedOf(blocks)[j] == PlacedOf(front)[j];
    var b := PlacedOf(front)[j];
    assert TextOf(front)[b.start..b.end] == blocks[j].text;
    assert TextOf(blocks)[..|TextOf(front)|] == TextOf(front);
    assert TextOf(blocks)[b.start..b.end] == TextOf(front)[b.start..b.end];
  }

  /** Blocks are placed in their order. */
  lemma {:induction false} BlocksAreInOrder(blocks: seq<SectionBlock>, i: nat, j: nat)
    requires i < j < |blocks|
    ensures PlacedOf(blocks)[i].end <= PlacedOf(blocks)[j].start
  {
    hide PlacedOf, TextOf;
    var front := blocks[..j + 1];
    TextStarts(blocks, j + 1);
    assert PlacedOf(blocks)[i] == PlacedOf(front)[i] && PlacedOf(blocks)[j] == PlacedOf(front)[j];
    assert front[..j] == blocks[..j];
    LastIsPlaced(front, i);
    BlockIsThere(front[..j], i);
  }

  lemma LastIsPlaced(blocks: seq<SectionBlock>, i: nat)
    requires i < |blocks| - 1
    ensures var front := blocks[..|blocks| - 1];
            && PlacedOf(blocks)[|blocks| - 1].start >= |TextOf(front)|
            && PlacedOf(blocks)[i] == PlacedOf(front)[i]
  {
    hide TextOf;
  }

  lemma LastIsSeparated(blocks: seq<SectionBlock>)
    requires |blocks| > 1
    ensures var placed, text, n := PlacedOf(blocks), TextOf(blocks), |blocks|;
            && placed[n - 1].start == |TextOf(blocks[..n - 1])| + 2 && placed[n - 1].end == |text|
            && placed[n - 1].start <= |text| && text[|TextOf(blocks[..n - 1])|..placed[n - 1].start] == "\n\n"
  {
    hide PlacedOf;
    LastEnds(blocks);
    assert TextOf(blocks) == TextOf(blocks[..|blocks| - 1]) + "\n\n" + blocks[|blocks| - 1].text;
  }

  lemma LastEnds(blocks: seq<SectionBlock>)
    requires blocks != []
    ensures var b := PlacedOf(blocks)[|blocks| - 1];
            b.start == |Preceding(blocks[..|blocks| - 1])| && b.end == |TextOf(blocks)|
  {
  }

  /** The first block starts the text, the last ends it, and a blank line stands between any two. */
  lemma {:induction false} BlocksAreSeparated(blocks: seq<SectionBlock>, j: nat)
    requires j < |blocks|
    ensures var placed, text := PlacedOf(blocks), TextOf(blocks);
            && placed[j].start <= placed[j].end <= |text|
            && (j == 0 ==> placed[j].start == 0)
            && (j == |blocks| - 1 ==> placed[j].end == |text|)
            && (j + 1 < |blocks| ==>
                  && placed[j + 1].start == placed[j].end + 2 <= |text|
                  && text[placed[j].end..placed[j + 1].start] == "\n\n")
  {
    hide PlacedOf, TextOf;
    BlockIsThere(blocks, j);
    var front := blocks[..j + 1];
    TextStarts(blocks, j + 1);
    LastEnds(front);
    assert PlacedOf(blocks)[j] == PlacedOf(blocks)[..j + 1][j];
    assert j == 0 ==> front[..0] == [];
    if j + 1 < |blocks| {
      var more := blocks[..j + 2];
      TextStarts(blocks, j + 2);
      assert more[..j + 1] == front;
      LastIsSeparated(more);
      assert PlacedOf(blocks)[j + 1] == PlacedOf(blocks)[..j + 2][j + 1];
      Starts(TextOf(more), TextOf(blocks), PlacedOf(blocks)[j].end, PlacedOf(blocks)[j + 1].start);
    } else {
      assert front == blocks;
    }
  }

  lemma Starts(s: string, t: string, from: nat, to: nat)
    requires s <= t && from <= to <= |s|
    ensures s[from..to] == t[from..to]
  {
  }

  /** Between the blocks there is only the separator. */
  lemma {:induction false} CharacterIsInBlock(blocks: seq<SectionBlock>, p: nat) returns (j: nat)
    requires p < |TextOf(blocks)| && !IsSpace(TextOf(blocks)[p])
    ensures j < |blocks| && PlacedOf(blocks)[j].start <= p < PlacedOf(blocks)[j].end
  {
    var front := blocks[..|blocks| - 1];
    if |Preceding(front)| <= p {
      j := |blocks| - 1;
    } else if p < |TextOf(front)| {
      assert TextOf(blocks)[p] == TextOf(front)[p];
      j := CharacterIsInBlock(front, p);
    } else {
      assert false;
    }
  }

  // --- pages ----------------------------------------------------------------------------------

  predicate Touches(b: PlacedBlock, start: nat, end: nat) {
    b.start < end && b.end > start
  }

  function PagesTouched(placed: seq<PlacedBlock>, start: nat, end: nat): seq<nat> {
    if placed == [] then []
    else
      var last := placed[|placed| - 1];
      PagesTouched(placed[..|placed| - 1], start, end) + if Touches(last, start, end) then [last.pageNumber] else []
  }

  function Least(s: seq<nat>): nat
    requires s != []
  {
    if |s| == 1 then s[0]
    else
      var least := Least(s[..|s| - 1]);
      if s[|s| - 1] < least then s[|s| - 1] else least
  }

  function Greatest(s: seq<nat>): nat
    requires s != []
  {
    if |s| == 1 then s[0]
    else
      var greatest := Greatest(s[..|s| - 1]);
      if s[|s| - 1] > greatest then s[|s| - 1] else greatest
  }

  /** `_pages_covering` */
  function PagesCovering(placed: seq<PlacedBlock>, start: nat, end: nat): (nat, nat) {
    var touched := PagesTouched(placed, start, end);
    var pages := if touched != [] then touched else if placed != [] then [placed[0].pageNumber] else [1];
    (Least(pages), Greatest(pages))
  }

  lemma {:induction false} LeastIs(s: seq<nat>, n: nat)
    requires s != [] && n in s
    ensures Least(s) <= n <= Greatest(s)
  {
    if |s| > 1 && n != s[|s| - 1] {
      LeastIs(s[..|s| - 1], n);
    } else if |s| > 1 {
      LeastIs(s[..|s| - 1], s[0]);
    }
  }

  lemma {:induction false} LeastIsOne(s: seq<nat>)
    requires s != []
    ensures Least(s) in s && Greatest(s) in s
  {
    if |s| > 1 {
      LeastIsOne(s[..|s| - 1]);
    }
  }

  lemma {:induction false} TouchedBy(placed: seq<PlacedBlock>, start: nat, end: nat, n: nat) returns (j: nat)
    requires n in PagesTouched(placed, start, end)
    ensures j < |placed| && Touches(placed[j], start, end) && placed[j].pageNumber == n
  {
    var last := placed[|placed| - 1];
    if Touches(last, start, end) && last.pageNumber == n {
      j := |placed| - 1;
    } else {
      j := TouchedBy(placed[..|placed| - 1], start, end, n);
    }
  }

  lemma {:induction false} TouchesPage(placed: seq<PlacedBlock>, start: nat, end: nat, j: nat)
    requires j < |placed| && Touches(placed[j], start, end)
    ensures placed[j].pageNumber in PagesTouched(placed, start, end)
  {
    if j < |placed| - 1 {
      TouchesPage(placed[..|placed| - 1], start, end, j);
    }
  }

  /** The pages run from the lowest to the highest page of the blocks the range touches. */
  lemma PagesAre(placed: seq<PlacedBlock>, start: nat, end: nat, j: nat)
    requires j < |placed| && placed[j].start < end && placed[j].end > start
    ensures var (first, last) := PagesCovering(placed, start, end);
            && first <= placed[j].pageNumber <= last
            && (exists i | 0 <= i < |placed| ::
                  placed[i].start < end && placed[i].end > start && placed[i].pageNumber == first)
            && (exists i | 0 <= i < |placed| ::
                  placed[i].start < end && placed[i].end > start && placed[i].pageNumber == last)
  {
    hide PagesTouched, Least, Greatest;
    TouchesPage(placed, start, end, j);
    var pages := PagesTouched(placed, start, end);
    LeastIs(pages, placed[j].pageNumber);
    LeastIsOne(pages);
    var i := TouchedBy(placed, start, end, Least(pages));
    var k := TouchedBy(placed, start, end, Greatest(pages));
  }

  /** A range that touches no block has the page of the first one, or page one where there is none. */
  lemma NoPagesTouched(placed: seq<PlacedBlock>, start: nat, end: nat)
    requires forall j | 0 <= j < |placed| :: end <= placed[j].start || placed[j].end <= start
    ensures PagesCovering(placed, start, end)
            == if placed == [] then (1, 1) else (placed[0].pageNumber, placed[0].pageNumber)
  {
    if PagesTouched(placed, start, end) != [] {
      var j := TouchedBy(placed, start, end, PagesTouched(placed, start, end)[0]);
      assert false;
    }
  }

  // --- chunks -----------------------------------------------------------------------------------

  /** The ranges a section's chunks are made of. */
  function RangesIn(setup: Setup, section: Section): seq<Range>
    requires setup.Valid()
  {
    var text := TextOf(section.blocks);
    if Blank(text) then []
    else
      RangesFitText(setup, section);
      References.Kept(text, RawRanges(setup, section))
  }

  function RawRanges(setup: Setup, section: Section): seq<Range>
    requires setup.Valid()
  {
    var text := TextOf(section.blocks);
    if IsReferences(setup.rules, section)
    then References.ReferencesOf(setup.tokenize, setup.find, text, setup.size, setup.overlap)
    else WindowsOf(setup.tokenize(text), setup.size, setup.overlap)
  }

  lemma RawRangesAreGood(setup: Setup, section: Section)
    requires setup.Valid()
    ensures GoodRanges(TextOf(section.blocks), RawRanges(setup, section), setup.size)
  {
    hide GoodTokenizer, References.GoodFinder, References.ReferencesOf, WindowsOf, GoodRanges, TextOf;
    var text := TextOf(section.blocks);
    References.ReferencesAreGood(setup.tokenize, setup.find, text, setup.size, setup.overlap);
    References.WholeTextIsGood(setup.tokenize, text, setup.size, setup.overlap);
  }

  lemma RangesFitText(setup: Setup, section: Section)
    requires setup.Valid()
    ensures References.RangesFit(TextOf(section.blocks), RawRanges(setup, section))
  {
    hide RawRanges, TextOf, GoodRanges, References.RangesFit;
    RawRangesAreGood(setup, section);
    References.GoodFits(TextOf(section.blocks), RawRanges(setup, section), setup.size);
  }

  /** A section's ranges are within budget, advance, lose only whitespace, and none is blank. */
  lemma RangesInAreGood(setup: Setup, section: Section)
    requires setup.Valid()
    ensures var text, ranges := TextOf(section.blocks), RangesIn(setup, section);
            && GoodRanges(text, ranges, setup.size)
            && forall i | 0 <= i < |ranges| :: RangeOk(text, ranges[i], setup.size)
                                               && !Blank(text[ranges[i].start..ranges[i].end])
  {
    hide RawRanges, TextOf, RangeOk, Covered;
    RawRangesAreGood(setup, section);
    References.KeptIsGood(TextOf(section.blocks), RawRanges(setup, section), setup.size);
  }

  function ChunkOf(section: Section, r: Range, index: nat): Text.Chunk
    requires r.start <= r.end <= |TextOf(section.blocks)|
  {
    var (first, last) := PagesCovering(PlacedOf(section.blocks), r.start, r.end);
    Text.Chunk(index, TextOf(section.blocks)[r.start..r.end], section.title, first, last, r.tokenCount)
  }

  /** The chunks of the ranges that are not blank, numbered from `first`. */
  function ChunksOver(section: Section, ranges: seq<Range>, first: nat): seq<Text.Chunk>
    requires References.RangesFit(TextOf(section.blocks), ranges)
  {
    if ranges == [] then []
    else
      var before, r := ChunksOver(section, ranges[..|ranges| - 1], first), ranges[|ranges| - 1];
      if Blank(TextOf(section.blocks)[r.start..r.end]) then before
      else before + [ChunkOf(section, r, first + |before|)]
  }

  function ChunksIn(setup: Setup, section: Section, first: nat): seq<Text.Chunk>
    requires setup.Valid()
  {
    if Blank(TextOf(section.blocks)) then []
    else
      RangesFitText(setup, section);
      ChunksOver(section, RawRanges(setup, section), first)
  }

  function ChunksOf(setup: Setup, sections: seq<Section>): seq<Text.Chunk>
    requires setup.Valid()
  {
    if sections == [] then []
    else
      var before := ChunksOf(setup, sections[..|sections| - 1]);
      before + ChunksIn(setup, sections[|sections| - 1], |before|)
  }

  ghost function SectionsIn(setup: Setup, pages: seq<Page>): seq<Section> {
    SectionsOf(setup.rules, Flat(setup.rules, BodySizeOf(pages), pages))
  }

  /** Every chunk of a document. */
  ghost function Chunks(setup: Setup, pages: seq<Page>): seq<Text.Chunk>
    requires setup.Valid()
  {
    ChunksOf(setup, SectionsIn(setup, pages))
  }

  /** `chunk` */
  method ChunkDocument(setup: Setup, pages: seq<Page>) returns (chunks: seq<Text.Chunk>)
    requires setup.Valid()
    ensures chunks == Chunks(setup, pages)
  {
    hide SectionsOf, BodySizeOf, ChunksIn, ChunksOver, GoodTokenizer, References.GoodFinder,
      References.ReferencesOf, WindowsOf, TextOf, PlacedOf, Blank, PagesCovering, References.RangesFit, RawRanges;
    var sections := DetectSections(setup.rules, pages);
    chunks := [];
    for i := 0 to |sections|
      invariant chunks == ChunksOf(setup, sections[..i])
    {
      var section := sections[i];
      assert sections[..i + 1][..i] == sections[..i];
      var text, placed := SectionText(section);
      if Blank(text) {
        BlankSection(setup, section, |chunks|);
        continue;
      }
      RangesFitText(setup, section);
      RawRangesIs(setup, section);
      var ranges;
      if IsReferences(setup.rules, section) {
        ranges := References.ReferenceRanges(setup.tokenize, setup.find, text, setup.size, setup.overlap);
      } else {
        ranges := WindowRanges(setup.tokenize, text, setup.size, setup.overlap);
      }
      ghost var before := chunks;
      NoChunks(section, |before|);
      for j := 0 to |ranges|
        invariant References.RangesFit(text, ranges[..j])
        invariant chunks == before + ChunksOver(section, ranges[..j], |before|)
      {
        var r := ranges[j];
        NextChunk(section, ranges, j, |before|);
        var content := text[r.start..r.end];
        if Blank(content) {
          continue;
        }
        var (first, last) := PagesCovering(placed, r.start, r.end);
        chunks := chunks + [Text.Chunk(|chunks|, content, section.title, first, last, r.tokenCount)];
      }
      assert ranges[..|ranges|] == ranges;
      WholeSection(setup, section, |before|);
    }
    assert sections[..|sections|] == sections;
  }

  lemma BlankSection(setup: Setup, section: Section, first: nat)
    requires setup.Valid() && Blank(TextOf(section.blocks))
    ensures ChunksIn(setup, section, first) == []
  {
  }

  lemma RawRangesIs(setup: Setup, section: Section)
    requires setup.Valid()
    ensures RawRanges(setup, section)
            == if IsReferences(setup.rules, section)
               then References.ReferencesOf(setup.tokenize, setup.find, TextOf(section.blocks), setup.size, setup.overlap)
               else WindowsOf(setup.tokenize(TextOf(section.blocks)), setup.size, setup.overlap)
  {
    hide References.ReferencesOf, WindowsOf;
  }

  lemma {:induction false} NoChunks(section: Section, first: nat)
    ensures References.RangesFit(TextOf(section.blocks), []) && ChunksOver(section, [], first) == []
  {
  }

  lemma {:induction false} NextChunk(section: Section, ranges: seq<Range>, j: nat, first: nat)
    requires References.RangesFit(TextOf(section.blocks), ranges) && j < |ranges|
    ensures var r := ranges[j];
            && References.RangesFit(TextOf(section.blocks), ranges[..j])
            && References.RangesFit(TextOf(section.blocks), ranges[..j + 1])
            && r.start <= r.end <= |TextOf(section.blocks)|
            && ChunksOver(section, ranges[..j + 1], first)
               == ChunksOver(section, ranges[..j], first)
                  + if Blank(TextOf(section.blocks)[r.start..r.end]) then []
                    else [ChunkOf(section, r, first + |ChunksOver(section, ranges[..j], first)|)]
  {
    hide ChunkOf, Blank, TextOf;
    assert ranges[..j + 1][..j] == ranges[..j];
  }

  lemma {:induction false} WholeSection(setup: Setup, section: Section, first: nat)
    requires setup.Valid() && !Blank(TextOf(section.blocks))
    ensures References.RangesFit(TextOf(section.blocks), RawRanges(setup, section))
    ensures ChunksIn(setup, section, first) == ChunksOver(section, RawRanges(setup, section), first)
  {
    RangesFitText(setup, section);
  }
}
