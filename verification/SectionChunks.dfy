/** Which chunks each kind of section gives: whole reference entries, or sliding windows. */
module SectionChunks {
  import opened Text
  import opened Windows
  import opened Sections
  import opened References
  import opened Chunker
  import opened ChunkerTheorems

  /** `r` is window `w` of the tokens of a text that begins at `from`. */
  predicate IsWindow(tokens: seq<Span>, size: nat, overlap: nat, w: nat, from: nat, r: Range)
    requires overlap < size
  {
    && w < WindowCount(|tokens|, size, overlap)
    && var start, end := WindowStart(size, overlap, w), WindowEnd(|tokens|, size, overlap, w);
    && start < end <= |tokens|
    && r == Range(from + tokens[start].start, from + tokens[end - 1].end, end - start)
  }

  /** `entries` are the parts from one start to the next, the last to the end of the text, and the preamble. */
  predicate AreEntries(tokenize: Tokenizer, starts: seq<nat>, text: string, entries: seq<Entry>)
    requires GoodStarts(text, starts) && starts != []
  {
    var preamble := if starts[0] > 0 then 1 else 0;
    && |entries| == |starts| + preamble
    && (starts[0] > 0 ==> entries[0] == Range(0, starts[0], |tokenize(text[0..starts[0]])|))
    && (forall i | 0 <= i < |starts| ::
          var end := if i + 1 < |starts| then starts[i + 1] else |text|;
          entries[preamble + i] == Range(starts[i], end, |tokenize(text[starts[i]..end])|))
  }

  // --- windows ------------------------------------------------------------------------------

  lemma WindowIsThis(tokens: seq<Span>, size: nat, overlap: nat, w: nat)
    requires overlap < size && w < WindowCount(|tokens|, size, overlap)
    ensures IsWindow(tokens, size, overlap, w, 0, WindowsOf(tokens, size, overlap)[w])
  {
    hide WindowCount, WindowStart, WindowEnd, WindowsOf;
    WindowIs(tokens, size, overlap, w);
    WindowsTile(|tokens|, size, overlap, w);
  }

  lemma ThisIsWindow(tokens: seq<Span>, size: nat, overlap: nat, w: nat, r: Range)
    requires overlap < size && IsWindow(tokens, size, overlap, w, 0, r)
    ensures r in WindowsOf(tokens, size, overlap)
  {
    hide WindowCount, WindowStart, WindowEnd, WindowsOf;
    WindowIs(tokens, size, overlap, w);
    assert WindowsOf(tokens, size, overlap)[w] == r;
  }

  // --- entries --------------------------------------------------------------------------------

  lemma EntriesAreThese(tokenize: Tokenizer, find: EntryFinder, text: string, entries: seq<Entry>)
    requires GoodStarts(text, find(text)) && find(text) != []
    requires AreEntries(tokenize, find(text), text, entries)
    ensures entries == EntriesIn(tokenize, find, text)
  {
    var starts := find(text);
    BoundsAre(text, starts);
    var bounds, listed := Bounds(starts), EntriesIn(tokenize, find, text);
    assert |listed| == |entries|;
    forall i | 0 <= i < |entries|
      ensures entries[i] == listed[i]
    {
      var preamble := if starts[0] > 0 then 1 else 0;
      if i >= preamble {
        assert bounds[i] == starts[i - preamble];
        assert entries[preamble + (i - preamble)] == entries[i];
      }
    }
  }

  lemma {:induction false} EntriesFollow(text: string, entries: seq<Entry>, i: nat, j: nat)
    requires Tiles(text, entries) && i < j < |entries|
    ensures entries[i].end <= entries[j].start
  {
    if i < j - 1 {
      EntriesFollow(text, entries, i, j - 1);
    }
  }

  lemma WithinIs(text: string, ranges: seq<Range>, size: nat, from: nat, to: nat, q: Range)
    requires GoodWithin(text, ranges, size, from, to) && q in ranges
    ensures from <= q.start && q.end <= to
  {
  }

  /** An entry that fits lies whole in one range, and no other range reaches into it. */
  lemma {:induction false} EntryIsInOne(tokenize: Tokenizer, text: string, entries: seq<Entry>, size: nat, overlap: nat,
                                        e: nat) returns (run: Range)
    requires GoodTokenizer(tokenize) && overlap < size && Listed(tokenize, text, entries)
    requires e < |entries| && entries[e].tokenCount <= size
    ensures run in Packed(tokenize, text, entries, size, overlap)
    ensures run.start <= entries[e].start && entries[e].end <= run.end
    ensures forall q | q in Packed(tokenize, text, entries, size, overlap) && q != run ::
              q.end <= entries[e].start || entries[e].end <= q.start
    decreases |entries|
  {
    hide GoodTokenizer, GoodWithin, NextGroup, RangesOf, Packed, Tiles, References.Placed, References.Sized, Sum;
    EntriesArePlaced(tokenize, text, entries);
    var k := NextGroup(entries, size);
    PackedSplits(tokenize, text, entries, size, overlap, k);
    GroupIsGood(tokenize, text, entries, size, overlap, k);
    ListedAfter(tokenize, text, entries, k);
    var first, rest := RangesOf(tokenize, text, entries[..k], size, overlap), Packed(tokenize, text, entries[k..], size, overlap);
    if k < |entries| {
      PackedIsGood(tokenize, text, entries[k..], size, overlap);
    } else {
      NothingPackedOf(tokenize, text, size, overlap);
      assert entries[k..] == [];
    }
    forall q | q in rest
      ensures k < |entries| && entries[k].start <= q.start
    {
      WithinIs(text, rest, size, entries[k].start, |text|, q);
    }
    forall q | q in first
      ensures q.end <= entries[k - 1].end
    {
      WithinIs(text, first, size, entries[0].start, entries[k - 1].end, q);
    }
    if e < k {
      FirstIsRun(tokenize, text, entries, size, overlap, e);
      run := first[0];
      EntryInside(text, entries, e, k);
    } else {
      run := EntryIsInOne(tokenize, text, entries[k..], size, overlap, e - k);
      EntryInside(text, entries, e, e + 1);
      if k < e {
        EntriesFollow(text, entries, k, e);
        EntryEnds(text, entries, k);
      }
    }
  }

  lemma EntryEnds(text: string, entries: seq<Entry>, k: nat)
    requires Tiles(text, entries) && k < |entries|
    ensures entries[k].start < entries[k].end
  {
  }

  lemma EntryInside(text: string, entries: seq<Entry>, e: nat, k: nat)
    requires Tiles(text, entries) && e < k <= |entries|
    ensures entries[0].start <= entries[e].start && entries[e].end <= entries[k - 1].end
    ensures entries[e].start < entries[e].end
  {
    if e > 0 {
      EntriesFollow(text, entries, 0, e);
    }
    if e < k - 1 {
      EntriesFollow(text, entries, e, k - 1);
    }
  }

  /** A range is a run of whole entries that fit together, or a token window of an entry that does not fit. */
  ghost predicate IsPart(tokenize: Tokenizer, text: string, entries: seq<Entry>, size: nat, overlap: nat, r: Range,
                         lo: nat, hi: nat)
    requires overlap < size && References.Placed(text, entries)
  {
    && lo < hi <= |entries|
    && (|| (&& r.start == entries[lo].start && r.end == entries[hi - 1].end
            && r.tokenCount == Sum(entries[lo..hi]) <= size)
        || (&& hi == lo + 1 && entries[lo].tokenCount > size && entries[lo].start <= r.start && r.end <= entries[lo].end
            && exists w: nat ::
                 IsWindow(tokenize(text[entries[lo].start..entries[lo].end]), size, overlap, w, entries[lo].start, r)))
  }

  lemma {:induction false} RangeIsPart(tokenize: Tokenizer, text: string, entries: seq<Entry>, size: nat, overlap: nat,
                                       r: Range) returns (lo: nat, hi: nat)
    requires GoodTokenizer(tokenize) && overlap < size && References.Placed(text, entries)
    requires r in Packed(tokenize, text, entries, size, overlap)
    ensures IsPart(tokenize, text, entries, size, overlap, r, lo, hi)
    decreases |entries|
  {
    hide GoodTokenizer, NextGroup, RangesOf, Packed, Sum, IsWindow, IsPart, References.Placed;
    SomethingPacked(tokenize, text, entries, size, overlap);
    var k := NextGroup(entries, size);
    PackedSplits(tokenize, text, entries, size, overlap, k);
    if r in RangesOf(tokenize, text, entries[..k], size, overlap) {
      lo, hi := 0, k;
      FirstIsPart(tokenize, text, entries, size, overlap, r);
    } else {
      lo, hi := RangeIsPart(tokenize, text, entries[k..], size, overlap, r);
      PartMoves(tokenize, text, entries, size, overlap, r, k, lo, hi);
      lo, hi := lo + k, hi + k;
    }
  }

  lemma PartMoves(tokenize: Tokenizer, text: string, entries: seq<Entry>, size: nat, overlap: nat, r: Range, k: nat,
                  lo: nat, hi: nat)
    requires overlap < size && k <= |entries| && References.Placed(text, entries) && References.Placed(text, entries[k..])
    requires IsPart(tokenize, text, entries[k..], size, overlap, r, lo, hi)
    ensures IsPart(tokenize, text, entries, size, overlap, r, lo + k, hi + k)
  {
    hide Sum, IsWindow;
    assert entries[k..][lo..hi] == entries[lo + k..hi + k];
    assert entries[k..][lo] == entries[lo + k] && entries[k..][hi - 1] == entries[hi + k - 1];
  }

  lemma ShiftedWindow(tokens: seq<Span>, size: nat, overlap: nat, w: nat, from: nat)
    requires overlap < size && w < |WindowsOf(tokens, size, overlap)|
    requires IsWindow(tokens, size, overlap, w, 0, WindowsOf(tokens, size, overlap)[w])
    ensures IsWindow(tokens, size, overlap, w, from, Shifted(WindowsOf(tokens, size, overlap), from)[w])
  {
    hide WindowCount, WindowStart, WindowEnd, WindowsOf;
  }

  lemma FirstIsPart(tokenize: Tokenizer, text: string, entries: seq<Entry>, size: nat, overlap: nat, r: Range)
    requires GoodTokenizer(tokenize) && overlap < size && References.Placed(text, entries) && entries != []
    requires r in RangesOf(tokenize, text, entries[..NextGroup(entries, size)], size, overlap)
    ensures IsPart(tokenize, text, entries, size, overlap, r, 0, NextGroup(entries, size))
  {
    hide LongestFit, Sum, IsWindow, GoodTokenizer, WindowsOf;
    var k := NextGroup(entries, size);
    if entries[0].tokenCount > size {
      var i :| 0 <= i < |RangesOf(tokenize, text, entries[..k], size, overlap)|
               && RangesOf(tokenize, text, entries[..k], size, overlap)[i] == r;
      FirstIsBig(tokenize, text, entries, size, overlap, i);
      var tokens := tokenize(text[entries[0].start..entries[0].end]);
      WindowIsThis(tokens, size, overlap, i);
      ShiftedWindow(tokens, size, overlap, i, entries[0].start);
    } else {
      FirstIsRun(tokenize, text, entries, size, overlap, 0);
      assert entries[0..k] == entries[..k];
    }
  }

  // --- a reference list's ranges ------------------------------------------------------------

  /** Two starts or more make a list of entries, and its ranges are what is not blank of the packed ones. */
  lemma {:induction false} ListIsPacked(tokenize: Tokenizer, find: EntryFinder, text: string, size: nat, overlap: nat, entries: seq<Entry>)
    requires GoodTokenizer(tokenize) && GoodFinder(find) && overlap < size
    requires GoodStarts(text, find(text)) && |find(text)| >= 2 && AreEntries(tokenize, find(text), text, entries)
    ensures Listed(tokenize, text, entries) && entries != [] && References.Placed(text, entries)
    ensures RangesFit(text, Packed(tokenize, text, entries, size, overlap))
    ensures ReferencesOf(tokenize, find, text, size, overlap) == Kept(text, Packed(tokenize, text, entries, size, overlap))
  {
    hide GoodTokenizer, Packed, Tiles, References.Sized, AreEntries, Kept;
    EntriesAreThese(tokenize, find, text, entries);
    EntriesAreListed(tokenize, find, text);
    PackedFits(tokenize, text, entries, size, overlap);
  }

  /** Fewer than two starts make none: the text is windowed. */
  lemma NoListIsWindowed(tokenize: Tokenizer, find: EntryFinder, text: string, size: nat, overlap: nat)
    requires GoodTokenizer(tokenize) && GoodFinder(find) && overlap < size && |find(text)| < 2
    ensures ReferencesOf(tokenize, find, text, size, overlap) == WindowsOf(tokenize(text), size, overlap)
  {
    hide GoodTokenizer, WindowsOf;
  }

  /** Filtering again drops nothing. */
  lemma {:induction false} KeptAgain(text: string, ranges: seq<Range>)
    requires RangesFit(text, ranges)
    ensures RangesFit(text, Kept(text, ranges)) && Kept(text, Kept(text, ranges)) == Kept(text, ranges)
  {
    hide Blank;
    if ranges != [] {
      var front, last := ranges[..|ranges| - 1], ranges[|ranges| - 1];
      KeptAgain(text, front);
      KeptOneMore(text, Kept(text, front), last);
      if Blank(text[last.start..last.end]) {
        assert Kept(text, ranges) == Kept(text, front);
      } else {
        assert Kept(text, ranges) == Kept(text, front) + [last];
      }
    }
  }

  lemma {:induction false} KeptOneMore(text: string, front: seq<Range>, last: Range)
    requires RangesFit(text, front) && last.start <= last.end <= |text|
    ensures RangesFit(text, front + [last])
    ensures Kept(text, front + [last]) == Kept(text, front) + if Blank(text[last.start..last.end]) then [] else [last]
  {
    hide Blank;
    assert (front + [last])[..|front|] == front;
  }

  // --- a section's chunks ---------------------------------------------------------------------

  /** A titled section whose title is that of a reference list, with two entries or more. */
  ghost predicate ListsEntries(setup: Setup, section: Section) {
    && section.title.Some? && setup.rules.references(section.title.value)
    && |setup.find(TextOf(section.blocks))| >= 2
    && GoodStarts(TextOf(section.blocks), setup.find(TextOf(section.blocks)))
  }

  lemma {:induction false} SectionIsPacked(setup: Setup, section: Section, entries: seq<Entry>)
    requires setup.Valid() && ListsEntries(setup, section) && !Blank(TextOf(section.blocks))
    requires AreEntries(setup.tokenize, setup.find(TextOf(section.blocks)), TextOf(section.blocks), entries)
    ensures var text := TextOf(section.blocks);
            && Listed(setup.tokenize, text, entries) && References.Placed(text, entries)
            && RangesFit(text, Packed(setup.tokenize, text, entries, setup.size, setup.overlap))
            && RangesIn(setup, section) == Kept(text, Packed(setup.tokenize, text, entries, setup.size, setup.overlap))
  {
    hide GoodTokenizer, GoodFinder, Packed, AreEntries, Kept, TextOf, Blank, ReferencesOf, WindowsOf, Listed;
    var text := TextOf(section.blocks);
    ListIsPacked(setup.tokenize, setup.find, text, setup.size, setup.overlap, entries);
    KeptAgain(text, Packed(setup.tokenize, text, entries, setup.size, setup.overlap));
  }

  lemma SectionIsWindowed(setup: Setup, section: Section)
    requires setup.Valid() && !Blank(TextOf(section.blocks))
    requires !(section.title.Some? && setup.rules.references(section.title.value))
             || |setup.find(TextOf(section.blocks))| < 2
    ensures var text := TextOf(section.blocks);
            && RangesFit(text, WindowsOf(setup.tokenize(text), setup.size, setup.overlap))
            && RangesIn(setup, section) == Kept(text, WindowsOf(setup.tokenize(text), setup.size, setup.overlap))
  {
    hide GoodTokenizer, GoodFinder, Kept, TextOf, Blank, ReferencesOf, WindowsOf;
    var text := TextOf(section.blocks);
    if |setup.find(text)| < 2 {
      NoListIsWindowed(setup.tokenize, setup.find, text, setup.size, setup.overlap);
    }
    RangesFitText(setup, section);
  }

  lemma SectionWithRanges(setup: Setup, section: Section)
    requires setup.Valid() && RangesIn(setup, section) != []
    ensures !Blank(TextOf(section.blocks))
  {
  }

  lemma PartIsNotBlank(text: string, from: nat, to: nat)
    requires from <= to <= |text| && !Blank(text[from..to])
    ensures !Blank(text)
  {
    var p :| 0 <= p < to - from && !IsSpace(text[from..to][p]);
    assert text[from + p] == text[from..to][p];
  }

  lemma RangeHoldsText(text: string, from: nat, to: nat, r: Range)
    requires from <= to <= |text| && r.start <= from && to <= r.end <= |text| && !Blank(text[from..to])
    ensures !Blank(text[r.start..r.end])
  {
    var p :| 0 <= p < to - from && !IsSpace(text[from..to][p]);
    assert text[r.start..r.end][from + p - r.start] == text[from..to][p];
  }

  lemma RangesAreDistinct(setup: Setup, section: Section, i: nat, j: nat)
    requires setup.Valid() && i < |RangesIn(setup, section)| && j < |RangesIn(setup, section)| && i != j
    ensures RangesIn(setup, section)[i] != RangesIn(setup, section)[j]
  {
    hide RangesIn;
    if i < j {
      RangesInAdvance(setup, section, i, j);
    } else {
      RangesInAdvance(setup, section, j, i);
    }
  }

  /**
   A reference entry that fits is never cut: it lies whole in one chunk, made of range `i` of its section, and
   no other range of the section reaches into it.
   */
  lemma EntryIsInOneChunk(setup: Setup, pages: seq<Page>, m: nat, entries: seq<Entry>, e: nat) returns (k: nat, i: nat)
    requires setup.Valid() && m < |SectionsIn(setup, pages)|
    requires ListsEntries(setup, SectionsIn(setup, pages)[m])
    requires var text := TextOf(SectionsIn(setup, pages)[m].blocks);
             && AreEntries(setup.tokenize, setup.find(text), text, entries)
             && e < |entries| && entries[e].tokenCount <= setup.size
             && entries[e].start <= entries[e].end <= |text| && !Blank(text[entries[e].start..entries[e].end])
    ensures ComesFrom(setup, SectionsIn(setup, pages), k, m, i)
    ensures var section, chunk := SectionsIn(setup, pages)[m], Chunks(setup, pages)[k];
            var text, ranges := TextOf(section.blocks), RangesIn(setup, section);
            && ranges[i].start <= entries[e].start && entries[e].end <= ranges[i].end
            && chunk.content == text[ranges[i].start..ranges[i].end]
            && chunk.content[entries[e].start - ranges[i].start..entries[e].end - ranges[i].start]
               == text[entries[e].start..entries[e].end]
            && (forall j | 0 <= j < |ranges| && j != i ::
                  ranges[j].end <= entries[e].start || entries[e].end <= ranges[j].start)
  {
    hide SectionsIn, ChunksOf, RangesIn, TextOf, PagesCovering, Blank, AreEntries, ListsEntries, Packed, Kept, Listed,
      GoodTokenizer;
    var section := SectionsIn(setup, pages)[m];
    var text := TextOf(section.blocks);
    var entry := entries[e];
    PartIsNotBlank(text, entry.start, entry.end);
    SectionIsPacked(setup, section, entries);
    var packed := Packed(setup.tokenize, text, entries, setup.size, setup.overlap);
    ValidIsGood(setup);
    var run := EntryIsInOne(setup.tokenize, text, entries, setup.size, setup.overlap, e);
    RangeHoldsText(text, entry.start, entry.end, run);
    KeptIs(text, packed, run);
    var ranges := RangesIn(setup, section);
    i :| 0 <= i < |ranges| && ranges[i] == run;
    k := RangeBecomes(setup, SectionsIn(setup, pages), m, i);
    forall j | 0 <= j < |ranges| && j != i
      ensures ranges[j].end <= entry.start || entry.end <= ranges[j].start
    {
      KeptIs(text, packed, ranges[j]);
      RangesAreDistinct(setup, section, i, j);
    }
  }

  lemma ValidIsGood(setup: Setup)
    requires setup.Valid()
    ensures GoodTokenizer(setup.tokenize) && GoodFinder(setup.find)
  {
  }

  /** Every chunk of a reference list is a run of whole entries that fit together, or part of one that does not fit. */
  lemma ChunkHoldsEntries(setup: Setup, pages: seq<Page>, k: nat, m: nat, i: nat, entries: seq<Entry>)
    returns (lo: nat, hi: nat)
    requires setup.Valid() && ComesFrom(setup, SectionsIn(setup, pages), k, m, i)
    requires ListsEntries(setup, SectionsIn(setup, pages)[m])
    requires var text := TextOf(SectionsIn(setup, pages)[m].blocks);
             AreEntries(setup.tokenize, setup.find(text), text, entries)
    ensures var section, chunk := SectionsIn(setup, pages)[m], Chunks(setup, pages)[k];
            var text, r := TextOf(section.blocks), RangesIn(setup, section)[i];
            && References.Placed(text, entries)
            && IsPart(setup.tokenize, text, entries, setup.size, setup.overlap, r, lo, hi)
            && chunk.content == text[r.start..r.end] && chunk.tokenCount == r.tokenCount
  {
    hide SectionsIn, ChunksOf, RangesIn, TextOf, PagesCovering, Blank, AreEntries, ListsEntries, Packed, Kept, Tiles,
      References.Sized, IsPart, GoodTokenizer;
    var section := SectionsIn(setup, pages)[m];
    var text := TextOf(section.blocks);
    SectionWithRanges(setup, section);
    SectionIsPacked(setup, section, entries);
    ValidIsGood(setup);
    var packed := Packed(setup.tokenize, text, entries, setup.size, setup.overlap);
    KeptIs(text, packed, RangesIn(setup, section)[i]);
    lo, hi := RangeIsPart(setup.tokenize, text, entries, setup.size, setup.overlap, RangesIn(setup, section)[i]);
  }

  /** Every chunk of any other section is one of its token windows. */
  lemma ChunkIsWindow(setup: Setup, pages: seq<Page>, k: nat, m: nat, i: nat) returns (w: nat)
    requires setup.Valid() && ComesFrom(setup, SectionsIn(setup, pages), k, m, i)
    requires var section := SectionsIn(setup, pages)[m];
             !(section.title.Some? && setup.rules.references(section.title.value))
             || |setup.find(TextOf(section.blocks))| < 2
    ensures var section, chunk := SectionsIn(setup, pages)[m], Chunks(setup, pages)[k];
            var text, r := TextOf(section.blocks), RangesIn(setup, section)[i];
            && IsWindow(setup.tokenize(text), setup.size, setup.overlap, w, 0, r)
            && chunk.content == text[r.start..r.end] && chunk.tokenCount == r.tokenCount
  {
    hide SectionsIn, ChunksOf, RangesIn, TextOf, PagesCovering, Blank, WindowsOf, Kept, IsWindow;
    var section := SectionsIn(setup, pages)[m];
    var text := TextOf(section.blocks);
    SectionWithRanges(setup, section);
    SectionIsWindowed(setup, section);
    var windows := WindowsOf(setup.tokenize(text), setup.size, setup.overlap);
    KeptIs(text, windows, RangesIn(setup, section)[i]);
    w :| 0 <= w < |windows| && windows[w] == RangesIn(setup, section)[i];
    WindowIsThis(setup.tokenize(text), setup.size, setup.overlap, w);
  }

  /** And every window that holds text is a chunk. */
  lemma WindowIsChunk(setup: Setup, pages: seq<Page>, m: nat, w: nat, r: Range) returns (k: nat, i: nat)
    requires setup.Valid() && m < |SectionsIn(setup, pages)|
    requires var section := SectionsIn(setup, pages)[m];
             !(section.title.Some? && setup.rules.references(section.title.value))
             || |setup.find(TextOf(section.blocks))| < 2
    requires var text := TextOf(SectionsIn(setup, pages)[m].blocks);
             && IsWindow(setup.tokenize(text), setup.size, setup.overlap, w, 0, r)
             && r.start <= r.end <= |text| && !Blank(text[r.start..r.end])
    ensures ComesFrom(setup, SectionsIn(setup, pages), k, m, i)
    ensures var section, chunk := SectionsIn(setup, pages)[m], Chunks(setup, pages)[k];
            && RangesIn(setup, section)[i] == r
            && chunk.content == TextOf(section.blocks)[r.start..r.end] && chunk.tokenCount == r.tokenCount
  {
    hide SectionsIn, ChunksOf, RangesIn, TextOf, PagesCovering, Blank, WindowsOf, Kept, IsWindow;
    var section := SectionsIn(setup, pages)[m];
    var text := TextOf(section.blocks);
    PartIsNotBlank(text, r.start, r.end);
    SectionIsWindowed(setup, section);
    ThisIsWindow(setup.tokenize(text), setup.size, setup.overlap, w, r);
    KeptIs(text, WindowsOf(setup.tokenize(text), setup.size, setup.overlap), r);
    i :| 0 <= i < |RangesIn(setup, section)| && RangesIn(setup, section)[i] == r;
    k := RangeBecomes(setup, SectionsIn(setup, pages), m, i);
  }
}
