/** A reference list, split between its entries. */
module References {
  import opened Identifiers
  import opened Text
  import opened Windows

  /** Where the entries of a text start: the matches of the entry pattern, in order. */
  type EntryFinder = string -> seq<nat>

  ghost predicate GoodStarts(text: string, starts: seq<nat>) {
    && (forall i | 0 <= i < |starts| :: starts[i] < |text|)
    && (forall i, j | 0 <= i < j < |starts| :: starts[i] < starts[j])
  }

  ghost predicate GoodFinder(find: EntryFinder) {
    forall text :: GoodStarts(text, find(text))
  }

  const MINIMUM_ENTRIES := 2

  /** One entry's part of the text, sized on its own. */
  type Entry = Range

  /** A preamble before the first entry is an entry too. */
  function Bounds(starts: seq<nat>): seq<nat> {
    if starts != [] && starts[0] > 0 then [0] + starts else starts
  }

  /** Entry `i` runs to the start of the next, and the last one to the end. */
  function EntriesOf(tokenize: Tokenizer, text: string, bounds: seq<nat>): (entries: seq<Entry>)
    requires GoodStarts(text, bounds)
    ensures |entries| == |bounds|
  {
    seq(|bounds|, i requires 0 <= i < |bounds| =>
      var end := if i + 1 < |bounds| then bounds[i + 1] else |text|;
      Range(bounds[i], end, Count(tokenize, text[bounds[i]..end])))
  }

  /** The entries follow each other without a gap, from the start of the text to its end. */
  ghost predicate Tiles(text: string, entries: seq<Entry>) {
    && (forall i | 0 <= i < |entries| :: entries[i].start < entries[i].end <= |text|)
    && (forall i | 0 <= i < |entries| - 1 :: entries[i].end == entries[i + 1].start)
    && (entries != [] ==> entries[|entries| - 1].end == |text|)
  }

  lemma BoundsAre(text: string, starts: seq<nat>)
    requires GoodStarts(text, starts) && starts != []
    ensures GoodStarts(text, Bounds(starts)) && Bounds(starts) != [] && Bounds(starts)[0] == 0
  {
  }

  lemma EntriesTile(tokenize: Tokenizer, text: string, bounds: seq<nat>)
    requires GoodStarts(text, bounds) && bounds != []
    ensures Tiles(text, EntriesOf(tokenize, text, bounds))
    ensures EntriesOf(tokenize, text, bounds)[0].start == bounds[0]
  {
  }

  predicate Placed(text: string, entries: seq<Entry>) {
    forall i | 0 <= i < |entries| :: entries[i].start <= entries[i].end <= |text|
  }

  // --- packing ---------------------------------------------------------------------------

  function Sum(entries: seq<Entry>): nat {
    if entries == [] then 0 else Sum(entries[..|entries| - 1]) + entries[|entries| - 1].tokenCount
  }

  /** How many entries from the front fit one budget. */
  function LongestFit(entries: seq<Entry>, size: nat): (k: nat)
    ensures k <= |entries|
  {
    FitFrom(entries, size, |entries|)
  }

  /** The greatest `k` up to `n` such that the first `k` entries fit. */
  function FitFrom(entries: seq<Entry>, size: nat, n: nat): (k: nat)
    requires n <= |entries|
    ensures k <= n
  {
    if n == 0 || Sum(entries[..n]) <= size then n else FitFrom(entries, size, n - 1)
  }

  lemma {:induction false} SumGrows(entries: seq<Entry>, i: nat, j: nat)
    requires i <= j <= |entries|
    ensures Sum(entries[..i]) <= Sum(entries[..j])
  {
    if i < j {
      assert entries[..j][..j - 1] == entries[..j - 1];
      SumGrows(entries, i, j - 1);
    }
  }

  lemma {:induction false} FitFromIs(entries: seq<Entry>, size: nat, n: nat, k: nat)
    requires k <= n <= |entries|
    ensures k <= FitFrom(entries, size, n) <==> Sum(entries[..k]) <= size
  {
    if Sum(entries[..n]) <= size {
      SumGrows(entries, k, n);
    } else if n > 0 && k < n {
      FitFromIs(entries, size, n - 1, k);
    }
  }

  /** The first `k` entries fit exactly when `k` is no more than the longest fit. */
  lemma LongestFitIs(entries: seq<Entry>, size: nat, k: nat)
    requires k <= |entries|
    ensures k <= LongestFit(entries, size) <==> Sum(entries[..k]) <= size
  {
    FitFromIs(entries, size, |entries|, k);
  }

  lemma SumOfOne(entries: seq<Entry>)
    requires entries != []
    ensures Sum(entries[..1]) == entries[0].tokenCount
  {
    assert entries[..1][..0] == [];
  }

  /** How many entries go into the next group: as many as fit, or one that fits nowhere. */
  function NextGroup(entries: seq<Entry>, size: nat): (k: nat)
    requires entries != []
    ensures 0 < k <= |entries|
  {
    if entries[0].tokenCount > size then 1
    else
      SumOfOne(entries);
      LongestFitIs(entries, size, 1);
      LongestFit(entries, size)
  }

  /** The sizes of the groups the entries are packed into. */
  function Groups(entries: seq<Entry>, size: nat): seq<nat>
    decreases |entries|
  {
    if entries == [] then []
    else [NextGroup(entries, size)] + Groups(entries[NextGroup(entries, size)..], size)
  }

  function Shifted(ranges: seq<Range>, offset: nat): (shifted: seq<Range>)
    ensures |shifted| == |ranges|
  {
    seq(|ranges|, i requires 0 <= i < |ranges| =>
      Range(ranges[i].start + offset, ranges[i].end + offset, ranges[i].tokenCount))
  }

  /** A group's ranges: one for entries that fit together, windows for an entry that does not fit. */
  function RangesOf(tokenize: Tokenizer, text: string, group: seq<Entry>, size: nat, overlap: nat): seq<Range>
    requires group != [] && overlap < size
    requires group[0].start <= group[0].end <= |text|
  {
    if group[0].tokenCount > size
    then Shifted(WindowsOf(tokenize(text[group[0].start..group[0].end]), size, overlap), group[0].start)
    else [Range(group[0].start, group[|group| - 1].end, Sum(group))]
  }

  /** The ranges of the groups, in order. */
  function Packed(tokenize: Tokenizer, text: string, entries: seq<Entry>, size: nat, overlap: nat): seq<Range>
    requires overlap < size
    requires Placed(text, entries)
    decreases |entries|
  {
    if entries == [] then []
    else
      var k := NextGroup(entries, size);
      RangesOf(tokenize, text, entries[..k], size, overlap) + Packed(tokenize, text, entries[k..], size, overlap)
  }

  // --- the packing is optimal --------------------------------------------------------------

  /** Some other way to pack: groups of consecutive entries that fit, an entry that does not fit alone. */
  ghost predicate Packs(entries: seq<Entry>, groups: seq<nat>, size: nat)
    decreases |groups|
  {
    if groups == [] then entries == []
    else
      && 0 < groups[0] <= |entries|
      && (Sum(entries[..groups[0]]) <= size || groups[0] == 1)
      && Packs(entries[groups[0]..], groups[1..], size)
  }

  lemma {:induction false} SumSplits(a: seq<Entry>, b: seq<Entry>)
    ensures Sum(a + b) == Sum(a) + Sum(b)
  {
    if b == [] {
      assert a + b == a;
    } else {
      assert (a + b)[..|a + b| - 1] == a + b[..|b| - 1];
      SumSplits(a, b[..|b| - 1]);
    }
  }

  /** The packing is one of them. */
  lemma {:induction false} GroupsPack(entries: seq<Entry>, size: nat)
    ensures Packs(entries, Groups(entries, size), size)
    decreases |entries|
  {
    if entries != [] {
      var k := NextGroup(entries, size);
      GroupsPack(entries[k..], size);
      LongestFitIs(entries, size, k);
      assert Groups(entries, size)[1..] == Groups(entries[k..], size);
    }
  }

  /** Without its first `d` entries, a packing needs no more groups. */
  lemma {:induction false} DropsEntries(entries: seq<Entry>, groups: seq<nat>, size: nat, d: nat) returns (rest: seq<nat>)
    requires Packs(entries, groups, size) && d <= |entries|
    ensures Packs(entries[d..], rest, size) && |rest| <= |groups|
    ensures groups != [] && groups[0] <= d ==> |rest| < |groups|
    decreases |groups|
  {
    if groups == [] || d == 0 {
      assert entries[d..] == entries;
      rest := groups;
    } else if d < groups[0] {
      var k := groups[0];
      rest := [k - d] + groups[1..];
      assert entries[..k] == entries[..d] + entries[d..k];
      SumSplits(entries[..d], entries[d..k]);
      assert entries[d..][..k - d] == entries[d..k] && entries[d..][k - d..] == entries[k..];
      assert rest[1..] == groups[1..];
    } else {
      rest := DropsEntries(entries[groups[0]..], groups[1..], size, d - groups[0]);
      assert entries[groups[0]..][d - groups[0]..] == entries[d..];
    }
  }

  /** No packing of the entries has fewer groups. */
  lemma {:induction false} PackingIsOptimal(entries: seq<Entry>, size: nat, groups: seq<nat>)
    requires Packs(entries, groups, size)
    ensures |Groups(entries, size)| <= |groups|
    decreases |entries|
  {
    if entries != [] {
      var k := NextGroup(entries, size);
      SumOfOne(entries);
      LongestFitIs(entries, size, 1);
      LongestFitIs(entries, size, groups[0]);
      var rest := DropsEntries(entries, groups, size, k);
      PackingIsOptimal(entries[k..], size, rest);
    }
  }

  lemma DropsFromFront(s: seq<Entry>, t: seq<Entry>, k: nat)
    requires k <= |s|
    ensures (s + t)[k..] == s[k..] + t
  {
  }

  lemma SameNextGroup(before: seq<Entry>, after: seq<Entry>, size: nat)
    requires before != [] && after != [] && after[0].tokenCount > size
    ensures NextGroup(before + after, size) == NextGroup(before, size)
  {
    hide FitFrom;
    var all := before + after;
    var k := LongestFit(before, size);
    LongestFitIs(before, size, k);
    assert all[..k] == before[..k];
    LongestFitIs(all, size, k);
    if k < |before| {
      LongestFitIs(before, size, k + 1);
      assert all[..k + 1] == before[..k + 1];
    } else {
      assert all[..k + 1] == before + [after[0]];
      SumSplits(before, [after[0]]);
      SumOfOne([after[0]]);
      assert [after[0]][..1] == [after[0]];
    }
    LongestFitIs(all, size, k + 1);
  }

  // --- the loop ----------------------------------------------------------------------------

  lemma NextGroupIs(entries: seq<Entry>, size: nat, k: nat)
    requires 0 < k <= |entries| && Sum(entries[..k]) <= size
    requires k < |entries| ==> Sum(entries[..k + 1]) > size
    ensures NextGroup(entries, size) == k && entries[0].tokenCount <= size
  {
    hide FitFrom, LongestFit;
    SumGrows(entries, 1, k);
    SumOfOne(entries);
    LongestFitIs(entries, size, k);
    if k < |entries| {
      LongestFitIs(entries, size, k + 1);
    }
  }

  /** The open group is closed: it holds entries `lo` to `i`, and entry `i` does not fit with them. */
  lemma {:induction false} Closes(tokenize: Tokenizer, text: string, entries: seq<Entry>, size: nat, overlap: nat, lo: nat, i: nat)
    requires overlap < size && Placed(text, entries)
    requires lo < i <= |entries| && Sum(entries[lo..i]) <= size
    requires i < |entries| ==> Sum(entries[lo..i + 1]) > size
    ensures Packed(tokenize, text, entries[lo..], size, overlap)
            == [Range(entries[lo].start, entries[i - 1].end, Sum(entries[lo..i]))]
               + Packed(tokenize, text, entries[i..], size, overlap)
  {
    hide NextGroup, Sum;
    var rest := entries[lo..];
    assert rest[..i - lo] == entries[lo..i] && rest[i - lo..] == entries[i..];
    if i < |entries| {
      assert rest[..i - lo + 1] == entries[lo..i + 1];
    }
    NextGroupIs(rest, size, i - lo);
  }

  lemma {:induction false} PacksBig(tokenize: Tokenizer, text: string, entries: seq<Entry>, size: nat, overlap: nat, i: nat)
    requires overlap < size && Placed(text, entries)
    requires i < |entries| && entries[i].tokenCount > size
    ensures Packed(tokenize, text, entries[i..], size, overlap)
            == Shifted(WindowsOf(tokenize(text[entries[i].start..entries[i].end]), size, overlap), entries[i].start)
               + Packed(tokenize, text, entries[i + 1..], size, overlap)
  {
    assert entries[i..][1..] == entries[i + 1..];
  }

  lemma SumExtends(entries: seq<Entry>, lo: nat, i: nat)
    requires lo <= i < |entries|
    ensures Sum(entries[lo..i + 1]) == Sum(entries[lo..i]) + entries[i].tokenCount
  {
    assert entries[lo..i + 1][..i - lo] == entries[lo..i];
  }

  lemma EmptySum(entries: seq<Entry>, i: nat)
    requires i <= |entries|
    ensures Sum(entries[i..i]) == 0
  {
  }

  /** The ranges of the groups closed so far, where the open group begins at entry `lo`. */
  ghost predicate SoFar(tokenize: Tokenizer, text: string, entries: seq<Entry>, size: nat, overlap: nat,
                        ranges: seq<Range>, lo: nat)
    requires overlap < size && Placed(text, entries)
  {
    && lo <= |entries|
    && Packed(tokenize, text, entries, size, overlap) == ranges + Packed(tokenize, text, entries[lo..], size, overlap)
  }

  /** The open group holds entries `lo` to `i`. */
  predicate Open(entries: seq<Entry>, size: nat, lo: nat, i: nat, start: Option<nat>, end: nat, tokens: nat) {
    && lo <= i <= |entries|
    && (start.None? <==> lo == i)
    && (start.Some? ==> start.value == entries[lo].start && end == entries[i - 1].end
                        && tokens == Sum(entries[lo..i]) && tokens <= size)
  }

  lemma ClosesOpen(tokenize: Tokenizer, text: string, entries: seq<Entry>, size: nat, overlap: nat,
                   ranges: seq<Range>, lo: nat, i: nat, start: nat, end: nat, tokens: nat)
    requires overlap < size && Placed(text, entries)
    requires SoFar(tokenize, text, entries, size, overlap, ranges, lo)
    requires Open(entries, size, lo, i, Some(start), end, tokens)
    requires i < |entries| ==> tokens + entries[i].tokenCount > size
    ensures SoFar(tokenize, text, entries, size, overlap, ranges + [Range(start, end, tokens)], i)
  {
    hide Sum, Packed;
    if i < |entries| {
      SumExtends(entries, lo, i);
    }
    Closes(tokenize, text, entries, size, overlap, lo, i);
  }

  lemma PacksBigNext(tokenize: Tokenizer, text: string, entries: seq<Entry>, size: nat, overlap: nat,
                     ranges: seq<Range>, i: nat)
    requires overlap < size && Placed(text, entries)
    requires SoFar(tokenize, text, entries, size, overlap, ranges, i) && i < |entries| && entries[i].tokenCount > size
    ensures var windows := WindowsOf(tokenize(text[entries[i].start..entries[i].end]), size, overlap);
            SoFar(tokenize, text, entries, size, overlap, ranges + Shifted(windows, entries[i].start), i + 1)
  {
    hide Packed, WindowsOf;
    PacksBig(tokenize, text, entries, size, overlap, i);
  }

  lemma Opens(entries: seq<Entry>, size: nat, i: nat)
    requires i < |entries| && entries[i].tokenCount <= size
    ensures Open(entries, size, i, i + 1, Some(entries[i].start), entries[i].end, entries[i].tokenCount)
  {
    hide Sum;
    SumExtends(entries, i, i);
    EmptySum(entries, i);
  }

  lemma Extends(entries: seq<Entry>, size: nat, lo: nat, i: nat, start: nat, end: nat, tokens: nat)
    requires Open(entries, size, lo, i, Some(start), end, tokens)
    requires i < |entries| && tokens + entries[i].tokenCount <= size
    ensures Open(entries, size, lo, i + 1, Some(start), entries[i].end, tokens + entries[i].tokenCount)
  {
    hide Sum;
    SumExtends(entries, lo, i);
  }

  predicate RangesFit(text: string, ranges: seq<Range>) {
    forall i | 0 <= i < |ranges| :: ranges[i].start <= ranges[i].end <= |text|
  }

  /** The ranges that hold any text, in order. */
  function Kept(text: string, ranges: seq<Range>): seq<Range>
    requires RangesFit(text, ranges)
  {
    if ranges == [] then []
    else
      var last := ranges[|ranges| - 1];
      Kept(text, ranges[..|ranges| - 1]) + if Blank(text[last.start..last.end]) then [] else [last]
  }

  // --- what the ranges are -----------------------------------------------------------------

  /** Good ranges of the part of `text` between `from` and `to`. */
  ghost predicate GoodWithin(text: string, ranges: seq<Range>, size: nat, from: nat, to: nat) {
    && (forall i | 0 <= i < |ranges| :: RangeOk(text, ranges[i], size) && from <= ranges[i].start && ranges[i].end <= to)
    && Advance(ranges)
    && (forall p | from <= p < to && p < |text| && !IsSpace(text[p]) :: Covered(ranges, p))
  }

  lemma CoveredAfter(a: seq<Range>, b: seq<Range>, p: nat)
    requires Covered(a, p) || Covered(b, p)
    ensures Covered(a + b, p)
  {
    if Covered(a, p) {
      var i :| 0 <= i < |a| && a[i].start <= p < a[i].end;
      assert (a + b)[i] == a[i];
    } else {
      var i :| 0 <= i < |b| && b[i].start <= p < b[i].end;
      assert (a + b)[|a| + i] == b[i];
    }
  }

  lemma Joins(text: string, a: seq<Range>, b: seq<Range>, size: nat, from: nat, mid: nat, to: nat)
    requires from <= mid <= to
    requires GoodWithin(text, a, size, from, mid) && GoodWithin(text, b, size, mid, to)
    ensures GoodWithin(text, a + b, size, from, to)
  {
    hide Covered;
    forall p | from <= p < to && p < |text| && !IsSpace(text[p])
      ensures Covered(a + b, p)
    {
      CoveredAfter(a, b, p);
    }
    forall i, j | 0 <= i < j < |a + b|
      ensures (a + b)[i].start < (a + b)[j].start && (a + b)[i].end < (a + b)[j].end
    {
      if i < |a| <= j {
        assert RangeOk(text, a[i], size) && RangeOk(text, b[j - |a|], size);
      }
    }
  }

  /** Every entry's count is the tokenizer's for the entry's own text. */
  ghost predicate Sized(tokenize: Tokenizer, text: string, entries: seq<Entry>)
    requires Placed(text, entries)
  {
    forall i | 0 <= i < |entries| :: entries[i].tokenCount == Count(tokenize, text[entries[i].start..entries[i].end])
  }

  lemma {:induction false} SumIsAtLeast(entries: seq<Entry>, i: nat)
    requires i < |entries|
    ensures entries[i].tokenCount <= Sum(entries)
  {
    if i < |entries| - 1 {
      SumIsAtLeast(entries[..|entries| - 1], i);
    }
  }

  lemma {:induction false} EntryHolds(text: string, entries: seq<Entry>, p: nat) returns (i: nat)
    requires Tiles(text, entries) && entries != [] && entries[0].start <= p < |text|
    ensures i < |entries| && entries[i].start <= p < entries[i].end
  {
    if p < entries[0].end {
      i := 0;
    } else {
      i := EntryHolds(text, entries[1..], p);
      i := i + 1;
    }
  }

  lemma TextHasTokens(tokenize: Tokenizer, text: string, p: nat)
    requires GoodTokenizer(tokenize) && p < |text| && !IsSpace(text[p])
    ensures Count(tokenize, text) >= 1
  {
    assert GoodSpans(text, tokenize(text));
    assert InSpans(tokenize(text), p);
  }

  /** The range of a group that fits. */
  lemma {:induction false} FittingGroupIsGood(tokenize: Tokenizer, text: string, group: seq<Entry>, size: nat, end: nat)
    requires GoodTokenizer(tokenize) && group != [] && Placed(text, group) && Sized(tokenize, text, group)
    requires Sum(group) <= size && end == group[|group| - 1].end && group[0].start < end
    requires forall p | group[0].start <= p < end :: Covered(group, p)
    ensures GoodWithin(text, [Range(group[0].start, end, Sum(group))], size, group[0].start, end)
  {
    hide GoodTokenizer, Sum, Blank, Covered, Tiles, Sized;
    var r := Range(group[0].start, end, Sum(group));
    if !Blank(text[r.start..r.end]) {
      GroupHasTokens(tokenize, text, group, r.start, r.end);
    }
    CoversItself(r);
  }

  lemma CoversItself(r: Range)
    ensures forall p | r.start <= p < r.end :: Covered([r], p)
  {
    assert [r][0] == r;
  }

  lemma {:induction false} GroupHasTokens(tokenize: Tokenizer, text: string, group: seq<Entry>, from: nat, to: nat)
    requires GoodTokenizer(tokenize) && Placed(text, group) && Sized(tokenize, text, group)
    requires from <= to <= |text| && !Blank(text[from..to])
    requires forall p | from <= p < to :: Covered(group, p)
    ensures Sum(group) >= 1
  {
    hide GoodTokenizer, Sum;
    var q :| 0 <= q < to - from && !IsSpace(text[from..to][q]);
    assert Covered(group, from + q);
    var i :| 0 <= i < |group| && group[i].start <= from + q < group[i].end;
    SumIsAtLeast(group, i);
    var part := text[group[i].start..group[i].end];
    assert part[from + q - group[i].start] == text[from..to][q];
    TextHasTokens(tokenize, part, from + q - group[i].start);
  }

  lemma SliceOfSlice(text: string, from: nat, to: nat, a: nat, b: nat)
    requires from <= to <= |text| && a <= b <= to - from
    ensures text[from..to][a..b] == text[a + from..b + from]
  {
    forall i | 0 <= i < b - a
      ensures text[from..to][a..b][i] == text[a + from..b + from][i]
    {
    }
  }

  lemma ShiftedRangeOk(text: string, from: nat, to: nat, r: Range, size: nat)
    requires from <= to <= |text| && RangeOk(text[from..to], r, size)
    ensures RangeOk(text, Range(r.start + from, r.end + from, r.tokenCount), size)
  {
    SliceOfSlice(text, from, to, r.start, r.end);
  }

  lemma ShiftedIsGood(text: string, from: nat, to: nat, ranges: seq<Range>, size: nat)
    requires from <= to <= |text| && GoodRanges(text[from..to], ranges, size)
    ensures GoodWithin(text, Shifted(ranges, from), size, from, to)
  {
    hide RangeOk;
    var shifted := Shifted(ranges, from);
    forall i | 0 <= i < |shifted|
      ensures RangeOk(text, shifted[i], size) && from <= shifted[i].start && shifted[i].end <= to
    {
      ShiftedRangeOk(text, from, to, ranges[i], size);
      EndsWithin(text[from..to], ranges[i], size);
    }
    forall p | from <= p < to && !IsSpace(text[p])
      ensures Covered(shifted, p)
    {
      assert text[from..to][p - from] == text[p];
      var i :| 0 <= i < |ranges| && ranges[i].start <= p - from < ranges[i].end;
      assert shifted[i].start <= p < shifted[i].end;
    }
  }

  lemma EndsWithin(text: string, r: Range, size: nat)
    requires RangeOk(text, r, size)
    ensures r.end <= |text|
  {
  }

  /** What a suffix of the entries still is. */
  ghost predicate Listed(tokenize: Tokenizer, text: string, entries: seq<Entry>) {
    Tiles(text, entries) && Placed(text, entries) && Sized(tokenize, text, entries)
  }

  lemma ListedAfter(tokenize: Tokenizer, text: string, entries: seq<Entry>, k: nat)
    requires Listed(tokenize, text, entries) && k <= |entries|
    ensures Listed(tokenize, text, entries[k..])
    ensures 0 < k < |entries| ==> entries[k].start == entries[k - 1].end
    ensures 0 < k == |entries| ==> entries[k - 1].end == |text|
  {
  }

  lemma {:induction false} GroupHolds(text: string, entries: seq<Entry>, k: nat, p: nat) returns (i: nat)
    requires Tiles(text, entries) && 0 < k <= |entries| && entries[0].start <= p < entries[k - 1].end
    ensures i < k && entries[i].start <= p < entries[i].end
  {
    if p < entries[0].end {
      i := 0;
    } else {
      i := GroupHolds(text, entries[1..], k - 1, p);
      i := i + 1;
    }
  }

  lemma {:induction false} StartsBeforeEnd(text: string, entries: seq<Entry>, k: nat)
    requires Tiles(text, entries) && 0 < k <= |entries|
    ensures entries[0].start < entries[k - 1].end
  {
    if k > 1 {
      StartsBeforeEnd(text, entries, k - 1);
    }
  }

  lemma GroupIsGood(tokenize: Tokenizer, text: string, entries: seq<Entry>, size: nat, overlap: nat, k: nat)
    requires GoodTokenizer(tokenize) && overlap < size
    requires Listed(tokenize, text, entries) && entries != [] && k == NextGroup(entries, size)
    ensures GoodWithin(text, RangesOf(tokenize, text, entries[..k], size, overlap), size,
                       entries[0].start, entries[k - 1].end)
  {
    hide GoodTokenizer, GoodRanges, GoodWithin, LongestFit, Sum;
    var group, from, to := entries[..k], entries[0].start, entries[k - 1].end;
    if entries[0].tokenCount > size {
      WholeTextIsGood(tokenize, text[from..to], size, overlap);
      ShiftedIsGood(text, from, to, WindowsOf(tokenize(text[from..to]), size, overlap), size);
    } else {
      LongestFitIs(entries, size, k);
      StartsBeforeEnd(text, entries, k);
      forall p | from <= p < to
        ensures Covered(group, p)
      {
        var i := GroupHolds(text, entries, k, p);
        assert group[i].start <= p < group[i].end;
      }
      FittingGroupIsGood(tokenize, text, group, size, to);
    }
  }

  lemma WholeTextIsGood(tokenize: Tokenizer, text: string, size: nat, overlap: nat)
    requires GoodTokenizer(tokenize) && overlap < size
    ensures GoodRanges(text, WindowsOf(tokenize(text), size, overlap), size)
  {
    hide WindowsOf;
    assert GoodSpans(text, tokenize(text));
    WindowsAreGood(text, tokenize(text), size, overlap);
  }

  lemma {:induction false} PackedIsGood(tokenize: Tokenizer, text: string, entries: seq<Entry>, size: nat, overlap: nat)
    requires GoodTokenizer(tokenize) && overlap < size && Listed(tokenize, text, entries) && entries != []
    ensures GoodWithin(text, Packed(tokenize, text, entries, size, overlap), size, entries[0].start, |text|)
    decreases |entries|
  {
    hide GoodTokenizer, GoodWithin, NextGroup, RangesOf, Tiles, Sized;
    var k := NextGroup(entries, size);
    GroupIsGood(tokenize, text, entries, size, overlap, k);
    ListedAfter(tokenize, text, entries, k);
    StartsBeforeEnd(text, entries, k);
    var first := RangesOf(tokenize, text, entries[..k], size, overlap);
    if k == |entries| {
      assert first + [] == first;
    } else {
      PackedIsGood(tokenize, text, entries[k..], size, overlap);
      Joins(text, first, Packed(tokenize, text, entries[k..], size, overlap), size,
            entries[0].start, entries[k].start, |text|);
    }
  }

  // --- as few ranges as possible ----------------------------------------------------------------

  /** Entries that all fit get one range a group. */
  lemma {:induction false} OneRangePerGroup(tokenize: Tokenizer, text: string, entries: seq<Entry>, size: nat, overlap: nat)
    requires overlap < size && Placed(text, entries)
    requires forall i | 0 <= i < |entries| :: entries[i].tokenCount <= size
    ensures |Packed(tokenize, text, entries, size, overlap)| == |Groups(entries, size)|
    decreases |entries|
  {
    hide NextGroup, Sum;
    if entries != [] {
      OneRangePerGroup(tokenize, text, entries[NextGroup(entries, size)..], size, overlap);
    }
  }

  /**
   Entries that all fit get the fewest ranges any grouping of them into consecutive runs within the
   budget could have.
   */
  lemma {:induction false} FewestRanges(tokenize: Tokenizer, text: string, entries: seq<Entry>, size: nat, overlap: nat, groups: seq<nat>)
    requires overlap < size && Placed(text, entries)
    requires forall i | 0 <= i < |entries| :: entries[i].tokenCount <= size
    requires Packs(entries, groups, size)
    ensures |Packed(tokenize, text, entries, size, overlap)| <= |groups|
  {
    OneRangePerGroup(tokenize, text, entries, size, overlap);
    PackingIsOptimal(entries, size, groups);
  }

  /** An entry that does not fit has its own windows, and what lies on either side is packed apart. */
  lemma {:induction false} RangesSplit(tokenize: Tokenizer, text: string, before: seq<Entry>, big: Entry,
                                       after: seq<Entry>, size: nat, overlap: nat)
    requires overlap < size && Placed(text, before + [big] + after) && big.tokenCount > size
    ensures Placed(text, before) && Placed(text, after) && big.start <= big.end <= |text|
    ensures Packed(tokenize, text, before + [big] + after, size, overlap)
            == Packed(tokenize, text, before, size, overlap)
               + Shifted(WindowsOf(tokenize(text[big.start..big.end]), size, overlap), big.start)
               + Packed(tokenize, text, after, size, overlap)
    decreases |before|
  {
    hide RangesOf, NextGroup, Placed, Packed, WindowsOf;
    var all := before + [big] + after;
    PartsPlaced(text, before, big, after);
    if before == [] {
      assert all == [big] + after && all[0..] == all && all[1..] == after;
      PacksBig(tokenize, text, all, size, overlap, 0);
      NothingPackedOf(tokenize, text, size, overlap);
    } else {
      var k := NextGroup(before, size);
      assert before + ([big] + after) == all;
      SameNextGroup(before, [big] + after, size);
      DropsFromFront(before, [big] + after, k);
      assert before[k..] + ([big] + after) == before[k..] + [big] + after;
      assert all[..k] == before[..k];
      PackedSplits(tokenize, text, all, size, overlap, k);
      PackedSplits(tokenize, text, before, size, overlap, k);
      RangesSplit(tokenize, text, before[k..], big, after, size, overlap);
    }
  }

  lemma {:induction false} NothingPackedOf(tokenize: Tokenizer, text: string, size: nat, overlap: nat)
    requires overlap < size
    ensures Placed(text, []) && Packed(tokenize, text, [], size, overlap) == []
  {
  }

  lemma PartsPlaced(text: string, before: seq<Entry>, big: Entry, after: seq<Entry>)
    requires Placed(text, before + [big] + after)
    ensures Placed(text, before) && Placed(text, after) && big.start <= big.end <= |text|
  {
    var all := before + [big] + after;
    assert all[|before|] == big;
    forall i | 0 <= i < |before|
      ensures before[i].start <= before[i].end <= |text|
    {
      assert all[i] == before[i];
    }
    forall i | 0 <= i < |after|
      ensures after[i].start <= after[i].end <= |text|
    {
      assert all[|before| + 1 + i] == after[i];
    }
  }

  // --- entries stay whole --------------------------------------------------------------------

  /** The range of entries `lo` to `hi`, which fit one budget together. */
  predicate IsRun(entries: seq<Entry>, lo: nat, hi: nat, r: Range, size: nat) {
    && lo < hi <= |entries|
    && r == Range(entries[lo].start, entries[hi - 1].end, Sum(entries[lo..hi]))
    && Sum(entries[lo..hi]) <= size
  }

  predicate IsPartOf(big: Entry, r: Range, size: nat) {
    big.tokenCount > size && big.start <= r.start && r.end <= big.end
  }

  /** An entry that fits lies whole in one range, with other whole entries or alone. */
  lemma {:induction false} FittingEntryIsWhole(tokenize: Tokenizer, text: string, entries: seq<Entry>,
                                               size: nat, overlap: nat, i: nat) returns (r: nat, lo: nat, hi: nat)
    requires overlap < size && Placed(text, entries) && i < |entries| && entries[i].tokenCount <= size
    ensures r < |Packed(tokenize, text, entries, size, overlap)|
    ensures lo <= i < hi && IsRun(entries, lo, hi, Packed(tokenize, text, entries, size, overlap)[r], size)
    decreases |entries|
  {
    hide LongestFit, Sum, IsRun, NextGroup, RangesOf, Packed, Placed;
    var k := NextGroup(entries, size);
    PackedSplits(tokenize, text, entries, size, overlap, k);
    var first := RangesOf(tokenize, text, entries[..k], size, overlap);
    if i < k {
      FirstIsRun(tokenize, text, entries, size, overlap, i);
      r, lo, hi := 0, 0, k;
    } else {
      r, lo, hi := FittingEntryIsWhole(tokenize, text, entries[k..], size, overlap, i - k);
      RunMoves(entries, k, lo, hi, Packed(tokenize, text, entries[k..], size, overlap)[r], size);
      r, lo, hi := r + |first|, lo + k, hi + k;
    }
  }

  lemma {:induction false} PackedSplits(tokenize: Tokenizer, text: string, entries: seq<Entry>, size: nat, overlap: nat, k: nat)
    requires overlap < size && Placed(text, entries) && entries != [] && k == NextGroup(entries, size)
    ensures Placed(text, entries[k..]) && entries[..k][0].start <= entries[..k][0].end <= |text|
    ensures Packed(tokenize, text, entries, size, overlap)
            == RangesOf(tokenize, text, entries[..k], size, overlap) + Packed(tokenize, text, entries[k..], size, overlap)
  {
  }

  lemma FirstIsRun(tokenize: Tokenizer, text: string, entries: seq<Entry>, size: nat, overlap: nat, i: nat)
    requires overlap < size && Placed(text, entries) && entries != []
    requires i < NextGroup(entries, size) && entries[i].tokenCount <= size
    ensures var first := RangesOf(tokenize, text, entries[..NextGroup(entries, size)], size, overlap);
            |first| == 1 && IsRun(entries, 0, NextGroup(entries, size), first[0], size)
  {
    hide LongestFit, Sum;
    var k := NextGroup(entries, size);
    LongestFitIs(entries, size, k);
    assert entries[0..k] == entries[..k];
  }

  lemma RunMoves(entries: seq<Entry>, k: nat, lo: nat, hi: nat, r: Range, size: nat)
    requires k <= |entries| && IsRun(entries[k..], lo, hi, r, size)
    ensures IsRun(entries, lo + k, hi + k, r, size)
  {
    hide Sum;
    assert entries[k..][lo..hi] == entries[lo + k..hi + k];
  }

  /** Every range is a run of whole entries that fit, or part of one entry that does not. */
  lemma {:induction false} RangesKeepEntriesWhole(tokenize: Tokenizer, text: string, entries: seq<Entry>,
                                                  size: nat, overlap: nat, r: nat) returns (lo: nat, hi: nat)
    requires GoodTokenizer(tokenize) && overlap < size && Placed(text, entries)
    requires r < |Packed(tokenize, text, entries, size, overlap)|
    ensures lo < hi <= |entries|
    ensures var range := Packed(tokenize, text, entries, size, overlap)[r];
            IsRun(entries, lo, hi, range, size) || (hi == lo + 1 && IsPartOf(entries[lo], range, size))
    decreases |entries|
  {
    hide LongestFit, Sum, GoodTokenizer, IsRun, NextGroup, RangesOf, Packed, Placed, IsPartOf;
    SomethingPacked(tokenize, text, entries, size, overlap);
    var k := NextGroup(entries, size);
    PackedSplits(tokenize, text, entries, size, overlap, k);
    var first := RangesOf(tokenize, text, entries[..k], size, overlap);
    if r < |first| {
      lo, hi := 0, k;
      if entries[0].tokenCount > size {
        FirstIsBig(tokenize, text, entries, size, overlap, r);
      } else {
        FirstIsRun(tokenize, text, entries, size, overlap, 0);
      }
    } else {
      lo, hi := RangesKeepEntriesWhole(tokenize, text, entries[k..], size, overlap, r - |first|);
      var range := Packed(tokenize, text, entries[k..], size, overlap)[r - |first|];
      if IsRun(entries[k..], lo, hi, range, size) {
        RunMoves(entries, k, lo, hi, range, size);
      }
      lo, hi := lo + k, hi + k;
    }
  }

  lemma {:induction false} SomethingPacked(tokenize: Tokenizer, text: string, entries: seq<Entry>, size: nat, overlap: nat)
    requires overlap < size && Placed(text, entries) && Packed(tokenize, text, entries, size, overlap) != []
    ensures entries != []
  {
  }

  lemma FirstIsBig(tokenize: Tokenizer, text: string, entries: seq<Entry>, size: nat, overlap: nat, r: nat)
    requires GoodTokenizer(tokenize) && overlap < size && Placed(text, entries) && entries != []
    requires entries[0].tokenCount > size
    requires r < |RangesOf(tokenize, text, entries[..NextGroup(entries, size)], size, overlap)|
    ensures NextGroup(entries, size) == 1
    ensures IsPartOf(entries[0], RangesOf(tokenize, text, entries[..1], size, overlap)[r], size)
  {
    hide WindowsOf, GoodTokenizer, IsPartOf;
    BigIsPart(tokenize, text, entries[0], size, overlap, r);
  }

  lemma BigIsPart(tokenize: Tokenizer, text: string, big: Entry, size: nat, overlap: nat, r: nat)
    requires GoodTokenizer(tokenize) && overlap < size && big.start <= big.end <= |text| && big.tokenCount > size
    requires r < |WindowsOf(tokenize(text[big.start..big.end]), size, overlap)|
    ensures IsPartOf(big, Shifted(WindowsOf(tokenize(text[big.start..big.end]), size, overlap), big.start)[r], size)
  {
    hide WindowsOf, GoodTokenizer;
    WholeTextIsGood(tokenize, text[big.start..big.end], size, overlap);
  }

  // --- the blank filter ------------------------------------------------------------------------

  /** The filter drops exactly the blank ranges, and keeps the others in order. */
  lemma {:induction false} KeptIs(text: string, ranges: seq<Range>, r: Range)
    requires RangesFit(text, ranges)
    ensures r in Kept(text, ranges) <==> r in ranges && !Blank(text[r.start..r.end])
  {
    if ranges != [] {
      var front, last := ranges[..|ranges| - 1], ranges[|ranges| - 1];
      KeptIs(text, front, r);
      assert ranges == front + [last];
    }
  }

  lemma {:induction false} KeptAdvance(text: string, ranges: seq<Range>)
    requires RangesFit(text, ranges) && Advance(ranges)
    ensures Advance(Kept(text, ranges))
  {
    if ranges != [] {
      var front, last := ranges[..|ranges| - 1], ranges[|ranges| - 1];
      KeptAdvance(text, front);
      forall r | r in Kept(text, front)
        ensures r.start < last.start && r.end < last.end
      {
        KeptIs(text, front, r);
      }
    }
  }

  lemma GoodFits(text: string, ranges: seq<Range>, size: nat)
    requires GoodRanges(text, ranges, size)
    ensures RangesFit(text, ranges)
  {
  }

  /** The filter loses nothing but whitespace. */
  lemma {:induction false} KeptIsGood(text: string, ranges: seq<Range>, size: nat)
    requires GoodRanges(text, ranges, size)
    ensures RangesFit(text, ranges) && GoodRanges(text, Kept(text, ranges), size)
    ensures forall r | r in Kept(text, ranges) :: RangeOk(text, r, size) && !Blank(text[r.start..r.end])
  {
    hide RangeOk, Kept, Blank;
    GoodFits(text, ranges, size);
    var kept := Kept(text, ranges);
    KeptAdvance(text, ranges);
    forall i | 0 <= i < |kept|
      ensures RangeOk(text, kept[i], size)
    {
      KeptIs(text, ranges, kept[i]);
    }
    forall r | r in kept
      ensures RangeOk(text, r, size) && r.start <= r.end <= |text| && !Blank(text[r.start..r.end])
    {
      KeptIs(text, ranges, r);
    }
    forall p | 0 <= p < |text| && !IsSpace(text[p])
      ensures Covered(kept, p)
    {
      var i :| 0 <= i < |ranges| && ranges[i].start <= p < ranges[i].end;
      KeptIs(text, ranges, ranges[i]);
      NotBlank(text, ranges[i].start, ranges[i].end, p);
    }
  }

  lemma NotBlank(text: string, from: nat, to: nat, p: nat)
    requires from <= p < to <= |text| && !IsSpace(text[p])
    ensures !Blank(text[from..to])
  {
    assert text[from..to][p - from] == text[p];
  }

  // --- _reference_ranges ------------------------------------------------------------------------

  /** The entries of a reference list, if it is recognised as one. */
  function EntriesIn(tokenize: Tokenizer, find: EntryFinder, text: string): seq<Entry>
    requires GoodStarts(text, find(text)) && find(text) != []
  {
    BoundsAre(text, find(text));
    EntriesOf(tokenize, text, Bounds(find(text)))
  }

  function ReferencesOf(tokenize: Tokenizer, find: EntryFinder, text: string, size: nat, overlap: nat): seq<Range>
    requires GoodTokenizer(tokenize) && GoodFinder(find) && overlap < size
  {
    assert GoodStarts(text, find(text));
    if |find(text)| < MINIMUM_ENTRIES then WindowsOf(tokenize(text), size, overlap)
    else
      var entries := EntriesIn(tokenize, find, text);
      EntriesAreListed(tokenize, find, text);
      PackedFits(tokenize, text, entries, size, overlap);
      Kept(text, Packed(tokenize, text, entries, size, overlap))
  }

  lemma EntriesAreListed(tokenize: Tokenizer, find: EntryFinder, text: string)
    requires GoodStarts(text, find(text)) && find(text) != []
    ensures var entries := EntriesIn(tokenize, find, text);
            Listed(tokenize, text, entries) && entries != [] && entries[0].start == 0
  {
    hide Tiles;
    BoundsAre(text, find(text));
    EntriesTile(tokenize, text, Bounds(find(text)));
  }

  lemma {:induction false} PackedFits(tokenize: Tokenizer, text: string, entries: seq<Entry>, size: nat, overlap: nat)
    requires GoodTokenizer(tokenize) && overlap < size && Listed(tokenize, text, entries) && entries != []
    ensures RangesFit(text, Packed(tokenize, text, entries, size, overlap))
  {
    hide Packed, Tiles, Sized, GoodTokenizer;
    PackedIsGood(tokenize, text, entries, size, overlap);
  }

  /** The ranges of a reference list are good ranges of its text. */
  lemma ReferencesAreGood(tokenize: Tokenizer, find: EntryFinder, text: string, size: nat, overlap: nat)
    requires GoodTokenizer(tokenize) && GoodFinder(find) && overlap < size
    ensures GoodRanges(text, ReferencesOf(tokenize, find, text, size, overlap), size)
  {
    hide WindowsOf, Packed, GoodTokenizer, Tiles, Sized, EntriesIn, RangeOk, Covered, Advance, Placed;
    assert GoodStarts(text, find(text));
    if |find(text)| < MINIMUM_ENTRIES {
      WholeTextIsGood(tokenize, text, size, overlap);
    } else {
      var entries := EntriesIn(tokenize, find, text);
      EntriesAreListed(tokenize, find, text);
      PackedIsGood(tokenize, text, entries, size, overlap);
      KeptIsGood(text, Packed(tokenize, text, entries, size, overlap), size);
    }
  }

  /** `_reference_ranges` */
  method ReferenceRanges(tokenize: Tokenizer, find: EntryFinder, text: string, size: nat, overlap: nat)
    returns (kept: seq<Range>)
    requires GoodTokenizer(tokenize) && GoodFinder(find) && overlap < size
    ensures kept == ReferencesOf(tokenize, find, text, size, overlap)
  {
    hide GoodTokenizer, Packed, WindowsOf, Sum, Sized, Tiles, SoFar, RangeOk, Advance, Covered, Kept, Placed,
      Listed, Open, EntriesIn, EntriesOf, GoodStarts;
    var starts := find(text);
    Finds(find, text);
    if |starts| < MINIMUM_ENTRIES {
      kept := WindowRanges(tokenize, text, size, overlap);
      return;
    }
    ghost var entries := EntriesIn(tokenize, find, text);
    EntriesAreListed(tokenize, find, text);
    EntriesArePlaced(tokenize, text, entries);
    if starts[0] > 0 {
      starts := [0] + starts;
    }
    EntriesAre(tokenize, find, text);
    var ranges: seq<Range> := [];
    var openStart: Option<nat> := None;
    var openEnd: nat := 0;
    var openTokens: nat := 0;
    ghost var lo := 0;
    NothingSoFar(tokenize, text, entries, size, overlap);
    NothingOpen(entries, size, lo, openEnd, openTokens);
    for i := 0 to |starts|
      invariant SoFar(tokenize, text, entries, size, overlap, ranges, lo)
      invariant lo <= i && (openStart.None? ==> lo == i)
      invariant Open(entries, size, lo, i, openStart, openEnd, openTokens)
    {
      var start := starts[i];
      var end := if i + 1 < |starts| then starts[i + 1] else |text|;
      var entryTokens := Count(tokenize, text[start..end]);
      EntryIs(tokenize, find, text, starts, i);
      if entryTokens > size {
        if openStart.Some? {
          ClosesOpen(tokenize, text, entries, size, overlap, ranges, lo, i, openStart.value, openEnd, openTokens);
          ranges := ranges + [Range(openStart.value, openEnd, openTokens)];
          openStart := None;
        }
        PacksBigNext(tokenize, text, entries, size, overlap, ranges, i);
        var windows := WindowRanges(tokenize, text[start..end], size, overlap);
        ranges := ranges + Shifted(windows, start);
        lo := i + 1;
        NothingOpen(entries, size, lo, openEnd, openTokens);
      } else if openStart.None? {
        Opens(entries, size, i);
        openStart, openEnd, openTokens := Some(start), end, entryTokens;
      } else if openTokens + entryTokens <= size {
        Extends(entries, size, lo, i, openStart.value, openEnd, openTokens);
        openEnd, openTokens := end, openTokens + entryTokens;
      } else {
        ClosesOpen(tokenize, text, entries, size, overlap, ranges, lo, i, openStart.value, openEnd, openTokens);
        Opens(entries, size, i);
        ranges := ranges + [Range(openStart.value, openEnd, openTokens)];
        openStart, openEnd, openTokens := Some(start), end, entryTokens;
        lo := i;
      }
    }
    if openStart.Some? {
      ClosesOpen(tokenize, text, entries, size, overlap, ranges, lo, |starts|, openStart.value, openEnd, openTokens);
      ranges := ranges + [Range(openStart.value, openEnd, openTokens)];
    }
    AllSoFar(tokenize, text, entries, size, overlap, ranges);
    PackedFits(tokenize, text, entries, size, overlap);
    kept := Kept(text, ranges);
  }

  lemma Finds(find: EntryFinder, text: string)
    requires GoodFinder(find)
    ensures GoodStarts(text, find(text))
  {
  }

  lemma EntriesAre(tokenize: Tokenizer, find: EntryFinder, text: string)
    requires GoodStarts(text, find(text)) && find(text) != []
    ensures |EntriesIn(tokenize, find, text)| == |Bounds(find(text))|
  {
  }

  lemma EntriesArePlaced(tokenize: Tokenizer, text: string, entries: seq<Entry>)
    requires Listed(tokenize, text, entries)
    ensures Placed(text, entries)
  {
  }

  lemma EntryIs(tokenize: Tokenizer, find: EntryFinder, text: string, bounds: seq<nat>, i: nat)
    requires GoodStarts(text, find(text)) && find(text) != [] && bounds == Bounds(find(text)) && i < |bounds|
    ensures var end := if i + 1 < |bounds| then bounds[i + 1] else |text|;
            && |EntriesIn(tokenize, find, text)| == |bounds|
            && bounds[i] <= end <= |text|
            && EntriesIn(tokenize, find, text)[i] == Range(bounds[i], end, Count(tokenize, text[bounds[i]..end]))
  {
    BoundsAre(text, find(text));
  }

  lemma NothingOpen(entries: seq<Entry>, size: nat, i: nat, end: nat, tokens: nat)
    requires i <= |entries|
    ensures Open(entries, size, i, i, None, end, tokens)
  {
  }

  lemma NothingSoFar(tokenize: Tokenizer, text: string, entries: seq<Entry>, size: nat, overlap: nat)
    requires overlap < size && Placed(text, entries)
    ensures SoFar(tokenize, text, entries, size, overlap, [], 0)
  {
    assert entries[0..] == entries;
  }

  lemma {:induction false} AllSoFar(tokenize: Tokenizer, text: string, entries: seq<Entry>, size: nat, overlap: nat, ranges: seq<Range>)
    requires overlap < size && Placed(text, entries)
    requires SoFar(tokenize, text, entries, size, overlap, ranges, |entries|)
    ensures Packed(tokenize, text, entries, size, overlap) == ranges
  {
  }
}
