/** The order a page's blocks are read in, for pages of one or two columns. */
module ReadingOrder {

  datatype LayoutBlock = LayoutBlock(x0: real, y0: real, x1: real, y1: real, text: string, fontSize: real)

  datatype Side = Crossing | Left | Right

  const GUTTER_TOLERANCE: real := 0.02

  function SideOf(b: LayoutBlock, pageWidth: real): Side {
    var middle, slack := pageWidth / 2.0, pageWidth * GUTTER_TOLERANCE;
    if b.x0 < middle - slack && b.x1 > middle + slack then Crossing
    else if b.x1 <= middle + slack then Left
    else Right
  }

  /** The sort key: top to bottom, then left to right. */
  predicate AtOrBefore(a: LayoutBlock, b: LayoutBlock) {
    a.y0 < b.y0 || (a.y0 == b.y0 && a.x0 <= b.x0)
  }

  predicate SameKey(a: LayoutBlock, b: LayoutBlock) {
    a.y0 == b.y0 && a.x0 == b.x0
  }

  predicate Ascending(s: seq<LayoutBlock>) {
    forall i, j | 0 <= i < j < |s| :: AtOrBefore(s[i], s[j])
  }

  // --- Python's stable sort on (y0, x0) --------------------------------------------

  function Insert(s: seq<LayoutBlock>, b: LayoutBlock): seq<LayoutBlock> {
    if s == [] || AtOrBefore(s[|s| - 1], b) then s + [b]
    else Insert(s[..|s| - 1], b) + [s[|s| - 1]]
  }

  function Sorted(s: seq<LayoutBlock>): seq<LayoutBlock> {
    if s == [] then [] else Insert(Sorted(s[..|s| - 1]), s[|s| - 1])
  }

  lemma {:induction false} InsertKeeps(s: seq<LayoutBlock>, b: LayoutBlock)
    requires Ascending(s)
    ensures Ascending(Insert(s, b))
    ensures multiset(Insert(s, b)) == multiset(s) + multiset{b}
    ensures forall c | c in Insert(s, b) :: c in s || c == b
  {
    if s == [] || AtOrBefore(s[|s| - 1], b) {
    } else {
      var front, last := s[..|s| - 1], s[|s| - 1];
      InsertKeeps(front, b);
      assert s == front + [last];
      assert forall c | c in front :: AtOrBefore(c, last);
    }
  }

  /** Sorting puts the same blocks in ascending order. */
  lemma {:induction false} SortedIs(s: seq<LayoutBlock>)
    ensures Ascending(Sorted(s))
    ensures multiset(Sorted(s)) == multiset(s)
  {
    if s != [] {
      var front, last := s[..|s| - 1], s[|s| - 1];
      SortedIs(front);
      InsertKeeps(Sorted(front), last);
      assert s == front + [last];
    }
  }

  /** Sorting what is in order changes nothing. */
  lemma {:induction false} SortedAgain(s: seq<LayoutBlock>)
    requires Ascending(s)
    ensures Sorted(s) == s
  {
    if s != [] {
      var front := s[..|s| - 1];
      SortedAgain(front);
      assert s == front + [s[|s| - 1]];
    }
  }

  /** With distinct keys there is only one ascending order of the same blocks. */
  lemma {:induction false} OneOrder(s: seq<LayoutBlock>, t: seq<LayoutBlock>)
    requires Ascending(s) && Ascending(t) && multiset(s) == multiset(t)
    requires forall i, j | 0 <= i < j < |s| :: !SameKey(s[i], s[j])
    ensures s == t
  {
    SameLength(s, t);
    if s != [] {
      SameLast(s, t);
      var front, rest, last := s[..|s| - 1], t[..|t| - 1], s[|s| - 1];
      assert s == front + [last] && t == rest + [last];
      SameRest(front, rest, last);
      OneOrder(front, rest);
    }
  }

  lemma SameRest(front: seq<LayoutBlock>, rest: seq<LayoutBlock>, last: LayoutBlock)
    requires multiset(front + [last]) == multiset(rest + [last])
    ensures multiset(front) == multiset(rest)
  {
    assert multiset(front) == multiset(front + [last]) - multiset{last};
    assert multiset(rest) == multiset(rest + [last]) - multiset{last};
  }

  lemma SameLast(s: seq<LayoutBlock>, t: seq<LayoutBlock>)
    requires Ascending(s) && Ascending(t) && multiset(s) == multiset(t) && |s| == |t| > 0
    requires forall i, j | 0 <= i < j < |s| :: !SameKey(s[i], s[j])
    ensures s[|s| - 1] == t[|t| - 1]
  {
    var a, b := s[|s| - 1], t[|t| - 1];
    assert a in multiset(t) && b in multiset(s);
    var i :| 0 <= i < |t| && t[i] == a;
    var j :| 0 <= j < |s| && s[j] == b;
    assert i < |t| - 1 ==> AtOrBefore(t[i], t[|t| - 1]);
    if j < |s| - 1 {
      assert !SameKey(s[j], s[|s| - 1]);
    }
  }

  lemma SameLength(s: seq<LayoutBlock>, t: seq<LayoutBlock>)
    requires multiset(s) == multiset(t)
    ensures |s| == |t|
  {
    assert |multiset(s)| == |s| && |multiset(t)| == |t|;
  }

  // --- the order itself -------------------------------------------------------------

  /** The blocks of one side, in the order they come. */
  function Column(s: seq<LayoutBlock>, side: Side, pageWidth: real): seq<LayoutBlock> {
    if s == [] then []
    else
      var last := s[|s| - 1];
      Column(s[..|s| - 1], side, pageWidth) + if SideOf(last, pageWidth) == side then [last] else []
  }

  /** A band of two-column text: its left column, then its right column. */
  function Band(s: seq<LayoutBlock>, pageWidth: real): seq<LayoutBlock> {
    Column(s, Left, pageWidth) + Column(s, Right, pageWidth)
  }

  predicate NoBarrier(s: seq<LayoutBlock>, pageWidth: real) {
    forall i | 0 <= i < |s| :: SideOf(s[i], pageWidth) != Crossing
  }

  /** Index of the first block that crosses the middle, or the length. */
  function FirstBarrier(s: seq<LayoutBlock>, pageWidth: real): (k: nat)
    ensures k <= |s|
    ensures NoBarrier(s[..k], pageWidth)
    ensures k < |s| ==> SideOf(s[k], pageWidth) == Crossing
  {
    if s == [] || SideOf(s[0], pageWidth) == Crossing then 0
    else
      var k := FirstBarrier(s[1..], pageWidth);
      assert s[..k + 1] == [s[0]] + s[1..][..k];
      k + 1
  }

  /** Reading order of blocks already in (y0, x0) order: band, barrier, band, barrier, ..., band. */
  function InBands(s: seq<LayoutBlock>, pageWidth: real): seq<LayoutBlock>
    decreases |s|
  {
    var k := FirstBarrier(s, pageWidth);
    if k == |s| then Band(s, pageWidth)
    else Band(s[..k], pageWidth) + [s[k]] + InBands(s[k + 1..], pageWidth)
  }

  lemma {:induction false} ColumnSplits(s: seq<LayoutBlock>, t: seq<LayoutBlock>, side: Side, pageWidth: real)
    ensures Column(s + t, side, pageWidth) == Column(s, side, pageWidth) + Column(t, side, pageWidth)
    decreases |t|
  {
    if t == [] {
      assert s + t == s;
    } else {
      assert (s + t)[..|s + t| - 1] == s + t[..|t| - 1];
      ColumnSplits(s, t[..|t| - 1], side, pageWidth);
    }
  }

  /** A column keeps the order and the blocks of its side, and has no others. */
  lemma {:induction false} ColumnIs(s: seq<LayoutBlock>, side: Side, pageWidth: real)
    requires Ascending(s)
    ensures Ascending(Column(s, side, pageWidth))
    ensures forall b | b in Column(s, side, pageWidth) :: b in s && SideOf(b, pageWidth) == side
  {
    if s != [] {
      var front := s[..|s| - 1];
      ColumnIs(front, side, pageWidth);
      var column := Column(front, side, pageWidth);
      forall i | 0 <= i < |column|
        ensures AtOrBefore(column[i], s[|s| - 1])
      {
        assert column[i] in front;
      }
    }
  }

  lemma {:induction false} ColumnGrows(s: seq<LayoutBlock>, side: Side, pageWidth: real)
    requires s != []
    ensures multiset(Column(s, side, pageWidth))
            == multiset(Column(s[..|s| - 1], side, pageWidth))
               + if SideOf(s[|s| - 1], pageWidth) == side then multiset{s[|s| - 1]} else multiset{}
  {
  }

  /** Each block is on exactly one side. */
  lemma {:induction false} ColumnsPartition(s: seq<LayoutBlock>, pageWidth: real)
    ensures multiset(s) == multiset(Column(s, Left, pageWidth)) + multiset(Column(s, Right, pageWidth))
                           + multiset(Column(s, Crossing, pageWidth))
  {
    hide SideOf, Column;
    if s == [] {
      EmptyColumns(pageWidth);
    } else {
      var front := s[..|s| - 1];
      ColumnsPartition(front, pageWidth);
      ColumnGrows(s, Left, pageWidth);
      ColumnGrows(s, Right, pageWidth);
      ColumnGrows(s, Crossing, pageWidth);
      assert s == front + [s[|s| - 1]];
    }
  }

  lemma {:induction false} EmptyColumns(pageWidth: real)
    ensures Column([], Left, pageWidth) == Column([], Right, pageWidth) == Column([], Crossing, pageWidth) == []
  {
  }

  lemma {:induction false} NoBarrierNoCrossing(s: seq<LayoutBlock>, pageWidth: real)
    requires NoBarrier(s, pageWidth)
    ensures Column(s, Crossing, pageWidth) == []
  {
    if s != [] {
      NoBarrierNoCrossing(s[..|s| - 1], pageWidth);
    }
  }

  /** A band without barriers: all its left blocks, ascending, then all its right blocks, ascending. */
  lemma {:induction false} BandIs(s: seq<LayoutBlock>, pageWidth: real)
    requires Ascending(s) && NoBarrier(s, pageWidth)
    ensures InBands(s, pageWidth) == Column(s, Left, pageWidth) + Column(s, Right, pageWidth)
    ensures multiset(InBands(s, pageWidth)) == multiset(s)
    ensures Ascending(Column(s, Left, pageWidth)) && Ascending(Column(s, Right, pageWidth))
  {
    ColumnsPartition(s, pageWidth);
    NoBarrierNoCrossing(s, pageWidth);
    ColumnIs(s, Left, pageWidth);
    ColumnIs(s, Right, pageWidth);
  }

  lemma BandPermutes(s: seq<LayoutBlock>, pageWidth: real)
    requires NoBarrier(s, pageWidth)
    ensures multiset(Band(s, pageWidth)) == multiset(s)
  {
    hide Column;
    ColumnsPartition(s, pageWidth);
    NoBarrierNoCrossing(s, pageWidth);
  }

  /** Nothing is lost, added or repeated. */
  lemma {:induction false} InBandsPermutes(s: seq<LayoutBlock>, pageWidth: real)
    ensures multiset(InBands(s, pageWidth)) == multiset(s)
    decreases |s|
  {
    hide Band, SideOf, FirstBarrier, NoBarrier;
    var k := FirstBarrier(s, pageWidth);
    BandPermutes(s[..k], pageWidth);
    if k == |s| {
      assert s[..k] == s;
    } else {
      var rest := s[k + 1..];
      InBandsPermutes(rest, pageWidth);
      assert s == s[..k] + [s[k]] + rest;
      assert InBands(s, pageWidth) == Band(s[..k], pageWidth) + [s[k]] + InBands(rest, pageWidth);
    }
  }

  lemma {:induction false} InBandsIs(s: seq<LayoutBlock>, k: nat, pageWidth: real)
    requires k == FirstBarrier(s, pageWidth)
    ensures InBands(s, pageWidth)
            == if k == |s| then Band(s, pageWidth)
               else Band(s[..k], pageWidth) + [s[k]] + InBands(s[k + 1..], pageWidth)
  {
  }

  /** Every block that crosses the middle, not only the first, separates what precedes it from what follows. */
  lemma {:induction false} BarrierSeparates(s: seq<LayoutBlock>, k: nat, pageWidth: real)
    requires k < |s| && SideOf(s[k], pageWidth) == Crossing
    ensures InBands(s, pageWidth) == InBands(s[..k], pageWidth) + [s[k]] + InBands(s[k + 1..], pageWidth)
    decreases |s|
  {
    hide Band, SideOf, NoBarrier, InBands;
    var first := FirstBarrier(s, pageWidth);
    BarrierComesFirst(s, k, pageWidth);
    FirstBarrierIs(s[..k], first, pageWidth);
    assert s[..k][..first] == s[..first];
    InBandsIs(s, first, pageWidth);
    InBandsIs(s[..k], first, pageWidth);
    if first < k {
      var rest := s[first + 1..];
      BarrierSeparates(rest, k - first - 1, pageWidth);
      assert rest[..k - first - 1] == s[..k][first + 1..];
      assert rest[k - first..] == s[k + 1..];
    }
  }

  lemma {:induction false} BeforeTheBarrier(s: seq<LayoutBlock>, i: nat, pageWidth: real)
    requires i < FirstBarrier(s, pageWidth)
    ensures SideOf(s[i], pageWidth) != Crossing
  {
    assert s[..FirstBarrier(s, pageWidth)][i] == s[i];
  }

  lemma {:induction false} BarrierComesFirst(s: seq<LayoutBlock>, k: nat, pageWidth: real)
    requires k < |s| && SideOf(s[k], pageWidth) == Crossing
    ensures FirstBarrier(s, pageWidth) <= k
    ensures NoBarrier(s[..k][..FirstBarrier(s, pageWidth)], pageWidth)
    ensures FirstBarrier(s, pageWidth) < k ==> SideOf(s[..k][FirstBarrier(s, pageWidth)], pageWidth) == Crossing
  {
    var first := FirstBarrier(s, pageWidth);
    if k < first {
      BeforeTheBarrier(s, k, pageWidth);
    }
    assert s[..k][..first] == s[..first];
  }

  /** What is above a barrier on the page is read before it, and what is below it after it. */
  lemma {:induction false} BarrierIsReadInPlace(blocks: seq<LayoutBlock>, k: nat, pageWidth: real)
    requires k < |Sorted(blocks)| && SideOf(Sorted(blocks)[k], pageWidth) == Crossing
    ensures var s, ordered := Sorted(blocks), InBands(Sorted(blocks), pageWidth);
            && |ordered| == |s| && ordered[k] == s[k]
            && multiset(ordered[..k]) == multiset(s[..k])
            && multiset(ordered[k + 1..]) == multiset(s[k + 1..])
  {
    hide Sorted, InBands, SideOf;
    var s := Sorted(blocks);
    var above, below := InBands(s[..k], pageWidth), InBands(s[k + 1..], pageWidth);
    BarrierSeparates(s, k, pageWidth);
    InBandsPermutes(s[..k], pageWidth);
    InBandsPermutes(s[k + 1..], pageWidth);
    SameLength(above, s[..k]);
    SameLength(below, s[k + 1..]);
    var ordered := InBands(s, pageWidth);
    assert ordered[..k] == above && ordered[k + 1..] == below;
  }

  lemma {:induction false} FirstBarrierIs(s: seq<LayoutBlock>, k: nat, pageWidth: real)
    requires k <= |s| && NoBarrier(s[..k], pageWidth)
    requires k < |s| ==> SideOf(s[k], pageWidth) == Crossing
    ensures FirstBarrier(s, pageWidth) == k
  {
    var first := FirstBarrier(s, pageWidth);
    assert first < k ==> SideOf(s[..k][first], pageWidth) != Crossing;
    if k < first {
      BeforeTheBarrier(s, k, pageWidth);
    }
  }

  lemma {:induction false} NextBlock(s: seq<LayoutBlock>, b: LayoutBlock, pageWidth: real)
    ensures SideOf(b, pageWidth) == Crossing ==> InBands(s + [b], pageWidth) == InBands(s, pageWidth) + [b]
  {
    if SideOf(b, pageWidth) == Crossing {
      BarrierSeparates(s + [b], |s|, pageWidth);
      assert (s + [b])[..|s|] == s && (s + [b])[|s| + 1..] == [];
    }
  }

  // --- the order in coordinates -------------------------------------------------------------

  /** It reaches past the middle on both sides, by more than a fiftieth of the page's width. */
  predicate SpansMiddle(b: LayoutBlock, pageWidth: real) {
    b.x0 < pageWidth / 2.0 - pageWidth * 0.02 && b.x1 > pageWidth / 2.0 + pageWidth * 0.02
  }

  /** It ends by the middle, give or take a fiftieth of the page's width. */
  predicate EndsByMiddle(b: LayoutBlock, pageWidth: real) {
    b.x1 <= pageWidth / 2.0 + pageWidth * 0.02
  }

  /**
   `a` may be read before `b`. A block that spans the middle comes after all that stands above it and before
   all that stands below it; so do two blocks of one column. A block of the right column comes before one of
   the left only if a block that spans the middle stands between them.
   */
  ghost predicate MayPrecede(blocks: seq<LayoutBlock>, a: LayoutBlock, b: LayoutBlock, pageWidth: real) {
    && (SpansMiddle(a, pageWidth) || SpansMiddle(b, pageWidth)
        || (EndsByMiddle(a, pageWidth) <==> EndsByMiddle(b, pageWidth)) ==>
          a.y0 < b.y0 || (a.y0 == b.y0 && a.x0 <= b.x0))
    && (EndsByMiddle(b, pageWidth) && !EndsByMiddle(a, pageWidth) && !SpansMiddle(a, pageWidth) ==>
          exists c ::
            && c in blocks && SpansMiddle(c, pageWidth)
            && (a.y0 < c.y0 || (a.y0 == c.y0 && a.x0 <= c.x0))
            && (c.y0 < b.y0 || (c.y0 == b.y0 && c.x0 <= b.x0)))
  }

  ghost predicate ReadsInOrder(blocks: seq<LayoutBlock>, ordered: seq<LayoutBlock>, pageWidth: real) {
    forall i, j | 0 <= i < j < |ordered| :: MayPrecede(blocks, ordered[i], ordered[j], pageWidth)
  }

  lemma InBoth(s: seq<LayoutBlock>, t: seq<LayoutBlock>, b: LayoutBlock)
    requires multiset(s) == multiset(t) && b in s
    ensures b in t
  {
    assert b in multiset(s);
  }

  lemma MoreBlocks(s: seq<LayoutBlock>, t: seq<LayoutBlock>, a: LayoutBlock, b: LayoutBlock, pageWidth: real)
    requires MayPrecede(s, a, b, pageWidth) && forall c | c in s :: c in t
    ensures MayPrecede(t, a, b, pageWidth)
  {
  }

  lemma BandReads(s: seq<LayoutBlock>, all: seq<LayoutBlock>, pageWidth: real)
    requires Ascending(s) && NoBarrier(s, pageWidth)
    ensures ReadsInOrder(all, Band(s, pageWidth), pageWidth)
  {
    hide Column, NoBarrier;
    var left, right := Column(s, Left, pageWidth), Column(s, Right, pageWidth);
    ColumnIs(s, Left, pageWidth);
    ColumnIs(s, Right, pageWidth);
    forall i, j | 0 <= i < j < |left + right|
      ensures MayPrecede(all, (left + right)[i], (left + right)[j], pageWidth)
    {
      assert i < |left| ==> left[i] in left;
      assert j < |left| ==> left[j] in left;
      assert i >= |left| ==> right[i - |left|] in right;
      assert j >= |left| ==> right[j - |left|] in right;
    }
  }

  lemma AscendingParts(s: seq<LayoutBlock>, k: nat)
    requires Ascending(s) && k <= |s|
    ensures Ascending(s[..k]) && (k < |s| ==> Ascending(s[k + 1..]))
  {
  }

  /** What stands above a barrier may precede it and whatever stands below it. */
  lemma AboveOrBelow(s: seq<LayoutBlock>, k: nat, a: LayoutBlock, b: LayoutBlock, pageWidth: real)
    requires Ascending(s) && k < |s| && SideOf(s[k], pageWidth) == Crossing
    requires a in s[..k + 1] && b in s[k..]
    ensures MayPrecede(s, a, b, pageWidth)
  {
    var i :| 0 <= i <= k && s[i] == a;
    var j :| 0 <= j < |s| - k && s[k..][j] == b;
    assert s[k + j] == b;
    assert AtOrBefore(a, b);
    assert i < k ==> AtOrBefore(a, s[k]);
    assert j > 0 ==> AtOrBefore(s[k], b);
    assert s[k] in s;
  }

  lemma AcrossTheBarrier(s: seq<LayoutBlock>, k: nat, band: seq<LayoutBlock>, rest: seq<LayoutBlock>, i: nat, j: nat,
                         pageWidth: real)
    requires Ascending(s) && k < |s| && SideOf(s[k], pageWidth) == Crossing
    requires multiset(band) == multiset(s[..k]) && multiset(rest) == multiset(s[k + 1..])
    requires i <= |band| <= j < |band + [s[k]] + rest| && i < j
    ensures MayPrecede(s, (band + [s[k]] + rest)[i], (band + [s[k]] + rest)[j], pageWidth)
  {
    hide SideOf, MayPrecede, Ascending;
    var a, b := (band + [s[k]] + rest)[i], (band + [s[k]] + rest)[j];
    if i < |band| {
      assert a == band[i];
      InBoth(band, s[..k], a);
    } else {
      assert a == s[k];
    }
    if j > |band| {
      assert b == rest[j - |band| - 1];
      InBoth(rest, s[k + 1..], b);
    } else {
      assert b == s[k];
    }
    assert s[..k + 1] == s[..k] + [s[k]] && s[k..] == [s[k]] + s[k + 1..];
    AboveOrBelow(s, k, a, b, pageWidth);
  }

  lemma {:induction false} InBandsReads(s: seq<LayoutBlock>, pageWidth: real)
    requires Ascending(s)
    ensures ReadsInOrder(s, InBands(s, pageWidth), pageWidth)
    decreases |s|
  {
    hide Band, NoBarrier, Ascending, SideOf, MayPrecede, InBands;
    var k := FirstBarrier(s, pageWidth);
    InBandsIs(s, k, pageWidth);
    AscendingParts(s, k);
    BandReads(s[..k], s, pageWidth);
    if k == |s| {
      assert s[..k] == s;
    } else {
      var band, rest := Band(s[..k], pageWidth), InBands(s[k + 1..], pageWidth);
      BandPermutes(s[..k], pageWidth);
      InBandsPermutes(s[k + 1..], pageWidth);
      InBandsReads(s[k + 1..], pageWidth);
      var ordered := band + [s[k]] + rest;
      forall i, j | 0 <= i < j < |ordered|
        ensures MayPrecede(s, ordered[i], ordered[j], pageWidth)
      {
        if j < |band| {
          assert ordered[i] == band[i] && ordered[j] == band[j];
        } else if i > |band| {
          var p, q := i - |band| - 1, j - |band| - 1;
          assert ordered[i] == rest[p] && ordered[j] == rest[q];
          MoreBlocks(s[k + 1..], s, rest[p], rest[q], pageWidth);
        } else {
          AcrossTheBarrier(s, k, band, rest, i, j, pageWidth);
        }
      }
    }
  }

  /** The reading order, in coordinates. */
  lemma {:induction false} OrderReads(blocks: seq<LayoutBlock>, pageWidth: real)
    ensures ReadsInOrder(blocks, InBands(Sorted(blocks), pageWidth), pageWidth)
  {
    hide InBands, Sorted, MayPrecede;
    SortedIs(blocks);
    var ordered := InBands(Sorted(blocks), pageWidth);
    InBandsReads(Sorted(blocks), pageWidth);
    forall c | c in Sorted(blocks)
      ensures c in blocks
    {
      InBoth(Sorted(blocks), blocks, c);
    }
    forall i, j | 0 <= i < j < |ordered|
      ensures MayPrecede(blocks, ordered[i], ordered[j], pageWidth)
    {
      MoreBlocks(Sorted(blocks), blocks, ordered[i], ordered[j], pageWidth);
    }
  }

  /**
   `reading_order`. The two columns of the open band are lists that each barrier sorts, appends and
   clears.
   */
  method Order(blocks: seq<LayoutBlock>, pageWidth: real) returns (ordered: seq<LayoutBlock>)
    ensures ordered == InBands(Sorted(blocks), pageWidth)
    ensures multiset(ordered) == multiset(blocks)
    ensures ReadsInOrder(blocks, ordered, pageWidth)
  {
    hide InBands, Band, Column, NoBarrier, SideOf, Ascending, Insert, MayPrecede;
    OrderReads(blocks, pageWidth);
    var sorted := Sorted(blocks);
    SortedIs(blocks);
    InBandsPermutes(sorted, pageWidth);
    ordered := [];
    var left: seq<LayoutBlock>, right: seq<LayoutBlock> := [], [];
    ghost var start := 0;
    OpenEmpty(sorted, 0, pageWidth);
    for i := 0 to |sorted|
      invariant start <= i && Opened(sorted, start, i, ordered, left, right, pageWidth)
    {
      var block := sorted[i];
      var side := SideOf(block, pageWidth);
      match side {
        case Crossing =>
          Closes(sorted, start, i, ordered, left, right, pageWidth);
          ordered := ordered + Sorted(left) + Sorted(right);
          left, right := [], [];
          OpensAgain(sorted, i, ordered, pageWidth);
          ordered := ordered + [block];
          start := i + 1;
        case Left =>
          Grows(sorted, start, i, ordered, left, right, pageWidth);
          left := left + [block];
        case Right =>
          Grows(sorted, start, i, ordered, left, right, pageWidth);
          right := right + [block];
      }
    }
    Closes(sorted, start, |sorted|, ordered, left, right, pageWidth);
    assert sorted[..|sorted|] == sorted;
    ordered := ordered + Sorted(left) + Sorted(right);
  }

  /** The loop's state: everything before the open band is out, and the band is in its two columns. */
  ghost predicate Opened(s: seq<LayoutBlock>, start: nat, i: nat, ordered: seq<LayoutBlock>,
                         left: seq<LayoutBlock>, right: seq<LayoutBlock>, pageWidth: real)
    requires start <= i <= |s|
  {
    && Ascending(s)
    && (start > 0 ==> SideOf(s[start - 1], pageWidth) == Crossing)
    && NoBarrier(s[start..i], pageWidth)
    && left == Column(s[start..i], Left, pageWidth)
    && right == Column(s[start..i], Right, pageWidth)
    && ordered + Band(s[start..i], pageWidth) == InBands(s[..i], pageWidth)
  }

  lemma OpenEmpty(s: seq<LayoutBlock>, i: nat, pageWidth: real)
    requires i == 0 && Ascending(s)
    ensures Opened(s, 0, 0, [], [], [], pageWidth)
  {
    assert s[0..0] == [] && s[..0] == [];
  }

  /** Closing the band: the re-sort changes nothing. */
  lemma {:induction false} Closes(s: seq<LayoutBlock>, start: nat, i: nat, ordered: seq<LayoutBlock>,
               left: seq<LayoutBlock>, right: seq<LayoutBlock>, pageWidth: real)
    requires start <= i <= |s| && Opened(s, start, i, ordered, left, right, pageWidth)
    ensures Ascending(s)
    ensures Sorted(left) == left && Sorted(right) == right
    ensures ordered + Sorted(left) + Sorted(right) == InBands(s[..i], pageWidth)
  {
    hide InBands, Column, NoBarrier, SideOf, Sorted;
    ColumnIs(s[start..i], Left, pageWidth);
    ColumnIs(s[start..i], Right, pageWidth);
    SortedAgain(left);
    SortedAgain(right);
    assert ordered + left + right == ordered + (left + right);
  }

  lemma {:induction false} OpensAgain(s: seq<LayoutBlock>, i: nat, ordered: seq<LayoutBlock>, pageWidth: real)
    requires i < |s| && SideOf(s[i], pageWidth) == Crossing && Ascending(s)
    requires ordered == InBands(s[..i], pageWidth)
    ensures Opened(s, i + 1, i + 1, ordered + [s[i]], [], [], pageWidth)
  {
    hide InBands;
    NextBlock(s[..i], s[i], pageWidth);
    assert s[..i + 1] == s[..i] + [s[i]];
    assert s[i + 1..i + 1] == [];
  }

  lemma Grows(s: seq<LayoutBlock>, start: nat, i: nat, ordered: seq<LayoutBlock>,
              left: seq<LayoutBlock>, right: seq<LayoutBlock>, pageWidth: real)
    requires start <= i < |s| && Opened(s, start, i, ordered, left, right, pageWidth)
    requires SideOf(s[i], pageWidth) != Crossing
    ensures Opened(s, start, i + 1, ordered,
                   left + (if SideOf(s[i], pageWidth) == Left then [s[i]] else []),
                   right + (if SideOf(s[i], pageWidth) == Right then [s[i]] else []), pageWidth)
    ensures SideOf(s[i], pageWidth) == Left ==> right + [] == right
    ensures SideOf(s[i], pageWidth) == Right ==> left + [] == left
  {
    hide InBands;
    BandGrows(s, start, i, ordered, pageWidth);
    assert s[start..i + 1][..i - start] == s[start..i];
  }

  /** A block of a column goes to the end of its column in the open band, and nothing before the band moves. */
  lemma {:induction false} BandGrows(s: seq<LayoutBlock>, start: nat, i: nat, ordered: seq<LayoutBlock>, pageWidth: real)
    requires start <= i < |s| && NoBarrier(s[start..i], pageWidth) && SideOf(s[i], pageWidth) != Crossing
    requires ordered + Band(s[start..i], pageWidth) == InBands(s[..i], pageWidth)
    requires start > 0 ==> SideOf(s[start - 1], pageWidth) == Crossing
    ensures NoBarrier(s[start..i + 1], pageWidth)
    ensures ordered + Band(s[start..i + 1], pageWidth) == InBands(s[..i + 1], pageWidth)
  {
    hide Band, InBands, SideOf;
    var band, grown := s[start..i], s[start..i + 1];
    assert grown == band + [s[i]];
    BandAfterBarrier(s, start, i, pageWidth);
    BandAfterBarrier(s, start, i + 1, pageWidth);
    var head := if start == 0 then [] else InBands(s[..start - 1], pageWidth) + [s[start - 1]];
    assert ordered + Band(band, pageWidth) == head + Band(band, pageWidth);
    SameFront(ordered, head, Band(band, pageWidth));
  }

  lemma SameFront(a: seq<LayoutBlock>, b: seq<LayoutBlock>, c: seq<LayoutBlock>)
    requires a + c == b + c
    ensures a == b
  {
    assert |a| == |b|;
    assert a == (a + c)[..|a|] && b == (b + c)[..|b|];
  }

  /** Blocks after a barrier, with none among them, are one band. */
  lemma {:induction false} BandAfterBarrier(s: seq<LayoutBlock>, start: nat, i: nat, pageWidth: real)
    requires start <= i <= |s| && NoBarrier(s[start..i], pageWidth)
    requires start > 0 ==> SideOf(s[start - 1], pageWidth) == Crossing
    ensures InBands(s[..i], pageWidth)
            == (if start == 0 then [] else InBands(s[..start - 1], pageWidth) + [s[start - 1]])
               + Band(s[start..i], pageWidth)
  {
    hide Band, SideOf;
    var band := s[start..i];
    assert band[..|band|] == band;
    FirstBarrierIs(band, |band|, pageWidth);
    if start == 0 {
      assert s[..i] == band;
    } else {
      BarrierSeparates(s[..i], start - 1, pageWidth);
      assert s[..i][..start - 1] == s[..start - 1];
      assert s[..i][start..] == band;
    }
  }

  /** With distinct (y0, x0) the reading order does not depend on the order the blocks came in. */
  lemma {:induction false} OrderIsCanonical(a: seq<LayoutBlock>, b: seq<LayoutBlock>, pageWidth: real)
    requires multiset(a) == multiset(b)
    requires forall i, j | 0 <= i < j < |a| :: !SameKey(a[i], a[j])
    ensures InBands(Sorted(a), pageWidth) == InBands(Sorted(b), pageWidth)
  {
    SortedIs(a);
    SortedIs(b);
    DistinctStays(a, Sorted(a));
    OneOrder(Sorted(a), Sorted(b));
  }

  /** Distinctness of keys is a property of the multiset. */
  lemma {:induction false} DistinctStays(a: seq<LayoutBlock>, b: seq<LayoutBlock>)
    requires multiset(a) == multiset(b)
    requires forall i, j | 0 <= i < j < |a| :: !SameKey(a[i], a[j])
    ensures forall i, j | 0 <= i < j < |b| :: !SameKey(b[i], b[j])
  {
    forall i, j | 0 <= i < j < |b|
      ensures !SameKey(b[i], b[j])
    {
      assert b[i] in multiset(a) && b[j] in multiset(a);
      var p :| 0 <= p < |a| && a[p] == b[i];
      var q :| 0 <= q < |a| && a[q] == b[j];
      if p == q {
        TwiceMeansTwice(b, i, j);
        OnceMeansOnce(a, p);
      }
    }
  }

  lemma TwiceMeansTwice(s: seq<LayoutBlock>, i: nat, j: nat)
    requires i < j < |s| && s[i] == s[j]
    ensures multiset(s)[s[i]] >= 2
  {
    assert s == s[..i] + [s[i]] + s[i + 1..j] + [s[j]] + s[j + 1..];
  }

  lemma OnceMeansOnce(s: seq<LayoutBlock>, p: nat)
    requires p < |s| && forall i, j | 0 <= i < j < |s| :: !SameKey(s[i], s[j])
    ensures multiset(s)[s[p]] == 1
  {
    assert s == s[..p] + [s[p]] + s[p + 1..];
    assert s[p] !in s[..p] && s[p] !in s[p + 1..];
  }
}
