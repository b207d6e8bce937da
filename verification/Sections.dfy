/** A paper's sections, found in the blocks of its pages. */
module Sections {
  import opened Identifiers
  import opened Text

  /**
   The tests a block's text is put to: `heading` is `is_heading` after `_normalise_heading_spacing`,
   given the block's and the body's font size; `title` is the heading's text; `references` is the
   pattern a reference list's title matches.
   */
  datatype Rules = Rules(heading: (string, real, real) -> bool, title: string -> string, references: string -> bool)

  datatype SectionBlock = SectionBlock(text: string, pageNumber: nat)

  datatype Section = Section(title: Option<string>, blocks: seq<SectionBlock>)

  predicate IsReferences(rules: Rules, s: Section) {
    s.title.Some? && rules.references(s.title.value)
  }

  // --- the body's font size -----------------------------------------------------------

  function WeightIn(blocks: seq<TextBlock>, size: real): nat {
    if blocks == [] then 0
    else
      var last := blocks[|blocks| - 1];
      WeightIn(blocks[..|blocks| - 1], size) + if last.fontSize == size then |last.text| else 0
  }

  /** How many characters of the document are set in `size`. */
  function Weight(pages: seq<Page>, size: real): nat {
    if pages == [] then 0
    else Weight(pages[..|pages| - 1], size) + WeightIn(pages[|pages| - 1].blocks, size)
  }

  predicate Occurs(pages: seq<Page>, size: real) {
    exists i, j | 0 <= i < |pages| && 0 <= j < |pages[i].blocks| :: pages[i].blocks[j].fontSize == size
  }

  /** `size` is set in more characters than any other, or in as many and is the smaller. */
  ghost predicate IsBodySize(pages: seq<Page>, size: real) {
    && Occurs(pages, size)
    && forall other | Occurs(pages, other) ::
         Weight(pages, other) < Weight(pages, size) || (Weight(pages, other) == Weight(pages, size) && size <= other)
  }

  /** There is at most one such size. */
  lemma BodySizeIsUnique(pages: seq<Page>, a: real, b: real)
    requires IsBodySize(pages, a) && IsBodySize(pages, b)
    ensures a == b
  {
  }

  predicate Sized(blocks: seq<TextBlock>, size: real) {
    exists j | 0 <= j < |blocks| :: blocks[j].fontSize == size
  }

  /** The dictionary of the first loop, for the blocks of `before` and the first `n` of `blocks`. */
  ghost predicate Weighed(weights: map<real, nat>, before: seq<Page>, blocks: seq<TextBlock>) {
    && (forall z | z in weights :: weights[z] == Weight(before, z) + WeightIn(blocks, z))
    && (forall z :: z in weights <==> Occurs(before, z) || Sized(blocks, z))
  }

  lemma {:induction false} AbsentWeighsNothing(pages: seq<Page>, z: real)
    requires !Occurs(pages, z)
    ensures Weight(pages, z) == 0
  {
    if pages != [] {
      var front := pages[..|pages| - 1];
      AbsentWeighsNothing(front, z);
      AbsentFromBlocks(pages[|pages| - 1].blocks, z);
    }
  }

  lemma {:induction false} AbsentFromBlocks(blocks: seq<TextBlock>, z: real)
    requires forall j | 0 <= j < |blocks| :: blocks[j].fontSize != z
    ensures WeightIn(blocks, z) == 0
  {
    if blocks != [] {
      AbsentFromBlocks(blocks[..|blocks| - 1], z);
    }
  }

  /** The size `is_heading` compares with: the body size, or zero where there is no text. */
  ghost function BodySizeOf(pages: seq<Page>): real {
    if exists size :: IsBodySize(pages, size) then (var size :| IsBodySize(pages, size); size) else 0.0
  }

  /** `body_font_size` */
  method BodyFontSize(pages: seq<Page>) returns (size: real)
    ensures if exists i | 0 <= i < |pages| :: pages[i].blocks != [] then IsBodySize(pages, size) else size == 0.0
    ensures size == BodySizeOf(pages)
  {
    var weights: map<real, nat> := map[];
    var sizes: seq<real> := [];
    for i := 0 to |pages|
      invariant Weighed(weights, pages[..i], []) && KeysOf(sizes, weights)
    {
      var blocks := pages[i].blocks;
      for j := 0 to |blocks|
        invariant Weighed(weights, pages[..i], blocks[..j]) && KeysOf(sizes, weights)
      {
        var block := blocks[j];
        WeighsOne(weights, pages[..i], blocks, j);
        if block.fontSize !in weights {
          sizes := sizes + [block.fontSize];
        }
        weights := weights[block.fontSize := (if block.fontSize in weights then weights[block.fontSize] else 0) + |block.text|];
      }
      WeighsPage(weights, pages, i);
    }
    assert pages[..|pages|] == pages;
    if sizes == [] {
      NothingOccurs(pages, weights);
      NoBodySize(pages);
      return 0.0;
    }
    size := Heaviest(sizes, weights);
    SomethingOccurs(pages, weights, size);
    BodySizeIsUnique(pages, size, BodySizeOf(pages));
  }

  lemma NoBodySize(pages: seq<Page>)
    requires forall i | 0 <= i < |pages| :: pages[i].blocks == []
    ensures forall size :: !IsBodySize(pages, size)
  {
  }

  /** The dictionary's keys, in the order they were first set. */
  predicate KeysOf(sizes: seq<real>, weights: map<real, nat>) {
    (forall k | 0 <= k < |sizes| :: sizes[k] in weights) && (forall z | z in weights :: z in sizes)
  }

  /** The size with the greatest weight, and the smallest of those. */
  method Heaviest(sizes: seq<real>, weights: map<real, nat>) returns (size: real)
    requires sizes != [] && KeysOf(sizes, weights)
    ensures size in weights
    ensures forall z | z in weights :: weights[z] < weights[size] || (weights[z] == weights[size] && size <= z)
  {
    size := sizes[0];
    for k := 1 to |sizes|
      invariant size in weights
      invariant forall h | 0 <= h < k ::
                  weights[sizes[h]] < weights[size] || (weights[sizes[h]] == weights[size] && size <= sizes[h])
    {
      var z := sizes[k];
      if weights[z] > weights[size] || (weights[z] == weights[size] && z < size) {
        size := z;
      }
    }
  }

  lemma SomethingOccurs(pages: seq<Page>, weights: map<real, nat>, size: real)
    requires Weighed(weights, pages, []) && size in weights
    requires forall z | z in weights :: weights[z] < weights[size] || (weights[z] == weights[size] && size <= z)
    ensures IsBodySize(pages, size)
    ensures exists i | 0 <= i < |pages| :: pages[i].blocks != []
  {
    assert Occurs(pages, size);
    forall z | z in weights
      ensures weights[z] == Weight(pages, z)
    {
    }
  }

  lemma NothingOccurs(pages: seq<Page>, weights: map<real, nat>)
    requires Weighed(weights, pages, []) && forall z :: z !in weights
    ensures forall i | 0 <= i < |pages| :: pages[i].blocks == []
  {
    forall i | 0 <= i < |pages|
      ensures pages[i].blocks == []
    {
      if pages[i].blocks != [] {
        FirstOccurs(pages, i);
      }
    }
  }

  lemma FirstOccurs(pages: seq<Page>, i: nat)
    requires i < |pages| && pages[i].blocks != []
    ensures Occurs(pages, pages[i].blocks[0].fontSize)
  {
  }

  lemma WeighsOne(weights: map<real, nat>, before: seq<Page>, blocks: seq<TextBlock>, j: nat)
    requires j < |blocks| && Weighed(weights, before, blocks[..j])
    ensures var block := blocks[j];
            Weighed(weights[block.fontSize := (if block.fontSize in weights then weights[block.fontSize] else 0) + |block.text|],
                    before, blocks[..j + 1])
  {
    var block := blocks[j];
    assert blocks[..j + 1][..j] == blocks[..j];
    if block.fontSize !in weights {
      AbsentWeighsNothing(before, block.fontSize);
      AbsentFromBlocks(blocks[..j], block.fontSize);
    }
    var grown := weights[block.fontSize := (if block.fontSize in weights then weights[block.fontSize] else 0) + |block.text|];
    forall z
      ensures z in grown <==> Occurs(before, z) || Sized(blocks[..j + 1], z)
    {
      if z == block.fontSize {
        assert blocks[..j + 1][j].fontSize == z;
      } else {
        assert forall k | 0 <= k < j :: blocks[..j + 1][k] == blocks[..j][k];
        assert Sized(blocks[..j + 1], z) ==> Sized(blocks[..j], z);
      }
    }
  }

  lemma WeighsPage(weights: map<real, nat>, pages: seq<Page>, i: nat)
    requires i < |pages| && Weighed(weights, pages[..i], pages[i].blocks[..|pages[i].blocks|])
    ensures Weighed(weights, pages[..i + 1], [])
  {
    var blocks := pages[i].blocks;
    assert blocks[..|blocks|] == blocks;
    assert pages[..i + 1][..i] == pages[..i];
    forall z
      ensures Occurs(pages[..i + 1], z) <==> Occurs(pages[..i], z) || Sized(blocks, z)
    {
      if Occurs(pages[..i], z) {
        var p, j :| 0 <= p < i && 0 <= j < |pages[..i][p].blocks| && pages[..i][p].blocks[j].fontSize == z;
        assert pages[..i + 1][p].blocks[j].fontSize == z;
      }
      if j :| 0 <= j < |blocks| && blocks[j].fontSize == z {
        assert pages[..i + 1][i].blocks[j].fontSize == z;
      }
      if Occurs(pages[..i + 1], z) {
        var p, j :| 0 <= p < i + 1 && 0 <= j < |pages[..i + 1][p].blocks| && pages[..i + 1][p].blocks[j].fontSize == z;
        if p < i {
          assert pages[..i][p].blocks[j].fontSize == z;
        }
      }
    }
  }

  // --- splitting at headings -------------------------------------------------------------

  /** A block in its place, and whether it is a heading. */
  datatype FlatBlock = FlatBlock(block: SectionBlock, heading: bool)

  function FlatPage(rules: Rules, bodySize: real, number: nat, blocks: seq<TextBlock>): (flat: seq<FlatBlock>)
    ensures |flat| == |blocks|
  {
    seq(|blocks|, j requires 0 <= j < |blocks| =>
      FlatBlock(SectionBlock(blocks[j].text, number), rules.heading(blocks[j].text, blocks[j].fontSize, bodySize)))
  }

  /** Every block of the document, in order, with its page. */
  function Flat(rules: Rules, bodySize: real, pages: seq<Page>): seq<FlatBlock> {
    if pages == [] then []
    else
      var last := pages[|pages| - 1];
      Flat(rules, bodySize, pages[..|pages| - 1]) + FlatPage(rules, bodySize, last.number, last.blocks)
  }

  function Extended(s: Section, b: SectionBlock): Section {
    s.(blocks := s.blocks + [b])
  }

  /** The section `block` opens. */
  function Opening(rules: Rules, b: FlatBlock): Section {
    Section(if b.heading then Some(rules.title(b.block.text)) else None, [b.block])
  }

  /** A heading opens a section; any other block joins the open one, or opens the untitled first one. */
  function SectionsOf(rules: Rules, flat: seq<FlatBlock>): seq<Section> {
    if flat == [] then []
    else
      var before, last := SectionsOf(rules, flat[..|flat| - 1]), flat[|flat| - 1];
      if last.heading || before == [] then before + [Opening(rules, last)]
      else before[..|before| - 1] + [Extended(before[|before| - 1], last.block)]
  }

  /** Index in the document of the first block of section `i`. */
  function Offset(sections: seq<Section>, i: nat): nat
    requires i <= |sections|
  {
    if i == 0 then 0 else Offset(sections, i - 1) + |sections[i - 1].blocks|
  }

  /** `section` is the run of the document's blocks at `at`: a heading is its first block, if it has a title. */
  ghost predicate Covers(rules: Rules, flat: seq<FlatBlock>, at: nat, section: Section) {
    && section.blocks != []
    && at + |section.blocks| <= |flat|
    && (section.title.Some? ==> section.title.value == rules.title(section.blocks[0].text))
    && (forall j | 0 <= j < |section.blocks| ::
          && flat[at + j].block == section.blocks[j]
          && (flat[at + j].heading <==> j == 0 && section.title.Some?))
  }

  /** Section `i` is the next run of the document, and is untitled only if it is the first. */
  ghost predicate Placed(rules: Rules, flat: seq<FlatBlock>, sections: seq<Section>, i: nat)
    requires i < |sections|
  {
    Covers(rules, flat, Offset(sections, i), sections[i]) && (sections[i].title.None? ==> i == 0)
  }

  /**
   The sections hold every block once, in order, with its page; none is empty; a block is a heading
   exactly when it is the first of a titled section; only the first section may be untitled.
   */
  ghost predicate Divides(rules: Rules, flat: seq<FlatBlock>, sections: seq<Section>) {
    Offset(sections, |sections|) == |flat| && forall i | 0 <= i < |sections| :: Placed(rules, flat, sections, i)
  }

  lemma {:induction false} OffsetOfFront(s: seq<Section>, t: seq<Section>, i: nat)
    requires i <= |s| && i <= |t| && forall k | 0 <= k < i :: s[k] == t[k]
    ensures Offset(s, i) == Offset(t, i)
  {
    if i > 0 {
      OffsetOfFront(s, t, i - 1);
    }
  }

  /** Sections partition the document. */
  lemma {:induction false} SectionsDivide(rules: Rules, flat: seq<FlatBlock>)
    ensures Divides(rules, flat, SectionsOf(rules, flat))
  {
    hide Divides, Opening, Extended;
    if flat == [] {
      NothingDivides(rules);
    } else {
      var front, last := flat[..|flat| - 1], flat[|flat| - 1];
      SectionsDivide(rules, front);
      var before := SectionsOf(rules, front);
      assert flat == front + [last];
      if last.heading || before == [] {
        NewSection(rules, front, last, before);
      } else {
        LongerSection(rules, front, last, before);
      }
    }
  }

  lemma NothingDivides(rules: Rules)
    ensures Divides(rules, [], [])
  {
  }

  lemma StillCovers(rules: Rules, flat: seq<FlatBlock>, last: FlatBlock, at: nat, section: Section)
    requires Covers(rules, flat, at, section)
    ensures Covers(rules, flat + [last], at, section)
  {
  }

  /** A section keeps its place when a block is added after it. */
  lemma StillPlaced(rules: Rules, front: seq<FlatBlock>, last: FlatBlock, before: seq<Section>, sections: seq<Section>, i: nat)
    requires i < |before| && i < |sections| && forall k | 0 <= k <= i :: sections[k] == before[k]
    requires Placed(rules, front, before, i)
    ensures Placed(rules, front + [last], sections, i)
  {
    hide Covers, Offset;
    OffsetOfFront(sections, before, i);
    StillCovers(rules, front, last, Offset(before, i), before[i]);
  }

  lemma NewSection(rules: Rules, front: seq<FlatBlock>, last: FlatBlock, before: seq<Section>)
    requires Divides(rules, front, before) && (last.heading || before == [])
    ensures Divides(rules, front + [last], before + [Opening(rules, last)])
  {
    hide Placed, Covers;
    var sections := before + [Opening(rules, last)];
    OffsetOfFront(sections, before, |before|);
    OpeningPlaced(rules, front, last, before);
    forall i | 0 <= i < |sections|
      ensures Placed(rules, front + [last], sections, i)
    {
      if i < |before| {
        StillPlaced(rules, front, last, before, sections, i);
      }
    }
  }

  lemma {:induction false} OpeningPlaced(rules: Rules, front: seq<FlatBlock>, last: FlatBlock, before: seq<Section>)
    requires Offset(before, |before|) == |front| && (last.heading || before == [])
    ensures Placed(rules, front + [last], before + [Opening(rules, last)], |before|)
  {
    hide Offset;
    OffsetOfFront(before + [Opening(rules, last)], before, |before|);
  }

  lemma ExtendedCovers(rules: Rules, front: seq<FlatBlock>, last: FlatBlock, at: nat, section: Section)
    requires Covers(rules, front, at, section) && at + |section.blocks| == |front| && !last.heading
    ensures Covers(rules, front + [last], at, Extended(section, last.block))
  {
    var longer := Extended(section, last.block);
    assert longer.blocks[0] == section.blocks[0];
    forall j | 0 <= j < |longer.blocks|
      ensures (front + [last])[at + j].block == longer.blocks[j]
      ensures (front + [last])[at + j].heading <==> j == 0 && section.title.Some?
    {
      if j < |section.blocks| {
        assert (front + [last])[at + j] == front[at + j];
      }
    }
  }

  lemma LongerSection(rules: Rules, front: seq<FlatBlock>, last: FlatBlock, before: seq<Section>)
    requires Divides(rules, front, before) && before != [] && !last.heading
    ensures Divides(rules, front + [last], before[..|before| - 1] + [Extended(before[|before| - 1], last.block)])
  {
    hide Placed, Covers;
    var n := |before| - 1;
    var sections := before[..n] + [Extended(before[n], last.block)];
    OffsetOfFront(sections, before, n);
    ExtendedPlaced(rules, front, last, before);
    forall i | 0 <= i < |sections|
      ensures Placed(rules, front + [last], sections, i)
    {
      if i < n {
        StillPlaced(rules, front, last, before, sections, i);
      }
    }
  }

  lemma {:induction false} ExtendedPlaced(rules: Rules, front: seq<FlatBlock>, last: FlatBlock, before: seq<Section>)
    requires before != [] && !last.heading
    requires Placed(rules, front, before, |before| - 1) && Offset(before, |before|) == |front|
    ensures Placed(rules, front + [last], before[..|before| - 1] + [Extended(before[|before| - 1], last.block)],
                   |before| - 1)
  {
    hide Covers;
    var n := |before| - 1;
    OffsetOfFront(before[..n] + [Extended(before[n], last.block)], before, n);
    ExtendedCovers(rules, front, last, Offset(before, n), before[n]);
  }

  /** The sections seen so far, the open one included: `sections`, then what `close` would append. */
  ghost predicate SeenAs(rules: Rules, flat: seq<FlatBlock>, sections: seq<Section>, title: Option<string>,
                         blocks: seq<SectionBlock>)
  {
    && SectionsOf(rules, flat) == (if blocks == [] then sections else sections + [Section(title, blocks)])
    && (blocks == [] ==> flat == [] && title == None && sections == [])
  }

  lemma SeesHeading(rules: Rules, flat: seq<FlatBlock>, sections: seq<Section>, title: Option<string>,
                    blocks: seq<SectionBlock>, next: FlatBlock)
    requires SeenAs(rules, flat, sections, title, blocks) && next.heading
    ensures SeenAs(rules, flat + [next], if blocks == [] then sections else sections + [Section(title, blocks)],
                   Some(rules.title(next.block.text)), [next.block])
  {
    assert (flat + [next])[..|flat|] == flat;
  }

  lemma SeesOther(rules: Rules, flat: seq<FlatBlock>, sections: seq<Section>, title: Option<string>,
                  blocks: seq<SectionBlock>, next: FlatBlock)
    requires SeenAs(rules, flat, sections, title, blocks) && !next.heading
    ensures SeenAs(rules, flat + [next], sections, title, blocks + [next.block])
  {
    assert (flat + [next])[..|flat|] == flat;
    if blocks == [] {
      assert [] + [next.block] == [next.block];
      assert SectionsOf(rules, flat + [next]) == [] + [Opening(rules, next)];
    } else {
      var seen := sections + [Section(title, blocks)];
      assert seen[..|seen| - 1] == sections && seen[|seen| - 1] == Section(title, blocks);
    }
  }

  /** `detect_sections` */
  method DetectSections(rules: Rules, pages: seq<Page>) returns (sections: seq<Section>)
    ensures sections == SectionsOf(rules, Flat(rules, BodySizeOf(pages), pages))
  {
    hide SectionsOf, SeenAs, BodySizeOf, FlatPage;
    var bodySize := BodyFontSize(pages);
    sections := [];
    var title: Option<string> := None;
    var blocks: seq<SectionBlock> := [];
    ghost var flat: seq<FlatBlock> := [];
    SeesNothing(rules);
    for i := 0 to |pages|
      invariant flat == Flat(rules, bodySize, pages[..i])
      invariant SeenAs(rules, flat, sections, title, blocks)
    {
      var page := pages[i];
      ghost var before := flat;
      EmptyPage(rules, bodySize, page.number);
      assert page.blocks[..0] == [];
      for j := 0 to |page.blocks|
        invariant flat == before + FlatPage(rules, bodySize, page.number, page.blocks[..j])
        invariant SeenAs(rules, flat, sections, title, blocks)
      {
        var block := page.blocks[j];
        ghost var next := FlatBlock(SectionBlock(block.text, page.number),
                                    rules.heading(block.text, block.fontSize, bodySize));
        FlatPageGrows(rules, bodySize, page.number, page.blocks, j);
        if rules.heading(block.text, block.fontSize, bodySize) {
          SeesHeading(rules, flat, sections, title, blocks, next);
          if blocks != [] {
            sections := sections + [Section(title, blocks)];
          }
          blocks := [];
          title := Some(rules.title(block.text));
          assert blocks + [next.block] == [next.block];
        } else {
          SeesOther(rules, flat, sections, title, blocks, next);
        }
        blocks := blocks + [SectionBlock(block.text, page.number)];
        flat := flat + [next];
      }
      assert page.blocks[..|page.blocks|] == page.blocks;
      assert pages[..i + 1][..i] == pages[..i];
    }
    assert pages[..|pages|] == pages;
    SeenAll(rules, flat, sections, title, blocks);
    if blocks != [] {
      sections := sections + [Section(title, blocks)];
    }
  }

  lemma FlatPageGrows(rules: Rules, bodySize: real, number: nat, blocks: seq<TextBlock>, j: nat)
    requires j < |blocks|
    ensures FlatPage(rules, bodySize, number, blocks[..j + 1])
            == FlatPage(rules, bodySize, number, blocks[..j])
               + [FlatBlock(SectionBlock(blocks[j].text, number), rules.heading(blocks[j].text, blocks[j].fontSize, bodySize))]
  {
    var longer, shorter := FlatPage(rules, bodySize, number, blocks[..j + 1]), FlatPage(rules, bodySize, number, blocks[..j]);
    forall i | 0 <= i < j
      ensures longer[i] == shorter[i]
    {
      assert blocks[..j + 1][i] == blocks[..j][i];
    }
  }

  lemma EmptyPage(rules: Rules, bodySize: real, number: nat)
    ensures FlatPage(rules, bodySize, number, []) == []
  {
  }

  lemma SeesNothing(rules: Rules)
    ensures SeenAs(rules, [], [], None, [])
  {
  }

  lemma {:induction false} SeenAll(rules: Rules, flat: seq<FlatBlock>, sections: seq<Section>, title: Option<string>,
                blocks: seq<SectionBlock>)
    requires SeenAs(rules, flat, sections, title, blocks)
    ensures SectionsOf(rules, flat) == (if blocks == [] then sections else sections + [Section(title, blocks)])
  {
  }
}
