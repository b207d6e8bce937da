/** Extracted text: what parsing hands to chunking, and what chunking hands on. */
module Text {
  import opened Identifiers

  /** One block of extracted text. `Valid` is the check its constructor makes. */
  datatype TextBlock = TextBlock(text: string, fontSize: real) {
    predicate Valid() {
      !Blank(text) && fontSize >= 0.0
    }
  }

  datatype Page = Page(number: nat, blocks: seq<TextBlock>)

  datatype Chunk = Chunk(index: nat, content: string, section: Option<string>,
                         pageStart: nat, pageEnd: nat, tokenCount: nat)

  /** The characters Python's `str.isspace`, `str.strip` and `\s` agree on. */
  predicate IsSpace(c: char) {
    var n := c as int;
    || 9 <= n <= 13 || 28 <= n <= 32 || n == 0x85 || n == 0xA0 || n == 0x1680
    || 0x2000 <= n <= 0x200A || n == 0x2028 || n == 0x2029 || n == 0x202F || n == 0x205F
    || n == 0x3000
  }

  /** The same, one by one. */
  const WHITESPACE: set<char> := {
    '\t', '\n', '\U{000B}', '\U{000C}', '\r', '\U{001C}', '\U{001D}', '\U{001E}', '\U{001F}', ' ', '\U{0085}',
    '\U{00A0}', '\U{1680}', '\U{2000}', '\U{2001}', '\U{2002}', '\U{2003}', '\U{2004}', '\U{2005}', '\U{2006}',
    '\U{2007}', '\U{2008}', '\U{2009}', '\U{200A}', '\U{2028}', '\U{2029}', '\U{202F}', '\U{205F}', '\U{3000}'}

  lemma WhitespaceIs(c: char)
    ensures IsSpace(c) <==> c in WHITESPACE
  {
  }

  /** Nothing but whitespace. */
  predicate Blank(text: string) {
    forall i | 0 <= i < |text| :: IsSpace(text[i])
  }

  predicate HasText(pages: seq<Page>) {
    exists i | 0 <= i < |pages| :: pages[i].blocks != []
  }
}
