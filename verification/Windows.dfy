/** Tokens, and the sliding windows over them. */
module Windows {
  import opened Text

  datatype Span = Span(start: nat, end: nat)

  /** Part of a text, and how many tokens it was sized at. */
  datatype Range = Range(start: nat, end: nat, tokenCount: nat)

  type Tokenizer = string -> seq<Span>

  /** Ordered, disjoint and non-empty spans of `text` that leave out nothing but whitespace. */
  ghost predicate GoodSpans(text: string, spans: seq<Span>) {
    && (forall i | 0 <= i < |spans| :: spans[i].start < spans[i].end <= |text|)
    && (forall i, j | 0 <= i < j < |spans| :: spans[i].end <= spans[j].start)
    && (forall p | 0 <= p < |text| && !IsSpace(text[p]) :: InSpans(spans, p))
  }

  ghost predicate InSpans(spans: seq<Span>, p: nat) {
    exists i | 0 <= i < |spans| :: spans[i].start <= p < spans[i].end
  }

  /** What `RegexTokenizer` promises of any text. */
  ghost predicate GoodTokenizer(tokenize: Tokenizer) {
    forall text :: GoodSpans(text, tokenize(text))
  }

  /** `count` */
  function Count(tokenize: Tokenizer, text: string): nat {
    |tokenize(text)|
  }

  // --- the windows, in closed form -----------------------------------------------------

  function WindowCount(n: nat, size: nat, overlap: nat): nat
    requires overlap < size
  {
    var step := size - overlap;
    if n == 0 then 0 else if n <= size then 1 else 1 + (n - size + step - 1) / step
  }

  function WindowStart(size: nat, overlap: nat, k: nat): nat
    requires overlap < size
  {
    k * (size - overlap)
  }

  function WindowEnd(n: nat, size: nat, overlap: nat, k: nat): nat
    requires overlap < size
  {
    var end := WindowStart(size, overlap, k) + size;
    if end < n then end else n
  }

  /** A window is the last one exactly when it reaches the end. */
  lemma CountsWindows(n: nat, size: nat, overlap: nat, k: nat)
    requires overlap < size && n > 0
    ensures k + 1 < WindowCount(n, size, overlap) <==> WindowStart(size, overlap, k) + size < n
    ensures k < WindowCount(n, size, overlap) ==> WindowStart(size, overlap, k) < n
    ensures WindowStart(size, overlap, k + 1) == WindowStart(size, overlap, k) + (size - overlap)
  {
    var step := size - overlap;
    Distributes(k, step);
    if n > size {
      CeilingIs(n - size, step, k);
      if k > 0 {
        CeilingIs(n - size, step, k - 1);
        Distributes(k - 1, step);
      }
    } else {
      Grows(k, step);
    }
  }

  lemma Distributes(k: nat, step: nat)
    ensures (k + 1) * step == k * step + step
  {
  }

  lemma Grows(k: nat, step: nat)
    ensures k * step >= 0
  {
  }

  /** `k` is below the ceiling of `m / step` exactly when `k` steps fall short of `m`. */
  lemma CeilingIs(m: nat, step: nat, k: nat)
    requires step > 0
    ensures k < (m + step - 1) / step <==> k * step < m
  {
    var c := (m + step - 1) / step;
    assert c * step <= m + step - 1 < (c + 1) * step;
    Distributes(c, step);
    if k < c {
      Multiplies(k + 1, c, step);
      Distributes(k, step);
    } else {
      Multiplies(c, k, step);
    }
  }

  lemma Multiplies(a: nat, b: nat, step: nat)
    requires a <= b
    ensures a * step <= b * step
  {
  }

  function WindowRange(spans: seq<Span>, size: nat, overlap: nat, k: nat): Range
    requires overlap < size && WindowStart(size, overlap, k) < |spans|
  {
    var start, end := WindowStart(size, overlap, k), WindowEnd(|spans|, size, overlap, k);
    Range(spans[start].start, spans[end - 1].end, end - start)
  }

  /** The windows of a token sequence. */
  function WindowsOf(spans: seq<Span>, size: nat, overlap: nat): (ranges: seq<Range>)
    requires overlap < size
    ensures |ranges| == WindowCount(|spans|, size, overlap)
  {
    if spans == [] then []
    else
      seq(WindowCount(|spans|, size, overlap), k requires 0 <= k < WindowCount(|spans|, size, overlap) =>
        CountsWindows(|spans|, size, overlap, k);
        WindowRange(spans, size, overlap, k))
  }

  lemma SomeWindow(n: nat, size: nat, overlap: nat)
    requires overlap < size && n > 0
    ensures WindowCount(n, size, overlap) > 0
  {
  }

  lemma WindowIs(spans: seq<Span>, size: nat, overlap: nat, k: nat)
    requires overlap < size && k < WindowCount(|spans|, size, overlap)
    ensures WindowStart(size, overlap, k) < |spans|
    ensures WindowsOf(spans, size, overlap)[k] == WindowRange(spans, size, overlap, k)
  {
    CountsWindows(|spans|, size, overlap, k);
  }

  lemma NoWindows(size: nat, overlap: nat)
    requires overlap < size
    ensures WindowsOf([], size, overlap) == []
  {
  }

  lemma FirstWindow(size: nat, overlap: nat)
    requires overlap < size
    ensures WindowStart(size, overlap, 0) == 0
  {
  }

  lemma WindowRangeIs(spans: seq<Span>, size: nat, overlap: nat, k: nat, start: nat, end: nat)
    requires overlap < size && start == WindowStart(size, overlap, k) < |spans|
    requires end == if start + size < |spans| then start + size else |spans|
    ensures WindowRange(spans, size, overlap, k) == Range(spans[start].start, spans[end - 1].end, end - start)
  {
  }

  /** `_window_ranges` */
  method WindowRanges(tokenize: Tokenizer, text: string, size: nat, overlap: nat) returns (ranges: seq<Range>)
    requires overlap < size
    ensures ranges == WindowsOf(tokenize(text), size, overlap)
  {
    hide WindowCount, WindowsOf, WindowStart, WindowEnd;
    var tokens := tokenize(text);
    if tokens == [] {
      NoWindows(size, overlap);
      return [];
    }
    SomeWindow(|tokens|, size, overlap);
    var step := size - overlap;
    ranges := [];
    var start := 0;
    FirstWindow(size, overlap);
    while start < |tokens|
      invariant start == WindowStart(size, overlap, |ranges|)
      invariant |ranges| < WindowCount(|tokens|, size, overlap)
      invariant ranges == WindowsOf(tokens, size, overlap)[..|ranges|]
      decreases |tokens| - start
    {
      CountsWindows(|tokens|, size, overlap, |ranges|);
      WindowIs(tokens, size, overlap, |ranges|);
      var end := if start + size < |tokens| then start + size else |tokens|;
      WindowRangeIs(tokens, size, overlap, |ranges|, start, end);
      ranges := ranges + [Range(tokens[start].start, tokens[end - 1].end, end - start)];
      if end == |tokens| {
        return;
      }
      start := start + step;
    }
    CountsWindows(|tokens|, size, overlap, |ranges|);
  }

  // --- what the windows are --------------------------------------------------------------

  /**
   All windows but the last hold `size` tokens, neighbours share `overlap` of them, each later window
   reaches further, and together they run from the first token to the last.
   */
  lemma WindowsTile(n: nat, size: nat, overlap: nat, k: nat)
    requires overlap < size && k < WindowCount(n, size, overlap)
    ensures WindowStart(size, overlap, 0) == 0
    ensures var start, end := WindowStart(size, overlap, k), WindowEnd(n, size, overlap, k);
            && start < end <= n && end - start <= size
            && (k + 1 < WindowCount(n, size, overlap) ==>
                  && end - start == size
                  && end - WindowStart(size, overlap, k + 1) == overlap
                  && end < WindowEnd(n, size, overlap, k + 1))
            && (k + 1 == WindowCount(n, size, overlap) ==> end == n)
  {
    CountsWindows(n, size, overlap, k);
    CountsWindows(n, size, overlap, k + 1);
  }

  /** The first `k` windows of `tokens`, each but the first without its first `overlap` tokens. */
  function Glued<T>(tokens: seq<T>, size: nat, overlap: nat, k: nat): seq<T>
    requires overlap < size && k <= WindowCount(|tokens|, size, overlap)
  {
    if k == 0 then []
    else
      WindowsTile(|tokens|, size, overlap, k - 1);
      if k > 1 then
        WindowsTile(|tokens|, size, overlap, k - 2);
        Glued(tokens, size, overlap, k - 1)
        + tokens[WindowStart(size, overlap, k - 1)..WindowEnd(|tokens|, size, overlap, k - 1)][overlap..]
      else tokens[..WindowEnd(|tokens|, size, overlap, 0)]
  }

  /** Without the overlaps, the windows are the token sequence. */
  lemma {:induction false} WindowsRebuild<T>(tokens: seq<T>, size: nat, overlap: nat, k: nat)
    requires overlap < size && 0 < k <= WindowCount(|tokens|, size, overlap)
    ensures Glued(tokens, size, overlap, k) == tokens[..WindowEnd(|tokens|, size, overlap, k - 1)]
    ensures k == WindowCount(|tokens|, size, overlap) ==> Glued(tokens, size, overlap, k) == tokens
  {
    WindowsTile(|tokens|, size, overlap, k - 1);
    if k > 1 {
      WindowsTile(|tokens|, size, overlap, k - 2);
      WindowsRebuild(tokens, size, overlap, k - 1);
    }
  }

  // --- ranges of a text --------------------------------------------------------------------

  ghost predicate RangeOk(text: string, r: Range, size: nat) {
    && r.start < r.end <= |text|
    && r.tokenCount <= size
    && (!Blank(text[r.start..r.end]) ==> 1 <= r.tokenCount)
  }

  predicate Covered(ranges: seq<Range>, p: nat) {
    exists i | 0 <= i < |ranges| :: ranges[i].start <= p < ranges[i].end
  }

  predicate Advance(ranges: seq<Range>) {
    forall i, j | 0 <= i < j < |ranges| :: ranges[i].start < ranges[j].start && ranges[i].end < ranges[j].end
  }

  /** Ranges within budget, each further on than the one before, that leave out nothing but whitespace. */
  ghost predicate GoodRanges(text: string, ranges: seq<Range>, size: nat) {
    && (forall i | 0 <= i < |ranges| :: RangeOk(text, ranges[i], size))
    && Advance(ranges)
    && (forall p | 0 <= p < |text| && !IsSpace(text[p]) :: Covered(ranges, p))
  }

  /** A later window starts later, and ends later. */
  lemma {:induction false} WindowsAdvance(n: nat, size: nat, overlap: nat, i: nat, j: nat)
    requires overlap < size && i < j < WindowCount(n, size, overlap)
    ensures WindowStart(size, overlap, i) < WindowStart(size, overlap, j)
    ensures WindowEnd(n, size, overlap, i) < WindowEnd(n, size, overlap, j)
    decreases j
  {
    WindowsTile(n, size, overlap, j - 1);
    CountsWindows(n, size, overlap, j - 1);
    if i < j - 1 {
      WindowsAdvance(n, size, overlap, i, j - 1);
    }
  }

  /** Some window holds token `t`. */
  lemma {:induction false} TokenInWindow(n: nat, size: nat, overlap: nat, t: nat, k: nat) returns (w: nat)
    requires overlap < size && k < WindowCount(n, size, overlap) && t < WindowEnd(n, size, overlap, k)
    ensures w <= k && WindowStart(size, overlap, w) <= t < WindowEnd(n, size, overlap, w)
  {
    w := k;
    WindowsTile(n, size, overlap, k);
    if t < WindowStart(size, overlap, k) {
      if k == 0 {
        assert false;
      } else {
        WindowsTile(n, size, overlap, k - 1);
        w := TokenInWindow(n, size, overlap, t, k - 1);
      }
    }
  }

  lemma WindowsCover(text: string, spans: seq<Span>, size: nat, overlap: nat, p: nat)
    requires overlap < size && GoodSpans(text, spans) && InSpans(spans, p)
    ensures Covered(WindowsOf(spans, size, overlap), p)
  {
    hide WindowStart, WindowEnd, WindowCount, WindowsOf;
    var t :| 0 <= t < |spans| && spans[t].start <= p < spans[t].end;
    var n := |spans|;
    SomeWindow(n, size, overlap);
    var last := WindowCount(n, size, overlap) - 1;
    WindowsTile(n, size, overlap, last);
    var w := TokenInWindow(n, size, overlap, t, last);
    WindowIs(spans, size, overlap, w);
    WindowsTile(n, size, overlap, w);
    assert WindowsOf(spans, size, overlap)[w].start <= p < WindowsOf(spans, size, overlap)[w].end;
  }

  lemma LaterSpans(text: string, spans: seq<Span>, a: nat, b: nat)
    requires GoodSpans(text, spans) && a < b < |spans|
    ensures spans[a].start < spans[b].start && spans[a].end < spans[b].end
  {
  }

  /** The windows of a section are good ranges of its text. */
  lemma WindowsAreGood(text: string, spans: seq<Span>, size: nat, overlap: nat)
    requires overlap < size && GoodSpans(text, spans)
    ensures GoodRanges(text, WindowsOf(spans, size, overlap), size)
  {
    hide WindowStart, WindowEnd, WindowCount, WindowsOf;
    var ranges, n := WindowsOf(spans, size, overlap), |spans|;
    forall i | 0 <= i < |ranges|
      ensures RangeOk(text, ranges[i], size)
    {
      WindowIs(spans, size, overlap, i);
      WindowsTile(n, size, overlap, i);
    }
    forall i, j | 0 <= i < j < |ranges|
      ensures ranges[i].start < ranges[j].start && ranges[i].end < ranges[j].end
    {
      WindowIs(spans, size, overlap, i);
      WindowIs(spans, size, overlap, j);
      WindowsTile(n, size, overlap, i);
      WindowsTile(n, size, overlap, j);
      WindowsAdvance(n, size, overlap, i, j);
      LaterSpans(text, spans, WindowStart(size, overlap, i), WindowStart(size, overlap, j));
      LaterSpans(text, spans, WindowEnd(n, size, overlap, i) - 1, WindowEnd(n, size, overlap, j) - 1);
    }
    forall p | 0 <= p < |text| && !IsSpace(text[p])
      ensures Covered(ranges, p)
    {
      WindowsCover(text, spans, size, overlap, p);
    }
  }
}
