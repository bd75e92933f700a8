/** Token-space chunks: prev-overlap, core, next-overlap. */
module Chunker {
  import opened Arithmetic

  /** The tokenizer, as the chunker uses it. */
  datatype Tokenizer = Tokenizer(encode: string -> seq<int>, decode: seq<int> -> string)

  datatype Config = Config(chunkTokens: int, overlapPrev: int, overlapNext: int)

  datatype Chunk = Chunk(index: int, text: string, tokenCount: int)

  datatype Range = Range(start: nat, end: nat)

  function AtLeast0(x: int): int { if x < 0 then 0 else x }

  function AtMost(x: int, cap: int): int { if x > cap then cap else x }

  /** The config the loops run with. */
  function Clamped(cfg: Config): (c: Config)
    ensures Clean(c)
  {
    var size := if cfg.chunkTokens <= 0 then 2800 else cfg.chunkTokens;
    Config(size, AtMost(AtLeast0(cfg.overlapPrev), size), AtMost(AtLeast0(cfg.overlapNext), size))
  }

  predicate Clean(c: Config) {
    && c.chunkTokens >= 1
    && 0 <= c.overlapPrev <= c.chunkTokens
    && 0 <= c.overlapNext <= c.chunkTokens
  }

  // ----- the documented meaning ----------------------------------------------

  /** i * size, by repeated addition. */
  function Start(size: int, i: nat): nat
    requires size >= 1
  {
    if i == 0 then 0 else Start(size, i - 1) + size
  }

  predicate HasCore(n: nat, size: int, i: int)
    requires size >= 1
  {
    i >= 0 && Start(size, i) < n
  }

  /** tokens[i * size : i * size + size], cut off at the end of the input. */
  function Core(all: seq<int>, size: int, i: nat): seq<int>
    requires size >= 1 && HasCore(|all|, size, i)
  {
    all[Start(size, i)..AtMost(Start(size, i) + size, |all|)]
  }

  /** The last overlapPrev tokens of the core before, none for the first chunk. */
  function Prev(all: seq<int>, c: Config, i: nat): seq<int>
    requires Clean(c) && HasCore(|all|, c.chunkTokens, i)
  {
    if i == 0 then []
    else
      var before := Core(all, c.chunkTokens, i - 1);
      if c.overlapPrev >= |before| then before else before[|before| - c.overlapPrev..]
  }

  /** The first overlapNext tokens of the core after, none for the last chunk. */
  function Next(all: seq<int>, c: Config, i: nat): seq<int>
    requires Clean(c) && HasCore(|all|, c.chunkTokens, i)
  {
    if !HasCore(|all|, c.chunkTokens, i + 1) then []
    else
      var after := Core(all, c.chunkTokens, i + 1);
      if c.overlapNext >= |after| then after else after[..c.overlapNext]
  }

  function Slice(all: seq<int>, c: Config, i: nat): seq<int>
    requires Clean(c) && HasCore(|all|, c.chunkTokens, i)
  {
    Prev(all, c, i) + Core(all, c.chunkTokens, i) + Next(all, c, i)
  }

  function ChunkAt(all: seq<int>, c: Config, tok: Tokenizer, i: nat): Chunk
    requires Clean(c) && HasCore(|all|, c.chunkTokens, i)
  {
    Chunk(i, tok.decode(Slice(all, c, i)), |Core(all, c.chunkTokens, i)|)
  }

  function Count(n: nat, size: int): nat
    requires size >= 1
  {
    (n + size - 1) / size
  }

  function Tokens(text: string, tok: Tokenizer): seq<int> {
    if text == "" then [] else tok.encode(text)
  }

  /** What Split returns, chunk by chunk. */
  function Splitting(text: string, cfg: Config, tok: Tokenizer): (out: seq<Chunk>) {
    var all, c := Tokens(text, tok), Clamped(cfg);
    CoresAreCounted(|all|, c.chunkTokens);
    seq(Count(|all|, c.chunkTokens), i requires HasCore(|all|, c.chunkTokens, i) => ChunkAt(all, c, tok, i))
  }

  /** The token slices behind Split's texts. */
  function Slices(text: string, cfg: Config, tok: Tokenizer): seq<seq<int>> {
    SlicesOf(Tokens(text, tok), Clamped(cfg))
  }

  function SlicesOf(all: seq<int>, c: Config): seq<seq<int>>
    requires Clean(c)
  {
    CoresAreCounted(|all|, c.chunkTokens);
    seq(Count(|all|, c.chunkTokens), i requires HasCore(|all|, c.chunkTokens, i) => Slice(all, c, i))
  }

  // ----- counting cores ------------------------------------------------------

  lemma {:induction false} StartIs(size: int, i: nat)
    requires size >= 1
    ensures Start(size, i) == i * size
  {
    if i > 0 {
      StartIs(size, i - 1);
      assert i * size == (i - 1) * size + size;
    }
  }

  /** q * size <= m < q * size + size pins q as the quotient. */
  lemma Below(i: int, q: int, size: int, n: int)
    requires size >= 1 && q * size <= n + size - 1 < q * size + size
    ensures i < q <==> i * size < n
  {
    if i < q {
      Times(i + 1, q, size);
    } else {
      Times(q, i, size);
    }
  }

  lemma CoreIsCounted(n: nat, size: int, i: int)
    requires size >= 1
    ensures HasCore(n, size, i) <==> 0 <= i < Count(n, size)
  {
    if i >= 0 {
      StartIs(size, i);
      Below(i, Count(n, size), size, n);
    }
  }

  lemma CoresAreCounted(n: nat, size: int)
    requires size >= 1
    ensures forall i :: HasCore(n, size, i) <==> 0 <= i < Count(n, size)
  {
    forall i
      ensures HasCore(n, size, i) <==> 0 <= i < Count(n, size)
    {
      CoreIsCounted(n, size, i);
    }
  }

  // ----- Split ---------------------------------------------------------------

  /** Each range is the core of its index. */
  ghost predicate Tiles(cores: seq<Range>, size: int, n: nat)
    requires size >= 1
  {
    forall i | 0 <= i < |cores| ::
      && HasCore(n, size, i)
      && cores[i] == Range(Start(size, i), AtMost(Start(size, i) + size, n))
  }

  method CoreRanges(n: nat, size: int) returns (cores: seq<Range>)
    requires size >= 1 && n > 0
    ensures Tiles(cores, size, n) && |cores| == Count(n, size)
  {
    cores := [];
    var start := 0;
    while start < n
      invariant start == Start(size, |cores|)
      invariant |cores| > 0 ==> HasCore(n, size, |cores| - 1)
      invariant Tiles(cores, size, n)
      decreases n - start
    {
      var end := start + size;
      if end > n {
        end := n;
      }
      cores := cores + [Range(start, end)];
      start := start + size;
    }
    CoreIsCounted(n, size, |cores|);
    CoreIsCounted(n, size, |cores| - 1);
  }

  /** Where chunk i's slice begins and ends in the input. */
  function Lo(c: Config, i: nat): int
    requires Clean(c)
  {
    if i == 0 then 0 else Start(c.chunkTokens, i) - c.overlapPrev
  }

  function Hi(n: nat, c: Config, i: nat): int
    requires Clean(c)
  {
    AtMost(Start(c.chunkTokens, i) + c.chunkTokens + c.overlapNext, n)
  }

  lemma NextFollows(all: seq<int>, c: Config, i: nat)
    requires Clean(c) && HasCore(|all|, c.chunkTokens, i)
    ensures var end := AtMost(Start(c.chunkTokens, i) + c.chunkTokens, |all|);
      end <= Hi(|all|, c, i) && Next(all, c, i) == all[end..Hi(|all|, c, i)]
  {
    var size := c.chunkTokens;
    var end := Start(size, i) + size;
    assert Start(size, i + 1) == end;
    if HasCore(|all|, size, i + 1) {
      assert Core(all, size, i + 1) == all[end..AtMost(end + size, |all|)];
    }
  }

  lemma LastOf(all: seq<int>, a: int, b: int, k: int)
    requires 0 <= a <= b <= |all| && 0 <= k <= b - a
    ensures var before := all[a..b]; (if k >= |before| then before else before[|before| - k..]) == all[b - k..b]
  {
  }

  /** A core with one after it is full. */
  lemma CoreBefore(all: seq<int>, size: int, i: nat)
    requires size >= 1 && i > 0 && HasCore(|all|, size, i)
    ensures HasCore(|all|, size, i - 1) && 0 <= Start(size, i) - size
    ensures Core(all, size, i - 1) == all[Start(size, i) - size..Start(size, i)]
  {
  }

  lemma PrevPrecedes(all: seq<int>, c: Config, i: nat)
    requires Clean(c) && HasCore(|all|, c.chunkTokens, i)
    ensures 0 <= Lo(c, i) <= Start(c.chunkTokens, i)
    ensures Prev(all, c, i) == all[Lo(c, i)..Start(c.chunkTokens, i)]
  {
    if i > 0 {
      var start, size := Start(c.chunkTokens, i), c.chunkTokens;
      CoreBefore(all, size, i);
      LastOf(all, start - size, start, c.overlapPrev);
    }
  }

  lemma Joined(all: seq<int>, before: seq<int>, core: seq<int>, after: seq<int>, a: int, b: int, c: int, d: int)
    requires 0 <= a <= b <= c <= d <= |all|
    requires before == all[a..b] && core == all[b..c] && after == all[c..d]
    ensures before + core + after == all[a..d]
  {
  }

  lemma CoreIs(all: seq<int>, c: Config, i: nat)
    requires Clean(c) && HasCore(|all|, c.chunkTokens, i)
    ensures var start := Start(c.chunkTokens, i); var end := AtMost(start + c.chunkTokens, |all|);
      0 <= Lo(c, i) <= start < end <= Hi(|all|, c, i) <= |all| && Core(all, c.chunkTokens, i) == all[start..end]
  {
    PrevPrecedes(all, c, i);
  }

  /** The three parts as stretches of the input. */
  lemma PartsAre(all: seq<int>, c: Config, i: nat, start: int, end: int)
    requires Clean(c) && HasCore(|all|, c.chunkTokens, i)
    requires start == Start(c.chunkTokens, i) && end == AtMost(start + c.chunkTokens, |all|)
    ensures 0 <= Lo(c, i) <= start < end <= Hi(|all|, c, i) <= |all|
    ensures Prev(all, c, i) == all[Lo(c, i)..start]
    ensures Core(all, c.chunkTokens, i) == all[start..end]
    ensures Next(all, c, i) == all[end..Hi(|all|, c, i)]
  {
    CoreIs(all, c, i);
    PrevPrecedes(all, c, i);
    NextFollows(all, c, i);
  }

  /** prev, core and next are one stretch of the input. */
  lemma SliceIsStretch(all: seq<int>, c: Config, i: nat)
    requires Clean(c) && HasCore(|all|, c.chunkTokens, i)
    ensures 0 <= Lo(c, i) <= Start(c.chunkTokens, i) < Hi(|all|, c, i) <= |all|
    ensures Slice(all, c, i) == all[Lo(c, i)..Hi(|all|, c, i)]
  {
    var size, start := c.chunkTokens, Start(c.chunkTokens, i);
    var end := AtMost(start + size, |all|);
    PartsAre(all, c, i, start, end);
    Joined(all, Prev(all, c, i), Core(all, size, i), Next(all, c, i), Lo(c, i), start, end, Hi(|all|, c, i));
  }

  /** Bounds of one chunk's slice, from its own core and its neighbours'. */
  method Bounds(cores: seq<Range>, i: nat, c: Config, n: nat) returns (lo: int, hi: int)
    requires Clean(c) && Tiles(cores, c.chunkTokens, n) && i < |cores| == Count(n, c.chunkTokens)
    ensures lo == Lo(c, i) && hi == Hi(n, c, i)
  {
    lo, hi := cores[i].start, cores[i].end;
    if i > 0 {
      var p := cores[i - 1];
      lo := p.end - c.overlapPrev;
      if lo < p.start {
        lo := p.start;
      }
    }
    CoreIsCounted(n, c.chunkTokens, i + 1);
    assert Start(c.chunkTokens, i + 1) == Start(c.chunkTokens, i) + c.chunkTokens;
    if i < |cores| - 1 {
      var next := cores[i + 1];
      hi := next.start + c.overlapNext;
      if hi > next.end {
        hi := next.end;
      }
    }
  }

  method Clamp(cfg: Config) returns (c: Config)
    ensures c == Clamped(cfg)
  {
    c := cfg;
    if c.chunkTokens <= 0 {
      c := c.(chunkTokens := 2800);
    }
    if c.overlapPrev < 0 {
      c := c.(overlapPrev := 0);
    }
    if c.overlapNext < 0 {
      c := c.(overlapNext := 0);
    }
    if c.overlapPrev > c.chunkTokens {
      c := c.(overlapPrev := c.chunkTokens);
    }
    if c.overlapNext > c.chunkTokens {
      c := c.(overlapNext := c.chunkTokens);
    }
  }

  /** ch is chunk i of all, read straight off the input. */
  predicate CutOut(all: seq<int>, c: Config, tok: Tokenizer, i: nat, ch: Chunk)
    requires Clean(c)
  {
    var start, lo, hi := Start(c.chunkTokens, i), Lo(c, i), Hi(|all|, c, i);
    && 0 <= lo < hi <= |all|
    && ch == Chunk(i, tok.decode(all[lo..hi]), AtMost(start + c.chunkTokens, |all|) - start)
  }

  lemma SplittingAt(text: string, cfg: Config, tok: Tokenizer, i: nat)
    requires i < |Splitting(text, cfg, tok)|
    ensures CutOut(Tokens(text, tok), Clamped(cfg), tok, i, Splitting(text, cfg, tok)[i])
  {
    var all, c := Tokens(text, tok), Clamped(cfg);
    CoreIsCounted(|all|, c.chunkTokens, i);
    SliceIsStretch(all, c, i);
  }

  method Assemble(all: seq<int>, c: Config, tok: Tokenizer, cores: seq<Range>, ghost made: seq<Chunk>)
      returns (out: seq<Chunk>)
    requires Clean(c) && Tiles(cores, c.chunkTokens, |all|) && |cores| == Count(|all|, c.chunkTokens)
    requires |made| == |cores| && forall i | 0 <= i < |made| :: CutOut(all, c, tok, i, made[i])
    ensures out == made
  {
    out := [];
    for i := 0 to |cores|
      invariant out == made[..i]
    {
      var lo, hi := Bounds(cores, i, c, |all|);
      assert CutOut(all, c, tok, i, made[i]);
      out := out + [Chunk(i, tok.decode(all[lo..hi]), cores[i].end - cores[i].start)];
    }
  }

  method Split(text: string, cfg: Config, tok: Tokenizer) returns (out: seq<Chunk>)
    ensures out == Splitting(text, cfg, tok)
  {
    if text == "" {
      return [];
    }
    var c := Clamp(cfg);
    var all := tok.encode(text);
    if |all| == 0 {
      return [];
    }
    var cores := CoreRanges(|all|, c.chunkTokens);
    ghost var made := Splitting(text, cfg, tok);
    forall i | 0 <= i < |made|
      ensures CutOut(all, c, tok, i, made[i])
    {
      SplittingAt(text, cfg, tok, i);
    }
    out := Assemble(all, c, tok, cores, made);
  }

  // ----- main results --------------------------------------------------------

  function SumCounts(out: seq<Chunk>, n: nat): int
    requires n <= |out|
  {
    if n == 0 then 0 else SumCounts(out, n - 1) + out[n - 1].tokenCount
  }

  function Skip(c: Config, i: nat): int {
    if i == 0 then 0 else c.overlapPrev
  }

  predicate CanRejoin(slices: seq<seq<int>>, out: seq<Chunk>, c: Config) {
    && |slices| == |out| && 0 <= c.overlapPrev
    && forall i | 0 <= i < |out| :: 0 <= out[i].tokenCount <= |slices[i]| - Skip(c, i)
  }

  /** Cut each slice down to its core by the config and the recorded count alone, and join. */
  function Rejoined(slices: seq<seq<int>>, out: seq<Chunk>, c: Config, n: nat): seq<int>
    requires n <= |out| && CanRejoin(slices, out, c)
  {
    if n == 0 then []
    else
      var skip := Skip(c, n - 1);
      Rejoined(slices, out, c, n - 1) + slices[n - 1][skip..skip + out[n - 1].tokenCount]
  }

  /** Where the first n cores stop. */
  function Covered(total: nat, size: int, n: nat): nat
    requires size >= 1
  {
    AtMost(Start(size, n), total)
  }

  /** Stripped of its overlaps, chunk i is the stretch of the input between two core starts. */
  predicate Cut(out: seq<Chunk>, slices: seq<seq<int>>, all: seq<int>, c: Config, i: nat)
    requires Clean(c) && i < |out| == |slices|
  {
    var from, to, skip := Covered(|all|, c.chunkTokens, i), Covered(|all|, c.chunkTokens, i + 1), Skip(c, i);
    && from <= to
    && out[i].tokenCount == to - from
    && skip + (to - from) <= |slices[i]|
    && slices[i][skip..skip + (to - from)] == all[from..to]
  }

  lemma CoreInSlice(all: seq<int>, c: Config, i: nat)
    requires Clean(c) && HasCore(|all|, c.chunkTokens, i)
    ensures var core := Core(all, c.chunkTokens, i);
      && Skip(c, i) + |core| <= |Slice(all, c, i)|
      && Slice(all, c, i)[Skip(c, i)..Skip(c, i) + |core|] == core
  {
    PrevPrecedes(all, c, i);
    assert |Prev(all, c, i)| == Skip(c, i);
  }

  /** A core is the stretch between two starts, and its slice holds it after the overlap skipped. */
  lemma CoreCovers(all: seq<int>, c: Config, i: nat)
    requires Clean(c) && HasCore(|all|, c.chunkTokens, i)
    ensures var from, to, skip := Covered(|all|, c.chunkTokens, i), Covered(|all|, c.chunkTokens, i + 1), Skip(c, i);
      && from <= to && |Core(all, c.chunkTokens, i)| == to - from
      && skip + (to - from) <= |Slice(all, c, i)|
      && Slice(all, c, i)[skip..skip + (to - from)] == all[from..to]
  {
    CoreInSlice(all, c, i);
  }

  lemma SplitCuts(text: string, cfg: Config, tok: Tokenizer, i: nat)
    requires i < |Splitting(text, cfg, tok)|
    ensures Cut(Splitting(text, cfg, tok), Slices(text, cfg, tok), Tokens(text, tok), Clamped(cfg), i)
  {
    var all, c := Tokens(text, tok), Clamped(cfg);
    CoreIsCounted(|all|, c.chunkTokens, i);
    CoreCovers(all, c, i);
    assert Splitting(text, cfg, tok)[i] == ChunkAt(all, c, tok, i);
    assert Slices(text, cfg, tok)[i] == Slice(all, c, i);
  }

  lemma Extends(all: seq<int>, a: int, b: int)
    requires 0 <= a <= b <= |all|
    ensures all[..a] + all[a..b] == all[..b]
  {
  }

  lemma CutsRejoin(out: seq<Chunk>, slices: seq<seq<int>>, all: seq<int>, c: Config)
    requires Clean(c) && |out| == |slices|
    requires forall i | 0 <= i < |out| :: Cut(out, slices, all, c, i)
    ensures CanRejoin(slices, out, c)
  {
    forall i | 0 <= i < |out|
      ensures 0 <= out[i].tokenCount <= |slices[i]| - Skip(c, i)
    {
      assert Cut(out, slices, all, c, i);
    }
  }

  lemma {:induction false} CoresPartition(out: seq<Chunk>, slices: seq<seq<int>>, all: seq<int>, c: Config, n: nat)
    requires Clean(c) && n <= |out| == |slices|
    requires forall i | 0 <= i < |out| :: Cut(out, slices, all, c, i)
    requires CanRejoin(slices, out, c)
    ensures SumCounts(out, n) == Covered(|all|, c.chunkTokens, n)
    ensures Rejoined(slices, out, c, n) == all[..Covered(|all|, c.chunkTokens, n)]
  {
    if n > 0 {
      CoresPartition(out, slices, all, c, n - 1);
      assert Cut(out, slices, all, c, n - 1);
      Extends(all, Covered(|all|, c.chunkTokens, n - 1), Covered(|all|, c.chunkTokens, n));
    }
  }

  lemma SplitLabels(text: string, cfg: Config, tok: Tokenizer)
    ensures
      var all, c := Tokens(text, tok), Clamped(cfg);
      var out, slices := Splitting(text, cfg, tok), Slices(text, cfg, tok);
      && |out| == |slices| == Count(|all|, c.chunkTokens)
      && (forall i | 0 <= i < |out| :: out[i].index == i && out[i].text == tok.decode(slices[i]))
  {
    CoresAreCounted(|Tokens(text, tok)|, Clamped(cfg).chunkTokens);
  }

  lemma AllCut(text: string, cfg: Config, tok: Tokenizer)
    ensures forall i | 0 <= i < |Splitting(text, cfg, tok)| ::
              Cut(Splitting(text, cfg, tok), Slices(text, cfg, tok), Tokens(text, tok), Clamped(cfg), i)
  {
    forall i | 0 <= i < |Splitting(text, cfg, tok)|
      ensures Cut(Splitting(text, cfg, tok), Slices(text, cfg, tok), Tokens(text, tok), Clamped(cfg), i)
    {
      SplitCuts(text, cfg, tok, i);
    }
  }

  lemma CutsReassemble(out: seq<Chunk>, slices: seq<seq<int>>, all: seq<int>, c: Config)
    requires Clean(c) && |out| == |slices| == Count(|all|, c.chunkTokens)
    requires forall i | 0 <= i < |out| :: Cut(out, slices, all, c, i)
    ensures CanRejoin(slices, out, c) && SumCounts(out, |out|) == |all| && Rejoined(slices, out, c, |out|) == all
  {
    CutsRejoin(out, slices, all, c);
    CoresPartition(out, slices, all, c, |out|);
    CoreIsCounted(|all|, c.chunkTokens, |out|);
  }

  lemma SplitRejoins(text: string, cfg: Config, tok: Tokenizer)
    ensures
      var all, c := Tokens(text, tok), Clamped(cfg);
      var out, slices := Splitting(text, cfg, tok), Slices(text, cfg, tok);
      CanRejoin(slices, out, c) && SumCounts(out, |out|) == |all| && Rejoined(slices, out, c, |out|) == all
  {
    AllCut(text, cfg, tok);
    CutsReassemble(Splitting(text, cfg, tok), Slices(text, cfg, tok), Tokens(text, tok), Clamped(cfg));
  }

  /**
   * Split loses nothing and counts nothing twice: ceil(n / ChunkTokens) chunks,
   * core counts that add up to n, and overlaps that can be stripped by the config
   * and the counts alone to give the token sequence back.
   */
  lemma SplitReassembles(text: string, cfg: Config, tok: Tokenizer)
    ensures
      var all, c := Tokens(text, tok), Clamped(cfg);
      var out, slices := Splitting(text, cfg, tok), Slices(text, cfg, tok);
      && |out| == |slices| == (|all| + c.chunkTokens - 1) / c.chunkTokens
      && (forall i | 0 <= i < |out| :: out[i].index == i && out[i].text == tok.decode(slices[i]))
      && CanRejoin(slices, out, c)
      && SumCounts(out, |out|) == |all|
      && Rejoined(slices, out, c, |out|) == all
  {
    SplitLabels(text, cfg, tok);
    SplitRejoins(text, cfg, tok);
  }

  /** Input no longer than one core: a single chunk of the whole input, without overlaps. */
  lemma ShortInputIsOneChunk(text: string, cfg: Config, tok: Tokenizer)
    requires 0 < |Tokens(text, tok)| <= Clamped(cfg).chunkTokens
    ensures Splitting(text, cfg, tok) == [Chunk(0, tok.decode(Tokens(text, tok)), |Tokens(text, tok)|)]
  {
    var all, c := Tokens(text, tok), Clamped(cfg);
    CoreIsCounted(|all|, c.chunkTokens, 0);
    CoreIsCounted(|all|, c.chunkTokens, 1);
    assert Start(c.chunkTokens, 1) == c.chunkTokens;
    SliceIsStretch(all, c, 0);
    assert Slice(all, c, 0) == all;
  }

  lemma ClampedIs(cfg: Config, size: nat, prev: nat, next: nat)
    requires size == if cfg.chunkTokens <= 0 then 2800 else cfg.chunkTokens
    requires prev == if cfg.overlapPrev < 0 then 0 else if cfg.overlapPrev > size then size else cfg.overlapPrev
    requires next == if cfg.overlapNext < 0 then 0 else if cfg.overlapNext > size then size else cfg.overlapNext
    ensures Clamped(cfg) == Config(size, prev, next)
  {
  }

  lemma CutOnNumbers(all: seq<int>, c: Config, tok: Tokenizer, i: nat, start: nat, ch: Chunk)
    requires Clean(c) && HasCore(|all|, c.chunkTokens, i) && CutOut(all, c, tok, i, ch)
    requires start == Start(c.chunkTokens, i)
    ensures var end := if start + c.chunkTokens <= |all| then start + c.chunkTokens else |all|;
      var lo := if i == 0 then 0 else start - c.overlapPrev;
      var hi := if start + c.chunkTokens + c.overlapNext <= |all| then start + c.chunkTokens + c.overlapNext else |all|;
      && 0 <= lo <= start < end <= hi <= |all|
      && ch == Chunk(i, tok.decode(all[lo..hi]), end - start)
  {
    CoreIs(all, c, i);
  }

  /**
   * Split on its inputs: ceil(n / size) chunks, size being ChunkTokens or 2800, and chunk
   * i the decoding of its core with up to prev tokens before it and up to next after it.
   */
  lemma SplitOnInputs(text: string, cfg: Config, tok: Tokenizer, all: seq<int>, size: nat, prev: nat, next: nat, i: nat,
      start: nat, out: seq<Chunk>)
    requires all == (if text == "" then [] else tok.encode(text))
    requires size == if cfg.chunkTokens <= 0 then 2800 else cfg.chunkTokens
    requires prev == if cfg.overlapPrev < 0 then 0 else if cfg.overlapPrev > size then size else cfg.overlapPrev
    requires next == if cfg.overlapNext < 0 then 0 else if cfg.overlapNext > size then size else cfg.overlapNext
    requires start == i * size && out == Splitting(text, cfg, tok)
    ensures |out| == (|all| + size - 1) / size
    ensures i < |out| ==>
              var end := if start + size <= |all| then start + size else |all|;
              var lo := if i == 0 then 0 else start - prev;
              var hi := if start + size + next <= |all| then start + size + next else |all|;
              && 0 <= lo <= start < end <= hi <= |all|
              && out[i] == Chunk(i, tok.decode(all[lo..hi]), end - start)
  {
    ClampedIs(cfg, size, prev, next);
    assert |out| == Count(|all|, size);
    if i < |out| {
      SplittingAt(text, cfg, tok, i);
      CoreIsCounted(|all|, size, i);
      StartIs(size, i);
      CutOnNumbers(all, Config(size, prev, next), tok, i, start, out[i]);
    }
  }

  // ----- negative overlaps ---------------------------------------------------

  /** The config the loops would run with if negative overlaps fell back to the default of 400. */
  function Documented(cfg: Config): (c: Config)
    ensures Clean(c)
  {
    Clamped(cfg.(overlapPrev := if cfg.overlapPrev < 0 then 400 else cfg.overlapPrev,
                 overlapNext := if cfg.overlapNext < 0 then 400 else cfg.overlapNext))
  }

  lemma OneCoreHasNoOverlaps(all: seq<int>, c: Config, d: Config)
    requires Clean(c) && Clean(d) && c.chunkTokens == d.chunkTokens && |all| <= c.chunkTokens
    ensures SlicesOf(all, c) == SlicesOf(all, d)
  {
    var size := c.chunkTokens;
    CoresAreCounted(|all|, size);
    forall i | 0 <= i < Count(|all|, size)
      ensures Slice(all, c, i) == Slice(all, d, i)
    {
      StartIs(size, i);
      assert i == 0 by {
        if i > 0 {
          Times(1, i, size);
        }
      }
    }
  }

  /** A larger overlap makes slice i no shorter, and longer where there is a neighbour to take it from. */
  lemma MoreOverlapIsLonger(all: seq<int>, c: Config, d: Config, i: nat)
    requires Clean(c) && Clean(d) && c.chunkTokens == d.chunkTokens && HasCore(|all|, c.chunkTokens, i)
    requires c.overlapPrev <= d.overlapPrev && c.overlapNext <= d.overlapNext
    ensures |Slice(all, c, i)| <= |Slice(all, d, i)|
    ensures c.overlapPrev < d.overlapPrev && i > 0 ==> |Slice(all, c, i)| < |Slice(all, d, i)|
    ensures c.overlapNext == 0 < d.overlapNext && HasCore(|all|, c.chunkTokens, i + 1) ==>
              |Slice(all, c, i)| < |Slice(all, d, i)|
  {
    if i > 0 {
      assert |Core(all, c.chunkTokens, i - 1)| == c.chunkTokens;
    }
  }

  /**
   * Clamping negative overlaps to zero and falling back to the defaults cut the same
   * slices exactly when neither overlap is negative or the input fits one core.
   */
  lemma NegativeOverlapsIff(all: seq<int>, cfg: Config)
    ensures SlicesOf(all, Clamped(cfg)) == SlicesOf(all, Documented(cfg))
       <==> (cfg.overlapPrev >= 0 && cfg.overlapNext >= 0) || |all| <= Clamped(cfg).chunkTokens
  {
    var c, d := Clamped(cfg), Documented(cfg);
    if |all| <= c.chunkTokens {
      OneCoreHasNoOverlaps(all, c, d);
    } else if cfg.overlapPrev < 0 || cfg.overlapNext < 0 {
      var i := if cfg.overlapPrev < 0 then 1 else 0;
      assert Start(c.chunkTokens, 1) == Start(c.chunkTokens, 0) + c.chunkTokens;
      CoresAreCounted(|all|, c.chunkTokens);
      assert HasCore(|all|, c.chunkTokens, 1) && HasCore(|all|, c.chunkTokens, i);
      MoreOverlapIsLonger(all, c, d, i);
      assert SlicesOf(all, c)[i] == Slice(all, c, i) && SlicesOf(all, d)[i] == Slice(all, d, i);
    }
  }
}
