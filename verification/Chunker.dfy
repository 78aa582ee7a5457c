/**
  The heading-aware chunker's packing loop: sentence units are packed into windows of at most `target` characters,
  neighbouring windows overlap, and windows with too little text are merged into the previous chunk. Splitting a text
  into units and trimming are inputs.
 */
module Chunker {
  import opened Basics
  import opened HeadingPaths

  /** A sentence-like unit of the text, by its offsets. */
  datatype Unit = Unit(start: nat, end: nat)

  datatype Options = Options(target: nat, overlap: nat, min: nat)

  datatype Chunk = Chunk(ordinal: nat, headingPath: seq<string>, text: string, start: nat, end: nat, tokenEstimate: nat)

  /** Units `first` up to but not including `last`, and the characters taken. */
  datatype Window = Window(first: nat, last: nat, start: nat, end: nat)

  datatype Input = Input(text: string, units: seq<Unit>, headings: seq<Heading>, options: Options,
                         trim: string -> string)

  /** Units are non-empty, inside the text, in order and disjoint. */
  predicate UnitsOk(textLength: nat, units: seq<Unit>) {
    && (forall m :: 0 <= m < |units| ==> units[m].start < units[m].end <= textLength)
    && (forall m, n :: 0 <= m < n < |units| ==> units[m].end <= units[n].start)
  }

  predicate InputOk(x: Input) {
    UnitsOk(|x.text|, x.units)
  }

  // ---------- windows ----------

  /** The first unit from `j` on that no longer fits into a window starting at `start`. */
  function Pack(units: seq<Unit>, start: nat, j: nat, target: nat): (r: nat)
    requires j <= |units|
    ensures j <= r <= |units|
    ensures forall m :: j <= m < r ==> units[m].end - start <= target
    ensures r < |units| ==> units[r].end - start > target
    decreases |units| - j
  {
    if j < |units| && units[j].end - start <= target then Pack(units, start, j + 1, target) else j
  }

  function Min(a: nat, b: nat): nat { if a <= b then a else b }
  function Max(a: nat, b: nat): nat { if a >= b then a else b }

  function WindowAt(units: seq<Unit>, i: nat, target: nat): Window
    requires i < |units|
  {
    var start := units[i].start;
    var j := Pack(units, start, i, target);
    if j == i then Window(i, i + 1, start, Min(units[i].end, start + target))
    else Window(i, j, start, units[j - 1].end)
  }

  /** Walks back over the units that start inside the overlap. */
  function WalkBack(units: seq<Unit>, i: nat, k: nat, from: int): (r: nat)
    requires k <= |units|
    ensures r <= k && (i < k ==> i < r)
    decreases k
  {
    if k > i + 1 && units[k - 1].start >= from then WalkBack(units, i, k - 1, from) else k
  }

  /** Where the overlap is looked for: before the window's last unit, or right after a window of one unit. */
  function WalkStart(w: Window, overlap: nat): nat
    requires w.first < w.last
  {
    if overlap > 0 && w.last - 1 > w.first then w.last - 1 else w.last
  }

  function NextFirst(units: seq<Unit>, w: Window, overlap: nat): nat
    requires w.first < w.last <= |units|
  {
    Max(w.first + 1, WalkBack(units, w.first, WalkStart(w, overlap), w.end - overlap))
  }

  function Windows(units: seq<Unit>, options: Options, i: nat): seq<Window>
    decreases |units| - i
  {
    if i >= |units| then []
    else
      var w := WindowAt(units, i, options.target);
      [w] + Windows(units, options, NextFirst(units, w, options.overlap))
  }

  // ---------- chunks ----------

  function Body(x: Input, start: nat, end: nat): string
    requires start <= end <= |x.text|
  {
    x.trim(x.text[start..end])
  }

  /** Too little text for a chunk of its own, and not the end of the text. */
  predicate Small(x: Input, w: Window)
    requires w.start <= w.end <= |x.text|
  {
    |Body(x, w.start, w.end)| < x.options.min && w.last < |x.units|
  }

  function AddWindow(x: Input, chunks: seq<Chunk>, w: Window): seq<Chunk>
    requires w.start <= w.end <= |x.text|
    requires forall c :: c in chunks ==> c.start <= w.end
  {
    if !Small(x, w) || chunks == [] then
      var body := Body(x, w.start, w.end);
      chunks + [Chunk(|chunks|, HeadingPathAt(w.start, x.headings), body, w.start, w.end, (|body| + 3) / 4)]
    else
      var prev := chunks[|chunks| - 1];
      var body := Body(x, prev.start, w.end);
      chunks[|chunks| - 1 := prev.(text := body, end := w.end, tokenEstimate := (|body| + 3) / 4)]
  }

  /** Windows of a text: well-formed, starts strictly increasing, ends never decreasing. */
  predicate WindowsOk(x: Input, ws: seq<Window>) {
    && (forall a :: 0 <= a < |ws| ==> WindowOk(x, ws[a]))
    && (forall a, b :: 0 <= a < b < |ws| ==> ws[a].start < ws[b].start && ws[a].end <= ws[b].end)
  }

  function Assemble(x: Input, ws: seq<Window>): (chunks: seq<Chunk>)
    requires WindowsOk(x, ws)
    ensures ws != [] ==> forall c :: c in chunks ==> c.start <= ws[|ws| - 1].start && c.end <= ws[|ws| - 1].end
    ensures ws == [] <==> chunks == []
  {
    if ws == [] then [] else AddWindow(x, Assemble(x, ws[..|ws| - 1]), ws[|ws| - 1])
  }

  // ---------- windows cover the units ----------

  /** A window takes whole units, except that a unit longer than the target is cut. */
  lemma WindowIsSound(textLength: nat, units: seq<Unit>, i: nat, target: nat)
    requires UnitsOk(textLength, units) && i < |units|
    ensures var w := WindowAt(units, i, target);
            && w.first == i && i < w.last <= |units|
            && w.start == units[i].start && w.start <= w.end <= textLength && w.end - w.start <= target
            && (forall m :: w.first <= m < w.last ==>
                w.start <= units[m].start && Min(units[m].end, units[m].start + target) <= w.end)
            && w.end == Min(units[w.last - 1].end, w.start + target)
            && (w.last < |units| ==> w.end <= units[w.last].start && units[w.last].end - w.start > target)
  {
    var w := WindowAt(units, i, target);
    forall m | w.first <= m < w.last
      ensures w.start <= units[m].start && Min(units[m].end, units[m].start + target) <= w.end
    {
      assert m > i ==> units[i].end <= units[m].start;
      assert m < w.last - 1 ==> units[m].end <= units[w.last - 1].start;
    }
  }

  /** The next window starts later, at or before the first unit not yet taken, and ends no earlier. */
  lemma NextWindow(textLength: nat, units: seq<Unit>, i: nat, options: Options)
    requires UnitsOk(textLength, units) && i < |units|
    ensures var w := WindowAt(units, i, options.target);
            var next := NextFirst(units, w, options.overlap);
            && i < next <= w.last <= |units|
            && (next < |units| ==>
                  && w.start < units[next].start
                  && w.end <= WindowAt(units, next, options.target).end
                  && w.last <= WindowAt(units, next, options.target).last)
  {
    var target := options.target;
    var w := WindowAt(units, i, target);
    WindowIsSound(textLength, units, i, target);
    var next := NextFirst(units, w, options.overlap);
    if next < |units| {
      WindowIsSound(textLength, units, next, target);
      assert units[i].end <= units[next].start;
      if next < w.last {
        PacksAsFar(units, units[i].start, units[next].start, i, next, w.last, target);
        assert w.last - 1 > i;
      } else {
        assert w.end <= units[next].start;
      }
    }
  }

  lemma {:induction false} WalkBackIsExact(textLength: nat, units: seq<Unit>, i: nat, k: nat, from: int, m: nat)
    requires UnitsOk(textLength, units) && i < m < k <= |units|
    ensures WalkBack(units, i, k, from) <= m <==> units[m].start >= from
    decreases k
  {
    if k > i + 1 && units[k - 1].start >= from {
      if m < k - 1 {
        WalkBackIsExact(textLength, units, i, k - 1, from, m);
      }
    } else if k > i + 1 && m < k - 1 {
      assert units[m].end <= units[k - 1].start;
    }
  }

  /** A unit of the window is repeated in the next one exactly when it is the last or starts inside the overlap. */
  lemma OverlapIsExact(textLength: nat, units: seq<Unit>, i: nat, options: Options, m: nat)
    requires UnitsOk(textLength, units) && i < |units|
    requires i < m < WindowAt(units, i, options.target).last
    ensures var w := WindowAt(units, i, options.target);
            NextFirst(units, w, options.overlap) <= m
            <==> (m == w.last - 1 && options.overlap > 0) || units[m].start >= w.end - options.overlap
  {
    WindowIsSound(textLength, units, i, options.target);
    var w := WindowAt(units, i, options.target);
    hide WindowAt;
    var k := WalkStart(w, options.overlap);
    if m < k {
      WalkBackIsExact(textLength, units, i, k, w.end - options.overlap, m);
    }
  }

  /** What fits after an earlier start fits after a later one. */
  lemma {:induction false} PacksAsFar(units: seq<Unit>, early: nat, late: nat, i: nat, j: nat, last: nat, target: nat)
    requires early <= late && i <= j <= last <= |units|
    requires forall m :: i <= m < last ==> units[m].end - early <= target
    ensures Pack(units, late, j, target) >= last
    decreases last - j
  {
    if j < last {
      PacksAsFar(units, early, late, i, j + 1, last, target);
    }
  }

  predicate WindowOk(x: Input, w: Window) {
    && w.first < w.last <= |x.units|
    && w.start == x.units[w.first].start
    && w.start <= w.end <= |x.text| && w.end - w.start <= x.options.target
  }

  lemma WindowInFront(x: Input, w: Window, rest: seq<Window>)
    requires WindowOk(x, w) && WindowsOk(x, rest)
    requires rest != [] ==> w.start < rest[0].start && w.end <= rest[0].end
    ensures WindowsOk(x, [w] + rest)
  {
    forall b | 0 <= b < |rest| ensures w.start < rest[b].start && w.end <= rest[b].end {
      assert b > 0 ==> rest[0].start < rest[b].start && rest[0].end <= rest[b].end;
    }
  }

  lemma {:induction false} WindowsAreSound(x: Input, i: nat)
    requires InputOk(x)
    ensures var ws := Windows(x.units, x.options, i);
            && WindowsOk(x, ws)
            && (i < |x.units| ==> ws != [] && ws[0] == WindowAt(x.units, i, x.options.target))
            && |ws| + i <= Max(i, |x.units|)
    decreases |x.units| - i
  {
    hide WindowAt, NextFirst, WindowsOk, UnitsOk;
    if i >= |x.units| {
      NoWindowsAreSound(x);
    } else {
      WindowIsSound(|x.text|, x.units, i, x.options.target);
      NextWindow(|x.text|, x.units, i, x.options);
      var w := WindowAt(x.units, i, x.options.target);
      var next := NextFirst(x.units, w, x.options.overlap);
      WindowsAreSound(x, next);
      if next < |x.units| {
        WindowIsSound(|x.text|, x.units, next, x.options.target);
      }
      WindowInFront(x, w, Windows(x.units, x.options, next));
    }
  }

  lemma NoWindowsAreSound(x: Input)
    ensures WindowsOk(x, [])
  {}

  /** The end of the unit, or of its first `target` characters when it is longer. */
  function TakenEnd(x: Input, m: nat): nat
    requires m < |x.units|
  {
    Min(x.units[m].end, x.units[m].start + x.options.target)
  }

  /** The unit, up to that end, lies inside the window. */
  predicate Takes(x: Input, w: Window, m: nat)
    requires m < |x.units|
  {
    w.start <= x.units[m].start && TakenEnd(x, m) <= w.end
  }

  lemma {:induction false} EveryUnitIsTaken(x: Input, i: nat, m: nat)
    requires InputOk(x) && i <= m < |x.units|
    ensures exists w :: w in Windows(x.units, x.options, i) && Takes(x, w, m)
    decreases |x.units| - i
  {
    hide WindowAt, NextFirst;
    WindowIsSound(|x.text|, x.units, i, x.options.target);
    NextWindow(|x.text|, x.units, i, x.options);
    var w := WindowAt(x.units, i, x.options.target);
    if m < w.last {
      assert w in Windows(x.units, x.options, i) && Takes(x, w, m);
    } else {
      var next := NextFirst(x.units, w, x.options.overlap);
      EveryUnitIsTaken(x, next, m);
      var v :| v in Windows(x.units, x.options, next) && Takes(x, v, m);
      assert v in Windows(x.units, x.options, i);
    }
  }

  // ---------- chunks cover the windows ----------

  predicate Within(start: nat, end: nat, c: Chunk) {
    c.start <= start && end <= c.end
  }

  predicate ChunkOk(x: Input, c: Chunk) {
    && c.start <= c.end <= |x.text|
    && c.text == Body(x, c.start, c.end)
    && c.tokenEstimate == (|c.text| + 3) / 4
    && c.headingPath == HeadingPathAt(c.start, x.headings)
  }

  /** Chunk by chunk: numbered, in order, and each the trimmed text between its offsets. */
  predicate ChunksOk(x: Input, chunks: seq<Chunk>) {
    && (forall a :: 0 <= a < |chunks| ==> chunks[a].ordinal == a && ChunkOk(x, chunks[a]))
    && (forall a, b :: 0 <= a < b < |chunks| ==> chunks[a].start < chunks[b].start && chunks[a].end <= chunks[b].end)
  }

  /** A chunk's token estimate is a quarter of its length, rounded up. */
  lemma TokenEstimateIsCeiling(x: Input, c: Chunk)
    requires ChunkOk(x, c)
    ensures 4 * c.tokenEstimate - 4 < |c.text| <= 4 * c.tokenEstimate
  {}

  /**
    A window gets a chunk of its own exactly when it is the first, has enough text, or reaches the end; otherwise the
    chunk before it grows to the window's end.
   */
  lemma WindowsGetChunks(x: Input, ws: seq<Window>, a: nat)
    requires WindowsOk(x, ws) && a < |ws|
    ensures var before, after, w := Assemble(x, ws[..a]), Assemble(x, ws[..a + 1]), ws[a];
            var own := a == 0 || |x.trim(x.text[w.start..w.end])| >= x.options.min || w.last == |x.units|;
            && |after| == |before| + (if own then 1 else 0) && after != []
            && (forall i :: 0 <= i < |after| - 1 ==> after[i] == before[i])
            && after[|after| - 1].end == w.end
            && after[|after| - 1].start == (if own then w.start else before[|before| - 1].start)
  {
    var upTo := ws[..a + 1];
    assert upTo[..|upTo| - 1] == ws[..a] && upTo[|upTo| - 1] == ws[a];
    assert WindowOk(x, ws[a]);
  }

  /** The chunk's end comes from a window that was merged into it. */
  predicate Extended(x: Input, ws: seq<Window>, c: Chunk) {
    exists w :: w in ws && w.start <= w.end <= |x.text| && Small(x, w) && w.end == c.end && c.start < w.start
  }

  /** Every chunk starts before the window and ends no later. */
  predicate Precede(chunks: seq<Chunk>, w: Window) {
    forall a :: 0 <= a < |chunks| ==> chunks[a].start < w.start && chunks[a].end <= w.end
  }

  lemma AddWindowIsSound(x: Input, chunks: seq<Chunk>, w: Window)
    requires ChunksOk(x, chunks) && w.start <= w.end <= |x.text| && Precede(chunks, w)
    ensures var r := AddWindow(x, chunks, w);
            && ChunksOk(x, r)
            && |chunks| <= |r| <= |chunks| + 1 && r != []
            && r[|r| - 1].start <= w.start && r[|r| - 1].end == w.end
            && forall a :: 0 <= a < |chunks| ==> r[a].start == chunks[a].start && chunks[a].end <= r[a].end
  {
    hide Body, HeadingPathAt, Small, ChunkOk;
    var r := AddWindow(x, chunks, w);
    LastIsSound(x, chunks, w);
    assert ChunkOk(x, r[|r| - 1]);
  }

  lemma LastIsSound(x: Input, chunks: seq<Chunk>, w: Window)
    requires ChunksOk(x, chunks) && w.start <= w.end <= |x.text| && Precede(chunks, w)
    ensures var r := AddWindow(x, chunks, w);
            r != [] && ChunkOk(x, r[|r| - 1])
  {
    hide Body, HeadingPathAt, Small;
    assert chunks != [] ==> ChunkOk(x, chunks[|chunks| - 1]);
  }

  lemma {:induction false} AssembleIsSound(x: Input, ws: seq<Window>)
    requires WindowsOk(x, ws)
    ensures ChunksOk(x, Assemble(x, ws)) && |Assemble(x, ws)| <= |ws|
    decreases |ws|
  {
    hide ChunksOk, AddWindow;
    if ws == [] {
      NoChunksAreSound(x);
    } else {
      AssembleIsSound(x, ws[..|ws| - 1]);
      ChunksPrecede(x, ws);
      AddWindowIsSound(x, Assemble(x, ws[..|ws| - 1]), ws[|ws| - 1]);
    }
  }

  lemma NoChunksAreSound(x: Input)
    ensures ChunksOk(x, [])
  {}

  lemma ChunksPrecede(x: Input, ws: seq<Window>)
    requires WindowsOk(x, ws) && ws != []
    ensures Precede(Assemble(x, ws[..|ws| - 1]), ws[|ws| - 1])
  {
    var before := Assemble(x, ws[..|ws| - 1]);
    forall a | 0 <= a < |before| ensures before[a].start < ws[|ws| - 1].start && before[a].end <= ws[|ws| - 1].end {
      assert before[a] in before;
      var v := ws[..|ws| - 1][|ws| - 2];
      assert v == ws[|ws| - 2] && v.start < ws[|ws| - 1].start && v.end <= ws[|ws| - 1].end;
    }
  }

  lemma LastWindowFits(x: Input, ws: seq<Window>)
    requires WindowsOk(x, ws) && ws != []
    ensures WindowsOk(x, ws[..|ws| - 1]) && ws[|ws| - 1].start <= ws[|ws| - 1].end <= |x.text|
  {}

  /**
    One more window: the chunks there are keep their starts and their ends do not fall, and the last holds the
    window.
   */
  lemma OneMoreChunk(x: Input, ws: seq<Window>)
    requires WindowsOk(x, ws) && ws != []
    ensures var before, chunks := Assemble(x, ws[..|ws| - 1]), Assemble(x, ws);
            && |before| <= |chunks| && chunks != []
            && Within(ws[|ws| - 1].start, ws[|ws| - 1].end, chunks[|chunks| - 1])
            && forall n :: 0 <= n < |before| ==> Within(before[n].start, before[n].end, chunks[n])
  {
    hide ChunksOk, AddWindow, WindowOk, Precede, Small;
    AssembleIsSound(x, ws[..|ws| - 1]);
    ChunksPrecede(x, ws);
    LastWindowFits(x, ws);
    AddWindowIsSound(x, Assemble(x, ws[..|ws| - 1]), ws[|ws| - 1]);
  }

  /** Chunks only grow: what lies inside a chunk after `k` windows lies inside a chunk at the end. */
  lemma {:induction false} ChunksGrow(x: Input, ws: seq<Window>, k: nat, start: nat, end: nat)
    requires WindowsOk(x, ws) && k <= |ws|
    requires exists c :: c in Assemble(x, ws[..k]) && Within(start, end, c)
    ensures exists c :: c in Assemble(x, ws) && Within(start, end, c)
    decreases |ws|
  {
    hide AddWindow, WindowOk, WindowsOk, Assemble;
    if k == |ws| {
      assert ws[..k] == ws;
    } else {
      var init := ws[..|ws| - 1];
      LastWindowFits(x, ws);
      assert init[..k] == ws[..k];
      ChunksGrow(x, init, k, start, end);
      OneMoreChunk(x, ws);
      var c :| c in Assemble(x, init) && Within(start, end, c);
      var n :| 0 <= n < |Assemble(x, init)| && Assemble(x, init)[n] == c;
      assert Assemble(x, ws)[n] in Assemble(x, ws);
    }
  }

  lemma PrefixOk(x: Input, ws: seq<Window>, k: nat)
    requires WindowsOk(x, ws) && k <= |ws|
    ensures WindowsOk(x, ws[..k])
  {}

  lemma WindowsAreKept(x: Input, ws: seq<Window>, w: Window)
    requires WindowsOk(x, ws) && w in ws
    ensures exists c :: c in Assemble(x, ws) && Within(w.start, w.end, c)
  {
    hide AddWindow, WindowOk, WindowsOk, Assemble;
    var a :| 0 <= a < |ws| && ws[a] == w;
    PrefixOk(x, ws, a + 1);
    OneMoreChunk(x, ws[..a + 1]);
    var chunks := Assemble(x, ws[..a + 1]);
    assert chunks[|chunks| - 1] in chunks;
    ChunksGrow(x, ws, a + 1, w.start, w.end);
  }

  /** A window that is not small leaves the chunks before it as they are for good, and starts the next one. */
  lemma {:induction false} PrefixStays(x: Input, ws: seq<Window>, k: nat)
    requires WindowsOk(x, ws) && 0 < k < |ws| && !Small(x, ws[k])
    ensures var before, chunks := Assemble(x, ws[..k]), Assemble(x, ws);
            before < chunks && chunks[|before|].start == ws[k].start
    decreases |ws|
  {
    hide Small, AddWindow, WindowsOk, WindowOk;
    var init, w := ws[..|ws| - 1], ws[|ws| - 1];
    LastWindowFits(x, ws);
    StartsFit(x, ws);
    PrefixOk(x, ws, k);
    if |ws| > k + 1 {
      assert init[..k] == ws[..k];
      PrefixStays(x, init, k);
      AddingKeepsPrefix(x, Assemble(x, ws[..k]), Assemble(x, init), w);
    } else {
      assert init == ws[..k];
      AddingPushes(x, Assemble(x, init), w);
    }
  }

  lemma AddingKeepsPrefix(x: Input, first: seq<Chunk>, chunks: seq<Chunk>, w: Window)
    requires w.start <= w.end <= |x.text| && (forall c :: c in chunks ==> c.start <= w.end) && first < chunks
    ensures first < AddWindow(x, chunks, w) && AddWindow(x, chunks, w)[|first|].start == chunks[|first|].start
  {
    hide Small, Body, HeadingPathAt;
  }

  lemma AddingPushes(x: Input, chunks: seq<Chunk>, w: Window)
    requires w.start <= w.end <= |x.text| && (forall c :: c in chunks ==> c.start <= w.end) && !Small(x, w)
    ensures chunks < AddWindow(x, chunks, w) && AddWindow(x, chunks, w)[|chunks|].start == w.start
  {
    hide Small, Body, HeadingPathAt;
  }

  /** A chunk after one more window was there before, is the window's own, or is the last with the window merged in. */
  lemma AddedChunk(x: Input, before: seq<Chunk>, w: Window, n: nat)
    requires w.start <= w.end <= |x.text| && forall c :: c in before ==> c.start <= w.end
    requires n < |AddWindow(x, before, w)|
    ensures var c := AddWindow(x, before, w)[n];
            || (n < |before| && before[n] == c)
            || (c.start == w.start && c.end == w.end)
            || (n == |before| - 1 && Small(x, w) && c.start == before[n].start && c.end == w.end)
  {
    hide Body, HeadingPathAt, Small;
  }

  lemma {:induction false} LongChunksAreExtended(x: Input, ws: seq<Window>, n: nat)
    requires WindowsOk(x, ws) && n < |Assemble(x, ws)|
    ensures var c := Assemble(x, ws)[n];
            c.end - c.start <= x.options.target || Extended(x, ws, c)
    decreases |ws|
  {
    hide Small, AddWindow;
    var w := ws[|ws| - 1];
    var init := ws[..|ws| - 1];
    var before, c := Assemble(x, init), Assemble(x, ws)[n];
    LastWindowFits(x, ws);
    StartsFit(x, ws);
    AddedChunk(x, before, w, n);
    hide Assemble;
    if n < |before| && before[n] == c {
      LongChunksAreExtended(x, init, n);
      if Extended(x, init, c) {
        var v :| v in init && v.start <= v.end <= |x.text| && Small(x, v) && v.end == c.end && c.start < v.start;
        assert v in ws;
      }
    } else if c.start != w.start {
      assert before[n] in before;
      assert init[|init| - 1] == ws[|ws| - 2] && ws[|ws| - 2].start < w.start;
      assert w in ws;
    }
  }

  // ---------- the whole algorithm ----------

  /** Nothing for a blank text. */
  function ChunkText(x: Input): seq<Chunk>
    requires InputOk(x)
  {
    if x.trim(x.text) == "" then []
    else
      WindowsAreSound(x, 0);
      Assemble(x, Windows(x.units, x.options, 0))
  }

  /**
    Chunks are numbered from 0, there are at most as many as units, starts strictly increase and ends never decrease,
    and each chunk, merged or not, is the trimmed text between its offsets.
   */
  lemma ChunksAreInOrder(x: Input)
    requires InputOk(x)
    ensures ChunksOk(x, ChunkText(x)) && |ChunkText(x)| <= |x.units|
  {
    WindowsAreSound(x, 0);
    AssembleIsSound(x, Windows(x.units, x.options, 0));
    hide Windows, Assemble;
  }

  /** Nothing is lost: every unit, or its first `target` characters when it is longer, lies inside some chunk. */
  lemma NothingIsLost(x: Input, m: nat)
    requires InputOk(x) && x.trim(x.text) != "" && m < |x.units|
    ensures exists c :: c in ChunkText(x) && Within(x.units[m].start, TakenEnd(x, m), c)
  {
    hide Windows, Assemble, WindowsOk;
    WindowsAreSound(x, 0);
    EveryUnitIsTaken(x, 0, m);
    var ws := Windows(x.units, x.options, 0);
    var w :| w in ws && Takes(x, w, m);
    WindowsAreKept(x, ws, w);
    var c :| c in Assemble(x, ws) && Within(w.start, w.end, c);
    assert Within(x.units[m].start, TakenEnd(x, m), c);
  }

  /** A chunk that spans more than the target was extended by a merge. */
  lemma UnmergedChunksFit(x: Input, n: nat)
    requires InputOk(x) && n < |ChunkText(x)|
    ensures var c := ChunkText(x)[n];
            c.end - c.start <= x.options.target || Extended(x, Windows(x.units, x.options, 0), c)
  {
    WindowsAreSound(x, 0);
    hide Windows;
    LongChunksAreExtended(x, Windows(x.units, x.options, 0), n);
  }

  predicate IsLong(x: Input, m: nat)
    requires m < |x.units|
  {
    x.units[m].end - x.units[m].start > x.options.target
  }

  /** The unit after this one begins a window with too little text. */
  predicate SmallNext(x: Input, m: nat)
    requires InputOk(x) && m < |x.units|
  {
    m + 1 < |x.units| &&
    (WindowIsSound(|x.text|, x.units, m + 1, x.options.target);
     Small(x, WindowAt(x.units, m + 1, x.options.target)))
  }

  /** A unit longer than the target is a window of its own, and no earlier window reaches it. */
  lemma LongUnitStops(x: Input, i: nat, m: nat)
    requires InputOk(x) && i <= m < |x.units| && IsLong(x, m)
    ensures var w := WindowAt(x.units, i, x.options.target);
            if i == m
            then w == Window(m, m + 1, x.units[m].start, x.units[m].start + x.options.target)
                 && NextFirst(x.units, w, x.options.overlap) == m + 1
            else i < NextFirst(x.units, w, x.options.overlap) <= m
  {
    NextWindow(|x.text|, x.units, i, x.options);
    if i < m {
      assert x.units[i].end <= x.units[m].start;
    }
  }

  /** Its window is among the windows, and the unit after it begins the next one. */
  lemma {:induction false} LongUnitWindow(x: Input, i: nat, m: nat) returns (before: seq<Window>)
    requires InputOk(x) && i <= m < |x.units| && IsLong(x, m)
    ensures var cut := Window(m, m + 1, x.units[m].start, x.units[m].start + x.options.target);
            Windows(x.units, x.options, i) == before + [cut] + Windows(x.units, x.options, m + 1)
    decreases |x.units| - i
  {
    hide WindowAt, NextFirst, UnitsOk;
    var w := WindowAt(x.units, i, x.options.target);
    LongUnitStops(x, i, m);
    WindowIsSound(|x.text|, x.units, i, x.options.target);
    if i == m {
      before := [];
      assert [] + [w] == [w];
    } else {
      var rest := LongUnitWindow(x, NextFirst(x.units, w, x.options.overlap), m);
      before := [w] + rest;
    }
  }

  lemma LastIsMerged(x: Input, ws: seq<Window>)
    requires WindowsOk(x, ws) && |ws| >= 2 && Small(x, ws[|ws| - 1])
    ensures var chunks := Assemble(x, ws);
            chunks != [] && Within(ws[|ws| - 2].start, ws[|ws| - 1].end, chunks[|chunks| - 1])
  {
    hide WindowOk, Small, AddWindow, WindowsOk;
    var init := ws[..|ws| - 1];
    LastWindowFits(x, ws);
    assert init[|init| - 1] == ws[|ws| - 2];
    OneMoreChunk(x, init);
    StartsFit(x, ws);
    MergeExtends(x, Assemble(x, init), ws[|ws| - 1]);
  }

  lemma StartsFit(x: Input, ws: seq<Window>)
    requires WindowsOk(x, ws) && ws != []
    ensures forall c :: c in Assemble(x, ws[..|ws| - 1]) ==> c.start <= ws[|ws| - 1].end
  {
    ChunksPrecede(x, ws);
    LastWindowFits(x, ws);
    hide WindowsOk, Assemble;
    var before := Assemble(x, ws[..|ws| - 1]);
    forall c | c in before ensures c.start <= ws[|ws| - 1].end {
      var n :| 0 <= n < |before| && before[n] == c;
    }
  }

  lemma MergeExtends(x: Input, chunks: seq<Chunk>, w: Window)
    requires w.start <= w.end <= |x.text| && chunks != [] && Small(x, w)
    requires forall c :: c in chunks ==> c.start <= w.end
    ensures var r := AddWindow(x, chunks, w);
            |r| == |chunks| && r[|r| - 1].start == chunks[|chunks| - 1].start && r[|r| - 1].end == w.end
  {}

  /** A small window is merged into the chunk that holds the window before it. */
  lemma SmallWindowIsMerged(x: Input, ws: seq<Window>, k: nat)
    requires WindowsOk(x, ws) && 0 < k < |ws| && Small(x, ws[k])
    ensures exists c :: c in Assemble(x, ws) && Within(ws[k - 1].start, ws[k].end, c)
  {
    hide WindowOk, Small, AddWindow, WindowsOk, Assemble;
    PrefixOk(x, ws, k + 1);
    LastIsMerged(x, ws[..k + 1]);
    var chunks := Assemble(x, ws[..k + 1]);
    assert chunks[|chunks| - 1] in chunks;
    ChunksGrow(x, ws, k + 1, ws[k - 1].start, ws[k].end);
  }

  /** Before a window that is not small, or at the end, no chunk that starts earlier ends after the window before it. */
  lemma ChunksEndBefore(x: Input, ws: seq<Window>, k: nat, c: Chunk)
    requires WindowsOk(x, ws) && 0 < k <= |ws| && (k < |ws| ==> !Small(x, ws[k])) && c in Assemble(x, ws)
    ensures c.end <= ws[k - 1].end || (k < |ws| && c.start >= ws[k].start)
  {
    hide WindowOk, Small, AddWindow, Body, HeadingPathAt;
    PrefixOk(x, ws, k);
    if k < |ws| {
      PrefixStays(x, ws, k);
      AssembleIsSound(x, ws);
      var first, chunks := Assemble(x, ws[..k]), Assemble(x, ws);
      var n :| 0 <= n < |chunks| && chunks[n] == c;
      assert n < |first| ==> c == first[n] && first[n] in first;
    } else {
      assert ws[..k] == ws;
    }
  }

  /**
    A unit is inside one chunk, whole, exactly when it fits the target or the window after it is small: merging that
    window re-reads the text from the chunk's start and so brings back what the cut had dropped.
   */
  lemma LongUnitIsCut(x: Input, m: nat)
    requires InputOk(x) && x.trim(x.text) != "" && m < |x.units|
    ensures (exists c :: c in ChunkText(x) && Within(x.units[m].start, x.units[m].end, c))
       <==> !IsLong(x, m) || SmallNext(x, m)
  {
    hide Windows, Assemble, WindowsOk, WindowAt, UnitsOk, Small;
    if IsLong(x, m) {
      WindowsAreSound(x, 0);
      var before := LongUnitWindow(x, 0, m);
      var ws, k := Windows(x.units, x.options, 0), |before| + 1;
      if m + 1 < |x.units| {
        WindowsFollow(x, m);
        assert ws[k] == Windows(x.units, x.options, m + 1)[0];
      } else {
        NoMoreWindows(x, m + 1);
      }
      if SmallNext(x, m) {
        SmallWindowIsMerged(x, ws, k);
        var c :| c in Assemble(x, ws) && Within(ws[k - 1].start, ws[k].end, c);
        assert c in ChunkText(x) && Within(x.units[m].start, x.units[m].end, c);
      } else {
        forall c | c in Assemble(x, ws) ensures !Within(x.units[m].start, x.units[m].end, c) {
          ChunksEndBefore(x, ws, k, c);
        }
      }
    } else {
      NothingIsLost(x, m);
    }
  }

  /** One unit of two characters with a target of one: the second character is in no chunk. */
  lemma LongUnitLosesItsRest()
    ensures var x := Input("ab", [Unit(0, 2)], [], Options(1, 0, 0), (text: string) => text);
            InputOk(x) && forall c :: c in ChunkText(x) ==> !Within(0, 2, c)
  {
    var x := Input("ab", [Unit(0, 2)], [], Options(1, 0, 0), (text: string) => text);
    assert x.trim(x.text) == "ab" && IsLong(x, 0) && !SmallNext(x, 0);
    LongUnitIsCut(x, 0);
    hide ChunkText;
  }

  lemma WindowsFollow(x: Input, m: nat)
    requires InputOk(x) && m + 1 < |x.units|
    ensures x.units[m].start < x.units[m].end <= x.units[m + 1].start
    ensures Windows(x.units, x.options, m + 1) != []
    ensures Windows(x.units, x.options, m + 1)[0] == WindowAt(x.units, m + 1, x.options.target)
    ensures WindowAt(x.units, m + 1, x.options.target).start == x.units[m + 1].start
    ensures WindowAt(x.units, m + 1, x.options.target).end >= x.units[m + 1].start
  {
    WindowIsSound(|x.text|, x.units, m + 1, x.options.target);
  }

  /** The chunk after the one that holds the window begins inside the window and does not go beyond it. */
  predicate RepeatsTailOf(chunks: seq<Chunk>, n: nat, w: Window) {
    && 0 < n < |chunks| && Within(w.start, w.end, chunks[n - 1])
    && w.start < chunks[n].start && chunks[n].end <= w.end
  }

  /**
    A window that reaches the end of the text is followed by a chunk that only repeats part of it exactly when there is
    an overlap and the window holds several units.
   */
  lemma TailIsRepeated(x: Input, w: Window)
    requires InputOk(x) && x.trim(x.text) != "" && w in Windows(x.units, x.options, 0) && w.last == |x.units|
    ensures (exists n :: RepeatsTailOf(ChunkText(x), n, w)) <==> x.options.overlap > 0 && w.last - w.first > 1
  {
    hide Windows, Small, Assemble, WindowsOk, ChunkText;
    WindowsAreSound(x, 0);
    var ws := Windows(x.units, x.options, 0);
    var a :| 0 <= a < |ws| && ws[a] == w;
    TextIsAssembled(x);
    if x.options.overlap > 0 && w.last - w.first > 1 {
      LastWindowGoesOn(x, 0, a);
      StartsAscend(x, ws, a);
      var n := RepeatedChunk(x, ws, a + 1);
      assert RepeatsTailOf(ChunkText(x), n, w);
    } else {
      LastWindowStops(x, 0, a);
      StartsNoLater(x, ws);
    }
  }

  const TWO_UNITS := Input("ab", [Unit(0, 1), Unit(1, 2)], [], Options(2, 1, 0), (text: string) => text)

  lemma TwoUnitWindows()
    ensures InputOk(TWO_UNITS)
    ensures Windows(TWO_UNITS.units, TWO_UNITS.options, 0) == [Window(0, 2, 0, 2), Window(1, 2, 1, 2)]
  {
    var units, a, b := TWO_UNITS.units, Window(0, 2, 0, 2), Window(1, 2, 1, 2);
    assert Pack(units, 0, 2, 2) == 2 && Pack(units, 1, 2, 2) == 2;
    assert WindowAt(units, 0, 2) == a && WindowAt(units, 1, 2) == b;
    assert NextFirst(units, a, 1) == 1 && NextFirst(units, b, 1) == 2;
    hide WindowAt, NextFirst;
    assert Windows(units, TWO_UNITS.options, 2) == [];
    assert Windows(units, TWO_UNITS.options, 1) == [b];
  }

  lemma OwnChunk(x: Input, ws: seq<Window>, w: Window)
    requires WindowsOk(x, ws + [w]) && w.start <= w.end <= |x.text| && !Small(x, w)
    ensures WindowsOk(x, ws)
    ensures var before, chunks := Assemble(x, ws), Assemble(x, ws + [w]);
            |chunks| == |before| + 1 && chunks[..|before|] == before
            && chunks[|before|].text == Body(x, w.start, w.end)
  {
    hide Body, Small, HeadingPathAt;
    LastWindowFits(x, ws + [w]);
    StartsFit(x, ws + [w]);
    assert (ws + [w])[..|ws|] == ws;
  }

  /** Two units that fit one window, with an overlap of one: the second is repeated in a chunk of its own. */
  lemma TwoUnitsRepeatOne()
    ensures InputOk(TWO_UNITS) && |ChunkText(TWO_UNITS)| == 2
    ensures ChunkText(TWO_UNITS)[0].text == "ab" && ChunkText(TWO_UNITS)[1].text == "b"
  {
    var x, a, b := TWO_UNITS, Window(0, 2, 0, 2), Window(1, 2, 1, 2);
    TwoUnitWindows();
    WindowsAreSound(x, 0);
    assert x.text[0..2] == "ab" && x.text[1..2] == "b";
    hide Windows, Assemble, WindowsOk, HeadingPathAt;
    assert [] + [a] == [a] && [a] + [b] == [a, b];
    OwnChunk(x, [a], b);
    OwnChunk(x, [], a);
    assert Assemble(x, [a]) == Assemble(x, [a, b])[..1];
  }

  lemma StartsNoLater(x: Input, ws: seq<Window>)
    requires WindowsOk(x, ws) && ws != []
    ensures forall n :: 0 <= n < |Assemble(x, ws)| ==> Assemble(x, ws)[n].start <= ws[|ws| - 1].start
  {
    forall n | 0 <= n < |Assemble(x, ws)| ensures Assemble(x, ws)[n].start <= ws[|ws| - 1].start {
      assert Assemble(x, ws)[n] in Assemble(x, ws);
    }
  }

  lemma TextIsAssembled(x: Input)
    requires InputOk(x) && x.trim(x.text) != "" && WindowsOk(x, Windows(x.units, x.options, 0))
    ensures ChunkText(x) == Assemble(x, Windows(x.units, x.options, 0))
  {}

  lemma StartsAscend(x: Input, ws: seq<Window>, a: nat)
    requires WindowsOk(x, ws) && a + 1 < |ws|
    ensures ws[a].start < ws[a + 1].start
  {}

  /** A window that is not small gets a chunk of its own, after the one that holds the window before it. */
  lemma RepeatedChunk(x: Input, ws: seq<Window>, k: nat) returns (n: nat)
    requires WindowsOk(x, ws) && 0 < k < |ws| && !Small(x, ws[k])
    ensures 0 < n < |Assemble(x, ws)| && Within(ws[k - 1].start, ws[k - 1].end, Assemble(x, ws)[n - 1])
    ensures Assemble(x, ws)[n].start == ws[k].start && Assemble(x, ws)[n].end <= ws[|ws| - 1].end
  {
    hide Small, AddWindow, WindowOk;
    var chunks, first := Assemble(x, ws), Assemble(x, ws[..k]);
    PrefixStays(x, ws, k);
    PrefixOk(x, ws, k);
    OneMoreChunk(x, ws[..k]);
    assert chunks[|first| - 1] == first[|first| - 1];
    assert chunks[|first|] in chunks;
    n := |first|;
  }

  /** After a window of several units that reaches the end there is another, not small, and no window ends later. */
  lemma {:induction false} LastWindowGoesOn(x: Input, i: nat, a: nat)
    requires InputOk(x) && x.options.overlap > 0 && WindowsOk(x, Windows(x.units, x.options, i))
    requires a < |Windows(x.units, x.options, i)|
    requires var w := Windows(x.units, x.options, i)[a]; w.last == |x.units| && w.last - w.first > 1
    ensures var ws := Windows(x.units, x.options, i);
            && a + 1 < |ws| && !Small(x, ws[a + 1])
            && ws[|ws| - 1].end <= ws[a].end
    decreases |x.units| - i
  {
    hide WindowAt, NextFirst, UnitsOk, WindowOk, Body;
    var w := WindowAt(x.units, i, x.options.target);
    WindowIsSound(|x.text|, x.units, i, x.options.target);
    NextWindow(|x.text|, x.units, i, x.options);
    var next := NextFirst(x.units, w, x.options.overlap);
    WindowsAreSound(x, next);
    var ws := Windows(x.units, x.options, i);
    assert ws == [w] + Windows(x.units, x.options, next);
    if a > 0 {
      hide Small;
      LastWindowGoesOn(x, next, a - 1);
    } else {
      WalksBackFrom(x, w);
      EndsAtEnd(x, i);
    }
  }

  lemma WalksBackFrom(x: Input, w: Window)
    requires x.options.overlap > 0 && w.first + 1 < w.last <= |x.units|
    ensures NextFirst(x.units, w, x.options.overlap) < w.last
  {}

  /** Otherwise the window that reaches the end is the last one. */
  lemma {:induction false} LastWindowStops(x: Input, i: nat, a: nat)
    requires InputOk(x) && a < |Windows(x.units, x.options, i)|
    requires var w := Windows(x.units, x.options, i)[a];
             w.last == |x.units| && !(x.options.overlap > 0 && w.last - w.first > 1)
    ensures a + 1 == |Windows(x.units, x.options, i)|
    decreases |x.units| - i
  {
    hide WindowAt, NextFirst, UnitsOk;
    var w := WindowAt(x.units, i, x.options.target);
    WindowIsSound(|x.text|, x.units, i, x.options.target);
    NextWindow(|x.text|, x.units, i, x.options);
    var next := NextFirst(x.units, w, x.options.overlap);
    assert Windows(x.units, x.options, i) == [w] + Windows(x.units, x.options, next);
    if a > 0 {
      LastWindowStops(x, next, a - 1);
    } else {
      StaysAtEnd(x, i);
      NoMoreWindows(x, next);
    }
  }

  lemma StaysAtEnd(x: Input, i: nat)
    requires InputOk(x) && i < |x.units|
    requires var w := WindowAt(x.units, i, x.options.target);
             w.last == |x.units| && !(x.options.overlap > 0 && w.last - w.first > 1)
    ensures var w := WindowAt(x.units, i, x.options.target);
            w.first < w.last && NextFirst(x.units, w, x.options.overlap) >= |x.units|
  {
    WindowIsSound(|x.text|, x.units, i, x.options.target);
    var w := WindowAt(x.units, i, x.options.target);
    hide WindowAt;
    assert x.units[w.last - 1].start < x.units[w.last - 1].end;
    if w.last - w.first > 1 {
      assert x.units[i].end <= x.units[w.last - 1].start && x.units[i].start < x.units[i].end;
      assert x.units[w.last - 1].start < w.end;
    }
  }

  /** No window ends after the text's last unit, where this one ends. */
  lemma EndsAtEnd(x: Input, i: nat)
    requires InputOk(x) && i < |x.units|
    requires var w := WindowAt(x.units, i, x.options.target); w.last == |x.units| && w.last - w.first > 1
    ensures var ws := Windows(x.units, x.options, i); ws != [] && ws[|ws| - 1].end <= ws[0].end
  {
    var w := WindowAt(x.units, i, x.options.target);
    assert w.end == x.units[|x.units| - 1].end;
    WindowsEndInside(x, i);
  }

  lemma {:induction false} WindowsEndInside(x: Input, i: nat)
    requires InputOk(x)
    ensures forall w :: w in Windows(x.units, x.options, i) ==> w.end <= x.units[|x.units| - 1].end
    decreases |x.units| - i
  {
    if i < |x.units| {
      WindowIsSound(|x.text|, x.units, i, x.options.target);
      NextWindow(|x.text|, x.units, i, x.options);
      var w := WindowAt(x.units, i, x.options.target);
      hide WindowAt, NextFirst;
      WindowsEndInside(x, NextFirst(x.units, w, x.options.overlap));
      assert w.last < |x.units| ==> x.units[w.last - 1].end <= x.units[|x.units| - 1].start;
    }
  }

  /** `chunkText` from the units on: pack, push or merge, step back into the overlap. */
  method PackUnits(x: Input) returns (chunks: seq<Chunk>)
    requires InputOk(x)
    ensures chunks == ChunkText(x)
  {
    hide Body, HeadingPathAt, AddWindow, WindowAt, NextFirst, Windows, WindowsOk, Assemble, UnitsOk;
    chunks := [];
    if x.trim(x.text) == "" {
      return;
    }
    WindowsAreSound(x, 0);
    ghost var all := Windows(x.units, x.options, 0);
    ghost var done := [];
    AssembleNothing(x);
    var i := 0;
    while i < |x.units|
      invariant all == done + Windows(x.units, x.options, i)
      invariant WindowsOk(x, done) && chunks == Assemble(x, done)
      decreases |x.units| - i
    {
      var w := PackWindow(x.units, i, x.options.target);
      WindowIsSound(|x.text|, x.units, i, x.options.target);
      OneMoreWindow(x, all, done, i);
      chunks := Extend(x, chunks, w);
      done := done + [w];
      i := StepBack(x.units, w, x.options.overlap);
    }
    NoMoreWindows(x, i);
    assert done + [] == done;
  }

  lemma AssembleNothing(x: Input)
    ensures WindowsOk(x, []) && Assemble(x, []) == []
         && [] + Windows(x.units, x.options, 0) == Windows(x.units, x.options, 0)
  {}

  lemma NoMoreWindows(x: Input, i: nat)
    requires i >= |x.units|
    ensures Windows(x.units, x.options, i) == []
  {}

  lemma OneMoreWindow(x: Input, all: seq<Window>, done: seq<Window>, i: nat)
    requires InputOk(x) && i < |x.units| && WindowsOk(x, all) && WindowsOk(x, done)
    requires all == done + Windows(x.units, x.options, i)
    ensures var w := WindowAt(x.units, i, x.options.target);
            && w.first < w.last <= |x.units| && w.start <= w.end <= |x.text|
            && i < NextFirst(x.units, w, x.options.overlap)
            && WindowsOk(x, done + [w])
            && all == (done + [w]) + Windows(x.units, x.options, NextFirst(x.units, w, x.options.overlap))
            && (forall c :: c in Assemble(x, done) ==> c.start <= w.end)
            && Assemble(x, done + [w]) == AddWindow(x, Assemble(x, done), w)
  {
    hide WindowAt, NextFirst, AddWindow, UnitsOk, WindowsOk, Assemble;
    WindowIsSound(|x.text|, x.units, i, x.options.target);
    NextWindow(|x.text|, x.units, i, x.options);
    var w := WindowAt(x.units, i, x.options.target);
    var rest := Windows(x.units, x.options, NextFirst(x.units, w, x.options.overlap));
    assert Windows(x.units, x.options, i) == [w] + rest;
    hide Windows;
    AssembleOneMore(x, all, done, w, rest);
  }

  lemma AssembleOneMore(x: Input, all: seq<Window>, done: seq<Window>, w: Window, rest: seq<Window>)
    requires WindowsOk(x, all) && WindowsOk(x, done) && all == done + ([w] + rest)
    requires WindowOk(x, w) && w.start <= w.end
    ensures all == (done + [w]) + rest && WindowsOk(x, done + [w])
    ensures (forall c :: c in Assemble(x, done) ==> c.start <= w.end)
    ensures Assemble(x, done + [w]) == AddWindow(x, Assemble(x, done), w)
  {
    hide AddWindow, WindowOk;
    assert all == (done + [w]) + rest;
    assert all[..|done| + 1] == done + [w];
    assert (done + [w])[..|done|] == done;
    if done != [] {
      assert all[|done| - 1] == done[|done| - 1] && all[|done|] == w;
    }
  }

  method PackWindow(units: seq<Unit>, i: nat, target: nat) returns (w: Window)
    requires i < |units|
    ensures w == WindowAt(units, i, target)
  {
    var start := units[i].start;
    var end := start;
    var j := i;
    while j < |units| && units[j].end - start <= target
      invariant i <= j <= |units| && Pack(units, start, i, target) == Pack(units, start, j, target)
      invariant end == if j == i then start else units[j - 1].end
    {
      end := units[j].end;
      j := j + 1;
    }
    if j == i {
      end := Min(units[i].end, start + target);
      j := i + 1;
    }
    return Window(i, j, start, end);
  }

  method Extend(x: Input, chunks: seq<Chunk>, w: Window) returns (r: seq<Chunk>)
    requires w.start <= w.end <= |x.text| && forall c :: c in chunks ==> c.start <= w.end
    ensures r == AddWindow(x, chunks, w)
  {
    var body := x.trim(x.text[w.start..w.end]);
    if |body| >= x.options.min || |chunks| == 0 || w.last >= |x.units| {
      var path := FindHeadingPath(w.start, x.headings);
      r := chunks + [Chunk(|chunks|, path, body, w.start, w.end, (|body| + 3) / 4)];
    } else {
      var prev := chunks[|chunks| - 1];
      body := x.trim(x.text[prev.start..w.end]);
      r := chunks[|chunks| - 1 := prev.(text := body, end := w.end, tokenEstimate := (|body| + 3) / 4)];
    }
  }

  method StepBack(units: seq<Unit>, w: Window, overlap: nat) returns (i: nat)
    requires w.first < w.last <= |units|
    ensures i == NextFirst(units, w, overlap)
  {
    var k := if overlap > 0 && w.last - 1 > w.first then w.last - 1 else w.last;
    ghost var k0 := k;
    while k - 1 > w.first && units[k - 1].start >= w.end - overlap
      invariant w.first < k <= |units|
      invariant WalkBack(units, w.first, k, w.end - overlap) == WalkBack(units, w.first, k0, w.end - overlap)
    {
      k := k - 1;
    }
    return Max(w.first + 1, k);
  }
}
