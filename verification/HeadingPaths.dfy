/** The heading path of an offset: a stack that is popped by counting levels down, and when it is the ancestor chain. */
module HeadingPaths {

  datatype Heading = Heading(text: string, level: nat, offset: nat)

  /** The headings up to the first one that starts after the offset. */
  function Before(offset: nat, headings: seq<Heading>): seq<Heading> {
    if headings == [] || headings[0].offset > offset then []
    else [headings[0]] + Before(offset, headings[1..])
  }

  /** The headings looked at are all up to the first that starts after the offset; one that starts at it counts. */
  lemma {:induction false} BeforeIsExact(offset: nat, headings: seq<Heading>)
    ensures var n := |Before(offset, headings)|;
            && n <= |headings| && Before(offset, headings) == headings[..n]
            && (forall i :: 0 <= i < n ==> headings[i].offset <= offset)
            && (n < |headings| ==> headings[n].offset > offset)
  {
    if headings != [] && headings[0].offset <= offset {
      BeforeIsExact(offset, headings[1..]);
      var n := |Before(offset, headings[1..])|;
      assert headings[..n + 1] == [headings[0]] + headings[1..][..n];
      forall i | 0 <= i < n + 1 ensures headings[i].offset <= offset {
        assert i > 0 ==> headings[i] == headings[1..][i - 1];
      }
    }
  }

  /** The path of an offset is the texts of the open headings there. */
  lemma PathIsOpenHeadings(offset: nat, headings: seq<Heading>)
    ensures var n, open := |Before(offset, headings)|, Walk(Before(offset, headings)).path;
            && n <= |headings| && open == Walk(headings[..n]).path
            && |HeadingPathAt(offset, headings)| == |open|
            && forall i :: 0 <= i < |open| ==> HeadingPathAt(offset, headings)[i] == open[i].text
  {
    BeforeIsExact(offset, headings);
    hide Walk, Before;
  }

  /** The stack of open headings and the level the code believes is on top of it. */
  datatype Stack = Stack(path: seq<Heading>, lastLevel: int)

  function Pop(s: Stack, level: nat): (r: Stack)
    ensures r.path <= s.path
    decreases |s.path|
  {
    if s.path != [] && s.lastLevel >= level then Pop(Stack(s.path[..|s.path| - 1], s.lastLevel - 1), level) else s
  }

  function Push(s: Stack, h: Heading): Stack {
    Stack(Pop(s, h.level).path + [h], h.level)
  }

  function Walk(hs: seq<Heading>): Stack {
    if hs == [] then Stack([], 0) else Push(Walk(hs[..|hs| - 1]), hs[|hs| - 1])
  }

  function Texts(path: seq<Heading>): (r: seq<string>)
    ensures |r| == |path|
  {
    seq(|path|, i requires 0 <= i < |path| => path[i].text)
  }

  function HeadingPathAt(offset: nat, headings: seq<Heading>): seq<string> {
    Texts(Walk(Before(offset, headings)).path)
  }

  method FindHeadingPath(offset: nat, headings: seq<Heading>) returns (path: seq<string>)
    ensures path == HeadingPathAt(offset, headings)
  {
    hide Walk, Before, Pop;
    var stack := Stack([], 0);
    var i := 0;
    BeforeAll(offset, headings);
    while i < |headings| && headings[i].offset <= offset
      invariant 0 <= i <= |headings|
      invariant Before(offset, headings) == headings[..i] + Before(offset, headings[i..])
      invariant Walk(headings[..i]) == stack
    {
      var h := headings[i];
      stack := PopTo(stack, h.level);
      WalkOneMore(headings[..i], h);
      assert headings[..i + 1] == headings[..i] + [h];
      BeforeOneMore(offset, headings, i);
      stack := Stack(stack.path + [h], h.level);
      i := i + 1;
    }
    BeforeStops(offset, headings[i..]);
    assert headings[..i] + [] == headings[..i];
    return Texts(stack.path);
  }

  method PopTo(s: Stack, level: nat) returns (r: Stack)
    ensures r == Pop(s, level)
  {
    r := s;
    while r.path != [] && r.lastLevel >= level
      invariant Pop(s, level) == Pop(r, level)
      decreases |r.path|
    {
      r := Stack(r.path[..|r.path| - 1], r.lastLevel - 1);
    }
  }

  lemma BeforeAll(offset: nat, headings: seq<Heading>)
    ensures Before(offset, headings) == headings[..0] + Before(offset, headings[0..])
         && Walk(headings[..0]) == Stack([], 0)
  {
    assert headings[0..] == headings && headings[..0] == [];
    assert [] + Before(offset, headings) == Before(offset, headings);
  }

  lemma BeforeOneMore(offset: nat, headings: seq<Heading>, i: nat)
    requires i < |headings| && headings[i].offset <= offset
    ensures headings[..i] + Before(offset, headings[i..]) == headings[..i + 1] + Before(offset, headings[i + 1..])
  {
    assert headings[i..][1..] == headings[i + 1..];
    assert headings[..i] + ([headings[i]] + Before(offset, headings[i + 1..]))
      == headings[..i + 1] + Before(offset, headings[i + 1..]);
  }

  lemma BeforeStops(offset: nat, headings: seq<Heading>)
    requires headings == [] || headings[0].offset > offset
    ensures Before(offset, headings) == []
  {}

  lemma WalkOneMore(hs: seq<Heading>, h: Heading)
    ensures Walk(hs + [h]) == Stack(Pop(Walk(hs), h.level).path + [h], h.level)
  {
    assert (hs + [h])[..|hs|] == hs;
  }

  // ---------- the ancestor chain ----------

  /** The position just after the nearest heading of `hs` below the level; 0 if there is none. */
  function ParentEnd(hs: seq<Heading>, level: nat): (p: nat)
    ensures p <= |hs|
    ensures p > 0 ==> hs[p - 1].level < level
    ensures forall i :: p <= i < |hs| ==> hs[i].level >= level
  {
    if hs == [] then 0
    else if hs[|hs| - 1].level < level then |hs|
    else ParentEnd(hs[..|hs| - 1], level)
  }

  /** The last heading, its nearest predecessor of a smaller level, and so on up. */
  function AncestorChain(hs: seq<Heading>): seq<Heading>
    decreases |hs|
  {
    if hs == [] then []
    else
      var h := hs[|hs| - 1];
      AncestorChain(hs[..ParentEnd(hs[..|hs| - 1], h.level)]) + [h]
  }

  predicate Ascending(path: seq<Heading>) {
    forall i, j :: 0 <= i < j < |path| ==> path[i].level < path[j].level
  }

  lemma {:induction false} ChainAscends(hs: seq<Heading>)
    ensures Ascending(AncestorChain(hs))
    ensures hs != [] ==> AncestorChain(hs) != [] && AncestorChain(hs)[|AncestorChain(hs)| - 1] == hs[|hs| - 1]
    decreases |hs|
  {
    if hs != [] {
      var h := hs[|hs| - 1];
      var p := ParentEnd(hs[..|hs| - 1], h.level);
      ChainAscends(hs[..p]);
      var up := AncestorChain(hs[..p]);
      forall i | 0 <= i < |up| ensures up[i].level < h.level {
        assert up[|up| - 1] == hs[..p][p - 1];
      }
    }
  }

  /** The chain below a level: its entries of smaller levels. */
  function Below(path: seq<Heading>, level: nat): (r: seq<Heading>)
    ensures r <= path
    ensures r != [] ==> r[|r| - 1].level < level
    ensures |r| < |path| ==> path[|r|].level >= level
  {
    if path == [] || path[|path| - 1].level < level then path else Below(path[..|path| - 1], level)
  }

  /** The parent's chain is what remains of the current chain below the new level. */
  lemma {:induction false} ParentChain(hs: seq<Heading>, level: nat)
    ensures AncestorChain(hs[..ParentEnd(hs, level)]) == Below(AncestorChain(hs), level)
    decreases |hs|
  {
    hide Below, AncestorChain;
    if hs == [] {
      assert hs[..0] == [];
      NoChain(hs);
    } else {
      var h, init := hs[|hs| - 1], hs[..|hs| - 1];
      var q := ParentEnd(init, h.level);
      assert hs[..q] == init[..q];
      ChainOf(hs);
      BelowLast(AncestorChain(hs[..q]), h, level);
      if h.level < level {
        assert hs[..|hs|] == hs;
      } else {
        hide ParentEnd;
        ParentChain(hs[..q], level);
        ParentEndThroughParent(init, h.level, level);
        assert hs[..ParentEnd(hs, level)] == hs[..q][..ParentEnd(hs[..q], level)];
      }
    }
  }

  lemma ChainOf(hs: seq<Heading>)
    requires hs != []
    ensures AncestorChain(hs) == AncestorChain(hs[..ParentEnd(hs[..|hs| - 1], hs[|hs| - 1].level)]) + [hs[|hs| - 1]]
  {}

  lemma BelowLast(path: seq<Heading>, h: Heading, level: nat)
    ensures Below(path + [h], level) == if h.level < level then path + [h] else Below(path, level)
  {
    assert (path + [h])[..|path|] == path;
  }

  /** The nearest heading below a smaller level lies at or before the nearest one below a larger level. */
  lemma {:induction false} ParentEndThroughParent(hs: seq<Heading>, high: nat, low: nat)
    requires low <= high
    ensures ParentEnd(hs, low) == ParentEnd(hs[..ParentEnd(hs, high)], low)
    decreases |hs|
  {
    if hs != [] {
      if hs[|hs| - 1].level < high {
        assert hs[..|hs|] == hs;
      } else {
        ParentEndThroughParent(hs[..|hs| - 1], high, low);
        var p := ParentEnd(hs[..|hs| - 1], high);
        assert hs[..|hs| - 1][..p] == hs[..p];
      }
    } else {
      assert hs[..0] == hs;
    }
  }

  // ---------- when the code's stack is the chain ----------

  /** A heading of this level closes either everything that is open or a stretch of levels without a gap. */
  predicate ClosesCleanly(path: seq<Heading>, level: nat) {
    Below(path, level) == [] || path[|path| - 1].level < level
      || |path| - |Below(path, level)| == path[|path| - 1].level - level + 1
  }

  predicate ClosesCleanlyThroughout(hs: seq<Heading>) {
    hs != [] ==>
      && ClosesCleanlyThroughout(hs[..|hs| - 1])
      && ClosesCleanly(AncestorChain(hs[..|hs| - 1]), hs[|hs| - 1].level)
  }

  /** Counting down from the top level pops this many entries. */
  lemma {:induction false} PopCounts(s: Stack, level: nat)
    ensures var r := Pop(s, level);
            |r.path| == if s.lastLevel < level then |s.path|
                        else if |s.path| <= s.lastLevel - level + 1 then 0
                        else |s.path| - (s.lastLevel - level + 1)
    decreases |s.path|
  {
    if s.path != [] && s.lastLevel >= level {
      PopCounts(Stack(s.path[..|s.path| - 1], s.lastLevel - 1), level);
    }
  }

  lemma {:induction false} AscendingSpan(path: seq<Heading>, k: nat)
    requires Ascending(path) && k < |path|
    ensures |path| - k <= path[|path| - 1].level - path[k].level + 1
    decreases |path|
  {
    if k < |path| - 1 {
      AscendingSpan(path[..|path| - 1], k);
    }
  }

  /** Counting levels and looking at levels pop the same entries exactly when the level closes cleanly. */
  lemma PopAgrees(path: seq<Heading>, last: int, level: nat)
    requires Ascending(path) && (path != [] ==> path[|path| - 1].level == last)
    ensures Pop(Stack(path, last), level).path == Below(path, level) <==> ClosesCleanly(path, level)
  {
    PopCounts(Stack(path, last), level);
    var kept, popped := Below(path, level), Pop(Stack(path, last), level).path;
    assert kept == path[..|kept|] && popped == path[..|popped|];
    if |kept| < |path| {
      AscendingSpan(path, |kept|);
    }
  }

  /** One more heading keeps stack and chain equal exactly when it closes cleanly. */
  lemma PushAgrees(hs: seq<Heading>, h: Heading)
    requires Walk(hs).path == AncestorChain(hs)
    ensures Walk(hs + [h]).path == AncestorChain(hs + [h]) <==> ClosesCleanly(AncestorChain(hs), h.level)
  {
    hide Walk, AncestorChain, Pop, Below, ClosesCleanly, ParentEnd, Ascending;
    var path, last := AncestorChain(hs), Walk(hs).lastLevel;
    var popped, kept := Pop(Walk(hs), h.level).path, Below(path, h.level);
    ChainAscends(hs);
    LastLevelIsLast(hs);
    ChainOneMore(hs, h);
    WalkOneMore(hs, h);
    assert Walk(hs) == Stack(path, last);
    PopAgrees(path, last, h.level);
    assert (popped + [h])[..|popped + [h]| - 1] == popped && (kept + [h])[..|kept + [h]| - 1] == kept;
  }

  lemma ChainOneMore(hs: seq<Heading>, h: Heading)
    ensures AncestorChain(hs + [h]) == Below(AncestorChain(hs), h.level) + [h]
  {
    assert (hs + [h])[..|hs|] == hs;
    assert (hs + [h])[..ParentEnd(hs, h.level)] == hs[..ParentEnd(hs, h.level)];
    ParentChain(hs, h.level);
  }

  lemma LastLevelIsLast(hs: seq<Heading>)
    ensures hs != [] ==> Walk(hs).lastLevel == hs[|hs| - 1].level
    ensures AncestorChain(hs) == [] <==> hs == []
  {}

  /** After every heading, the code's path is the ancestor chain. */
  predicate AgreesThroughout(hs: seq<Heading>) {
    Walk(hs).path == AncestorChain(hs) && (hs != [] ==> AgreesThroughout(hs[..|hs| - 1]))
  }

  /**
    The path is the ancestor chain after every heading exactly when every heading closes cleanly: a level that was
    skipped on the way down and then closed makes the code drop an ancestor too many.
   */
  lemma {:induction false} PathIsAncestorChain(hs: seq<Heading>)
    ensures AgreesThroughout(hs) <==> ClosesCleanlyThroughout(hs)
  {
    hide ClosesCleanly;
    if hs != [] {
      var init, h := hs[..|hs| - 1], hs[|hs| - 1];
      PathIsAncestorChain(init);
      assert init + [h] == hs;
      hide Walk, AncestorChain;
      if AgreesThroughout(init) {
        PushAgrees(init, h);
      }
    }
  }

  /** Outlines whose levels never go down by more than one step at a time are fine. */
  predicate NoSkips(hs: seq<Heading>) {
    forall n :: 0 < n < |hs| ==> hs[n].level <= hs[n - 1].level + 1
  }

  /** Each entry is one level below the one before it. */
  predicate NoGap(path: seq<Heading>) {
    forall i :: 0 < i < |path| ==> path[i].level == path[i - 1].level + 1
  }

  lemma {:induction false} ChainHasNoGaps(hs: seq<Heading>)
    requires NoSkips(hs)
    ensures NoGap(AncestorChain(hs))
    decreases |hs|
  {
    if hs != [] {
      hide NoGap;
      var h, init := hs[|hs| - 1], hs[..|hs| - 1];
      var p := ParentEnd(init, h.level);
      NoSkipsPrefix(hs, p);
      ChainHasNoGaps(hs[..p]);
      ParentIsOneBelow(hs, p);
      GapFreePush(AncestorChain(hs[..p]), h);
    }
  }

  lemma NoSkipsPrefix(hs: seq<Heading>, p: nat)
    requires NoSkips(hs) && p <= |hs|
    ensures NoSkips(hs[..p])
  {}

  lemma GapFreePush(path: seq<Heading>, h: Heading)
    requires NoGap(path) && (path != [] ==> h.level == path[|path| - 1].level + 1)
    ensures NoGap(path + [h])
  {}

  /** Without skips, the nearest heading of a smaller level is exactly one level up. */
  lemma ParentIsOneBelow(hs: seq<Heading>, p: nat)
    requires NoSkips(hs) && hs != [] && p == ParentEnd(hs[..|hs| - 1], hs[|hs| - 1].level)
    ensures AncestorChain(hs[..p]) != [] ==>
      hs[|hs| - 1].level == AncestorChain(hs[..p])[|AncestorChain(hs[..p])| - 1].level + 1
  {
    ChainAscends(hs[..p]);
    hide AncestorChain, Ascending;
    if p > 0 {
      var init := hs[..|hs| - 1];
      assert init[p - 1].level < hs[|hs| - 1].level;
      assert hs[p].level <= hs[p - 1].level + 1;
      assert p < |hs| - 1 ==> init[p].level >= hs[|hs| - 1].level;
      assert hs[..p][p - 1] == hs[p - 1];
    } else {
      NoChain(hs[..p]);
    }
  }

  lemma NoChain(hs: seq<Heading>)
    ensures hs == [] ==> AncestorChain(hs) == []
  {}

  lemma {:induction false} GapFreeSpan(path: seq<Heading>, k: nat)
    requires NoGap(path) && k < |path|
    ensures |path| - k == path[|path| - 1].level - path[k].level + 1
    decreases |path|
  {
    if k < |path| - 1 {
      GapFreeSpan(path[..|path| - 1], k);
    }
  }

  /** With such outlines the path is always the ancestor chain. */
  lemma NoSkipsMeansAncestorChain(hs: seq<Heading>)
    requires NoSkips(hs)
    ensures AgreesThroughout(hs)
  {
    hide NoSkips, AgreesThroughout, AncestorChain;
    NoSkipsCloseCleanly(hs);
    PathIsAncestorChain(hs);
  }

  lemma {:induction false} NoSkipsCloseCleanly(hs: seq<Heading>)
    requires NoSkips(hs)
    ensures ClosesCleanlyThroughout(hs)
  {
    hide NoSkips, AncestorChain, ClosesCleanly;
    if hs != [] {
      var init := hs[..|hs| - 1];
      NoSkipsPrefix(hs, |hs| - 1);
      NoSkipsCloseCleanly(init);
      ChainHasNoGaps(init);
      GapFreeClosesCleanly(AncestorChain(init), hs[|hs| - 1].level);
    }
  }

  lemma GapFreeClosesCleanly(path: seq<Heading>, level: nat)
    requires NoGap(path)
    ensures ClosesCleanly(path, level)
  {
    var kept := Below(path, level);
    if kept != [] && |kept| < |path| {
      GapFreeSpan(path, |kept|);
      GapFreeSpan(path, |kept| - 1);
    }
  }

  /** h1, h3, h2: the path of the last heading loses its parent. */
  lemma SkippedLevelLosesParent(a: Heading, b: Heading, c: Heading)
    requires a.level == 1 && b.level == 3 && c.level == 2
    ensures Walk([a, b, c]).path == [c] && AncestorChain([a, b, c]) == [a, c]
  {
    assert [a, b, c][..2] == [a, b] && [a, b][..1] == [a] && [a][..0] == [];
    assert Walk([a]) == Stack([a], 1);
    assert Pop(Stack([a], 1), 3) == Stack([a], 1);
    assert Walk([a, b]) == Stack([a, b], 3);
    assert [a, b][..1] == [a];
    assert Pop(Stack([a, b], 3), 2) == Pop(Stack([a], 2), 2) == Pop(Stack([], 1), 2);
    assert ParentEnd([a, b], 2) == ParentEnd([a], 2) == 1;
    assert AncestorChain([a]) == [] + [a];
    assert [a, b, c][..1] == [a];
    assert AncestorChain([a, b, c]) == AncestorChain([a]) + [c];
  }
}
