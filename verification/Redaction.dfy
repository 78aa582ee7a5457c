/**
  Finding and replacing a term, up to letter case. `Occurs` under the store's folding is what `LIKE '%term%'`
  matches; `ReplaceAll` under the regular expression's folding is `text.replace(/term/gi, replacement)`.
 */
module Redaction {

  type Fold = char -> char

  predicate SameText(fold: Fold, a: string, b: string) {
    |a| == |b| && forall j :: 0 <= j < |a| ==> fold(a[j]) == fold(b[j])
  }

  predicate MatchAt(fold: Fold, term: string, s: string, i: nat) {
    i + |term| <= |s| && SameText(fold, term, s[i..i + |term|])
  }

  predicate Occurs(fold: Fold, term: string, s: string) {
    exists i :: 0 <= i <= |s| && MatchAt(fold, term, s, i)
  }

  /** A text contains a term exactly when some part of it is the term up to folding. */
  lemma OccursMeans(fold: Fold, term: string, s: string)
    ensures Occurs(fold, term, s) <==>
      exists front, part, rest :: s == front + part + rest && |part| == |term|
                                  && forall j :: 0 <= j < |term| ==> fold(part[j]) == fold(term[j])
  {
    if Occurs(fold, term, s) {
      var i :| 0 <= i <= |s| && MatchAt(fold, term, s, i);
      var part := s[i..i + |term|];
      assert s == s[..i] + part + s[i + |term|..];
      assert forall j :: 0 <= j < |term| ==> fold(part[j]) == fold(term[j]);
    }
    if front, part, rest :| s == front + part + rest && |part| == |term|
                            && forall j :: 0 <= j < |term| ==> fold(part[j]) == fold(term[j]) {
      assert s[|front|..|front| + |term|] == part;
      assert MatchAt(fold, term, s, |front|);
    }
  }

  /** Leftmost, non-overlapping, scanning on after each replacement. */
  function ReplaceAll(fold: Fold, term: string, s: string, replacement: string): string
    requires term != []
    decreases |s|
  {
    if s == [] then []
    else if MatchAt(fold, term, s, 0) then replacement + ReplaceAll(fold, term, s[|term|..], replacement)
    else [s[0]] + ReplaceAll(fold, term, s[1..], replacement)
  }

  /** The store's folding identifies no more characters than the regular expression's. */
  ghost predicate Finer(fine: Fold, coarse: Fold) {
    forall a, b | fine(a) == fine(b) :: coarse(a) == coarse(b)
  }

  lemma FinerFindsLess(fine: Fold, coarse: Fold, term: string, s: string, i: nat)
    requires Finer(fine, coarse) && MatchAt(fine, term, s, i)
    ensures MatchAt(coarse, term, s, i)
  {}

  // ---------- which replacements erase ----------

  predicate NoMatchBefore(fold: Fold, term: string, s: string, p: nat) {
    forall i :: 0 <= i < p ==> !MatchAt(fold, term, s, i)
  }

  /** The two texts are the same as far as both go. */
  predicate Agree(fold: Fold, a: string, b: string) {
    forall i :: 0 <= i < |a| && i < |b| ==> fold(a[i]) == fold(b[i])
  }

  /** The replacement ends with the first `k` characters of the term: what follows it may complete the term. */
  predicate EndsLikeStart(fold: Fold, term: string, replacement: string, k: nat) {
    1 <= k < |term| && k <= |replacement| && SameText(fold, term[..k], replacement[|replacement| - k..])
  }

  /**
    The first `j` characters of the term can stand in front of a match, with no earlier match, and the replacement
    goes on as the term does from there: what precedes it may be completed to the term.
   */
  predicate GoesOnLikeTerm(fine: Fold, coarse: Fold, term: string, replacement: string, j: nat) {
    && 1 <= j < |term|
    && NoMatchBefore(coarse, term, term[..j] + term, j)
    && Agree(fine, replacement, term[j..])
  }

  /** The replacement neither contains the term nor completes one with the text on its left or on its right. */
  predicate Erasing(fine: Fold, coarse: Fold, term: string, replacement: string) {
    && !Occurs(fine, term, replacement)
    && (forall k :: 0 <= k < |term| ==> !EndsLikeStart(fine, term, replacement, k))
    && (forall j :: 0 <= j < |term| ==> !GoesOnLikeTerm(fine, coarse, term, replacement, j))
  }

  // ---------- splitting at the first match ----------

  lemma {:induction false} Untouched(fold: Fold, term: string, s: string, replacement: string)
    requires term != [] && NoMatchBefore(fold, term, s, |s|)
    ensures ReplaceAll(fold, term, s, replacement) == s
  {
    if s != [] {
      assert !MatchAt(fold, term, s, 0);
      TailHasNoMatch(fold, term, s, |s|);
      Untouched(fold, term, s[1..], replacement);
    }
  }

  lemma TailHasNoMatch(fold: Fold, term: string, s: string, p: nat)
    requires s != [] && p > 0 && NoMatchBefore(fold, term, s, p)
    ensures NoMatchBefore(fold, term, s[1..], p - 1)
  {
    forall i | 0 <= i < p - 1 ensures !MatchAt(fold, term, s[1..], i) {
      TailMatch(fold, term, s, i);
    }
  }

  lemma TailMatch(fold: Fold, term: string, s: string, i: nat)
    requires s != []
    ensures MatchAt(fold, term, s[1..], i) <==> MatchAt(fold, term, s, i + 1)
  {
    if i + |term| <= |s[1..]| {
      assert s[1..][i..i + |term|] == s[i + 1..i + 1 + |term|];
    }
  }

  lemma ReplaceStep(fold: Fold, term: string, s: string, replacement: string)
    requires term != [] && s != []
    ensures ReplaceAll(fold, term, s, replacement)
         == if MatchAt(fold, term, s, 0) then replacement + ReplaceAll(fold, term, s[|term|..], replacement)
            else [s[0]] + ReplaceAll(fold, term, s[1..], replacement)
  {}

  /** Up to the first match the text is copied; there the replacement goes in and the scan continues. */
  lemma {:induction false} SplitsAtFirst(fold: Fold, term: string, s: string, replacement: string, p: nat)
    requires term != [] && NoMatchBefore(fold, term, s, p) && MatchAt(fold, term, s, p)
    ensures ReplaceAll(fold, term, s, replacement)
         == s[..p] + replacement + ReplaceAll(fold, term, s[p + |term|..], replacement)
    decreases p
  {
    hide ReplaceAll;
    ReplaceStep(fold, term, s, replacement);
    if p == 0 {
      assert s[..0] + replacement == replacement;
    } else {
      assert !MatchAt(fold, term, s, 0);
      TailHasNoMatch(fold, term, s, p);
      TailMatch(fold, term, s, p - 1);
      hide NoMatchBefore;
      SplitsAtFirst(fold, term, s[1..], replacement, p - 1);
      Rejoined(s, p, |term|, replacement, ReplaceAll(fold, term, s[p + |term|..], replacement));
    }
  }

  lemma Rejoined(s: string, p: nat, n: nat, middle: string, rest: string)
    requires 0 < p && p + n <= |s|
    ensures s[1..][p - 1 + n..] == s[p + n..]
    ensures [s[0]] + (s[1..][..p - 1] + middle + rest) == s[..p] + middle + rest
  {
    assert s[..p] == [s[0]] + s[1..][..p - 1];
  }

  lemma {:induction false} FirstMatch(fold: Fold, term: string, s: string, i: nat) returns (p: nat)
    requires MatchAt(fold, term, s, i)
    ensures p <= i && MatchAt(fold, term, s, p) && NoMatchBefore(fold, term, s, p)
  {
    p := 0;
    while !MatchAt(fold, term, s, p)
      invariant p <= i && NoMatchBefore(fold, term, s, p)
      decreases i - p
    {
      p := p + 1;
    }
  }

  // ---------- erasing replacements erase ----------

  /** A match that starts inside the replacement lies in it or starts with the replacement's end. */
  lemma MatchFromReplacement(fold: Fold, term: string, replacement: string, rest: string, i: nat)
    requires MatchAt(fold, term, replacement + rest, i) && i < |replacement|
    ensures MatchAt(fold, term, replacement, i) || EndsLikeStart(fold, term, replacement, |replacement| - i)
  {
    var window := (replacement + rest)[i..i + |term|];
    var k := |replacement| - i;
    if |term| <= k {
      assert window == replacement[i..i + |term|];
    } else {
      assert window[..k] == replacement[i..];
    }
  }

  /** A match that starts in the copied front is one of the text, or the replacement goes on as the term does. */
  lemma MatchFromFront(fine: Fold, coarse: Fold, term: string, s: string, replacement: string, rest: string,
                       p: nat, i: nat)
    requires Finer(fine, coarse) && i < p
    requires MatchAt(coarse, term, s, p) && NoMatchBefore(coarse, term, s, p)
    requires MatchAt(fine, term, s[..p] + replacement + rest, i)
    ensures MatchAt(coarse, term, s, i) || GoesOnLikeTerm(fine, coarse, term, replacement, p - i)
  {
    var out, j := s[..p] + replacement + rest, p - i;
    var window := out[i..i + |term|];
    if |term| <= j {
      assert window == s[i..i + |term|];
      FinerFindsLess(fine, coarse, term, s, i);
    } else {
      assert window[..j] == s[i..p];
      FrontRepeats(fine, coarse, term, s, p, i, window);
      forall x | 0 <= x < |replacement| && x < |term[j..]| ensures fine(replacement[x]) == fine(term[j..][x]) {
        assert window[j + x] == replacement[x] && term[j..][x] == term[j + x];
      }
    }
  }

  /** The text before the match reads as the term does, so no match comes earlier in the term's own overlap either. */
  lemma FrontRepeats(fine: Fold, coarse: Fold, term: string, s: string, p: nat, i: nat, window: string)
    requires Finer(fine, coarse) && MatchAt(coarse, term, s, p) && NoMatchBefore(coarse, term, s, p)
    requires i < p < i + |term| && SameText(fine, term, window) && window[..p - i] == s[i..p]
    ensures NoMatchBefore(coarse, term, term[..p - i] + term, p - i)
  {
    var j := p - i;
    var own, part := term[..j] + term, s[i..p + |term|];
    forall x | 0 <= x < |own| ensures coarse(own[x]) == coarse(part[x]) {
      if x < j {
        assert window[..j][x] == s[i..p][x];
      } else {
        assert part[x] == s[p..p + |term|][x - j];
      }
    }
    forall q | 0 <= q < j ensures !MatchAt(coarse, term, own, q) {
      if MatchAt(coarse, term, own, q) {
        SameTextMatches(coarse, term, own, part, q);
        MatchInPart(coarse, term, s, i, p + |term|, q);
      }
    }
  }

  lemma MatchInPart(fold: Fold, term: string, s: string, from: nat, to: nat, q: nat)
    requires from <= to <= |s| && MatchAt(fold, term, s[from..to], q)
    ensures MatchAt(fold, term, s, from + q)
  {
    forall x | 0 <= x < |term| ensures fold(term[x]) == fold(s[from + q..from + q + |term|][x]) {
      assert fold(term[x]) == fold(s[from..to][q..q + |term|][x]);
    }
  }

  lemma SameTextMatches(fold: Fold, term: string, a: string, b: string, q: nat)
    requires SameText(fold, a, b) && MatchAt(fold, term, a, q)
    ensures MatchAt(fold, term, b, q)
  {
    forall x | 0 <= x < |term| ensures fold(term[x]) == fold(b[q..q + |term|][x]) {
      assert fold(term[x]) == fold(a[q..q + |term|][x]);
    }
  }

  lemma NoMatchFromRest(fold: Fold, term: string, front: string, rest: string, i: nat)
    requires !Occurs(fold, term, rest) && i >= |front|
    ensures !MatchAt(fold, term, front + rest, i)
  {
    ShiftedMatch(fold, term, front, rest, i);
  }

  lemma {:induction false} ErasingErases(fine: Fold, coarse: Fold, term: string, s: string, replacement: string)
    requires term != [] && Finer(fine, coarse) && Erasing(fine, coarse, term, replacement)
    ensures !Occurs(fine, term, ReplaceAll(coarse, term, s, replacement))
    decreases |s|
  {
    hide Erasing, ReplaceAll;
    if any: nat :| any <= |s| && MatchAt(coarse, term, s, any) {
      var p := FirstMatch(coarse, term, s, any);
      var rest := ReplaceAll(coarse, term, s[p + |term|..], replacement);
      SplitsAtFirst(coarse, term, s, replacement, p);
      ErasingErases(fine, coarse, term, s[p + |term|..], replacement);
      forall i: nat ensures !MatchAt(fine, term, s[..p] + replacement + rest, i) {
        NoMatchAnywhere(fine, coarse, term, s, replacement, rest, p, i);
      }
    } else {
      Untouched(coarse, term, s, replacement);
      if i: nat :| i <= |s| && MatchAt(fine, term, s, i) {
        FinerFindsLess(fine, coarse, term, s, i);
      }
    }
  }

  lemma NoMatchFromFront(fine: Fold, coarse: Fold, term: string, s: string, replacement: string, rest: string,
                         p: nat, i: nat)
    requires term != [] && Erasing(fine, coarse, term, replacement) && Finer(fine, coarse) && i < p
    requires MatchAt(coarse, term, s, p) && NoMatchBefore(coarse, term, s, p)
    ensures !MatchAt(fine, term, s[..p] + replacement + rest, i)
  {
    if MatchAt(fine, term, s[..p] + replacement + rest, i) {
      MatchFromFront(fine, coarse, term, s, replacement, rest, p, i);
    }
  }

  lemma NoMatchFromReplacement(fine: Fold, coarse: Fold, term: string, replacement: string, rest: string, i: nat)
    requires Erasing(fine, coarse, term, replacement) && i < |replacement|
    ensures !MatchAt(fine, term, replacement + rest, i)
  {
    hide MatchAt;
    if MatchAt(fine, term, replacement + rest, i) {
      MatchFromReplacement(fine, term, replacement, rest, i);
    }
  }

  lemma NoMatchAnywhere(fine: Fold, coarse: Fold, term: string, s: string, replacement: string, rest: string,
                        p: nat, i: nat)
    requires term != [] && Erasing(fine, coarse, term, replacement) && Finer(fine, coarse)
    requires MatchAt(coarse, term, s, p) && NoMatchBefore(coarse, term, s, p) && !Occurs(fine, term, rest)
    ensures !MatchAt(fine, term, s[..p] + replacement + rest, i)
  {
    hide Erasing, Occurs;
    var out := s[..p] + replacement + rest;
    if i < p {
      NoMatchFromFront(fine, coarse, term, s, replacement, rest, p, i);
    } else if i < p + |replacement| {
      assert out == s[..p] + (replacement + rest);
      ShiftedMatch(fine, term, s[..p], replacement + rest, i);
      NoMatchFromReplacement(fine, coarse, term, replacement, rest, i - p);
    } else {
      NoMatchFromRest(fine, term, s[..p] + replacement, rest, i);
    }
  }

  lemma ShiftedMatch(fold: Fold, term: string, front: string, rest: string, i: nat)
    requires i >= |front|
    ensures MatchAt(fold, term, front + rest, i) <==> MatchAt(fold, term, rest, i - |front|)
  {
    if i + |term| <= |front + rest| {
      assert (front + rest)[i..i + |term|] == rest[i - |front|..i - |front| + |term|];
    }
  }

  // ---------- and only they do ----------

  lemma MatchesItself(fold: Fold, front: string, term: string, rest: string)
    ensures MatchAt(fold, term, front + term + rest, |front|)
    ensures Occurs(fold, term, front + term + rest)
  {
    var s := front + term + rest;
    assert s[|front|..|front| + |term|] == term;
    assert MatchAt(fold, term, s, |front|) && |front| <= |s|;
  }

  /** A text that is too short to hold the term is copied. */
  lemma ShortIsUntouched(fold: Fold, term: string, s: string, replacement: string)
    requires |s| < |term|
    ensures ReplaceAll(fold, term, s, replacement) == s
  {
    Untouched(fold, term, s, replacement);
  }

  /** The output for a text that holds one match, with a short rest. */
  lemma OneMatch(fold: Fold, term: string, front: string, rest: string, replacement: string)
    requires term != [] && |rest| < |term| && NoMatchBefore(fold, term, front + term + rest, |front|)
    ensures ReplaceAll(fold, term, front + term + rest, replacement) == front + replacement + rest
  {
    var s := front + term + rest;
    MatchesItself(fold, front, term, rest);
    SplitsAtFirst(fold, term, s, replacement, |front|);
    assert s[..|front|] == front && s[|front| + |term|..] == rest;
    ShortIsUntouched(fold, term, rest, replacement);
  }

  lemma JoinsOnTheRight(fold: Fold, term: string, replacement: string, k: nat)
    requires EndsLikeStart(fold, term, replacement, k)
    ensures MatchAt(fold, term, replacement + term[k..], |replacement| - k)
  {
    var out, i := replacement + term[k..], |replacement| - k;
    forall x | 0 <= x < |term| ensures fold(term[x]) == fold(out[i..i + |term|][x]) {
      if x < k {
        assert out[i + x] == replacement[i..][x] && term[x] == term[..k][x];
      }
    }
  }

  lemma CompletedOnTheRight(fine: Fold, coarse: Fold, term: string, replacement: string, k: nat)
    requires EndsLikeStart(fine, term, replacement, k)
    ensures Occurs(fine, term, ReplaceAll(coarse, term, [] + term + term[k..], replacement))
  {
    hide ReplaceAll, MatchAt;
    OneMatch(coarse, term, [], term[k..], replacement);
    assert [] + replacement + term[k..] == replacement + term[k..];
    JoinsOnTheRight(fine, term, replacement, k);
  }

  /** What has to follow the replacement for the term to be complete. */
  function Missing(term: string, replacement: string, j: nat): string {
    if j + |replacement| <= |term| then term[j + |replacement|..] else []
  }

  lemma JoinsOnTheLeft(fold: Fold, term: string, replacement: string, j: nat)
    requires j < |term| && Agree(fold, replacement, term[j..])
    ensures MatchAt(fold, term, term[..j] + replacement + Missing(term, replacement, j), 0)
  {
    var out := term[..j] + replacement + Missing(term, replacement, j);
    forall x | 0 <= x < |term| ensures fold(term[x]) == fold(out[0..|term|][x]) {
      if j <= x < j + |replacement| {
        assert term[j..][x - j] == term[x] && out[x] == replacement[x - j];
      }
    }
  }

  lemma NoMatchWithRest(fold: Fold, term: string, front: string, rest: string)
    requires NoMatchBefore(fold, term, front + term, |front|)
    ensures NoMatchBefore(fold, term, front + term + rest, |front|)
  {
    forall q | 0 <= q < |front| ensures !MatchAt(fold, term, front + term + rest, q) {
      assert (front + term + rest)[q..q + |term|] == (front + term)[q..q + |term|];
      assert !MatchAt(fold, term, front + term, q);
    }
  }

  lemma CompletedOnTheLeft(fine: Fold, coarse: Fold, term: string, replacement: string, j: nat)
    requires GoesOnLikeTerm(fine, coarse, term, replacement, j)
    ensures Occurs(fine, term, ReplaceAll(coarse, term, term[..j] + term + Missing(term, replacement, j), replacement))
  {
    hide ReplaceAll, MatchAt, NoMatchBefore, Agree;
    var rest := Missing(term, replacement, j);
    NoMatchWithRest(coarse, term, term[..j], rest);
    OneMatch(coarse, term, term[..j], rest, replacement);
    JoinsOnTheLeft(fine, term, replacement, j);
  }

  /** A text that holds the term before and after the replacement. */
  lemma Survivor(fine: Fold, coarse: Fold, term: string, replacement: string) returns (s: string)
    requires term != [] && !Erasing(fine, coarse, term, replacement)
    ensures Occurs(fine, term, s) && Occurs(fine, term, ReplaceAll(coarse, term, s, replacement))
  {
    hide ReplaceAll, EndsLikeStart, GoesOnLikeTerm, MatchAt;
    if k: nat :| k < |term| && EndsLikeStart(fine, term, replacement, k) {
      s := [] + term + term[k..];
      MatchesItself(fine, [], term, term[k..]);
      CompletedOnTheRight(fine, coarse, term, replacement, k);
    } else if j: nat :| j < |term| && GoesOnLikeTerm(fine, coarse, term, replacement, j) {
      s := term[..j] + term + Missing(term, replacement, j);
      MatchesItself(fine, term[..j], term, Missing(term, replacement, j));
      CompletedOnTheLeft(fine, coarse, term, replacement, j);
    } else {
      s := [] + term + [];
      MatchesItself(fine, [], term, []);
      OnlyTheTerm(coarse, term, replacement);
    }
  }

  lemma OnlyTheTerm(fold: Fold, term: string, replacement: string)
    requires term != []
    ensures ReplaceAll(fold, term, [] + term + [], replacement) == replacement
  {
    OneMatch(fold, term, [], [], replacement);
    assert [] + replacement + [] == replacement;
  }

  /** Replacing leaves no occurrence in any text exactly when the replacement is erasing. */
  lemma ErasesExactly(fine: Fold, coarse: Fold, term: string, replacement: string)
    requires term != [] && Finer(fine, coarse)
    ensures (forall s: string :: !Occurs(fine, term, ReplaceAll(coarse, term, s, replacement)))
       <==> Erasing(fine, coarse, term, replacement)
  {
    hide Erasing, Occurs, ReplaceAll;
    if Erasing(fine, coarse, term, replacement) {
      forall s: string ensures !Occurs(fine, term, ReplaceAll(coarse, term, s, replacement)) {
        ErasingErases(fine, coarse, term, s, replacement);
      }
    } else {
      var s := Survivor(fine, coarse, term, replacement);
      assert Occurs(fine, term, ReplaceAll(coarse, term, s, replacement));
    }
  }

  // ---------- a simple sufficient condition ----------

  /** The character does not appear in the term, whatever its case. */
  predicate Foreign(fold: Fold, c: char, term: string) {
    forall j :: 0 <= j < |term| ==> fold(term[j]) != fold(c)
  }

  /** A replacement that does not contain the term and starts and ends with characters the term does not have. */
  predicate SafeReplacement(fold: Fold, term: string, replacement: string) {
    && replacement != []
    && !Occurs(fold, term, replacement)
    && Foreign(fold, replacement[0], term)
    && Foreign(fold, replacement[|replacement| - 1], term)
  }

  lemma SafeIsErasing(fine: Fold, coarse: Fold, term: string, replacement: string)
    requires Finer(fine, coarse) && SafeReplacement(coarse, term, replacement)
    ensures Erasing(fine, coarse, term, replacement)
  {
    hide MatchAt;
    if i: nat :| i <= |replacement| && MatchAt(fine, term, replacement, i) {
      FinerFindsLess(fine, coarse, term, replacement, i);
    }
    forall k: nat | k < |term| ensures !EndsLikeStart(fine, term, replacement, k) {
      if EndsLikeStart(fine, term, replacement, k) {
        LastCharacter(fine, coarse, term, replacement, k);
      }
    }
    forall j: nat | j < |term| ensures !GoesOnLikeTerm(fine, coarse, term, replacement, j) {
      if GoesOnLikeTerm(fine, coarse, term, replacement, j) {
        FirstCharacter(fine, coarse, term, replacement, j);
      }
    }
  }

  lemma LastCharacter(fine: Fold, coarse: Fold, term: string, replacement: string, k: nat)
    requires Finer(fine, coarse) && EndsLikeStart(fine, term, replacement, k)
    ensures fine(term[k - 1]) == fine(replacement[|replacement| - 1])
    ensures coarse(term[k - 1]) == coarse(replacement[|replacement| - 1])
  {
    assert fine(term[..k][k - 1]) == fine(replacement[|replacement| - k..][k - 1]);
  }

  lemma FirstCharacter(fine: Fold, coarse: Fold, term: string, replacement: string, j: nat)
    requires Finer(fine, coarse) && GoesOnLikeTerm(fine, coarse, term, replacement, j) && replacement != []
    ensures fine(term[j]) == fine(replacement[0]) && coarse(term[j]) == coarse(replacement[0])
  {
    assert term[j..][0] == term[j];
  }

  /** After replacing every occurrence by a safe replacement no occurrence is left, not even across the seams. */
  lemma ReplaceAllErases(fold: Fold, term: string, s: string, replacement: string)
    requires term != [] && SafeReplacement(fold, term, replacement)
    ensures !Occurs(fold, term, ReplaceAll(fold, term, s, replacement))
  {
    SafeIsErasing(fold, fold, term, replacement);
    ErasingErases(fold, fold, term, s, replacement);
  }

  // ---------- inputs ----------

  /** Without the condition a term can reappear: deleting "ab" from "aabb" leaves "ab". */
  lemma EmptyReplacementCanLeaveTheTerm()
    ensures var same := (c: char) => c; Occurs(same, "ab", ReplaceAll(same, "ab", "aabb", ""))
  {
    var same := (c: char) => c;
    assert !MatchAt(same, "ab", "aabb", 0) by { assert "aabb"[0..2][1] != "ab"[1]; }
    assert "a" + "ab" + "b" == "aabb";
    OneMatch(same, "ab", "a", "b", "");
    assert "a" + "" + "b" == "ab";
    assert MatchAt(same, "ab", "ab", 0) by { assert "ab"[0..2] == "ab"; }
  }

  /** The default replacement holds the term "ed" itself. */
  lemma DefaultReplacementCanLeaveTheTerm(fine: Fold, coarse: Fold)
    ensures Occurs(fine, "ed", ReplaceAll(coarse, "ed", "ed", "[redacted]"))
  {
    OnlyTheTerm(coarse, "ed", "[redacted]");
    assert [] + "ed" + [] == "ed";
    assert "[redacted]"[2..4] == "ed";
    assert MatchAt(fine, "ed", "[redacted]", 2);
  }

  /** A name that does not repeat its initial is erased by initial and dot, although they share a letter. */
  lemma InitialErases(fine: Fold, coarse: Fold, term: string, dot: char)
    requires Finer(fine, coarse) && |term| >= 2 && Foreign(fine, dot, term)
    requires forall j :: 1 <= j < |term| ==> fine(term[j]) != fine(term[0])
    ensures Erasing(fine, coarse, term, [term[0], dot])
  {
    hide GoesOnLikeTerm, EndsLikeStart;
    var initial := [term[0], dot];
    forall i: nat ensures !MatchAt(fine, term, initial, i) {
      if MatchAt(fine, term, initial, i) {
        SecondCharacter(fine, term, initial, i);
      }
    }
    hide MatchAt;
    forall k: nat | k < |term| ensures !EndsLikeStart(fine, term, initial, k) {
      if EndsLikeStart(fine, term, initial, k) {
        EndBounds(fine, term, initial, k);
        LastCharacter(fine, coarse, term, initial, k);
      }
    }
    forall j: nat | j < |term| ensures !GoesOnLikeTerm(fine, coarse, term, initial, j) {
      if GoesOnLikeTerm(fine, coarse, term, initial, j) {
        GoesOnBounds(fine, coarse, term, initial, j);
        FirstCharacter(fine, coarse, term, initial, j);
      }
    }
  }

  lemma SecondCharacter(fold: Fold, term: string, two: string, i: nat)
    requires |two| == 2 && |term| >= 2 && MatchAt(fold, term, two, i)
    ensures fold(term[1]) == fold(two[1])
  {
    assert two[i..i + |term|] == two;
  }

  lemma EndBounds(fold: Fold, term: string, replacement: string, k: nat)
    requires EndsLikeStart(fold, term, replacement, k)
    ensures 1 <= k < |term| && k <= |replacement|
  {}

  lemma GoesOnBounds(fine: Fold, coarse: Fold, term: string, replacement: string, j: nat)
    requires GoesOnLikeTerm(fine, coarse, term, replacement, j)
    ensures 1 <= j < |term|
  {}
}
