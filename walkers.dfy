/** The two Markov walks of music_markov.py: durations until a running
    total is reached (generate_durations) and a fixed number of note labels
    (getNotes). Both draw from one random stream: step `i` of a walk uses
    draw `draw(i)`. */
module Walkers {
  import opened Results
  import opened Probability
  import opened Transitions
  import opened DurationMatrices

  /** `s` is what generate_durations returns: a walk from `start` that stops
      at the first element whose running sum reaches `total`. */
  ghost predicate DurationWalk(total: real, t: Table<real>, start: real, draw: nat -> Draw, s: seq<real>)
    requires Shaped(t)
  {
    && |s| >= 1 && s[0] == start && IsWalk(t, draw, s)
    && (forall k | 1 <= k < |s| :: Sum(s[..k]) < total)
    && Sum(s) >= total
  }

  /** `s` is a walk from `start` all of whose running sums, the whole one
      included, are still below `total`: a walk that must go on. */
  ghost predicate UnfinishedDurationWalk(total: real, t: Table<real>, start: real, draw: nat -> Draw, s: seq<real>)
    requires Shaped(t)
  {
    && |s| >= 1 && s[0] == start && IsWalk(t, draw, s)
    && (forall k | 1 <= k <= |s| :: Sum(s[..k]) < total)
  }

  /** A walk extended by a successful step is a walk. */
  lemma ExtendWalk<S>(t: Table<S>, draw: nat -> Draw, s: seq<S>, next: S)
    requires Shaped(t) && |s| >= 1 && IsWalk(t, draw, s)
    requires Next(t, s[|s| - 1], draw(|s| - 1)) == Ok(next)
    ensures IsWalk(t, draw, s + [next])
  {
    var s' := s + [next];
    forall i | 0 <= i < |s'| - 1
      ensures Next(t, s'[i], draw(i)) == Ok(s'[i + 1])
    {
      if i < |s| - 1 {
        assert s'[i] == s[i] && s'[i + 1] == s[i + 1];
      }
    }
  }

  /** Appending to a sequence whose whole sum is still below the total keeps
      every proper prefix of the longer one below the total. */
  lemma ExtendBelowTotal(s: seq<real>, next: real, total: real)
    requires forall k | 1 <= k < |s| :: Sum(s[..k]) < total
    requires |s| >= 1 && Sum(s) < total
    ensures forall k | 1 <= k < |s| + 1 :: Sum((s + [next])[..k]) < total
  {
    forall k | 1 <= k < |s| + 1
      ensures Sum((s + [next])[..k]) < total
    {
      assert (s + [next])[..k] == s[..k];
      if k == |s| {
        assert s[..k] == s;
      }
    }
  }

  /** generate_durations. The matrix rows must have one entry per beat
      length (pandas refuses to build the table otherwise). On success the
      result is the duration walk; on failure the walk reached a state whose
      step fails. A valid matrix never fails when it has a row for the start
      value, and a start at or past the total is returned alone. */
  method GenerateDurations(total: real, matrix: map<real, seq<real>>, start: real, draw: nat -> Draw)
    returns (r: Result<seq<real>, WalkError<real>>)
    requires Shaped(DurationTable(matrix))
    ensures r.Ok? ==> DurationWalk(total, DurationTable(matrix), start, draw, r.value)
    ensures r.Ok? ==> forall i | 1 <= i < |r.value| :: r.value[i] in DurationValues
    ensures r.Err? ==>
              exists s :: UnfinishedDurationWalk(total, DurationTable(matrix), start, draw, s)
                && Next(DurationTable(matrix), s[|s| - 1], draw(|s| - 1)) == Err(r.error)
    ensures start >= total ==> r == Ok([start])
    ensures start < total && start !in matrix ==> r == Err(MissingRow(start))
    ensures ValidTable(DurationTable(matrix)) && start in matrix ==> r.Ok?
  {
    var t := DurationTable(matrix);
    var s := [start];
    var current := start;
    var count := start;
    assert s[..1] == s;
    while count < total
      invariant |s| >= 1 && s[0] == start && current == s[|s| - 1]
      invariant count == Sum(s)
      invariant IsWalk(t, draw, s)
      invariant forall k | 1 <= k < |s| :: Sum(s[..k]) < total
      invariant forall i | 1 <= i < |s| :: s[i] in DurationValues
      invariant ValidTable(t) && start in matrix ==> current in matrix
      invariant start >= total ==> s == [start]
      decreases (8.0 * (total - count)).Floor
    {
      var step := Next(t, current, draw(|s| - 1));
      if step.Err? {
        assert s[..|s|] == s;
        assert UnfinishedDurationWalk(total, t, start, draw, s);
        return Err(step.error);
      }
      if ValidTable(t) && start in matrix {
        NextStaysInTable(t, current, draw(|s| - 1));
      }
      var next := step.value;
      DurationValuesAtLeastEighth();
      ExtendWalk(t, draw, s, next);
      ExtendBelowTotal(s, next, total);
      SumAppend(s, next);
      s := s + [next];
      current := next;
      count := count + next;
    }
    return Ok(s);
  }

  /** `s` is what getNotes returns: a walk from `start` of exactly
      max(1, n) labels. */
  ghost predicate NoteWalk(t: Table<string>, start: string, n: int, draw: nat -> Draw, s: seq<string>)
    requires Shaped(t)
  {
    |s| == (if n < 1 then 1 else n) && s[0] == start && IsWalk(t, draw, s)
  }

  /** getNotes, with the pitch transition table as a parameter. */
  method GetNotes(start: string, n: int, t: Table<string>, draw: nat -> Draw)
    returns (r: Result<seq<string>, WalkError<string>>)
    requires Shaped(t)
    ensures r.Ok? ==> NoteWalk(t, start, n, draw, r.value)
    ensures r.Ok? ==> forall i | 1 <= i < |r.value| :: r.value[i] in t.columns
    ensures r.Err? ==>
              exists s :: 1 <= |s| < n && s[0] == start && IsWalk(t, draw, s)
                && Next(t, s[|s| - 1], draw(|s| - 1)) == Err(r.error)
    ensures n > 1 && start !in t.rows ==> r == Err(MissingRow(start))
    ensures ValidTable(t) && start in t.rows ==> r.Ok?
  {
    var s := [start];
    var current := start;
    var count := 1;
    while count < n
      invariant count == |s| >= 1 && s[0] == start && current == s[|s| - 1]
      invariant count <= n || count == 1
      invariant IsWalk(t, draw, s)
      invariant forall i | 1 <= i < |s| :: s[i] in t.columns
      invariant ValidTable(t) && start in t.rows ==> current in t.rows
      invariant start !in t.rows ==> s == [start]
    {
      var step := Next(t, current, draw(|s| - 1));
      if step.Err? {
        return Err(step.error);
      }
      if ValidTable(t) && start in t.rows {
        NextStaysInTable(t, current, draw(|s| - 1));
      }
      s := s + [step.value];
      current := step.value;
      count := count + 1;
    }
    return Ok(s);
  }

  /** Two walks through the same table from the same state with the same
      draws agree on their common length. */
  lemma {:induction false} WalksAgree<S>(t: Table<S>, draw: nat -> Draw, s1: seq<S>, s2: seq<S>, k: nat)
    requires Shaped(t) && IsWalk(t, draw, s1) && IsWalk(t, draw, s2)
    requires |s1| >= 1 && |s2| >= 1 && s1[0] == s2[0]
    requires k <= |s1| && k <= |s2|
    ensures s1[..k] == s2[..k]
  {
    if k > 1 {
      WalksAgree(t, draw, s1, s2, k - 1);
      assert s1[k - 2] == s1[..k - 1][k - 2] == s2[..k - 1][k - 2] == s2[k - 2];
      assert Next(t, s1[k - 2], draw(k - 2)) == Ok(s1[k - 1]);
      assert Next(t, s2[k - 2], draw(k - 2)) == Ok(s2[k - 1]);
      assert s1[..k] == s1[..k - 1] + [s1[k - 1]];
      assert s2[..k] == s2[..k - 1] + [s2[k - 1]];
    }
  }

  /** No proper prefix of a duration walk reaches the total. */
  lemma StopsAtFirst(total: real, t: Table<real>, start: real, draw: nat -> Draw, s: seq<real>, k: nat)
    requires Shaped(t) && DurationWalk(total, t, start, draw, s)
    requires 1 <= k < |s|
    ensures Sum(s[..k]) < total
  {
  }

  lemma WholePrefix<T>(s: seq<T>)
    ensures s[..|s|] == s
  {
  }

  /** The stop rule determines the duration walk: given the draws, there is
      only one sequence generate_durations can return. */
  lemma DurationWalkUnique(total: real, t: Table<real>, start: real, draw: nat -> Draw, s1: seq<real>, s2: seq<real>)
    requires Shaped(t)
    requires DurationWalk(total, t, start, draw, s1) && DurationWalk(total, t, start, draw, s2)
    ensures s1 == s2
  {
    if |s1| < |s2| {
      WalksAgree(t, draw, s1, s2, |s1|);
      StopsAtFirst(total, t, start, draw, s2, |s1|);
      WholePrefix(s1);
      assert false;
    } else if |s2| < |s1| {
      WalksAgree(t, draw, s1, s2, |s2|);
      StopsAtFirst(total, t, start, draw, s1, |s2|);
      WholePrefix(s2);
      assert false;
    } else {
      WalksAgree(t, draw, s1, s2, |s1|);
      assert s1 == s1[..|s1|] && s2 == s2[..|s2|];
    }
  }

  /** Timing of a duration walk from a beat length: every element is a beat
      length, and the running sum before each element is non-negative and,
      after the first element, below the total. */
  lemma DurationWalkTiming(total: real, matrix: map<real, seq<real>>, start: real, draw: nat -> Draw, s: seq<real>)
    requires Shaped(DurationTable(matrix)) && start in DurationValues
    requires DurationWalk(total, DurationTable(matrix), start, draw, s)
    ensures forall k | 0 <= k < |s| :: s[k] in DurationValues
    ensures forall k | 0 <= k < |s| :: 0.0 <= Sum(s[..k]) && (k == 0 || Sum(s[..k]) < total)
  {
    var t := DurationTable(matrix);
    forall k | 1 <= k < |s| ensures s[k] in DurationValues {
      assert Next(t, s[k - 1], draw(k - 1)) == Ok(s[k]);
    }
    DurationValuesAtLeastEighth();
    forall k | 0 <= k < |s| ensures 0.0 <= Sum(s[..k]) {
      assert NonNegative(s[..k]) by {
        forall i | 0 <= i < k ensures s[..k][i] >= 0.0 {
          assert s[..k][i] == s[i];
        }
      }
      SumNonNegative(s[..k]);
    }
  }

  /** Likewise the note walk is determined by its draws. */
  lemma NoteWalkUnique(t: Table<string>, start: string, n: int, draw: nat -> Draw, s1: seq<string>, s2: seq<string>)
    requires Shaped(t)
    requires NoteWalk(t, start, n, draw, s1) && NoteWalk(t, start, n, draw, s2)
    ensures s1 == s2
  {
    WalksAgree(t, draw, s1, s2, |s1|);
    assert s1 == s1[..|s1|] && s2 == s2[..|s2|];
  }

  /** A table that sends the half beat to itself with probability one. */
  const HalfBeatLoop: map<real, seq<real>> := map[0.5 := [0.0, 0.0, 0.0, 1.0, 0.0, 0.0, 0.0]]

  /** Every draw sends the half beat to itself in that table. */
  lemma HalfBeatLoopStep(u: Draw)
    ensures Shaped(DurationTable(HalfBeatLoop))
    ensures Next(DurationTable(HalfBeatLoop), 0.5, u) == Ok(0.5)
  {
    var p := HalfBeatLoop[0.5];
    DurationMatrices.SevenRowIsDistribution(p);
    var i := Sample(p, u);
    assert p[i] > 0.0;
  }

  /** Starting on a half beat with a two-beat total and that table, the walk
      is four half beats, whatever the draws. */
  lemma HalfBeatLoopWalk(draw: nat -> Draw)
    ensures Shaped(DurationTable(HalfBeatLoop))
    ensures DurationWalk(2.0, DurationTable(HalfBeatLoop), 0.5, draw, [0.5, 0.5, 0.5, 0.5])
  {
    var t := DurationTable(HalfBeatLoop);
    var s := [0.5, 0.5, 0.5, 0.5];
    forall i | 0 <= i < |s| - 1
      ensures Next(t, s[i], draw(i)) == Ok(s[i + 1])
    {
      HalfBeatLoopStep(draw(i));
    }
    forall k | 1 <= k <= |s|
      ensures Sum(s[..k]) == 0.5 * k as real
    {
      HalfBeatPrefix(s, k);
    }
    assert s[..4] == s;
  }

  lemma {:induction false} HalfBeatPrefix(s: seq<real>, k: nat)
    requires k <= |s| && forall i | 0 <= i < |s| :: s[i] == 0.5
    ensures Sum(s[..k]) == 0.5 * k as real
  {
    if k > 0 {
      HalfBeatPrefix(s, k - 1);
      PrefixSumStep(s, k - 1);
    }
  }
}
