/** Markov transition tables, shared by the duration and the pitch chains.

    A table is what the program builds as a pandas DataFrame: an ordered
    list of column states (the possible next states) and one row of
    probabilities per current state, indexed by that state. */
module Transitions {
  import opened Results
  import opened Probability

  datatype Table<S> = Table(columns: seq<S>, rows: map<S, seq<real>>)

  /** Every row has one probability per column, as in any DataFrame. */
  predicate Shaped<S>(t: Table<S>)
  {
    forall s | s in t.rows :: |t.rows[s]| == |t.columns|
  }

  /** A table whose chain never gets stuck: each column state has a row,
      there is no other row, and every row is a probability distribution. */
  predicate ValidTable<S>(t: Table<S>)
  {
    && Shaped(t)
    && t.rows.Keys == set c | c in t.columns
    && forall s | s in t.rows :: IsDistribution(t.rows[s])
  }

  /** The two ways a step of a walk fails: the current state has no row
      (pandas' KeyError), or its row is not a distribution (numpy's
      ValueError). */
  datatype WalkError<S> = MissingRow(state: S) | NotADistribution(state: S)

  /** One step of a walk from `current`, using draw `u`. */
  function Next<S>(t: Table<S>, current: S, u: Draw): (r: Result<S, WalkError<S>>)
    requires Shaped(t)
    ensures current !in t.rows ==> r == Err(MissingRow(current))
    ensures current in t.rows && !IsDistribution(t.rows[current]) ==>
              r == Err(NotADistribution(current))
    ensures r.Ok? <==> current in t.rows && IsDistribution(t.rows[current])
    ensures r.Ok? ==>
              exists i :: 0 <= i < |t.columns| && t.columns[i] == r.value
                && t.rows[current][i] > 0.0
                && Sum(t.rows[current][..i]) <= u < Sum(t.rows[current][..i]) + t.rows[current][i]
  {
    if current !in t.rows then Err(MissingRow(current))
    else if !IsDistribution(t.rows[current]) then Err(NotADistribution(current))
    else Ok(t.columns[Sample(t.rows[current], u)])
  }

  /** In a valid table a step from a state that has a row always succeeds
      and lands on a state that has a row again. */
  lemma NextStaysInTable<S>(t: Table<S>, current: S, u: Draw)
    requires ValidTable(t) && current in t.rows
    ensures Next(t, current, u).Ok? && Next(t, current, u).value in t.rows
  {
    var i := Sample(t.rows[current], u);
    assert t.columns[i] in set c | c in t.columns;
  }

  /** Every transition with a positive probability is taken by some draw. */
  lemma NextReaches<S>(t: Table<S>, current: S, i: nat)
    requires Shaped(t) && current in t.rows && IsDistribution(t.rows[current])
    requires i < |t.columns| && t.rows[current][i] > 0.0
    ensures exists u: Draw :: Next(t, current, u) == Ok(t.columns[i])
  {
    var p := t.rows[current];
    SampleReaches(p, i);
    var u: Draw := Sum(p[..i]);
    assert Next(t, current, u) == Ok(t.columns[i]);
  }

  /** `s` is a walk through `t` in which step `i` uses draw `draw(i)`. */
  ghost predicate IsWalk<S>(t: Table<S>, draw: nat -> Draw, s: seq<S>)
    requires Shaped(t)
  {
    forall i | 0 <= i < |s| - 1 :: Next(t, s[i], draw(i)) == Ok(s[i + 1])
  }
}
