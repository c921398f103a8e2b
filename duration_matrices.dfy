/** The three hand-written duration transition tables of music_markov.py.
    The seven beat lengths are both the row keys and, in this order, the
    columns. */
module DurationMatrices {
  import opened Probability
  import opened Transitions

  const DurationValues: seq<real> := [0.125, 0.25, 0.333, 0.5, 0.666, 0.75, 1.0]

  /** The default table. */
  const Matrix1: map<real, seq<real>> := map[
    0.125 := [0.35, 0.25, 0.05, 0.15, 0.05, 0.05, 0.1],
    0.25 := [0.1, 0.25, 0.1, 0.2, 0.05, 0.1, 0.2],
    0.333 := [0.05, 0.05, 0.3, 0.1, 0.2, 0.1, 0.2],
    0.5 := [0.125, 0.125, 0.05, 0.35, 0.05, 0.1, 0.2],
    0.666 := [0.05, 0.05, 0.3, 0.1, 0.2, 0.1, 0.2],
    0.75 := [0.1, 0.25, 0.1, 0.2, 0.05, 0.1, 0.2],
    1.0 := [0.125, 0.125, 0.125, 0.125, 0.125, 0.125, 0.25]
  ]

  /** Favours shorter notes. */
  const Matrix2: map<real, seq<real>> := map[
    0.125 := [0.35, 0.25, 0.05, 0.15, 0.05, 0.05, 0.1],
    0.25 := [0.15, 0.25, 0.1, 0.2, 0.05, 0.1, 0.15],
    0.333 := [0.05, 0.05, 0.3, 0.1, 0.2, 0.1, 0.2],
    0.5 := [0.2, 0.2, 0.05, 0.35, 0.05, 0.05, 0.1],
    0.666 := [0.05, 0.05, 0.3, 0.1, 0.2, 0.1, 0.2],
    0.75 := [0.1, 0.25, 0.1, 0.2, 0.05, 0.1, 0.2],
    1.0 := [0.25, 0.25, 0.05, 0.125, 0.125, 0.1, 0.1]
  ]

  /** Favours longer notes. */
  const Matrix3: map<real, seq<real>> := map[
    0.125 := [0.25, 0.25, 0.05, 0.15, 0.05, 0.05, 0.2],
    0.25 := [0.15, 0.25, 0.1, 0.2, 0.05, 0.1, 0.15],
    0.333 := [0.05, 0.05, 0.3, 0.1, 0.2, 0.1, 0.2],
    0.5 := [0.125, 0.125, 0.05, 0.35, 0.05, 0.1, 0.2],
    0.666 := [0.05, 0.05, 0.3, 0.1, 0.2, 0.1, 0.2],
    0.75 := [0.1, 0.25, 0.1, 0.2, 0.05, 0.1, 0.2],
    1.0 := [0.1, 0.125, 0.05, 0.25, 0.125, 0.1, 0.25]
  ]

  /** The DataFrame generate_durations builds from a matrix: the seven beat
      lengths as columns, the matrix entries as rows. */
  function DurationTable(matrix: map<real, seq<real>>): Table<real>
  {
    Table(DurationValues, matrix)
  }

  /** Every beat length is at least an eighth of a beat, which is what makes
      the duration walk terminate. */
  lemma DurationValuesAtLeastEighth()
    ensures forall i | 0 <= i < |DurationValues| :: DurationValues[i] >= 0.125
  {
  }

  /** The set of column states, written out. */
  lemma ColumnSet()
    ensures (set c | c in DurationValues) == {0.125, 0.25, 0.333, 0.5, 0.666, 0.75, 1.0}
  {
    var cs := set c | c in DurationValues;
    assert DurationValues[0] in cs && DurationValues[1] in cs && DurationValues[2] in cs;
    assert DurationValues[3] in cs && DurationValues[4] in cs && DurationValues[5] in cs;
    assert DurationValues[6] in cs;
  }

  /** The sum of a seven-entry row, written out. */
  lemma {:induction false} SumOfSeven(p: seq<real>)
    requires |p| == 7
    ensures Sum(p) == p[0] + p[1] + p[2] + p[3] + p[4] + p[5] + p[6]
  {
    var q := p;
    assert Sum(q[6..]) == q[6] by { assert q[6..][1..] == []; }
    assert Sum(q[5..]) == q[5] + Sum(q[6..]) by { assert q[5..][1..] == q[6..]; }
    assert Sum(q[4..]) == q[4] + Sum(q[5..]) by { assert q[4..][1..] == q[5..]; }
    assert Sum(q[3..]) == q[3] + Sum(q[4..]) by { assert q[3..][1..] == q[4..]; }
    assert Sum(q[2..]) == q[2] + Sum(q[3..]) by { assert q[2..][1..] == q[3..]; }
    assert Sum(q[1..]) == q[1] + Sum(q[2..]) by { assert q[1..][1..] == q[2..]; }
  }

  /** A seven-entry row of non-negative entries adding up to one. */
  lemma SevenRowIsDistribution(p: seq<real>)
    requires |p| == 7 && NonNegative(p)
    requires p[0] + p[1] + p[2] + p[3] + p[4] + p[5] + p[6] == 1.0
    ensures IsDistribution(p)
  {
    SumOfSeven(p);
  }

  /** A matrix keyed by exactly the seven beat lengths whose rows are
      seven-entry distributions gives a valid table. */
  lemma ValidFromRows(m: map<real, seq<real>>)
    requires m.Keys == {0.125, 0.25, 0.333, 0.5, 0.666, 0.75, 1.0}
    requires forall d | d in m :: |m[d]| == 7 && IsDistribution(m[d])
    ensures ValidTable(DurationTable(m))
  {
    ColumnSet();
  }

  lemma Matrix1Valid()
    ensures ValidTable(DurationTable(Matrix1)) && 0.5 in Matrix1
  {
    var m := Matrix1;
    forall d | d in m
      ensures |m[d]| == 7 && IsDistribution(m[d])
    {
      SevenRowIsDistribution(m[d]);
    }
    ValidFromRows(m);
  }

  lemma Matrix2Valid()
    ensures ValidTable(DurationTable(Matrix2)) && 0.5 in Matrix2
  {
    var m := Matrix2;
    forall d | d in m
      ensures |m[d]| == 7 && IsDistribution(m[d])
    {
      SevenRowIsDistribution(m[d]);
    }
    ValidFromRows(m);
  }

  lemma Matrix3Valid()
    ensures ValidTable(DurationTable(Matrix3)) && 0.5 in Matrix3
  {
    var m := Matrix3;
    forall d | d in m
      ensures |m[d]| == 7 && IsDistribution(m[d])
    {
      SevenRowIsDistribution(m[d]);
    }
    ValidFromRows(m);
  }
}
