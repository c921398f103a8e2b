/** The document assembly of ctcsound_example.py. Its create_orchestra is
    the one of the Documents module; its create_score takes the duration
    before the reverb flag and defaults it to sixty seconds. */
module CtcsoundExample {
  import Documents

  /** create_score of ctcsound_example.py. */
  function CreateScore(scoreFunctions: string, score: string, duration: int := 60, reverb: bool := true): (r: string)
    ensures |scoreFunctions| + |score| <= |r|
    ensures r[..|scoreFunctions|] == scoreFunctions && r[|r| - |score|..] == score
    ensures !reverb ==> r == scoreFunctions + score
    ensures reverb ==> Documents.IsReverbLine(r[|scoreFunctions|..|r| - |score|], duration)
  {
    Documents.CreateScore(scoreFunctions, score, reverb, duration)
  }
}
