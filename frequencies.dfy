/** Resolution of note tokens to frequencies (getFrequencies). The
    note-to-frequency table, read from a file by the program, is a map
    parameter here. */
module Frequencies {
  import opened Results
  import opened NoteTokens

  /** The note labels a token stands for: normalised, then split into the
      notes of a chord. */
  function Labels(token: string): seq<string>
  {
    GetNoteList(Filtered(token))
  }

  /** Every label of every token has a frequency. */
  ghost predicate AllKnown(tokens: seq<string>, freqs: map<string, real>)
  {
    forall i, j | 0 <= i < |tokens| && 0 <= j < |Labels(tokens[i])| :: Labels(tokens[i])[j] in freqs
  }

  /** `fs` holds one list per token, and the j-th entry of the i-th list is
      the frequency of the j-th label of the i-th token. */
  ghost predicate Resolved(tokens: seq<string>, freqs: map<string, real>, fs: seq<seq<real>>)
  {
    && |fs| == |tokens|
    && forall i | 0 <= i < |tokens| ::
         && |fs[i]| == |Labels(tokens[i])|
         && forall j | 0 <= j < |fs[i]| ::
              Labels(tokens[i])[j] in freqs && fs[i][j] == freqs[Labels(tokens[i])[j]]
  }

  /** The label that has no frequency (pandas' KeyError). */
  datatype ResolveError = UnknownLabel(note: string)

  /** getFrequencies. Fails exactly when some label is missing from the
      table, and then names a missing label of one of the tokens. */
  method GetFrequencies(tokens: seq<string>, freqs: map<string, real>)
    returns (r: Result<seq<seq<real>>, ResolveError>)
    ensures r.Ok? <==> AllKnown(tokens, freqs)
    ensures r.Ok? ==> Resolved(tokens, freqs, r.value)
    ensures r.Err? ==>
              r.error.note !in freqs
              && exists i | 0 <= i < |tokens| :: r.error.note in Labels(tokens[i])
  {
    var frequencies: seq<seq<real>> := [];
    for i := 0 to |tokens|
      invariant Resolved(tokens[..i], freqs, frequencies)
    {
      var noteString := RemoveNonMusicCharacters(tokens[i]);
      var noteList := GetNoteList(noteString);
      var freqList: seq<real> := [];
      for j := 0 to |noteList|
        invariant |freqList| == j
        invariant forall k | 0 <= k < j :: noteList[k] in freqs && freqList[k] == freqs[noteList[k]]
      {
        var note := noteList[j];
        if note !in freqs {
          assert note in Labels(tokens[i]);
          assert !AllKnown(tokens, freqs) by {
            assert Labels(tokens[i])[j] !in freqs;
          }
          return Err(UnknownLabel(note));
        }
        freqList := freqList + [freqs[note]];
      }
      assert tokens[..i + 1][..i] == tokens[..i];
      frequencies := frequencies + [freqList];
    }
    assert tokens[..|tokens|] == tokens;
    return Ok(frequencies);
  }
}
