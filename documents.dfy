/** Assembly of the two text documents handed to the synthesis engine: the
    orchestra (create_orchestra, the same in both program files) and the
    score (create_score of music_markov.py, whose reverb event lasts ten
    seconds unless told otherwise). */
module Documents {
  import opened Numerals

  /** The instrument definitions in order, each followed by a line break. */
  function InstrumentLines(instruments: seq<string>): string
  {
    if instruments == [] then ""
    else InstrumentLines(instruments[..|instruments| - 1]) + instruments[|instruments| - 1] + "\n"
  }

  /** create_orchestra: the settings and a line break, every instrument
      followed by a line break, and the reverb instrument last when reverb
      is on. The reverb instrument's text is a parameter. */
  method CreateOrchestra(settings: string, instruments: seq<string>, reverbInstrument: string, reverb: bool := true)
    returns (output: string)
    ensures output == settings + "\n" + InstrumentLines(instruments) + (if reverb then reverbInstrument else "")
    ensures !reverb && instruments == [] ==> output == settings + "\n"
  {
    output := settings + "\n";
    for i := 0 to |instruments|
      invariant output == settings + "\n" + InstrumentLines(instruments[..i])
    {
      assert instruments[..i + 1][..i] == instruments[..i];
      output := output + instruments[i] + "\n";
    }
    assert instruments[..|instruments|] == instruments;
    if reverb {
      output := output + reverbInstrument;
    }
  }

  /** The instrument lines of two lists, one after the other, are the lines
      of the joined list. */
  lemma {:induction false} InstrumentLinesAppend(a: seq<string>, b: seq<string>)
    ensures InstrumentLines(a + b) == InstrumentLines(a) + InstrumentLines(b)
  {
    if b == [] {
      assert a + b == a;
    } else {
      InstrumentLinesAppend(a, b[..|b| - 1]);
      assert (a + b)[..|a + b| - 1] == a + b[..|b| - 1];
    }
  }

  /** Instrument `k` comes, followed by a line break, right after the lines
      of the instruments before it and right before those after it. */
  lemma InstrumentLinesAt(instruments: seq<string>, k: nat)
    requires k < |instruments|
    ensures InstrumentLines(instruments)
              == InstrumentLines(instruments[..k]) + instruments[k] + "\n" + InstrumentLines(instruments[k + 1..])
  {
    var pre, post := instruments[..k + 1], instruments[k + 1..];
    assert instruments == pre + post;
    InstrumentLinesAppend(pre, post);
    assert pre[..|pre| - 1] == instruments[..k] && pre[|pre| - 1] == instruments[k];
    calc {
      InstrumentLines(instruments);
      InstrumentLines(pre) + InstrumentLines(post);
      InstrumentLines(instruments[..k]) + instruments[k] + "\n" + InstrumentLines(post);
    }
  }

  /** The reverb event line: instrument 99 from time 0 for `duration`
      seconds. */
  function ReverbLine(duration: int): string
  {
    "i99 0 " + IntToString(duration) + "\n"
  }

  /** `line` is a single line: "i99 0 ", then the decimal text of `duration`
      as Python's `str` writes it (which reads back as `duration`), then a
      line break. */
  predicate IsReverbLine(line: string, duration: int)
  {
    && |line| >= 7
    && line[..6] == "i99 0 "
    && line[|line| - 1] == '\n'
    && '\n' !in line[..|line| - 1]
    && line[6..|line| - 1] == IntToString(duration)
    && ParseInt(line[6..|line| - 1]) == duration
  }

  lemma ReverbLineIsOneLine(duration: int)
    ensures IsReverbLine(ReverbLine(duration), duration)
  {
    var line := ReverbLine(duration);
    var text := IntToString(duration);
    IntToStringRoundTrip(duration);
    assert line[6..|line| - 1] == text;
    assert line[..|line| - 1] == "i99 0 " + text;
  }

  /** create_score of music_markov.py: the score functions, then the reverb
      line when reverb is on, then the score, both kept unchanged. */
  function CreateScore(scoreFunctions: string, score: string, reverb: bool := true, duration: int := 10): (r: string)
    ensures |scoreFunctions| + |score| <= |r|
    ensures r[..|scoreFunctions|] == scoreFunctions && r[|r| - |score|..] == score
    ensures !reverb ==> r == scoreFunctions + score
    ensures reverb ==> IsReverbLine(r[|scoreFunctions|..|r| - |score|], duration)
  {
    var middle := if reverb then ReverbLine(duration) else "";
    var r := scoreFunctions + middle + score;
    assert r[|scoreFunctions|..|r| - |score|] == middle;
    if reverb then ReverbLineIsOneLine(duration); r else r
  }
}
