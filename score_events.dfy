/** Score assembly of music_markov.py: the events each instrument's score
    holds (instr1_score to instr4_score), the dispatch between them
    (generate_score), and the text form of events.

    Events are kept as values; a line of text is made from an event only
    when it is rendered, with the decimal text of a number left abstract as
    a `show` function. */
module ScoreEvents {
  import opened Results
  import opened Probability
  import opened Transitions
  import opened DurationMatrices
  import opened Walkers
  import opened Frequencies
  import opened Numerals

  /** One score line: instrument number, start time, duration, then the
      instrument's own fields. */
  datatype Event = Event(instr: nat, start: real, dur: real, fields: seq<real>)

  /** The first duration of every duration walk. */
  const StartDuration: real := 0.5
  /** The note a pitched score starts on when none is given. */
  const DefaultStartNote: string := "C3"
  /** Amplitude field of every drum event. */
  const DrumAmplitude: real := 0.05
  /** Amplitude field of every pitched event. */
  const NoteAmplitude: real := 1.0
  /** Length of the thunder sample, in seconds. */
  const ThunderLength: int := 4
  /** How many thunder events a score holds. */
  const ThunderCount: nat := 4

  datatype ScoreError =
    | NoteWalkFailed(walk: WalkError<string>)
    | UnknownNote(note: string)
    | EmptyRange
    | UnknownInstrument

  function StartNote(startNote: Option<string>): string
  {
    if startNote.None? then DefaultStartNote else startNote.value
  }

  /** The draws left after `used` of them were taken. */
  function After(draw: nat -> Draw, used: nat): nat -> Draw
  {
    (k: nat) => draw(k + used)
  }

  // ----- rendering -----

  function Fields(xs: seq<real>, show: real -> string): string
  {
    if xs == [] then "" else " " + show(xs[0]) + Fields(xs[1..], show)
  }

  /** The text line of an event: "i<instr> <start> <dur> <fields...>". */
  function RenderEvent(e: Event, show: real -> string): string
  {
    "i" + IntToString(e.instr) + " " + show(e.start) + " " + show(e.dur) + Fields(e.fields, show) + "\n"
  }

  /** The text of a score: its events' lines, in order. */
  function Render(es: seq<Event>, show: real -> string): string
  {
    if es == [] then "" else RenderEvent(es[0], show) + Render(es[1..], show)
  }

  function LineCount(s: string): nat
  {
    multiset(s)['\n']
  }

  /** Rendering a concatenation of scores concatenates their texts, so the
      events of several instruments can be joined before or after
      rendering. */
  lemma {:induction false} RenderAppend(a: seq<Event>, b: seq<Event>, show: real -> string)
    ensures Render(a + b, show) == Render(a, show) + Render(b, show)
  {
    if a != [] {
      assert (a + b)[1..] == a[1..] + b;
      RenderAppend(a[1..], b, show);
    } else {
      assert a + b == b;
    }
  }

  lemma {:induction false} FieldsHaveNoLineBreak(xs: seq<real>, show: real -> string)
    requires forall x :: '\n' !in show(x)
    ensures '\n' !in Fields(xs, show)
  {
    if xs != [] {
      FieldsHaveNoLineBreak(xs[1..], show);
    }
  }

  /** A score holds one text line per event, as long as the text of a
      number holds no line break. */
  lemma {:induction false} RenderLineCount(es: seq<Event>, show: real -> string)
    requires forall x :: '\n' !in show(x)
    ensures LineCount(Render(es, show)) == |es|
  {
    if es != [] {
      var e := es[0];
      IntToStringRoundTrip(e.instr);
      FieldsHaveNoLineBreak(e.fields, show);
      var body := "i" + IntToString(e.instr) + " " + show(e.start) + " " + show(e.dur) + Fields(e.fields, show);
      assert '\n' !in body;
      assert multiset(body)['\n'] == 0;
      assert RenderEvent(e, show) == body + "\n";
      RenderLineCount(es[1..], show);
    }
  }

  // ----- pitched scores (instr1_score, instr3_score) -----

  /** One event per frequency of a chord, all at one start time. */
  function Chord(instr: nat, onset: real, dur: real, fs: seq<real>): seq<Event>
  {
    seq(|fs|, j requires 0 <= j < |fs| => Event(instr, onset, dur, [fs[j], NoteAmplitude]))
  }

  /** The events of a pitched score: chord k sounds at the sum of the
      durations before it, for duration k. */
  function ChordEvents(instr: nat, durs: seq<real>, fss: seq<seq<real>>): seq<Event>
    requires |durs| == |fss|
  {
    if durs == [] then []
    else
      var n := |durs| - 1;
      ChordEvents(instr, durs[..n], fss[..n]) + Chord(instr, Sum(durs[..n]), durs[n], fss[n])
  }

  /** The number of frequencies in all chords. */
  function EventCount(fss: seq<seq<real>>): nat
  {
    if fss == [] then 0 else EventCount(fss[..|fss| - 1]) + |fss[|fss| - 1]|
  }

  lemma {:induction false} ChordEventsLength(instr: nat, durs: seq<real>, fss: seq<seq<real>>)
    requires |durs| == |fss|
    ensures |ChordEvents(instr, durs, fss)| == EventCount(fss)
  {
    if durs != [] {
      ChordEventsLength(instr, durs[..|durs| - 1], fss[..|fss| - 1]);
    }
  }

  lemma {:induction false} EventCountPrefix(fss: seq<seq<real>>, k: nat)
    requires k < |fss|
    ensures EventCount(fss[..k]) + |fss[k]| <= EventCount(fss)
  {
    var n := |fss| - 1;
    if k < n {
      EventCountPrefix(fss[..n], k);
      assert fss[..n][..k] == fss[..k];
    } else {
      assert fss[..k + 1] == fss;
    }
  }

  /** Event `j` of chord `k` sits right after the events of the chords
      before it, starts at the sum of the first `k` durations and lasts
      duration `k`. A chord with no frequency adds no event but its duration
      still counts towards later start times. */
  lemma {:induction false} ChordEventsAt(instr: nat, durs: seq<real>, fss: seq<seq<real>>, k: nat, j: nat)
    requires |durs| == |fss| && k < |durs| && j < |fss[k]|
    ensures |ChordEvents(instr, durs, fss)| == EventCount(fss)
    ensures EventCount(fss[..k]) + j < EventCount(fss)
    ensures ChordEvents(instr, durs, fss)[EventCount(fss[..k]) + j]
              == Event(instr, Sum(durs[..k]), durs[k], [fss[k][j], NoteAmplitude])
  {
    ChordEventsLength(instr, durs, fss);
    EventCountPrefix(fss, k);
    var n := |durs| - 1;
    ChordEventsLength(instr, durs[..n], fss[..n]);
    if k < n {
      ChordEventsAt(instr, durs[..n], fss[..n], k, j);
      assert fss[..n][..k] == fss[..k];
      assert durs[..n][..k] == durs[..k];
      EventCountPrefix(fss[..n], k);
    }
  }

  /** Every event of a pitched score comes from some frequency `j` of some
      chord `k`: it starts at the sum of the first `k` durations, lasts
      duration `k` and has amplitude 1. */
  lemma {:induction false} ChordEventsFrom(instr: nat, durs: seq<real>, fss: seq<seq<real>>, i: nat)
    requires |durs| == |fss| && i < |ChordEvents(instr, durs, fss)|
    ensures exists k, j | 0 <= k < |durs| && 0 <= j < |fss[k]| ::
              ChordEvents(instr, durs, fss)[i] == Event(instr, Sum(durs[..k]), durs[k], [fss[k][j], NoteAmplitude])
  {
    var n := |durs| - 1;
    var prefix := ChordEvents(instr, durs[..n], fss[..n]);
    if i < |prefix| {
      ChordEventsFrom(instr, durs[..n], fss[..n], i);
      var k, j :| 0 <= k < n && 0 <= j < |fss[..n][k]|
        && prefix[i] == Event(instr, Sum(durs[..n][..k]), durs[..n][k], [fss[..n][k][j], NoteAmplitude]);
      assert durs[..n][..k] == durs[..k];
      assert ChordEvents(instr, durs, fss)[i] == prefix[i];
    } else {
      var j := i - |prefix|;
      assert ChordEvents(instr, durs, fss)[i] == Chord(instr, Sum(durs[..n]), durs[n], fss[n])[j];
    }
  }

  /** An event placed in a score aiming at `duration` seconds: it starts at
      time 0 or at a time before the target, and lasts one of the beat
      lengths. */
  predicate Timed(e: Event, duration: real)
  {
    && 0.0 <= e.start && (e.start == 0.0 || e.start < duration)
    && e.dur in DurationValues
  }

  /** What a pitched score is: the duration walk from a half beat; then,
      on success, a note walk of as many notes continuing the same random
      stream, the frequencies of those notes, and one event per frequency;
      on failure, the note walk got stuck or a note had no frequency. */
  ghost predicate PitchedOutcome(
    instr: nat, matrix: map<real, seq<real>>, startNote: Option<string>, duration: real,
    pitches: Table<string>, freqs: map<string, real>, draw: nat -> Draw,
    r: Result<seq<Event>, ScoreError>, durs: seq<real>, notes: seq<string>, fss: seq<seq<real>>)
    requires Shaped(DurationTable(matrix)) && Shaped(pitches)
  {
    && DurationWalk(duration, DurationTable(matrix), StartDuration, draw, durs)
    && (r.Ok? ==>
          && NoteWalk(pitches, StartNote(startNote), |durs|, After(draw, |durs| - 1), notes)
          && Resolved(notes, freqs, fss)
          && r.value == ChordEvents(instr, durs, fss))
    && (r.Err? ==> r.error.NoteWalkFailed? || r.error.UnknownNote?)
    && (r.Err? && r.error.NoteWalkFailed? ==>
          exists s :: 1 <= |s| < |durs| && s[0] == StartNote(startNote)
            && IsWalk(pitches, After(draw, |durs| - 1), s)
            && Next(pitches, s[|s| - 1], After(draw, |durs| - 1)(|s| - 1)) == Err(r.error.walk))
    && (r.Err? && r.error.UnknownNote? ==>
          && NoteWalk(pitches, StartNote(startNote), |durs|, After(draw, |durs| - 1), notes)
          && !AllKnown(notes, freqs)
          && r.error.note !in freqs
          && exists i | 0 <= i < |notes| :: r.error.note in Labels(notes[i]))
  }

  /** The body shared by instr1_score and instr3_score. */
  method PitchedScore(
    instr: nat, matrix: map<real, seq<real>>, startNote: Option<string>, duration: real,
    pitches: Table<string>, freqs: map<string, real>, draw: nat -> Draw)
    returns (r: Result<seq<Event>, ScoreError>, ghost durs: seq<real>, ghost notes: seq<string>, ghost fss: seq<seq<real>>)
    requires ValidTable(DurationTable(matrix)) && StartDuration in matrix
    requires Shaped(pitches)
    ensures r.Ok? ==>
              forall e | e in r.value ::
                e.instr == instr && Timed(e, duration) && |e.fields| == 2 && e.fields[1] == NoteAmplitude
    ensures PitchedOutcome(instr, matrix, startNote, duration, pitches, freqs, draw, r, durs, notes, fss)
  {
    var start := StartNote(startNote);
    var walked := GenerateDurations(duration, matrix, StartDuration, draw);
    var durations := walked.value;
    durs, notes, fss := durations, [], [];
    var noteWalk := GetNotes(start, |durations|, pitches, After(draw, |durations| - 1));
    if noteWalk.Err? {
      return Err(NoteWalkFailed(noteWalk.error)), durs, notes, fss;
    }
    var sequence := noteWalk.value;
    notes := sequence;
    var resolved := GetFrequencies(sequence, freqs);
    if resolved.Err? {
      return Err(UnknownNote(resolved.error.note)), durs, notes, fss;
    }
    var frequencies := resolved.value;
    fss := frequencies;
    var score := ChordScore(instr, durations, frequencies);
    DurationWalkTiming(duration, matrix, StartDuration, draw, durations);
    forall e | e in score
      ensures e.instr == instr && Timed(e, duration) && |e.fields| == 2 && e.fields[1] == NoteAmplitude
    {
      var i :| 0 <= i < |score| && score[i] == e;
      ChordEventsFrom(instr, durations, frequencies, i);
    }
    return Ok(score), durs, notes, fss;
  }

  /** The loop of instr1_score and instr3_score: for each chord, one event
      per frequency at the running start time, which then advances by the
      chord's duration. */
  method ChordScore(instr: nat, durations: seq<real>, frequencies: seq<seq<real>>) returns (score: seq<Event>)
    requires |durations| == |frequencies|
    ensures score == ChordEvents(instr, durations, frequencies)
  {
    var second := 0.0;
    score := [];
    for index := 0 to |frequencies|
      invariant second == Sum(durations[..index])
      invariant score == ChordEvents(instr, durations[..index], frequencies[..index])
    {
      var noteDuration := durations[index];
      var freqList := frequencies[index];
      ghost var before := score;
      for j := 0 to |freqList|
        invariant score == before + Chord(instr, second, noteDuration, freqList)[..j]
      {
        assert Chord(instr, second, noteDuration, freqList)[..j + 1]
            == Chord(instr, second, noteDuration, freqList)[..j] + [Event(instr, second, noteDuration, [freqList[j], NoteAmplitude])];
        score := score + [Event(instr, second, noteDuration, [freqList[j], NoteAmplitude])];
      }
      assert Chord(instr, second, noteDuration, freqList)[..|freqList|] == Chord(instr, second, noteDuration, freqList);
      assert durations[..index + 1][..index] == durations[..index];
      assert frequencies[..index + 1][..index] == frequencies[..index];
      PrefixSumStep(durations, index);
      second := second + noteDuration;
    }
    assert durations[..|durations|] == durations && frequencies[..|frequencies|] == frequencies;
  }

  /** instr1_score: the simple tone, durations from the default table. */
  method Instr1Score(startNote: Option<string>, duration: real, pitches: Table<string>, freqs: map<string, real>, draw: nat -> Draw)
    returns (r: Result<seq<Event>, ScoreError>, ghost durs: seq<real>, ghost notes: seq<string>, ghost fss: seq<seq<real>>)
    requires Shaped(pitches)
    ensures Shaped(DurationTable(Matrix1))
    ensures r.Ok? ==>
              forall e | e in r.value ::
                e.instr == 1 && Timed(e, duration) && |e.fields| == 2 && e.fields[1] == NoteAmplitude
    ensures PitchedOutcome(1, Matrix1, startNote, duration, pitches, freqs, draw, r, durs, notes, fss)
  {
    Matrix1Valid();
    r, durs, notes, fss := PitchedScore(1, Matrix1, startNote, duration, pitches, freqs, draw);
  }

  /** instr3_score: the piano, durations from the table favouring long
      notes. */
  method Instr3Score(startNote: Option<string>, duration: real, pitches: Table<string>, freqs: map<string, real>, draw: nat -> Draw)
    returns (r: Result<seq<Event>, ScoreError>, ghost durs: seq<real>, ghost notes: seq<string>, ghost fss: seq<seq<real>>)
    requires Shaped(pitches)
    ensures Shaped(DurationTable(Matrix3))
    ensures r.Ok? ==>
              forall e | e in r.value ::
                e.instr == 3 && Timed(e, duration) && |e.fields| == 2 && e.fields[1] == NoteAmplitude
    ensures PitchedOutcome(3, Matrix3, startNote, duration, pitches, freqs, draw, r, durs, notes, fss)
  {
    Matrix3Valid();
    r, durs, notes, fss := PitchedScore(3, Matrix3, startNote, duration, pitches, freqs, draw);
  }

  // ----- drum score (instr2_score) -----

  /** instr2_score: one drum event per duration of a walk through the table
      favouring short notes, each starting at the sum of the durations
      before it. */
  method Instr2Score(duration: real, draw: nat -> Draw) returns (events: seq<Event>, ghost durs: seq<real>)
    ensures Shaped(DurationTable(Matrix2))
    ensures DurationWalk(duration, DurationTable(Matrix2), StartDuration, draw, durs)
    ensures |events| == |durs|
    ensures forall k | 0 <= k < |durs| :: events[k] == Event(2, Sum(durs[..k]), durs[k], [DrumAmplitude])
    ensures |events| >= 1 && events[0] == Event(2, 0.0, StartDuration, [DrumAmplitude])
    ensures forall k | 0 <= k < |events| - 1 :: events[k + 1].start == events[k].start + events[k].dur
    ensures events[|events| - 1].start + events[|events| - 1].dur >= duration
    ensures forall e | e in events :: e.instr == 2 && Timed(e, duration) && e.fields == [DrumAmplitude]
  {
    Matrix2Valid();
    var walked := GenerateDurations(duration, Matrix2, StartDuration, draw);
    var durations := walked.value;
    durs := durations;
    events := DrumScore(durations);
    DrumTiming(duration, draw, durations, events);
  }

  /** The loop of instr2_score: one drum event per duration, at the running
      start time, which then advances by that duration. */
  method DrumScore(durations: seq<real>) returns (events: seq<Event>)
    ensures |events| == |durations|
    ensures forall k | 0 <= k < |durations| :: events[k] == Event(2, Sum(durations[..k]), durations[k], [DrumAmplitude])
  {
    var index := 0;
    var second := 0.0;
    events := [];
    while index < |durations|
      invariant 0 <= index <= |durations| && |events| == index
      invariant second == Sum(durations[..index])
      invariant forall k | 0 <= k < index :: events[k] == Event(2, Sum(durations[..k]), durations[k], [DrumAmplitude])
    {
      var noteDuration := durations[index];
      events := events + [Event(2, second, noteDuration, [DrumAmplitude])];
      PrefixSumStep(durations, index);
      second := second + noteDuration;
      index := index + 1;
    }
  }

  /** The drum events of a duration walk follow each other without gap or
      overlap from time 0, and the last one ends at or after the target. */
  lemma DrumTiming(duration: real, draw: nat -> Draw, durs: seq<real>, events: seq<Event>)
    requires Shaped(DurationTable(Matrix2))
    requires DurationWalk(duration, DurationTable(Matrix2), StartDuration, draw, durs)
    requires |events| == |durs|
    requires forall k | 0 <= k < |durs| :: events[k] == Event(2, Sum(durs[..k]), durs[k], [DrumAmplitude])
    ensures |events| >= 1 && events[0] == Event(2, 0.0, StartDuration, [DrumAmplitude])
    ensures forall k | 0 <= k < |events| - 1 :: events[k + 1].start == events[k].start + events[k].dur
    ensures events[|events| - 1].start + events[|events| - 1].dur >= duration
    ensures forall e | e in events :: e.instr == 2 && Timed(e, duration) && e.fields == [DrumAmplitude]
  {
    DurationWalkTiming(duration, Matrix2, StartDuration, draw, durs);
    forall k | 0 <= k < |events| - 1 ensures events[k + 1].start == events[k].start + events[k].dur {
      PrefixSumStep(durs, k);
    }
    PrefixSumStep(durs, |durs| - 1);
    assert durs[..|durs|] == durs;
    forall e | e in events ensures e.instr == 2 && Timed(e, duration) && e.fields == [DrumAmplitude] {
      var k :| 0 <= k < |events| && events[k] == e;
    }
  }

  // ----- thunder score (instr4_score) -----

  /** random.randint(lo, hi), with the source of randomness a natural `x`:
      any value of the range can come out, and nothing outside it. */
  function RandInt(lo: int, hi: int, x: nat): (r: int)
    requires lo <= hi
    ensures lo <= r <= hi
  {
    lo + x % (hi - lo + 1)
  }

  /** Every value of the range is the outcome of some random number. */
  lemma RandIntReaches(lo: int, hi: int, v: int)
    requires lo <= v <= hi
    ensures exists x: nat :: RandInt(lo, hi, x) == v
  {
    var x: nat := v - lo;
    assert RandInt(lo, hi, x) == v;
  }

  /** instr4_score: four thunder events of four seconds, each starting on
      a whole second chosen so that it ends by `duration`. randint fails on
      an empty range, that is when `duration` is below four. */
  method Instr4Score(duration: int, pick: nat -> nat) returns (r: Result<seq<Event>, ScoreError>)
    ensures r.Err? <==> duration < ThunderLength
    ensures r.Err? ==> r.error == EmptyRange
    ensures r.Ok? ==> |r.value| == ThunderCount
    ensures r.Ok? ==>
              forall k | 0 <= k < |r.value| ::
                && r.value[k].instr == 4 && r.value[k].dur == ThunderLength as real && r.value[k].fields == []
                && r.value[k].start == r.value[k].start.Floor as real
                && 0.0 <= r.value[k].start <= (duration - ThunderLength) as real
                && r.value[k].start == RandInt(0, duration - ThunderLength, pick(k)) as real
  {
    var score: seq<Event> := [];
    for k := 0 to ThunderCount
      invariant |score| == k
      invariant k > 0 ==> duration >= ThunderLength
      invariant forall i | 0 <= i < k ::
                  score[i] == Event(4, RandInt(0, duration - ThunderLength, pick(i)) as real, ThunderLength as real, [])
    {
      if duration - ThunderLength < 0 {
        return Err(EmptyRange);
      }
      var second := RandInt(0, duration - ThunderLength, pick(k));
      score := score + [Event(4, second as real, ThunderLength as real, [])];
    }
    return Ok(score);
  }

  // ----- dispatch (generate_score) -----

  /** The instrument definitions generate_score compares its argument
      against, in the order it tries them. */
  datatype Instruments = Instruments(tone: string, drum: string, piano: string, thunder: string)

  /** The instrument number generate_score picks for an instrument text, or
      0 when it matches none. */
  function InstrumentNumber(instrument: string, known: Instruments): nat
  {
    if instrument == known.tone then 1
    else if instrument == known.drum then 2
    else if instrument == known.piano then 3
    else if instrument == known.thunder then 4
    else 0
  }

  /** generate_score: the score of the first instrument definition the
      argument equals. An unknown instrument gives no score. */
  method GenerateScore(
    instrument: string, known: Instruments, duration: int, startNote: Option<string>,
    pitches: Table<string>, freqs: map<string, real>, draw: nat -> Draw, pick: nat -> nat)
    returns (r: Result<seq<Event>, ScoreError>)
    requires Shaped(pitches)
    ensures r == Err(UnknownInstrument) <==> InstrumentNumber(instrument, known) == 0
    ensures r.Ok? ==> forall e | e in r.value :: e.instr == InstrumentNumber(instrument, known)
    ensures InstrumentNumber(instrument, known) == 2 ==> r.Ok?
    ensures InstrumentNumber(instrument, known) == 4 ==> (r.Ok? <==> duration >= ThunderLength)
    ensures r.Ok? && 1 <= InstrumentNumber(instrument, known) <= 3 ==>
              forall e | e in r.value :: Timed(e, duration as real)
    ensures r.Ok? && InstrumentNumber(instrument, known) == 4 ==>
              forall e | e in r.value :: 0.0 <= e.start && e.start + e.dur <= duration as real
  {
    var number := InstrumentNumber(instrument, known);
    if number == 1 {
      ghost var durs, notes, fss;
      r, durs, notes, fss := Instr1Score(startNote, duration as real, pitches, freqs, draw);
    } else if number == 2 {
      ghost var durs;
      var events;
      events, durs := Instr2Score(duration as real, draw);
      r := Ok(events);
    } else if number == 3 {
      ghost var durs, notes, fss;
      r, durs, notes, fss := Instr3Score(startNote, duration as real, pitches, freqs, draw);
    } else if number == 4 {
      r := Instr4Score(duration, pick);
    } else {
      r := Err(UnknownInstrument);
    }
  }
}
