# Markov music generator: a verified Dafny model

This project models the generative core of a small algorithmic-composition
script. The script builds a piece of music from two first-order Markov
chains. One chain walks over seven beat lengths until their running total
reaches a target duration. The other walks over note labels, one per
duration. It turns each note token, which may be a chord written `C3|A4`,
into frequencies. It then writes a Csound score with one event line per
frequency, starting at the running sum of the earlier durations. A second
file builds the orchestra and score documents the synthesis engine reads.

The model is split into modules by component:

- `Results`: `Option` and `Result`, used where the program raises or returns `None`.
- `Probability`: probability rows and numpy's weighted choice. One uniform draw in [0, 1) picks the first index whose cumulative probability exceeds the draw (inverse CDF).
- `Transitions`: transition tables (columns plus one row per state) and one step of a walk. A missing row and a row that is not a distribution are errors.
- `DurationMatrices`: the seven beat lengths and the three duration tables, proved valid.
- `Walkers`: `generate_durations` and `getNotes` as loops. Both are proved against the walk they must produce, including determinism.
- `NoteTokens`: `remove_non_music_characters` and `getNoteList`. `getNoteList` is tied to a reference split on `'|'` and its join.
- `Frequencies`: `getFrequencies`.
- `ScoreEvents`: the events of `instr1_score` to `instr4_score`, the `generate_score` dispatch, and the rendering of events as text lines.
- `Numerals`: Python's `str` of an integer, with its read-back.
- `Documents`: `create_orchestra` and `create_score` of `music_markov.py`.
- `CtcsoundExample`: `create_score` of `ctcsound_example.py`.

How the model stands in for what it cannot run:

- **Randomness.** Numpy's global random stream is a parameter `draw: nat -> Draw`, and step `i` of a walk uses `draw(i)`. `instr1_score` and `instr3_score` run the duration walk first. The note walk then continues the same stream (`After(draw, |durations| - 1)`). Python's `random.randint(lo, hi)` is `RandInt(lo, hi, x)` over a stream `pick: nat -> nat`. Every value of the range can come out, and nothing outside it.
- **Tables.** The pitch-transition table and the note-frequency table are read from CSV files by the program. Here they are parameters: a `Table<string>` and a `map<string, real>`.
- **Numbers.** Durations, start times and frequencies are exact `real`s.
- **Text.** Events are `Event` values. Their text line is built by `RenderEvent`, with the decimal text of a `real` left abstract as a parameter `show`.
- **Configuration text.** The instrument definitions (`INSTR1` to `INSTR4`, `REVERB_INST`) are opaque strings passed as parameters.

Behaviour of the program worth knowing when reading the model:

- `getNotes` returns `max(1, n)` notes, because its loop counts from 1 (music_markov.py:270-279).
- A state with no row in a transition table makes the lookup raise a KeyError (music_markov.py:157, 274). The model returns the error `MissingRow`.
- `create_score` places the reverb event after the score functions and before the notes (music_markov.py:316-319, ctcsound_example.py:80-83).
- All notes of a chord start at the same time (music_markov.py:180-185, 220-225).

## Model

| member | source | states |
|---|---|---|
| `Probability.Sample` | music_markov.py:157 | The weighted choice picks an index whose cumulative-probability interval contains the draw. That entry always has positive probability. |
| `Probability.SampleReaches` | music_markov.py:157 | Every entry with positive probability is picked by some draw in range. |
| `Transitions.Next` | music_markov.py:157 | A step fails with MissingRow exactly when the current state has no row. It fails with NotADistribution when the row has a negative entry or does not sum to 1. Otherwise it moves to a column whose probability is positive and whose interval holds the draw. |
| `Transitions.NextStaysInTable` | music_markov.py:151-157 | In a valid table, a step from a state that has a row always succeeds. It lands on a state that has a row again. |
| `Transitions.NextReaches` | music_markov.py:274 | Every transition with positive probability is taken by some draw. |
| `DurationMatrices.DurationValuesAtLeastEighth` | music_markov.py:151-152 | All seven column beat lengths are at least 0.125. |
| `DurationMatrices.Matrix1Valid` | music_markov.py:13-21 | The default table's row keys are exactly the seven column values. Each row has seven non-negative entries summing to 1. It has a row for the start value 0.5. |
| `DurationMatrices.Matrix2Valid` | music_markov.py:24-32 | The same holds for the short-note table. |
| `DurationMatrices.Matrix3Valid` | music_markov.py:35-43 | The same holds for the long-note table. |
| `Walkers.GenerateDurations` | music_markov.py:149-161 | On success the result starts with `start`, and each later element is the step of the previous one under its draw. Each later element is one of the seven beat lengths. Every proper prefix sums below `total` and the whole sequence reaches it. If `start >= total` the result is `[start]`. A start below the total with no row gives MissingRow(start). On failure, the walk so far was still below the total and its last step failed. A valid table with a row for `start` never fails. The loop terminates. |
| `Walkers.DurationWalkUnique` | music_markov.py:153-161 | For given draws, at most one sequence meets the walk-and-stop rule. |
| `Walkers.HalfBeatLoopWalk` | music_markov.py:153-161 | With a table sending 0.5 to itself, start 0.5 and total 2.0, the walk is four half beats whatever the draws. |
| `Walkers.GetNotes` | music_markov.py:262-279 | On success there are exactly `max(1, n)` notes. The first is `start` and each later one is a column label reached by the walk. A start with no row gives MissingRow(start) when `n > 1`. On failure, a walk shorter than `n` got stuck. A valid table with a row for `start` never fails. |
| `Walkers.DurationWalkTiming` | music_markov.py:153-161 | For a walk whose start is a beat length, every element is one of the seven beat lengths. The running sum before each element is non-negative, and after the first element it is below the total. |
| `Walkers.NoteWalkUnique` | music_markov.py:270-279 | For given draws, at most one note sequence meets that contract. |
| `NoteTokens.RemoveNonMusicCharacters` | music_markov.py:240-250 | The loop returns the musical characters of its input, in order. |
| `NoteTokens.FilteredIsMusical` | music_markov.py:240-250 | Only characters A–G, 0–9 and '\|' survive. |
| `NoteTokens.FilteredKeepsMusical` | music_markov.py:240-250 | A string made only of musical characters is left unchanged. |
| `NoteTokens.FilteredIdempotent` | music_markov.py:240-250 | Normalising twice gives the same result as normalising once. |
| `NoteTokens.FilteredAppend` | music_markov.py:247-249 | Normalising a concatenation gives the concatenation of the normalised parts, so input order is kept. |
| `NoteTokens.FilteredCounts` | music_markov.py:247-249 | Each musical character occurs as often in the output as in the input. Every other character occurs zero times. |
| `NoteTokens.FirstBar` | music_markov.py:307-310 | The scan stops at a '\|' and no '\|' comes before it. |
| `NoteTokens.GetNoteList` | music_markov.py:300-312 | No piece contains '\|'. |
| `NoteTokens.GetNoteListIsSplit` | music_markov.py:300-312 | getNoteList equals the full split on '\|' with a final empty piece dropped. So `""` gives `[]` and a string without '\|' gives itself. |
| `NoteTokens.SplitBarConcat` | music_markov.py:307-312 | Splitting `a + "\|" + b` gives the pieces of `a` followed by the pieces of `b`. |
| `NoteTokens.ConcatGetNoteList` | music_markov.py:300-312 | Joining the pieces back together gives the token with every '\|' removed. |
| `NoteTokens.GetNoteListTrailingBar` | music_markov.py:302-312 | A trailing '\|' adds no empty piece: the pieces of `s + "\|"` are exactly the pieces of `s`. |
| `NoteTokens.GetNoteListDoubleBar` | music_markov.py:307-312 | An interior "\|\|" yields an empty piece right after the pieces before it. |
| `Frequencies.GetFrequencies` | music_markov.py:281-298 | The call succeeds exactly when every label of every normalised, split token is in the table. It then returns one list per token, and the j-th entry of list i is the frequency of the j-th label of token i. On failure it names a label of some token that is missing from the table. |
| `ScoreEvents.ChordScore` | music_markov.py:217-227 | The loop emits, for each chord in order, one event per frequency. All events of a chord share the running start time, which then advances by that chord's duration. |
| `ScoreEvents.ChordEventsAt` | music_markov.py:177-187 | Event j of chord k comes after all events of earlier chords. It starts at the sum of the first k durations, lasts duration k and carries frequency j and amplitude 1. An empty chord emits nothing but still advances time. The event count is the total number of frequencies. |
| `ScoreEvents.ChordEventsFrom` | music_markov.py:220-226 | Every event of a pitched score comes from some frequency of some chord. It carries the score's instrument number and amplitude 1, starts at the sum of the durations before that chord, and lasts that chord's duration. |
| `ScoreEvents.PitchedScore` | music_markov.py:203-227 | The duration walk starts at 0.5. The note walk has as many notes, continuing the same random stream, with the default start note C3. On success the events are the chord events of the resolved frequencies. Every returned event carries the instrument number and amplitude 1. It starts at 0 or before the target duration and lasts one of the beat lengths. On failure either the note walk got stuck, or a label of one of the generated notes has no frequency and the error names that label. |
| `ScoreEvents.Instr1Score` | music_markov.py:203-227 | The contract of PitchedScore for instrument 1 with the default duration table. |
| `ScoreEvents.Instr3Score` | music_markov.py:163-187 | The contract of PitchedScore for instrument 3 with the long-note table. |
| `ScoreEvents.Instr2Score` | music_markov.py:189-201 | Exactly one event `i2 start dur 0.05` per duration of the short-note walk. Event k starts at the sum of the first k durations. The first event is `i2 0 0.5 0.05`. Each event starts where the previous one ends, and the last one ends at or after the target. |
| `ScoreEvents.DrumScore` | music_markov.py:192-201 | The loop emits exactly one drum event per duration, in order. Event k lasts duration k and starts at the sum of the durations before it. |
| `ScoreEvents.DrumTiming` | music_markov.py:195-200 | Drum events built from a duration walk follow each other without gap or overlap from time 0. Every event before the last starts before the target, and the last ends at or after it. |
| `ScoreEvents.RandInt` | music_markov.py:235 | The chosen second lies within the requested range. |
| `ScoreEvents.RandIntReaches` | music_markov.py:235 | Every value of the range is chosen by some random number. |
| `ScoreEvents.Instr4Score` | music_markov.py:229-238 | It fails exactly when `duration < 4`, because randint has an empty range. Otherwise there are exactly 4 events `i4 t 4`, each with a whole-number `t` in `0 <= t <= duration - 4`. |
| `ScoreEvents.GenerateScore` | music_markov.py:136-147 | An instrument matching none of the four definitions gives no score. Otherwise every event carries the number of the first definition it equals. The drum always succeeds. Thunder succeeds exactly when `duration >= 4`. Pitched and drum events start at 0 or before the duration and last a beat length. Thunder events lie wholly within the duration. |
| `ScoreEvents.RenderAppend` | music_markov.py:351 | Rendering concatenated event lists gives the concatenation of their texts. |
| `ScoreEvents.RenderLineCount` | music_markov.py:183 | A rendered score has exactly one line per event. |
| `Numerals.IntToStringRoundTrip` | music_markov.py:318 | The decimal text of an integer reads back as that integer and contains no line break. |
| `Documents.CreateOrchestra` | ctcsound_example.py:57-70 | The output is `settings + "\n"`, then each instrument followed by `"\n"` in list order, then the reverb instrument only when reverb is on. With reverb off and no instruments it is `settings + "\n"`. |
| `Documents.InstrumentLinesAppend` | ctcsound_example.py:66-67 | The instrument lines of a joined list are the lines of its parts, one after the other. |
| `Documents.InstrumentLinesAt` | ctcsound_example.py:66-67 | Instrument k, followed by a line break, sits between the lines of the instruments before it and the lines of those after it. |
| `Documents.ReverbLineIsOneLine` | music_markov.py:318 | The reverb event is exactly `i99 0 `, then the decimal text of the duration as `str` writes it, then a line break. It is a single line, and its last field reads back as the duration. |
| `Documents.CreateScore` | music_markov.py:314-319 | The score functions come first and the score comes last, both unchanged. With reverb off nothing else is added. With reverb on, exactly the line `i99 0 ` + `str(duration)` + `"\n"` sits between them. The default duration is 10. |
| `CtcsoundExample.CreateScore` | ctcsound_example.py:72-83 | The same contract, with the duration parameter before the reverb flag and a default of 60. |

`create_orchestra` in music_markov.py:121-134 has the same code as the one in
ctcsound_example.py. `Documents.CreateOrchestra` models both.

## Left out

- `perform` in both files: it drives the external Csound engine (compile, read score, play, write a WAV file) and is foreign I/O.
- `pop`: glue that calls `perform`. It concatenates the scores of instruments 1, 2, 3 and 4 in that order; `ScoreEvents.RenderAppend` covers joining scores.
- `getNotesDF` and the CSV reads in `getFrequencies`: file I/O through pandas. The tables are parameters instead.
- Numpy's and Python's random generators. They are parameters, and distributional properties are not stated. For the numpy choice, the inverse-CDF rule is modelled; numpy's floating-point tolerance on the sum of a row (about 1e-8) is not. A row must sum to exactly 1.
- Floating-point rounding of the running start time and of the duration total, and the decimal text of floats in the f-strings. Durations are exact reals, and number text is the abstract `show`. This also hides that the first start time prints as `0` (an int) and later ones as floats.
- `Walkers.GenerateDurations`: requires every row of the matrix to have seven entries, because pandas refuses to build the DataFrame otherwise. The pandas error itself is not modelled.
- `Documents.CreateScore` and `CtcsoundExample.CreateScore`: the duration is an integer, as every caller passes. Python's `str` of a float duration (`60.0`) is not modelled.
- `ScoreEvents.GenerateScore`: the unused `random` parameter is dropped. The `None` returned for an unknown instrument is the error `UnknownInstrument`. Its contract fixes the instrument number of every event and the success conditions. It does not restate each branch's full contract, which is on `Instr1Score` to `Instr4Score`. Its duration is an integer, because `instr4_score` needs one for `randint`. So a fractional total, which Python would pass on to instruments 1 to 3, is not modelled through the dispatch; `Instr1Score`, `Instr2Score` and `Instr3Score` themselves take a real duration. Every caller passes 60.
- The contents of the Csound instrument and orchestra string literals (`INSTR1` to `INSTR4`, `REVERB_INST`, `ORC_SETTINGS`): opaque configuration text, passed as parameters.
- The duplicated module-level constants (`REVERB`, `INSTRUMENTS`, `SCORE_FUNCTIONS`) appear only as the defaults they supply.
