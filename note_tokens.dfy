/** Note tokens: the normaliser that keeps only musical characters
    (remove_non_music_characters) and the chord splitter that cuts a token
    such as "C3|A4" into its note labels (getNoteList). */
module NoteTokens {

  /** The characters a note token may hold: the note letters A to G, the
      octave digits 0 to 9 and the chord separator '|'. */
  predicate IsMusical(c: char)
  {
    ('A' <= c <= 'G') || ('0' <= c <= '9') || c == '|'
  }

  predicate AllMusical(s: string)
  {
    forall i | 0 <= i < |s| :: IsMusical(s[i])
  }

  /** The musical characters of `s`, in order. */
  function Filtered(s: string): string
  {
    if s == [] then []
    else Filtered(s[..|s| - 1]) + (if IsMusical(s[|s| - 1]) then [s[|s| - 1]] else [])
  }

  /** remove_non_music_characters. */
  method RemoveNonMusicCharacters(s: string) returns (r: string)
    ensures r == Filtered(s)
  {
    r := "";
    for i := 0 to |s|
      invariant r == Filtered(s[..i])
    {
      assert s[..i + 1][..i] == s[..i];
      if IsMusical(s[i]) {
        r := r + [s[i]];
      }
    }
    assert s[..|s|] == s;
  }

  /** Only musical characters survive. */
  lemma {:induction false} FilteredIsMusical(s: string)
    ensures AllMusical(Filtered(s))
  {
    if s != [] {
      FilteredIsMusical(s[..|s| - 1]);
    }
  }

  /** A string already made of musical characters is left as it is. */
  lemma {:induction false} FilteredKeepsMusical(s: string)
    requires AllMusical(s)
    ensures Filtered(s) == s
  {
    if s != [] {
      FilteredKeepsMusical(s[..|s| - 1]);
      assert s == s[..|s| - 1] + [s[|s| - 1]];
    }
  }

  /** Normalising twice is normalising once. */
  lemma FilteredIdempotent(s: string)
    ensures Filtered(Filtered(s)) == Filtered(s)
  {
    FilteredIsMusical(s);
    FilteredKeepsMusical(Filtered(s));
  }

  /** Normalising works piece by piece: it keeps the order of the input. */
  lemma {:induction false} FilteredAppend(a: string, b: string)
    ensures Filtered(a + b) == Filtered(a) + Filtered(b)
  {
    if b != [] {
      FilteredAppend(a, b[..|b| - 1]);
      assert (a + b)[..|a + b| - 1] == a + b[..|b| - 1];
    } else {
      assert a + b == a;
    }
  }

  /** Each musical character occurs as often in the output as in the input;
      every other character is gone. */
  lemma {:induction false} FilteredCounts(s: string)
    ensures forall c :: multiset(Filtered(s))[c] == if IsMusical(c) then multiset(s)[c] else 0
  {
    if s != [] {
      FilteredCounts(s[..|s| - 1]);
      assert s == s[..|s| - 1] + [s[|s| - 1]];
    }
  }

  // ----- chord splitting -----

  /** Reference definition: cut `s` at every '|' (Python's str.split).
      There is always one piece more than there are separators. */
  function Split(s: string): (r: seq<string>)
    ensures |r| >= 1
  {
    if s == [] then [""]
    else
      var rest := Split(s[1..]);
      if s[0] == '|' then [""] + rest else [[s[0]] + rest[0]] + rest[1..]
  }

  /** The pieces rejoined with '|'. */
  function Join(ps: seq<string>): string
    requires |ps| >= 1
  {
    if |ps| == 1 then ps[0] else ps[0] + "|" + Join(ps[1..])
  }

  /** Drops the last piece when it is empty. */
  function DropTrailingEmpty(ps: seq<string>): seq<string>
  {
    if ps != [] && ps[|ps| - 1] == "" then ps[..|ps| - 1] else ps
  }

  function Concat(ps: seq<string>): string
  {
    if ps == [] then "" else ps[0] + Concat(ps[1..])
  }

  /** `s` without its separators. */
  function RemoveBars(s: string): string
  {
    if s == [] then "" else (if s[0] == '|' then "" else [s[0]]) + RemoveBars(s[1..])
  }

  /** Position of the first '|' in `s`. */
  function FirstBar(s: string): (c: nat)
    requires '|' in s
    ensures c < |s| && s[c] == '|' && '|' !in s[..c]
  {
    if s[0] == '|' then 0
    else
      var c := FirstBar(s[1..]);
      assert s[..c + 1] == [s[0]] + s[1..][..c];
      c + 1
  }

  /** getNoteList: cut at the first '|' and recurse on the rest. */
  function GetNoteList(s: string): (r: seq<string>)
    ensures forall i | 0 <= i < |r| :: '|' !in r[i]
    decreases |s|
  {
    if s == "" then []
    else if '|' !in s then [s]
    else
      var c := FirstBar(s);
      [s[..c]] + GetNoteList(s[c + 1..])
  }

  lemma {:induction false} SplitNoBar(s: string)
    requires '|' !in s
    ensures Split(s) == [s]
  {
    if s != [] {
      assert '|' !in s[1..] by {
        forall i | 0 <= i < |s[1..]| ensures s[1..][i] != '|' { assert s[1..][i] == s[i + 1]; }
      }
      SplitNoBar(s[1..]);
      assert [s[0]] + s[1..] == s;
    }
  }

  /** The split/concat law: a separator between two strings separates their
      pieces. */
  lemma {:induction false} SplitBarConcat(a: string, b: string)
    ensures Split(a + "|" + b) == Split(a) + Split(b)
  {
    if a == [] {
      assert a + "|" + b == "|" + b;
      assert ("|" + b)[1..] == b;
    } else {
      assert (a + "|" + b)[1..] == a[1..] + "|" + b;
      SplitBarConcat(a[1..], b);
    }
  }

  /** A token cut at its first separator. */
  lemma SplitAtFirstBar(s: string, c: nat)
    requires c < |s| && s[c] == '|' && '|' !in s[..c]
    ensures Split(s) == Split(s[..c]) + Split(s[c + 1..]) && Split(s[..c]) == [s[..c]]
  {
    assert s == s[..c] + "|" + s[c + 1..];
    SplitBarConcat(s[..c], s[c + 1..]);
    SplitNoBar(s[..c]);
  }

  /** getNoteList is the reference split without a trailing empty piece. */
  lemma {:induction false} GetNoteListIsSplit(s: string)
    ensures GetNoteList(s) == DropTrailingEmpty(Split(s))
    decreases |s|
  {
    if s == "" {
    } else if '|' !in s {
      SplitNoBar(s);
    } else {
      var c := FirstBar(s);
      SplitAtFirstBar(s, c);
      GetNoteListIsSplit(s[c + 1..]);
    }
  }

  /** Rejoining the pieces of the reference split gives the string back. */
  lemma {:induction false} JoinSplit(s: string)
    ensures Join(Split(s)) == s
  {
    if s != [] {
      JoinSplit(s[1..]);
      var rest := Split(s[1..]);
      if s[0] != '|' && |rest| > 1 {
        assert ([[s[0]] + rest[0]] + rest[1..])[1..] == rest[1..];
      }
    }
  }

  /** Splitting pieces without separators that were joined gives them back. */
  lemma {:induction false} SplitJoin(ps: seq<string>)
    requires |ps| >= 1 && forall i | 0 <= i < |ps| :: '|' !in ps[i]
    ensures Split(Join(ps)) == ps
  {
    if |ps| == 1 {
      SplitNoBar(ps[0]);
    } else {
      SplitJoin(ps[1..]);
      SplitBarConcat(ps[0], Join(ps[1..]));
      SplitNoBar(ps[0]);
    }
  }

  lemma {:induction false} ConcatSplit(s: string)
    ensures Concat(Split(s)) == RemoveBars(s)
  {
    if s != [] {
      ConcatSplit(s[1..]);
      var rest := Split(s[1..]);
      if s[0] != '|' {
        assert ([[s[0]] + rest[0]] + rest[1..])[1..] == rest[1..];
        assert Concat(rest) == rest[0] + Concat(rest[1..]);
      }
    }
  }

  lemma {:induction false} ConcatDropLast(ps: seq<string>)
    requires ps != [] && ps[|ps| - 1] == ""
    ensures Concat(ps[..|ps| - 1]) == Concat(ps)
  {
    if |ps| > 1 {
      ConcatDropLast(ps[1..]);
      assert ps[1..][..|ps[1..]| - 1] == ps[..|ps| - 1][1..];
    }
  }

  /** The pieces getNoteList returns, put back together, are the token with
      its separators removed. */
  lemma ConcatGetNoteList(s: string)
    ensures Concat(GetNoteList(s)) == RemoveBars(s)
  {
    GetNoteListIsSplit(s);
    ConcatSplit(s);
    var ps := Split(s);
    if ps[|ps| - 1] == "" {
      ConcatDropLast(ps);
    }
  }

  /** A trailing separator adds no empty piece: the labels of `s + "|"` are
      exactly the pieces of `s`. */
  lemma GetNoteListTrailingBar(s: string)
    ensures GetNoteList(s + "|") == Split(s)
  {
    GetNoteListIsSplit(s + "|");
    assert s + "|" == s + "|" + "";
    SplitBarConcat(s, "");
    assert Split(s) + [""] == Split(s + "|");
    assert (Split(s) + [""])[..|Split(s)|] == Split(s);
  }

  /** An interior "||" yields an empty label, right after the labels of the
      text before it. */
  lemma GetNoteListDoubleBar(a: string, b: string)
    ensures |Split(a)| < |GetNoteList(a + "||" + b)|
    ensures GetNoteList(a + "||" + b)[|Split(a)|] == ""
  {
    var s := a + "||" + b;
    assert s == a + "|" + ("|" + b);
    SplitBarConcat(a, "|" + b);
    assert "|" + b == "" + "|" + b;
    SplitBarConcat("", b);
    GetNoteListIsSplit(s);
    assert Split(s) == Split(a) + [""] + Split(b);
  }
}
