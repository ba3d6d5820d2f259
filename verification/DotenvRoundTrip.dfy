/** Saving and reading back while no saved value holds a line break, and which files a second merge
    leaves as they are. `DotenvEverywhere` and `DotenvAgain` have the values that do. */
module DotenvRoundTrip {
  import opened Records
  import opened Texts
  import opened Dotenv
  import opened DotenvRuns
  import opened DotenvText

  predicate NoBreaks(settings: Settings) { forall i :: 0 <= i < |settings| ==> NoBreak(settings[i].value) }

  predicate AllWhole(lines: seq<string>) { forall i :: 0 <= i < |lines| ==> Whole(lines[i]) }

  // The lines of some text: whole, but perhaps for the last.
  predicate AreLines(lines: seq<string>) {
    forall i :: 0 <= i < |lines| ==> lines[i] != "" && (Whole(lines[i]) || (NoBreak(lines[i]) && i == |lines| - 1))
  }

  lemma TextLines(t: string)
    ensures AreLines(Lines(t))
  {
    forall i | 0 <= i < |Lines(t)|
      ensures Lines(t)[i] != "" && (Whole(Lines(t)[i]) || (NoBreak(Lines(t)[i]) && i == |Lines(t)| - 1))
    {
      LinesShape(t, i);
    }
  }

  lemma LineIsWhole(name: string, value: string)
    requires IsName(name) && NoBreak(value)
    ensures Whole(Line(name, value))
  {
    var text := name + "=" + value;
    assert Line(name, value)[..|text|] == text;
  }

  lemma {:induction false} ValueHasNoBreak(settings: Settings, name: string)
    requires NoBreaks(settings) && Selects(settings, name)
    ensures NoBreak(ValueOf(settings, name))
  {
    if settings[0].name != name {
      var i :| 0 <= i < |settings| && settings[i].name == name;
      assert settings[1..][i - 1].name == name;
      ValueHasNoBreak(settings[1..], name);
    }
  }

  lemma WrittenIsWhole(settings: Settings, name: string)
    requires Ready(settings) && NoBreaks(settings) && Selects(settings, name)
    ensures Whole(Line(name, ValueOf(settings, name)))
  {
    ValueOfReady(settings, name);
    ValueHasNoBreak(settings, name);
    LineIsWhole(name, ValueOf(settings, name));
  }

  lemma {:induction false} ReplacedWhole(lines: seq<string>, settings: Settings)
    requires Ready(settings) && NoBreaks(settings) && AllWhole(lines)
    ensures AllWhole(Replaced(lines, settings))
  {
    hide Parse, Line, Whole, Ready, NoBreaks;
    if lines != [] {
      var line := lines[|lines| - 1];
      ReplacedWhole(lines[..|lines| - 1], settings);
      if AssignsSelected(line, settings) { WrittenIsWhole(settings, Parse(line).value.name); }
    }
  }

  lemma ReplacedAreLines(lines: seq<string>, settings: Settings)
    requires Ready(settings) && NoBreaks(settings) && AreLines(lines)
    ensures AreLines(Replaced(lines, settings))
  {
    hide Parse, Line, Whole, Ready, NoBreaks, NoBreak;
    if lines != [] {
      var front, line := lines[..|lines| - 1], lines[|lines| - 1];
      assert AllWhole(front);
      ReplacedWhole(front, settings);
      WholeIsNotEmpty();
      if AssignsSelected(line, settings) { WrittenIsWhole(settings, Parse(line).value.name); }
    }
  }

  lemma WholeIsNotEmpty()
    ensures forall s :: Whole(s) ==> s != "" && Terminated(s)
  {}

  lemma {:induction false} MissingWhole(lines: seq<string>, settings: Settings)
    requires Ready(settings) && NoBreaks(settings)
    ensures AllWhole(Missing(lines, settings))
  {
    if settings != [] {
      var s := settings[|settings| - 1];
      MissingWhole(lines, settings[..|settings| - 1]);
      LineIsWhole(s.name, s.value);
    }
  }

  lemma WholeAreFlat(lines: seq<string>)
    requires AllWhole(lines)
    ensures Flat(lines) == lines && forall i :: 0 <= i < |lines| ==> Terminated(lines[i])
  {
    forall i | 0 <= i < |lines| ensures Lines(lines[i]) == [lines[i]] { WholeIsOneLine(lines[i]); }
    FlatOfSingles(lines);
  }

  // A final newline ends an open last line, and stands alone after any other.
  function Closed(r: seq<string>): seq<string> {
    if r == [] then []
    else
      var last := r[|r| - 1];
      if NoBreak(last) then r[..|r| - 1] + [last + "\n"]
      else if last != "" && last[|last| - 1] == '\n' then r else r + ["\n"]
  }

  lemma OpenLineCloses(last: string)
    requires last != "" && NoBreak(last)
    ensures Whole(last + "\n")
  {
    assert (last + "\n")[..|last|] == last;
  }

  // The lines of a closing line.
  function Closing(last: string): seq<string> {
    if NoBreak(last) then [last + "\n"] else if last != "" && last[|last| - 1] == '\n' then [last] else [last, "\n"]
  }

  lemma ClosedSplits(front: seq<string>, last: string)
    ensures Closed(front + [last]) == front + Closing(last)
    ensures |Ended([last])| == 1 && Ended(front + [last]) == front + Ended([last])
  {
    hide NoBreak;
    assert (front + [last])[..|front|] == front;
  }

  lemma EndedIsClosed(r: seq<string>)
    requires AreLines(r)
    ensures Flat(Ended(r)) == Closed(r) && forall i :: 0 <= i < |Ended(r)| ==> Terminated(Ended(r)[i])
  {
    if r != [] {
      var front, last := r[..|r| - 1], r[|r| - 1];
      assert AllWhole(front) && r == front + [last];
      WholeAreFlat(front);
      LastCloses(last);
      hide Whole, NoBreak, Terminated, Ended, Closed, Closing, Flat, Lines, AreLines, AllWhole;
      ClosedSplits(front, last);
      var e := Ended([last])[0];
      FlatAppend(front, [e]);
      FlatOne(e);
    }
  }

  // The same for a single line.
  lemma LastCloses(last: string)
    requires last != "" && (Whole(last) || NoBreak(last))
    ensures |Ended([last])| == 1 && Terminated(Ended([last])[0])
    ensures Lines(Ended([last])[0]) == Closing(last)
  {
    assert last[|last| - 1] in last;
    WholeIsOneLine(last);
    if NoBreak(last) {
      OpenLineCloses(last);
      WholeIsOneLine(last + "\n");
    } else if last[|last| - 1] != '\n' {
      LinesAppend(last, "\n");
      WholeIsOneLine("\n");
    }
  }

  lemma FlatOne(s: string)
    ensures Flat([s]) == Lines(s)
  {
    assert Flat([]) == [] && [s][..0] == [];
  }

  // The lines of the saved text are the merged lines, but for that final newline.
  lemma SavedLines(t: string, settings: Settings)
    requires Ready(settings) && NoBreaks(settings)
    ensures Lines(Save(t, settings)) == Closed(Replaced(Lines(t), settings)) + Missing(Lines(t), settings)
  {
    var r, m := Replaced(Lines(t), settings), Missing(Lines(t), settings);
    TextLines(t);
    ReplacedAreLines(Lines(t), settings);
    MissingWhole(Lines(t), settings);
    hide Replaced, Missing, AreLines, AllWhole, Lines, Flat, Closed, Terminated;
    EndedIsClosed(r);
    WholeAreFlat(m);
    FlatAppend(Ended(r), m);
    LinesOfJoin(Ended(r) + m);
  }

  lemma ClosedReads(r: seq<string>, name: string)
    requires r != [] ==> r[|r| - 1] != ""
    ensures Read(Closed(r), name) == Read(r, name) && Count(Closed(r), name) == Count(r, name)
  {
    if r != [] {
      var front, last := r[..|r| - 1], r[|r| - 1];
      ParseIgnoresNewline(last);
      BlankIsInert();
      hide Parse;
      assert r == front + [last];
      if NoBreak(last) {
        assert Closed(r)[..|r| - 1] == front;
      } else if last[|last| - 1] != '\n' {
        assert Closed(r)[..|r|] == r;
      }
    }
  }

  lemma BlankIsInert()
    ensures Parse("\n").None?
  {
    StripDropsSpace("", '\n');
    assert "" + ['\n'] == "\n";
  }

  // Reading the saved file: a selected name has its saved value less wrapping quotes, and every
  // other name what it had, provided no saved value holds a line break.
  lemma SaveReads(t: string, settings: Settings, name: string)
    requires Ready(settings) && NoBreaks(settings)
    ensures Read(Lines(Save(t, settings)), name)
         == if Selects(settings, name) then Some(Unquote(ValueOf(settings, name))) else Read(Lines(t), name)
  {
    hide Parse, Ready, NoBreaks, Unquote, ValueOf, Save, Closed;
    var lines := Lines(t);
    SavedLines(t, settings);
    TextLines(t);
    ReplacedAreLines(lines, settings);
    hide Lines;
    ClosedReads(Replaced(lines, settings), name);
    ReplacedReads(lines, settings, name);
    MissingReads(lines, settings, name);
    ReadAppend(Closed(Replaced(lines, settings)), Missing(lines, settings), name);
  }

  // ---- saving again ----

  // Every selected name has one assignment, written as a save writes it, and the text ends in a newline.
  predicate Settled(lines: seq<string>, settings: Settings) {
    && (forall i :: 0 <= i < |settings| ==> Count(lines, settings[i].name) == 1)
    && LiteralLines(lines, settings) && Ended(lines) == lines
  }

  predicate LiteralLines(lines: seq<string>, settings: Settings) {
    forall i :: 0 <= i < |lines| ==> Literal(lines[i], settings)
  }

  predicate Literal(line: string, settings: Settings) {
    AssignsSelected(line, settings) ==> line == Line(Parse(line).value.name, ValueOf(settings, Parse(line).value.name))
  }

  lemma {:induction false} ReplacedStays(lines: seq<string>, settings: Settings)
    requires LiteralLines(lines, settings)
    requires forall i :: 0 <= i < |settings| ==> Count(lines, settings[i].name) <= 1
    ensures Replaced(lines, settings) == lines
  {
    hide Parse, Line, ValueOf;
    if lines != [] {
      var front, line := lines[..|lines| - 1], lines[|lines| - 1];
      ReplacedStays(front, settings);
      assert Literal(line, settings);
      if AssignsSelected(line, settings) {
        CountAssigned(front, Parse(line).value.name);
        var i :| 0 <= i < |settings| && settings[i].name == Parse(line).value.name;
        assert Count(lines, settings[i].name) <= 1;
      }
    }
  }

  lemma {:induction false} NothingIsMissing(lines: seq<string>, settings: Settings)
    requires forall i :: 0 <= i < |settings| ==> Count(lines, settings[i].name) == 1
    ensures Missing(lines, settings) == []
  {
    if settings != [] {
      NothingIsMissing(lines, settings[..|settings| - 1]);
      CountAssigned(lines, settings[|settings| - 1].name);
    }
  }

  lemma SettledIsFixed(lines: seq<string>, settings: Settings)
    requires Settled(lines, settings)
    ensures Merged(lines, settings) == lines
  {
    ReplacedStays(lines, settings);
    NothingIsMissing(lines, settings);
  }

  lemma WrittenIsLiteral(settings: Settings, name: string)
    requires Ready(settings) && Selects(settings, name)
    ensures Literal(Line(name, ValueOf(settings, name)), settings)
  {
    ValueOfReady(settings, name);
    LineParses(name, ValueOf(settings, name));
  }

  lemma {:induction false} ReplacedIsLiteral(lines: seq<string>, settings: Settings)
    requires Ready(settings)
    ensures LiteralLines(Replaced(lines, settings), settings)
  {
    hide Parse, Line, ValueOf, Ready;
    if lines != [] {
      var line := lines[|lines| - 1];
      ReplacedIsLiteral(lines[..|lines| - 1], settings);
      if AssignsSelected(line, settings) { WrittenIsLiteral(settings, Parse(line).value.name); }
    }
  }

  lemma {:induction false} MissingIsLiteral(lines: seq<string>, settings: Settings, all: Settings)
    requires Ready(all) && |settings| <= |all| && settings == all[..|settings|]
    ensures LiteralLines(Missing(lines, settings), all)
  {
    hide Parse, Line, Ready, Literal;
    if settings != [] {
      MissingIsLiteral(lines, settings[..|settings| - 1], all);
      assert settings[|settings| - 1] == all[|settings| - 1];
      ReadyIsDistinct(all);
      ValueOfIs(all, |settings| - 1);
      WrittenIsLiteral(all, all[|settings| - 1].name);
    }
  }

  lemma ReadyIsDistinct(settings: Settings)
    requires Ready(settings)
    ensures DistinctNames(settings)
  {}

  lemma MissingEnds(lines: seq<string>, settings: Settings)
    ensures Ended(Missing(lines, settings)) == Missing(lines, settings)
  {
    if settings != [] { MissingEnds(lines, settings[..|settings| - 1]); }
  }

  lemma SumIsEnded(a: seq<string>, b: seq<string>)
    requires Ended(a) == a && Ended(b) == b
    ensures Ended(a + b) == a + b
  {
    if b == [] {
      assert a + b == a;
    } else {
      assert (a + b)[|a + b| - 1] == b[|b| - 1];
      EndsInNewline(b);
    }
  }

  lemma EndsInNewline(b: seq<string>)
    requires b != [] && Ended(b) == b
    ensures var last := b[|b| - 1]; last != "" && last[|last| - 1] == '\n'
  {
    var last := b[|b| - 1];
    assert |Ended(b)[|b| - 1]| == |last| + if last != "" && last[|last| - 1] == '\n' then 0 else 1;
  }
}
