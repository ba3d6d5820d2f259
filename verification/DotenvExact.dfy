/** Exactly which saved values are read back: those without a line break that are not wrapped in a
    pair of quotes. The caller's check lets some line breaks through. */
module DotenvExact {
  import opened Records
  import opened Texts
  import opened Dotenv
  import opened DotenvRuns
  import opened DotenvText
  import opened DotenvRoundTrip

  predicate OthersNoBreak(settings: Settings, name: string) {
    forall i :: 0 <= i < |settings| && settings[i].name != name ==> NoBreak(settings[i].value)
  }

  lemma UnquoteKeepsIff(v: string)
    ensures Unquote(v) == v <==> !Wrapped(v)
  {
    if Wrapped(v) { assert |Unquote(v)| == |v| - 2; }
  }

  // ---- a value with a break falls apart into shorter pieces ----

  lemma {:induction false} TerminatedLines(t: string, i: nat)
    requires Terminated(t) && i < |Lines(t)|
    ensures Whole(Lines(t)[i])
    decreases |t|
  {
    FirstLineShape(t);
    assert t[|t| - 1] in t;
    assert t[..|t|] == t;
    if i > 0 {
      RestTerminated(t);
      LinesStep(t);
      TerminatedLines(t[FirstLine(t)..], i - 1);
    }
  }

  lemma {:induction false} LinesFit(t: string, i: nat)
    requires i < |Lines(t)|
    ensures |Lines(t)[i]| <= if FirstLine(t) < |t| then |t| - 1 else |t|
    decreases |t|
  {
    if i > 0 { LinesFit(t[FirstLine(t)..], i - 1); }
  }

  lemma WholeParsesShort(line: string)
    requires Whole(line) && Parse(line).Some?
    ensures |Parse(line).value.name| + 1 + |Parse(line).value.value| < |line|
  {
    var front := line[..|line| - 1];
    assert line == front + [line[|line| - 1]];
    StripDropsSpace(front, line[|line| - 1]);
    StripShortens(front);
  }

  lemma BrokenLineSplits(name: string, v: string)
    requires !NoBreak(v)
    ensures FirstLine(Line(name, v)) < |Line(name, v)|
  {
    var t := Line(name, v);
    FirstLineShape(t);
    var i :| 0 <= i < |v| && Break(v[i]);
    assert t[|name| + 1 + i] == v[i];
    assert t[..|t| - 1][|name| + 1 + i] == v[i];
    assert t[..|t|] == t && t[|t| - 1] == '\n';
  }

  lemma PiecesAreShort(name: string, v: string, i: nat)
    requires !NoBreak(v) && i < |Lines(Line(name, v))|
    ensures var a := Parse(Lines(Line(name, v))[i]); a.Some? && a.value.name == name ==> |a.value.value| < |v|
  {
    hide Parse;
    var t := Line(name, v);
    BrokenLineSplits(name, v);
    LinesFit(t, i);
    TerminatedLines(t, i);
    if Parse(Lines(t)[i]).Some? { WholeParsesShort(Lines(t)[i]); }
  }

  // ---- the lines that can assign the name ----

  predicate IsWritten(e: string, settings: Settings) {
    exists i :: 0 <= i < |settings| && e == Line(settings[i].name, settings[i].value)
  }

  // A merged line is one that the save wrote, or no part of it assigns the name.
  predicate Piece(e: string, name: string, settings: Settings) {
    Terminated(e) && (IsWritten(e, settings) ||
      forall i :: 0 <= i < |Lines(e)| ==> Parse(Lines(e)[i]).None? || Parse(Lines(e)[i]).value.name != name)
  }

  predicate Silent(line: string, name: string) { Parse(line).None? || Parse(line).value.name != name }

  lemma SilentIsPiece(line: string, name: string, settings: Settings)
    requires Whole(line) && Silent(line, name)
    ensures Piece(line, name, settings)
  {
    WholeIsOneLine(line);
  }

  lemma ClosedIsPiece(line: string, name: string, settings: Settings)
    requires line != "" && (Whole(line) || NoBreak(line)) && Silent(line, name)
    ensures Piece(line + "\n", name, settings)
  {
    ParseIgnoresNewline(line);
    BlankIsInert();
    WholeIsOneLine("\n");
    WholeIsOneLine(line);
    hide Parse;
    if NoBreak(line) {
      OpenLineCloses(line);
      WholeIsOneLine(line + "\n");
    } else {
      LinesAppend(line, "\n");
    }
  }

  lemma WrittenIsPiece(settings: Settings, other: string, name: string)
    requires Ready(settings) && Selects(settings, other)
    ensures Piece(Line(other, ValueOf(settings, other)), name, settings)
  {
    var i :| 0 <= i < |settings| && settings[i].name == other;
    ValueOfIs(settings, i);
    hide Parse;
  }

  predicate Pieces(lines: seq<string>, name: string, settings: Settings) {
    forall i :: 0 <= i < |lines| ==> Piece(lines[i], name, settings)
  }

  // A line of the merge before the final newline: one that a save wrote, or a silent one kept.
  predicate Raw(e: string, name: string, settings: Settings) {
    e != "" && ((e[|e| - 1] == '\n' && Piece(e, name, settings)) || (Silent(e, name) && (Whole(e) || NoBreak(e))))
  }

  lemma RawEnds(e: string, name: string, settings: Settings)
    requires Raw(e, name, settings)
    ensures Terminated(e) ==> Piece(e, name, settings)
    ensures e[|e| - 1] != '\n' ==> Piece(e + "\n", name, settings)
  {
    hide Parse, Line;
    assert e[|e| - 1] in e;
    if !(e[|e| - 1] == '\n' && Piece(e, name, settings)) {
      if Whole(e) { SilentIsPiece(e, name, settings); }
      ClosedIsPiece(e, name, settings);
    }
  }

  lemma WrittenIsRaw(settings: Settings, other: string, name: string)
    requires Ready(settings) && Selects(settings, other)
    ensures var e := Line(other, ValueOf(settings, other)); Raw(e, name, settings) && Terminated(e)
  {
    WrittenIsPiece(settings, other, name);
    hide Piece, Parse;
  }

  // All merged lines are raw, and only an open last line is not terminated.
  predicate AllRaw(r: seq<string>, name: string, settings: Settings) {
    forall i :: 0 <= i < |r| ==> Raw(r[i], name, settings) && (Terminated(r[i]) || i == |r| - 1)
  }

  predicate AllTerminated(r: seq<string>) { forall i :: 0 <= i < |r| ==> Terminated(r[i]) }

  lemma {:induction false} ReplacedRaw(lines: seq<string>, settings: Settings, name: string)
    requires Ready(settings) && Selects(settings, name) && AreLines(lines)
    ensures AllRaw(Replaced(lines, settings), name, settings)
    ensures AllWhole(lines) ==> AllTerminated(Replaced(lines, settings))
  {
    hide Parse, Line, Ready, Whole, ValueOf, NoBreak, Terminated, Selects, Silent, Piece, Raw;
    if lines != [] {
      var front, line := lines[..|lines| - 1], lines[|lines| - 1];
      ReplacedRaw(front, settings, name);
      assert AllWhole(front);
      WholeIsNotEmpty();
      var r := Replaced(front, settings);
      if AssignsSelected(line, settings) {
        var other := Parse(line).value.name;
        var e := Line(other, ValueOf(settings, other));
        WrittenIsRaw(settings, other, name);
        assert AllRaw(r + [e], name, settings) && AllTerminated(r + [e]);
      } else {
        NotSelectedIsSilent(line, settings, name);
        KeptIsRaw(line, name, settings);
        assert AllRaw(r + [line], name, settings);
      }
    }
  }

  lemma KeptIsRaw(line: string, name: string, settings: Settings)
    requires line != "" && (Whole(line) || NoBreak(line)) && Silent(line, name)
    ensures Raw(line, name, settings)
  {}

  lemma NotSelectedIsSilent(line: string, settings: Settings, name: string)
    requires Selects(settings, name) && !AssignsSelected(line, settings)
    ensures Silent(line, name)
  {
    hide Parse;
  }

  lemma EndedPieces(lines: seq<string>, settings: Settings, name: string)
    requires Ready(settings) && Selects(settings, name) && AreLines(lines)
    ensures Pieces(Ended(Replaced(lines, settings)), name, settings)
  {
    ReplacedRaw(lines, settings, name);
    hide Raw, Piece, Ready, AreLines, Replaced, ValueOf, Pieces, Ended, AllRaw;
    EndedOfRaw(Replaced(lines, settings), name, settings);
  }

  lemma EndedOfRaw(r: seq<string>, name: string, settings: Settings)
    requires AllRaw(r, name, settings)
    ensures Pieces(Ended(r), name, settings)
  {
    hide Raw, Piece, Terminated;
    if r != [] {
      var last := r[|r| - 1];
      RawEnds(last, name, settings);
      NewlineTerminates(last);
      forall i | 0 <= i < |r| - 1 ensures Piece(Ended(r)[i], name, settings) { RawEnds(r[i], name, settings); }
      assert last != "" by { RawIsText(last, name, settings); }
    }
  }

  lemma RawIsText(e: string, name: string, settings: Settings)
    requires Raw(e, name, settings)
    ensures e != ""
  {}

  lemma NewlineTerminates(s: string)
    ensures s != "" && s[|s| - 1] == '\n' ==> Terminated(s)
  {}

  lemma {:induction false} MissingPieces(lines: seq<string>, settings: Settings, all: Settings, name: string)
    requires Ready(all) && |settings| <= |all| && settings == all[..|settings|]
    ensures Pieces(Missing(lines, settings), name, all)
  {
    hide Parse, Line, Ready, Piece, ValueOf;
    if settings != [] {
      MissingPieces(lines, settings[..|settings| - 1], all, name);
      assert settings[|settings| - 1] == all[|settings| - 1];
      ReadyIsDistinct(all);
      ValueOfIs(all, |settings| - 1);
      WrittenIsPiece(all, all[|settings| - 1].name, name);
    }
  }

  // ---- reading the name back ----

  lemma {:induction false} OtherHasNoBreak(settings: Settings, i: nat, name: string)
    requires Ready(settings) && OthersNoBreak(settings, name) && i < |settings| && settings[i].name != name
    ensures Lines(Line(settings[i].name, settings[i].value)) == [Line(settings[i].name, settings[i].value)]
    ensures Silent(Line(settings[i].name, settings[i].value), name)
  {
    LineIsWhole(settings[i].name, settings[i].value);
    WholeIsOneLine(Line(settings[i].name, settings[i].value));
    LineParses(settings[i].name, settings[i].value);
  }

  lemma {:induction false} FlatOfPieces(lines: seq<string>, settings: Settings, name: string, v: string, k: nat)
    requires Ready(settings) && Selects(settings, name) && OthersNoBreak(settings, name) && v == ValueOf(settings, name)
    requires Pieces(lines, name, settings) && !NoBreak(v) && k < |Flat(lines)|
    ensures var a := Parse(Flat(lines)[k]); a.Some? && a.value.name == name ==> |a.value.value| < |v|
  {
    hide Parse, Line, NoBreak, Ready, OthersNoBreak, ValueOf;
    var front, last := lines[..|lines| - 1], lines[|lines| - 1];
    if k < |Flat(front)| {
      FlatOfPieces(front, settings, name, v, k);
    } else {
      assert Piece(last, name, settings);
      if IsWritten(last, settings) {
        var i :| 0 <= i < |settings| && last == Line(settings[i].name, settings[i].value);
        ReadyIsDistinct(settings);
        ValueOfIs(settings, i);
        if settings[i].name == name { PiecesAreShort(name, v, k - |Flat(front)|); } else { OtherHasNoBreak(settings, i, name); }
      }
    }
  }

  // A value with a line break never reads back.
  lemma BrokenValueIsLost(t: string, settings: Settings, name: string)
    requires Ready(settings) && Selects(settings, name) && OthersNoBreak(settings, name)
    requires !NoBreak(ValueOf(settings, name))
    ensures Read(Lines(Save(t, settings)), name) != Some(ValueOf(settings, name))
  {
    var v := ValueOf(settings, name);
    var e, m := Ended(Replaced(Lines(t), settings)), Missing(Lines(t), settings);
    TextLines(t);
    EndedPieces(Lines(t), settings, name);
    assert settings[..|settings|] == settings;
    MissingPieces(Lines(t), settings, settings, name);
    hide Ready, OthersNoBreak, Replaced, Missing, Ended, ValueOf, Lines, Flat, Parse, Line;
    LinesOfJoin(e + m);
    var lines := Flat(e + m);
    if Read(lines, name) == Some(v) {
      ReadIsSomeLine(lines, name);
      var k :| 0 <= k < |lines| && Parse(lines[k]) == Some(Assignment(name, v));
      FlatOfPieces(e + m, settings, name, v, k);
    }
  }

  // A saved value reads back exactly when it holds no line break and is not wrapped in quotes.
  lemma SurvivesIff(t: string, settings: Settings, name: string)
    requires Ready(settings) && Selects(settings, name) && OthersNoBreak(settings, name)
    ensures Read(Lines(Save(t, settings)), name) == Some(ValueOf(settings, name))
       <==> NoBreak(ValueOf(settings, name)) && !Wrapped(ValueOf(settings, name))
  {
    var v := ValueOf(settings, name);
    if NoBreak(v) {
      AllNoBreak(settings, name);
      SaveReads(t, settings, name);
      UnquoteKeepsIff(v);
    } else {
      BrokenValueIsLost(t, settings, name);
    }
  }

  lemma AllNoBreak(settings: Settings, name: string)
    requires Ready(settings) && Selects(settings, name) && OthersNoBreak(settings, name) && NoBreak(ValueOf(settings, name))
    ensures NoBreaks(settings)
  {
    forall i | 0 <= i < |settings| ensures NoBreak(settings[i].value) { ValueOfIs(settings, i); }
  }

  // A value that the caller's check accepts can set another name: a line separator ends its line.
  lemma SeparatorSetsAnotherName(name: string, x: string, other: string, y: string)
    requires IsName(name) && SafeValue(x) && NoBreak(x) && IsName(other) && SafeValue(y) && NoBreak(y) && other != name
    ensures var v := x + "\U{2028}" + (other + "=" + y); var settings := [Assignment(name, v)];
            Ready(settings) && !Selects(settings, other)
            && Read(Lines(""), other) == None && Read(Lines(Save("", settings)), other) == Some(Unquote(y))
  {
    hide Save, Read, Lines, NoBreak, Line, Unquote, Ready, Selects, IsName, SafeValue;
    var settings := [Assignment(name, x + "\U{2028}" + (other + "=" + y))];
    JoinedIsSafe(x, other, y);
    SaveOne(settings);
    EmptyReadsNothing(other);
    LineSplitsAt(name, x, other + "=" + y);
    OneSetting(name, settings[0].value, other);
    SplitLineReads(name, x, other, y);
  }

  lemma OneSetting(name: string, v: string, other: string)
    requires IsName(name) && SafeValue(v) && other != name
    ensures Ready([Assignment(name, v)]) && !Selects([Assignment(name, v)], other)
  {}

  lemma SplitLineReads(name: string, x: string, other: string, y: string)
    requires IsName(name) && NoBreak(x) && IsName(other) && SafeValue(y) && NoBreak(y)
    ensures Read(Lines((name + "=" + x + "\U{2028}") + (other + "=" + y + "\n")), other) == Some(Unquote(y))
  {
    var first, second := name + "=" + x + "\U{2028}", Line(other, y);
    LineIsWhole(other, y);
    FirstIsWhole(name, x);
    TwoLines(first, second);
    LineParses(other, y);
    hide Parse, IsName, SafeValue, Unquote, NoBreak, Whole, Lines;
    LastReads([first], second, other);
    assert [first] + [second] == [first, second];
  }

  lemma LineSplitsAt(name: string, x: string, rest: string)
    ensures Line(name, x + "\U{2028}" + rest) == (name + "=" + x + "\U{2028}") + (rest + "\n")
  {}

  lemma FirstIsWhole(name: string, x: string)
    requires IsName(name) && NoBreak(x)
    ensures Whole(name + "=" + x + "\U{2028}")
  {
    var first := name + "=" + x + "\U{2028}";
    assert first[..|first| - 1] == name + "=" + x;
  }

  lemma EmptyReadsNothing(name: string)
    ensures Read(Lines(""), name) == None
  {}

  lemma LastReads(front: seq<string>, last: string, name: string)
    requires Parse(last).Some? && Parse(last).value.name == name
    ensures Read(front + [last], name) == Some(Parse(last).value.value)
  {
    assert (front + [last])[|front|] == last;
  }

  lemma JoinedIsSafe(x: string, other: string, y: string)
    requires SafeValue(x) && SafeValue(y) && IsName(other)
    ensures SafeValue(x + "\U{2028}" + (other + "=" + y))
  {
    var v := x + "\U{2028}" + (other + "=" + y);
    assert v[0] == x[0] && v[|v| - 1] == y[|y| - 1];
  }

  lemma TwoLines(first: string, second: string)
    requires Whole(first) && Whole(second)
    ensures Lines(first + second) == [first, second]
  {
    WholeIsOneLine(first);
    WholeIsOneLine(second);
    LinesAppend(first, second);
  }

  lemma SaveOne(settings: Settings)
    requires |settings| == 1
    ensures Save("", settings) == Line(settings[0].name, settings[0].value)
  {
    hide Line, Ended;
    var line := Line(settings[0].name, settings[0].value);
    NothingAssigns();
    hide Assigns;
    assert settings[..0] == [];
    assert Missing([], settings[..0]) == [];
    assert Missing([], settings) == [line];
    assert Lines("") == [] && Replaced([], settings) == [];
    NothingEnds();
    assert Merged([], settings) == [line];
    assert [line][..0] == [] && Join([]) == "";
  }

  lemma NothingEnds()
    ensures Ended([]) == []
  {}
}
