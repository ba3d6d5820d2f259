/** When a saved value is read back whatever the file held before, for all settings that the caller's
    checks let through. */
module DotenvEverywhere {
  import opened Records
  import opened Texts
  import opened Dotenv
  import opened DotenvRuns
  import opened DotenvText
  import opened DotenvRoundTrip
  import opened DotenvExact

  // What one written assignment, read alone, says of a name.
  function Says(s: Assignment, name: string): Option<string> { Read(Lines(Line(s.name, s.value)), name) }

  // No other setting's assignment, broken into lines, gives the name a value other than its own.
  predicate OthersAgree(settings: Settings, name: string, v: string) {
    forall i :: 0 <= i < |settings| && settings[i].name != name ==> Says(settings[i], name) in {None, Some(v)}
  }

  // ---- enough ----

  lemma {:induction false} FlatReads(lines: seq<string>, name: string, v: string)
    requires forall i :: 0 <= i < |lines| ==> Read(Lines(lines[i]), name) in {None, Some(v)}
    ensures Read(Flat(lines), name) in {None, Some(v)}
    ensures (exists i :: 0 <= i < |lines| && Read(Lines(lines[i]), name) == Some(v)) ==> Read(Flat(lines), name) == Some(v)
  {
    hide Read, Lines;
    if lines == [] {
      NothingReads(name);
    } else {
      var front, last := lines[..|lines| - 1], lines[|lines| - 1];
      FlatReads(front, name, v);
      ReadAppend(Flat(front), Lines(last), name);
      if i :| 0 <= i < |lines| && Read(Lines(lines[i]), name) == Some(v) {
        if i < |front| { assert front[i] == lines[i]; }
      }
    }
  }

  lemma NothingReads(name: string)
    ensures Read([], name) == None
  {}

  lemma {:induction false} SilentReads(lines: seq<string>, name: string)
    requires forall i :: 0 <= i < |lines| ==> Silent(lines[i], name)
    ensures Read(lines, name) == None
  {
    hide Parse;
    if lines != [] { SilentReads(lines[..|lines| - 1], name); }
  }

  lemma PieceReads(e: string, settings: Settings, name: string, v: string)
    requires Piece(e, name, settings) && DistinctNames(settings) && Selects(settings, name) && v == ValueOf(settings, name)
    requires Says(Assignment(name, v), name) == Some(v) && OthersAgree(settings, name, v)
    ensures Read(Lines(e), name) in {None, Some(v)}
  {
    hide Parse, Lines, Read, Line;
    if i :| 0 <= i < |settings| && e == Line(settings[i].name, settings[i].value) {
      ValueOfIs(settings, i);
    } else {
      SilentReads(Lines(e), name);
    }
  }

  lemma WrittenEnds(name: string, v: string)
    ensures Line(name, v) != "" && Line(name, v)[|Line(name, v)| - 1] == '\n'
  {}

  // The name's own assignment is among the merged lines.
  lemma {:induction false} ReplacedHas(lines: seq<string>, settings: Settings, name: string)
    requires Selects(settings, name) && Assigns(lines, name)
    ensures Line(name, ValueOf(settings, name)) in Replaced(lines, settings)
  {
    hide Parse, Line, ValueOf, Selects;
    var front, line := lines[..|lines| - 1], lines[|lines| - 1];
    AssignsOneMore(lines, |front|);
    assert lines[..|lines|] == lines;
    if Assigns(front, name) { ReplacedHas(front, settings, name); }
  }

  lemma {:induction false} MissingHas(lines: seq<string>, settings: Settings, name: string)
    requires DistinctNames(settings) && Selects(settings, name) && !Assigns(lines, name)
    ensures Line(name, ValueOf(settings, name)) in Missing(lines, settings)
  {
    hide Parse, Line, Assigns;
    SelectsFront(settings, name);
    if Selects(settings[..|settings| - 1], name) { MissingHas(lines, settings[..|settings| - 1], name); }
  }

  lemma EndedHas(r: seq<string>, name: string, v: string)
    requires Line(name, v) in r
    ensures Line(name, v) in Ended(r)
  {
    var i :| 0 <= i < |r| && r[i] == Line(name, v);
    WrittenEnds(name, v);
    hide Line;
    assert Ended(r)[i] == r[i];
  }

  lemma MergedHas(lines: seq<string>, settings: Settings, name: string)
    requires DistinctNames(settings) && Selects(settings, name)
    ensures Line(name, ValueOf(settings, name)) in Merged(lines, settings)
  {
    hide Line, ValueOf, Assigns, Replaced, Missing, Ended;
    if Assigns(lines, name) {
      ReplacedHas(lines, settings, name);
      EndedHas(Replaced(lines, settings), name, ValueOf(settings, name));
    } else {
      MissingHas(lines, settings, name);
    }
  }

  lemma AgreementSuffices(t: string, settings: Settings, name: string)
    requires Ready(settings) && Selects(settings, name)
    requires var v := ValueOf(settings, name); Says(Assignment(name, v), name) == Some(v) && OthersAgree(settings, name, v)
    ensures Read(Lines(Save(t, settings)), name) == Some(ValueOf(settings, name))
  {
    var v := ValueOf(settings, name);
    var e, m := Ended(Replaced(Lines(t), settings)), Missing(Lines(t), settings);
    TextLines(t);
    EndedPieces(Lines(t), settings, name);
    assert settings[..|settings|] == settings;
    MissingPieces(Lines(t), settings, settings, name);
    ReadyIsDistinct(settings);
    MergedHas(Lines(t), settings, name);
    hide Ready, Replaced, Missing, Ended, ValueOf, Lines, Flat, Parse, Line, Read, Selects, OthersAgree, DistinctNames;
    assert Pieces(e + m, name, settings);
    LinesOfJoin(e + m);
    forall i | 0 <= i < |e + m| ensures Read(Lines((e + m)[i]), name) in {None, Some(v)} {
      assert Piece((e + m)[i], name, settings);
      PieceReads((e + m)[i], settings, name, v);
    }
    FlatReads(e + m, name, v);
  }

  // ---- necessary: a file that puts one setting last ----

  // A file that assigns these names in this order.
  function Template(order: Settings): seq<string> {
    if order == [] then [] else Template(order[..|order| - 1]) + [Line(order[|order| - 1].name, "x")]
  }

  function Written(order: Settings): seq<string> {
    if order == [] then [] else Written(order[..|order| - 1]) + [Line(order[|order| - 1].name, order[|order| - 1].value)]
  }

  // The same settings, with number p last.
  function LastOf(settings: Settings, p: nat): Settings
    requires p < |settings|
  {
    settings[..p] + settings[p + 1..] + [settings[p]]
  }

  lemma XIsSafe()
    ensures SafeValue("x") && NoBreak("x")
  {}

  // Part of an order of the settings: distinct names, each with its own value.
  predicate Orders(order: Settings, settings: Settings) {
    && DistinctNames(order)
    && forall i :: 0 <= i < |order| ==> IsName(order[i].name) && Selects(settings, order[i].name) && ValueOf(settings, order[i].name) == order[i].value
  }

  lemma {:induction false} TemplateIs(order: Settings, settings: Settings)
    requires Orders(order, settings)
    ensures AllWhole(Template(order))
    ensures forall name :: Assigns(Template(order), name) <==> Selects(order, name)
    ensures Replaced(Template(order), settings) == Written(order)
  {
    hide Parse, Line, ValueOf, SafeValue, Whole, IsName;
    if order == [] {
      NothingAssigns();
    } else {
      var front, s := order[..|order| - 1], order[|order| - 1];
      TemplateIs(front, settings);
      XIsSafe();
      LineIsWhole(s.name, "x");
      LineParses(s.name, "x");
      var lines := Template(order);
      assert lines[..|lines| - 1] == Template(front) && lines[..|lines|] == lines;
      AssignsOneMore(lines, |lines| - 1);
      forall name ensures Selects(order, name) <==> Selects(front, name) || s.name == name { SelectsFront(order, name); }
      SelectsFront(order, s.name);
    }
  }

  lemma LastOfOrders(settings: Settings, p: nat)
    requires Ready(settings) && p < |settings|
    ensures Orders(LastOf(settings, p), settings)
    ensures forall name :: Selects(LastOf(settings, p), name) <==> Selects(settings, name)
  {
    hide IsName, SafeValue;
    var order := LastOf(settings, p);
    forall i | 0 <= i < |order| ensures exists j :: 0 <= j < |settings| && order[i] == settings[j] {
      assert order[i] == settings[if i < p then i else if i < |order| - 1 then i + 1 else p];
    }
    forall i | 0 <= i < |order|
      ensures Selects(settings, order[i].name) && ValueOf(settings, order[i].name) == order[i].value && IsName(order[i].name) {
      var j :| 0 <= j < |settings| && order[i] == settings[j];
      ValueOfIs(settings, j);
    }
    forall i, j | 0 <= i < j < |order| ensures order[i].name != order[j].name {
      var a, b := if i < p then i else i + 1, if j < p then j else if j < |order| - 1 then j + 1 else p;
      assert order[i] == settings[a] && order[j] == settings[b] && a != b;
    }
    forall name | Selects(settings, name) ensures Selects(order, name) {
      var j :| 0 <= j < |settings| && settings[j].name == name;
      var i := if j < p then j else if j == p then |order| - 1 else j - 1;
      assert order[i] == settings[j];
    }
  }

  lemma {:induction false} WrittenTerminated(order: Settings)
    ensures forall i :: 0 <= i < |Written(order)| ==> Terminated(Written(order)[i])
    ensures Ended(Written(order)) == Written(order)
  {
    if order != [] {
      WrittenTerminated(order[..|order| - 1]);
      WrittenEnds(order[|order| - 1].name, order[|order| - 1].value);
      hide Line;
    }
  }

  lemma {:induction false} NothingMissingOf(lines: seq<string>, settings: Settings)
    requires forall i :: 0 <= i < |settings| ==> Assigns(lines, settings[i].name)
    ensures Missing(lines, settings) == []
  {
    hide Assigns;
    if settings != [] { NothingMissingOf(lines, settings[..|settings| - 1]); }
  }

  // Saving into that file keeps its order.
  lemma TemplateSaves(settings: Settings, p: nat)
    requires Ready(settings) && p < |settings|
    ensures Lines(Save(Join(Template(LastOf(settings, p))), settings)) == Flat(Written(LastOf(settings, p)))
  {
    var order := LastOf(settings, p);
    LastOfOrders(settings, p);
    hide LastOf, Ready, Orders;
    TemplateIs(order, settings);
    TemplateMerges(Template(order), order, settings);
    hide Template, Written, Whole, Terminated, Merged;
    WholeAreFlat(Template(order));
    LinesOfJoin(Template(order));
    WrittenTerminated(order);
    LinesOfJoin(Written(order));
  }

  lemma TemplateMerges(lines: seq<string>, order: Settings, settings: Settings)
    requires Replaced(lines, settings) == Written(order)
    requires forall name :: Assigns(lines, name) <==> Selects(order, name)
    requires forall name :: Selects(order, name) <==> Selects(settings, name)
    ensures Merged(lines, settings) == Written(order)
  {
    hide Replaced, Assigns;
    forall i | 0 <= i < |settings| ensures Assigns(lines, settings[i].name) { assert Selects(settings, settings[i].name); }
    hide Selects;
    NothingMissingOf(lines, settings);
    WrittenTerminated(order);
  }

  lemma LastSays(settings: Settings, p: nat, name: string)
    requires Ready(settings) && p < |settings| && Says(settings[p], name).Some?
    ensures Read(Lines(Save(Join(Template(LastOf(settings, p))), settings)), name) == Says(settings[p], name)
  {
    var order := LastOf(settings, p);
    TemplateSaves(settings, p);
    hide Read, Lines, Template, Save, Ready;
    assert order != [] && order[|order| - 1] == settings[p];
    ReadAppend(Flat(Written(order[..|order| - 1])), Lines(Line(settings[p].name, settings[p].value)), name);
    WrittenFlat(order);
  }

  lemma WrittenFlat(order: Settings)
    requires order != []
    ensures var s := order[|order| - 1]; Flat(Written(order)) == Flat(Written(order[..|order| - 1])) + Lines(Line(s.name, s.value))
  {
    hide Lines, Line;
    var w := Written(order);
    assert w[..|w| - 1] == Written(order[..|order| - 1]);
  }

  // ---- a setting's own assignment ----

  lemma {:induction false} StripRightKeeps(p: string, s: string)
    requires p != "" && !Space(p[|p| - 1])
    ensures StripRight(p + s) == p + StripRight(s)
  {
    if s == "" {
      assert p + s == p;
    } else {
      assert (p + s)[|p + s| - 1] == s[|s| - 1];
      if Space(s[|s| - 1]) {
        assert (p + s)[..|p + s| - 1] == p + s[..|s| - 1];
        StripRightKeeps(p, s[..|s| - 1]);
      }
    }
  }

  lemma {:induction false} StripRightIsPart(s: string, c: char)
    requires c in StripRight(s)
    ensures c in s
  {
    if s != "" && Space(s[|s| - 1]) { StripRightIsPart(s[..|s| - 1], c); }
  }

  // Whatever follows "name=" on a line without a line feed, the line assigns the name.
  lemma AnyLineAssigns(name: string, rest: string)
    requires IsName(name) && '\n' !in StripRight(rest)
    ensures Parse(name + "=" + rest).Some? && Parse(name + "=" + rest).value.name == name
  {
    NameStartsClean(name, rest);
    hide Parse, IsName, Strip, StripRight;
    StrippedAssigns(name + "=" + rest, name, StripRight(rest));
  }

  lemma NothingToStrip(t: string, name: string)
    requires IsName(name) && t != "" && t[0] == name[0]
    ensures StripLeft(t) == t
  {
    assert name[0] in name;
  }

  lemma NameStartsClean(name: string, rest: string)
    requires IsName(name)
    ensures Strip(name + "=" + rest) == name + ("=" + StripRight(rest))
  {
    var p := name + "=";
    NothingToStrip(p + rest, name);
    StripRightKeeps(p, rest);
    hide StripRight, StripLeft, IsName;
    JoinsAssociate(name, "=", StripRight(rest));
  }

  lemma JoinsAssociate(a: string, b: string, c: string)
    ensures a + b + c == a + (b + c)
  {}

  lemma StrippedAssigns(t: string, name: string, rest: string)
    requires IsName(name) && '\n' !in rest && Strip(t) == name + ("=" + rest)
    ensures Parse(t).Some? && Parse(t).value.name == name
  {
    NameEndOf(name, "=" + rest);
    var c := Strip(t);
    hide Strip, NameEnd, Unquote;
    assert name[0] in name && c[0] == name[0];
    assert c[|name|] == '=' && c[..|name|] == name && c[|name| + 1..] == rest;
  }

  lemma StripDropsFeed(s: string)
    requires forall i :: 0 <= i < |s| - 1 ==> s[i] != '\n'
    ensures '\n' !in StripRight(s)
  {
    if s != "" && Space(s[|s| - 1]) {
      if '\n' in StripRight(s[..|s| - 1]) { StripRightIsPart(s[..|s| - 1], '\n'); }
    }
  }

  lemma {:induction false} FirstLineReaches(p: string, rest: string)
    requires NoBreak(p)
    ensures FirstLine(p + rest) == |p| + FirstLine(rest)
  {
    if p == "" {
      assert p + rest == rest;
    } else {
      assert (p + rest)[0] == p[0] && (p + rest)[1..] == p[1..] + rest && p[0] in p;
      FirstLineReaches(p[1..], rest);
    }
  }

  lemma NameHasNoBreak(name: string)
    requires IsName(name)
    ensures NoBreak(name + "=")
  {}

  predicate AssignsName(line: string, name: string) { Parse(line).Some? && Parse(line).value.name == name }

  // The first piece of a written assignment assigns its name.
  lemma FirstPieceAssigns(name: string, v: string)
    requires IsName(name) && SafeValue(v)
    ensures Lines(Line(name, v)) != [] && AssignsName(Lines(Line(name, v))[0], name)
  {
    var p, rest := name + "=", v + "\n";
    var t := Line(name, v);
    assert t == p + rest;
    NameHasNoBreak(name);
    FirstLineReaches(p, rest);
    var k := FirstLine(rest);
    var first := rest[..k];
    assert t[..FirstLine(t)] == name + "=" + first;
    forall i | 0 <= i < |first| - 1 ensures first[i] != '\n' { assert first[i] == v[i] && v[i] in v; }
    StripDropsFeed(first);
    AnyLineAssigns(name, first);
    LinesStep(t);
    hide Parse, Lines, FirstLine, IsName, SafeValue;
    assert Lines(t)[0] == name + "=" + first;
  }

  // So reading it alone says something.
  lemma OwnLineSays(name: string, v: string)
    requires IsName(name) && SafeValue(v)
    ensures Says(Assignment(name, v), name).Some?
  {
    FirstPieceAssigns(name, v);
    hide Parse, Lines, IsName, SafeValue;
    ReadAssigned(Lines(Line(name, v)), name);
  }

  lemma OwnLineIff(name: string, v: string)
    requires IsName(name) && SafeValue(v)
    ensures Says(Assignment(name, v), name) == Some(v) <==> NoBreak(v) && !Wrapped(v)
  {
    var t := Line(name, v);
    if NoBreak(v) {
      LineIsWhole(name, v);
      WholeIsOneLine(t);
      LineParses(name, v);
      UnquoteKeepsIff(v);
      hide Parse, Unquote, Wrapped, IsName, SafeValue, Lines;
      assert [t][..0] == [];
    } else if Says(Assignment(name, v), name) == Some(v) {
      ReadIsSomeLine(Lines(t), name);
      var k :| 0 <= k < |Lines(t)| && Parse(Lines(t)[k]) == Some(Assignment(name, v));
      PiecesAreShort(name, v, k);
    }
  }

  // A saved value is read back from every file exactly if it holds no line break, is not wrapped in
  // quotes, and no other saved value, where it falls apart into lines, assigns this name another value.
  lemma SurvivesEverywhereIff(settings: Settings, name: string)
    requires Ready(settings) && Selects(settings, name)
    ensures var v := ValueOf(settings, name);
            (forall t :: Read(Lines(Save(t, settings)), name) == Some(v)) <==>
            NoBreak(v) && !Wrapped(v) && OthersAgree(settings, name, v)
  {
    var v := ValueOf(settings, name);
    ValueOfReady(settings, name);
    OwnLineIff(name, v);
    OwnLineSays(name, v);
    hide IsName, SafeValue, Read, Lines, Save, NoBreak, Wrapped;
    if NoBreak(v) && !Wrapped(v) && OthersAgree(settings, name, v) {
      forall t ensures Read(Lines(Save(t, settings)), name) == Some(v) { AgreementSuffices(t, settings, name); }
    }
    if forall t :: Read(Lines(Save(t, settings)), name) == Some(v) {
      var p :| 0 <= p < |settings| && settings[p].name == name;
      ReadyIsDistinct(settings);
      ValueOfIs(settings, p);
      assert settings[p] == Assignment(name, v);
      LastSays(settings, p, name);
      forall i | 0 <= i < |settings| && settings[i].name != name ensures Says(settings[i], name) in {None, Some(v)} {
        if Says(settings[i], name).Some? { LastSays(settings, i, name); }
      }
    }
  }

  // It does happen that another value decides: one with a line separator before an assignment.
  lemma OtherValueOverrides(name: string, z: string, other: string, x: string, y: string)
    requires IsName(name) && SafeValue(z) && NoBreak(z) && !Wrapped(z) && IsName(other) && other != name
    requires SafeValue(x) && NoBreak(x) && SafeValue(y) && NoBreak(y) && Unquote(y) != z
    ensures var settings := [Assignment(name, z), Assignment(other, x + "\U{2028}" + (name + "=" + y))];
            Ready(settings) && Selects(settings, name) && ValueOf(settings, name) == z && !OthersAgree(settings, name, z)
  {
    var v := x + "\U{2028}" + (name + "=" + y);
    var settings := [Assignment(name, z), Assignment(other, v)];
    JoinedIsSafe(x, name, y);
    SplitLineReads(other, x, name, y);
    LineSplitsAt(other, x, name + "=" + y);
    hide Read, Lines, Parse;
    assert settings[0].name == name;
    assert settings[1].name != name && Says(settings[1], name) == Some(Unquote(y));
  }

  // ---- names that are not saved ----

  // No saved value, where it falls apart into lines, assigns the name.
  predicate NobodySays(settings: Settings, name: string) {
    forall i :: 0 <= i < |settings| ==> Says(settings[i], name) == None
  }

  lemma WrittenSaysNothing(settings: Settings, other: string, name: string)
    requires DistinctNames(settings) && NobodySays(settings, name) && Selects(settings, other)
    ensures Read(Lines(Line(other, ValueOf(settings, other))), name) == None
  {
    var i :| 0 <= i < |settings| && settings[i].name == other;
    ValueOfIs(settings, i);
    hide Read, Lines, Line;
    assert Says(settings[i], name) == None;
  }

  predicate Singles(lines: seq<string>) { forall i :: 0 <= i < |lines| ==> Lines(lines[i]) == [lines[i]] }

  lemma ReadSnoc(a: seq<string>, line: string, name: string)
    ensures Read(a + [line], name) == if Parse(line).Some? && Parse(line).value.name == name then Some(Parse(line).value.value) else Read(a, name)
  {
    hide Parse;
    assert (a + [line])[..|a|] == a;
  }

  lemma FlatSnoc(a: seq<string>, e: string)
    ensures Flat(a + [e]) == Flat(a) + Lines(e)
  {
    hide Lines;
    assert (a + [e])[..|a|] == a;
  }

  // Kept lines read as before, replaced ones say nothing of the name.
  lemma {:induction false} ReplacedKeepsOther(lines: seq<string>, settings: Settings, name: string)
    requires DistinctNames(settings) && NobodySays(settings, name) && !Selects(settings, name) && Singles(lines)
    ensures Read(Flat(Replaced(lines, settings)), name) == Read(lines, name)
  {
    hide Parse, Lines, Line, ValueOf, Selects, NobodySays, DistinctNames, Flat;
    if lines == [] {
      FlatOfNothing();
    } else {
      var front, line := lines[..|lines| - 1], lines[|lines| - 1];
      assert Singles(front) && Lines(line) == [line];
      ReplacedKeepsOther(front, settings, name);
      var r := Replaced(front, settings);
      hide Singles;
      if AssignsSelected(line, settings) {
        var other := Parse(line).value.name;
        var e := Line(other, ValueOf(settings, other));
        WrittenSaysNothing(settings, other, name);
        FlatSnoc(r, e);
        ReadAppend(Flat(r), Lines(e), name);
      } else {
        FlatSnoc(r, line);
        ReadSnoc(Flat(r), line, name);
      }
    }
  }

  lemma FlatOfNothing()
    ensures Flat([]) == []
  {}

  lemma {:induction false} MissingSaysNothing(lines: seq<string>, settings: Settings, name: string)
    requires NobodySays(settings, name)
    ensures Read(Flat(Missing(lines, settings)), name) == None
  {
    hide Lines, Line, Read, Assigns;
    if settings == [] {
      NothingReads(name);
    } else {
      var front, s := settings[..|settings| - 1], settings[|settings| - 1];
      MissingSaysNothing(lines, front, name);
      var m, e := Missing(lines, front), Line(s.name, s.value);
      assert Says(s, name) == None;
      FlatAppend(m, [e]);
      FlatOne(e);
      ReadAppend(Flat(m), Lines(e), name);
    }
  }

  // What the last line of a merge looks like before the final newline.
  predicate CanEnd(last: string) { last != "" && (last[|last| - 1] == '\n' || Whole(last) || NoBreak(last)) }

  // The final newline changes nothing that is read.
  lemma EndedKeeps(r: seq<string>, name: string)
    requires r != [] ==> CanEnd(r[|r| - 1])
    ensures Read(Flat(Ended(r)), name) == Read(Flat(r), name)
  {
    hide Read, Flat, CanEnd;
    if r != [] {
      assert r == r[..|r| - 1] + [r[|r| - 1]];
      EndedKeepsLast(r[..|r| - 1], r[|r| - 1], name);
    }
  }

  lemma EndedKeepsLast(front: seq<string>, last: string, name: string)
    requires CanEnd(last)
    ensures Read(Flat(Ended(front + [last])), name) == Read(Flat(front + [last]), name)
  {
    ClosedSplits(front, last);
    LastKeeps(last, name);
    hide *;
    FlatAppend(front, Ended([last]));
    FlatAppend(front, [last]);
    ReadAppend(Flat(front), Flat(Ended([last])), name);
    ReadAppend(Flat(front), Flat([last]), name);
  }

  lemma LastKeeps(last: string, name: string)
    requires CanEnd(last)
    ensures Read(Flat(Ended([last])), name) == Read(Flat([last]), name)
  {
    if last[|last| - 1] != '\n' {
      LastCloses(last);
      WholeIsOneLine(last);
      ClosingReads(last, name);
      FlatOne(last);
      FlatOne(last + "\n");
      assert Ended([last]) == [last + "\n"];
      hide Read, Lines, Whole, NoBreak, Closing, Flat;
    }
  }

  lemma ClosingReads(last: string, name: string)
    requires last != ""
    ensures Read(Closing(last), name) == Read([last], name)
  {
    ParseIgnoresNewline(last);
    BlankIsInert();
    hide Parse;
    assert [last, "\n"][..1] == [last] && [last][..0] == [] && [last + "\n"][..0] == [];
  }

  lemma {:induction false} ReplacedEnds(lines: seq<string>, settings: Settings)
    requires AreLines(lines) && Replaced(lines, settings) != []
    ensures var r := Replaced(lines, settings); CanEnd(r[|r| - 1])
  {
    hide Parse, ValueOf, Whole, NoBreak;
    var front, line := lines[..|lines| - 1], lines[|lines| - 1];
    if AssignsSelected(line, settings) {
      if Assigns(front, Parse(line).value.name) {
        ReplacedEnds(front, settings);
      } else {
        WrittenEnds(Parse(line).value.name, ValueOf(settings, Parse(line).value.name));
      }
    }
  }

  // What a later read splits the saved text into.
  lemma SavedIsFlat(t: string, settings: Settings)
    requires Ready(settings)
    ensures Lines(Save(t, settings)) == Flat(Merged(Lines(t), settings))
    ensures Flat(Merged(Lines(t), settings)) == Flat(Ended(Replaced(Lines(t), settings))) + Flat(Missing(Lines(t), settings))
  {
    MergedTerminated(t, settings);
    hide Replaced, Missing, Ended, Lines, Flat, Terminated;
    LinesOfJoin(Merged(Lines(t), settings));
    FlatAppend(Ended(Replaced(Lines(t), settings)), Missing(Lines(t), settings));
  }

  lemma SingleLines(t: string)
    ensures Singles(Lines(t))
  {
    forall i | 0 <= i < |Lines(t)| ensures Lines(Lines(t)[i]) == [Lines(t)[i]] {
      LinesShape(t, i);
      WholeIsOneLine(Lines(t)[i]);
    }
  }

  lemma NobodySaysSuffices(t: string, settings: Settings, name: string)
    requires Ready(settings) && !Selects(settings, name) && NobodySays(settings, name)
    ensures Read(Lines(Save(t, settings)), name) == Read(Lines(t), name)
  {
    var lines := Lines(t);
    SavedIsFlat(t, settings);
    TextLines(t);
    SingleLines(t);
    ReadyIsDistinct(settings);
    hide *;
    var r, m := Replaced(lines, settings), Missing(lines, settings);
    if r != [] { ReplacedEnds(lines, settings); }
    ReplacedKeepsOther(lines, settings, name);
    EndedKeeps(r, name);
    MissingSaysNothing(lines, settings, name);
    ReadAppend(Flat(Ended(r)), Flat(m), name);
  }

  lemma MergedTerminated(t: string, settings: Settings)
    requires Ready(settings)
    ensures forall i :: 0 <= i < |Merged(Lines(t), settings)| ==> Terminated(Merged(Lines(t), settings)[i])
  {
    var e, m := Ended(Replaced(Lines(t), settings)), Missing(Lines(t), settings);
    if settings == [] {
      NothingSelectedTerminated(t);
    } else {
      var name := settings[0].name;
      assert Selects(settings, name);
      TextLines(t);
      EndedPieces(Lines(t), settings, name);
      assert settings[..|settings|] == settings;
      MissingPieces(Lines(t), settings, settings, name);
      hide Ready, Replaced, Missing, Ended, Lines;
      forall i | 0 <= i < |e + m| ensures Terminated((e + m)[i]) {
        assert Piece((e + m)[i], name, settings);
      }
    }
  }

  lemma NothingSelectedTerminated(t: string)
    ensures forall i :: 0 <= i < |Merged(Lines(t), [])| ==> Terminated(Merged(Lines(t), [])[i])
  {
    NothingReplaced(Lines(t));
    TextLines(t);
    hide Lines;
    EndedIsClosed(Lines(t));
  }

  lemma {:induction false} NothingReplaced(lines: seq<string>)
    ensures Replaced(lines, []) == lines
  {
    hide Parse;
    if lines != [] { NothingReplaced(lines[..|lines| - 1]); }
  }

  // A name that is not saved is read as before from every file exactly if no saved value, where it
  // falls apart into lines, assigns it.
  lemma OthersKeptIff(settings: Settings, name: string)
    requires Ready(settings) && !Selects(settings, name)
    ensures (forall t :: Read(Lines(Save(t, settings)), name) == Read(Lines(t), name)) <==> NobodySays(settings, name)
  {
    hide Read, Lines, Save;
    if NobodySays(settings, name) {
      forall t ensures Read(Lines(Save(t, settings)), name) == Read(Lines(t), name) { NobodySaysSuffices(t, settings, name); }
    }
    if forall t :: Read(Lines(Save(t, settings)), name) == Read(Lines(t), name) {
      forall i | 0 <= i < |settings| ensures Says(settings[i], name) == None {
        if Says(settings[i], name).Some? {
          LastSays(settings, i, name);
          TemplateDoesNotSay(settings, i, name);
        }
      }
    }
  }

  lemma TemplateDoesNotSay(settings: Settings, p: nat, name: string)
    requires Ready(settings) && p < |settings| && !Selects(settings, name)
    ensures Read(Lines(Join(Template(LastOf(settings, p)))), name) == None
  {
    var order := LastOf(settings, p);
    LastOfOrders(settings, p);
    hide LastOf, Ready, Orders;
    TemplateIs(order, settings);
    hide Template, Whole, Terminated, Lines, Flat;
    WholeAreFlat(Template(order));
    LinesOfJoin(Template(order));
    ReadAssigned(Template(order), name);
  }
}
