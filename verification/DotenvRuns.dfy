/** What saving settings does to the lines of a dotenv file, and what is read back from its text. */
module DotenvRuns {
  import opened Records
  import opened Texts
  import opened Dotenv

  // ---- what the caller has checked ----

  predicate IsName(name: string) { name != "" && !IsDigit(name[0]) && forall c :: c in name ==> NameChar(c) }

  // Stripped, not empty, and no ASCII control characters.
  predicate SafeValue(v: string) { Clean(v) && forall c :: c in v ==> c >= ' ' && c != '\U{007F}' }

  predicate Ready(settings: Settings) {
    DistinctNames(settings) && forall i :: 0 <= i < |settings| ==> IsName(settings[i].name) && SafeValue(settings[i].value)
  }

  lemma {:induction false} NameEndOf(name: string, rest: string)
    requires (forall c :: c in name ==> NameChar(c)) && rest != "" && !NameChar(rest[0])
    ensures NameEnd(name + rest) == |name|
  {
    if name == "" {
      assert name + rest == rest;
    } else {
      assert (name + rest)[0] == name[0] && (name + rest)[1..] == name[1..] + rest;
      NameEndOf(name[1..], rest);
    }
  }

  lemma LineParses(name: string, value: string)
    requires IsName(name) && SafeValue(value)
    ensures Parse(Line(name, value)) == Some(Assignment(name, Unquote(value)))
  {
    var text := name + "=" + value;
    assert Line(name, value) == text + ['\n'];
    StripDropsSpace(text, '\n');
    assert text[0] == name[0] && name[0] in name && text[|text| - 1] == value[|value| - 1];
    CleanIsStripped(text);
    assert text == name + ("=" + value) && text[|name|] == '=' && text[..|name|] == name && text[|name| + 1..] == value;
    NameEndOf(name, "=" + value);
    CleanIsStripped(value);
  }

  lemma ParseIgnoresNewline(line: string)
    ensures Parse(line + "\n") == Parse(line)
  {
    StripDropsSpace(line, '\n');
  }

  // ---- which lines are assignments ----

  predicate Letter(c: char) { 'a' <= c <= 'z' || 'A' <= c <= 'Z' || c == '_' }

  // [A-Za-z_][A-Za-z0-9_]*
  predicate Word(name: string) {
    name != "" && Letter(name[0]) && forall i :: 1 <= i < |name| ==> Letter(name[i]) || '0' <= name[i] <= '9'
  }

  // A word, an equals sign and anything on one line, perhaps with whitespace around: an assignment of
  // what stands there, stripped and without its quotes.
  lemma AssignmentParses(line: string, name: string, raw: string)
    requires Strip(line) == name + ("=" + raw) && Word(name) && '\n' !in raw
    ensures Parse(line) == Some(Assignment(name, Unquote(Strip(raw))))
  {
    var c := Strip(line);
    forall d | d in name ensures NameChar(d) {
      var i :| 0 <= i < |name| && name[i] == d;
    }
    NameEndOf(name, "=" + raw);
    hide Strip, Unquote;
    assert c[0] == name[0] && c[|name|] == '=' && c[..|name|] == name && c[|name| + 1..] == raw;
  }

  lemma {:induction false} NameEndChars(s: string)
    ensures NameEnd(s) <= |s| && forall i :: 0 <= i < NameEnd(s) ==> NameChar(s[i])
  {
    if s != "" { NameEndChars(s[1..]); }
  }

  // And nothing else is one: comments, blank lines and shell syntax stay inert.
  lemma OnlyAssignmentsParse(line: string) returns (raw: string)
    requires Parse(line).Some?
    ensures var a := Parse(line).value;
            Strip(line) == a.name + ("=" + raw) && Word(a.name) && '\n' !in raw && a.value == Unquote(Strip(raw))
  {
    var c := Strip(line);
    var k := NameEnd(c);
    NameEndChars(c);
    hide Strip, Unquote;
    raw := c[k + 1..];
    assert c == c[..k] + ("=" + raw);
    assert c[..k][0] == c[0];
  }

  // A pair of equal quotes around a text is dropped, and nothing else.
  lemma UnquoteIs(v: string, w: string)
    ensures Unquote("'" + w + "'") == w && Unquote("\"" + w + "\"") == w
    ensures Unquote(v) != v ==> v == "'" + Unquote(v) + "'" || v == "\"" + Unquote(v) + "\""
  {
    assert ("'" + w + "'")[1..|w| + 1] == w && ("\"" + w + "\"")[1..|w| + 1] == w;
  }

  // ---- which values are accepted ----

  // The check on terminal input: the stripped text, or None for the error.
  function Normalized(input: string): Option<string> {
    var v := Strip(input);
    if v == "" || exists c :: c in v && (c as int < 32 || c as int == 127) then None else Some(v)
  }

  // The safe values are exactly those that the check lets through, and it lets these through as they are.
  lemma SafeIffNormalized(v: string)
    ensures SafeValue(v) <==> Normalized(v) == Some(v)
    ensures Normalized(v).Some? ==> SafeValue(Normalized(v).value)
  {
    var left, right := StripSplits(v);
    if SafeValue(v) { CleanIsStripped(v); }
    hide Strip;
  }

  // ---- the value read for one name ----

  function Read(lines: seq<string>, name: string): Option<string> {
    if lines == [] then None
    else
      var a := Parse(lines[|lines| - 1]);
      if a.Some? && a.value.name == name then Some(a.value.value) else Read(lines[..|lines| - 1], name)
  }

  lemma {:induction false} ReadIsValue(lines: seq<string>, name: string)
    ensures Read(lines, name) == if name in Values(lines) then Some(Values(lines)[name]) else None
  {
    hide Parse;
    if lines != [] { ReadIsValue(lines[..|lines| - 1], name); }
  }

  lemma {:induction false} ReadAppend(a: seq<string>, b: seq<string>, name: string)
    ensures Read(a + b, name) == if Read(b, name).Some? then Read(b, name) else Read(a, name)
  {
    hide Parse;
    if b == [] {
      assert a + b == a;
    } else {
      assert (a + b)[..|a + b| - 1] == a + b[..|b| - 1] && (a + b)[|a + b| - 1] == b[|b| - 1];
      ReadAppend(a, b[..|b| - 1], name);
    }
  }

  lemma {:induction false} ReadAssigned(lines: seq<string>, name: string)
    ensures Read(lines, name).Some? <==> Assigns(lines, name)
  {
    hide Parse;
    if lines != [] {
      ReadAssigned(lines[..|lines| - 1], name);
      AssignsOneMore(lines, |lines| - 1);
      assert lines[..|lines|] == lines;
    }
  }

  lemma {:induction false} ReadIsSomeLine(lines: seq<string>, name: string)
    requires Read(lines, name).Some?
    ensures exists i :: 0 <= i < |lines| && Parse(lines[i]) == Some(Assignment(name, Read(lines, name).value))
  {
    hide Parse;
    var line := lines[|lines| - 1];
    if Parse(line).Some? && Parse(line).value.name == name {
      assert Parse(line) == Some(Assignment(name, Read(lines, name).value));
    } else {
      ReadIsSomeLine(lines[..|lines| - 1], name);
      var i :| 0 <= i < |lines| - 1 && Parse(lines[..|lines| - 1][i]) == Some(Assignment(name, Read(lines, name).value));
      assert Parse(lines[i]) == Some(Assignment(name, Read(lines, name).value));
    }
  }

  // ---- one assignment per selected name ----

  function Count(lines: seq<string>, name: string): nat {
    if lines == [] then 0
    else
      var a := Parse(lines[|lines| - 1]);
      Count(lines[..|lines| - 1], name) + if a.Some? && a.value.name == name then 1 else 0
  }

  lemma {:induction false} CountAppend(a: seq<string>, b: seq<string>, name: string)
    ensures Count(a + b, name) == Count(a, name) + Count(b, name)
  {
    hide Parse;
    if b == [] {
      assert a + b == a;
    } else {
      assert (a + b)[..|a + b| - 1] == a + b[..|b| - 1] && (a + b)[|a + b| - 1] == b[|b| - 1];
      CountAppend(a, b[..|b| - 1], name);
    }
  }

  lemma {:induction false} CountAssigned(lines: seq<string>, name: string)
    ensures Count(lines, name) > 0 <==> Assigns(lines, name)
  {
    hide Parse;
    if lines != [] {
      CountAssigned(lines[..|lines| - 1], name);
      AssignsOneMore(lines, |lines| - 1);
      assert lines[..|lines|] == lines;
    }
  }

  lemma ValueOfReady(settings: Settings, name: string)
    requires Ready(settings) && Selects(settings, name)
    ensures IsName(name) && SafeValue(ValueOf(settings, name))
  {
    if settings[0].name != name {
      assert Selects(settings[1..], name) by {
        var i :| 0 <= i < |settings| && settings[i].name == name;
        assert settings[1..][i - 1].name == name;
      }
      ValueOfReady(settings[1..], name);
    }
  }

  lemma {:induction false} ValueOfIs(settings: Settings, i: nat)
    requires DistinctNames(settings) && i < |settings|
    ensures Selects(settings, settings[i].name) && ValueOf(settings, settings[i].name) == settings[i].value
  {
    if i > 0 {
      assert settings[1..][i - 1] == settings[i];
      ValueOfIs(settings[1..], i - 1);
    }
  }

  lemma {:induction false} ReplacedReads(lines: seq<string>, settings: Settings, name: string)
    requires Ready(settings)
    ensures var out := Replaced(lines, settings);
            if Selects(settings, name) then
              Read(out, name) == (if Assigns(lines, name) then Some(Unquote(ValueOf(settings, name))) else None)
              && Count(out, name) == (if Assigns(lines, name) then 1 else 0)
            else Read(out, name) == Read(lines, name)
  {
    hide Parse, Line, IsName, SafeValue, Unquote, Ready;
    if lines != [] {
      var front, line := lines[..|lines| - 1], lines[|lines| - 1];
      ReplacedReads(front, settings, name);
      AssignsOneMore(lines, |front|);
      assert lines[..|lines|] == lines;
      if AssignsSelected(line, settings) {
        var other := Parse(line).value.name;
        ValueOfReady(settings, other);
        LineParses(other, ValueOf(settings, other));
      }
    }
  }

  lemma {:induction false} MissingReads(lines: seq<string>, settings: Settings, name: string)
    requires Ready(settings)
    ensures var out := Missing(lines, settings);
            if Selects(settings, name) && !Assigns(lines, name) then
              Read(out, name) == Some(Unquote(ValueOf(settings, name))) && Count(out, name) == 1
            else Read(out, name) == None && Count(out, name) == 0
  {
    if settings != [] {
      var front, s := settings[..|settings| - 1], settings[|settings| - 1];
      assert Ready(front);
      MissingReads(lines, front, name);
      LineParses(s.name, s.value);
      hide Parse, Line, IsName, SafeValue, Unquote, Assigns;
      SelectsFront(settings, name);
    }
  }

  lemma SelectsFront(settings: Settings, name: string)
    requires settings != [] && DistinctNames(settings)
    ensures var front, s := settings[..|settings| - 1], settings[|settings| - 1];
            && (Selects(settings, name) <==> Selects(front, name) || s.name == name)
            && !(Selects(front, name) && s.name == name)
            && (Selects(front, name) ==> ValueOf(front, name) == ValueOf(settings, name))
            && (s.name == name ==> ValueOf(settings, name) == s.value)
  {
    var front, s := settings[..|settings| - 1], settings[|settings| - 1];
    ValueOfIs(settings, |settings| - 1);
    if Selects(front, name) {
      var i :| 0 <= i < |front| && front[i].name == name;
      ValueOfIs(front, i);
      ValueOfIs(settings, i);
      assert settings[i] == front[i];
    }
    if Selects(settings, name) && s.name != name {
      var i :| 0 <= i < |settings| && settings[i].name == name;
      assert front[i].name == name;
    }
  }

  lemma EndedReads(lines: seq<string>, name: string)
    ensures Read(Ended(lines), name) == Read(lines, name) && Count(Ended(lines), name) == Count(lines, name)
  {
    if lines != [] {
      ParseIgnoresNewline(lines[|lines| - 1]);
      hide Parse;
      var e := Ended(lines);
      assert e[..|e| - 1] == lines[..|lines| - 1];
    }
  }

  // After a merge every selected name reads as its saved value, less a pair of wrapping quotes, from
  // its only assignment; every other name reads as before.
  lemma MergeReads(lines: seq<string>, settings: Settings, name: string)
    requires Ready(settings)
    ensures var out := Merged(lines, settings);
            if Selects(settings, name) then Read(out, name) == Some(Unquote(ValueOf(settings, name))) && Count(out, name) == 1
            else Read(out, name) == Read(lines, name)
  {
    hide Parse, Ready, Unquote, ValueOf;
    ReplacedReads(lines, settings, name);
    MissingReads(lines, settings, name);
    EndedReads(Replaced(lines, settings), name);
    ReadAppend(Ended(Replaced(lines, settings)), Missing(lines, settings), name);
    CountAppend(Ended(Replaced(lines, settings)), Missing(lines, settings), name);
  }

  // ---- the other lines ----

  function Others(lines: seq<string>, settings: Settings): seq<string> {
    if lines == [] then []
    else
      var rest, line := Others(lines[..|lines| - 1], settings), lines[|lines| - 1];
      if AssignsSelected(line, settings) then rest else rest + [line]
  }

  lemma {:induction false} OthersAppend(a: seq<string>, b: seq<string>, settings: Settings)
    ensures Others(a + b, settings) == Others(a, settings) + Others(b, settings)
  {
    hide AssignsSelected;
    if b == [] {
      assert a + b == a;
    } else {
      assert (a + b)[..|a + b| - 1] == a + b[..|b| - 1] && (a + b)[|a + b| - 1] == b[|b| - 1];
      OthersAppend(a, b[..|b| - 1], settings);
    }
  }

  lemma {:induction false} ReplacedOthers(lines: seq<string>, settings: Settings)
    requires Ready(settings)
    ensures Others(Replaced(lines, settings), settings) == Others(lines, settings)
  {
    hide Parse, Line, Ready;
    if lines != [] {
      ReplacedOthers(lines[..|lines| - 1], settings);
      var line := lines[|lines| - 1];
      if AssignsSelected(line, settings) {
        var name := Parse(line).value.name;
        ValueOfReady(settings, name);
        LineParses(name, ValueOf(settings, name));
      }
    }
  }

  lemma {:induction false} MissingOthers(lines: seq<string>, settings: Settings, all: Settings)
    requires Ready(all) && |settings| <= |all| && settings == all[..|settings|]
    ensures Others(Missing(lines, settings), all) == []
  {
    if settings != [] {
      var s := settings[|settings| - 1];
      MissingOthers(lines, settings[..|settings| - 1], all);
      assert s == all[|settings| - 1];
      LineParses(s.name, s.value);
    }
  }

  // Every line that does not assign a selected name is kept, in order, up to a final newline.
  lemma MergeKeepsOthers(lines: seq<string>, settings: Settings)
    requires Ready(settings)
    ensures var kept := Others(Merged(lines, settings), settings); var before := Others(lines, settings);
            kept == before || kept == Ended(before)
  {
    hide Parse, Line, Ready, Ended;
    var r := Replaced(lines, settings);
    ReplacedOthers(lines, settings);
    assert settings[..|settings|] == settings;
    MissingOthers(lines, settings, settings);
    OthersAppend(Ended(r), Missing(lines, settings), settings);
    EndedOthers(r, settings);
  }

  lemma EndedOthers(r: seq<string>, settings: Settings)
    ensures var kept := Others(Ended(r), settings); kept == Others(r, settings) || kept == Ended(Others(r, settings))
  {
    if r != [] {
      var front, line := r[..|r| - 1], r[|r| - 1];
      ParseIgnoresNewline(line);
      hide Parse;
      if Ended(r) != r {
        assert Ended(r)[..|r| - 1] == front && Ended(r)[|r| - 1] == line + "\n";
        assert AssignsSelected(line + "\n", settings) <==> AssignsSelected(line, settings);
        if !AssignsSelected(line, settings) {
          var others := Others(r, settings);
          assert others[|others| - 1] == line && others[..|others| - 1] == Others(front, settings);
        }
      }
    }
  }
}
