/** Saving settings into a dotenv file: the merge of assignment lines, and what a later read returns. */
module Dotenv {
  import opened Records
  import opened Texts

  // ---- reading one line ----

  predicate NameChar(c: char) { 'A' <= c <= 'Z' || 'a' <= c <= 'z' || c == '_' || IsDigit(c) }

  function NameEnd(s: string): nat { if s == "" || !NameChar(s[0]) then 0 else 1 + NameEnd(s[1..]) }

  predicate Wrapped(v: string) { |v| >= 2 && v[0] == v[|v| - 1] && (v[0] == '\'' || v[0] == '"') }

  function Unquote(v: string): string { if Wrapped(v) then v[1..|v| - 1] else v }

  datatype Assignment = Assignment(name: string, value: string)

  // [A-Za-z_][A-Za-z0-9_]* = anything on one line; comments and everything else are inert.
  function Parse(line: string): (r: Option<Assignment>)
    ensures r.Some? ==> r.value.name != "" && |r.value.name| + 1 + |r.value.value| <= |Strip(line)|
  {
    var c := Strip(line);
    var k := NameEnd(c);
    NameEndIs(c);
    if c == "" || c[0] == '#' || k == 0 || IsDigit(c[0]) || k == |c| || c[k] != '=' || '\n' in c[k + 1..] then None
    else
      StripShortens(c[k + 1..]);
      Some(Assignment(c[..k], Unquote(Strip(c[k + 1..]))))
  }

  lemma {:induction false} NameEndIs(s: string)
    ensures NameEnd(s) <= |s|
  {
    if s != "" { NameEndIs(s[1..]); }
  }

  // ---- reading lines ----

  function Values(lines: seq<string>): map<string, string> {
    if lines == [] then map[]
    else
      var before, a := Values(lines[..|lines| - 1]), Parse(lines[|lines| - 1]);
      if a.Some? then before[a.value.name := a.value.value] else before
  }

  method ReadEnv(lines: seq<string>) returns (values: map<string, string>)
    ensures values == Values(lines)
  {
    values := map[];
    var n := 0;
    while n < |lines|
      invariant 0 <= n <= |lines|
      invariant values == Values(lines[..n])
    {
      assert lines[..n + 1][..n] == lines[..n];
      var a := Parse(lines[n]);
      if a.Some? { values := values[a.value.name := a.value.value]; }
      n := n + 1;
    }
    assert lines[..n] == lines;
  }

  // ---- merging ----

  // The replacement mapping, in its own order.
  type Settings = seq<Assignment>

  predicate DistinctNames(settings: Settings) {
    forall i, j :: 0 <= i < j < |settings| ==> settings[i].name != settings[j].name
  }

  predicate Selects(settings: Settings, name: string) { exists i :: 0 <= i < |settings| && settings[i].name == name }

  function ValueOf(settings: Settings, name: string): string
    requires Selects(settings, name)
  {
    if settings[0].name == name then settings[0].value else ValueOf(settings[1..], name)
  }

  function Line(name: string, value: string): string { name + "=" + value + "\n" }

  // The selected name that a line assigns, if any.
  predicate AssignsSelected(line: string, settings: Settings) {
    Parse(line).Some? && Selects(settings, Parse(line).value.name)
  }

  predicate Assigns(lines: seq<string>, name: string) {
    exists i :: 0 <= i < |lines| && Parse(lines[i]).Some? && Parse(lines[i]).value.name == name
  }

  // The first assignment of a selected name is replaced, later ones are dropped.
  function Replaced(lines: seq<string>, settings: Settings): seq<string> {
    if lines == [] then []
    else
      var front, line := lines[..|lines| - 1], lines[|lines| - 1];
      if !AssignsSelected(line, settings) then Replaced(front, settings) + [line]
      else
        var name := Parse(line).value.name;
        if Assigns(front, name) then Replaced(front, settings)
        else Replaced(front, settings) + [Line(name, ValueOf(settings, name))]
  }

  function Ended(lines: seq<string>): seq<string> {
    if lines == [] then lines
    else
      var line := lines[|lines| - 1];
      if line != "" && line[|line| - 1] == '\n' then lines else lines[..|lines| - 1] + [line + "\n"]
  }

  function Missing(lines: seq<string>, settings: Settings): seq<string> {
    if settings == [] then []
    else
      var rest, s := Missing(lines, settings[..|settings| - 1]), settings[|settings| - 1];
      if Assigns(lines, s.name) then rest else rest + [Line(s.name, s.value)]
  }

  function Merged(lines: seq<string>, settings: Settings): seq<string> {
    Ended(Replaced(lines, settings)) + Missing(lines, settings)
  }

  method ReplaceLines(lines: seq<string>, settings: Settings) returns (output: seq<string>, replaced: set<string>)
    ensures output == Replaced(lines, settings)
    ensures forall name :: name in replaced <==> Selects(settings, name) && Assigns(lines, name)
  {
    hide Parse, Line, ValueOf, Selects, Assigns;
    output, replaced := [], {};
    NothingAssigns();
    var n := 0;
    while n < |lines|
      invariant 0 <= n <= |lines|
      invariant output == Replaced(lines[..n], settings)
      invariant forall name :: name in replaced <==> Selects(settings, name) && Assigns(lines[..n], name)
    {
      assert lines[..n + 1][..n] == lines[..n] && lines[..n + 1][n] == lines[n];
      AssignsOneMore(lines, n);
      var a := Parse(lines[n]);
      if a.None? || !Selects(settings, a.value.name) {
        output := output + [lines[n]];
      } else if a.value.name !in replaced {
        output := output + [Line(a.value.name, ValueOf(settings, a.value.name))];
        replaced := replaced + {a.value.name};
      }
      n := n + 1;
    }
    assert lines[..n] == lines;
  }

  lemma NothingAssigns()
    ensures forall name :: !Assigns([], name)
  {}

  method MergeLines(lines: seq<string>, settings: Settings) returns (output: seq<string>)
    ensures output == Merged(lines, settings)
  {
    hide Parse, Line, Replaced, Assigns, Missing;
    var replaced;
    output, replaced := ReplaceLines(lines, settings);
    NothingMissing(lines);
    if output != [] {
      var last := output[|output| - 1];
      if last == "" || last[|last| - 1] != '\n' { output := output[..|output| - 1] + [last + "\n"]; }
    }
    assert output == Ended(Replaced(lines, settings));
    var n := 0;
    while n < |settings|
      invariant 0 <= n <= |settings|
      invariant output == Ended(Replaced(lines, settings)) + Missing(lines, settings[..n])
    {
      MissingOneMore(lines, settings, n);
      if settings[n].name !in replaced { output := output + [Line(settings[n].name, settings[n].value)]; }
      n := n + 1;
    }
    assert settings[..n] == settings;
  }

  lemma NothingMissing(lines: seq<string>)
    ensures Missing(lines, []) == []
  {}

  lemma MissingOneMore(lines: seq<string>, settings: Settings, n: nat)
    requires n < |settings|
    ensures Selects(settings, settings[n].name)
    ensures Missing(lines, settings[..n + 1]) ==
      Missing(lines, settings[..n]) + if Assigns(lines, settings[n].name) then [] else [Line(settings[n].name, settings[n].value)]
  {
    assert settings[..n + 1][..n] == settings[..n];
  }

  lemma AssignsOneMore(lines: seq<string>, n: nat)
    requires n < |lines|
    ensures forall name :: Assigns(lines[..n + 1], name) <==>
              Assigns(lines[..n], name) || (Parse(lines[n]).Some? && Parse(lines[n]).value.name == name)
  {
    forall name | Assigns(lines[..n], name) ensures Assigns(lines[..n + 1], name) {
      var i :| 0 <= i < n && Parse(lines[..n][i]).Some? && Parse(lines[..n][i]).value.name == name;
      assert lines[..n + 1][i] == lines[..n][i];
    }
    assert lines[..n + 1][n] == lines[n];
    forall name | Assigns(lines[..n + 1], name)
      ensures Assigns(lines[..n], name) || (Parse(lines[n]).Some? && Parse(lines[n]).value.name == name)
    {
      var i :| 0 <= i < n + 1 && Parse(lines[..n + 1][i]).Some? && Parse(lines[..n + 1][i]).value.name == name;
      if i < n { assert lines[..n][i] == lines[..n + 1][i]; }
    }
  }
}
