/** The dotenv file as text: saving joins the merged lines, and a later read splits them again, at
    more characters than the line feeds that were written. */
module DotenvText {
  import opened Dotenv

  // ---- str.splitlines(keepends=True), after newline translation: there are no carriage returns ----

  predicate Break(c: char) {
    c == '\n' || c == '\U{000B}' || c == '\U{000C}' || '\U{001C}' <= c <= '\U{001E}' || c == '\U{0085}'
    || c == '\U{2028}' || c == '\U{2029}'
  }

  predicate NoBreak(s: string) { forall c :: c in s ==> !Break(c) }

  // The length of the first line, its break included.
  function FirstLine(t: string): (k: nat)
    ensures k <= |t| && (t != "" ==> k > 0)
  {
    if t == "" then 0 else if Break(t[0]) then 1 else 1 + FirstLine(t[1..])
  }

  function Lines(t: string): seq<string> {
    if t == "" then [] else [t[..FirstLine(t)]] + Lines(t[FirstLine(t)..])
  }

  function Join(lines: seq<string>): string {
    if lines == [] then "" else Join(lines[..|lines| - 1]) + lines[|lines| - 1]
  }

  // Save: read, merge, write. The old file is replaced in one step.
  function Save(t: string, settings: Settings): string { Join(Merged(Lines(t), settings)) }

  // The code points at which str.splitlines breaks, but for the carriage return.
  lemma BreaksAre(c: char)
    ensures Break(c) <==> c as int in {0x0A, 0x0B, 0x0C, 0x1C, 0x1D, 0x1E, 0x85, 0x2028, 0x2029}
  {}

  // ---- splitting and joining ----

  lemma {:induction false} JoinAppend(a: seq<string>, b: seq<string>)
    ensures Join(a + b) == Join(a) + Join(b)
  {
    if b == [] {
      assert a + b == a;
    } else {
      assert (a + b)[..|a + b| - 1] == a + b[..|b| - 1] && (a + b)[|a + b| - 1] == b[|b| - 1];
      JoinAppend(a, b[..|b| - 1]);
    }
  }

  lemma {:induction false} JoinLines(t: string)
    ensures Join(Lines(t)) == t
  {
    if t != "" {
      var first, rest := t[..FirstLine(t)], t[FirstLine(t)..];
      JoinLines(rest);
      JoinAppend([first], Lines(rest));
      assert Join([first]) == first;
    }
  }

  // A whole line: a break at its end, and none before.
  predicate Whole(s: string) { s != "" && Break(s[|s| - 1]) && NoBreak(s[..|s| - 1]) }

  predicate Terminated(s: string) { s != "" && Break(s[|s| - 1]) }

  lemma {:induction false} FirstLineIs(s: string, rest: string)
    requires Terminated(s)
    ensures FirstLine(s + rest) == FirstLine(s)
  {
    assert (s + rest)[0] == s[0];
    if !Break(s[0]) {
      assert (s + rest)[1..] == s[1..] + rest;
      FirstLineIs(s[1..], rest);
    }
  }

  lemma {:induction false} LinesAppend(a: string, b: string)
    requires a == "" || Terminated(a)
    ensures Lines(a + b) == Lines(a) + Lines(b)
    decreases |a|
  {
    if a == "" {
      assert a + b == b && Lines(a) == [];
    } else {
      FirstLineIs(a, b);
      RestTerminated(a);
      LinesStep(a);
      LinesStep(a + b);
      hide Break, FirstLine, Terminated, Lines;
      var k := FirstLine(a);
      SliceSum(a, b, k);
      LinesAppend(a[k..], b);
      SumsAssociate([a[..k]], Lines(a[k..]), Lines(b));
    }
  }

  lemma LinesStep(t: string)
    requires t != ""
    ensures Lines(t) == [t[..FirstLine(t)]] + Lines(t[FirstLine(t)..])
  {}

  lemma SliceSum(a: string, b: string, k: nat)
    requires k <= |a|
    ensures (a + b)[..k] == a[..k] && (a + b)[k..] == a[k..] + b
  {}

  lemma SumsAssociate(a: seq<string>, b: seq<string>, c: seq<string>)
    ensures a + (b + c) == (a + b) + c
  {}

  lemma RestTerminated(a: string)
    requires Terminated(a)
    ensures a[FirstLine(a)..] == "" || Terminated(a[FirstLine(a)..])
  {
    var k := FirstLine(a);
    if k < |a| { assert a[k..][|a[k..]| - 1] == a[|a| - 1]; }
  }

  lemma {:induction false} FirstLineShape(t: string)
    requires t != ""
    ensures var first := t[..FirstLine(t)]; Whole(first) || (NoBreak(first) && FirstLine(t) == |t|)
  {
    if !Break(t[0]) {
      if t[1..] == "" {
        assert t == [t[0]];
      } else {
        FirstLineShape(t[1..]);
        var first, tail := t[..FirstLine(t)], t[1..][..FirstLine(t[1..])];
        assert first == [t[0]] + tail;
        assert Whole(tail) ==> first[..|first| - 1] == [t[0]] + tail[..|tail| - 1];
      }
    } else {
      assert t[..1] == [t[0]];
    }
  }

  // Every line of a text is whole, or the last one and without a break.
  lemma {:induction false} LinesShape(t: string, i: nat)
    requires i < |Lines(t)|
    ensures Lines(t)[i] != "" && (Whole(Lines(t)[i]) || (NoBreak(Lines(t)[i]) && i == |Lines(t)| - 1))
  {
    FirstLineShape(t);
    if i > 0 { LinesShape(t[FirstLine(t)..], i - 1); }
  }

  lemma {:induction false} WholeFirstLine(s: string)
    requires s != "" && (Whole(s) || NoBreak(s))
    ensures FirstLine(s) == |s|
  {
    assert |s| > 1 ==> s[..|s| - 1][0] == s[0];
    if !Break(s[0]) {
      if |s| > 1 {
        if Whole(s) { assert s[1..][..|s| - 2] == s[..|s| - 1][1..]; }
        WholeFirstLine(s[1..]);
      }
    }
  }

  lemma WholeIsOneLine(s: string)
    requires s != "" && (Whole(s) || NoBreak(s))
    ensures Lines(s) == [s]
  {
    WholeFirstLine(s);
    assert s[..|s|] == s && s[|s|..] == "" && Lines("") == [];
  }

  function Flat(lines: seq<string>): seq<string> {
    if lines == [] then [] else Flat(lines[..|lines| - 1]) + Lines(lines[|lines| - 1])
  }

  lemma {:induction false} LinesOfJoin(lines: seq<string>)
    requires forall i :: 0 <= i < |lines| ==> Terminated(lines[i])
    ensures Lines(Join(lines)) == Flat(lines)
    ensures Join(lines) == "" || Terminated(Join(lines))
  {
    if lines != [] {
      LinesOfJoin(lines[..|lines| - 1]);
      LinesAppend(Join(lines[..|lines| - 1]), lines[|lines| - 1]);
      var t := Join(lines);
      assert t[|t| - 1] == lines[|lines| - 1][|lines[|lines| - 1]| - 1];
    }
  }

  lemma {:induction false} FlatOfSingles(lines: seq<string>)
    requires forall i :: 0 <= i < |lines| ==> Lines(lines[i]) == [lines[i]]
    ensures Flat(lines) == lines
  {
    if lines != [] { FlatOfSingles(lines[..|lines| - 1]); }
  }

  lemma {:induction false} FlatAppend(a: seq<string>, b: seq<string>)
    ensures Flat(a + b) == Flat(a) + Flat(b)
  {
    if b == [] {
      assert a + b == a;
    } else {
      assert (a + b)[..|a + b| - 1] == a + b[..|b| - 1] && (a + b)[|a + b| - 1] == b[|b| - 1];
      FlatAppend(a, b[..|b| - 1]);
    }
  }
}
