/** Saving the same settings again: never a change line by line, and a change of the text exactly if
    a value falls apart into a line that does not assign its own name. */
module DotenvAgain {
  import opened Records
  import opened Texts
  import opened Dotenv
  import opened DotenvRuns
  import opened DotenvText
  import opened DotenvRoundTrip
  import opened DotenvExact
  import opened DotenvEverywhere

  // ---- line by line ----

  // A line that a save did not write stays inert when its newline is added.
  lemma EndedIsLiteral(r: seq<string>, settings: Settings)
    requires LiteralLines(r, settings)
    ensures LiteralLines(Ended(r), settings)
  {
    if r != [] {
      var last := r[|r| - 1];
      assert Literal(last, settings);
      LastStaysLiteral(last, settings);
      hide Literal;
      assert forall i :: 0 <= i < |r| - 1 ==> Ended(r)[i] == r[i];
      assert forall i :: 0 <= i < |r| - 1 ==> Literal(r[i], settings);
    }
  }

  lemma LastStaysLiteral(last: string, settings: Settings)
    requires Literal(last, settings)
    ensures last == "" || last[|last| - 1] != '\n' ==> Literal(last + "\n", settings)
  {
    ParseIgnoresNewline(last);
    hide Parse, ValueOf;
    if AssignsSelected(last, settings) { WrittenEnds(Parse(last).value.name, ValueOf(settings, Parse(last).value.name)); }
  }

  lemma EndedTwice(r: seq<string>)
    ensures Ended(Ended(r)) == Ended(r)
  {}

  lemma MergedIsSettled(lines: seq<string>, settings: Settings)
    requires Ready(settings)
    ensures Settled(Merged(lines, settings), settings)
  {
    var r, m := Replaced(lines, settings), Missing(lines, settings);
    assert settings[..|settings|] == settings;
    hide Parse, Ready, ValueOf, Literal, Replaced, Missing, Count, Ended;
    forall i | 0 <= i < |settings| ensures Count(Merged(lines, settings), settings[i].name) == 1 {
      assert Selects(settings, settings[i].name);
      MergeReads(lines, settings, settings[i].name);
    }
    ReplacedIsLiteral(lines, settings);
    EndedIsLiteral(r, settings);
    MissingIsLiteral(lines, settings, settings);
    MissingEnds(lines, settings);
    EndedTwice(r);
    SumIsEnded(Ended(r), m);
  }

  // Merging again changes no line, whatever the values hold.
  lemma MergeIsIdempotent(lines: seq<string>, settings: Settings)
    requires Ready(settings)
    ensures Merged(Merged(lines, settings), settings) == Merged(lines, settings)
  {
    MergedIsSettled(lines, settings);
    SettledIsFixed(Merged(lines, settings), settings);
  }

  // ---- but a later read splits the text ----

  // Every further line that a written assignment falls apart into assigns the same name, so that a
  // second save drops it.
  predicate Reunites(s: Assignment) {
    var pieces := Lines(Line(s.name, s.value));
    forall k :: 1 <= k < |pieces| ==> AssignsName(pieces[k], s.name)
  }

  predicate AllReunite(settings: Settings) { forall i :: 0 <= i < |settings| ==> Reunites(settings[i]) }

  // ---- one block of lines after another ----

  lemma AssignsSnoc(a: seq<string>, line: string, name: string)
    ensures Assigns(a + [line], name) <==> Assigns(a, name) || AssignsName(line, name)
  {
    AssignsOneMore(a + [line], |a|);
    assert (a + [line])[..|a|] == a && (a + [line])[..|a| + 1] == a + [line] && (a + [line])[|a|] == line;
    hide Parse, Assigns;
  }

  lemma ReplacedSnoc(a: seq<string>, line: string, settings: Settings)
    ensures Replaced(a + [line], settings) ==
      if !AssignsSelected(line, settings) then Replaced(a, settings) + [line]
      else if Assigns(a, Parse(line).value.name) then Replaced(a, settings)
      else Replaced(a, settings) + [Line(Parse(line).value.name, ValueOf(settings, Parse(line).value.name))]
  {
    hide Parse, Assigns, Line, ValueOf, Selects;
    assert (a + [line])[..|a|] == a && (a + [line])[|a|] == line;
  }

  lemma SnocOf(a: seq<string>, b: seq<string>)
    requires b != []
    ensures a + b == (a + b[..|b| - 1]) + [b[|b| - 1]]
  {}

  lemma Plus(a: seq<string>, b: seq<string>)
    ensures b == [] ==> a + b == a
    ensures b != [] ==> a + b == (a + b[..|b| - 1]) + [b[|b| - 1]]
  {}

  predicate Inert(lines: seq<string>, settings: Settings) {
    forall i :: 0 <= i < |lines| ==> !AssignsSelected(lines[i], settings)
  }

  // Lines that assign no saved name are kept as they are.
  lemma {:induction false} InertBlock(a: seq<string>, b: seq<string>, settings: Settings)
    requires Inert(b, settings)
    ensures Replaced(a + b, settings) == Replaced(a, settings) + b
    ensures forall name :: Selects(settings, name) ==> (Assigns(a + b, name) <==> Assigns(a, name))
  {
    hide Parse, Assigns, Selects, Replaced;
    Plus(a, b);
    Plus(Replaced(a, settings), b);
    if b != [] {
      var front, line := b[..|b| - 1], b[|b| - 1];
      InertBlock(a, front, settings);
      ReplacedSnoc(a + front, line, settings);
      forall name | Selects(settings, name) ensures Assigns(a + b, name) <==> Assigns(a, name) {
        AssignsSnoc(a + front, line, name);
      }
    }
  }

  predicate AllAssign(lines: seq<string>, name: string) { forall i :: 0 <= i < |lines| ==> AssignsName(lines[i], name) }

  // Lines that all assign one saved name, not assigned before, become its one assignment.
  lemma {:induction false} NamedBlock(a: seq<string>, b: seq<string>, settings: Settings, name: string)
    requires Selects(settings, name) && AllAssign(b, name) && b != [] && !Assigns(a, name)
    ensures Replaced(a + b, settings) == Replaced(a, settings) + [Line(name, ValueOf(settings, name))]
    ensures forall other :: Assigns(a + b, other) <==> Assigns(a, other) || other == name
  {
    hide Parse, Assigns, Selects, Replaced, Line, ValueOf;
    Plus(a, b);
    var front, line := b[..|b| - 1], b[|b| - 1];
    assert AssignsName(line, name) && AllAssign(front, name);
    ReplacedSnoc(a + front, line, settings);
    forall other ensures Assigns(a + b, other) <==> Assigns(a + front, other) || AssignsName(line, other) {
      AssignsSnoc(a + front, line, other);
    }
    if front == [] {
      assert a + front == a;
    } else {
      NamedBlock(a, front, settings, name);
    }
  }

  // ---- enough ----

  // A line of a merge, and what a later read makes of it: one assignment that a save wrote, in pieces
  // that reunite, or lines that assign no saved name.
  predicate Block(e: string, settings: Settings) {
    (exists i :: 0 <= i < |settings| && e == Line(settings[i].name, settings[i].value))
    || (Inert(Lines(e), settings) && !AssignsSelected(e, settings))
  }

  lemma {:induction false} BlocksReunite(x: seq<string>, settings: Settings)
    requires Ready(settings) && AllReunite(settings)
    requires forall k :: 0 <= k < |x| ==> Block(x[k], settings)
    requires forall i :: 0 <= i < |settings| ==> Count(x, settings[i].name) <= 1
    ensures Join(Replaced(Flat(x), settings)) == Join(x)
    ensures forall i :: 0 <= i < |settings| ==> (Assigns(Flat(x), settings[i].name) <==> Count(x, settings[i].name) == 1)
  {
    hide Parse, Line, Lines, Ready, ValueOf, Replaced, Assigns, Reunites, Flat;
    if x == [] {
      FlatOfNothing();
      NothingAssigns();
      NothingReplacedOf(settings);
    } else {
      var front, e := x[..|x| - 1], x[|x| - 1];
      assert x == front + [e] && Block(e, settings);
      CountsBelow(front, e, settings);
      BlocksReunite(front, settings);
      FlatSnoc(front, e);
      if i :| 0 <= i < |settings| && e == Line(settings[i].name, settings[i].value) {
        WrittenBlock(front, settings, i);
      } else {
        InertBlockJoins(front, e, settings);
      }
    }
  }

  lemma NothingReplacedOf(settings: Settings)
    ensures Replaced([], settings) == []
  {}

  lemma CountSnoc(a: seq<string>, e: string, name: string)
    ensures Count(a + [e], name) == Count(a, name) + if AssignsName(e, name) then 1 else 0
  {
    hide Parse;
    assert (a + [e])[..|a|] == a;
  }

  lemma CountsBelow(a: seq<string>, e: string, settings: Settings)
    requires forall i :: 0 <= i < |settings| ==> Count(a + [e], settings[i].name) <= 1
    ensures forall i :: 0 <= i < |settings| ==> Count(a, settings[i].name) <= 1
  {
    hide Count, AssignsName;
    forall i | 0 <= i < |settings| ensures Count(a, settings[i].name) <= 1 { CountSnoc(a, e, settings[i].name); }
  }

  lemma JoinSnoc(a: seq<string>, e: string)
    ensures Join(a + [e]) == Join(a) + e
  {
    assert (a + [e])[..|a|] == a;
  }

  // The pieces of a written assignment.
  lemma PiecesAssign(s: Assignment)
    requires IsName(s.name) && SafeValue(s.value)
    ensures Lines(Line(s.name, s.value)) != [] && AssignsName(Lines(Line(s.name, s.value))[0], s.name)
    ensures Reunites(s) ==> AllAssign(Lines(Line(s.name, s.value)), s.name)
  {
    FirstPieceAssigns(s.name, s.value);
    hide Parse, Lines;
  }

  lemma WrittenBlock(a: seq<string>, settings: Settings, i: nat)
    requires Ready(settings) && AllReunite(settings) && i < |settings|
    requires var e := Line(settings[i].name, settings[i].value); Count(a + [e], settings[i].name) <= 1
    requires Join(Replaced(Flat(a), settings)) == Join(a)
    requires forall j :: 0 <= j < |settings| ==> (Assigns(Flat(a), settings[j].name) <==> Count(a, settings[j].name) == 1)
    ensures var e := Line(settings[i].name, settings[i].value);
            && Join(Replaced(Flat(a) + Lines(e), settings)) == Join(a + [e])
            && forall j :: 0 <= j < |settings| ==> (Assigns(Flat(a) + Lines(e), settings[j].name) <==> Count(a + [e], settings[j].name) == 1)
  {
    var name := settings[i].name;
    var e := Line(name, settings[i].value);
    LineParses(name, settings[i].value);
    PiecesAssign(settings[i]);
    ReadyIsDistinct(settings);
    ValueOfIs(settings, i);
    assert Reunites(settings[i]);
    forall j | 0 <= j < |settings| ensures Count(a + [e], settings[j].name) == Count(a, settings[j].name) + if j == i then 1 else 0 {
      CountSnoc(a, e, settings[j].name);
      if j != i { assert settings[j].name != name; }
    }
    hide Parse, Lines, Line, Ready, ValueOf, Replaced, Assigns, Count, Reunites, Selects, Flat, AllReunite;
    NamedBlock(Flat(a), Lines(e), settings, name);
    JoinSnoc(Replaced(Flat(a), settings), e);
    JoinSnoc(a, e);
    forall j | 0 <= j < |settings|
      ensures Assigns(Flat(a) + Lines(e), settings[j].name) <==> Count(a + [e], settings[j].name) == 1 {
      assert (settings[j].name == name) <==> j == i;
    }
  }

  lemma InertBlockJoins(a: seq<string>, e: string, settings: Settings)
    requires Inert(Lines(e), settings) && !AssignsSelected(e, settings)
    requires Join(Replaced(Flat(a), settings)) == Join(a)
    requires forall j :: 0 <= j < |settings| ==> (Assigns(Flat(a), settings[j].name) <==> Count(a, settings[j].name) == 1)
    ensures Join(Replaced(Flat(a) + Lines(e), settings)) == Join(a + [e])
    ensures forall j :: 0 <= j < |settings| ==> (Assigns(Flat(a) + Lines(e), settings[j].name) <==> Count(a + [e], settings[j].name) == 1)
  {
    forall j | 0 <= j < |settings|
      ensures Selects(settings, settings[j].name) && Count(a + [e], settings[j].name) == Count(a, settings[j].name)
    {
      assert Selects(settings, settings[j].name);
      CountSnoc(a, e, settings[j].name);
    }
    hide Parse, Lines, Replaced, Assigns, Count, Inert, Selects, Flat;
    InertBlock(Flat(a), Lines(e), settings);
    JoinAppend(Replaced(Flat(a), settings), Lines(e));
    JoinLines(e);
    JoinSnoc(a, e);
  }

  lemma MergeIsBlocks(t: string, settings: Settings)
    requires Ready(settings)
    ensures forall k :: 0 <= k < |Merged(Lines(t), settings)| ==> Block(Merged(Lines(t), settings)[k], settings)
  {
    var x := Merged(Lines(t), settings);
    MergedIsSettled(Lines(t), settings);
    forall i | 0 <= i < |settings| ensures Pieces(x, settings[i].name, settings) { MergePieces(t, settings, settings[i].name); }
    hide Ready, Merged, Lines;
    forall k | 0 <= k < |x| ensures Block(x[k], settings) {
      assert Literal(x[k], settings);
      assert forall i :: 0 <= i < |settings| ==> Piece(x[k], settings[i].name, settings);
      PieceIsBlock(x[k], settings);
    }
  }

  lemma PieceIsBlock(e: string, settings: Settings)
    requires Literal(e, settings) && DistinctNames(settings)
    requires forall i :: 0 <= i < |settings| ==> Piece(e, settings[i].name, settings)
    ensures Block(e, settings)
  {
    LiteralIsWritten(e, settings);
    hide Parse, Lines, Line, IsWritten;
    if !IsWritten(e, settings) {
      forall k | 0 <= k < |Lines(e)| ensures !AssignsSelected(Lines(e)[k], settings) {
        forall i | 0 <= i < |settings| ensures Silent(Lines(e)[k], settings[i].name) {
          assert Piece(e, settings[i].name, settings);
        }
        SilentForAll(Lines(e)[k], settings);
      }
    } else {
      WrittenIsBlock(e, settings);
    }
  }

  lemma WrittenIsBlock(e: string, settings: Settings)
    requires IsWritten(e, settings)
    ensures Block(e, settings)
  {
    hide Lines, Line, Parse;
  }

  lemma SilentForAll(line: string, settings: Settings)
    requires forall i :: 0 <= i < |settings| ==> Silent(line, settings[i].name)
    ensures !AssignsSelected(line, settings)
  {
    hide Parse;
  }

  lemma LiteralIsWritten(e: string, settings: Settings)
    requires Literal(e, settings) && DistinctNames(settings)
    ensures AssignsSelected(e, settings) ==> IsWritten(e, settings)
  {
    hide Parse, Line;
    if AssignsSelected(e, settings) {
      var i :| 0 <= i < |settings| && settings[i].name == Parse(e).value.name;
      ValueOfIs(settings, i);
    }
  }

  lemma MergePieces(t: string, settings: Settings, name: string)
    requires Ready(settings) && Selects(settings, name)
    ensures Pieces(Merged(Lines(t), settings), name, settings)
  {
    TextLines(t);
    EndedPieces(Lines(t), settings, name);
    assert settings[..|settings|] == settings;
    MissingPieces(Lines(t), settings, settings, name);
    hide Piece, Ready, Replaced, Missing, Ended, Lines;
  }

  lemma {:induction false} ReplacedHasText(lines: seq<string>, settings: Settings)
    requires forall i :: 0 <= i < |lines| ==> lines[i] != ""
    ensures forall i :: 0 <= i < |Replaced(lines, settings)| ==> Replaced(lines, settings)[i] != ""
  {
    hide Parse, ValueOf;
    if lines != [] {
      ReplacedHasText(lines[..|lines| - 1], settings);
      var line := lines[|lines| - 1];
      if AssignsSelected(line, settings) { WrittenEnds(Parse(line).value.name, ValueOf(settings, Parse(line).value.name)); }
    }
  }

  // Lines whose text ends in a newline need no other.
  lemma TextEnds(r: seq<string>, t: string)
    requires Join(r) == t && (r != [] ==> r[|r| - 1] != "") && (t != "" ==> t[|t| - 1] == '\n')
    ensures Ended(r) == r
  {
    if r != [] {
      var last := r[|r| - 1];
      assert t[|t| - 1] == last[|last| - 1];
    }
  }

  lemma EndedText(x: seq<string>)
    requires Ended(x) == x
    ensures Join(x) != "" ==> Join(x)[|Join(x)| - 1] == '\n'
  {
    if x != [] { EndsInNewline(x); }
  }

  lemma ReuniteSuffices(t: string, settings: Settings)
    requires Ready(settings) && AllReunite(settings)
    ensures Save(Save(t, settings), settings) == Save(t, settings)
  {
    var x := Merged(Lines(t), settings);
    MergedIsSettled(Lines(t), settings);
    MergeIsBlocks(t, settings);
    SavedIsFlat(t, settings);
    var again := Flat(x);
    forall i | 0 <= i < |again| ensures again[i] != "" { LinesShape(Save(t, settings), i); }
    hide Ready, AllReunite, Merged, Lines, Flat, Replaced, Block;
    BlocksReunite(x, settings);
    SecondSave(again, x, settings);
  }

  lemma SecondSave(again: seq<string>, x: seq<string>, settings: Settings)
    requires Ended(x) == x && Join(Replaced(again, settings)) == Join(x)
    requires forall i :: 0 <= i < |settings| ==> Assigns(again, settings[i].name)
    requires forall i :: 0 <= i < |again| ==> again[i] != ""
    ensures Join(Merged(again, settings)) == Join(x)
  {
    hide Replaced, Missing, Join, Assigns, Ended, Parse;
    NothingMissingOf(again, settings);
    ReplacedHasText(again, settings);
    EndedText(x);
    var r := Replaced(again, settings);
    NotEmptyLast(r);
    TextEnds(r, Join(x));
    assert Merged(again, settings) == r + [] && r + [] == r;
  }

  lemma NotEmptyLast(r: seq<string>)
    requires forall i :: 0 <= i < |r| ==> r[i] != ""
    ensures r != [] ==> r[|r| - 1] != ""
  {}

  // ---- necessary ----

  // Replacing works from the front.
  lemma {:induction false} ReplacedPrefix(a: seq<string>, b: seq<string>, settings: Settings)
    ensures var r, whole := Replaced(a, settings), Replaced(a + b, settings); |r| <= |whole| && whole[..|r|] == r
  {
    hide Parse, Assigns, Selects, Replaced, Line, ValueOf;
    Plus(a, b);
    if b != [] {
      ReplacedPrefix(a, b[..|b| - 1], settings);
      ReplacedSnoc(a + b[..|b| - 1], b[|b| - 1], settings);
    }
  }

  // Pieces that do not reunite leave a second line behind.
  lemma {:induction false} PiecesGrow(b: seq<string>, settings: Settings, name: string, k: nat)
    requires Selects(settings, name) && 1 <= k < |b| && AssignsName(b[0], name) && !AssignsName(b[k], name)
    ensures |Replaced(b[..k + 1], settings)| >= 2
    decreases k
  {
    hide Parse, Assigns, Selects, Replaced, Line, ValueOf, AssignsName;
    var front := b[..k];
    assert b[..k + 1] == front + [b[k]];
    ReplacedSnoc(front, b[k], settings);
    if j :| 1 <= j < k && !AssignsName(b[j], name) {
      PiecesGrow(b, settings, name, j);
      assert b[..j + 1] + b[j + 1..k] == front;
      ReplacedPrefix(b[..j + 1], b[j + 1..k], settings);
    } else {
      assert AllAssign(front, name);
      NothingAssigns();
      NothingReplacedOf(settings);
      assert [] + front == front;
      NamedBlock([], front, settings, name);
      StrangerIsKept(front, b[k], settings, name);
    }
  }

  lemma StrangerIsKept(front: seq<string>, line: string, settings: Settings, name: string)
    requires !AssignsName(line, name) && forall other :: Assigns(front, other) <==> other == name
    ensures AssignsSelected(line, settings) ==> !Assigns(front, Parse(line).value.name)
  {
    hide Assigns;
  }

  lemma FirstReplaced(b: seq<string>, settings: Settings, name: string)
    requires Selects(settings, name) && b != [] && AssignsName(b[0], name)
    ensures Replaced(b, settings) != [] && Replaced(b, settings)[0] == Line(name, ValueOf(settings, name))
  {
    hide Parse, Line, ValueOf, Replaced, Assigns, Selects;
    NothingAssigns();
    NothingReplacedOf(settings);
    assert [] + [b[0]] == [b[0]] && [b[0]] + b[1..] == b;
    ReplacedSnoc([], b[0], settings);
    FirstSelected(b[0], settings, name);
    ReplacedPrefix([b[0]], b[1..], settings);
    assert Replaced([b[0]], settings) == [Line(name, ValueOf(settings, name))];
  }

  lemma FirstSelected(line: string, settings: Settings, name: string)
    requires Selects(settings, name) && AssignsName(line, name)
    ensures AssignsSelected(line, settings) && Parse(line).value.name == name
  {}

  // A line that nobody assigns anything with; either of two, to differ from a given character.
  function Comment(other: char): string { if other == '#' then "=\n" else "#\n" }

  lemma CommentIs(other: char)
    ensures Whole(Comment(other)) && Comment(other)[0] != other && Parse(Comment(other)).None?
  {
    var c := Comment(other);
    assert c == [c[0]] + ['\n'] && c[..1] == [c[0]] && |c| == 2;
    StripDropsSpace([c[0]], '\n');
    CleanIsStripped([c[0]]);
    hide Strip;
    assert Strip(c) == [c[0]];
    assert c[0] == '=' ==> NameEnd([c[0]]) == 0;
  }

  // The name, and a comment right after it.
  function Commented(name: string, other: char): string { Line(name, "x") + Comment(other) }

  lemma FirstTwo(a: string, b: string, rest: seq<string>)
    ensures Join([a, b] + rest) == a + b + Join(rest)
  {
    JoinAppend([a, b], rest);
    JoinSnoc([a], b);
    JoinSnoc([], a);
    assert [a] + [b] == [a, b] && [] + [a] == [a];
  }

  lemma CommentedLines(name: string, other: char)
    requires IsName(name)
    ensures Lines(Commented(name, other)) == [Line(name, "x"), Comment(other)]
    ensures Parse(Line(name, "x")) == Some(Assignment(name, "x")) && Parse(Comment(other)).None?
  {
    XIsSafe();
    LineIsWhole(name, "x");
    LineParses(name, "x");
    CommentIs(other);
    TwoLines(Line(name, "x"), Comment(other));
  }

  // After the first save the comment still follows the assignment.
  lemma FirstSave(settings: Settings, name: string, other: char) returns (m: seq<string>)
    requires Ready(settings) && Selects(settings, name)
    ensures Merged(Lines(Commented(name, other)), settings) == [Line(name, ValueOf(settings, name)), Comment(other)] + m
  {
    ValueOfReady(settings, name);
    CommentedLines(name, other);
    var a, c := Line(name, "x"), Comment(other);
    m := Missing([a, c], settings);
    hide Parse, Line, ValueOf, Replaced, Assigns, Selects, Missing, Lines, Ready, IsName, SafeValue;
    NothingAssigns();
    NothingReplacedOf(settings);
    assert [] + [a] == [a] && [a] + [c] == [a, c];
    ReplacedSnoc([], a, settings);
    FirstSelected(a, settings, name);
    ReplacedSnoc([a], c, settings);
    assert Replaced([a, c], settings) == [Line(name, ValueOf(settings, name)), c];
    assert Ended(Replaced([a, c], settings)) == Replaced([a, c], settings);
  }

  lemma TwoFrom(r: seq<string>)
    requires |r| >= 2 && r[1] != ""
    ensures |r[0]| < |Join(r)| && Join(r)[|r[0]|] == r[1][0]
  {
    assert r == [r[0], r[1]] + r[2..];
    FirstTwo(r[0], r[1], r[2..]);
  }

  lemma TwoFromEnded(r: seq<string>, m: seq<string>)
    requires |r| >= 2 && r[1] != ""
    ensures |r[0]| < |Join(Ended(r) + m)| && Join(Ended(r) + m)[|r[0]|] == r[1][0]
  {
    var e := Ended(r) + m;
    assert e[0] == r[0] && e[1] != "" && e[1][0] == r[1][0];
    TwoFrom(e);
  }

  // The second save puts something else right after it.
  lemma SecondSaveDiffers(settings: Settings, i: nat) returns (t: string)
    requires Ready(settings) && i < |settings| && !Reunites(settings[i])
    ensures Save(Save(t, settings), settings) != Save(t, settings)
  {
    var name, v := settings[i].name, settings[i].value;
    ReadyIsDistinct(settings);
    ValueOfIs(settings, i);
    var pieces := Lines(Line(name, v));
    FirstPieceAssigns(name, v);
    var k :| 1 <= k < |pieces| && !AssignsName(pieces[k], name);
    PiecesGrow(pieces, settings, name, k);
    var start := pieces[..k + 1];
    FirstReplaced(start, settings, name);
    forall j | 0 <= j < |start| ensures start[j] != "" { LinesShape(Line(name, v), j); }
    ReplacedHasText(start, settings);
    var r := Replaced(start, settings);
    t := Commented(name, r[1][0]);
    CommentFollows(settings, name, r, t, pieces, k);
  }

  lemma CommentFollows(settings: Settings, name: string, r: seq<string>, t: string, pieces: seq<string>, k: nat)
    requires Ready(settings) && Selects(settings, name) && pieces == Lines(Line(name, ValueOf(settings, name))) && k < |pieces|
    requires r == Replaced(pieces[..k + 1], settings) && |r| >= 2 && r[1] != "" && r[0] == Line(name, ValueOf(settings, name))
    requires t == Commented(name, r[1][0])
    ensures Save(Save(t, settings), settings) != Save(t, settings)
  {
    var m := FirstText(settings, name, r[1][0]);
    CommentIs(r[1][0]);
    hide *;
    var again, rest := Lines(Save(t, settings)), Flat([Comment(r[1][0])] + m);
    Regroup(pieces, k, rest);
    ReplacedPrefix(pieces[..k + 1], pieces[k + 1..] + rest, settings);
    StartsWithTwo(Replaced(again, settings), r, Missing(again, settings));
    SaveAgain(Save(t, settings), settings);
    Differs(Save(t, settings), Save(Save(t, settings), settings), |r[0]|);
  }

  lemma Regroup(pieces: seq<string>, k: nat, rest: seq<string>)
    requires k < |pieces|
    ensures pieces[..k + 1] + (pieces[k + 1..] + rest) == pieces + rest
  {}

  lemma SaveAgain(t: string, settings: Settings)
    ensures Save(t, settings) == Join(Ended(Replaced(Lines(t), settings)) + Missing(Lines(t), settings))
  {}

  lemma Differs(a: string, b: string, i: nat)
    requires i < |a| && i < |b| && a[i] != b[i]
    ensures a != b
  {}

  // The text of the first save, and its lines.
  lemma FirstText(settings: Settings, name: string, other: char) returns (m: seq<string>)
    requires Ready(settings) && Selects(settings, name)
    ensures var t, line := Commented(name, other), Line(name, ValueOf(settings, name));
            && |line| < |Save(t, settings)| && Save(t, settings)[|line|] == Comment(other)[0]
            && Lines(Save(t, settings)) == Lines(line) + Flat([Comment(other)] + m)
  {
    var t := Commented(name, other);
    m := FirstSave(settings, name, other);
    SavedIsFlat(t, settings);
    CommentIs(other);
    CommentIsText(other);
    assert Save(t, settings) == Join(Merged(Lines(t), settings));
    hide *;
    TextOfTwo(Line(name, ValueOf(settings, name)), Comment(other), m);
  }

  lemma CommentIsText(other: char)
    ensures Comment(other) != ""
  {}

  lemma TextOfTwo(line: string, c: string, m: seq<string>)
    requires c != ""
    ensures var x := [line, c] + m;
            |line| < |Join(x)| && Join(x)[|line|] == c[0] && Flat(x) == Lines(line) + Flat([c] + m)
  {
    hide Lines, Flat, Join;
    TwoFrom([line, c] + m);
    FlatStarts(line, [c] + m);
    assert [line] + ([c] + m) == [line, c] + m;
  }

  lemma StartsWithTwo(whole: seq<string>, r: seq<string>, m: seq<string>)
    requires |r| >= 2 && r[1] != "" && |r| <= |whole| && whole[..|r|] == r
    ensures |r[0]| < |Join(Ended(whole) + m)| && Join(Ended(whole) + m)[|r[0]|] == r[1][0]
  {
    assert whole[0] == r[0] && whole[1] == r[1];
    TwoFromEnded(whole, m);
  }

  lemma FlatStarts(e: string, rest: seq<string>)
    ensures Flat([e] + rest) == Lines(e) + Flat(rest)
  {
    FlatAppend([e], rest);
    FlatOne(e);
  }

  // Saving the same settings again leaves every file as the first save left it, exactly if each value
  // falls apart only into assignments of its own name.
  lemma SaveIsIdempotentIff(settings: Settings)
    requires Ready(settings)
    ensures (forall t :: Save(Save(t, settings), settings) == Save(t, settings)) <==> AllReunite(settings)
  {
    hide Save, Reunites, Ready;
    if AllReunite(settings) {
      forall t ensures Save(Save(t, settings), settings) == Save(t, settings) { ReuniteSuffices(t, settings); }
    } else {
      var i :| 0 <= i < |settings| && !Reunites(settings[i]);
      var t := SecondSaveDiffers(settings, i);
    }
  }

  // Values without a line break, in particular, do not fall apart at all.
  lemma UnbrokenReunite(settings: Settings)
    requires Ready(settings) && NoBreaks(settings)
    ensures AllReunite(settings)
  {
    forall i | 0 <= i < |settings| ensures Reunites(settings[i]) {
      LineIsWhole(settings[i].name, settings[i].value);
      WholeIsOneLine(Line(settings[i].name, settings[i].value));
    }
  }

  // The other kind: an accepted value with a line separator and no assignment after it. Saved into an
  // empty file twice, it leaves its tail behind.
  lemma SeparatorGrowsTheFile(name: string, x: string, y: string)
    requires IsName(name) && SafeValue(x) && NoBreak(x) && SafeValue(y) && NoBreak(y) && '=' !in y
    ensures var settings := [Assignment(name, x + "\U{2028}" + y)];
            Ready(settings) && !AllReunite(settings) && Save(Save("", settings), settings) == Save("", settings) + y + "\n"
  {
    var s := Assignment(name, x + "\U{2028}" + y);
    var first, second := name + "=" + x + "\U{2028}", y + "\n";
    SeparatedIsSafe(x, y);
    SaveOne([s]);
    FirstPieceAssigns(name, s.value);
    LineJoins(name, x, y);
    FirstIsWhole(name, x);
    TailIsInert(y);
    TwoLines(first, second);
    SingleReady(s);
    hide *;
    NotReunited(s, first, second);
    TailIsKept(s, first, second);
    JoinsAssociate(Save("", [s]), y, "\n");
  }

  lemma SingleReady(s: Assignment)
    requires IsName(s.name) && SafeValue(s.value)
    ensures Ready([s])
  {}

  lemma NotReunited(s: Assignment, first: string, second: string)
    requires Lines(Line(s.name, s.value)) == [first, second] && Parse(second).None?
    ensures !AllReunite([s])
  {
    hide Lines, Line, Parse;
    assert [first, second][1] == second && [s][0] == s;
  }

  lemma SeparatedIsSafe(x: string, y: string)
    requires SafeValue(x) && SafeValue(y)
    ensures SafeValue(x + "\U{2028}" + y)
  {
    var v := x + "\U{2028}" + y;
    assert v[0] == x[0] && v[|v| - 1] == y[|y| - 1];
  }

  lemma LineJoins(name: string, x: string, y: string)
    ensures Line(name, x + "\U{2028}" + y) == (name + "=" + x + "\U{2028}") + (y + "\n")
  {}

  lemma TailIsInert(y: string)
    requires SafeValue(y) && NoBreak(y) && '=' !in y
    ensures Whole(y + "\n") && Parse(y + "\n").None?
  {
    OpenLineCloses(y);
    ParseIgnoresNewline(y);
    CleanIsStripped(y);
    NameEndIs(y);
  }

  lemma TailIsKept(s: Assignment, first: string, second: string)
    requires Save("", [s]) == Line(s.name, s.value)
    requires Lines(Line(s.name, s.value)) == [first, second] && AssignsName(first, s.name)
    requires Parse(second).None? && second != "" && second[|second| - 1] == '\n'
    ensures Save(Save("", [s]), [s]) == Save("", [s]) + second
  {
    hide *;
    TailReplaced(s, first, second);
    TailMerged(s, [first, second], Line(s.name, s.value), second);
    SaveAgain(Save("", [s]), [s]);
    TwoJoined(Line(s.name, s.value), second);
  }

  lemma TwoJoined(a: string, b: string)
    ensures Join([a, b]) == a + b
  {
    FirstTwo(a, b, []);
    assert [a, b] + [] == [a, b] && Join([]) == "";
  }

  lemma TailMerged(s: Assignment, lines: seq<string>, line: string, second: string)
    requires Replaced(lines, [s]) == [line, second] && second != "" && second[|second| - 1] == '\n' && Assigns(lines, s.name)
    ensures Ended(Replaced(lines, [s])) + Missing(lines, [s]) == [line, second]
  {
    hide Replaced, Missing, Assigns;
    assert [s][0] == s;
    NothingMissingOf(lines, [s]);
    assert Ended([line, second]) == [line, second] && [line, second] + [] == [line, second];
  }

  lemma OneSelects(s: Assignment)
    ensures Selects([s], s.name) && ValueOf([s], s.name) == s.value
  {
    assert [s][0].name == s.name;
  }

  lemma TailReplaced(s: Assignment, first: string, second: string)
    requires AssignsName(first, s.name) && Parse(second).None?
    ensures Replaced([first, second], [s]) == [Line(s.name, s.value), second]
    ensures Assigns([first, second], s.name)
  {
    FirstAlone(s, first);
    hide Replaced, Assigns, ValueOf, Line, AssignsName;
    TwoAsSum(first, second);
    TwoAsSum(Line(s.name, s.value), second);
    ReplacedSnoc([first], second, [s]);
    AssignsSnoc([first], second, s.name);
  }

  lemma FirstAlone(s: Assignment, first: string)
    requires AssignsName(first, s.name)
    ensures Replaced([first], [s]) == [Line(s.name, s.value)] && Assigns([first], s.name)
  {
    OneSelects(s);
    FirstSelected(first, [s], s.name);
    NothingAssigns();
    NothingReplacedOf([s]);
    TwoAsSum(first, first);
    hide Replaced, Assigns, ValueOf, Line, Selects, Parse;
    ReplacedSnoc([], first, [s]);
    AssignsSnoc([], first, s.name);
    TwoAsSum(Line(s.name, s.value), first);
  }

  lemma TwoAsSum(a: string, b: string)
    ensures [] + [a] == [a] && [a] + [b] == [a, b]
  {}
}
