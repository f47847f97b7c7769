/** What the recall blocks show, as plain text: no helper of the renderer is named in what is said of it. */
module Rendering {
  import opened Basics
  import opened Recall

  /******* The pieces *******/

  lemma JoinOfOne(x: string, sep: string)
    ensures Join([x], sep) == x && Join([], sep) == ""
  {
  }

  /** A field shows its text; an empty one nothing, a missing one what stands for it. */
  ghost predicate Shows(f: Field, otherwise: string, text: string) {
    || (f == Field.Text(text))
    || (f == Null && text == "")
    || (f == Absent && text == otherwise)
  }

  lemma FieldsShow(f: Field, otherwise: string, text: string)
    ensures Shows(f, otherwise, text) <==> TextOr(f, otherwise) == text
  {
  }

  /** The first ten characters, or all of them. */
  ghost predicate Dates(date: string, short: string) {
    short <= date && |short| == if |date| < 10 then |date| else 10
  }

  /** No escaped text is lost: only the empty text escapes to nothing. */
  lemma NothingEscapesToNothing(s: string)
    ensures Escape(s) == "" <==> s == ""
  {
    EscapeIsPerCharacter(s);
    if s != "" { assert |EscapeChar(s[0])| > 0; }
  }

  /******* One line *******/

  /** The line of a memory of this kind, date, scene and content, each escaped character by character. */
  ghost function LineOf(kind: string, date: string, scene: string, content: string): string {
    "- " + ("[" + EscapeEach(kind) + "]" + (if date == "" then "" else " \U{B7} " + EscapeEach(date)) + " \U{B7} L1"
            + (if scene == "" then "" else " \U{B7} " + ("scene=" + EscapeEach(scene)))
            + " \U{B7} " + EscapeEach(content))
  }

  /** A line shows the kind, the first ten characters of the date, the scene and the content, in this order. */
  lemma LinesShowTheirMemory(m: Memory, kind: string, created: string, date: string, scene: string, content: string)
    requires Shows(m.kind, "unknown", kind) && Shows(m.createdAt, "", created) && Dates(created, date)
    requires Shows(m.background, "", scene) && Shows(m.content, "", content)
    ensures Line(m) == LineOf(kind, date, scene, content)
  {
    FieldsShow(m.kind, "unknown", kind);
    FieldsShow(m.createdAt, "", created);
    FieldsShow(m.background, "", scene);
    FieldsShow(m.content, "", content);
    assert Take(created, 10) == date;
    EscapeIsPerCharacter(kind);
    EscapeIsPerCharacter(date);
    EscapeIsPerCharacter(scene);
    EscapeIsPerCharacter(content);
    NothingEscapesToNothing(date);
    NothingEscapesToNothing(scene);
    BitsAre(m);
    hide *;
    var head, shown := "[" + EscapeEach(kind) + "]", EscapeEach(content);
    var dated := if date == "" then [] else [EscapeEach(date)];
    var placed := if scene == "" then [] else ["scene=" + EscapeEach(scene)];
    LineJoins(head, dated, placed, shown);
    LineReads(kind, date, scene, content);
  }

  lemma BitsAre(m: Memory)
    ensures var created, scene := Escape(Take(TextOr(m.createdAt, ""), 10)), Escape(TextOr(m.background, ""));
            Line(m) == "- " + Join(["[" + Escape(TextOr(m.kind, "unknown")) + "]"]
                                   + (if created == "" then [] else [created]) + ["L1"]
                                   + (if scene == "" then [] else ["scene=" + scene])
                                   + [Escape(TextOr(m.content, ""))], " \U{B7} ")
  {
    hide Join, Escape, Take;
  }

  /** The text of so many parts, with the separator before each but the first. */
  ghost function Strung(head: string, dated: seq<string>, placed: seq<string>, content: string): string {
    head + (if dated == [] then "" else " \U{B7} " + dated[0]) + " \U{B7} L1"
    + (if placed == [] then "" else " \U{B7} " + placed[0]) + " \U{B7} " + content
  }

  lemma LineReads(kind: string, date: string, scene: string, content: string)
    ensures var dated := if date == "" then [] else [EscapeEach(date)];
            var placed := if scene == "" then [] else ["scene=" + EscapeEach(scene)];
            "- " + Strung("[" + EscapeEach(kind) + "]", dated, placed, EscapeEach(content))
            == LineOf(kind, date, scene, content)
  {
    hide EscapeEach;
  }

  lemma OneMorePart(xs: seq<string>, x: string, sep: string)
    requires xs != []
    ensures Join(xs + [x], sep) == Join(xs, sep) + sep + x
  {
    assert (xs + [x])[..|xs|] == xs;
  }

  lemma Regroup(x: string, y: string, z: string)
    ensures x + y + z == x + (y + z)
  {
  }

  /** A part that may be missing is added together with the separator before it. */
  lemma PerhapsOneMore(xs: seq<string>, extra: seq<string>, sep: string)
    requires xs != [] && |extra| <= 1
    ensures Join(xs + extra, sep) == Join(xs, sep) + if extra == [] then "" else sep + extra[0]
  {
    hide Join;
    if extra == [] {
      assert xs + extra == xs;
    } else {
      assert extra == [extra[0]];
      OneMorePart(xs, extra[0], sep);
      Regroup(Join(xs, sep), sep, extra[0]);
    }
  }

  lemma LineJoins(head: string, dated: seq<string>, placed: seq<string>, content: string)
    requires |dated| <= 1 && |placed| <= 1
    ensures Join([head] + dated + ["L1"] + placed + [content], " \U{B7} ") == Strung(head, dated, placed, content)
  {
    hide Join;
    var sep, begun := " \U{B7} ", [head] + dated;
    JoinOfOne(head, sep);
    PerhapsOneMore([head], dated, sep);
    PerhapsOneMore(begun, ["L1"], sep);
    PerhapsOneMore(begun + ["L1"], placed, sep);
    OneMorePart(begun + ["L1"] + placed, content, sep);
  }

  /******* The blocks *******/

  /** The lines of the memories, one below the other. */
  ghost function Listing(items: seq<Memory>): string {
    if items == [] then ""
    else if |items| == 1 then Line(items[0])
    else Listing(items[..|items| - 1]) + "\n" + Line(items[|items| - 1])
  }

  lemma {:induction false} LinesAreListed(items: seq<Memory>)
    ensures |Lines(items)| == |items| && Join(Lines(items), "\n") == Listing(items)
  {
    if items != [] {
      var front := items[..|items| - 1];
      LinesAreListed(front);
      hide Line, Join;
      JoinOfOne(Line(items[|items| - 1]), "\n");
      if front == [] {
        assert Lines(items) == [Line(items[0])] by { assert Lines(front) == []; }
      } else {
        OneMorePart(Lines(front), Line(items[|items| - 1]), "\n");
      }
    }
  }

  /** The block of memories: its opening tag with the scope, the two notices, every memory's line, its closing tag. */
  lemma MemoriesAreListed(items: seq<Memory>, scope: string)
    ensures L1Block(items, scope)
            == "<relevant-memories scope=\"" + scope + "\" trust=\"untrusted-reference\">"
               + (L1_NOTICE + L1_SCOPE_NOTICE + Listing(items) + "\n") + "</relevant-memories>"
  {
    LinesAreListed(items);
    hide Lines, Join, Listing;
  }

  /** The core block: the date, if there is one, cut to ten characters, and the content, both escaped. */
  lemma CoreShowsItsContent(content: string, updatedAt: string, date: string, scope: string)
    requires Dates(updatedAt, date)
    ensures CoreBlock(content, updatedAt, scope)
            == "<user-core scope=\"" + scope + "\" trust=\"untrusted-reference\">"
               + (CORE_HEAD + (if updatedAt == "" then "" else STAMP_HEAD + EscapeEach(date) + ")") + CORE_TAIL
                  + EscapeEach(content) + "\n") + "</user-core>"
  {
    assert Take(updatedAt, 10) == date;
    EscapeIsPerCharacter(date);
    EscapeIsPerCharacter(content);
    hide Escape, EscapeEach, Take, CORE_HEAD, STAMP_HEAD, CORE_TAIL;
  }

  /******* Scene names *******/

  ghost predicate OccursAt(s: string, part: string, i: int) {
    0 <= i && i + |part| <= |s| && s[i..i + |part|] == part
  }

  lemma LaterOccurrences(s: string, part: string)
    requires part != "" && s != ""
    ensures OccursAt(s, part, 0) <==> part <= s
    ensures forall i :: i >= 0 ==> (OccursAt(s[1..], part, i) <==> OccursAt(s, part, i + 1))
    ensures forall i :: i < 0 ==> !OccursAt(s[1..], part, i)
  {
    forall i | i >= 0 ensures OccursAt(s[1..], part, i) <==> OccursAt(s, part, i + 1) {
      if i + 1 + |part| <= |s| { assert s[1..][i..i + |part|] == s[i + 1..i + 1 + |part|]; }
    }
  }

  /** What is taken out of a name: the first occurrence, and then whatever is taken out of the rest. */
  lemma {:induction false} FirstOccurrenceGoes(before: string, part: string, rest: string)
    requires part != "" && forall i :: 0 <= i < |before| ==> !OccursAt(before + part + rest, part, i)
    ensures Without(before + part + rest, part) == before + Without(rest, part)
    decreases before
  {
    var s := before + part + rest;
    LaterOccurrences(s, part);
    OneStepOfWithout(s, part);
    if before == "" {
      assert part <= s && s[|part|..] == rest;
    } else {
      assert s[1..] == before[1..] + part + rest && !OccursAt(s, part, 0);
      forall i | 0 <= i < |before[1..]| ensures !OccursAt(s[1..], part, i) {
        assert !OccursAt(s, part, i + 1);
      }
      hide OccursAt, Without;
      FirstOccurrenceGoes(before[1..], part, rest);
      Regroup([before[0]], before[1..], Without(rest, part));
      assert [before[0]] + before[1..] == before;
    }
  }

  lemma OneStepOfWithout(s: string, part: string)
    requires part != "" && s != ""
    ensures Without(s, part) == if part <= s then Without(s[|part|..], part) else [s[0]] + Without(s[1..], part)
  {
  }

  lemma {:induction false} NothingElseGoes(s: string, part: string)
    requires part != "" && forall i :: !OccursAt(s, part, i)
    ensures Without(s, part) == s
  {
    if s != "" {
      LaterOccurrences(s, part);
      assert !OccursAt(s, part, 0);
      hide OccursAt;
      forall i ensures !OccursAt(s[1..], part, i) {
        assert !OccursAt(s, part, i + 1);
      }
      NothingElseGoes(s[1..], part);
    }
  }

  /** The lines of the scene index: the path of each entry without its file extension, escaped. */
  ghost function Index(paths: seq<string>): string {
    if paths == [] then ""
    else if |paths| == 1 then "- Scene: " + EscapeEach(Without(paths[0], ".md"))
    else Index(paths[..|paths| - 1]) + "\n" + ("- Scene: " + EscapeEach(Without(paths[|paths| - 1], ".md")))
  }

  lemma {:induction false} ScenesAreIndexed(fields: seq<Field>, paths: seq<string>)
    requires |fields| == |paths| && forall i :: 0 <= i < |paths| ==> Shows(fields[i], "", paths[i])
    ensures |SceneLines(fields)| == |paths| && Join(SceneLines(fields), "\n") == Index(paths)
  {
    if paths != [] {
      var n := |paths| - 1;
      ScenesAreIndexed(fields[..n], paths[..n]);
      FieldsShow(fields[n], "", paths[n]);
      EscapeIsPerCharacter(Without(paths[n], ".md"));
      hide Join, Escape, EscapeEach, Without, Shows;
      var line := "- Scene: " + EscapeEach(Without(paths[n], ".md"));
      JoinOfOne(line, "\n");
      if n == 0 {
        assert SceneLines(fields) == [line] by { assert SceneLines(fields[..0]) == []; }
      } else {
        OneMorePart(SceneLines(fields[..n]), line, "\n");
      }
    }
  }

  lemma ScenesAreShown(fields: seq<Field>, paths: seq<string>)
    requires |fields| == |paths| && forall i :: 0 <= i < |paths| ==> Shows(fields[i], "", paths[i])
    ensures SceneBlock(fields)
            == "<scene-navigation>" + ("\nAvailable scenes:\n" + Index(paths) + "\n") + "</scene-navigation>"
  {
    ScenesAreIndexed(fields, paths);
    hide SceneLines, Join, Index;
  }
}
