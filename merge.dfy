/// The merge engine of `Chunk` (data_models.py and server/data_models.py,
/// which are the same code): a chunk's front (or back) followed by one
/// paragraph fragment per addition, with the addition's own paragraph tags
/// dissolved.
module Merge {
  import opened Content

  /// Python's `text.replace(pattern, "")`: removes the occurrences of
  /// `pattern` that a left-to-right scan finds without overlap.
  function RemoveAll(text: string, pattern: string): (r: string)
    requires pattern != []
    ensures |r| <= |text|
    decreases |text|
  {
    if |text| < |pattern| then text
    else if text[..|pattern|] == pattern then RemoveAll(text[|pattern|..], pattern)
    else [text[0]] + RemoveAll(text[1..], pattern)
  }

  /// Whether `pattern` occurs in `text` at position `i`.
  ghost predicate MatchesAt(pattern: string, text: string, i: int)
  {
    0 <= i && i + |pattern| <= |text| && text[i..i + |pattern|] == pattern
  }

  /// Whether `pattern` occurs anywhere in `text`.
  ghost predicate Occurs(pattern: string, text: string)
  {
    exists i :: MatchesAt(pattern, text, i)
  }

  /// An occurrence past the first character is an occurrence in the rest.
  lemma MatchesAtRest(pattern: string, text: string, i: int)
    requires text != [] && 0 <= i
    ensures MatchesAt(pattern, text, i + 1) <==> MatchesAt(pattern, text[1..], i)
  {
    if 0 <= i && i + 1 + |pattern| <= |text| {
      assert text[1..][i..i + |pattern|] == text[i + 1..i + 1 + |pattern|];
    }
  }

  /// Without an occurrence at the first character, the text has one exactly
  /// when the rest has one.
  lemma OccursInRest(pattern: string, text: string)
    requires text != [] && !MatchesAt(pattern, text, 0)
    ensures Occurs(pattern, text) <==> Occurs(pattern, text[1..])
  {
    if Occurs(pattern, text) {
      var i :| MatchesAt(pattern, text, i);
      assert i > 0;
      MatchesAtRest(pattern, text, i - 1);
    }
    if Occurs(pattern, text[1..]) {
      var i :| MatchesAt(pattern, text[1..], i);
      MatchesAtRest(pattern, text, i);
    }
  }

  /// A pattern whose first two characters never appear side by side in the
  /// text does not occur in it.
  lemma NoOccurrence(pattern: string, text: string)
    requires |pattern| >= 2
    requires forall i :: 0 <= i < |text| - 1 ==> text[i] != pattern[0] || text[i + 1] != pattern[1]
    ensures !Occurs(pattern, text)
  {
    forall i | 0 <= i && i + |pattern| <= |text|
      ensures !MatchesAt(pattern, text, i)
    {
      assert text[i..i + |pattern|][0] == text[i];
      assert text[i..i + |pattern|][1] == text[i + 1];
    }
  }

  /// Removal shortens the text exactly when the pattern occurs in it.
  lemma {:induction false} RemoveAllShrinks(text: string, pattern: string)
    requires pattern != []
    ensures Occurs(pattern, text) <==> |RemoveAll(text, pattern)| < |text|
    decreases |text|
  {
    if |text| < |pattern| {
      assert forall i :: !MatchesAt(pattern, text, i);
    } else if text[..|pattern|] == pattern {
      assert MatchesAt(pattern, text, 0);
    } else {
      OccursInRest(pattern, text);
      RemoveAllShrinks(text[1..], pattern);
    }
  }

  /// Removal is the identity on text in which the pattern does not occur.
  lemma {:induction false} RemoveAllKeeps(text: string, pattern: string)
    requires pattern != [] && !Occurs(pattern, text)
    ensures RemoveAll(text, pattern) == text
    decreases |text|
  {
    if |text| >= |pattern| {
      assert !MatchesAt(pattern, text, 0);
      OccursInRest(pattern, text);
      RemoveAllKeeps(text[1..], pattern);
      assert [text[0]] + text[1..] == text;
    }
  }

  /// Removal is the identity exactly on text in which the pattern does not
  /// occur.
  lemma RemoveAllIdentity(text: string, pattern: string)
    requires pattern != []
    ensures RemoveAll(text, pattern) == text <==> !Occurs(pattern, text)
  {
    RemoveAllShrinks(text, pattern);
    if !Occurs(pattern, text) {
      RemoveAllKeeps(text, pattern);
    }
  }

  /// `dissolve_p_tags`: removes `<p>`, then `</p>` from what is left.
  function DissolvePTags(text: string): (r: string)
    ensures |r| <= |text|
  {
    RemoveAll(RemoveAll(text, "<p>"), "</p>")
  }

  /// Dissolving is the identity exactly on text with neither tag in it.
  lemma DissolveIdentity(text: string)
    ensures DissolvePTags(text) == text <==> !Occurs("<p>", text) && !Occurs("</p>", text)
  {
    var once := RemoveAll(text, "<p>");
    RemoveAllShrinks(text, "<p>");
    RemoveAllIdentity(text, "<p>");
    RemoveAllIdentity(once, "</p>");
  }

  /// Dissolving is not idempotent and can leave a tag behind: removing one
  /// `<p>` can join the characters around it into a new one.
  lemma DissolveJoinsOpenTag()
    ensures DissolvePTags("<<p>p>") == "<p>"
    ensures DissolvePTags(DissolvePTags("<<p>p>")) != DissolvePTags("<<p>p>")
  {
    var a := "<<p>p>";
    var b := a[1..];
    assert a[..3] != "<p>" by {
      assert a[..3][1] == '<' && "<p>"[1] == 'p';
    }
    assert b[..3] == "<p>" && b[3..] == "p>";
    assert RemoveAll(b, "<p>") == "p>" by {
      assert RemoveAll(b, "<p>") == RemoveAll(b[3..], "<p>");
    }
    assert RemoveAll(a, "<p>") == "<p>" by {
      assert RemoveAll(a, "<p>") == [a[0]] + RemoveAll(b, "<p>");
    }
    assert DissolvePTags(a) == "<p>";
    assert RemoveAll("<p>", "<p>") == RemoveAll("", "<p>") == "";
  }

  /// The same holds for `</p>`: dissolving `<</p>/p>` leaves `</p>`.
  lemma DissolveJoinsCloseTag()
    ensures DissolvePTags("<</p>/p>") == "</p>"
  {
    var b := "<</p>/p>";
    assert forall i :: 0 <= i < |b| - 1 ==> b[i] != '<' || b[i + 1] != 'p';
    NoOccurrence("<p>", b);
    RemoveAllKeeps(b, "<p>");
    assert b[..4] != "</p>" && b[1..][..4] == "</p>" && b[1..][4..] == "/p>";
    assert RemoveAll(b[1..], "</p>") == "/p>";
  }

  /// The indent before an addition's icon: two non-breaking-space entities.
  const Spaces := "&nbsp;&nbsp;"

  /// Which side of a chunk is being merged.
  datatype Side = FrontSide | BackSide

  function SideOf(a: Addition, side: Side): string
  {
    if side == FrontSide then a.front else a.back
  }

  /// The paragraph one addition contributes.
  function Fragment(a: Addition, side: Side): (r: string)
    ensures |r| >= 7 && r[..3] == "<p>" && r[|r| - 4..] == "</p>"
    ensures |r| <= 3 + |Spaces| + |a.icon| + 1 + |SideOf(a, side)| + 4
  {
    "<p>" + Spaces + a.icon + " " + DissolvePTags(SideOf(a, side)) + "</p>"
  }

  /// The joined fragments of a list of additions.
  function Fragments(additions: seq<Addition>, side: Side): (r: string)
    ensures r == "" <==> additions == []
  {
    if additions == [] then "" else Fragment(additions[0], side) + Fragments(additions[1..], side)
  }

  /// `get_merged_front`.
  function MergedFront(c: Chunk): (r: string)
    ensures c.front <= r
    ensures c.additions == [] ==> r == c.front
  {
    c.front + Fragments(c.additions, FrontSide)
  }

  /// `get_merged_back`.
  function MergedBack(c: Chunk): (r: string)
    ensures c.back <= r
    ensures c.additions == [] ==> r == c.back
  {
    c.back + Fragments(c.additions, BackSide)
  }

  /// The fragments of two lists joined are the fragments of the joined list:
  /// one fragment per addition, in list order.
  lemma {:induction false} FragmentsConcat(xs: seq<Addition>, ys: seq<Addition>, side: Side)
    ensures Fragments(xs + ys, side) == Fragments(xs, side) + Fragments(ys, side)
  {
    if xs == [] {
      assert xs + ys == ys;
    } else {
      assert (xs + ys)[1..] == xs[1..] + ys;
      FragmentsConcat(xs[1..], ys, side);
    }
  }

  /// Adding one more addition appends exactly its fragment to both merged
  /// sides.
  lemma MergedAppend(c: Chunk, a: Addition)
    ensures MergedFront(c.(additions := c.additions + [a])) == MergedFront(c) + Fragment(a, FrontSide)
    ensures MergedBack(c.(additions := c.additions + [a])) == MergedBack(c) + Fragment(a, BackSide)
  {
    var more := c.additions + [a];
    assert [a][1..] == [];
    assert MergedFront(c.(additions := more)) == MergedFront(c) + Fragment(a, FrontSide) by {
      FragmentsConcat(c.additions, [a], FrontSide);
      var f := Fragment(a, FrontSide);
      assert Fragments([a], FrontSide) == f + Fragments([], FrontSide) == f;
      assert Fragments(more, FrontSide) == Fragments(c.additions, FrontSide) + f;
    }
    assert MergedBack(c.(additions := more)) == MergedBack(c) + Fragment(a, BackSide) by {
      FragmentsConcat(c.additions, [a], BackSide);
      var f := Fragment(a, BackSide);
      assert Fragments([a], BackSide) == f + Fragments([], BackSide) == f;
      assert Fragments(more, BackSide) == Fragments(c.additions, BackSide) + f;
    }
  }

  /// Two addition lists that agree on icons and on one side give the same
  /// fragments for that side, whatever their other side and ids hold.
  lemma {:induction false} FragmentsOnlyReadSide(xs: seq<Addition>, ys: seq<Addition>, side: Side)
    requires |xs| == |ys|
    requires forall i :: 0 <= i < |xs| ==> xs[i].icon == ys[i].icon && SideOf(xs[i], side) == SideOf(ys[i], side)
    ensures Fragments(xs, side) == Fragments(ys, side)
  {
    if xs != [] {
      FragmentsOnlyReadSide(xs[1..], ys[1..], side);
    }
  }

  /// The merged front never depends on any back field, and the merged back
  /// never on any front field.
  lemma MergedSidesIndependent(c1: Chunk, c2: Chunk)
    requires |c1.additions| == |c2.additions|
    requires forall i :: 0 <= i < |c1.additions| ==> c1.additions[i].icon == c2.additions[i].icon
    ensures c1.front == c2.front && (forall i :: 0 <= i < |c1.additions| ==> c1.additions[i].front == c2.additions[i].front)
            ==> MergedFront(c1) == MergedFront(c2)
    ensures c1.back == c2.back && (forall i :: 0 <= i < |c1.additions| ==> c1.additions[i].back == c2.additions[i].back)
            ==> MergedBack(c1) == MergedBack(c2)
  {
    if forall i :: 0 <= i < |c1.additions| ==> c1.additions[i].front == c2.additions[i].front {
      FragmentsOnlyReadSide(c1.additions, c2.additions, FrontSide);
    }
    if forall i :: 0 <= i < |c1.additions| ==> c1.additions[i].back == c2.additions[i].back {
      FragmentsOnlyReadSide(c1.additions, c2.additions, BackSide);
    }
  }

  /// One chunk with one addition, merged on both sides.
  lemma MergedExample()
    ensures var c := Chunk("c", "A", "w", "d", [Addition("a", "★", "ex", "tr")]);
            MergedFront(c) == "w" + "<p>&nbsp;&nbsp;★ " + "ex" + "</p>"
            && MergedBack(c) == "d" + "<p>&nbsp;&nbsp;★ " + "tr" + "</p>"
  {
    var a := Addition("a", "★", "ex", "tr");
    var c := Chunk("c", "A", "w", "d", [a]);
    assert [a][1..] == [];
    assert DissolvePTags("ex") == "ex" by {
      RemoveAllKeeps("ex", "<p>");
      RemoveAllKeeps("ex", "</p>");
    }
    assert DissolvePTags("tr") == "tr" by {
      RemoveAllKeeps("tr", "<p>");
      RemoveAllKeeps("tr", "</p>");
    }
    assert "<p>" + Spaces + "★" + " " == "<p>&nbsp;&nbsp;★ ";
    assert Fragments([a], FrontSide) == Fragment(a, FrontSide) + Fragments([], FrontSide);
    assert Fragments([a], BackSide) == Fragment(a, BackSide) + Fragments([], BackSide);
    assert MergedFront(c) == "w" + (Fragment(a, FrontSide) + "");
    assert MergedBack(c) == "d" + (Fragment(a, BackSide) + "");
  }
}
