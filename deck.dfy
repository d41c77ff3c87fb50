/// The flashcard exporter's `gen_anki` (server/main.py and src/main.py, the
/// same code): a fixed table from deck type to note model, one note per
/// chunk carrying its merged front and back, and a deck that collects the
/// notes in order.
module Deck {
  import opened Content
  import opened Merge

  /// The two note fields every model declares.
  datatype Field = Front | Back

  function FieldName(f: Field): string
  {
    if f == Front then "Front" else "Back"
  }

  /// One piece of a card template: a field reference `{{F}}`, a typed
  /// answer box `{{type:F}}`, or literal markup.
  datatype Piece = Ref(field: Field) | TypeRef(field: Field) | Text(text: string)

  function PieceText(p: Piece): string
  {
    match p
    case Ref(f) => "{{" + FieldName(f) + "}}"
    case TypeRef(f) => "{{type:" + FieldName(f) + "}}"
    case Text(t) => t
  }

  /// The template string a list of pieces spells.
  function Render(pieces: seq<Piece>): string
  {
    if pieces == [] then "" else Render(pieces[..|pieces| - 1]) + PieceText(pieces[|pieces| - 1])
  }

  /// The rule between question and answer.
  const Rule := "<hr id=\"answer\">"

  /// A card template: its name, its question format and its answer format.
  datatype Template = Template(name: string, question: seq<Piece>, answer: seq<Piece>)

  /// A note model: id, name, declared field names and card templates (the
  /// stylesheet is not modelled).
  datatype NoteModel = NoteModel(id: nat, name: string, fields: seq<string>, templates: seq<Template>)

  const OneSideId := 1739425482
  const TwoSidesId := 1739425489
  const TypeId := 1739425493

  const Forward := Template("Forward", [Ref(Front)], [Ref(Front), Text(Rule), Ref(Back)])
  const Backward := Template("Backward", [Ref(Back)], [Ref(Back), Text(Rule), Ref(Front)])
  const TypeForward := Template("Forward", [Ref(Front), Text("\n"), TypeRef(Back)],
                                [Ref(Front), Text(Rule), TypeRef(Back)])

  /// Every field a piece list refers to.
  function Refs(pieces: seq<Piece>): (r: set<Field>)
    ensures forall f :: f in r <==> exists i :: 0 <= i < |pieces| && !pieces[i].Text? && pieces[i].field == f
  {
    if pieces == [] then {}
    else (if pieces[0].Text? then {} else {pieces[0].field}) + Refs(pieces[1..])
  }

  /// A model Anki can use: its templates have distinct names and refer
  /// only to fields whose names it declares.
  predicate WellFormed(m: NoteModel)
  {
    && m.templates != []
    && (forall i, j :: 0 <= i < j < |m.templates| ==> m.templates[i].name != m.templates[j].name)
    && (forall t :: t in m.templates ==> (forall f :: f in Refs(t.question) + Refs(t.answer) ==> FieldName(f) in m.fields))
  }

  /// `MODEL_DICT[deck_type]`.
  function ModelFor(d: DeckType): (m: NoteModel)
    ensures m.fields == ["Front", "Back"]
    ensures WellFormed(m)
  {
    assert forall f: Field :: FieldName(f) in ["Front", "Back"] by {
      forall f: Field
        ensures FieldName(f) in ["Front", "Back"]
      {
        if f == Front { assert ["Front", "Back"][0] == FieldName(f); } else { assert ["Front", "Back"][1] == FieldName(f); }
      }
    }
    match d
    case OneSide => NoteModel(OneSideId, "LanguageLearning", ["Front", "Back"], [Forward])
    case TwoSides => NoteModel(TwoSidesId, "LanguageLearningType", ["Front", "Back"], [Forward, Backward])
    case Type => NoteModel(TypeId, "LanguageLearningType", ["Front", "Back"], [TypeForward])
  }

  /// A template with the roles of the two fields exchanged.
  function SwapPiece(p: Piece): Piece
  {
    match p
    case Ref(f) => Ref(if f == Front then Back else Front)
    case TypeRef(f) => TypeRef(if f == Front then Back else Front)
    case Text(t) => Text(t)
  }

  function SwapPieces(pieces: seq<Piece>): (r: seq<Piece>)
    ensures |r| == |pieces|
    ensures forall i :: 0 <= i < |r| ==> r[i] == SwapPiece(pieces[i]) && SwapPiece(r[i]) == pieces[i]
  {
    if pieces == [] then [] else [SwapPiece(pieces[0])] + SwapPieces(pieces[1..])
  }

  /// Rendering a three-piece list, one piece at a time.
  lemma RenderThree(a: Piece, b: Piece, c: Piece)
    ensures Render([a, b, c]) == PieceText(a) + PieceText(b) + PieceText(c)
  {
    assert [a, b, c][..2] == [a, b] && [a, b][..1] == [a] && [a][..0] == [];
    assert Render([a]) == "" + PieceText(a) == PieceText(a);
  }

  /// Swapping a three-piece list, one piece at a time.
  lemma SwapThree(a: Piece, b: Piece, c: Piece)
    ensures SwapPieces([a, b, c]) == [SwapPiece(a), SwapPiece(b), SwapPiece(c)]
  {
    assert [a, b, c][1..] == [b, c] && [b, c][1..] == [c] && [c][1..] == [];
    assert SwapPieces([c]) == [SwapPiece(c)] + [] == [SwapPiece(c)];
    assert SwapPieces([b, c]) == [SwapPiece(b)] + [SwapPiece(c)];
  }

  /// Rendering a one-piece list.
  lemma OnePiece(a: Piece)
    ensures Render([a]) == PieceText(a)
    ensures SwapPieces([a]) == [SwapPiece(a)]
  {
    assert [a][1..] == [] && [a][..0] == [];
    assert Render([a]) == "" + PieceText(a);
    assert SwapPieces([a]) == [SwapPiece(a)] + [];
  }

  /// The three deck types select three models with pairwise distinct ids;
  /// one-side has the single `Forward` template, two-sides adds `Backward`,
  /// which is `Forward` with Front and Back exchanged, and type has a single
  /// template that asks for `Back` in a typed answer box.
  lemma ModelTable(d: DeckType, e: DeckType)
    ensures d != e ==> ModelFor(d).id != ModelFor(e).id
    ensures |ModelFor(OneSide).templates| == 1 && ModelFor(OneSide).templates[0].name == "Forward"
    ensures |ModelFor(TwoSides).templates| == 2 && ModelFor(TwoSides).templates[0] == ModelFor(OneSide).templates[0]
    ensures var t := ModelFor(TwoSides).templates;
            t[1] == Template("Backward", SwapPieces(t[0].question), SwapPieces(t[0].answer))
    ensures |ModelFor(Type).templates| == 1
    ensures TypeRef(Back) in ModelFor(Type).templates[0].question
            && TypeRef(Back) in ModelFor(Type).templates[0].answer
    ensures forall m :: m in [ModelFor(OneSide), ModelFor(TwoSides)] ==>
              forall t :: t in m.templates ==> forall p :: p in t.question + t.answer ==> !p.TypeRef?
  {
    SwapThree(Ref(Front), Text(Rule), Ref(Back));
    OnePiece(Ref(Front));
  }

  /// The `Forward` template strings, character for character.
  lemma ForwardStrings()
    ensures Render(Forward.question) == "{{Front}}"
    ensures Render(Forward.answer) == "{{Front}}" + Rule + "{{Back}}"
  {
    assert Render(Forward.question) == "{{Front}}" by {
      OnePiece(Ref(Front));
    }
    assert Render(Forward.answer) == PieceText(Ref(Front)) + Rule + PieceText(Ref(Back)) by {
      RenderThree(Ref(Front), Text(Rule), Ref(Back));
    }
    assert PieceText(Ref(Front)) == "{{Front}}" && PieceText(Ref(Back)) == "{{Back}}";
  }

  /// The `Backward` template strings, character for character.
  lemma BackwardStrings()
    ensures Render(Backward.question) == "{{Back}}"
    ensures Render(Backward.answer) == "{{Back}}" + Rule + "{{Front}}"
  {
    assert Render(Backward.question) == "{{Back}}" by {
      OnePiece(Ref(Back));
    }
    assert Render(Backward.answer) == PieceText(Ref(Back)) + Rule + PieceText(Ref(Front)) by {
      RenderThree(Ref(Back), Text(Rule), Ref(Front));
    }
    assert PieceText(Ref(Back)) == "{{Back}}" && PieceText(Ref(Front)) == "{{Front}}";
  }

  /// The typed-answer template strings, character for character.
  lemma TypeStrings()
    ensures Render(TypeForward.question) == "{{Front}}" + "\n" + "{{type:Back}}"
    ensures Render(TypeForward.answer) == "{{Front}}" + Rule + "{{type:Back}}"
  {
    assert Render(TypeForward.question) == PieceText(Ref(Front)) + "\n" + PieceText(TypeRef(Back)) by {
      RenderThree(Ref(Front), Text("\n"), TypeRef(Back));
    }
    assert Render(TypeForward.answer) == PieceText(Ref(Front)) + Rule + PieceText(TypeRef(Back)) by {
      RenderThree(Ref(Front), Text(Rule), TypeRef(Back));
    }
    assert PieceText(Ref(Front)) == "{{Front}}" && PieceText(TypeRef(Back)) == "{{type:Back}}";
  }

  /// A note: its model and its field values.
  datatype Note = Note(model: NoteModel, fields: seq<string>)

  /// The notes comprehension: one note per chunk, in chunk order.
  function Notes(chunks: seq<Chunk>, d: DeckType): (r: seq<Note>)
    ensures |r| == |chunks|
    ensures forall i :: 0 <= i < |r| ==> r[i].model == ModelFor(d) && |r[i].fields| == |r[i].model.fields|
  {
    if chunks == [] then []
    else [Note(ModelFor(d), [MergedFront(chunks[0]), MergedBack(chunks[0])])] + Notes(chunks[1..], d)
  }

  /// The notes are an order-preserving map over the chunks: the notes of
  /// two lists joined are the two lists of notes joined.
  lemma {:induction false} NotesConcat(xs: seq<Chunk>, ys: seq<Chunk>, d: DeckType)
    ensures Notes(xs + ys, d) == Notes(xs, d) + Notes(ys, d)
  {
    if xs == [] {
      assert xs + ys == ys;
    } else {
      assert (xs + ys)[1..] == xs[1..] + ys;
      NotesConcat(xs[1..], ys, d);
    }
  }

  /// Note `i` holds the merged front of chunk `i` in its first field and
  /// the merged back of the same chunk in its second.
  lemma {:induction false} NoteAt(chunks: seq<Chunk>, d: DeckType, i: nat)
    requires i < |chunks|
    ensures Notes(chunks, d)[i].fields == [MergedFront(chunks[i]), MergedBack(chunks[i])]
  {
    if i > 0 {
      NoteAt(chunks[1..], d, i - 1);
    }
  }

  const DeckId := 2973800905

  /// The deck every note is added to.
  class AnkiDeck {
    const id: nat
    const name: string
    var notes: seq<Note>

    /// `Deck(deck_id, "Generated")`.
    constructor ()
      ensures id == DeckId && name == "Generated" && notes == []
    {
      id := DeckId;
      name := "Generated";
      notes := [];
    }

    /// `add_note`: appends one note.
    method AddNote(note: Note)
      modifies this
      ensures notes == old(notes) + [note]
    {
      notes := notes + [note];
    }
  }

  /// The deck half of `gen_anki`: builds the notes and adds each one, in
  /// order, to a new deck with the fixed id.
  method GenAnki(chunks: seq<Chunk>, d: DeckType) returns (deck: AnkiDeck)
    ensures fresh(deck)
    ensures deck.id == DeckId && deck.name == "Generated"
    ensures deck.notes == Notes(chunks, d)
  {
    var notes := Notes(chunks, d);
    deck := new AnkiDeck();
    for i := 0 to |notes|
      invariant deck.notes == notes[..i]
    {
      deck.AddNote(notes[i]);
      assert notes[..i + 1] == notes[..i] + [notes[i]];
    }
    assert notes[..|notes|] == notes;
  }
}
