/// The content records shared by both exporters (data_models.py and
/// server/data_models.py): an `Addition` is an example nested under a
/// `Chunk`, a `Chunk` is one learning item, and the server's `ChunkDocument`
/// is the request body with its declared defaults and its closed set of deck
/// types.
module Content {
  import opened Wrappers

  /// No string occurs twice.
  predicate Distinct(s: seq<string>)
  {
    forall i, j :: 0 <= i < j < |s| ==> s[i] != s[j]
  }

  /// `Addition`: an example under a chunk, with its own front and back markup.
  datatype Addition = Addition(id: string, icon: string, front: string, back: string)

  /// `Chunk`: one learning item. `additions` is in presentation order.
  datatype Chunk = Chunk(id: string, level: string, front: string, back: string, additions: seq<Addition>)

  /// Building a `Chunk`: `additions` may be left out, and then defaults to
  /// a new empty list.
  function NewChunk(id: string, level: string, front: string, back: string,
                    additions: Option<seq<Addition>>): (c: Chunk)
    ensures c.id == id && c.level == level && c.front == front && c.back == back
    ensures additions.None? ==> c.additions == []
    ensures additions.Some? ==> c.additions == additions.value
  {
    Chunk(id, level, front, back, if additions.Some? then additions.value else [])
  }

  /// The three flashcard modes.
  datatype DeckType = OneSide | TwoSides | Type

  /// The literal that names a deck type on the wire.
  function DeckTypeName(d: DeckType): (name: string)
    ensures name == "one-side" <==> d == OneSide
    ensures name == "two-sides" <==> d == TwoSides
    ensures name == "type" <==> d == Type
  {
    match d
    case OneSide => "one-side"
    case TwoSides => "two-sides"
    case Type => "type"
  }

  /// Validation of a `deckType` literal: exactly the three names are
  /// accepted.
  function ParseDeckType(name: string): (r: Option<DeckType>)
    ensures r.Some? <==> name == "one-side" || name == "two-sides" || name == "type"
    ensures r.Some? ==> DeckTypeName(r.value) == name
  {
    if name == "one-side" then Some(OneSide)
    else if name == "two-sides" then Some(TwoSides)
    else if name == "type" then Some(Type)
    else None
  }

  /// Naming a deck type and validating the name gives it back, so the names
  /// are pairwise distinct.
  lemma DeckTypeRoundTrip(d: DeckType)
    ensures ParseDeckType(DeckTypeName(d)) == Some(d)
  {
  }

  /// The server's `ChunkDocument` after validation.
  datatype Document = Document(version: int, records: seq<Chunk>, title: string, footer: string,
                               deckType: DeckType)

  /// A request body before validation: `footer` and `deckType` may be absent.
  datatype Request = Request(version: int, records: seq<Chunk>, title: string, footer: Option<string>,
                             deckType: Option<string>)

  /// Validation of a request body: an absent `footer` becomes `""`, an
  /// absent `deckType` becomes `"one-side"`, and any other `deckType` than
  /// the three names is rejected (`None`).
  function Validate(request: Request): (r: Option<Document>)
    ensures r.Some? <==> request.deckType.None? || ParseDeckType(request.deckType.value).Some?
    ensures r.Some? ==>
              && r.value.version == request.version && r.value.records == request.records
              && r.value.title == request.title
              && r.value.footer == (if request.footer.Some? then request.footer.value else "")
              && (request.deckType.None? ==> r.value.deckType == OneSide)
              && (request.deckType.Some? ==> DeckTypeName(r.value.deckType) == request.deckType.value)
  {
    var footer := if request.footer.Some? then request.footer.value else "";
    if request.deckType.None? then
      Some(Document(request.version, request.records, request.title, footer, OneSide))
    else
      match ParseDeckType(request.deckType.value)
      case None => None
      case Some(d) => Some(Document(request.version, request.records, request.title, footer, d))
  }
}
