/// The browser editor's document store (client/src/stores/record.ts): a
/// `ChunkDocument` holds `ChunkRecord` objects that the editor changes in
/// place, each record holds its list of additions, documents are imported
/// from any of the five JSON layouts the editor has written over time, and
/// the store keeps the list of saved document titles.
module RecordStore {
  import opened Wrappers
  import opened Content

  /// The position of the first `id` in `ids` (`findIndex` by id).
  function FirstIndex(ids: seq<string>, id: string): (r: Option<nat>)
    ensures r.Some? ==> r.value < |ids| && ids[r.value] == id && forall j :: 0 <= j < r.value ==> ids[j] != id
    ensures r.None? <==> id !in ids
  {
    if ids == [] then None
    else if ids[0] == id then Some(0)
    else match FirstIndex(ids[1..], id)
      case None => None
      case Some(k) => Some(k + 1)
  }

  /// The ids of a list of additions, in order.
  function AdditionIds(additions: seq<Addition>): (r: seq<string>)
    ensures |r| == |additions| && forall i :: 0 <= i < |r| ==> r[i] == additions[i].id
  {
    if additions == [] then [] else [additions[0].id] + AdditionIds(additions[1..])
  }

  /// `Addition.default()` with the id the generator supplies.
  function DefaultAddition(id: string): (a: Addition)
    ensures a.id == id && a.icon == "→" && a.front == "" && a.back == ""
  {
    Addition(id, "→", "", "")
  }

  /// A list with its element at `i` taken out (`splice(i, 1)`).
  function RemoveAt<T>(s: seq<T>, i: nat): (r: seq<T>)
    requires i < |s|
    ensures |r| == |s| - 1
    ensures forall j :: 0 <= j < i ==> r[j] == s[j]
    ensures forall j :: i <= j < |r| ==> r[j] == s[j + 1]
  {
    s[..i] + s[i + 1..]
  }

  /// Deleting the first element with a given id from a list whose ids are
  /// distinct leaves no element with that id, and every other element.
  lemma RemoveFirstOfDistinct(ids: seq<string>, id: string)
    requires Distinct(ids) && id in ids
    ensures var i := FirstIndex(ids, id).value;
            id !in RemoveAt(ids, i) && Distinct(RemoveAt(ids, i))
            && forall x :: x != id ==> (x in RemoveAt(ids, i) <==> x in ids)
  {
    var i := FirstIndex(ids, id).value;
    var r := RemoveAt(ids, i);
    forall x | x in ids && x != id
      ensures x in r
    {
      var k :| 0 <= k < |ids| && ids[k] == x;
      if k < i {
        assert r[k] == x;
      } else {
        assert r[k - 1] == x;
      }
    }
  }

  /// Adding an element with a new id and then deleting that id restores
  /// the list.
  lemma AddThenRemove<T>(s: seq<T>, ids: seq<string>, x: T, id: string)
    requires |ids| == |s| && id !in ids
    ensures FirstIndex(ids + [id], id) == Some(|s|)
    ensures RemoveAt(s + [x], |s|) == s
  {
    var r := FirstIndex(ids + [id], id);
    assert (ids + [id])[|ids|] == id;
    assert (ids + [id])[..|ids|] == ids;
  }

  /// `ChunkRecord`: one record as the editor holds it. Its id never
  /// changes; the editor rewrites its other fields in place.
  class ChunkRecord {
    const id: string
    var level: string
    var front: string
    var back: string
    var additions: seq<Addition>

    constructor (id: string, level: string, front: string, back: string, additions: seq<Addition>)
      ensures Value() == Chunk(id, level, front, back, additions)
    {
      this.id := id;
      this.level := level;
      this.front := front;
      this.back := back;
      this.additions := additions;
    }

    /// The record's content as a value.
    function Value(): Chunk
      reads this
    {
      Chunk(id, level, front, back, additions)
    }

    /// `ChunkRecord.default()` with the id the generator supplies.
    static method Default(id: string) returns (r: ChunkRecord)
      ensures fresh(r)
      ensures r.Value() == Chunk(id, "-", "", "", [])
    {
      r := new ChunkRecord(id, "-", "", "", []);
    }

    /// `withFront`: replaces the front and returns the record itself.
    method WithFront(front: string) returns (self: ChunkRecord)
      modifies this
      ensures self == this
      ensures Value() == old(Value()).(front := front)
    {
      this.front := front;
      self := this;
    }

    /// `withBack`: replaces the back and returns the record itself.
    method WithBack(back: string) returns (self: ChunkRecord)
      modifies this
      ensures self == this
      ensures Value() == old(Value()).(back := back)
    {
      this.back := back;
      self := this;
    }
  }

  /// The ids of a list of records, in order.
  function RecordIds(records: seq<ChunkRecord>): (r: seq<string>)
    ensures |r| == |records| && forall i :: 0 <= i < |r| ==> r[i] == records[i].id
  {
    if records == [] then [] else [records[0].id] + RecordIds(records[1..])
  }

  /// The contents of a list of records, in order.
  function Values(records: seq<ChunkRecord>): (r: seq<Chunk>)
    reads records
    ensures |r| == |records| && forall i :: 0 <= i < |r| ==> r[i] == records[i].Value()
  {
    if records == [] then [] else [records[0].Value()] + Values(records[1..])
  }

  /// One abbreviation of a section.
  datatype Abbreviation = Abbreviation(abbr: string, full: string)
  type Section = seq<Abbreviation>

  const LatestVersion := 4

  /// A whole document as a value.
  datatype DocumentValue = DocumentValue(version: int, title: string, records: seq<Chunk>,
                                         sections: seq<Section>, footer: string, deckType: DeckType,
                                         createdAt: string, modifiedAt: string)

  /// An imported document: the bare record array of the first layout, or
  /// an object with a version number. A versioned object is taken to carry
  /// every key of the latest layout; the keys its version does not declare
  /// are never read.
  datatype DocumentJson =
    | Legacy(records: seq<Chunk>)
    | Versioned(version: int, title: string, records: seq<Chunk>, sections: seq<Section>,
                footer: string, deckType: DeckType, createdAt: string, modifiedAt: string)

  /// What `fromJSON` makes of a JSON document, `now` being the time both
  /// fresh timestamps are taken from.
  function FromJsonValue(json: DocumentJson, now: string): (v: DocumentValue)
    ensures v.version == LatestVersion && v.records == json.records
    ensures json.Legacy? ==> v == DocumentValue(LatestVersion, "", json.records, [], "", OneSide, now, now)
    ensures json.Versioned? ==> v.title == json.title && v.sections == json.sections
    ensures v.footer == (if json.Versioned? && 2 <= json.version <= 4 then json.footer else "")
    ensures v.deckType == (if json.Versioned? && 3 <= json.version <= 4 then json.deckType else OneSide)
    ensures json.Versioned? && json.version == 4 ==> v.createdAt == json.createdAt && v.modifiedAt == json.modifiedAt
    ensures !(json.Versioned? && json.version == 4) ==> v.createdAt == now && v.modifiedAt == now
  {
    match json
    case Legacy(records) => DocumentValue(LatestVersion, "", records, [], "", OneSide, now, now)
    case Versioned(version, title, records, sections, footer, deckType, createdAt, modifiedAt) =>
      var v := DocumentValue(LatestVersion, title, records, sections, "", OneSide, now, now);
      var v := if version == 2 || version == 3 || version == 4 then v.(footer := footer) else v;
      var v := if version == 3 || version == 4 then v.(deckType := deckType) else v;
      if version == 4 then v.(createdAt := createdAt, modifiedAt := modifiedAt) else v
  }

  /// The JSON `JSON.stringify` writes for a document.
  function ToJson(v: DocumentValue): (json: DocumentJson)
    ensures json.Versioned? && json.version == v.version && json.records == v.records
    ensures v.version == LatestVersion ==> forall now :: FromJsonValue(json, now) == v
  {
    Versioned(v.version, v.title, v.records, v.sections, v.footer, v.deckType, v.createdAt, v.modifiedAt)
  }

  /// Saving a latest-version document and importing it again gives back
  /// the same document, whatever the clock says on import.
  lemma JsonRoundTrip(v: DocumentValue, now: string)
    requires v.version == LatestVersion
    ensures FromJsonValue(ToJson(v), now) == v
  {
  }

  /// Importing an older layout keeps the defaults for every key it lacks.
  lemma OlderLayoutsKeepDefaults(json: DocumentJson, now: string)
    requires json.Legacy? || json.version < 2
    ensures FromJsonValue(json, now).footer == ""
    ensures FromJsonValue(json, now).deckType == OneSide
    ensures FromJsonValue(json, now).createdAt == now
  {
  }

  /// `ChunkDocument`: the document being edited.
  class ChunkDocument {
    var version: int
    var title: string
    var records: seq<ChunkRecord>
    var sections: seq<Section>
    var footer: string
    var deckType: DeckType
    var createdAt: string
    var modifiedAt: string

    /// The document's content as a value.
    function Value(): DocumentValue
      reads this, records
    {
      DocumentValue(version, title, Values(records), sections, footer, deckType, createdAt, modifiedAt)
    }

    /// The constructor: latest version, no sections, empty footer,
    /// one-side cards, both timestamps `now`.
    constructor (title: string, records: seq<ChunkRecord>, now: string)
      ensures this.records == records
      ensures Value() == DocumentValue(LatestVersion, title, Values(records), [], "", OneSide, now, now)
    {
      this.version := LatestVersion;
      this.title := title;
      this.records := records;
      this.sections := [];
      this.footer := "";
      this.deckType := OneSide;
      this.createdAt := now;
      this.modifiedAt := now;
    }

    /// `add_record`: appends one fresh default record; every earlier record
    /// stays where it was, with its content.
    method AddRecord(newId: string) returns (r: ChunkRecord)
      modifies this
      ensures fresh(r) && records == old(records) + [r]
      ensures Values(records) == old(Values(records)) + [Chunk(newId, "-", "", "", [])]
      ensures Value() == old(Value()).(records := Values(records))
    {
      r := ChunkRecord.Default(newId);
      records := records + [r];
      assert Values(records) == Values(old(records)) + [r.Value()] by {
        assert records[..|records| - 1] == old(records);
        ValuesAppend(old(records), r);
      }
    }

    /// `find_record`: the first record with the id, or else a fresh default
    /// record (with the generator's id) that is not in the document.
    method FindRecord(id: string, freshId: string) returns (r: ChunkRecord)
      ensures FirstIndex(RecordIds(records), id).Some? ==>
                r == records[FirstIndex(RecordIds(records), id).value]
      ensures FirstIndex(RecordIds(records), id).None? ==>
                fresh(r) && r !in records && r.Value() == Chunk(freshId, "-", "", "", [])
    {
      var i := FirstIndex(RecordIds(records), id);
      if i.Some? {
        r := records[i.value];
      } else {
        r := ChunkRecord.Default(freshId);
      }
    }

    /// `delete_record`: removes the first record with the id and answers
    /// true, or answers false and changes nothing.
    method DeleteRecord(id: string) returns (deleted: bool)
      modifies this
      ensures deleted <==> id in RecordIds(old(records))
      ensures deleted ==> records == RemoveAt(old(records), FirstIndex(RecordIds(old(records)), id).value)
      ensures !deleted ==> records == old(records)
      ensures version == old(version) && title == old(title) && sections == old(sections)
      ensures footer == old(footer) && deckType == old(deckType)
      ensures createdAt == old(createdAt) && modifiedAt == old(modifiedAt)
    {
      var i := FirstIndex(RecordIds(records), id);
      if i.Some? {
        records := RemoveAt(records, i.value);
        deleted := true;
      } else {
        deleted := false;
      }
    }

    /// `add_addition`: appends a default addition to the first record with
    /// the id. With no such record the addition goes to a detached default
    /// record, and the document does not change.
    method AddAddition(id: string, freshRecordId: string, additionId: string)
      modifies records
      ensures FirstIndex(RecordIds(records), id).Some? ==>
                var target := records[FirstIndex(RecordIds(records), id).value];
                target.additions == old(target.additions) + [DefaultAddition(additionId)]
                && target.Value() == old(target.Value()).(additions := target.additions)
                && forall j :: 0 <= j < |records| && records[j] != target ==> records[j].Value() == old(records[j].Value())
      ensures FirstIndex(RecordIds(records), id).None? ==> Values(records) == old(Values(records))
    {
      var r := FindRecord(id, freshRecordId);
      r.additions := r.additions + [DefaultAddition(additionId)];
    }

    /// `find_addition`: the first addition with `additionId` in the record
    /// `find_record` gives, or else a default addition with the
    /// generator's id.
    method FindAddition(id: string, additionId: string, freshAdditionId: string) returns (a: Addition)
      ensures var i := FirstIndex(RecordIds(records), id);
              var additions := if i.Some? then records[i.value].additions else [];
              && (additionId in AdditionIds(additions) ==>
                    exists k :: 0 <= k < |additions| && additions[k] == a && a.id == additionId
                                && forall j :: 0 <= j < k ==> additions[j].id != additionId)
              && (additionId !in AdditionIds(additions) ==> a == DefaultAddition(freshAdditionId))
    {
      var i := FirstIndex(RecordIds(records), id);
      var additions := if i.Some? then records[i.value].additions else [];
      var ids := AdditionIds(additions);
      var k := FirstIndex(ids, additionId);
      if k.Some? {
        a := additions[k.value];
        assert a.id == additionId && forall j :: 0 <= j < k.value ==> additions[j].id != additionId by {
          assert ids[k.value] == additionId;
          forall j | 0 <= j < k.value ensures additions[j].id != additionId {
            assert ids[j] == additions[j].id;
          }
        }
      } else {
        a := DefaultAddition(freshAdditionId);
      }
    }

    /// `delete_addition`: true exactly when the record exists and has an
    /// addition with `additionId`; then that record loses the first such
    /// addition and nothing else changes.
    method DeleteAddition(id: string, additionId: string, freshRecordId: string) returns (deleted: bool)
      modifies records
      ensures var i := FirstIndex(RecordIds(records), id);
              deleted <==> i.Some? && additionId in AdditionIds(old(records[i.value].additions))
      ensures deleted ==>
                var target := records[FirstIndex(RecordIds(records), id).value];
                target.additions == RemoveAt(old(target.additions), FirstIndex(AdditionIds(old(target.additions)), additionId).value)
                && target.Value() == old(target.Value()).(additions := target.additions)
                && forall j :: 0 <= j < |records| && records[j] != target ==> records[j].Value() == old(records[j].Value())
      ensures !deleted ==> Values(records) == old(Values(records))
    {
      var r := FindRecord(id, freshRecordId);
      var k := FirstIndex(AdditionIds(r.additions), additionId);
      if k.Some? {
        r.additions := RemoveAt(r.additions, k.value);
        deleted := true;
      } else {
        deleted := false;
      }
    }

    /// The keys `fromJSON` copies onto a new document after constructing it.
    method Restore(sections: seq<Section>, footer: string, deckType: DeckType, createdAt: string, modifiedAt: string)
      modifies this
      ensures records == old(records)
      ensures Value() == old(Value()).(sections := sections, footer := footer, deckType := deckType,
                                       createdAt := createdAt, modifiedAt := modifiedAt)
    {
      this.sections, this.footer, this.deckType := sections, footer, deckType;
      this.createdAt, this.modifiedAt := createdAt, modifiedAt;
    }

    /// `ChunkDocument.fromJSON`: builds a fresh document with a fresh
    /// record object per record of the JSON.
    static method FromJson(json: DocumentJson, now: string) returns (doc: ChunkDocument)
      ensures fresh(doc)
      ensures forall j :: 0 <= j < |doc.records| ==> fresh(doc.records[j])
      ensures doc.Value() == FromJsonValue(json, now)
    {
      var records := FromJsonRecords(json.records);
      if json.Legacy? {
        doc := new ChunkDocument("", records, now);
      } else {
        var footer, deckType, createdAt, modifiedAt := "", OneSide, now, now;
        if json.version == 2 || json.version == 3 || json.version == 4 {
          footer := json.footer;
        }
        if json.version == 3 || json.version == 4 {
          deckType := json.deckType;
        }
        if json.version == 4 {
          createdAt, modifiedAt := json.createdAt, json.modifiedAt;
        }
        doc := new ChunkDocument(json.title, records, now);
        doc.Restore(json.sections, footer, deckType, createdAt, modifiedAt);
      }
    }
  }

  /// `json.records.map(ChunkRecord.fromJSON)`: one fresh record object per
  /// JSON record, in order.
  method FromJsonRecords(chunks: seq<Chunk>) returns (records: seq<ChunkRecord>)
    ensures forall j :: 0 <= j < |records| ==> fresh(records[j])
    ensures Values(records) == chunks
  {
    records := [];
    for i := 0 to |chunks|
      invariant |records| == i
      invariant forall j :: 0 <= j < i ==> fresh(records[j])
      invariant forall j :: 0 <= j < i ==> records[j].Value() == chunks[j]
    {
      var c := chunks[i];
      var r := new ChunkRecord(c.id, c.level, c.front, c.back, c.additions);
      records := records + [r];
    }
    assert Values(records) == chunks;
  }

  lemma {:induction false} ValuesAppend(records: seq<ChunkRecord>, r: ChunkRecord)
    ensures Values(records + [r]) == Values(records) + [r.Value()]
  {
  }

  /// `save_document`'s title bookkeeping: the title is added unless it is
  /// already listed.
  function AddTitle(titles: seq<string>, title: string): (r: seq<string>)
    ensures title in r
    ensures forall t :: t in r <==> t in titles || t == title
    ensures Distinct(titles) ==> Distinct(r)
    ensures titles <= r
    ensures |r| == |titles| + (if title in titles then 0 else 1)
    ensures title !in titles ==> r[|titles|] == title
  {
    if title in titles then titles else titles + [title]
  }

  /// `delete_document`'s title bookkeeping: the first occurrence of the
  /// title, if any, is removed.
  function RemoveTitle(titles: seq<string>, title: string): (r: seq<string>)
    ensures multiset(r) + (if title in titles then multiset{title} else multiset{}) == multiset(titles)
    ensures title !in titles ==> r == titles
    ensures title in titles ==> var i := FirstIndex(titles, title).value; r == titles[..i] + titles[i + 1..]
  {
    match FirstIndex(titles, title)
    case None => titles
    case Some(i) =>
      assert titles == titles[..i] + [titles[i]] + titles[i + 1..];
      RemoveAt(titles, i)
  }

  /// Saving a document under a new title and deleting it again restores
  /// the title list; deleting from a duplicate-free list leaves no copy of
  /// the title.
  lemma TitlesRoundTrip(titles: seq<string>, title: string)
    ensures title !in titles ==> RemoveTitle(AddTitle(titles, title), title) == titles
    ensures Distinct(titles) ==> title !in RemoveTitle(titles, title) && Distinct(RemoveTitle(titles, title))
  {
    if title !in titles {
      AddThenRemove(titles, titles, title, title);
    }
    if Distinct(titles) && title in titles {
      RemoveFirstOfDistinct(titles, title);
    }
  }

  /// The store: the document being edited and the titles saved so far.
  class Store {
    var document: ChunkDocument
    var titles: seq<string>

    constructor (document: ChunkDocument, titles: seq<string>)
      ensures this.document == document && this.titles == titles
    {
      this.document := document;
      this.titles := titles;
    }

    /// `save_document`, apart from writing the document to local storage:
    /// lists the title unless it is listed and stamps the modification time.
    method SaveDocument(now: string)
      modifies this, document
      ensures document == old(document) && titles == AddTitle(old(titles), document.title)
      ensures document.Value() == old(document.Value()).(modifiedAt := now)
    {
      titles := AddTitle(titles, document.title);
      document.modifiedAt := now;
    }

    /// `delete_document`, apart from removing the stored copy: drops the
    /// first occurrence of the title.
    method DeleteDocument(title: string)
      modifies this
      ensures document == old(document) && titles == RemoveTitle(old(titles), title)
    {
      titles := RemoveTitle(titles, title);
    }
  }
}
