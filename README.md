# anki_maker core, modelled in Dafny

anki_maker turns a list of language-learning "chunks" into a Word document and
an Anki deck. Each chunk is a front, a back, a level label and a list of
example "additions". The model has one Dafny module per component of that
core. Each module states what the component promises and proves it.

- `Wrappers` (wrappers.dfy): `Option`.
- `Content` (content.dfy): the shared records `Addition`, `Chunk` and `ChunkDocument`, the deck-type literals, and the server's validation of a request body with its field defaults.
- `Merge` (merge.dfy): `Chunk.get_merged_front`, `get_merged_back` and `dissolve_p_tags`. Python's `str.replace` is modelled exactly: non-overlapping matches, found left to right.
- `Markup` (markup.dfy): the `HTMLToWordParser` state machine.
  - `Step` and `Feed` are pure functions. `Step` handles one tag or text event; `Feed` handles a whole list.
  - The classes `Container` and `Parser` are the imperative code: style stack, paragraph stack, current paragraph, and the container's `add_paragraph`/`add_run`.
  - Every handler (`HandleStartTag`, `HandleEndTag`, `HandleData`, and the dispatching `Handle`) is proved to perform exactly one `Step`, and `Parse` to perform `Feed`.
- `Grouping` (grouping.dfy): `_group_by_level`, which is a loop building a dict; the ascending `sorted` visit of the levels in `generate_tables`; and the rows of `_fill_table_data` with their `f"{i+1:02d}"` ordinals.
- `Deck` (deck.dfy): `gen_anki`.
  - The table from deck type to note model.
  - The card template strings.
  - One note per chunk.
  - The `add_note` loop into the deck with the fixed id.
- `RecordStore` (record_store.dfy): the browser editor's `ChunkRecord` and `ChunkDocument` classes. They cover in-place record and addition editing, the version-gated `fromJSON`, and the saved-titles bookkeeping of the record store.
- `AIStore` (ai_store.dfy): the AI assistant store's settings update and its progress counter.

The tokenizer is not modelled. The parser therefore consumes a list of events: start tag, end tag, text. A container is a list of paragraphs plus a flag. The flag says whether the container already owns a first paragraph that the parser reuses: a table cell or a footer does, a bare document does not.

The model follows the code as written, including where it departs from what a reader might expect:

- A style end tag (`</b>`, `</i>`, `</u>`, `</strong>`, `</em>`, `</sub>`) on an empty style stack is an error. The code's `list.pop()` raises, so parsing stops at that event; `Feed` returns `Raised` and `Parse` returns its position. A stray closing tag is not silently tolerated.
- A style end tag pops whatever map is on top, whatever tag pushed it. So in `<b><p>x</b>y`, the `y` is still bold.
- Text before any `<p>` takes the container's paragraph, or appends one, as the current paragraph. It does not push that paragraph on the paragraph stack.
- `dissolve_p_tags` is neither idempotent nor guaranteed to leave no `<p>`: it turns `<<p>p>` into `<p>`.
- The two-sides model is named `LanguageLearningType`, the same name as the type model (server/main.py:69, src/main.py:67). The model keeps that name.

## Model

| member | source | states |
|---|---|---|
| Content.NewChunk | data_models.py:15-20 | a chunk built without additions has an empty additions list; all other fields are taken as given |
| Content.ParseDeckType | server/data_models.py:47 | exactly the three literals `one-side`, `two-sides`, `type` are accepted, each naming its deck type |
| Content.DeckTypeName | server/data_models.py:47 | each deck type is named by exactly its own literal among `one-side`, `two-sides`, `type` |
| Content.DeckTypeRoundTrip | server/data_models.py:47 | naming a deck type and validating the name gives the deck type back |
| Content.Validate | server/data_models.py:42-47 | a request is accepted iff its deckType is absent or one of the three literals; an absent footer becomes `""` and an absent deckType becomes one-side; the other fields are kept |
| Merge.RemoveAll | data_models.py:31-32 | Python `str.replace(pattern, "")` never lengthens its input |
| Merge.RemoveAllShrinks | data_models.py:31-32 | removal shortens the text iff the pattern occurs in it |
| Merge.RemoveAllKeeps | data_models.py:31-32 | removal is the identity on text without the pattern |
| Merge.RemoveAllIdentity | data_models.py:31-32 | removal is the identity exactly on text without the pattern |
| Merge.DissolvePTags | server/data_models.py:37-39 | dissolving `<p>` and then `</p>` never lengthens the text |
| Merge.DissolveIdentity | server/data_models.py:37-39 | dissolving is the identity iff the text contains neither `<p>` nor `</p>` |
| Merge.DissolveJoinsOpenTag | data_models.py:31-32 | `<<p>p>` dissolves to `<p>`, and dissolving again changes it: the operation is not idempotent |
| Merge.DissolveJoinsCloseTag | data_models.py:31-32 | `<</p>/p>` dissolves to `</p>` |
| Merge.MergedFront | data_models.py:22-24 | the front is a prefix of the merged front, and equals it when there are no additions |
| Merge.MergedBack | data_models.py:26-28 | the back is a prefix of the merged back, and equals it when there are no additions |
| Merge.Fragment | data_models.py:24 | an addition's fragment is wrapped in `<p>` … `</p>` and is never longer than the wrapper, indent, icon, space and the unmodified side together |
| Merge.Fragments | data_models.py:23-24 | the joined fragments are empty iff there are no additions |
| Merge.FragmentsConcat | server/data_models.py:25-28 | the fragments of joined addition lists are the joined fragments: one fragment per addition, in order |
| Merge.MergedAppend | server/data_models.py:23-35 | one more addition appends exactly its `<p>&nbsp;&nbsp;icon …</p>` fragment to each merged side |
| Merge.FragmentsOnlyReadSide | data_models.py:24 | the fragments of one side depend only on the icons and that side of the additions |
| Merge.MergedSidesIndependent | data_models.py:22-28 | the merged front never depends on any back field, and the merged back never on any front field |
| Merge.MergedExample | data_models.py:22-28 | a chunk `w`/`d` with one addition `★ ex`/`tr` merges to `w<p>&nbsp;&nbsp;★ ex</p>` and `d<p>&nbsp;&nbsp;★ tr</p>` |
| Markup.TagStyle | html_parser.py:15-24 | `b`/`strong` set bold, `i`/`em` italic, `u` underline, `sub` subscript, and any other tag pushes an empty map |
| Markup.PopsStyle | html_parser.py:39 | an end tag pops the style stack iff its start tag pushes a non-empty style map |
| Markup.Union | html_parser.py:50-52 | a flag is in the combined style iff some map on the stack sets it |
| Markup.MakeRun | html_parser.py:58-62 | the run carries the text, and each font flag is set iff some map on the style stack sets it |
| Markup.Materialize | html_parser.py:27-31 | with no current paragraph, a container that owns a default paragraph yields paragraph 0 unchanged; otherwise one empty paragraph is appended and its index returned; existing paragraphs are never changed |
| Markup.Step | html_parser.py:15-62 | an event fails iff it is a style end tag on an empty style stack; otherwise the parser invariant is kept: a non-empty paragraph stack has the current paragraph on top, and no current paragraph means an empty stack |
| Markup.Feed | html_parser.py:64-67 | the invariant holds after any event list; a raise happens only at a style end tag |
| Markup.StyleStackStep | html_parser.py:36-40 | every start tag pushes one map; only the six style end tags pop one, raising on an empty stack; nothing else touches the style stack |
| Markup.OpenParagraphStep | html_parser.py:25-36 | the first `<p>` with no current paragraph reuses the owned default paragraph, otherwise `<p>` appends a fresh one; it is pushed and becomes current |
| Markup.CloseParagraphStep | html_parser.py:41-45 | `</p>` pops only while more than one paragraph is stacked, making the new top current; otherwise it changes nothing |
| Markup.EmptyDataStep | html_parser.py:47-49 | empty text changes nothing |
| Markup.DataStep | html_parser.py:50-62 | non-empty text appends exactly one run with that text to the current paragraph, whose flags are each set iff some stacked map sets them; text before any `<p>` sets the current paragraph without pushing it |
| Markup.FeedExtends | html_parser.py:31-58 | parsing only appends paragraphs and runs; nothing already in the container changes |
| Markup.FeedGrowth | html_parser.py:25-57 | the paragraph count grows by at most the number of `<p>` tags, plus one only without an owned default and current paragraph |
| Markup.FeedNoEmptyRuns | html_parser.py:47-58 | no zero-length run is ever added |
| Markup.FeedRaises | html_parser.py:38-40 | parsing raises exactly at the first style end tag seen when more style end tags than start tags have been seen; otherwise the style stack ends at that depth |
| Markup.StyleCloseIgnoresName | html_parser.py:39-40 | all six style end tags have the same effect: the name is never matched against the top map |
| Markup.MismatchedCloseKeepsBold | html_parser.py:36-40 | after `<b><p>`, a `</b>` pops the `<p>` map and later text is still bold |
| Markup.Container.AddParagraph | html_parser.py:31-33 | `add_paragraph` appends one empty paragraph and returns its index |
| Markup.Container.AddRun | html_parser.py:58 | `add_run` appends the run to that paragraph only |
| Markup.Parser.constructor | html_parser.py:8-13 | a new parser has empty stacks and no current paragraph |
| Markup.Parser.HandleStartTag | html_parser.py:15-36 | performs exactly the start-tag `Step` |
| Markup.Parser.HandleEndTag | html_parser.py:38-45 | performs exactly the end-tag `Step`, answering whether it raised |
| Markup.Parser.CurrentStyle | html_parser.py:50-52 | the loop over the reversed stack computes the union of all stacked maps |
| Markup.Parser.HandleData | html_parser.py:47-62 | performs exactly the text `Step` |
| Markup.Parser.Handle | html_parser.py:15-62 | each event goes to its handler; the state after it is the `Step` of the state before, and it reports a raise exactly when `Step` fails, leaving the state as it was |
| Markup.Parser.Parse | html_parser.py:64-67 | the container ends as `Feed` says, and the result is the position of the raising event, if any |
| Grouping.Filter | document_utils.py:103-107 | a group is never longer than the input |
| Grouping.FirstSeen | document_utils.py:103-107 | the dict's keys are exactly the levels present, each once |
| Grouping.FilterNonEmpty | document_utils.py:103-107 | a level's group is non-empty iff some chunk carries the level |
| Grouping.GroupByLevel | document_utils.py:103-107 | the loop builds a dict whose keys are the levels in first-seen order, each mapped to the non-empty list of the chunks of that level in input order |
| Grouping.FilterMembers | document_utils.py:103-107 | a chunk is in a level's group iff it is an input chunk with that level |
| Grouping.FilterConcat | document_utils.py:105-106 | grouping keeps relative input order: the group of a concatenation is the concatenation of the groups |
| Grouping.Partition | document_utils.py:103-107 | over distinct levels covering every chunk, the group sizes add up to the input length |
| Grouping.BelowIrreflexive | document_utils.py:93 | Python string order is irreflexive |
| Grouping.BelowTransitive | document_utils.py:93 | Python string order is transitive |
| Grouping.BelowTotal | document_utils.py:93 | any two different strings are ordered one way or the other |
| Grouping.Insert | document_utils.py:93 | insertion adds exactly the one key |
| Grouping.SortLevels | document_utils.py:93 | sorting keeps exactly the keys and their number |
| Grouping.InsertAscending | document_utils.py:93 | inserting a new key into an ascending list keeps it ascending |
| Grouping.SortAscending | document_utils.py:93 | sorting distinct keys yields a strictly ascending list |
| Grouping.VisitOrder | document_utils.py:93 | the visited levels are exactly the levels some record carries |
| Grouping.AscendingUnique | document_utils.py:93 | only one strictly ascending list has a given set of keys |
| Grouping.VisitOrderSpec | document_utils.py:91-93 | every level is visited exactly once, in ascending order, and the order depends only on which levels occur |
| Grouping.Decimal | document_utils.py:141 | decimal notation is a non-empty digit string |
| Grouping.DecimalRoundTrip | document_utils.py:141 | decimal notation reads back as its number |
| Grouping.LeadingZero | document_utils.py:141 | a zero pad does not change the value |
| Grouping.DecimalLeading | document_utils.py:141 | decimal notation starts with `0` only for zero |
| Grouping.Ordinal | document_utils.py:141 | `{:02d}` gives at least two digits |
| Grouping.OrdinalSpec | document_utils.py:141 | the ordinal reads back as its number, is zero-padded iff the number has one digit, and is exactly two wide iff the number is below 100 |
| Grouping.Rows | document_utils.py:139-149 | one row per chunk of the group |
| Grouping.RowsSpec | document_utils.py:139-149 | row `i` is numbered `i+1`, the first one `01`, and holds chunk `i`'s merged front and that same chunk's merged back |
| Grouping.TablesFor | document_utils.py:93-97 | one table per visited level, in visiting order |
| Grouping.TotalRowsFor | document_utils.py:111 | the tables' row counts add up to the group sizes |
| Grouping.Tables | document_utils.py:90-98 | one table per visited level, each headed by its level, which some record carries |
| Grouping.TablesSpec | document_utils.py:90-98 | table `k` is headed by the `k`-th level in ascending order and holds exactly that level's rows, non-empty and numbered from `01` |
| Grouping.TablesRowCount | document_utils.py:90-111 | the tables together hold exactly one row per chunk |
| Deck.Refs | server/main.py:57-63 | a field is collected iff some `{{F}}` or `{{type:F}}` piece of the template refers to it |
| Deck.ModelFor | server/main.py:45-110 | every model declares the field names `Front` and `Back`, in that order; its templates are non-empty, distinctly named, and refer only to declared field names |
| Deck.SwapPieces | server/main.py:80-84 | piece `i` of the result is piece `i` with Front and Back exchanged, and exchanging again gives the original piece |
| Deck.ModelTable | server/main.py:45-110 | the three model ids are pairwise distinct; one-side has the single `Forward` template; two-sides adds `Backward`, which is `Forward` with Front and Back exchanged; type has one template asking for `{{type:Back}}`, and only it uses a typed answer |
| Deck.ForwardStrings | server/main.py:58-62 | the `Forward` question is `{{Front}}` and its answer `{{Front}}<hr id="answer">{{Back}}` |
| Deck.BackwardStrings | server/main.py:80-84 | the `Backward` question is `{{Back}}` and its answer `{{Back}}<hr id="answer">{{Front}}` |
| Deck.TypeStrings | server/main.py:97-101 | the typed template's question is `{{Front}}`, a newline and `{{type:Back}}`; its answer is `{{Front}}<hr id="answer">{{type:Back}}` |
| Deck.Notes | server/main.py:112-118 | one note per chunk, all with the selected model and as many values as the model has fields |
| Deck.NotesConcat | src/main.py:110-116 | the notes are an order-preserving map over the chunks |
| Deck.NoteAt | src/main.py:110-116 | note `i` holds `[merged front, merged back]` of chunk `i` |
| Deck.AnkiDeck.constructor | server/main.py:120-121 | the deck has id 2973800905, the name `Generated`, and no notes |
| Deck.AnkiDeck.AddNote | server/main.py:122-123 | `add_note` appends the note |
| Deck.GenAnki | src/main.py:118-121 | after the loop, the deck with the fixed id holds exactly the notes, in order |
| RecordStore.FirstIndex | client/src/stores/record.ts:116 | `findIndex` by id gives the first position with the id, or none iff the id is absent |
| RecordStore.AdditionIds | client/src/stores/record.ts:134 | the ids of the additions, position by position |
| RecordStore.DefaultAddition | client/src/stores/record.ts:37-39 | a default addition has the generator's id, the icon `→` and empty sides |
| RecordStore.RemoveAt | client/src/stores/record.ts:118 | `splice(i, 1)` removes position `i` and shifts later elements down by one |
| RecordStore.RemoveFirstOfDistinct | client/src/stores/record.ts:132-140 | with distinct ids, deleting by id leaves no element with that id and keeps every other element |
| RecordStore.AddThenRemove | client/src/stores/record.ts:107-122 | adding an element with a new id and deleting that id restores the list |
| RecordStore.ChunkRecord.constructor | client/src/stores/record.ts:49-55 | the record holds exactly the given fields |
| RecordStore.ChunkRecord.Default | client/src/stores/record.ts:67-69 | a fresh record with level `-`, empty front and back, and no additions |
| RecordStore.ChunkRecord.WithFront | client/src/stores/record.ts:57-60 | only the front changes, and the record itself is returned |
| RecordStore.ChunkRecord.WithBack | client/src/stores/record.ts:62-65 | only the back changes, and the record itself is returned |
| RecordStore.RecordIds | client/src/stores/record.ts:112 | the ids of the records, position by position |
| RecordStore.Values | client/src/stores/record.ts:89 | the contents of the records, position by position |
| RecordStore.FromJsonValue | client/src/stores/record.ts:142-160 | the version is always 4; array input gives title `""` and no sections; footer is copied only for versions 2-4, deckType only for 3-4, timestamps only for 4; otherwise the defaults `""`, one-side and the current time |
| RecordStore.ToJson | client/src/stores/record.ts:175 | the stored JSON is a versioned object with the document's version and records, and importing it gives back a latest-version document unchanged at any time |
| RecordStore.JsonRoundTrip | client/src/stores/record.ts:142-160 | importing the JSON of a latest-version document gives back the same document |
| RecordStore.OlderLayoutsKeepDefaults | client/src/stores/record.ts:143-158 | the array layout and version 1 keep the default footer, deck type and creation time |
| RecordStore.ChunkDocument.constructor | client/src/stores/record.ts:96-105 | version 4, no sections, footer `""`, one-side cards, both timestamps the current time |
| RecordStore.ChunkDocument.AddRecord | client/src/stores/record.ts:107-109 | appends exactly one fresh default record at the end; earlier records and their contents are untouched |
| RecordStore.ChunkDocument.FindRecord | client/src/stores/record.ts:111-113 | returns the first record with the id; with none, returns a fresh default record that is not in the document |
| RecordStore.ChunkDocument.DeleteRecord | client/src/stores/record.ts:115-122 | returns true and removes only the first record with the id, or returns false and changes nothing |
| RecordStore.ChunkDocument.AddAddition | client/src/stores/record.ts:124-126 | with a known id, appends one `→` addition with empty sides to that record only; with an unknown id, no record of the document changes |
| RecordStore.ChunkDocument.FindAddition | client/src/stores/record.ts:128-130 | if the first record with the id has an addition with `additionId`, the result is the first such addition of that record; otherwise (no such record or no such addition) it is a default addition with the generator's id |
| RecordStore.ChunkDocument.DeleteAddition | client/src/stores/record.ts:132-140 | true iff the record exists and has the addition id; then only the first such addition of that record is removed, otherwise nothing changes |
| RecordStore.ChunkDocument.Restore | client/src/stores/record.ts:148-158 | copies the imported sections, footer, deck type and timestamps onto the document, leaving its title, version and records as they were |
| RecordStore.ChunkDocument.FromJson | client/src/stores/record.ts:142-160 | builds a fresh document, with one fresh record object per JSON record, whose contents are `FromJsonValue` |
| RecordStore.FromJsonRecords | client/src/stores/record.ts:144-147 | the `map` over the JSON records gives fresh records with the same contents, in order |
| RecordStore.AddTitle | client/src/stores/record.ts:186-188 | the existing titles stay in place and in order; the list is unchanged when the title is already listed, and otherwise grows by exactly the title at the end; a duplicate-free list stays duplicate-free |
| RecordStore.RemoveTitle | client/src/stores/record.ts:228-231 | an unlisted title leaves the list unchanged; a listed one loses exactly its first occurrence, the other titles keeping their order |
| RecordStore.TitlesRoundTrip | client/src/stores/record.ts:185-231 | saving under a new title and deleting it restores the list; deleting from a duplicate-free list leaves no copy |
| RecordStore.Store.SaveDocument | client/src/stores/record.ts:185-190 | lists the title if absent and stamps the modification time |
| RecordStore.Store.DeleteDocument | client/src/stores/record.ts:226-232 | drops the first occurrence of the title |
| AIStore.Merged | client/src/stores/ai.ts:47-49 | each key present in the update overwrites, and each other key is kept |
| AIStore.MergedLaws | client/src/stores/ai.ts:47-49 | an empty update changes nothing; repeating an update changes nothing more; two updates equal their key-wise combination |
| AIStore.FullPatchReplaces | client/src/stores/ai.ts:47-49 | an update with every key replaces the whole configuration |
| AIStore.Start | client/src/stores/ai.ts:61-69 | processing, count 0, total n, no results, no error |
| AIStore.Advance | client/src/stores/ai.ts:71-76 | the count goes up by exactly one; the results grow by one iff an answer is given, keeping earlier ones; `results.length <= processedCount` is kept |
| AIStore.Answers | client/src/stores/ai.ts:72-74 | there are no more answers than outcomes, and every answer is one of the outcomes |
| AIStore.BatchProgress | client/src/stores/ai.ts:61-76 | after a start and a list of outcomes, the count is their number and the results are exactly their answers, in order |
| AIStore.Complete | client/src/stores/ai.ts:78-80 | clears `isProcessing` and changes nothing else |
| AIStore.Fail | client/src/stores/ai.ts:82-85 | stores the message and clears `isProcessing`; counts and results stay |
| AIStore.ConsistentKept | client/src/stores/ai.ts:51-85 | every transition keeps `results.length <= processedCount` |
| AIStore.Store.constructor | client/src/stores/ai.ts:31-45 | the settings and the progress are each the saved value if local storage holds one, and otherwise the default settings and the idle state |
| AIStore.Store.UpdateConfig | client/src/stores/ai.ts:47-49 | the configuration becomes `Merged`; progress is untouched |
| AIStore.Store.ResetProcessingState | client/src/stores/ai.ts:51-59 | back to the idle all-zero state |
| AIStore.Store.StartProcessing | client/src/stores/ai.ts:61-69 | the state becomes `Start(n)` |
| AIStore.Store.UpdateProgress | client/src/stores/ai.ts:71-76 | the state becomes `Advance` of the old state |
| AIStore.Store.CompleteProcessing | client/src/stores/ai.ts:78-80 | the state becomes `Complete` of the old state |
| AIStore.Store.SetError | client/src/stores/ai.ts:82-85 | the state becomes `Fail` of the old state |

## Left out

- HTML tokenization by Python's `HTMLParser` is not modelled. This covers `feed`, lower-casing of tag names, attributes, character references, and buffering of trailing text (`parse` never calls `close()`). The parser consumes a list of events, with tag names taken as already lower-cased.
- A container that owns a default paragraph is taken to have at least one paragraph, as a docx table cell or footer always does.
- python-docx layout is not modelled: page setup, footer fields, fonts, table widths, borders and paragraph styles in `create_document`, `_create_table`, `_apply_table_styles`, `_add_border`, and the `generate_footer` wrapper. These are calls into a foreign library. A table row is modelled as its three cell contents: ordinal, merged front, merged back.
- The loop in `generate_tables` and `_fill_table_data` writes into docx objects. It is modelled by the pure `Tables` and `Rows` values, plus the parser model for each cell.
- genanki internals are not modelled: model and note identity, CSS, `Package`, `write_to_file`. Nor are the FastAPI endpoints, file paths or downloads.
- The root main.py CLI driver is not part of this model. Its `gen_anki` has a single template and is covered by the server version.
- server/ai_completion.py and client/src/services/aiService.ts are not part of this model: they are network calls and a concurrent request pool.
- client/src/stores/toasts.ts is not part of this model: it is driven by timers.
- Browser effects in record.ts are not modelled: localStorage, base64 storage keys, `fetch`, `saveAs`, `prompt`, `alert` and reactivity. `load_document`, `read_document`, `import_document`, `new_document` and `download_export` are storage and download plumbing around the modelled operations, and are left out too.
- Generated ids (`nanoid()`) and the clock (`now()`) are method parameters.
- RecordStore.ChunkDocument.constructor: both timestamps come from one clock reading, where the source reads the clock twice.
- RecordStore.ChunkRecord: the id is a constant. No modelled operation changes it, but the source's field is writable.
- RecordStore.FromJsonValue: JSON input is taken to be well typed. A versioned object carries every key of the latest layout, and only the keys its version declares are read. Missing keys (`undefined`) and non-integer versions are not modelled.
- AIStore.Store.constructor: a saved value is taken as it was saved; a saved progress may be inconsistent or still processing, and nothing is checked or repaired on load.
- RecordStore.ChunkDocument.FindAddition: additions are values, not objects. The source returns the stored `Addition` object when found, so later edits through it change the document, and a detached new one otherwise; the model returns the addition's content in both cases and does not capture that aliasing.
- AIStore.Merged: an update that carries a key with the value `undefined` is not modelled. The spread operator would copy that `undefined`.
- The `from_dict` stubs in data_models.py are supplied by `dataclasses_json` and are not modelled.
- The Python dataclasses' runtime type checks, and pydantic's validation of field types other than `deckType`, are not modelled.
