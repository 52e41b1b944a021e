# Anki audio annotator, modelled in Dafny

The program asks AnkiConnect for the decks and reads a deck name. It then
walks every card of that deck. For each card whose note's `Front` field does
not yet hold a `[sound:` tag, it:

- synthesizes speech for the field's plain text;
- uploads it as `card_<id>.mp3`, unless a file of that name is already listed;
- appends `\n[sound:card_<id>.mp3]` to the field;
- on the upload path, reads the card's `due` value and writes it back.

The model has four modules:

- `AnkiConnect` (`anki_connect.dfy`): the collection behind AnkiConnect, as the value `Store`.
  - A `Store` holds decks, the collection's answer to each search query, cards, notes, media files and the log of every request sent.
  - It also holds a fixed set of requests the collection rejects, and the due value each card is given when a field of its note is replaced.
  - `Respond` and `Deliver` give the reply to a request and the store after it.
  - Each read wrapper of `main.py` is a pure function returning the new store and the wrapper's result.
  - The class `Collection` holds the same state in mutable fields. Its read methods are proved equal to those pure functions. The three write methods (`StoreMedia`, `UpdateNoteField`, `SetCardDue`) are stated directly: each returns the collection's reply to its request and leaves the store as `Deliver` gives it.
- `SoundTag` (`sound_tag.dfy`): the text conventions.
  - Python's `in` on strings, which drives the marker test.
  - The decimal rendering of a card id and its inverse.
  - The audio file name and the patched `Front` value.
- `Annotate` (`annotate.dfy`): `main()` itself.
  - `Step` is one pass of the loop, `Run` is the loop, and `Session` is the guards followed by the loop.
  - `AnnotateCard`, `AnnotateCards` (a `while` loop) and `AnnotateDeck` do the same on a `Collection` and are proved to agree with them.
- `AnnotateProperties` (`annotate_properties.dfy`): what the loop guarantees and what it does not.
  - Marker test, file name and tag.
  - The two paths after synthesis and their request order.
  - The due read and write-back.
  - Failure isolation, idempotence across runs, the stale note snapshot and the guards.
  - The one-card "Hola" deck end to end.

Speech synthesis and `strip_html` are parameters. `synthesize` gives `None` where gTTS raises. `stripHtml` is any text function.

## Behaviour of the code that the model keeps

- **The due value is read after the field update.** The comments at main.py:319 ("Get the current due date") and main.py:326 ("Restore the due date") describe saving and restoring the due value, but `get_card_due` is called after `update_note_field` (main.py:317-320). So the value "restored" is the one the edit left.
  - `RescheduledDueIsKept` shows that an edit which reschedules the card leaves it rescheduled.
  - `DueRoundTrip` shows that the due value is kept when the edit does not reschedule.
- **The media-exists branch never touches `due`** (main.py:302-308). `ExistingMediaSkipsUpload` states that only the listing and the field update are sent on that path.
- **A failed upload, field update or due write is ignored.** The reply of `store_media_file`, `update_note_field` and `set_card_due` is never inspected, so the outcome does not change when these fail.

## Model

| member | source | states |
|---|---|---|
| AnkiConnect.Collection.Invoke | main.py:14-21 | one request: the reply is the collection's reply to it, the request is appended to the log, and its effect applies unless rejected |
| AnkiConnect.Collection.GetDeckNames | main.py:24-30 | sends deckNames; returns the deck list, or [] on an error reply |
| AnkiConnect.Collection.GetDeckCards | main.py:33-53 | sends findCards with the query `deck:"<name>"`; returns the ids, or [] on an error reply |
| AnkiConnect.Collection.GetCardsInfo | main.py:56-74 | no request for an empty id list; otherwise one cardsInfo request, and [] on an error reply |
| AnkiConnect.Collection.GetNotesInfo | main.py:77-95 | no request for an empty id list; otherwise one notesInfo request, and [] on an error reply |
| AnkiConnect.Collection.StoreMedia | main.py:98-117 | sends storeMediaFile and returns the collection's reply to it; the collection then holds the bytes under that name unless the request is rejected |
| AnkiConnect.Collection.UpdateNoteField | main.py:120-143 | sends updateNoteFields for one field of one note and returns the collection's reply to it |
| AnkiConnect.Collection.GetCardDue | main.py:146-163 | sends cardsInfo for one card; returns its due value, or None on an error reply or an unknown card |
| AnkiConnect.Collection.SetCardDue | main.py:166-184 | sends updateCard with the given due value and returns the collection's reply to it |
| AnkiConnect.Collection.MediaExists | main.py:198-210 | sends mediaFiles; true exactly when the name is listed; a failed listing reads as false |
| AnkiConnect.CardsInfoAnswered | main.py:63-74 | an accepted cardsInfo lookup returns one entry per requested id, in order, and entry i carries the note and due value of card i exactly when the collection holds it; a rejected lookup returns no entries |
| AnkiConnect.FoundNotes | main.py:87-95 | the notesInfo reply holds, for every requested id the collection knows, that note's fields, and nothing else |
| AnkiConnect.ReadLeavesContent | main.py:24-95 | a read request (deckNames, findCards, cardsInfo, notesInfo, mediaFiles) changes no card, note or media file and is logged |
| AnkiConnect.DeliverLogs | main.py:14-21 | every request, accepted or rejected, is appended to the log; a rejected one changes nothing else |
| AnkiConnect.UpdateKeepsCards | main.py:129-136 | accepted or not, updateNoteFields keeps the card set, and a card changes only when it belongs to the edited note and the edit reschedules it |
| AnkiConnect.UpdateTouchesOneField | main.py:129-136 | updateNoteFields replaces one field of one note as a whole value; other notes and other fields stay the same, the card set is kept, no card changes note, and only that note's cards may change due |
| SoundTag.Decimal | main.py:299 | an int renders as a non-empty string of decimal digits |
| SoundTag.DecimalRoundTrip | main.py:299 | reading the rendered digits back gives the card id |
| SoundTag.AudioFileNameInjective | main.py:258-299 | distinct card ids, including the 'No ID' default, get distinct file names |
| SoundTag.DecimalIsNotNoId | main.py:258-299 | no rendered card id equals the 'No ID' default |
| SoundTag.TaggedDecodes | main.py:299-314 | the patched Front value determines both the Front value it was made from and the card id in its file name |
| SoundTag.MarkerAnywhere | main.py:277 | a Front value holding `[sound:` anywhere passes the marker test |
| SoundTag.SoundTagIsAnOccurrence | main.py:277 | a Front value that passes the marker test holds `[sound:` somewhere: with MarkerAnywhere, the test is exactly Python's `in` |
| SoundTag.TaggedHasSoundTag | main.py:277-314 | every patched Front value passes the marker test |
| SoundTag.ShortTextHasNoSoundTag | main.py:277 | text shorter than `[sound:` never passes the marker test |
| Annotate.NoteIds | main.py:249 | the note ids have no duplicates, and an id is listed exactly when some card record carries it |
| Annotate.NotesDict | main.py:255 | every id of the notesInfo reply is a key, and each key maps to the fields of a reply entry with that id |
| Annotate.LastEntryWins | main.py:255 | of several reply entries with one id, the dictionary keeps the last |
| Annotate.Run | main.py:257-331 | the loop yields exactly one outcome per card record |
| Annotate.AnnotateCard | main.py:258-331 | the loop body, request by request, leaves the collection and returns the outcome as Step specifies |
| Annotate.AnnotateCards | main.py:257-331 | the loop over the card records agrees with Run: same final collection, same outcomes in order |
| Annotate.AnnotateDeck | main.py:213-331 | main() from the deck listing to the end of the loop agrees with Session |
| AnnotateProperties.NoBracketNoSoundTag | main.py:277 | text without `[` never passes the marker test |
| AnnotateProperties.MarkedCardSkipped | main.py:276-280 | a card whose Front holds the marker anywhere is skipped and no request is sent |
| AnnotateProperties.SkipIffDecidedUpFront | main.py:259-296 | a card is skipped exactly when its note is missing, it is marked, or synthesis fails; a skip sends nothing and changes nothing; any other card sends at least one request |
| AnnotateProperties.RestoreDueWritesWhatItRead | main.py:319-327 | the due read is one cardsInfo request; the write, sent only when a value came back, sends that same value, so cards, notes and media come out as they went in; the read fails exactly when rejected or the card is unknown |
| AnnotateProperties.AttachSteps | main.py:298-327 | after synthesis: list the media; upload only when not listed; patch Front; restore due only on the upload path |
| AnnotateProperties.BeforePatchFrame | main.py:302-311 | listing and uploading touch no note and no card, and no media file but the card's own |
| AnnotateProperties.ExistingMediaSkipsUpload | main.py:302-308 | a listed file is not uploaded again; the only requests are the listing and the field update; media unchanged; due neither read nor written |
| AnnotateProperties.UploadPathOrder | main.py:310-327 | on the upload path the requests are exactly mediaFiles, storeMediaFile, updateNoteFields, cardsInfo, then updateCard only if a due value came back |
| AnnotateProperties.AttachUploadOrder | main.py:310-327 | UploadPathOrder stated on the steps after synthesis, for any card key, note and audio |
| AnnotateProperties.RestoredDueIsDueAfterEdit | main.py:317-327 | the due value written back is the card's due as the field update left it |
| AnnotateProperties.DueUnknownIff | main.py:320-324 | on the upload path the due read fails exactly when the collection rejects it or does not know the card |
| AnnotateProperties.RescheduledDueIsKept | main.py:317-327 | because the due value is read after the edit, an edit that reschedules the card is not undone |
| AnnotateProperties.DueRoundTrip | main.py:319-327 | when the edit does not reschedule the card, its due value ends where it began and the outcome reports it |
| AnnotateProperties.DueKeptUnlessRescheduled | main.py:317-327 | whatever the collection rejects and on either path, a card the edit does not reschedule comes out of its step unchanged |
| AnnotateProperties.PatchFrame | main.py:305-317 | one request changes at most one field of one note, or one media file; only the cards of the edited note, or the card updateCard names, can change; markers already present survive |
| AnnotateProperties.StepFrame | main.py:258-331 | one card changes only its own note's Front field, its own media file, and the cards of its own note; configuration kept, log extended, markers survive |
| AnnotateProperties.AttachFrame | main.py:298-327 | the steps after synthesis change only the note's Front field, the card's own media file, and the cards of that note; markers survive and the log only grows |
| AnnotateProperties.AttachCardsFrame | main.py:298-327 | after synthesis, the only cards that change are cards of the patched note that the edit reschedules; the due write-back changes none |
| AnnotateProperties.PatchedFrame | main.py:302-317 | listing, optional upload and field update together change only the note's Front field, the card's own media file and the cards of that note |
| AnnotateProperties.PatchAppendsSoundTag | main.py:299-317 | once an accepted patch is sent, the note's Front is the snapshot's Front with `\n[sound:card_<id>.mp3]` appended, and it is marked |
| AnnotateProperties.RunAppend | main.py:257 | the loop over `a + b` is the loop over `a`, then the loop over `b` from there |
| AnnotateProperties.SkippedCardIsolated | main.py:262-296 | a card skipped up front leaves the collection as the run without it would, with its outcome in its place |
| AnnotateProperties.SynthesisFailureIsolated | main.py:287-296 | a synthesis failure is one AudioFailed outcome in the card's place; the other cards run as if it were absent |
| AnnotateProperties.RunFrame | main.py:257-331 | the loop keeps the configuration, only extends the log, keeps markers, and creates only files named after its cards |
| AnnotateProperties.StepMarksNote | main.py:277-317 | with every request accepted, a card's note ends marked |
| AnnotateProperties.RunMarksEveryNote | main.py:257-331 | with every request accepted and a fresh snapshot, every card's note ends marked |
| AnnotateProperties.RunOnMarkedSkipsAll | main.py:276-280 | when every card's note is marked in the snapshot, the loop skips every card and sends nothing |
| AnnotateProperties.SecondRunChangesNothing | main.py:249-280 | after an accepted run, refetching the notes and running again changes nothing and skips every card |
| AnnotateProperties.NotesSnapshot | main.py:249-255 | the note snapshot holds exactly the requested ids the collection knows, each with its current fields; it is empty when the request fails |
| AnnotateProperties.UnjoinedCardSkipped | main.py:249-264 | a card whose note is not in the snapshot is skipped with no request; a card without a note contributes no id |
| AnnotateProperties.SharedNoteLastWriteWins | main.py:255-317 | two cards of one note both patch from the stale snapshot, so the note ends with the second tag only and loses the first |
| AnnotateProperties.GuardExitsChangeNothing | main.py:215-246 | every early exit leaves cards, notes and media as they were |
| AnnotateProperties.DeckGuards | main.py:215-234 | the run stops at the deck list exactly when it is empty or failed, and stops at the deck name exactly when the name is blank or not listed |
| AnnotateProperties.EveryCardGetsAnOutcome | main.py:236-257 | when the loop is reached, the deck was listed, the search succeeded, and every card id found gets one outcome |
| AnnotateProperties.SpanishDeckReachesLoop | main.py:213-256 | for the deck "Spanish" with card 101 of note 501, the guards pass and the loop starts on that one card with the note's fields |
| AnnotateProperties.SpanishDeckLookups | main.py:215-246 | for the deck "Spanish" the deck list, the search and the card lookup return the deck, card 101, and its record with note 501 and due 7 |
| AnnotateProperties.SpanishNoteJoined | main.py:249-255 | card 101's record yields the single note id 501, and the snapshot maps it to its Front value |
| AnnotateProperties.SpanishCardPasses | main.py:262-296 | card 101 with Front `<b>Hola</b>` passes the marker test and the synthesis step |
| AnnotateProperties.SpanishCardDue | main.py:319-327 | card 101's outcome is DueRestored(7) and its due value is still 7 |
| AnnotateProperties.SpanishCardFront | main.py:299-317 | note 501's Front becomes `<b>Hola</b>\n[sound:card_101.mp3]` |
| AnnotateProperties.SpanishCardRequests | main.py:302-327 | card 101 sends the listing, the upload, the patch, the due read and the due write, in that order |
| AnnotateProperties.SpanishDeckAnnotated | main.py:213-331 | the same deck end to end: outcome DueRestored(7), the tagged Front, due 7, and the exact nine requests in order |

## Left out

- HTTP transport: `invoke` (main.py:14-21) becomes one step of the collection model. Transport failures, JSON encoding and the disabled SSL warning (main.py:11) are not modelled. A request the collection rejects gets an error reply and has no effect; the set of rejected requests is fixed for a run, so transient failures are not modelled.
- gTTS and `strip_html` (main.py:187-195, 287-292) are function parameters. BeautifulSoup's text extraction and MP3 encoding are not modelled.
- base64 encoding of the upload (main.py:106): the collection stores the raw bytes.
- `print`, `input` and `time.sleep` (main.py:220-226, 331): the deck name is a parameter taken as already stripped, and console output and the delay are not modelled.
- Python's set order in `list({...})` (main.py:249): the model uses order of first appearance. Any order gives the same set of ids.
- A notesInfo reply entry for an unknown note id is `{}` in AnkiConnect, which makes `note['noteId']` raise KeyError (main.py:255). The model's collection omits such entries, so this crash is not modelled.
- `result.get('result', [])[0]` (main.py:161) raises IndexError on an empty reply. The model only ever asks cardsInfo for one key and always gets one entry back, so the model returns None only for an error reply or an unknown card.
- AnkiConnect's handling of a field the note does not have: updateNoteFields ignores it. So a note without `Front` is patched with "No data" plus the tag to no effect, and it is reprocessed on every run. `SecondRunChangesNothing` therefore requires every note to have `Front`.
- The `Back` field (main.py:270) is only printed, so it is not modelled.
- AnkiConnect's scheduling side effect of a field edit is a fixed per-card due value. Its real scheduling algorithm is not modelled.
- Annotate.Run: its own contract only fixes the number of outcomes; what the loop does is stated by the AnnotateProperties lemmas about it.
- AnnotateProperties.SecondRunChangesNothing: it assumes the collection accepts every request and synthesis never fails during the first run.
