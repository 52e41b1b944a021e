/**
 * main() (main.py:213-331): the guards before the loop, the join of cards to
 * their notes, and the per-card "add audio, then put the due value back"
 * loop.
 *
 * `Step`, `Run` and `Session` state what one card, the loop and the whole of
 * main() do to the collection, as functions of its state before; the methods
 * `AnnotateCard`, `AnnotateCards` and `AnnotateDeck` do the same step by step
 * on a `Collection` and are proved to agree with them.
 *
 * Speech synthesis (gTTS) and the HTML-to-text step (strip_html) are
 * parameters: `synthesize` gives None where gTTS raises, `stripHtml` is any
 * text transformation.
 */
module Annotate {
  import opened AnkiConnect
  import opened SoundTag

  /** `fields.get('Front', {}).get('value', 'No data')` (main.py:269). */
  function FrontOf(fields: Fields): string
  {
    if "Front" in fields then fields["Front"] else "No data"
  }

  /**
   * `list({card.get('note') for card in cards_info if 'note' in card})`
   * (main.py:249). Python leaves the order of the list open; here it is the
   * order of first appearance.
   */
  function NoteIds(cards: seq<CardInfo>): (ids: seq<NoteId>)
    ensures forall i, j :: 0 <= i < j < |ids| ==> ids[i] != ids[j]
    ensures forall n :: n in ids <==> exists c :: c in cards && c.note == Some(n)
  {
    if cards == [] then []
    else
      var earlier := cards[..|cards| - 1];
      var ids := NoteIds(earlier);
      var last := cards[|cards| - 1];
      assert forall c :: c in cards <==> c in earlier || c == last;
      if last.note.Some? && last.note.value !in ids then ids + [last.note.value] else ids
  }

  /**
   * `{note['noteId']: note for note in notes_info}` (main.py:255): every id
   * in the reply is a key, and each key maps to the fields of an entry of the
   * reply with that id (the last one: see LastEntryWins).
   */
  function NotesDict(notes: seq<NoteInfo>): (dict: map<NoteId, Fields>)
    ensures forall i :: 0 <= i < |notes| ==> notes[i].noteId in dict
    ensures forall n :: n in dict ==> NoteInfo(n, dict[n]) in notes
  {
    if notes == [] then map[]
    else
      var last := notes[|notes| - 1];
      NotesDict(notes[..|notes| - 1])[last.noteId := last.fields]
  }

  /** Of several entries with one id, the dictionary keeps the last. */
  lemma {:induction false} LastEntryWins(notes: seq<NoteInfo>, i: nat)
    requires i < |notes|
    requires forall j :: i < j < |notes| ==> notes[j].noteId != notes[i].noteId
    ensures NotesDict(notes)[notes[i].noteId] == notes[i].fields
  {
    if i < |notes| - 1 {
      LastEntryWins(notes[..|notes| - 1], i);
    }
  }

  /** What happened to one card, as main() reports it. */
  datatype Outcome =
    | NoteNotFound        // the card's note is not in the snapshot (main.py:262-264)
    | AlreadyHasAudio     // the Front value holds the marker (main.py:277-280)
    | AudioFailed         // synthesis raised (main.py:293-296)
    | MediaAlreadyExists  // no upload, Front patched, due untouched (main.py:302-308)
    | DueUnknown          // uploaded and patched, due not read (main.py:320-324)
    | DueRestored(due: int)  // uploaded, patched, due read and written back (main.py:327)

  /** The outcomes that leave the collection exactly as it was, log included. */
  predicate IsSkip(o: Outcome)
  {
    o.NoteNotFound? || o.AlreadyHasAudio? || o.AudioFailed?
  }

  /** The Front value main() sees for a card, from the snapshot `dict`. */
  function SeenFront(dict: map<NoteId, Fields>, card: CardInfo): string
    requires card.note.Some? && card.note.value in dict
  {
    FrontOf(dict[card.note.value])
  }

  /**
   * Whether a card is skipped before any request is sent: that depends only
   * on the snapshot and the synthesizer, never on the collection.
   */
  predicate SkippedUpFront(dict: map<NoteId, Fields>, card: CardInfo,
                           synthesize: string -> Option<Bytes>, stripHtml: string -> string)
  {
    || card.note.None? || card.note.value !in dict
    || HasSoundTag(SeenFront(dict, card))
    || synthesize(stripHtml(SeenFront(dict, card))).None?
  }

  /** One pass of the loop body (main.py:258-331) on collection `s`. */
  function Step(s: Store, dict: map<NoteId, Fields>, card: CardInfo,
                synthesize: string -> Option<Bytes>, stripHtml: string -> string): (Store, Outcome)
  {
    if card.note.None? || card.note.value !in dict then (s, NoteNotFound)
    else
      var front := FrontOf(dict[card.note.value]);
      if HasSoundTag(front) then (s, AlreadyHasAudio)
      else
        match synthesize(stripHtml(front))
        case None => (s, AudioFailed)
        case Some(audio) => Attach(s, card.cardId, card.note.value, front, audio)
  }

  /**
   * Upload unless the file is listed, patch the Front value, and on the
   * upload path read and write back the due value (main.py:298-327).
   */
  function Attach(s: Store, k: CardKey, noteId: NoteId, front: string, audio: Bytes): (Store, Outcome)
  {
    var filename := AudioFileName(k);
    var patch := UpdateNoteFields(noteId, "Front", Tagged(front, filename));
    var listed := MediaExistsQuery(s, filename);
    if listed.1 then (Deliver(listed.0, patch), MediaAlreadyExists)
    else RestoreDue(Deliver(Deliver(listed.0, StoreMediaFile(filename, audio)), patch), k)
  }

  /** Read the card's due value and write the same value back (main.py:319-327). */
  function RestoreDue(s: Store, k: CardKey): (Store, Outcome)
  {
    var read := CardDueQuery(s, k);
    match read.1
    case None => (read.0, DueUnknown)
    case Some(d) => (Deliver(read.0, UpdateCard(k, d)), DueRestored(d))
  }

  /** The loop over `cards_info` (main.py:257-331): one Step per card, in order. */
  function Run(s: Store, dict: map<NoteId, Fields>, cards: seq<CardInfo>,
               synthesize: string -> Option<Bytes>, stripHtml: string -> string): (r: (Store, seq<Outcome>))
    ensures |r.1| == |cards|
    decreases |cards|
  {
    if cards == [] then (s, [])
    else
      var prior := Run(s, dict, cards[..|cards| - 1], synthesize, stripHtml);
      var last := Step(prior.0, dict, cards[|cards| - 1], synthesize, stripHtml);
      (last.0, prior.1 + [last.1])
  }

  /** How main() ends. */
  datatype Exit =
    | NoDecks                            // main.py:216-218
    | NoDeckName                         // main.py:228-230
    | DeckNotFound                       // main.py:232-234
    | NoCards                            // main.py:238-240
    | NoCardInfo                         // main.py:244-246
    | Processed(outcomes: seq<Outcome>)  // the loop ran over every card

  /** main() for the (already stripped) deck name the user enters. */
  function Session(s: Store, deckName: string,
                   synthesize: string -> Option<Bytes>, stripHtml: string -> string): (Store, Exit)
  {
    var (s1, decks) := DeckNamesQuery(s);
    if decks == [] then (s1, NoDecks)
    else if deckName == "" then (s1, NoDeckName)
    else if deckName !in decks then (s1, DeckNotFound)
    else
      var (s2, cardIds) := DeckCardsQuery(s1, deckName);
      if cardIds == [] then (s2, NoCards)
      else
        var (s3, cards) := CardsInfoQuery(s2, cardIds);
        if cards == [] then (s3, NoCardInfo)
        else
          var (s4, notes) := NotesInfoQuery(s3, NoteIds(cards));
          var (s5, outcomes) := Run(s4, NotesDict(notes), cards, synthesize, stripHtml);
          (s5, Processed(outcomes))
  }

  /** The loop body, request by request. */
  method AnnotateCard(anki: Collection, dict: map<NoteId, Fields>, card: CardInfo,
                      synthesize: string -> Option<Bytes>, stripHtml: string -> string)
    returns (outcome: Outcome)
    modifies anki
    ensures (anki.Snapshot(), outcome) == Step(old(anki.Snapshot()), dict, card, synthesize, stripHtml)
  {
    if card.note.None? || card.note.value !in dict {
      return NoteNotFound;
    }
    var noteId := card.note.value;
    var front := FrontOf(dict[noteId]);
    if HasSoundTag(front) {
      return AlreadyHasAudio;
    }
    var audio := synthesize(stripHtml(front));
    if audio.None? {
      return AudioFailed;
    }
    var filename := AudioFileName(card.cardId);
    var found := anki.MediaExists(filename);
    if found {
      var _ := anki.UpdateNoteField(noteId, "Front", Tagged(front, filename));
      return MediaAlreadyExists;
    }
    var _ := anki.StoreMedia(filename, audio.value);
    var _ := anki.UpdateNoteField(noteId, "Front", Tagged(front, filename));
    var due := anki.GetCardDue(card.cardId);
    if due.None? {
      return DueUnknown;
    }
    var _ := anki.SetCardDue(card.cardId, due.value);
    outcome := DueRestored(due.value);
  }

  /** The loop over the card records, in the order the lookup returned them. */
  method AnnotateCards(anki: Collection, dict: map<NoteId, Fields>, cards: seq<CardInfo>,
                       synthesize: string -> Option<Bytes>, stripHtml: string -> string)
    returns (outcomes: seq<Outcome>)
    modifies anki
    ensures (anki.Snapshot(), outcomes) == Run(old(anki.Snapshot()), dict, cards, synthesize, stripHtml)
  {
    outcomes := [];
    var i := 0;
    while i < |cards|
      invariant 0 <= i <= |cards|
      invariant (anki.Snapshot(), outcomes) == Run(old(anki.Snapshot()), dict, cards[..i], synthesize, stripHtml)
    {
      var outcome := AnnotateCard(anki, dict, cards[i], synthesize, stripHtml);
      outcomes := outcomes + [outcome];
      assert cards[..i + 1][..i] == cards[..i];
      i := i + 1;
    }
    assert cards[..|cards|] == cards;
  }

  /** main(), from listing the decks to the end of the loop. */
  method AnnotateDeck(anki: Collection, deckName: string,
                      synthesize: string -> Option<Bytes>, stripHtml: string -> string)
    returns (exit: Exit)
    modifies anki
    ensures (anki.Snapshot(), exit) == Session(old(anki.Snapshot()), deckName, synthesize, stripHtml)
  {
    var decks := anki.GetDeckNames();
    if decks == [] {
      return NoDecks;
    }
    if deckName == "" {
      return NoDeckName;
    }
    if deckName !in decks {
      return DeckNotFound;
    }
    var cardIds := anki.GetDeckCards(deckName);
    if cardIds == [] {
      return NoCards;
    }
    var cards := anki.GetCardsInfo(cardIds);
    if cards == [] {
      return NoCardInfo;
    }
    var notes := anki.GetNotesInfo(NoteIds(cards));
    var outcomes := AnnotateCards(anki, NotesDict(notes), cards, synthesize, stripHtml);
    exit := Processed(outcomes);
  }
}
