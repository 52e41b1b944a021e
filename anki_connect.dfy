/**
 * The remote study collection, reached through the AnkiConnect protocol, and
 * the thin client wrappers of main.py (lines 14-210) that send one request
 * each and turn an error reply into a default value.
 *
 * The collection is abstract: `Store` is its state as a value, `Respond` is
 * the reply it gives to a request and `Deliver` the state after it has
 * handled one. Every request, answered or rejected, is appended to `log`, so
 * the order in which the client talks to the collection is part of the state.
 * Which requests the collection answers with a reply whose `error` is set is
 * fixed by the `rejected` set.
 */
module AnkiConnect {

  datatype Option<T> = None | Some(value: T)

  type CardId = nat
  type NoteId = nat
  type Bytes = seq<bv8>

  /** A note's fields: field name to field value. */
  type Fields = map<string, string>

  /** A card id as main() reads it: `card.get('cardId', 'No ID')`. */
  datatype CardKey = Id(id: CardId) | NoId

  /** One entry of a `cardsInfo` reply; a key the entry lacks is None. */
  datatype CardInfo = CardInfo(cardId: CardKey, note: Option<NoteId>, due: Option<int>)

  /** One entry of a `notesInfo` reply. */
  datatype NoteInfo = NoteInfo(noteId: NoteId, fields: Fields)

  /** A card as the collection keeps it: its owning note and its due value. */
  datatype Card = Card(note: NoteId, due: int)

  /** The actions the client sends, with their parameters. */
  datatype Request =
    | DeckNames
    | FindCards(query: string)
    | CardsInfo(keys: seq<CardKey>)
    | NotesInfo(noteIds: seq<NoteId>)
    | MediaFiles
    | StoreMediaFile(filename: string, data: Bytes)
    | UpdateNoteFields(noteId: NoteId, field: string, value: string)
    | UpdateCard(card: CardKey, due: int)

  /** The `result` of a reply, or Error when its `error` is set. */
  datatype Reply =
    | Error
    | Decks(names: seq<string>)
    | CardIds(ids: seq<CardId>)
    | Cards(infos: seq<CardInfo>)
    | Notes(notes: seq<NoteInfo>)
    | Files(filenames: set<string>)
    | Done

  /**
   * The collection. `searches` is the answer to each search query,
   * `rescheduleOnEdit` the due value a card is given when a field of its note
   * is replaced (a card absent from it keeps its due value).
   */
  datatype Store = Store(
    decks: seq<string>,
    searches: map<string, seq<CardId>>,
    cards: map<CardId, Card>,
    notes: map<NoteId, Fields>,
    media: map<string, Bytes>,
    rescheduleOnEdit: map<CardId, int>,
    rejected: set<Request>,
    log: seq<Request>)

  /** What `cardsInfo` reports for one key: an empty entry for an unknown card. */
  function InfoOf(s: Store, k: CardKey): (info: CardInfo)
    ensures info.note.Some? <==> k.Id? && k.id in s.cards
    ensures info.note.Some? ==> info.cardId == k && info.note.value == s.cards[k.id].note
                                && info.due == Some(s.cards[k.id].due)
  {
    if k.Id? && k.id in s.cards then
      CardInfo(k, Some(s.cards[k.id].note), Some(s.cards[k.id].due))
    else
      CardInfo(NoId, None, None)
  }

  /** The notes of `notesInfo`, in request order, skipping ids the collection does not hold. */
  function FoundNotes(notes: map<NoteId, Fields>, ids: seq<NoteId>): (r: seq<NoteInfo>)
    ensures forall i :: 0 <= i < |r| ==> r[i].noteId in ids && r[i].noteId in notes
                                         && r[i].fields == notes[r[i].noteId]
    ensures forall n :: n in ids && n in notes ==> NoteInfo(n, notes[n]) in r
  {
    if ids == [] then []
    else
      var rest := FoundNotes(notes, ids[1..]);
      if ids[0] in notes then [NoteInfo(ids[0], notes[ids[0]])] + rest else rest
  }

  /** A whole-value replace of one field; a field name the note lacks is ignored. */
  function SetField(fields: Fields, name: string, value: string): (r: Fields)
    ensures r.Keys == fields.Keys
    ensures name in fields ==> r[name] == value
    ensures forall f :: f in fields && f != name ==> r[f] == fields[f]
  {
    if name in fields then fields[name := value] else fields
  }

  /** The scheduling side effect of replacing a field of note `n`. */
  function Rescheduled(cards: map<CardId, Card>, resets: map<CardId, int>, n: NoteId): (r: map<CardId, Card>)
    ensures r.Keys == cards.Keys
    ensures forall c :: c in cards ==> r[c].note == cards[c].note
    ensures forall c :: c in cards && (cards[c].note != n || c !in resets) ==> r[c] == cards[c]
    ensures forall c :: c in cards && cards[c].note == n && c in resets ==> r[c].due == resets[c]
  {
    map c | c in cards :: if cards[c].note == n && c in resets then cards[c].(due := resets[c]) else cards[c]
  }

  /** The reply the collection gives to `r`. */
  function Respond(s: Store, r: Request): Reply
  {
    if r in s.rejected then Error
    else
      match r
      case DeckNames => Decks(s.decks)
      case FindCards(q) => CardIds(if q in s.searches then s.searches[q] else [])
      case CardsInfo(keys) => Cards(seq(|keys|, i requires 0 <= i < |keys| => InfoOf(s, keys[i])))
      case NotesInfo(ids) => Notes(FoundNotes(s.notes, ids))
      case MediaFiles => Files(s.media.Keys)
      case StoreMediaFile(_, _) => Done
      case UpdateNoteFields(n, _, _) => if n in s.notes then Done else Error
      case UpdateCard(k, _) => if k.Id? && k.id in s.cards then Done else Error
  }

  /** The collection after it has handled `r`: logged, and applied unless it fails. */
  function Deliver(s: Store, r: Request): Store
  {
    var sent := s.(log := s.log + [r]);
    if r in s.rejected then sent
    else
      match r
      case StoreMediaFile(f, data) => sent.(media := s.media[f := data])
      case UpdateNoteFields(n, field, v) =>
        if n in s.notes then
          sent.(notes := s.notes[n := SetField(s.notes[n], field, v)],
                cards := Rescheduled(s.cards, s.rescheduleOnEdit, n))
        else sent
      case UpdateCard(k, d) =>
        if k.Id? && k.id in s.cards then sent.(cards := s.cards[k.id := s.cards[k.id].(due := d)])
        else sent
      case _ => sent
  }

  /** A request that only reads. */
  predicate IsRead(r: Request)
  {
    r.DeckNames? || r.FindCards? || r.CardsInfo? || r.NotesInfo? || r.MediaFiles?
  }

  /** Everything but the log and the fixed configuration: what a request may change. */
  predicate SameContent(s: Store, t: Store)
  {
    s.cards == t.cards && s.notes == t.notes && s.media == t.media
  }

  /** The configuration a request never changes. */
  predicate SameConfig(s: Store, t: Store)
  {
    && s.decks == t.decks && s.searches == t.searches
    && s.rescheduleOnEdit == t.rescheduleOnEdit && s.rejected == t.rejected
  }

  /** The search query main() sends for a deck (main.py:41-43). */
  function DeckQuery(deck: string): string
  {
    "deck:\"" + deck + "\""
  }

  function Keys(ids: seq<CardId>): (keys: seq<CardKey>)
    ensures |keys| == |ids| && forall i :: 0 <= i < |ids| ==> keys[i] == Id(ids[i])
  {
    seq(|ids|, i requires 0 <= i < |ids| => Id(ids[i]))
  }

  // The wrappers, each as a pure function giving the collection afterwards
  // and the wrapper's return value.

  /** get_deck_names (main.py:24-30). */
  function DeckNamesQuery(s: Store): (Store, seq<string>)
  {
    (Deliver(s, DeckNames), match Respond(s, DeckNames) case Decks(names) => names case _ => [])
  }

  /** get_deck_cards (main.py:33-53). */
  function DeckCardsQuery(s: Store, deck: string): (Store, seq<CardId>)
  {
    var q := FindCards(DeckQuery(deck));
    (Deliver(s, q), match Respond(s, q) case CardIds(ids) => ids case _ => [])
  }

  /** get_cards_info (main.py:56-74): no request at all for an empty id list. */
  function CardsInfoQuery(s: Store, ids: seq<CardId>): (Store, seq<CardInfo>)
  {
    if ids == [] then (s, [])
    else
      var q := CardsInfo(Keys(ids));
      (Deliver(s, q), match Respond(s, q) case Cards(infos) => infos case _ => [])
  }

  /** get_notes_info (main.py:77-95): no request at all for an empty id list. */
  function NotesInfoQuery(s: Store, ids: seq<NoteId>): (Store, seq<NoteInfo>)
  {
    if ids == [] then (s, [])
    else
      var q := NotesInfo(ids);
      (Deliver(s, q), match Respond(s, q) case Notes(notes) => notes case _ => [])
  }

  /** media_exists (main.py:198-210): a failed listing reads as "absent". */
  function MediaExistsQuery(s: Store, filename: string): (Store, bool)
  {
    (Deliver(s, MediaFiles), match Respond(s, MediaFiles) case Files(names) => filename in names case _ => false)
  }

  /** get_card_due (main.py:146-163): None on an error or a missing `due`. */
  function CardDueQuery(s: Store, k: CardKey): (Store, Option<int>)
  {
    var q := CardsInfo([k]);
    (Deliver(s, q), match Respond(s, q) case Cards(infos) => (if |infos| > 0 then infos[0].due else None) case _ => None)
  }

  lemma ReadLeavesContent(s: Store, r: Request)
    requires IsRead(r)
    ensures SameContent(s, Deliver(s, r)) && SameConfig(s, Deliver(s, r))
    ensures Deliver(s, r).log == s.log + [r]
  {
  }

  /** Any request keeps the configuration and appends itself to the log. */
  lemma DeliverLogs(s: Store, r: Request)
    ensures SameConfig(s, Deliver(s, r))
    ensures Deliver(s, r).log == s.log + [r]
    ensures Deliver(s, r).notes.Keys == s.notes.Keys && Deliver(s, r).cards.Keys == s.cards.Keys
    ensures r in s.rejected ==> SameContent(s, Deliver(s, r))
  {
  }

  /**
   * updateNoteFields changes one field of one note and nothing else in the
   * notes; only the due values of that note's cards can move.
   */
  lemma UpdateTouchesOneField(s: Store, n: NoteId, field: string, v: string)
    requires UpdateNoteFields(n, field, v) !in s.rejected && n in s.notes
    ensures var t := Deliver(s, UpdateNoteFields(n, field, v));
      && t.media == s.media
      && t.notes.Keys == s.notes.Keys
      && (forall m :: m in s.notes && m != n ==> t.notes[m] == s.notes[m])
      && t.notes[n].Keys == s.notes[n].Keys
      && (forall f :: f in s.notes[n] && f != field ==> t.notes[n][f] == s.notes[n][f])
      && (field in s.notes[n] ==> t.notes[n][field] == v)
      && t.cards.Keys == s.cards.Keys
      && (forall c :: c in s.cards ==> t.cards[c].note == s.cards[c].note)
      && (forall c :: c in s.cards && s.cards[c].note != n ==> t.cards[c] == s.cards[c])
  {
  }

  /**
   * Whether or not it is accepted, updateNoteFields keeps the set of cards,
   * and a card keeps its note and due value unless it belongs to the edited
   * note and the edit resets it.
   */
  lemma UpdateKeepsCards(s: Store, n: NoteId, field: string, v: string)
    ensures var t := Deliver(s, UpdateNoteFields(n, field, v));
      && t.cards.Keys == s.cards.Keys
      && forall c :: c in s.cards && (s.cards[c].note != n || c !in s.rescheduleOnEdit) ==> t.cards[c] == s.cards[c]
  {
  }

  /**
   * An accepted cardsInfo lookup (main.py:63-74) answers with one entry per
   * requested id, in request order; entry i carries the note and due value of
   * card ids[i] exactly when the collection holds that card. A rejected one
   * leaves the wrapper with no entries.
   */
  lemma CardsInfoAnswered(s: Store, ids: seq<CardId>)
    requires ids != []
    ensures var infos := CardsInfoQuery(s, ids).1;
      && (CardsInfo(Keys(ids)) in s.rejected ==> infos == [])
      && (CardsInfo(Keys(ids)) !in s.rejected ==>
            && |infos| == |ids|
            && forall i :: 0 <= i < |ids| ==>
                 && (infos[i].note.Some? <==> ids[i] in s.cards)
                 && (ids[i] in s.cards ==> infos[i] == CardInfo(Id(ids[i]), Some(s.cards[ids[i]].note),
                                                                 Some(s.cards[ids[i]].due))))
  {
    var q := CardsInfo(Keys(ids));
    if q !in s.rejected {
      var infos := CardsInfoQuery(s, ids).1;
      assert infos == seq(|ids|, i requires 0 <= i < |ids| => InfoOf(s, Keys(ids)[i]));
      forall i | 0 <= i < |ids|
        ensures infos[i] == InfoOf(s, Id(ids[i]))
      {
      }
    }
  }

  /**
   * The collection as a mutable object: the configuration is fixed, the
   * cards, notes, media files and the request log change.
   */
  class Collection {
    const decks: seq<string>
    const searches: map<string, seq<CardId>>
    const rescheduleOnEdit: map<CardId, int>
    const rejected: set<Request>
    var cards: map<CardId, Card>
    var notes: map<NoteId, Fields>
    var media: map<string, Bytes>
    var log: seq<Request>

    function Snapshot(): Store
      reads this
    {
      Store(decks, searches, cards, notes, media, rescheduleOnEdit, rejected, log)
    }

    constructor (s: Store)
      ensures Snapshot() == s
    {
      decks, searches, rescheduleOnEdit, rejected := s.decks, s.searches, s.rescheduleOnEdit, s.rejected;
      cards, notes, media, log := s.cards, s.notes, s.media, s.log;
    }

    /** invoke (main.py:14-21): one round trip. */
    method Invoke(r: Request) returns (reply: Reply)
      modifies this
      ensures reply == Respond(old(Snapshot()), r)
      ensures Snapshot() == Deliver(old(Snapshot()), r)
    {
      reply := Respond(Snapshot(), r);
      var after := Deliver(Snapshot(), r);
      cards, notes, media, log := after.cards, after.notes, after.media, after.log;
    }

    method GetDeckNames() returns (names: seq<string>)
      modifies this
      ensures (Snapshot(), names) == DeckNamesQuery(old(Snapshot()))
    {
      var reply := Invoke(DeckNames);
      if reply.Decks? {
        names := reply.names;
      } else {
        names := [];
      }
    }

    method GetDeckCards(deck: string) returns (ids: seq<CardId>)
      modifies this
      ensures (Snapshot(), ids) == DeckCardsQuery(old(Snapshot()), deck)
    {
      var reply := Invoke(FindCards(DeckQuery(deck)));
      if reply.CardIds? {
        ids := reply.ids;
      } else {
        ids := [];
      }
    }

    method GetCardsInfo(ids: seq<CardId>) returns (infos: seq<CardInfo>)
      modifies this
      ensures (Snapshot(), infos) == CardsInfoQuery(old(Snapshot()), ids)
    {
      if ids == [] {
        return [];
      }
      var reply := Invoke(CardsInfo(Keys(ids)));
      if reply.Cards? {
        infos := reply.infos;
      } else {
        infos := [];
      }
    }

    method GetNotesInfo(ids: seq<NoteId>) returns (infos: seq<NoteInfo>)
      modifies this
      ensures (Snapshot(), infos) == NotesInfoQuery(old(Snapshot()), ids)
    {
      if ids == [] {
        return [];
      }
      var reply := Invoke(NotesInfo(ids));
      if reply.Notes? {
        infos := reply.notes;
      } else {
        infos := [];
      }
    }

    method MediaExists(filename: string) returns (found: bool)
      modifies this
      ensures (Snapshot(), found) == MediaExistsQuery(old(Snapshot()), filename)
    {
      var reply := Invoke(MediaFiles);
      found := reply.Files? && filename in reply.filenames;
    }

    /** store_media_file (main.py:98-117): the reply is handed back to a caller that ignores it. */
    method StoreMedia(filename: string, data: Bytes) returns (reply: Reply)
      modifies this
      ensures reply == Respond(old(Snapshot()), StoreMediaFile(filename, data))
      ensures Snapshot() == Deliver(old(Snapshot()), StoreMediaFile(filename, data))
    {
      reply := Invoke(StoreMediaFile(filename, data));
    }

    /** update_note_field (main.py:120-143): the reply is handed back to a caller that ignores it. */
    method UpdateNoteField(n: NoteId, field: string, value: string) returns (reply: Reply)
      modifies this
      ensures reply == Respond(old(Snapshot()), UpdateNoteFields(n, field, value))
      ensures Snapshot() == Deliver(old(Snapshot()), UpdateNoteFields(n, field, value))
    {
      reply := Invoke(UpdateNoteFields(n, field, value));
    }

    method GetCardDue(k: CardKey) returns (due: Option<int>)
      modifies this
      ensures (Snapshot(), due) == CardDueQuery(old(Snapshot()), k)
    {
      var reply := Invoke(CardsInfo([k]));
      if reply.Cards? && |reply.infos| > 0 {
        due := reply.infos[0].due;
      } else {
        due := None;
      }
    }

    /** set_card_due (main.py:166-184): the reply is handed back to a caller that ignores it. */
    method SetCardDue(k: CardKey, due: int) returns (reply: Reply)
      modifies this
      ensures reply == Respond(old(Snapshot()), UpdateCard(k, due))
      ensures Snapshot() == Deliver(old(Snapshot()), UpdateCard(k, due))
    {
      reply := Invoke(UpdateCard(k, due));
    }
  }
}
