/**
 * What the annotation loop of main.py guarantees, and what it does not,
 * stated over the pure model of module Annotate.
 */
module AnnotateProperties {
  import opened AnkiConnect
  import opened SoundTag
  import opened Annotate

  /** Note `n` exists, has a Front field, and that field holds the marker. */
  predicate Marked(s: Store, n: NoteId)
  {
    n in s.notes && "Front" in s.notes[n] && HasSoundTag(s.notes[n]["Front"])
  }

  /** `log` only grows: `t` has sent everything `s` had sent, first. */
  predicate LogExtends(s: Store, t: Store)
  {
    |s.log| <= |t.log| && t.log[..|s.log|] == s.log
  }

  /** The file a card's audio is stored under, and the Front value that names it. */
  function PatchFor(dict: map<NoteId, Fields>, card: CardInfo): Request
    requires card.note.Some? && card.note.value in dict
  {
    var front := SeenFront(dict, card);
    UpdateNoteFields(card.note.value, "Front", Tagged(front, AudioFileName(card.cardId)))
  }

  // ---------------------------------------------------------------------
  // The marker test (main.py:276-280)

  /** Text without an opening bracket never holds the marker. */
  lemma {:induction false} NoBracketNoSoundTag(s: string)
    requires '[' !in s
    ensures !HasSoundTag(s)
  {
    if |s| >= |MARKER| {
      assert s[0] in s && MARKER[0] == '[';
    }
    if |s| > 0 {
      assert forall ch :: ch in s[1..] ==> ch in s;
      NoBracketNoSoundTag(s[1..]);
    }
  }

  /**
   * A card whose Front value holds the marker anywhere is skipped: no request
   * is sent, so nothing is uploaded, written or read.
   */
  lemma MarkedCardSkipped(s: Store, dict: map<NoteId, Fields>, card: CardInfo,
                          before: string, after: string,
                          synthesize: string -> Option<Bytes>, stripHtml: string -> string)
    requires card.note.Some? && card.note.value in dict
    requires FrontOf(dict[card.note.value]) == before + MARKER + after
    ensures Step(s, dict, card, synthesize, stripHtml) == (s, AlreadyHasAudio)
  {
    MarkerAnywhere(before, after);
  }

  /**
   * A card is skipped (note missing, marker present, synthesis failed) exactly
   * when this is decided before any request, and then the collection,
   * its log included, is left exactly as it was.
   */
  lemma SkipIffDecidedUpFront(s: Store, dict: map<NoteId, Fields>, card: CardInfo,
                              synthesize: string -> Option<Bytes>, stripHtml: string -> string)
    ensures var (t, o) := Step(s, dict, card, synthesize, stripHtml);
      && (IsSkip(o) <==> SkippedUpFront(dict, card, synthesize, stripHtml))
      && (IsSkip(o) ==> t == s)
      && (!IsSkip(o) ==> |t.log| > |s.log|)
  {
    if !SkippedUpFront(dict, card, synthesize, stripHtml) {
      var front := SeenFront(dict, card);
      var audio := synthesize(stripHtml(front)).value;
      StepAttaches(s, dict, card, synthesize, stripHtml);
      AttachSteps(s, card.cardId, card.note.value, front, audio);
      var patched := Deliver(BeforePatch(s, card.cardId, audio), PatchFor(dict, card));
      RestoreDueWritesWhatItRead(patched, card.cardId);
    }
  }

  // ---------------------------------------------------------------------
  // Reading and writing back the due value (main.py:319-327)

  /**
   * The due read is one cardsInfo request for the card; the write, sent only
   * when a value came back, sends that same value, so cards, notes and media
   * come out as they went in. The read fails exactly when the request is
   * rejected or the card is unknown.
   */
  lemma RestoreDueWritesWhatItRead(s: Store, k: CardKey)
    ensures var (t, o) := RestoreDue(s, k);
      && (o.DueUnknown? || o.DueRestored?)
      && (o.DueUnknown? <==> CardsInfo([k]) in s.rejected || !(k.Id? && k.id in s.cards))
      && t.log == s.log + [CardsInfo([k])] + (if o.DueRestored? then [UpdateCard(k, o.due)] else [])
      && (o.DueRestored? ==> k.Id? && k.id in s.cards && o.due == s.cards[k.id].due)
      && SameConfig(s, t) && SameContent(s, t)
  {
    var q := CardsInfo([k]);
    var read := CardDueQuery(s, k);
    assert read.0 == Deliver(s, q);
    if q !in s.rejected {
      assert Respond(s, q).infos == [InfoOf(s, k)];
      if k.Id? && k.id in s.cards {
        assert s.cards[k.id := s.cards[k.id].(due := s.cards[k.id].due)] == s.cards;
      }
    }
  }

  // ---------------------------------------------------------------------
  // The two paths after synthesis (main.py:298-327)

  /** The state after the listing and, on the upload path, the upload. */
  function BeforePatch(s: Store, k: CardKey, audio: Bytes): Store
  {
    var listed := MediaExistsQuery(s, AudioFileName(k));
    if listed.1 then listed.0 else Deliver(listed.0, StoreMediaFile(AudioFileName(k), audio))
  }

  /** Attach is: list, maybe upload, patch, and on the upload path restore the due value. */
  lemma AttachSteps(s: Store, k: CardKey, noteId: NoteId, front: string, audio: Bytes)
    ensures var filename := AudioFileName(k);
      var patch := UpdateNoteFields(noteId, "Front", Tagged(front, filename));
      var listed := MediaFiles !in s.rejected && filename in s.media;
      var patched := Deliver(BeforePatch(s, k, audio), patch);
      && MediaExistsQuery(s, filename).1 == listed
      && BeforePatch(s, k, audio).log
         == s.log + [MediaFiles] + (if listed then [] else [StoreMediaFile(filename, audio)])
      && Attach(s, k, noteId, front, audio)
         == if listed then (patched, MediaAlreadyExists) else RestoreDue(patched, k)
  {
  }

  /** Once past the up-front checks, a step is Attach on the card. */
  lemma StepAttaches(s: Store, dict: map<NoteId, Fields>, card: CardInfo,
                     synthesize: string -> Option<Bytes>, stripHtml: string -> string)
    requires !SkippedUpFront(dict, card, synthesize, stripHtml)
    ensures Step(s, dict, card, synthesize, stripHtml)
         == Attach(s, card.cardId, card.note.value, SeenFront(dict, card),
                   synthesize(stripHtml(SeenFront(dict, card))).value)
  {
  }

  /** Listing and uploading touch neither notes nor cards, and media only under the card's file. */
  lemma BeforePatchFrame(s: Store, k: CardKey, audio: Bytes)
    ensures var b := BeforePatch(s, k, audio);
      && b.notes == s.notes && b.cards == s.cards && SameConfig(s, b) && LogExtends(s, b)
      && (forall f :: f != AudioFileName(k) ==> (f in b.media <==> f in s.media))
      && (forall f :: f != AudioFileName(k) && f in s.media ==> b.media[f] == s.media[f])
  {
    var b := BeforePatch(s, k, audio);
    var listed := Deliver(s, MediaFiles);
    ReadLeavesContent(s, MediaFiles);
    if b != listed {
      var upload := StoreMediaFile(AudioFileName(k), audio);
      assert b == Deliver(listed, upload);
      DeliverLogs(listed, upload);
      assert b.log == s.log + [MediaFiles, upload];
    }
    assert b.log[..|s.log|] == s.log;
  }

  /**
   * The file is already listed: nothing is uploaded, the Front value is still
   * patched, and the due value is neither read nor written. The only requests
   * are the listing and the field update.
   */
  lemma ExistingMediaSkipsUpload(s: Store, dict: map<NoteId, Fields>, card: CardInfo,
                                 synthesize: string -> Option<Bytes>, stripHtml: string -> string)
    requires !SkippedUpFront(dict, card, synthesize, stripHtml)
    requires MediaFiles !in s.rejected && AudioFileName(card.cardId) in s.media
    ensures var (t, o) := Step(s, dict, card, synthesize, stripHtml);
      && o == MediaAlreadyExists
      && t.log == s.log + [MediaFiles, PatchFor(dict, card)]
      && t.media == s.media
      && t == Deliver(s.(log := s.log + [MediaFiles]), PatchFor(dict, card))
  {
    var front := SeenFront(dict, card);
    AttachSteps(s, card.cardId, card.note.value, front, synthesize(stripHtml(front)).value);
  }

  /**
   * The file is not listed (or the listing failed): upload, then field
   * update, then due read, then, only if a due value came back, the due
   * write, whatever the upload and the update replied.
   */
  lemma UploadPathOrder(s: Store, dict: map<NoteId, Fields>, card: CardInfo,
                        synthesize: string -> Option<Bytes>, stripHtml: string -> string)
    requires !SkippedUpFront(dict, card, synthesize, stripHtml)
    requires MediaFiles in s.rejected || AudioFileName(card.cardId) !in s.media
    ensures var (t, o) := Step(s, dict, card, synthesize, stripHtml);
      var audio := synthesize(stripHtml(SeenFront(dict, card))).value;
      && (o.DueUnknown? || o.DueRestored?)
      && t.log == s.log + [MediaFiles, StoreMediaFile(AudioFileName(card.cardId), audio),
                           PatchFor(dict, card), CardsInfo([card.cardId])]
                        + (if o.DueRestored? then [UpdateCard(card.cardId, o.due)] else [])
  {
    var front := SeenFront(dict, card);
    StepAttaches(s, dict, card, synthesize, stripHtml);
    AttachUploadOrder(s, card.cardId, card.note.value, front, synthesize(stripHtml(front)).value);
  }

  /** UploadPathOrder, stated on Attach. */
  lemma AttachUploadOrder(s: Store, k: CardKey, noteId: NoteId, front: string, audio: Bytes)
    requires MediaFiles in s.rejected || AudioFileName(k) !in s.media
    ensures var (t, o) := Attach(s, k, noteId, front, audio);
      var patch := UpdateNoteFields(noteId, "Front", Tagged(front, AudioFileName(k)));
      && (o.DueUnknown? || o.DueRestored?)
      && t.log == s.log + [MediaFiles, StoreMediaFile(AudioFileName(k), audio), patch, CardsInfo([k])]
                        + (if o.DueRestored? then [UpdateCard(k, o.due)] else [])
  {
    var patch := UpdateNoteFields(noteId, "Front", Tagged(front, AudioFileName(k)));
    AttachSteps(s, k, noteId, front, audio);
    var before := BeforePatch(s, k, audio);
    var patched := Deliver(before, patch);
    assert Attach(s, k, noteId, front, audio) == RestoreDue(patched, k);
    DeliverLogs(before, patch);
    RestoreDueWritesWhatItRead(patched, k);
  }

  /**
   * The due value is read only after the field update, so what is written
   * back is the value as the update left it: the due the card is given on an
   * edit when the edit reschedules it, its old due otherwise.
   */
  function DueAfterEdit(s: Store, patch: Request, c: CardId): int
    requires patch.UpdateNoteFields? && c in s.cards
  {
    if patch !in s.rejected && patch.noteId in s.notes && s.cards[c].note == patch.noteId
       && c in s.rescheduleOnEdit
    then s.rescheduleOnEdit[c]
    else s.cards[c].due
  }

  lemma RestoredDueIsDueAfterEdit(s: Store, dict: map<NoteId, Fields>, card: CardInfo,
                                  synthesize: string -> Option<Bytes>, stripHtml: string -> string)
    requires Step(s, dict, card, synthesize, stripHtml).1.DueRestored?
    ensures card.cardId.Id? && card.cardId.id in s.cards
    ensures var (t, o) := Step(s, dict, card, synthesize, stripHtml);
      var c := card.cardId.id;
      && o.due == DueAfterEdit(s, PatchFor(dict, card), c)
      && c in t.cards
      && (UpdateCard(card.cardId, o.due) !in s.rejected ==> t.cards[c].due == o.due)
  {
    var front := SeenFront(dict, card);
    var audio := synthesize(stripHtml(front)).value;
    StepAttaches(s, dict, card, synthesize, stripHtml);
    AttachSteps(s, card.cardId, card.note.value, front, audio);
    var before := BeforePatch(s, card.cardId, audio);
    BeforePatchFrame(s, card.cardId, audio);
    var patched := Deliver(before, PatchFor(dict, card));
    RestoreDueWritesWhatItRead(patched, card.cardId);
  }

  /**
   * The due read fails exactly when the collection rejects it or does not
   * know the card; then no due write is sent.
   */
  lemma DueUnknownIff(s: Store, dict: map<NoteId, Fields>, card: CardInfo,
                      synthesize: string -> Option<Bytes>, stripHtml: string -> string)
    requires !SkippedUpFront(dict, card, synthesize, stripHtml)
    requires MediaFiles in s.rejected || AudioFileName(card.cardId) !in s.media
    ensures Step(s, dict, card, synthesize, stripHtml).1.DueUnknown?
        <==> CardsInfo([card.cardId]) in s.rejected || !(card.cardId.Id? && card.cardId.id in s.cards)
  {
    var front := SeenFront(dict, card);
    var audio := synthesize(stripHtml(front)).value;
    AttachSteps(s, card.cardId, card.note.value, front, audio);
    var before := BeforePatch(s, card.cardId, audio);
    var patched := Deliver(before, PatchFor(dict, card));
    RestoreDueWritesWhatItRead(patched, card.cardId);
    DeliverLogs(s, MediaFiles);
    DeliverLogs(Deliver(s, MediaFiles), StoreMediaFile(AudioFileName(card.cardId), audio));
    DeliverLogs(before, PatchFor(dict, card));
  }

  /**
   * Because the due value is read after the edit, an edit that reschedules
   * the card to a new value leaves it there: the "restore" keeps the new
   * value, not the one the card had before.
   */
  lemma RescheduledDueIsKept(s: Store, dict: map<NoteId, Fields>, card: CardInfo,
                             synthesize: string -> Option<Bytes>, stripHtml: string -> string)
    requires s.rejected == {}
    requires !SkippedUpFront(dict, card, synthesize, stripHtml)
    requires AudioFileName(card.cardId) !in s.media
    requires card.cardId.Id? && card.cardId.id in s.cards
    requires s.cards[card.cardId.id].note == card.note.value && card.note.value in s.notes
    requires card.cardId.id in s.rescheduleOnEdit
    requires s.rescheduleOnEdit[card.cardId.id] != s.cards[card.cardId.id].due
    ensures var (t, o) := Step(s, dict, card, synthesize, stripHtml);
      && o == DueRestored(s.rescheduleOnEdit[card.cardId.id])
      && card.cardId.id in t.cards && t.cards[card.cardId.id].due != s.cards[card.cardId.id].due
  {
    DueUnknownIff(s, dict, card, synthesize, stripHtml);
    UploadPathOrder(s, dict, card, synthesize, stripHtml);
    RestoredDueIsDueAfterEdit(s, dict, card, synthesize, stripHtml);
  }

  /** When the edit does not reschedule the card, its due value ends where it began. */
  lemma DueRoundTrip(s: Store, dict: map<NoteId, Fields>, card: CardInfo,
                     synthesize: string -> Option<Bytes>, stripHtml: string -> string)
    requires s.rejected == {}
    requires !SkippedUpFront(dict, card, synthesize, stripHtml)
    requires AudioFileName(card.cardId) !in s.media
    requires card.cardId.Id? && card.cardId.id in s.cards && card.cardId.id !in s.rescheduleOnEdit
    ensures var (t, o) := Step(s, dict, card, synthesize, stripHtml);
      && o == DueRestored(s.cards[card.cardId.id].due)
      && card.cardId.id in t.cards && t.cards[card.cardId.id].due == s.cards[card.cardId.id].due
  {
    DueUnknownIff(s, dict, card, synthesize, stripHtml);
    UploadPathOrder(s, dict, card, synthesize, stripHtml);
    RestoredDueIsDueAfterEdit(s, dict, card, synthesize, stripHtml);
  }

  /**
   * Whatever the collection rejects and on either path, a card whose due
   * value the field edit does not reset comes out of its own step unchanged:
   * the write-back only puts back the value just read.
   */
  lemma DueKeptUnlessRescheduled(s: Store, dict: map<NoteId, Fields>, card: CardInfo,
                                 synthesize: string -> Option<Bytes>, stripHtml: string -> string)
    requires card.cardId.Id? && card.cardId.id in s.cards && card.cardId.id !in s.rescheduleOnEdit
    ensures var t := Step(s, dict, card, synthesize, stripHtml).0;
      card.cardId.id in t.cards && t.cards[card.cardId.id] == s.cards[card.cardId.id]
  {
    if !SkippedUpFront(dict, card, synthesize, stripHtml) {
      var front := SeenFront(dict, card);
      StepAttaches(s, dict, card, synthesize, stripHtml);
      AttachCardsFrame(s, card.cardId, card.note.value, front, synthesize(stripHtml(front)).value);
    }
  }

  // ---------------------------------------------------------------------
  // What one step may change

  /** The frame of one request that can only set field `field` of note `n` to `v`, or a media file. */
  lemma PatchFrame(s: Store, r: Request)
    requires r.UpdateNoteFields? ==> HasSoundTag(r.value)
    ensures var t := Deliver(s, r);
      && SameConfig(s, t) && LogExtends(s, t)
      && t.notes.Keys == s.notes.Keys && t.cards.Keys == s.cards.Keys
      && (forall n :: n in s.notes ==> t.notes[n].Keys == s.notes[n].Keys)
      && (forall n :: n in s.notes && !(r.UpdateNoteFields? && r.noteId == n) ==> t.notes[n] == s.notes[n])
      && (forall n, f :: n in s.notes && f in s.notes[n] && !(r.UpdateNoteFields? && f == r.field)
                         ==> t.notes[n][f] == s.notes[n][f])
      && (forall n :: Marked(s, n) ==> Marked(t, n))
      && (forall f :: !(r.StoreMediaFile? && f == r.filename) ==> (f in t.media <==> f in s.media))
      && (forall f :: !(r.StoreMediaFile? && f == r.filename) && f in s.media ==> t.media[f] == s.media[f])
      && (forall c :: c in s.cards && !(r.UpdateNoteFields? && s.cards[c].note == r.noteId)
                         && !(r.UpdateCard? && r.card == Id(c))
                      ==> t.cards[c] == s.cards[c])
  {
    DeliverLogs(s, r);
    var t := Deliver(s, r);
    assert t.log[..|s.log|] == s.log;
    if r in s.rejected || !r.UpdateNoteFields? {
      assert t.notes == s.notes;
    } else if r.noteId in s.notes {
      UpdateTouchesOneField(s, r.noteId, r.field, r.value);
    }
  }

  /**
   * A step changes notes only through the patch of the card's own note, whose
   * Front becomes the snapshot's value plus the card's sound tag, and media
   * only under the card's own file name; markers, once present, stay.
   */
  lemma StepFrame(s: Store, dict: map<NoteId, Fields>, card: CardInfo,
                  synthesize: string -> Option<Bytes>, stripHtml: string -> string)
    ensures var t := Step(s, dict, card, synthesize, stripHtml).0;
      && SameConfig(s, t) && LogExtends(s, t)
      && t.notes.Keys == s.notes.Keys && t.cards.Keys == s.cards.Keys
      && (forall n :: n in s.notes ==> t.notes[n].Keys == s.notes[n].Keys)
      && (forall n :: n in s.notes && card.note != Some(n) ==> t.notes[n] == s.notes[n])
      && (forall n, f :: n in s.notes && f in s.notes[n] && f != "Front" ==> t.notes[n][f] == s.notes[n][f])
      && (forall n :: Marked(s, n) ==> Marked(t, n))
      && (forall f :: f != AudioFileName(card.cardId) ==> (f in t.media <==> f in s.media))
      && (forall f :: f != AudioFileName(card.cardId) && f in s.media ==> t.media[f] == s.media[f])
      && (forall c :: c in s.cards && card.note != Some(s.cards[c].note) ==> t.cards[c] == s.cards[c])
  {
    if !SkippedUpFront(dict, card, synthesize, stripHtml) {
      var front := SeenFront(dict, card);
      StepAttaches(s, dict, card, synthesize, stripHtml);
      AttachFrame(s, card.cardId, card.note.value, front, synthesize(stripHtml(front)).value);
    }
  }

  /** StepFrame, stated on Attach. */
  lemma AttachFrame(s: Store, k: CardKey, noteId: NoteId, front: string, audio: Bytes)
    ensures var t := Attach(s, k, noteId, front, audio).0;
      && SameConfig(s, t) && LogExtends(s, t)
      && t.notes.Keys == s.notes.Keys && t.cards.Keys == s.cards.Keys
      && (forall n :: n in s.notes ==> t.notes[n].Keys == s.notes[n].Keys)
      && (forall n :: n in s.notes && n != noteId ==> t.notes[n] == s.notes[n])
      && (forall n, f :: n in s.notes && f in s.notes[n] && f != "Front" ==> t.notes[n][f] == s.notes[n][f])
      && (forall n :: Marked(s, n) ==> Marked(t, n))
      && (forall f :: f != AudioFileName(k) ==> (f in t.media <==> f in s.media))
      && (forall f :: f != AudioFileName(k) && f in s.media ==> t.media[f] == s.media[f])
      && (forall c :: c in s.cards && s.cards[c].note != noteId ==> t.cards[c] == s.cards[c])
  {
    var t := Attach(s, k, noteId, front, audio).0;
    var patched := Deliver(BeforePatch(s, k, audio), UpdateNoteFields(noteId, "Front", Tagged(front, AudioFileName(k))));
    AttachCardsFrame(s, k, noteId, front, audio);
    AttachAfterPatch(s, k, noteId, front, audio);
    PatchedFrame(s, k, noteId, front, audio);
    assert t.log[..|s.log|] == t.log[..|patched.log|][..|s.log|];
  }

  /** After the patch, Attach at most restores the due value, which changes no content. */
  lemma AttachAfterPatch(s: Store, k: CardKey, noteId: NoteId, front: string, audio: Bytes)
    ensures var t := Attach(s, k, noteId, front, audio).0;
      var patched := Deliver(BeforePatch(s, k, audio), UpdateNoteFields(noteId, "Front", Tagged(front, AudioFileName(k))));
      SameConfig(patched, t) && SameContent(patched, t) && LogExtends(patched, t)
  {
    var patched := Deliver(BeforePatch(s, k, audio), UpdateNoteFields(noteId, "Front", Tagged(front, AudioFileName(k))));
    AttachSteps(s, k, noteId, front, audio);
    RestoreDueWritesWhatItRead(patched, k);
  }

  /**
   * The cards after synthesis: the due write-back puts back what it read, so
   * only the cards of the patched note that the edit resets can change.
   */
  lemma AttachCardsFrame(s: Store, k: CardKey, noteId: NoteId, front: string, audio: Bytes)
    ensures var t := Attach(s, k, noteId, front, audio).0;
      && t.cards.Keys == s.cards.Keys
      && (forall c :: c in s.cards && (s.cards[c].note != noteId || c !in s.rescheduleOnEdit)
                      ==> t.cards[c] == s.cards[c])
  {
    var patch := UpdateNoteFields(noteId, "Front", Tagged(front, AudioFileName(k)));
    AttachSteps(s, k, noteId, front, audio);
    BeforePatchFrame(s, k, audio);
    var before := BeforePatch(s, k, audio);
    var patched := Deliver(before, patch);
    UpdateKeepsCards(before, noteId, "Front", Tagged(front, AudioFileName(k)));
    if !(MediaFiles !in s.rejected && AudioFileName(k) in s.media) {
      RestoreDueWritesWhatItRead(patched, k);
    }
  }

  /** The frame of the listing, the upload and the field update together. */
  lemma PatchedFrame(s: Store, k: CardKey, noteId: NoteId, front: string, audio: Bytes)
    ensures var t := Deliver(BeforePatch(s, k, audio), UpdateNoteFields(noteId, "Front", Tagged(front, AudioFileName(k))));
      && SameConfig(s, t) && LogExtends(s, t)
      && t.notes.Keys == s.notes.Keys && t.cards.Keys == s.cards.Keys
      && (forall n :: n in s.notes ==> t.notes[n].Keys == s.notes[n].Keys)
      && (forall n :: n in s.notes && n != noteId ==> t.notes[n] == s.notes[n])
      && (forall n, f :: n in s.notes && f in s.notes[n] && f != "Front" ==> t.notes[n][f] == s.notes[n][f])
      && (forall n :: Marked(s, n) ==> Marked(t, n))
      && (forall f :: f != AudioFileName(k) ==> (f in t.media <==> f in s.media))
      && (forall f :: f != AudioFileName(k) && f in s.media ==> t.media[f] == s.media[f])
      && (forall c :: c in s.cards && s.cards[c].note != noteId ==> t.cards[c] == s.cards[c])
  {
    var before := BeforePatch(s, k, audio);
    var patch := UpdateNoteFields(noteId, "Front", Tagged(front, AudioFileName(k)));
    var t := Deliver(before, patch);
    TaggedHasSoundTag(front, AudioFileName(k));
    BeforePatchFrame(s, k, audio);
    PatchFrame(before, patch);
    assert LogExtends(s, t) by {
      assert t.log[..|s.log|] == t.log[..|before.log|][..|s.log|];
    }
  }

  /**
   * The patch: with the update accepted, the card's note gets the snapshot's
   * Front value followed by "\n[sound:card_<id>.mp3]" and no other field of
   * it changes.
   */
  lemma PatchAppendsSoundTag(s: Store, dict: map<NoteId, Fields>, card: CardInfo,
                             synthesize: string -> Option<Bytes>, stripHtml: string -> string)
    requires !SkippedUpFront(dict, card, synthesize, stripHtml)
    requires PatchFor(dict, card) !in s.rejected
    requires card.note.value in s.notes && "Front" in s.notes[card.note.value]
    ensures var t := Step(s, dict, card, synthesize, stripHtml).0;
      var n := card.note.value;
      && n in t.notes && "Front" in t.notes[n]
      && t.notes[n]["Front"] == Tagged(SeenFront(dict, card), AudioFileName(card.cardId))
      && Marked(t, n)
  {
    var n := card.note.value;
    var front := SeenFront(dict, card);
    var filename := AudioFileName(card.cardId);
    var audio := synthesize(stripHtml(front)).value;
    StepAttaches(s, dict, card, synthesize, stripHtml);
    AttachSteps(s, card.cardId, n, front, audio);
    TaggedHasSoundTag(front, filename);
    var before := BeforePatch(s, card.cardId, audio);
    BeforePatchFrame(s, card.cardId, audio);
    var patched := Deliver(before, PatchFor(dict, card));
    assert patched.notes[n]["Front"] == Tagged(front, filename);
    RestoreDueWritesWhatItRead(patched, card.cardId);
  }

  // ---------------------------------------------------------------------
  // The loop (main.py:257-331)

  /** Running over `a + b` is running over `a`, then over `b` from where it left off. */
  lemma {:induction false} RunAppend(s: Store, dict: map<NoteId, Fields>, a: seq<CardInfo>, b: seq<CardInfo>,
                                     synthesize: string -> Option<Bytes>, stripHtml: string -> string)
    ensures var (sa, oa) := Run(s, dict, a, synthesize, stripHtml);
      var (sb, ob) := Run(sa, dict, b, synthesize, stripHtml);
      Run(s, dict, a + b, synthesize, stripHtml) == (sb, oa + ob)
    decreases |b|
  {
    if b == [] {
      assert a + b == a;
      var oa := Run(s, dict, a, synthesize, stripHtml).1;
      assert oa + [] == oa;
    } else {
      var b' := b[..|b| - 1];
      var last := b[|b| - 1];
      assert (a + b)[..|a + b| - 1] == a + b';
      assert (a + b)[|a + b| - 1] == last;
      RunAppend(s, dict, a, b', synthesize, stripHtml);
      var (sa, oa) := Run(s, dict, a, synthesize, stripHtml);
      var (sb', ob') := Run(sa, dict, b', synthesize, stripHtml);
      var (sb, o) := Step(sb', dict, last, synthesize, stripHtml);
      assert Run(sa, dict, b, synthesize, stripHtml) == (sb, ob' + [o]);
      assert Run(s, dict, a + b, synthesize, stripHtml) == (sb, (oa + ob') + [o]);
      assert (oa + ob') + [o] == oa + (ob' + [o]);
    }
  }

  /**
   * Failure isolation: a card skipped before any request (synthesis failed,
   * note missing, marker present) changes nothing for the cards after it; the
   * run is the run without that card, with its outcome in its place.
   */
  lemma SkippedCardIsolated(s: Store, dict: map<NoteId, Fields>, a: seq<CardInfo>, card: CardInfo,
                            b: seq<CardInfo>,
                            synthesize: string -> Option<Bytes>, stripHtml: string -> string)
    requires SkippedUpFront(dict, card, synthesize, stripHtml)
    ensures var (t, outcomes) := Run(s, dict, a + [card] + b, synthesize, stripHtml);
      var (u, others) := Run(s, dict, a + b, synthesize, stripHtml);
      && t == u
      && |outcomes| == |others| + 1
      && IsSkip(outcomes[|a|])
      && outcomes == others[..|a|] + [outcomes[|a|]] + others[|a|..]
  {
    var (sa, oa) := Run(s, dict, a, synthesize, stripHtml);
    RunAppend(s, dict, a, [card], synthesize, stripHtml);
    RunAppend(s, dict, a + [card], b, synthesize, stripHtml);
    RunAppend(s, dict, a, b, synthesize, stripHtml);
    assert Run(sa, dict, [card], synthesize, stripHtml).0 == sa by {
      assert [card][..0] == [];
    }
    assert [card][..0] == [];
  }

  /**
   * A synthesis failure is one AudioFailed outcome in the card's place and
   * nothing else: the cards after it run as if it were not there.
   */
  lemma SynthesisFailureIsolated(s: Store, dict: map<NoteId, Fields>, a: seq<CardInfo>, card: CardInfo,
                                 b: seq<CardInfo>,
                                 synthesize: string -> Option<Bytes>, stripHtml: string -> string)
    requires card.note.Some? && card.note.value in dict && !HasSoundTag(SeenFront(dict, card))
    requires synthesize(stripHtml(SeenFront(dict, card))).None?
    ensures var (t, outcomes) := Run(s, dict, a + [card] + b, synthesize, stripHtml);
      var (u, others) := Run(s, dict, a + b, synthesize, stripHtml);
      && t == u
      && outcomes == others[..|a|] + [AudioFailed] + others[|a|..]
  {
    SkippedCardIsolated(s, dict, a, card, b, synthesize, stripHtml);
    var (sa, oa) := Run(s, dict, a, synthesize, stripHtml);
    RunAppend(s, dict, a, [card], synthesize, stripHtml);
    RunAppend(s, dict, a + [card], b, synthesize, stripHtml);
    assert [card][..0] == [];
  }

  /** The frame of one step, carried over the whole loop. */
  lemma {:induction false} RunFrame(s: Store, dict: map<NoteId, Fields>, cards: seq<CardInfo>,
                                    synthesize: string -> Option<Bytes>, stripHtml: string -> string)
    ensures var t := Run(s, dict, cards, synthesize, stripHtml).0;
      && SameConfig(s, t) && LogExtends(s, t)
      && t.notes.Keys == s.notes.Keys
      && (forall n :: n in s.notes ==> t.notes[n].Keys == s.notes[n].Keys)
      && (forall n :: Marked(s, n) ==> Marked(t, n))
      && (forall f :: f in t.media ==> f in s.media || exists c :: c in cards && f == AudioFileName(c.cardId))
    decreases |cards|
  {
    if cards != [] {
      var earlier := cards[..|cards| - 1];
      var last := cards[|cards| - 1];
      RunFrame(s, dict, earlier, synthesize, stripHtml);
      var mid := Run(s, dict, earlier, synthesize, stripHtml).0;
      StepFrame(mid, dict, last, synthesize, stripHtml);
      var t := Run(s, dict, cards, synthesize, stripHtml).0;
      assert t == Step(mid, dict, last, synthesize, stripHtml).0;
      assert forall c :: c in earlier ==> c in cards;
      assert LogExtends(s, t) by {
        assert t.log[..|s.log|] == t.log[..|mid.log|][..|s.log|];
      }
    }
  }

  // ---------------------------------------------------------------------
  // Idempotence across runs (main.py:277, 305, 314)

  /** The collection accepts every request and the synthesizer never fails. */
  ghost predicate Cooperative(s: Store, synthesize: string -> Option<Bytes>)
  {
    s.rejected == {} && forall text :: synthesize(text).Some?
  }

  /** `dict` is a refetched copy of the collection's notes. */
  predicate FreshSnapshot(s: Store, dict: map<NoteId, Fields>)
  {
    forall n :: n in dict ==> n in s.notes && dict[n] == s.notes[n]
  }

  /** Every card has a note in the snapshot, and that note has a Front field. */
  predicate AllJoined(dict: map<NoteId, Fields>, cards: seq<CardInfo>)
  {
    forall c :: c in cards ==> c.note.Some? && c.note.value in dict && "Front" in dict[c.note.value]
  }

  lemma StepMarksNote(s: Store, dict: map<NoteId, Fields>, card: CardInfo,
                      synthesize: string -> Option<Bytes>, stripHtml: string -> string)
    requires Cooperative(s, synthesize)
    requires card.note.Some? && card.note.value in dict && card.note.value in s.notes
    requires "Front" in s.notes[card.note.value]
    requires HasSoundTag(SeenFront(dict, card)) ==> Marked(s, card.note.value)
    ensures Marked(Step(s, dict, card, synthesize, stripHtml).0, card.note.value)
  {
    if !HasSoundTag(SeenFront(dict, card)) {
      PatchAppendsSoundTag(s, dict, card, synthesize, stripHtml);
    }
  }

  /** With everything accepted, one run leaves the marker in the note of every card. */
  lemma {:induction false} RunMarksEveryNote(s: Store, dict: map<NoteId, Fields>, cards: seq<CardInfo>,
                                             synthesize: string -> Option<Bytes>, stripHtml: string -> string)
    requires Cooperative(s, synthesize) && FreshSnapshot(s, dict) && AllJoined(dict, cards)
    ensures forall c :: c in cards ==> Marked(Run(s, dict, cards, synthesize, stripHtml).0, c.note.value)
    decreases |cards|
  {
    if cards != [] {
      var earlier := cards[..|cards| - 1];
      var last := cards[|cards| - 1];
      assert forall c :: c in cards <==> c in earlier || c == last;
      RunMarksEveryNote(s, dict, earlier, synthesize, stripHtml);
      RunFrame(s, dict, earlier, synthesize, stripHtml);
      var mid := Run(s, dict, earlier, synthesize, stripHtml).0;
      StepFrame(mid, dict, last, synthesize, stripHtml);
      assert Marked(s, last.note.value) ==> Marked(mid, last.note.value);
      StepMarksNote(mid, dict, last, synthesize, stripHtml);
    }
  }

  /** When every card's note is marked in the snapshot, the loop skips them all and sends nothing. */
  lemma {:induction false} RunOnMarkedSkipsAll(s: Store, dict: map<NoteId, Fields>, cards: seq<CardInfo>,
                                               synthesize: string -> Option<Bytes>, stripHtml: string -> string)
    requires forall c :: c in cards ==> c.note.Some? && c.note.value in dict && HasSoundTag(FrontOf(dict[c.note.value]))
    ensures Run(s, dict, cards, synthesize, stripHtml).0 == s
    ensures forall o <- Run(s, dict, cards, synthesize, stripHtml).1 :: o == AlreadyHasAudio
    decreases |cards|
  {
    if cards != [] {
      var earlier := cards[..|cards| - 1];
      assert forall c :: c in earlier ==> c in cards;
      RunOnMarkedSkipsAll(s, dict, earlier, synthesize, stripHtml);
      var last := cards[|cards| - 1];
      assert last in cards;
      assert Step(s, dict, last, synthesize, stripHtml) == (s, AlreadyHasAudio);
    }
  }

  /**
   * Idempotence: after a run where everything was accepted, the next run
   * (which fetches the notes afresh, main.py:249-255) skips every card and
   * changes nothing but the log of its one notesInfo request.
   */
  lemma SecondRunChangesNothing(s: Store, dict: map<NoteId, Fields>, cards: seq<CardInfo>,
                                synthesize: string -> Option<Bytes>, stripHtml: string -> string)
    requires Cooperative(s, synthesize) && FreshSnapshot(s, dict) && AllJoined(dict, cards)
    ensures var first := Run(s, dict, cards, synthesize, stripHtml).0;
      var (fetched, notes) := NotesInfoQuery(first, NoteIds(cards));
      && SameContent(first, fetched)
      && Run(fetched, NotesDict(notes), cards, synthesize, stripHtml).0 == fetched
      && forall o <- Run(fetched, NotesDict(notes), cards, synthesize, stripHtml).1 :: o == AlreadyHasAudio
  {
    var first := Run(s, dict, cards, synthesize, stripHtml).0;
    assert forall c :: c in cards ==> Marked(first, c.note.value) by {
      RunMarksEveryNote(s, dict, cards, synthesize, stripHtml);
    }
    assert first.rejected == {} by {
      RunFrame(s, dict, cards, synthesize, stripHtml);
    }
    var ids := NoteIds(cards);
    var (fetched, notes) := NotesInfoQuery(first, ids);
    var refetched := NotesDict(notes);
    if ids != [] {
      ReadLeavesContent(first, NotesInfo(ids));
    }
    NotesSnapshot(first, ids);
    forall c | c in cards
      ensures c.note.Some? && c.note.value in refetched && HasSoundTag(FrontOf(refetched[c.note.value]))
    {
      assert c.note.value in ids;
    }
    RunOnMarkedSkipsAll(fetched, refetched, cards, synthesize, stripHtml);
  }

  // ---------------------------------------------------------------------
  // The join of cards to notes (main.py:249-264)

  /**
   * The snapshot main() builds holds, for every requested id the collection
   * knows, exactly the collection's fields for it; nothing if the request
   * fails.
   */
  lemma NotesSnapshot(s: Store, ids: seq<NoteId>)
    ensures var dict := NotesDict(NotesInfoQuery(s, ids).1);
      && (NotesInfo(ids) !in s.rejected ==> forall n :: n in dict <==> n in ids && n in s.notes)
      && (NotesInfo(ids) in s.rejected ==> dict == map[])
      && FreshSnapshot(s, dict)
  {
    var notes := NotesInfoQuery(s, ids).1;
    var dict := NotesDict(notes);
    if ids != [] && NotesInfo(ids) !in s.rejected {
      assert notes == FoundNotes(s.notes, ids);
      forall n | n in ids && n in s.notes ensures n in dict {
        var i :| 0 <= i < |notes| && notes[i] == NoteInfo(n, s.notes[n]);
      }
      forall n | n in dict ensures n in ids && n in s.notes && dict[n] == s.notes[n] {
        var i :| 0 <= i < |notes| && notes[i] == NoteInfo(n, dict[n]);
      }
    }
  }

  /**
   * A card whose note is not in the snapshot is skipped with no request; in
   * particular a card without a 'note' key never contributes an id.
   */
  lemma UnjoinedCardSkipped(s: Store, dict: map<NoteId, Fields>, card: CardInfo,
                            synthesize: string -> Option<Bytes>, stripHtml: string -> string)
    requires card.note.None? || card.note.value !in dict
    ensures Step(s, dict, card, synthesize, stripHtml) == (s, NoteNotFound)
    ensures forall cards :: card.note.None? ==> NoteIds(cards + [card]) == NoteIds(cards)
  {
    forall cards | card.note.None? ensures NoteIds(cards + [card]) == NoteIds(cards) {
      assert (cards + [card])[..|cards|] == cards;
    }
  }

  // ---------------------------------------------------------------------
  // The stale snapshot (main.py:255, 314-317)

  /**
   * Two cards of one note: both patch from the same unrefreshed snapshot, so
   * the second write replaces the first and the note ends with the second
   * card's tag only.
   */
  lemma SharedNoteLastWriteWins(s: Store, dict: map<NoteId, Fields>, first: CardInfo, second: CardInfo,
                                synthesize: string -> Option<Bytes>, stripHtml: string -> string)
    requires s.rejected == {}
    requires first.note.Some? && first.note == second.note && first.note.value in dict
    requires first.note.value in s.notes && "Front" in s.notes[first.note.value]
    requires !HasSoundTag(SeenFront(dict, first)) && synthesize(stripHtml(SeenFront(dict, first))).Some?
    ensures var t := Run(s, dict, [first, second], synthesize, stripHtml).0;
      var n := first.note.value;
      && n in t.notes && "Front" in t.notes[n]
      && t.notes[n]["Front"] == Tagged(SeenFront(dict, first), AudioFileName(second.cardId))
      && t.notes[n]["Front"] != Tagged(Tagged(SeenFront(dict, first), AudioFileName(first.cardId)),
                                       AudioFileName(second.cardId))
  {
    var n := first.note.value;
    var front := SeenFront(dict, first);
    var mid := Step(s, dict, first, synthesize, stripHtml).0;
    RunOfTwo(s, dict, first, second, synthesize, stripHtml);
    StepFrame(s, dict, first, synthesize, stripHtml);
    assert mid.rejected == {} && n in mid.notes && "Front" in mid.notes[n];
    assert SeenFront(dict, second) == front;
    PatchAppendsSoundTag(mid, dict, second, synthesize, stripHtml);
    var t := Step(mid, dict, second, synthesize, stripHtml).0;
    assert t == Run(s, dict, [first, second], synthesize, stripHtml).0;
    assert t.notes[n]["Front"] == Tagged(front, AudioFileName(second.cardId));
    TaggedTwiceIsLonger(front, AudioFileName(first.cardId), AudioFileName(second.cardId));
  }

  lemma TaggedTwiceIsLonger(front: string, a: string, b: string)
    ensures |Tagged(Tagged(front, a), b)| > |Tagged(front, b)|
  {
  }

  lemma RunOfTwo(s: Store, dict: map<NoteId, Fields>, first: CardInfo, second: CardInfo,
                 synthesize: string -> Option<Bytes>, stripHtml: string -> string)
    ensures Run(s, dict, [first, second], synthesize, stripHtml).0
         == Step(Step(s, dict, first, synthesize, stripHtml).0, dict, second, synthesize, stripHtml).0
  {
    assert [first, second][..1] == [first];
    assert [first][..0] == [];
    assert Run(s, dict, [], synthesize, stripHtml).0 == s;
    assert Run(s, dict, [first], synthesize, stripHtml).0 == Step(s, dict, first, synthesize, stripHtml).0;
  }

  // ---------------------------------------------------------------------
  // The guards before the loop (main.py:215-246)

  /** Every early exit of main() leaves cards, notes and media as they were. */
  lemma GuardExitsChangeNothing(s: Store, deckName: string,
                                synthesize: string -> Option<Bytes>, stripHtml: string -> string)
    ensures var (t, exit) := Session(s, deckName, synthesize, stripHtml);
      !exit.Processed? ==> SameContent(s, t)
  {
  }

  /**
   * The run stops at the deck list exactly when that list is empty, an error
   * reply included; it stops at the deck name exactly when the name is blank
   * or not a listed deck.
   */
  lemma DeckGuards(s: Store, deckName: string,
                   synthesize: string -> Option<Bytes>, stripHtml: string -> string)
    ensures var exit := Session(s, deckName, synthesize, stripHtml).1;
      && (exit == NoDecks <==> DeckNames in s.rejected || s.decks == [])
      && (exit == NoDeckName <==> DeckNames !in s.rejected && s.decks != [] && deckName == "")
      && (exit == DeckNotFound <==> DeckNames !in s.rejected && s.decks != [] && deckName != ""
                                    && deckName !in s.decks)
  {
  }

  /** When main() reaches the loop, every card returned by the lookup gets exactly one outcome. */
  lemma EveryCardGetsAnOutcome(s: Store, deckName: string,
                               synthesize: string -> Option<Bytes>, stripHtml: string -> string)
    requires Session(s, deckName, synthesize, stripHtml).1.Processed?
    ensures DeckNames !in s.rejected && deckName in s.decks
    ensures var q := DeckQuery(deckName);
      && FindCards(q) !in s.rejected && q in s.searches
      && |Session(s, deckName, synthesize, stripHtml).1.outcomes| == |s.searches[q]|
  {
  }

  // ---------------------------------------------------------------------
  // One deck, one card, end to end (main.py:213-331)

  /** A deck "Spanish" holding card 101 of note 501, Front "<b>Hola</b>", due 7. */
  function SpanishDeck(): Store
  {
    Store(["Spanish"], map[DeckQuery("Spanish") := [101]], map[101 := Card(501, 7)],
          map[501 := map["Front" := "<b>Hola</b>"]], map[], map[], {}, [])
  }

  lemma RunOfOne(s: Store, dict: map<NoteId, Fields>, card: CardInfo,
                 synthesize: string -> Option<Bytes>, stripHtml: string -> string)
    ensures Run(s, dict, [card], synthesize, stripHtml)
         == (Step(s, dict, card, synthesize, stripHtml).0, [Step(s, dict, card, synthesize, stripHtml).1])
  {
    assert [card][..0] == [];
    assert Run(s, dict, [], synthesize, stripHtml) == (s, []);
    assert [] + [Step(s, dict, card, synthesize, stripHtml).1] == [Step(s, dict, card, synthesize, stripHtml).1];
  }

  /**
   * The card is annotated: the audio is uploaded as card_101.mp3, the Front
   * value gains the sound tag, and the due value 7 is read and written back;
   * the requests go out in exactly this order.
   */
  lemma SpanishDeckAnnotated(s: Store, audio: Bytes, synthesize: string -> Option<Bytes>, stripHtml: string -> string)
    requires s == SpanishDeck()
    requires stripHtml("<b>Hola</b>") == "Hola" && synthesize("Hola") == Some(audio)
    ensures var (t, exit) := Session(s, "Spanish", synthesize, stripHtml);
      && exit == Processed([DueRestored(7)])
      && 501 in t.notes && "Front" in t.notes[501]
      && t.notes[501]["Front"] == "<b>Hola</b>\n[sound:card_101.mp3]"
      && 101 in t.cards && t.cards[101].due == 7
      && t.log == [DeckNames, FindCards(DeckQuery("Spanish")), CardsInfo([Id(101)]), NotesInfo([501]),
                   MediaFiles, StoreMediaFile("card_101.mp3", audio),
                   UpdateNoteFields(501, "Front", "<b>Hola</b>\n[sound:card_101.mp3]"),
                   CardsInfo([Id(101)]), UpdateCard(Id(101), 7)]
  {
    var card := CardInfo(Id(101), Some(501), Some(7));
    var dict := map[501 := map["Front" := "<b>Hola</b>"]];
    var u := SpanishDeckJoined();
    var tagged := "<b>Hola</b>\n[sound:card_101.mp3]";
    SpanishDeckReachesLoop(synthesize, stripHtml);
    SpanishCardDue(u, dict, card, synthesize, stripHtml);
    SpanishCardFront(u, dict, card, synthesize, stripHtml);
    SpanishCardRequests(u, dict, card, audio, synthesize, stripHtml);
    var patch := UpdateNoteFields(501, "Front", tagged);
    HolaTagged();
    assert PatchFor(dict, card) == patch;
    AppendOne(u.log, [MediaFiles, StoreMediaFile("card_101.mp3", audio), patch, CardsInfo([Id(101)])],
              UpdateCard(Id(101), 7));
    assert u.log == [DeckNames, FindCards(DeckQuery("Spanish")), CardsInfo([Id(101)]), NotesInfo([501])];
    ConcatFourFive(DeckNames, FindCards(DeckQuery("Spanish")), CardsInfo([Id(101)]), NotesInfo([501]),
                   MediaFiles, StoreMediaFile("card_101.mp3", audio), patch,
                   CardsInfo([Id(101)]), UpdateCard(Id(101), 7));
  }

  /** The one card of the scenario passes the up-front checks. */
  lemma SpanishCardPasses(synthesize: string -> Option<Bytes>, stripHtml: string -> string)
    requires stripHtml("<b>Hola</b>") == "Hola" && synthesize("Hola").Some?
    ensures !SkippedUpFront(map[501 := map["Front" := "<b>Hola</b>"]], CardInfo(Id(101), Some(501), Some(7)),
                            synthesize, stripHtml)
  {
    var dict := map[501 := map["Front" := "<b>Hola</b>"]];
    assert SeenFront(dict, CardInfo(Id(101), Some(501), Some(7))) == "<b>Hola</b>";
    NoBracketNoSoundTag("<b>Hola</b>");
  }

  /** The snapshot and the card record of the scenario. */
  predicate SpanishCard(dict: map<NoteId, Fields>, card: CardInfo)
  {
    dict == map[501 := map["Front" := "<b>Hola</b>"]] && card == CardInfo(Id(101), Some(501), Some(7))
  }

  /** The loop part of the scenario: outcome and due value. */
  lemma SpanishCardDue(u: Store, dict: map<NoteId, Fields>, card: CardInfo,
                       synthesize: string -> Option<Bytes>, stripHtml: string -> string)
    requires u == SpanishDeckJoined() && SpanishCard(dict, card)
    requires stripHtml("<b>Hola</b>") == "Hola" && synthesize("Hola").Some?
    ensures var r := Run(u, dict, [card], synthesize, stripHtml);
      && r.1 == [DueRestored(7)]
      && 101 in r.0.cards && r.0.cards[101].due == 7
  {
    SpanishCardPasses(synthesize, stripHtml);
    HolaTagged();
    RunOfOne(u, dict, card, synthesize, stripHtml);
    DueRoundTrip(u, dict, card, synthesize, stripHtml);
  }

  /** The loop part of the scenario: the tagged Front value. */
  lemma SpanishCardFront(u: Store, dict: map<NoteId, Fields>, card: CardInfo,
                         synthesize: string -> Option<Bytes>, stripHtml: string -> string)
    requires u == SpanishDeckJoined() && SpanishCard(dict, card)
    requires stripHtml("<b>Hola</b>") == "Hola" && synthesize("Hola").Some?
    ensures var t := Run(u, dict, [card], synthesize, stripHtml).0;
      && 501 in t.notes && "Front" in t.notes[501]
      && t.notes[501]["Front"] == "<b>Hola</b>\n[sound:card_101.mp3]"
  {
    SpanishCardPasses(synthesize, stripHtml);
    HolaTagged();
    RunOfOne(u, dict, card, synthesize, stripHtml);
    PatchAppendsSoundTag(u, dict, card, synthesize, stripHtml);
  }

  /** The loop part of the scenario: the requests it sends, in order. */
  lemma SpanishCardRequests(u: Store, dict: map<NoteId, Fields>, card: CardInfo, audio: Bytes,
                            synthesize: string -> Option<Bytes>, stripHtml: string -> string)
    requires u == SpanishDeckJoined() && SpanishCard(dict, card)
    requires stripHtml("<b>Hola</b>") == "Hola" && synthesize("Hola") == Some(audio)
    ensures Run(u, dict, [card], synthesize, stripHtml).0.log
         == u.log + [MediaFiles, StoreMediaFile(AudioFileName(card.cardId), audio), PatchFor(dict, card),
                     CardsInfo([card.cardId])] + [UpdateCard(card.cardId, 7)]
  {
    SpanishCardPasses(synthesize, stripHtml);
    RunOfOne(u, dict, card, synthesize, stripHtml);
    assert Step(u, dict, card, synthesize, stripHtml).1 == DueRestored(7) by {
      DueRoundTrip(u, dict, card, synthesize, stripHtml);
    }
    UploadPathOrder(u, dict, card, synthesize, stripHtml);
  }

  lemma AppendOne<T>(prefix: seq<T>, xs: seq<T>, x: T)
    ensures prefix + xs + [x] == prefix + (xs + [x])
  {
  }

  lemma ConcatFourFive<T>(a: T, b: T, c: T, d: T, e: T, f: T, g: T, h: T, i: T)
    ensures [a, b, c, d] + [e, f, g, h, i] == [a, b, c, d, e, f, g, h, i]
  {
  }

  lemma HolaTagged()
    ensures AudioFileName(Id(101)) == "card_101.mp3"
    ensures Tagged("<b>Hola</b>", "card_101.mp3") == "<b>Hola</b>\n[sound:card_101.mp3]"
  {
    Card101Digits();
  }

  lemma Card101Digits()
    ensures Decimal(101) == "101"
  {
    assert Decimal(10) == "10";
  }

  /** The deck after the four lookups that precede the loop. */
  function SpanishDeckJoined(): Store
  {
    SpanishDeck().(log := [DeckNames, FindCards(DeckQuery("Spanish")), CardsInfo([Id(101)]), NotesInfo([501])])
  }

  lemma SpanishDeckReachesLoop(synthesize: string -> Option<Bytes>, stripHtml: string -> string)
    ensures var card := CardInfo(Id(101), Some(501), Some(7));
      Session(SpanishDeck(), "Spanish", synthesize, stripHtml)
      == (Run(SpanishDeckJoined(), map[501 := map["Front" := "<b>Hola</b>"]], [card], synthesize, stripHtml).0,
          Processed(Run(SpanishDeckJoined(), map[501 := map["Front" := "<b>Hola</b>"]], [card], synthesize, stripHtml).1))
  {
    var s := SpanishDeck();
    SpanishDeckLookups(s);
    var s3 := CardsInfoQuery(DeckCardsQuery(DeckNamesQuery(s).0, "Spanish").0, [101]);
    SpanishNoteJoined(s3.0, s3.1);
  }

  /** The deck listing, the search and the card lookup. */
  lemma SpanishDeckLookups(s: Store)
    requires s == SpanishDeck()
    ensures var s1 := DeckNamesQuery(s);
      var s2 := DeckCardsQuery(s1.0, "Spanish");
      && s1.1 == ["Spanish"]
      && s2.1 == [101]
      && CardsInfoQuery(s2.0, [101])
         == (s.(log := [DeckNames, FindCards(DeckQuery("Spanish")), CardsInfo([Id(101)])]),
             [CardInfo(Id(101), Some(501), Some(7))])
  {
    var s1 := DeckNamesQuery(s);
    var s2 := DeckCardsQuery(s1.0, "Spanish");
    assert s1.0 == s.(log := [DeckNames]);
    assert s2.0 == s.(log := [DeckNames, FindCards(DeckQuery("Spanish"))]);
    assert s2.1 == [101];
    assert Keys([101]) == [Id(101)];
    var q := CardsInfo([Id(101)]);
    assert Respond(s2.0, q).infos == [InfoOf(s2.0, Id(101))];
    assert InfoOf(s2.0, Id(101)) == CardInfo(Id(101), Some(501), Some(7));
    var s3 := CardsInfoQuery(s2.0, [101]);
    assert s3.0 == Deliver(s2.0, q);
    assert s3.0.log == [DeckNames, FindCards(DeckQuery("Spanish")), q];
    assert s3.0 == s.(log := [DeckNames, FindCards(DeckQuery("Spanish")), q]);
    assert s3.1 == [CardInfo(Id(101), Some(501), Some(7))];
  }

  /** The note lookup and the dictionary built from it. */
  lemma SpanishNoteJoined(s: Store, cards: seq<CardInfo>)
    requires s == SpanishDeck().(log := [DeckNames, FindCards(DeckQuery("Spanish")), CardsInfo([Id(101)])])
    requires cards == [CardInfo(Id(101), Some(501), Some(7))]
    ensures NoteIds(cards) == [501]
    ensures var (s4, notes) := NotesInfoQuery(s, [501]);
      && s4 == SpanishDeckJoined()
      && NotesDict(notes) == map[501 := map["Front" := "<b>Hola</b>"]]
  {
    assert NoteIds(cards[..0]) == [];
    assert FoundNotes(s.notes, [501]) == [NoteInfo(501, map["Front" := "<b>Hola</b>"])];
    assert NotesDict([NoteInfo(501, map["Front" := "<b>Hola</b>"])]) == map[501 := map["Front" := "<b>Hola</b>"]];
  }
}
