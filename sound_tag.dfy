/**
 * The text conventions the annotation loop relies on: the substring test that
 * decides whether a card already has audio (main.py:277), the audio file name
 * built from the card id (main.py:299) and the Front value with a sound tag
 * appended (main.py:305, 314).
 */
module SoundTag {
  import opened AnkiConnect

  /** The text whose presence marks a Front value as already annotated. */
  const MARKER: string := "[sound:"

  /** Python's `sub in s` on strings. */
  predicate Contains(s: string, sub: string)
    decreases |s|
  {
    sub <= s || (|s| > 0 && Contains(s[1..], sub))
  }

  predicate HasSoundTag(front: string)
  {
    Contains(front, MARKER)
  }

  predicate IsDigit(ch: char)
  {
    '0' <= ch <= '9'
  }

  function DigitChar(d: nat): (ch: char)
    requires d < 10
    ensures IsDigit(ch) && ch as int - '0' as int == d
  {
    ('0' as int + d) as char
  }

  /** The decimal rendering of a card id, as an f-string writes an int. */
  function Decimal(n: nat): (r: string)
    ensures |r| > 0 && forall ch <- r :: IsDigit(ch)
  {
    if n < 10 then [DigitChar(n)] else Decimal(n / 10) + [DigitChar(n % 10)]
  }

  /** The number a string of digits denotes; the partner of Decimal. */
  function DigitsValue(s: string): nat
    requires forall ch <- s :: IsDigit(ch)
  {
    if s == [] then 0
    else
      assert forall ch <- s[..|s| - 1] :: ch in s;
      assert IsDigit(s[|s| - 1]);
      DigitsValue(s[..|s| - 1]) * 10 + (s[|s| - 1] as int - '0' as int)
  }

  lemma {:induction false} DecimalRoundTrip(n: nat)
    ensures DigitsValue(Decimal(n)) == n
  {
    if n >= 10 {
      var prefix := Decimal(n / 10);
      var r := prefix + [DigitChar(n % 10)];
      assert r[..|r| - 1] == prefix;
      DecimalRoundTrip(n / 10);
    }
  }

  /** The card id as main() interpolates it: the number, or the 'No ID' default. */
  function IdText(k: CardKey): string
  {
    match k
    case Id(n) => Decimal(n)
    case NoId => "No ID"
  }

  /** `f"card_{card_id}.mp3"` (main.py:299). */
  function AudioFileName(k: CardKey): string
  {
    "card_" + IdText(k) + ".mp3"
  }

  /** The Front value after `front_html + f'\n[sound:{audio_filename}]'` (main.py:305, 314). */
  function Tagged(front: string, filename: string): string
  {
    front + "\n[sound:" + filename + "]"
  }

  /** The patched Front value, spelled out: the old text, a newline, then `[sound:card_<id>.mp3]`. */
  lemma TaggedSpelledOut(front: string, k: CardKey)
    ensures Tagged(front, AudioFileName(k)) == front + "\n[sound:card_" + IdText(k) + ".mp3]"
  {
    var id := IdText(k);
    calc {
      Tagged(front, AudioFileName(k));
      front + "\n[sound:" + ("card_" + id + ".mp3") + "]";
      front + ("\n[sound:" + "card_") + id + (".mp3" + "]");
      front + "\n[sound:card_" + id + ".mp3]";
    }
  }

  /** The marker is found wherever it stands in the text. */
  lemma {:induction false} MarkerAnywhere(before: string, after: string)
    ensures HasSoundTag(before + MARKER + after)
  {
    var s := before + MARKER + after;
    if before == [] {
      assert s == MARKER + after;
      assert MARKER <= s;
    } else {
      assert s[1..] == before[1..] + MARKER + after;
      MarkerAnywhere(before[1..], after);
    }
  }

  /** The converse of MarkerAnywhere: text that passes the test holds the marker somewhere. */
  lemma {:induction false} SoundTagIsAnOccurrence(s: string)
    requires HasSoundTag(s)
    ensures exists before, after :: s == before + MARKER + after
  {
    if MARKER <= s {
      assert s == [] + MARKER + s[|MARKER|..];
    } else {
      SoundTagIsAnOccurrence(s[1..]);
      var before, after :| s[1..] == before + MARKER + after;
      assert s == ([s[0]] + before) + MARKER + after;
    }
  }

  /** A patched Front value always carries the marker. */
  lemma TaggedHasSoundTag(front: string, filename: string)
    ensures HasSoundTag(Tagged(front, filename))
  {
    assert Tagged(front, filename) == (front + "\n") + MARKER + (filename + "]");
    MarkerAnywhere(front + "\n", filename + "]");
  }

  /** Text too short to hold the marker never has it. */
  lemma {:induction false} ShortTextHasNoSoundTag(s: string)
    requires |s| < |MARKER|
    ensures !HasSoundTag(s)
  {
    if |s| > 0 {
      ShortTextHasNoSoundTag(s[1..]);
    }
  }

  lemma DecimalIsNotNoId(n: nat)
    ensures Decimal(n) != "No ID"
  {
    var d := Decimal(n);
    assert d[0] in d;
  }

  /** Distinct cards get distinct audio files. */
  lemma AudioFileNameInjective(a: CardKey, b: CardKey)
    requires AudioFileName(a) == AudioFileName(b)
    ensures a == b
  {
    var name := AudioFileName(a);
    assert IdText(a) == name[5..|name| - 4];
    assert IdText(b) == name[5..|name| - 4];
    if a.Id? && b.Id? {
      DecimalRoundTrip(a.id);
      DecimalRoundTrip(b.id);
    } else if a.Id? || b.Id? {
      DecimalIsNotNoId(if a.Id? then a.id else b.id);
    }
  }
  /** What Tagged appends to the Front value: a newline and the sound tag. */
  function TagSuffix(k: CardKey): string
  {
    "\n[sound:" + AudioFileName(k) + "]"
  }

  /** No character after the first of a tag suffix is a newline. */
  lemma TagSuffixHasOneNewline(k: CardKey, i: nat)
    requires 0 < i < |TagSuffix(k)|
    ensures TagSuffix(k)[i] != '\n'
  {
    var id := IdText(k);
    assert TagSuffix(k) == "\n[sound:card_" + id + ".mp3]";
    if 13 <= i < 13 + |id| {
      assert TagSuffix(k)[i] == id[i - 13];
      if k.Id? {
        assert id[i - 13] in Decimal(k.id);
      }
    }
  }

  /** Where one tagged value is a longer Front plus a tag, its tag would hold a second newline. */
  lemma TagBoundaryIsUnique(front1: string, k1: CardKey, front2: string, k2: CardKey)
    requires front1 + TagSuffix(k1) == front2 + TagSuffix(k2)
    ensures |front1| == |front2|
  {
    var t := front1 + TagSuffix(k1);
    if |front1| < |front2| {
      assert t[|front2|] == TagSuffix(k2)[0] == '\n';
      assert t[|front2|] == TagSuffix(k1)[|front2| - |front1|];
      TagSuffixHasOneNewline(k1, |front2| - |front1|);
    } else if |front2| < |front1| {
      assert t[|front1|] == TagSuffix(k1)[0] == '\n';
      assert t[|front1|] == TagSuffix(k2)[|front1| - |front2|];
      TagSuffixHasOneNewline(k2, |front1| - |front2|);
    }
  }

  /** Two concatenations with equally long first parts agree part by part. */
  lemma SplitEqually(a: string, b: string, c: string, d: string)
    requires a + b == c + d && |a| == |c|
    ensures a == c && b == d
  {
    assert a == (a + b)[..|a|];
    assert b == (a + b)[|a|..];
  }

  /** The tag names the card: the file name sits between `[sound:` and `]`. */
  lemma TagSuffixInjective(k1: CardKey, k2: CardKey)
    requires TagSuffix(k1) == TagSuffix(k2)
    ensures k1 == k2
  {
    var name1, name2 := AudioFileName(k1), AudioFileName(k2);
    SplitEqually("\n[sound:" + name1, "]", "\n[sound:" + name2, "]");
    SplitEqually("\n[sound:", name1, "\n[sound:", name2);
    AudioFileNameInjective(k1, k2);
  }

  lemma TaggedIsFrontAndSuffix(front: string, k: CardKey)
    ensures Tagged(front, AudioFileName(k)) == front + TagSuffix(k)
  {
    var name := AudioFileName(k);
    assert front + "\n[sound:" + name + "]" == front + ("\n[sound:" + name + "]");
  }

  /**
   * The patched Front value decodes: it determines both the Front value it
   * was made from and the card whose file it names.
   */
  lemma TaggedDecodes(front1: string, k1: CardKey, front2: string, k2: CardKey)
    requires Tagged(front1, AudioFileName(k1)) == Tagged(front2, AudioFileName(k2))
    ensures front1 == front2 && k1 == k2
  {
    TaggedIsFrontAndSuffix(front1, k1);
    TaggedIsFrontAndSuffix(front2, k2);
    TagBoundaryIsUnique(front1, k1, front2, k2);
    SplitEqually(front1, TagSuffix(k1), front2, TagSuffix(k2));
    TagSuffixInjective(k1, k2);
  }
}
