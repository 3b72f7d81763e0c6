/** The key and note tables of the six keyboard instruments. The acoustic
    piano (AcousticPiano.ts) spreads three keyboard rows over octaves 3, 4 and
    5; the electric piano, saxophone, acoustic guitar, electric guitar and
    electric bass carry one identical copy each of a table that sends all
    three rows to octave 3, which is defined once here. A note name is a pitch
    class (C, Cd for C sharp, D, ..., B) followed by its octave digit. */
module NoteTables {
  import opened Protocol

  /** The 36 key codes the tables know: the digit row, the QWERTY row and the
      home row, twelve keys each. */
  const KeySet: set<string> := {
    "Digit1", "Digit2", "Digit3", "Digit4", "Digit5", "Digit6",
    "Digit7", "Digit8", "Digit9", "Digit0", "Minus", "Equal",
    "KeyQ", "KeyW", "KeyE", "KeyR", "KeyT", "KeyY",
    "KeyU", "KeyI", "KeyO", "KeyP", "BracketLeft", "BracketRight",
    "KeyA", "KeyS", "KeyD", "KeyF", "KeyG", "KeyH",
    "KeyJ", "KeyK", "KeyL", "Semicolon", "Quote", "Backslash"
  }

  /** The acoustic piano's `noteToAudioMap` keys: octaves 3 to 5. */
  const PianoAudio: set<string> := {
    "C3", "Cd3", "D3", "Dd3", "E3", "F3",
    "Fd3", "G3", "Gd3", "A3", "Ad3", "B3",
    "C4", "Cd4", "D4", "Dd4", "E4", "F4",
    "Fd4", "G4", "Gd4", "A4", "Ad4", "B4",
    "C5", "Cd5", "D5", "Dd5", "E5", "F5",
    "Fd5", "G5", "Gd5", "A5", "Ad5", "B5"
  }

  /** The other five instruments' `noteToAudioMap` keys: octave 3 only. */
  const TwelveAudio: set<string> := {
    "C3", "Cd3", "D3", "Dd3", "E3", "F3",
    "Fd3", "G3", "Gd3", "A3", "Ad3", "B3"
  }

  /** The acoustic piano's `keyToNoteMap`. */
  function PianoKeyNote(key: string): (r: Option<string>)
    ensures r.Some? ==> r.value in PianoAudio
  {
    match key
    case "Digit1" => Some("C3")
    case "Digit2" => Some("Cd3")
    case "Digit3" => Some("D3")
    case "Digit4" => Some("Dd3")
    case "Digit5" => Some("E3")
    case "Digit6" => Some("F3")
    case "Digit7" => Some("Fd3")
    case "Digit8" => Some("G3")
    case "Digit9" => Some("Gd3")
    case "Digit0" => Some("A3")
    case "Minus" => Some("Ad3")
    case "Equal" => Some("B3")
    case "KeyQ" => Some("C4")
    case "KeyW" => Some("Cd4")
    case "KeyE" => Some("D4")
    case "KeyR" => Some("Dd4")
    case "KeyT" => Some("E4")
    case "KeyY" => Some("F4")
    case "KeyU" => Some("Fd4")
    case "KeyI" => Some("G4")
    case "KeyO" => Some("Gd4")
    case "KeyP" => Some("A4")
    case "BracketLeft" => Some("Ad4")
    case "BracketRight" => Some("B4")
    case "KeyA" => Some("C5")
    case "KeyS" => Some("Cd5")
    case "KeyD" => Some("D5")
    case "KeyF" => Some("Dd5")
    case "KeyG" => Some("E5")
    case "KeyH" => Some("F5")
    case "KeyJ" => Some("Fd5")
    case "KeyK" => Some("G5")
    case "KeyL" => Some("Gd5")
    case "Semicolon" => Some("A5")
    case "Quote" => Some("Ad5")
    case "Backslash" => Some("B5")
    case _ => None
  }

  /** The acoustic piano's `getNoteIdFromName`: 1 to 36 in pitch order, and 1
      for a name it does not know (`noteMap[noteName] || 1`). */
  function PianoNoteId(name: string): (r: int)
    ensures 1 <= r <= 36
  {
    match name
    case "C3" => 1
    case "Cd3" => 2
    case "D3" => 3
    case "Dd3" => 4
    case "E3" => 5
    case "F3" => 6
    case "Fd3" => 7
    case "G3" => 8
    case "Gd3" => 9
    case "A3" => 10
    case "Ad3" => 11
    case "B3" => 12
    case "C4" => 13
    case "Cd4" => 14
    case "D4" => 15
    case "Dd4" => 16
    case "E4" => 17
    case "F4" => 18
    case "Fd4" => 19
    case "G4" => 20
    case "Gd4" => 21
    case "A4" => 22
    case "Ad4" => 23
    case "B4" => 24
    case "C5" => 25
    case "Cd5" => 26
    case "D5" => 27
    case "Dd5" => 28
    case "E5" => 29
    case "F5" => 30
    case "Fd5" => 31
    case "G5" => 32
    case "Gd5" => 33
    case "A5" => 34
    case "Ad5" => 35
    case "B5" => 36
    case _ => 1
  }

  /** The shared `keyToNoteMap` of the five twelve-note instruments. */
  function TwelveKeyNote(key: string): (r: Option<string>)
    ensures r.Some? ==> r.value in TwelveAudio
  {
    match key
    case "Digit1" => Some("C3")
    case "Digit2" => Some("Cd3")
    case "Digit3" => Some("D3")
    case "Digit4" => Some("Dd3")
    case "Digit5" => Some("E3")
    case "Digit6" => Some("F3")
    case "Digit7" => Some("Fd3")
    case "Digit8" => Some("G3")
    case "Digit9" => Some("Gd3")
    case "Digit0" => Some("A3")
    case "Minus" => Some("Ad3")
    case "Equal" => Some("B3")
    case "KeyQ" => Some("C3")
    case "KeyW" => Some("Cd3")
    case "KeyE" => Some("D3")
    case "KeyR" => Some("Dd3")
    case "KeyT" => Some("E3")
    case "KeyY" => Some("F3")
    case "KeyU" => Some("Fd3")
    case "KeyI" => Some("G3")
    case "KeyO" => Some("Gd3")
    case "KeyP" => Some("A3")
    case "BracketLeft" => Some("Ad3")
    case "BracketRight" => Some("B3")
    case "KeyA" => Some("C3")
    case "KeyS" => Some("Cd3")
    case "KeyD" => Some("D3")
    case "KeyF" => Some("Dd3")
    case "KeyG" => Some("E3")
    case "KeyH" => Some("F3")
    case "KeyJ" => Some("Fd3")
    case "KeyK" => Some("G3")
    case "KeyL" => Some("Gd3")
    case "Semicolon" => Some("A3")
    case "Quote" => Some("Ad3")
    case "Backslash" => Some("B3")
    case _ => None
  }

  /** The shared `getNoteIdFromName`: 1 to 12 in pitch order, and 1 for a
      name it does not know. */
  function TwelveNoteId(name: string): (r: int)
    ensures 1 <= r <= 12
  {
    match name
    case "C3" => 1
    case "Cd3" => 2
    case "D3" => 3
    case "Dd3" => 4
    case "E3" => 5
    case "F3" => 6
    case "Fd3" => 7
    case "G3" => 8
    case "Gd3" => 9
    case "A3" => 10
    case "Ad3" => 11
    case "B3" => 12
    case _ => 1
  }

  // Independent inverses, written from the other side of each table.

  /** The key that plays each acoustic piano note. */
  function PianoNoteKey(name: string): Option<string> {
    match name
    case "C3" => Some("Digit1")
    case "Cd3" => Some("Digit2")
    case "D3" => Some("Digit3")
    case "Dd3" => Some("Digit4")
    case "E3" => Some("Digit5")
    case "F3" => Some("Digit6")
    case "Fd3" => Some("Digit7")
    case "G3" => Some("Digit8")
    case "Gd3" => Some("Digit9")
    case "A3" => Some("Digit0")
    case "Ad3" => Some("Minus")
    case "B3" => Some("Equal")
    case "C4" => Some("KeyQ")
    case "Cd4" => Some("KeyW")
    case "D4" => Some("KeyE")
    case "Dd4" => Some("KeyR")
    case "E4" => Some("KeyT")
    case "F4" => Some("KeyY")
    case "Fd4" => Some("KeyU")
    case "G4" => Some("KeyI")
    case "Gd4" => Some("KeyO")
    case "A4" => Some("KeyP")
    case "Ad4" => Some("BracketLeft")
    case "B4" => Some("BracketRight")
    case "C5" => Some("KeyA")
    case "Cd5" => Some("KeyS")
    case "D5" => Some("KeyD")
    case "Dd5" => Some("KeyF")
    case "E5" => Some("KeyG")
    case "F5" => Some("KeyH")
    case "Fd5" => Some("KeyJ")
    case "G5" => Some("KeyK")
    case "Gd5" => Some("KeyL")
    case "A5" => Some("Semicolon")
    case "Ad5" => Some("Quote")
    case "B5" => Some("Backslash")
    case _ => None
  }

  /** The note each acoustic piano id stands for. */
  function PianoIdNote(id: int): Option<string> {
    match id
    case 1 => Some("C3")
    case 2 => Some("Cd3")
    case 3 => Some("D3")
    case 4 => Some("Dd3")
    case 5 => Some("E3")
    case 6 => Some("F3")
    case 7 => Some("Fd3")
    case 8 => Some("G3")
    case 9 => Some("Gd3")
    case 10 => Some("A3")
    case 11 => Some("Ad3")
    case 12 => Some("B3")
    case 13 => Some("C4")
    case 14 => Some("Cd4")
    case 15 => Some("D4")
    case 16 => Some("Dd4")
    case 17 => Some("E4")
    case 18 => Some("F4")
    case 19 => Some("Fd4")
    case 20 => Some("G4")
    case 21 => Some("Gd4")
    case 22 => Some("A4")
    case 23 => Some("Ad4")
    case 24 => Some("B4")
    case 25 => Some("C5")
    case 26 => Some("Cd5")
    case 27 => Some("D5")
    case 28 => Some("Dd5")
    case 29 => Some("E5")
    case 30 => Some("F5")
    case 31 => Some("Fd5")
    case 32 => Some("G5")
    case 33 => Some("Gd5")
    case 34 => Some("A5")
    case 35 => Some("Ad5")
    case 36 => Some("B5")
    case _ => None
  }

  /** The note each twelve-note id stands for. */
  function TwelveIdNote(id: int): Option<string> {
    match id
    case 1 => Some("C3")
    case 2 => Some("Cd3")
    case 3 => Some("D3")
    case 4 => Some("Dd3")
    case 5 => Some("E3")
    case 6 => Some("F3")
    case 7 => Some("Fd3")
    case 8 => Some("G3")
    case 9 => Some("Gd3")
    case 10 => Some("A3")
    case 11 => Some("Ad3")
    case 12 => Some("B3")
    case _ => None
  }

  /** Exactly the 36 known keys are mapped, and each maps to a note that has
      an audio entry. */
  lemma PianoKeysCovered(key: string)
    ensures PianoKeyNote(key).Some? <==> key in KeySet
    ensures PianoKeyNote(key).Some? ==> PianoKeyNote(key).value in PianoAudio
  {
  }

  /** The 36 keys map to 36 distinct notes, and every note with an audio entry
      is reached from some key: the key table is a bijection onto the audio
      table. */
  lemma PianoKeyNoteBijective(key: string, name: string)
    ensures PianoKeyNote(key).Some? ==> PianoNoteKey(PianoKeyNote(key).value) == Some(key)
    ensures name in PianoAudio ==> PianoNoteKey(name).Some? && PianoKeyNote(PianoNoteKey(name).value) == Some(name)
  {
  }

  /** Two keys that play the same acoustic piano note are the same key. */
  lemma PianoKeysDistinctNotes(k1: string, k2: string)
    requires PianoKeyNote(k1).Some? && PianoKeyNote(k1) == PianoKeyNote(k2)
    ensures k1 == k2
  {
    PianoKeyNoteBijective(k1, "");
    PianoKeyNoteBijective(k2, "");
  }

  /** `getNoteIdFromName` maps the 36 audio notes one-to-one onto 1..36, and
      every other name to 1. */
  lemma PianoNoteIdBijective(name: string, id: int)
    ensures name in PianoAudio ==> 1 <= PianoNoteId(name) <= 36 && PianoIdNote(PianoNoteId(name)) == Some(name)
    ensures 1 <= id <= 36 ==>
              PianoIdNote(id).Some? && PianoIdNote(id).value in PianoAudio && PianoNoteId(PianoIdNote(id).value) == id
    ensures name !in PianoAudio ==> PianoNoteId(name) == 1
  {
  }

  /** The shared table maps the same 36 keys, each to one of the twelve audio
      notes, and every key row repeats the same twelve notes: a key's
      twelve-note id is its acoustic piano id folded into one octave. */
  lemma TwelveKeysCovered(key: string)
    ensures TwelveKeyNote(key).Some? <==> key in KeySet
    ensures TwelveKeyNote(key).Some? ==> TwelveKeyNote(key).value in TwelveAudio
  {
  }

  /** Each key sounds, on the twelve-note instruments, the pitch class the
      acoustic piano gives it, folded into octave 3. */
  lemma TwelveKeysRepeatRows(key: string)
    requires key in KeySet
    ensures TwelveKeyNote(key).Some? && PianoKeyNote(key).Some?
    ensures TwelveNoteId(TwelveKeyNote(key).value) == (PianoNoteId(PianoKeyNote(key).value) - 1) % 12 + 1
  {
    if key in {"Digit1", "Digit2", "Digit3", "Digit4", "Digit5", "Digit6",
               "Digit7", "Digit8", "Digit9", "Digit0", "Minus", "Equal"} {
      assert 1 <= PianoNoteId(PianoKeyNote(key).value) <= 12;
    } else if key in {"KeyQ", "KeyW", "KeyE", "KeyR", "KeyT", "KeyY",
                      "KeyU", "KeyI", "KeyO", "KeyP", "BracketLeft", "BracketRight"} {
      assert 13 <= PianoNoteId(PianoKeyNote(key).value) <= 24;
      assert TwelveNoteId(TwelveKeyNote(key).value) == PianoNoteId(PianoKeyNote(key).value) - 12;
    } else {
      assert 25 <= PianoNoteId(PianoKeyNote(key).value) <= 36;
      assert TwelveNoteId(TwelveKeyNote(key).value) == PianoNoteId(PianoKeyNote(key).value) - 24;
    }
  }

  /** The twelve-note `getNoteIdFromName` maps the twelve audio notes
      one-to-one onto 1..12 and every other name to 1; on octave 3 it agrees
      with the acoustic piano's. */
  lemma TwelveNoteIdBijective(name: string, id: int)
    ensures name in TwelveAudio ==> 1 <= TwelveNoteId(name) <= 12 && TwelveIdNote(TwelveNoteId(name)) == Some(name)
    ensures 1 <= id <= 12 ==>
              TwelveIdNote(id).Some? && TwelveIdNote(id).value in TwelveAudio && TwelveNoteId(TwelveIdNote(id).value) == id
    ensures name !in TwelveAudio ==> TwelveNoteId(name) == 1
    ensures name in TwelveAudio ==> name in PianoAudio && TwelveNoteId(name) == PianoNoteId(name)
  {
  }
}
