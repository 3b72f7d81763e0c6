/** The playable instruments of front/src/assets/three/entities: the base
    class of Instrument.ts and its six keyboard subclasses, as one record with
    a `Kind` tag. An instrument has at most one owner (`linkedPlayerId`), a set
    of held keys, and a map from key to the note that key is sounding. Three
    behaviours share that state: the pianos sustain with a pedal, the
    saxophone sounds while a key is held, the guitars and the bass fire one
    note per press and record nothing. Audio is modelled only as membership in
    `activeNotes`; each outgoing `instrument_note` is returned as `sent`. */
module Instrument {
  import opened Protocol
  import Notes
  import opened NoteTables

  /** Which class the instrument is. `Plain` is the base class itself, used
      for the synthesizer, drums, violin and piano of the scene. */
  datatype Kind = AcousticPiano | ElectricPiano | Saxophone | AcousticGuitar | ElectricGuitar | ElectricBass | Plain

  /** The two classes that have `setSustainPedal`. */
  predicate HasSustainPedal(k: Kind) {
    k == AcousticPiano || k == ElectricPiano
  }

  /** The classes that play one note per press and keep no active note. */
  predicate Retriggers(k: Kind) {
    k == AcousticGuitar || k == ElectricGuitar || k == ElectricBass
  }

  /** `(x, z)` is the resting position of the mesh (`originalPosition`), which
      is where `linkPlayer` and `unlinkPlayer` put it back. `activeNotes` maps
      a key to the name of the note it sounds. `sustainPedal` and
      `sustainedNotes` exist only on the pianos and stay at their initial
      values elsewhere. */
  datatype Instrument = Instrument(
    id: string,
    kind: Kind,
    gameCode: string,
    x: real,
    z: real,
    linkedPlayerId: Option<string>,
    pressedKeys: set<string>,
    activeNotes: map<string, string>,
    sustainPedal: bool,
    sustainedNotes: set<string>)

  /** The result of a key handler: the instrument afterwards and the
      `instrument_note` it handed to the gateway, if any. */
  datatype Outcome = Outcome(inst: Instrument, sent: Option<Envelope>)

  /** A freshly constructed instrument: no owner, no key held, silent. */
  function New(id: string, kind: Kind, gameCode: string, at: Vec3): (r: Instrument)
    ensures r.linkedPlayerId.None? && r.pressedKeys == {} && r.activeNotes == map[]
    ensures !r.sustainPedal && r.sustainedNotes == {}
    ensures r.id == id && r.kind == kind && r.gameCode == gameCode && r.x == at.x && r.z == at.z
  {
    Instrument(id, kind, gameCode, at.x, at.z, None, {}, map[], false, {})
  }

  /** `if (this.linkedPlayerId)`: an owner is recorded and is a non-empty
      string. */
  predicate Linked(inst: Instrument) {
    inst.linkedPlayerId.Some? && Truthy(inst.linkedPlayerId.value)
  }

  /** `keyToNoteMap[key]` of the instrument's class; the base class has none. */
  function KeyNote(k: Kind, key: string): Option<string> {
    match k
    case AcousticPiano => PianoKeyNote(key)
    case Plain => None
    case _ => TwelveKeyNote(key)
  }

  /** The class's `getNoteIdFromName`. */
  function NoteIdOf(k: Kind, name: string): int {
    if k == AcousticPiano then PianoNoteId(name) else TwelveNoteId(name)
  }

  /** Whether `noteToAudioMap` has an entry for the name, so that
      `playNoteDirectly` returns an audio element. */
  predicate HasAudio(k: Kind, name: string) {
    if k == AcousticPiano then name in PianoAudio else name in TwelveAudio
  }

  // ---------------------------------------------------------------------------
  // Ownership

  const InteractionDistance: real := 2.5

  /** `isPlayerInRange(position)`: the horizontal distance from the
      instrument is at most 2.5. Comparing squares avoids the square root.
      A player in range is within 2.5 on each horizontal axis. */
  predicate IsPlayerInRange(inst: Instrument, pos: Vec3): (r: bool)
    ensures r ==> -InteractionDistance <= pos.x - inst.x <= InteractionDistance
    ensures r ==> -InteractionDistance <= pos.z - inst.z <= InteractionDistance
  {
    var dx := pos.x - inst.x;
    var dz := pos.z - inst.z;
    AxisWithinRadius(dx, dz);
    AxisWithinRadius(dz, dx);
    dx * dx + dz * dz <= InteractionDistance * InteractionDistance
  }

  lemma AxisWithinRadius(a: real, b: real)
    ensures a * a + b * b <= InteractionDistance * InteractionDistance ==>
              -InteractionDistance <= a <= InteractionDistance
  {
    if a > InteractionDistance {
      assert a * a > InteractionDistance * a > InteractionDistance * InteractionDistance;
    } else if a < -InteractionDistance {
      assert a * a > -InteractionDistance * a > InteractionDistance * InteractionDistance;
    }
  }

  /** The squared comparison is the source's: for the distance `d` (the
      non-negative root of `dx² + dz²`), the player is in range exactly when
      `d <= 2.5`. Height never matters. */
  lemma InRangeIsDistanceAtMost(inst: Instrument, pos: Vec3, d: real, y: real)
    requires d >= 0.0
    requires d * d == (pos.x - inst.x) * (pos.x - inst.x) + (pos.z - inst.z) * (pos.z - inst.z)
    ensures IsPlayerInRange(inst, pos) <==> d <= InteractionDistance
    ensures IsPlayerInRange(inst, pos) == IsPlayerInRange(inst, pos.(y := y))
  {
    if d <= InteractionDistance {
      assert d * d <= InteractionDistance * d <= InteractionDistance * InteractionDistance;
    } else {
      assert d * d > InteractionDistance * d > InteractionDistance * InteractionDistance;
    }
  }

  /** `linkPlayer(playerId)`: takes an owner only when there is none; a
      second link, even by the same player, changes nothing. */
  function LinkPlayer(inst: Instrument, playerId: string): (r: Instrument)
    ensures inst.linkedPlayerId.None? ==> r.linkedPlayerId == Some(playerId)
    ensures inst.linkedPlayerId.Some? ==> r == inst
    ensures r == inst.(linkedPlayerId := r.linkedPlayerId)
  {
    if inst.linkedPlayerId.None? then inst.(linkedPlayerId := Some(playerId)) else inst
  }

  /** `isLinkedToPlayer(playerId)`: only an owned instrument is linked to
      anyone. */
  predicate IsLinkedToPlayer(inst: Instrument, playerId: string): (r: bool)
    ensures r ==> inst.linkedPlayerId.Some?
  {
    inst.linkedPlayerId == Some(playerId)
  }

  /** Linking a free instrument links it to that player and no other; a
      second link never takes an owned instrument away; after unlinking it is
      linked to nobody. */
  lemma LinkedToExactlyTheLinker(inst: Instrument, p: string, q: string)
    ensures inst.linkedPlayerId.None? ==> (IsLinkedToPlayer(LinkPlayer(inst, p), q) <==> q == p)
    ensures IsLinkedToPlayer(inst, q) ==> IsLinkedToPlayer(LinkPlayer(inst, p), q)
    ensures !IsLinkedToPlayer(UnlinkPlayer(inst), q)
  {
  }

  /** `stopAllActiveNotes()`. */
  function StopAllActiveNotes(inst: Instrument): (r: Instrument)
    ensures r.activeNotes == map[] && r == inst.(activeNotes := map[])
  {
    inst.(activeNotes := map[])
  }

  /** `stopActiveNote(key)`: silences that key only. */
  function StopActiveNote(inst: Instrument, key: string): (r: Instrument)
    ensures key !in r.activeNotes
    ensures forall k | k != key :: (k in r.activeNotes <==> k in inst.activeNotes)
    ensures forall k | k in r.activeNotes :: r.activeNotes[k] == inst.activeNotes[k]
    ensures r == inst.(activeNotes := r.activeNotes)
  {
    inst.(activeNotes := inst.activeNotes - {key})
  }

  /** `unlinkPlayer()`. The pianos' override first releases the pedal and
      forgets the sustained keys, whether or not there is an owner; the base
      method then, only when there is an owner, silences everything, forgets
      the held keys and drops the owner. */
  function UnlinkPlayer(inst: Instrument): (r: Instrument)
    ensures r.linkedPlayerId.None?
    ensures inst.linkedPlayerId.Some? ==> r.activeNotes == map[] && r.pressedKeys == {}
    ensures inst.linkedPlayerId.None? ==> r.activeNotes == inst.activeNotes && r.pressedKeys == inst.pressedKeys
    ensures HasSustainPedal(inst.kind) ==> !r.sustainPedal && r.sustainedNotes == {}
    ensures !HasSustainPedal(inst.kind) ==>
              r.sustainPedal == inst.sustainPedal && r.sustainedNotes == inst.sustainedNotes
    ensures r.id == inst.id && r.kind == inst.kind && r.gameCode == inst.gameCode && r.x == inst.x && r.z == inst.z
  {
    var pedalReset := if HasSustainPedal(inst.kind) then inst.(sustainPedal := false, sustainedNotes := {}) else inst;
    if pedalReset.linkedPlayerId.Some? then
      StopAllActiveNotes(pedalReset).(pressedKeys := {}, linkedPlayerId := None)
    else pedalReset
  }

  /** Unlinking twice is unlinking once. */
  lemma UnlinkIdempotent(inst: Instrument)
    ensures UnlinkPlayer(UnlinkPlayer(inst)) == UnlinkPlayer(inst)
  {
  }

  /** `cleanup()`: silences everything and forgets the held keys; the owner
      stays recorded. */
  function Cleanup(inst: Instrument): (r: Instrument)
    ensures r.activeNotes == map[] && r.pressedKeys == {}
    ensures r == inst.(activeNotes := map[], pressedKeys := {})
  {
    StopAllActiveNotes(inst).(pressedKeys := {})
  }

  // ---------------------------------------------------------------------------
  // Playing

  /** The envelope every class sends for a note: the owner as sender, this
      instrument's id and game code, and the class's id for the note. */
  function NoteEnvelope(inst: Instrument, name: string): Envelope
    requires inst.linkedPlayerId.Some?
  {
    NoteMsg(inst.linkedPlayerId.value, inst.gameCode, inst.id, NoteIdOf(inst.kind, name))
  }

  /** `playNoteFromKey(key)` of the instrument's class (the saxophone's is
      `startContinuousNote`). With a mapped key and an owner: the pianos and
      the saxophone restart the key's note, the guitars and the bass record
      nothing, and every class sends one `instrument_note`. The base class
      does nothing. */
  function PlayNoteFromKey(inst: Instrument, key: string): (r: Outcome)
    ensures r.sent.Some? <==> KeyNote(inst.kind, key).Some? && Linked(inst)
    ensures r.sent.Some? ==>
              && r.sent.value.kind == InstrumentNote
              && r.sent.value.id == inst.linkedPlayerId.value
              && r.sent.value.instrumentId == inst.id && r.sent.value.gameCode == inst.gameCode
              && r.sent.value.noteId == Some(NoteIdOf(inst.kind, KeyNote(inst.kind, key).value))
    ensures r.sent.None? ==> r.inst == inst
    ensures Retriggers(inst.kind) ==> r.inst == inst
    ensures r.sent.Some? && !Retriggers(inst.kind) ==>
              r.inst.activeNotes == (inst.activeNotes - {key})[key := KeyNote(inst.kind, key).value]
    ensures r.inst == inst.(activeNotes := r.inst.activeNotes)
  {
    var name := KeyNote(inst.kind, key);
    if name.None? || !Linked(inst) then Outcome(inst, None)
    else if Retriggers(inst.kind) then Outcome(inst, Some(NoteEnvelope(inst, name.value)))
    else
      var stopped := StopActiveNote(inst, key);
      var started := if HasAudio(inst.kind, name.value)
                     then stopped.(activeNotes := stopped.activeNotes[key := name.value])
                     else stopped;
      assert HasAudio(inst.kind, name.value) by {
        PianoKeysCovered(key);
        TwelveKeysRepeatRows(key);
      }
      Outcome(started, Some(NoteEnvelope(inst, name.value)))
  }

  /** `handleKeyDown(key)`, the same in every class: a key already held is
      ignored (keyboard auto-repeat), otherwise it is marked held and played. */
  function HandleKeyDown(inst: Instrument, key: string): (r: Outcome)
    ensures key in inst.pressedKeys ==> r == Outcome(inst, None)
    ensures key !in inst.pressedKeys ==>
              r == PlayNoteFromKey(inst.(pressedKeys := inst.pressedKeys + {key}), key)
    ensures key in r.inst.pressedKeys
  {
    if key in inst.pressedKeys then Outcome(inst, None)
    else PlayNoteFromKey(inst.(pressedKeys := inst.pressedKeys + {key}), key)
  }

  /** `handleKeyUp(key)`: the key is no longer held. The pianos then stop
      its note with the pedal up or mark it sustained with the pedal down, the
      saxophone always stops it, and the other classes do nothing more. */
  function HandleKeyUp(inst: Instrument, key: string): (r: Instrument)
    ensures r.pressedKeys == inst.pressedKeys - {key}
    ensures HasSustainPedal(inst.kind) && !inst.sustainPedal ==> key !in r.activeNotes && r.sustainedNotes == inst.sustainedNotes
    ensures HasSustainPedal(inst.kind) && inst.sustainPedal ==>
              r.activeNotes == inst.activeNotes && r.sustainedNotes == inst.sustainedNotes + {key}
    ensures inst.kind == Saxophone ==> key !in r.activeNotes
    ensures !HasSustainPedal(inst.kind) && inst.kind != Saxophone ==> r.activeNotes == inst.activeNotes
    ensures forall k | k != key && k in inst.activeNotes :: k in r.activeNotes && r.activeNotes[k] == inst.activeNotes[k]
    ensures r.activeNotes.Keys <= inst.activeNotes.Keys
    ensures r == inst.(pressedKeys := r.pressedKeys, activeNotes := r.activeNotes, sustainedNotes := r.sustainedNotes)
  {
    var released := inst.(pressedKeys := inst.pressedKeys - {key});
    if HasSustainPedal(inst.kind) then
      if !inst.sustainPedal then StopActiveNote(released, key)
      else released.(sustainedNotes := released.sustainedNotes + {key})
    else if inst.kind == Saxophone then StopActiveNote(released, key)
    else released
  }

  /** `setSustainPedal(active)`, which only the pianos have. Pressing the pedal
      only sets the flag; releasing it silences every sustained key and
      forgets them. */
  function SetSustainPedal(inst: Instrument, active: bool): (r: Instrument)
    requires HasSustainPedal(inst.kind)
    ensures r.sustainPedal == active
    ensures active ==> r == inst.(sustainPedal := true)
    ensures !active ==> r.sustainedNotes == {} && r.activeNotes == inst.activeNotes - inst.sustainedNotes
    ensures r == inst.(sustainPedal := active, activeNotes := r.activeNotes, sustainedNotes := r.sustainedNotes)
  {
    if active then inst.(sustainPedal := true)
    else inst.(sustainPedal := false, activeNotes := inst.activeNotes - inst.sustainedNotes, sustainedNotes := {})
  }

  /** The base class's `playNote(noteName)`: resolves the name in the shared
      note table and, when there is an owner and the name is known, sends it.
      No subclass reaches it from the keyboard. */
  function PlayNote(inst: Instrument, noteName: string): (r: Option<Envelope>)
    ensures r.Some? <==> Linked(inst) && noteName in Notes.Names()
    ensures r.Some? ==> r.value.kind == InstrumentNote && r.value.id == inst.linkedPlayerId.value
                        && r.value.instrumentId == inst.id && r.value.gameCode == inst.gameCode
                        && r.value.noteId.Some? && Notes.GetNoteById(r.value.noteId.value).Some?
                        && Notes.GetNoteById(r.value.noteId.value).value.name == noteName
  {
    Notes.NameIdRoundTrip(noteName);
    var noteId := Notes.GetNoteIdByName(noteName);
    if Linked(inst) && noteId.Some? then
      Some(NoteMsg(inst.linkedPlayerId.value, inst.gameCode, inst.id, noteId.value))
    else None
  }

  /** The inbound handler `setupMessageHandler` registers: an
      `instrument_note` addressed to this instrument's id with a defined
      `noteId` is played, whoever owns the instrument locally. The result is
      the id handed to the audio manager. */
  function OnNote(inst: Instrument, msg: Envelope): (r: Option<int>)
    ensures r.Some? <==> msg.kind == InstrumentNote && msg.instrumentId == inst.id && msg.noteId.Some?
    ensures r.Some? ==> r == msg.noteId
  {
    if msg.kind == InstrumentNote && msg.instrumentId == inst.id && msg.noteId.Some? then msg.noteId else None
  }

  /** The particle count of `createNoteParticles(noteId)`:
      `floor(15 * min(1 + (noteId - 1) * 0.02, 2))`. */
  function ParticleCount(noteId: int): int {
    var multiplier := 1.0 + (noteId - 1) as real * 0.02;
    (15.0 * (if multiplier < 2.0 then multiplier else 2.0)).Floor
  }

  /** `new Float32Array(particleCount * 3)` throws a `RangeError` exactly for
      a negative count, which is exactly a note id of -50 or below. */
  lemma ParticlesThrowExactly(noteId: int)
    ensures ParticleCount(noteId) < 0 <==> noteId <= -50
  {
    var multiplier := 1.0 + (noteId - 1) as real * 0.02;
    if noteId <= -50 {
      assert (noteId - 1) as real <= -51.0;
      assert multiplier <= -0.02;
      assert 15.0 * multiplier < 0.0;
    } else {
      assert (noteId - 1) as real >= -50.0;
      assert multiplier >= 0.0;
    }
  }

  /** The handler of `setupMessageHandler` hands the note to the audio
      manager and then draws its particles, which throws for a negative
      particle count before the animation starts. */
  predicate OnNoteThrows(inst: Instrument, msg: Envelope): (r: bool)
    ensures r ==> OnNote(inst, msg).Some?
  {
    OnNote(inst, msg).Some? && ParticleCount(OnNote(inst, msg).value) < 0
  }

  /** The audio manager's `playNote(noteId)` finds a note to sound. */
  predicate Audible(noteId: int) {
    Notes.GetNoteById(noteId).Some?
  }

  /** A peer's copy of the acoustic piano plays an incoming key press only
      for ids up to 9: every mapped key sends an id in 1..36, and the shared
      note table knows 0..9, so 27 of the 36 keys are silent on every other
      client. */
  lemma RemotePianoMostlySilent(local: Instrument, remote: Instrument, key: string)
    requires local.kind == AcousticPiano && Linked(local) && key !in local.pressedKeys
    requires remote.id == local.id && key in KeySet
    ensures var out := HandleKeyDown(local, key);
            && out.sent.Some?
            && OnNote(remote, out.sent.value).Some?
            && var n := OnNote(remote, out.sent.value).value;
               1 <= n <= 36 && (Audible(n) <==> n <= 9)
  {
    PianoKeysCovered(key);
    var name := PianoKeyNote(key).value;
    PianoNoteIdBijective(name, 0);
    Notes.GetNoteByIdDefinedExactly(PianoNoteId(name));
  }

  // ---------------------------------------------------------------------------
  // The note-state invariant

  /** The state every instrument keeps:
      - only the pianos have pedal state;
      - the guitars, the bass and the base class never record a note;
      - an instrument without an owner is silent;
      - a sounding key sounds its own mapped note;
      - every sounding key is held or sustained, so no note is stuck. */
  predicate Valid(inst: Instrument) {
    && (!HasSustainPedal(inst.kind) ==> !inst.sustainPedal && inst.sustainedNotes == {})
    && (Retriggers(inst.kind) || inst.kind == Plain ==> inst.activeNotes == map[])
    && (!Linked(inst) ==> inst.activeNotes == map[])
    && (forall k | k in inst.activeNotes :: KeyNote(inst.kind, k) == Some(inst.activeNotes[k]))
    && inst.activeNotes.Keys <= inst.pressedKeys + inst.sustainedNotes
  }

  lemma NewIsValid(id: string, kind: Kind, gameCode: string, at: Vec3)
    ensures Valid(New(id, kind, gameCode, at))
  {
  }

  lemma HandleKeyDownPreservesValid(inst: Instrument, key: string)
    requires Valid(inst)
    ensures Valid(HandleKeyDown(inst, key).inst)
  {
  }

  lemma HandleKeyUpPreservesValid(inst: Instrument, key: string)
    requires Valid(inst)
    ensures Valid(HandleKeyUp(inst, key))
  {
  }

  lemma SetSustainPedalPreservesValid(inst: Instrument, active: bool)
    requires Valid(inst) && HasSustainPedal(inst.kind)
    ensures Valid(SetSustainPedal(inst, active))
  {
  }

  lemma LinkUnlinkPreserveValid(inst: Instrument, playerId: string)
    requires Valid(inst)
    ensures Valid(LinkPlayer(inst, playerId))
    ensures Valid(UnlinkPlayer(inst))
    ensures Valid(Cleanup(inst))
  {
  }

  /** The guitars and the bass never hold a note: whatever keys go up and
      down, nothing is ever recorded for key-up or unlink to stop. */
  lemma RetriggerNeverSounds(inst: Instrument, key: string)
    requires Valid(inst) && Retriggers(inst.kind)
    ensures HandleKeyDown(inst, key).inst.activeNotes == map[]
    ensures HandleKeyUp(inst, key).activeNotes == map[]
  {
  }

  /** With the pedal up, releasing a piano key silences it; releasing the
      pedal leaves sounding only keys still held. */
  lemma PianoReleaseSilences(inst: Instrument, key: string)
    requires Valid(inst) && HasSustainPedal(inst.kind)
    ensures !inst.sustainPedal ==> key !in HandleKeyUp(inst, key).activeNotes
    ensures SetSustainPedal(inst, false).activeNotes.Keys <= inst.pressedKeys
  {
  }
}
