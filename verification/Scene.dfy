/** The multiplayer side of front/src/assets/three/scene/GameScene.ts: the
    instrument layout, the roster of remote players kept from the relay's
    messages, and the routing of keyboard events to the instrument the local
    player is linked to. A remote player is represented by the position of its
    mesh. */
module Scene {
  import opened Protocol
  import I = Instrument

  /** `otherPlayers`: remote player id to mesh position. */
  type Roster = map<string, Vec3>

  // ---------------------------------------------------------------------------
  // Instrument layout

  /** The ten instrument configurations, in list order: the class and the
      position of each. The synthesizer, drums, violin and main piano have no
      class of their own and are base instruments. */
  const Layout: seq<(I.Kind, Vec3)> := [
    (I.AcousticPiano, Vec3(-8.0, 0.5, -6.0)), (I.ElectricPiano, Vec3(-4.0, 0.5, -6.0)),
    (I.Plain, Vec3(0.0, 0.5, -6.0)), (I.Plain, Vec3(4.0, 0.5, -6.0)), (I.Plain, Vec3(8.0, 0.5, -6.0)),
    (I.AcousticGuitar, Vec3(-6.0, 0.5, 0.0)), (I.ElectricGuitar, Vec3(-2.0, 0.5, 0.0)),
    (I.ElectricBass, Vec3(2.0, 0.5, 0.0)), (I.Saxophone, Vec3(6.0, 0.5, 0.0)),
    (I.Plain, Vec3(0.0, 0.5, 4.0))
  ]

  /** `instrument_${index}` for an index below ten. */
  function InstrumentId(index: nat): string
    requires index < 10
  {
    "instrument_" + [(('0' as int) + index) as char]
  }

  /** `setupInstruments()`: one fresh instrument per configuration. */
  function SetupInstruments(gameCode: string): (r: seq<I.Instrument>)
    ensures |r| == |Layout| == 10
    ensures forall i | 0 <= i < |r| :: r[i] == I.New(InstrumentId(i), Layout[i].0, gameCode, Layout[i].1)
  {
    seq(|Layout|, i requires 0 <= i < |Layout| => I.New(InstrumentId(i), Layout[i].0, gameCode, Layout[i].1))
  }

  /** The ten instruments have ten different ids, so an `instrument_note`
      reaches one instrument only; only the first two have a sustain pedal. */
  lemma SetupIdsDistinct(gameCode: string)
    ensures var r := SetupInstruments(gameCode);
            && (forall i, j | 0 <= i < j < |r| :: r[i].id != r[j].id)
            && (forall i | 0 <= i < |r| :: I.HasSustainPedal(r[i].kind) <==> i < 2)
  {
    var r := SetupInstruments(gameCode);
    forall i, j | 0 <= i < j < |r| ensures r[i].id != r[j].id {
      assert r[i].id[11] != r[j].id[11];
    }
  }

  /** The indices of the instruments whose note handler plays `msg`: those
      whose id the note names, when it is a note with a defined id. */
  function Hearers(instruments: seq<I.Instrument>, msg: Envelope): (r: set<nat>)
    ensures forall i | i in r ::
              i < |instruments| && instruments[i].id == msg.instrumentId
              && msg.kind == InstrumentNote && msg.noteId.Some?
    ensures msg.kind == InstrumentNote && msg.noteId.Some? ==>
              forall i | 0 <= i < |instruments| && instruments[i].id == msg.instrumentId :: i in r
  {
    set i | 0 <= i < |instruments| && I.OnNote(instruments[i], msg).Some?
  }

  /** A note with a defined id addressed to one of the scene's instruments is
      played by that instrument and no other. */
  lemma NoteReachesOneInstrument(gameCode: string, msg: Envelope, k: nat)
    requires k < 10 && msg.kind == InstrumentNote && msg.instrumentId == InstrumentId(k) && msg.noteId.Some?
    ensures Hearers(SetupInstruments(gameCode), msg) == {k}
  {
    var r := SetupInstruments(gameCode);
    SetupIdsDistinct(gameCode);
    assert r[k].id == msg.instrumentId;
    forall i | i in Hearers(r, msg) ensures i == k {
      assert r[i].id == r[k].id;
    }
  }

  // ---------------------------------------------------------------------------
  // Roster

  /** `createOtherPlayer(id, initialPosition)`: a new mesh at the origin, moved
      to the position when one is given, replacing any earlier entry. */
  function CreateOtherPlayer(roster: Roster, id: string, initial: Option<Vec3>): (r: Roster)
    ensures r.Keys == roster.Keys + {id}
    ensures r[id] == initial.GetOr(Origin)
    ensures forall q | q in roster && q != id :: r[q] == roster[q]
  {
    roster[id := initial.GetOr(Origin)]
  }

  /** `removeOtherPlayer(id)`: drops the entry if there is one. */
  function RemoveOtherPlayer(roster: Roster, id: string): (r: Roster)
    ensures r.Keys == roster.Keys - {id}
    ensures forall q | q in r :: r[q] == roster[q]
    ensures id !in roster ==> r == roster
  {
    roster - {id}
  }

  /** The `forEach` of `handlePlayerInfo` after the roster is cleared: every
      listed player but the local one, in list order. */
  function Populate(players: seq<PlayerSnapshot>, localId: string): Roster
    decreases |players|
  {
    if |players| == 0 then map[]
    else
      var last := players[|players| - 1];
      var front := Populate(players[..|players| - 1], localId);
      if last.id != localId then CreateOtherPlayer(front, last.id, last.position) else front
  }

  /** The repopulated roster lists exactly the listed ids other than the
      local one. */
  lemma {:induction false} PopulateIds(players: seq<PlayerSnapshot>, localId: string, q: string)
    ensures q in Populate(players, localId) <==> q != localId && exists i | 0 <= i < |players| :: players[i].id == q
    decreases |players|
  {
    if |players| > 0 {
      var front := players[..|players| - 1];
      PopulateIds(front, localId, q);
      if exists i | 0 <= i < |front| :: front[i].id == q {
        var i :| 0 <= i < |front| && front[i].id == q;
        assert players[i].id == q;
      }
      if exists i | 0 <= i < |players| :: players[i].id == q {
        var i :| 0 <= i < |players| && players[i].id == q;
        if i < |front| {
          assert front[i].id == q;
        }
      }
    }
  }

  /** Each listed player is placed at its listed position, or at the origin
      when it has none; when an id is listed twice, the later entry wins. */
  lemma {:induction false} PopulatePositions(players: seq<PlayerSnapshot>, localId: string, i: nat)
    requires i < |players| && players[i].id != localId
    requires forall j | i < j < |players| :: players[j].id != players[i].id
    ensures players[i].id in Populate(players, localId)
    ensures Populate(players, localId)[players[i].id] == players[i].position.GetOr(Origin)
    decreases |players|
  {
    if i < |players| - 1 {
      var front := players[..|players| - 1];
      assert front[i] == players[i];
      PopulatePositions(front, localId, i);
    }
  }

  /** `handlePlayerInfo(players)`: the roster is replaced, not merged. */
  function HandlePlayerInfo(roster: Roster, players: seq<PlayerSnapshot>, localId: string): (r: Roster)
    ensures r == Populate(players, localId)
    ensures localId !in r
  {
    PopulateIds(players, localId, localId);
    Populate(players, localId)
  }

  /** The roster handler of `setupWebSocketHandlers`. */
  function OnMessage(roster: Roster, localId: string, msg: Envelope): (r: Roster)
    ensures msg.kind == PlayerInfo && msg.players.Some? ==> r == Populate(msg.players.value, localId)
    ensures msg.kind == Join && msg.id != localId ==> r == CreateOtherPlayer(roster, msg.id, None)
    ensures msg.kind == Leave && msg.id != localId ==> r == RemoveOtherPlayer(roster, msg.id)
    ensures msg.kind == State && msg.id != localId && msg.position.Some? && msg.id in roster ==>
              r == roster[msg.id := msg.position.value]
    ensures msg.kind == State && (msg.id == localId || msg.position.None? || msg.id !in roster) ==> r == roster
    ensures msg.kind !in {PlayerInfo, Join, Leave, State} || (msg.kind == PlayerInfo && msg.players.None?) ==> r == roster
  {
    if msg.kind == PlayerInfo && msg.players.Some? then HandlePlayerInfo(roster, msg.players.value, localId)
    else if msg.kind == Join && msg.id != localId then CreateOtherPlayer(roster, msg.id, None)
    else if msg.kind == Leave && msg.id != localId then RemoveOtherPlayer(roster, msg.id)
    else if msg.kind == State && msg.id != localId && msg.position.Some? then
      if msg.id in roster then roster[msg.id := msg.position.value] else roster
    else roster
  }

  /** Only `player_info` can put the local id in or take it out: every other
      message carrying it leaves the roster alone, and the roster never lists
      the local player. */
  lemma LocalIdNeverListed(roster: Roster, localId: string, msg: Envelope)
    requires localId !in roster
    ensures localId !in OnMessage(roster, localId, msg)
    ensures msg.id == localId && msg.kind != PlayerInfo ==> OnMessage(roster, localId, msg) == roster
  {
  }

  /** Leaving twice is leaving once. */
  lemma LeaveIdempotent(roster: Roster, localId: string, msg: Envelope)
    requires msg.kind == Leave
    ensures OnMessage(OnMessage(roster, localId, msg), localId, msg) == OnMessage(roster, localId, msg)
  {
  }

  /** A `state` never adds a player: the roster's ids change only through
      `player_info`, `join` and `leave`. */
  lemma StateNeverAdds(roster: Roster, localId: string, msg: Envelope)
    requires msg.kind == State
    ensures OnMessage(roster, localId, msg).Keys == roster.Keys
  {
  }

  // ---------------------------------------------------------------------------
  // Key routing

  /** A `KeyboardEvent`: its code and the modifier flags. */
  datatype KeyEvent = KeyEvent(code: string, ctrlKey: bool, shiftKey: bool, altKey: bool)

  /** The first instrument, at or after `from`, whose `linkedPlayerId` is
      truthy (every instrument has `handleKeyDown` and `handleKeyUp`), and,
      when `pedal` is set, that also has `setSustainPedal`. */
  function FirstLinked(instruments: seq<I.Instrument>, pedal: bool, from: nat): (r: Option<nat>)
    ensures r.Some? ==> from <= r.value < |instruments| && I.Linked(instruments[r.value])
                        && (pedal ==> I.HasSustainPedal(instruments[r.value].kind))
    ensures forall j | from <= j < |instruments| && (r.None? || j < r.value) ::
              !(I.Linked(instruments[j]) && (pedal ==> I.HasSustainPedal(instruments[j].kind)))
    decreases |instruments| - from
  {
    if from >= |instruments| then None
    else if I.Linked(instruments[from]) && (pedal ==> I.HasSustainPedal(instruments[from].kind)) then Some(from)
    else FirstLinked(instruments, pedal, from + 1)
  }

  predicate NoModifier(ev: KeyEvent) {
    !ev.ctrlKey && !ev.shiftKey && !ev.altKey
  }

  /** `handleKeyDown(event)`: Space presses the pedal of the first linked
      instrument that has one, and goes no further; any other key, with no
      modifier held, goes to the first linked instrument. */
  function HandleKeyDown(instruments: seq<I.Instrument>, ev: KeyEvent): (r: (seq<I.Instrument>, Option<Envelope>))
    ensures |r.0| == |instruments|
    ensures ev.code == "Space" ==> r.1.None? && forall j | 0 <= j < |instruments| :: r.0[j].pressedKeys == instruments[j].pressedKeys
    ensures ev.code == "Space" ==>
              match FirstLinked(instruments, true, 0)
              case None => r.0 == instruments
              case Some(i) => r.0 == instruments[i := I.SetSustainPedal(instruments[i], true)]
    ensures ev.code != "Space" && !NoModifier(ev) ==> r == (instruments, None)
    ensures ev.code != "Space" && NoModifier(ev) ==>
              match FirstLinked(instruments, false, 0)
              case None => r == (instruments, None)
              case Some(i) => r == (instruments[i := I.HandleKeyDown(instruments[i], ev.code).inst],
                                    I.HandleKeyDown(instruments[i], ev.code).sent)
  {
    if ev.code == "Space" then
      match FirstLinked(instruments, true, 0)
      case None => (instruments, None)
      case Some(i) => (instruments[i := I.SetSustainPedal(instruments[i], true)], None)
    else if NoModifier(ev) then
      match FirstLinked(instruments, false, 0)
      case None => (instruments, None)
      case Some(i) =>
        var out := I.HandleKeyDown(instruments[i], ev.code);
        (instruments[i := out.inst], out.sent)
    else (instruments, None)
  }

  /** `handleKeyUp(event)`: the mirror image, releasing the pedal on Space. */
  function HandleKeyUp(instruments: seq<I.Instrument>, ev: KeyEvent): (r: seq<I.Instrument>)
    ensures |r| == |instruments|
    ensures ev.code == "Space" ==>
              match FirstLinked(instruments, true, 0)
              case None => r == instruments
              case Some(i) => r == instruments[i := I.SetSustainPedal(instruments[i], false)]
    ensures ev.code != "Space" && !NoModifier(ev) ==> r == instruments
    ensures ev.code != "Space" && NoModifier(ev) ==>
              match FirstLinked(instruments, false, 0)
              case None => r == instruments
              case Some(i) => r == instruments[i := I.HandleKeyUp(instruments[i], ev.code)]
  {
    if ev.code == "Space" then
      match FirstLinked(instruments, true, 0)
      case None => instruments
      case Some(i) => instruments[i := I.SetSustainPedal(instruments[i], false)]
    else if NoModifier(ev) then
      match FirstLinked(instruments, false, 0)
      case None => instruments
      case Some(i) => instruments[i := I.HandleKeyUp(instruments[i], ev.code)]
    else instruments
  }

  /** A key event changes at most one instrument, and never one without an
      owner; a note it sends names that instrument and its owner. */
  lemma KeyDownTouchesOneLinked(instruments: seq<I.Instrument>, ev: KeyEvent)
    ensures var r := HandleKeyDown(instruments, ev);
            && (forall j, k | 0 <= j < k < |instruments| :: r.0[j] == instruments[j] || r.0[k] == instruments[k])
            && (forall j | 0 <= j < |instruments| && !I.Linked(instruments[j]) :: r.0[j] == instruments[j])
            && (r.1.Some? ==> exists j | 0 <= j < |instruments| ::
                                 I.Linked(instruments[j]) && r.1.value.instrumentId == instruments[j].id
                                 && r.1.value.id == instruments[j].linkedPlayerId.value)
  {
    var r := HandleKeyDown(instruments, ev);
    if ev.code != "Space" && NoModifier(ev) {
      var t := FirstLinked(instruments, false, 0);
      if t.Some? {
        assert I.Linked(instruments[t.value]);
      }
    }
  }

  /** Keys are routed to the scene's instruments as a whole, so with every
      instrument unowned a key event changes nothing and sends nothing. */
  lemma NoOwnerNoEffect(instruments: seq<I.Instrument>, ev: KeyEvent)
    requires forall j | 0 <= j < |instruments| :: !I.Linked(instruments[j])
    ensures HandleKeyDown(instruments, ev) == (instruments, None)
    ensures HandleKeyUp(instruments, ev) == instruments
  {
  }
}
