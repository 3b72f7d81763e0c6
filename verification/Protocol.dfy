/** Wire types shared by the relay server and the browser client
    (the `WebSocketMessage` and `Player` interfaces of types.ts). */
module Protocol {

  /** An optional value: JavaScript's `undefined` is `None`. */
  datatype Option<+T> = None | Some(value: T) {
    function GetOr(default: T): T {
      match this
      case Some(v) => v
      case None => default
    }
  }

  /** A position `[x, y, z]`. Exact reals stand in for JavaScript doubles. */
  datatype Vec3 = Vec3(x: real, y: real, z: real)

  /** Where a freshly created three.js mesh sits. */
  const Origin := Vec3(0.0, 0.0, 0.0)

  /** The `type` discriminant. `Unknown` is any other string a peer may send. */
  datatype MsgType = Host | Join | State | Leave | InstrumentNote | PlayerInfo | Unknown

  /** One `{id, position?}` entry of a `player_info` list. */
  datatype PlayerSnapshot = PlayerSnapshot(id: string, position: Option<Vec3>)

  /** A parsed envelope. A string field that is absent and one that is empty
      are both falsy in JavaScript and every reader treats them alike, so both
      are the empty string here; the optional structured fields are `Option`s. */
  datatype Envelope = Envelope(
    kind: MsgType,
    id: string,
    gameCode: string,
    position: Option<Vec3>,
    instrumentId: string,
    noteId: Option<int>,
    players: Option<seq<PlayerSnapshot>>)

  /** JavaScript truthiness of a string field. */
  predicate Truthy(s: string) {
    s != ""
  }

  function HostOrJoinMsg(isHost: bool, gameCode: string, id: string): Envelope {
    Envelope(if isHost then Host else Join, id, gameCode, None, "", None, None)
  }

  function JoinNotice(id: string, gameCode: string): Envelope {
    Envelope(Join, id, gameCode, None, "", None, None)
  }

  function StateMsg(id: string, gameCode: string, position: Vec3): Envelope {
    Envelope(State, id, gameCode, Some(position), "", None, None)
  }

  function NoteMsg(id: string, gameCode: string, instrumentId: string, noteId: int): Envelope {
    Envelope(InstrumentNote, id, gameCode, None, instrumentId, Some(noteId), None)
  }

  function LeaveMsg(id: string, gameCode: string): Envelope {
    Envelope(Leave, id, gameCode, None, "", None, None)
  }

  function PlayerInfoMsg(id: string, gameCode: string, players: seq<PlayerSnapshot>): Envelope {
    Envelope(PlayerInfo, id, gameCode, None, "", None, Some(players))
  }
}
