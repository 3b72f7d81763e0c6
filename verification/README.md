# Multiplayer music room: relay and client state machines in Dafny

This project models the multiplayer core of a browser music room. Players
walk around a shared 3D room, link themselves to an instrument, and play it
from the keyboard. Every other player in the same game sees the positions
and hears the notes.

The model covers:

- **Relay** (`back/start/websocket.ts`): a WebSocket server. It keeps a
  registry `gameCode → (connection → player)` plus each connection's
  `joinedGame`/`clientId`. It answers `host`/`join` with `player_info` and
  fans out `join`, `state`, `instrument_note` and `leave` to the other open
  connections of a room.
- **Gateway** (`network/WebSocketManager.ts`): the client's socket wrapper.
  Sends are gated on the socket being OPEN. There is no queue. Handlers
  are append-only and dispatched in registration order.
- **Input** (`controls/InputManager.ts`): the pressed-key map and the
  arrow/space reading.
- **Physics** (`physics/Physics.ts`): the kinematic step. It moves at 0.08
  per frame, jumps with 0.18, falls with gravity 0.01 and stops at a floor
  of 0.5.
- **Player** (`entities/Player.ts`): the local player's frame. It covers
  moving, linking to the first instrument in range on ShiftLeft, unlinking,
  and the `state` throttle (0.01 threshold, 10 ms interval). It also covers
  the inbound `state` handler.
- **Instrument** (`entities/Instrument.ts` and the six subclasses): the
  owner link, key-repeat suppression, per-kind note tables, note sending,
  the sustain pedal of the two pianos, the saxophone's held notes and the
  inbound note handler.
- **Notes** (`audio/Notes.ts`): the ten-entry note table and its three
  lookups.
- **Scene** (`scene/GameScene.ts`): the roster of remote players built from
  `player_info`/`join`/`leave`/`state`. It also covers the routing of key
  events to the first linked instrument, and of Space to the first linked
  instrument with a sustain pedal.
- **LegacyScene** (`gameScene.ts`): the earlier single-file client. It has
  an inline physics step and sends host/join and then a state on open. It
  sends a state every frame while OPEN, and keeps a box per remote player.
- **Client**: how `GameScene`'s constructor wires a gateway, the local
  player, ten instruments and the roster handler together. It also covers
  what one inbound frame does across all of them.

Every handler runs to completion on a single-threaded event loop. So each
one is a pure function `(state, event) → (state', sends)` over immutable
datatypes. Open sockets are an explicit set. A JS `Map` with insertion
order is a sequence of members. Optional JSON fields are `Option`. A
handler that throws (a `TypeError` on a missing field) returns `None`. On
the client, a frame's `Receipt` records whether a handler threw and what was
played before the throw.

JS truthiness is modelled by `Protocol.Truthy`. A missing string field and
an empty one are both represented as `""`. The relay's checks and the
routing of the scene treat them alike. The roster handler does not: it calls
`msg.id.slice` on a `join`/`leave`, which throws for a missing id but not for
`""` (see "## Left out").

## Model

| member | source | states |
|---|---|---|
| Relay.Put | back/start/websocket.ts:42 | `room.set(ws, …)`: the connection is a key afterwards with the new player, every other key keeps its player, a new key goes last, an existing key keeps its place with every other key in order, and keys stay distinct |
| Relay.Delete | back/start/websocket.ts:124 | `room.delete(ws)`: exactly that connection is gone, the others keep their players, keys stay distinct |
| Relay.SetPosition | back/start/websocket.ts:77-80 | the sender's stored position becomes the new one if it is in the room; no key is added or removed and no other player changes |
| Relay.OtherPlayers | back/start/websocket.ts:50-55 | the `player_info` list holds exactly the players of the other connections, one per connection |
| Relay.FanOut | back/start/websocket.ts:60-70 | a fan-out targets exactly the room's open connections other than the excluded one, once each, all with the same envelope |
| Relay.HostJoin | back/start/websocket.ts:31-70 | host/join creates the room if absent, maps the connection to `{id}` with no position (replacing an earlier entry), records `joinedGame`/`clientId`, replies with the others' snapshots and tells every other open member |
| Relay.StateRelay | back/start/websocket.ts:72-94 | a state looks the room up by `msg.gameCode`; if found it updates only the sender's position and forwards the state under the recorded `clientId` to the other open members; otherwise nothing happens |
| Relay.NoteRelay | back/start/websocket.ts:95-112 | a note changes no state and is forwarded under the recorded `clientId` to the room's other open members |
| Relay.OnMessage | back/start/websocket.ts:28-118 | an unparsable frame does nothing; no send echoes to the sender or goes to a closed socket; a reply comes exactly for host/join; a state or note from a connection that has not joined does nothing |
| Relay.OnConnection | back/start/websocket.ts:24-26 | a new connection, whose number no session and no room knows since every `connection` event brings a new socket object, is open with `joinedGame` and `clientId` unset; the registry is unchanged and the connection is a key of no room |
| RelayLemmas.FreshConnectionHearsNothing | back/start/websocket.ts:24-145 | until a new connection joins a room itself, no other connection's message and no close sends it anything |
| Relay.OnClose | back/start/websocket.ts:120-145 | closing a joined connection removes it from its last-joined room, tells the remaining open members once each, and deletes the room exactly when it is now empty; closing an unjoined one changes no room |
| RelayLemmas.OnMessagePreservesValid | back/start/websocket.ts:28-118 | every message keeps the registry invariant: rooms non-empty with distinct keys, and each joined connection is a key of the room it last joined |
| RelayLemmas.OnClosePreservesValid | back/start/websocket.ts:120-145 | closing keeps the registry invariant |
| RelayLemmas.OnConnectionPreservesValid | back/start/websocket.ts:24-26 | a new connection keeps the registry invariant |
| RelayLemmas.CloseTwiceIsCloseOnce | back/start/websocket.ts:120-145 | a second close of the same connection changes nothing and sends nothing |
| RelayLemmas.NoteRelayedExactlyWhenComplete | back/start/websocket.ts:95-112 | from a joined connection, a note reaches the room's other open members exactly when it carries an instrument id and a note id, and reaches no one otherwise |
| RelayLemmas.HostAStep | back/start/websocket.ts:31-57 | the first host gets an empty `player_info` and nobody is notified |
| RelayLemmas.JoinBStep | back/start/websocket.ts:40-70 | a joiner gets the host's snapshot and the host gets one `join` |
| RelayLemmas.MoveBStep | back/start/websocket.ts:72-94 | a state of the joiner reaches the host only, and is stored |
| RelayLemmas.CloseBStep | back/start/websocket.ts:120-145 | when the joiner closes, the host gets one `leave` and the room keeps only the host |
| RelayLemmas.EndToEnd | back/start/websocket.ts:24-145 | the whole host, join, move, close exchange produces exactly the expected replies and sends |
| RelayLemmas.RejoinLeavesStaleEntry | back/start/websocket.ts:31-42 | joining game A then game B on one socket and closing leaves a stale entry for that socket in A |
| Gateway.New | front/src/assets/three/network/WebSocketManager.ts:7-15 | a new gateway is CONNECTING with no handler and nothing sent |
| Gateway.OpenEvent | front/src/assets/three/network/WebSocketManager.ts:18-20 | the open event makes the socket OPEN and changes nothing else |
| Gateway.CloseSocket | front/src/assets/three/network/WebSocketManager.ts:57-59 | after `close()` the socket is not OPEN |
| Gateway.SendAfterCloseIsDropped | front/src/assets/three/network/WebSocketManager.ts:46-59 | after `close()` no later send reaches the wire |
| Gateway.Send | front/src/assets/three/network/WebSocketManager.ts:46-51 | an OPEN socket transmits the message; any other state drops it and changes nothing |
| Gateway.SendAllWire | front/src/assets/three/network/WebSocketManager.ts:46-51 | a run of sends appends the whole run when OPEN and nothing otherwise; there is no queue |
| Gateway.SendBeforeOpenIsLost | front/src/assets/three/network/WebSocketManager.ts:46-51 | messages sent before the open event never reach the wire |
| Gateway.Connect | front/src/assets/three/network/WebSocketManager.ts:37-44 | `connect` sends one host or join envelope with the code and id, through the OPEN gate |
| Gateway.Register | front/src/assets/three/network/WebSocketManager.ts:53-55 | `onMessage` appends the handler last and removes nothing |
| Gateway.Dispatch | front/src/assets/three/network/WebSocketManager.ts:30-34 | a parsed frame goes once to every handler in registration order; an unparsable one reaches none |
| Gateway.RegisterThenDispatch | front/src/assets/three/network/WebSocketManager.ts:30-55 | registering one more handler adds exactly one delivery, after all earlier ones |
| Input.IsKeyPressed | front/src/assets/three/controls/InputManager.ts:17-19 | a code with no recorded event reads as not pressed (`|| false`) |
| Input.UnseenKeyNotPressed | front/src/assets/three/controls/InputManager.ts:8-19 | from the empty map, a code that no event named is not pressed, whatever other keys did |
| Input.HandleKey | front/src/assets/three/controls/InputManager.ts:13-19 | a key event sets that key's pressed state and leaves every other key's unchanged |
| Input.LastEventWins | front/src/assets/three/controls/InputManager.ts:8-19 | after any sequence of key events, a key is pressed exactly when its last event was a keydown |
| Input.Movement | front/src/assets/three/controls/InputManager.ts:21-32 | each axis is -1, 0 or 1; -1 exactly when Left (Up) is held, 1 exactly when Right (Down) is held without Left (Up) |
| Input.IsJumpPressed | front/src/assets/three/controls/InputManager.ts:34-36 | nothing reads as a jump before a `Space` event was seen |
| Input.JumpReadsSpaceOnly | front/src/assets/three/controls/InputManager.ts:13-36 | the jump reading follows the `Space` key's events alone, and `Space` never changes the movement reading |
| Input.OppositeArrowsDoNotCancel | front/src/assets/three/controls/InputManager.ts:25-29 | holding both arrows of an axis moves toward Left and Up, not nowhere |
| Physics.Update | front/src/assets/three/physics/Physics.ts:12-34 | the new height is never below the floor; horizontal motion is movement times speed; a fall through the floor lands on it at rest; otherwise height and vertical speed follow the gravity step |
| Physics.UpdateKeepsGrounded | front/src/assets/three/physics/Physics.ts:16-31 | a body on the ground stays at floor height with no vertical speed, and stays on the floor unless it jumps |
| Physics.NoJumpInTheAir | front/src/assets/three/physics/Physics.ts:16-19 | the jump key has no effect off the ground |
| Physics.JumpLeavesTheGround | front/src/assets/three/physics/Physics.ts:16-25 | a jump from the ground lifts the body by jump force minus gravity |
| Physics.AboveFloorInFlight | front/src/assets/three/physics/Physics.ts:21-31 | with the default constants the closed-form height stays above the floor for frames 1 to 34 |
| Physics.Flight | front/src/assets/three/physics/Physics.ts:12-34 | a default jump follows the closed-form height and speed and stays airborne up to frame 34 |
| Physics.DefaultJumpLandsOnFrame35 | front/src/assets/three/physics/Physics.ts:2-34 | a default jump from rest reaches 0.67 and 0.83 and lands back on the floor at rest on frame 35 |
| Notes.FindById | front/src/assets/three/audio/Notes.ts:20-22 | `find` by id returns nothing exactly when no entry has the id, and otherwise the first entry with it |
| Notes.FindByName | front/src/assets/three/audio/Notes.ts:24-26 | `find` by name returns nothing exactly when no entry has the name, and otherwise an entry with it |
| Notes.GetNoteById | front/src/assets/three/audio/Notes.ts:20-22 | the result is a table entry with that id, and nothing means no entry has the id |
| Notes.GetNoteByName | front/src/assets/three/audio/Notes.ts:24-26 | the result is a table entry with exactly that name, and it is found exactly when the table knows the name |
| Notes.GetNoteIdByName | front/src/assets/three/audio/Notes.ts:28-30 | an id is returned exactly when the name is found, and it is that note's id |
| Notes.TableWellFormed | front/src/assets/three/audio/Notes.ts:7-18 | the table has ten entries, entry i has id i, and names are distinct |
| Notes.GetNoteByIdDefinedExactly | front/src/assets/three/audio/Notes.ts:7-22 | `getNoteById` finds a note for exactly the ids 0 to 9 |
| Notes.IdNameRoundTrip | front/src/assets/three/audio/Notes.ts:20-30 | id to name to id is the identity on 0..9 |
| Notes.NameIdRoundTrip | front/src/assets/three/audio/Notes.ts:24-30 | a name has an id exactly when the table knows it, and name to id to name is the identity |
| NoteTables.PianoKeyNote | front/src/assets/three/entities/AcousticPiano.ts:91-103 | every key the acoustic piano maps names a note its audio map has |
| NoteTables.PianoNoteId | front/src/assets/three/entities/AcousticPiano.ts:248-259 | every name gets an id in 1..36, unknown names included |
| NoteTables.TwelveKeyNote | front/src/assets/three/entities/ElectricPiano.ts:43-53 | every key the twelve-note instruments map names one of their twelve audio notes |
| NoteTables.TwelveNoteId | front/src/assets/three/entities/ElectricPiano.ts:199-205 | every name gets an id in 1..12, unknown names included |
| NoteTables.PianoKeysCovered | front/src/assets/three/entities/AcousticPiano.ts:51-103 | exactly the 36 keys are mapped, each to a note with an audio entry |
| NoteTables.PianoKeyNoteBijective | front/src/assets/three/entities/AcousticPiano.ts:91-103 | the acoustic piano's key table is a bijection between the 36 keys and the 36 notes |
| NoteTables.PianoKeysDistinctNotes | front/src/assets/three/entities/AcousticPiano.ts:91-103 | two different keys never sound the same note on the acoustic piano |
| NoteTables.PianoNoteIdBijective | front/src/assets/three/entities/AcousticPiano.ts:248-259 | note ids map the 36 notes one-to-one onto 1..36 and any other name to 1 |
| NoteTables.TwelveKeysCovered | front/src/assets/three/entities/ElectricPiano.ts:27-53 | the twelve-note instruments map the same 36 keys, each to one of their twelve audio notes |
| NoteTables.TwelveKeysRepeatRows | front/src/assets/three/entities/ElectricPiano.ts:43-53 | each key's twelve-note id is its acoustic piano id folded into one octave |
| NoteTables.TwelveNoteIdBijective | front/src/assets/three/entities/ElectricPiano.ts:199-205 | twelve-note ids map the twelve notes one-to-one onto 1..12, agree with the piano on octave 3, and give 1 otherwise |
| Instrument.New | front/src/assets/three/entities/Instrument.ts:27-47 | a new instrument has no owner, no held key, no sounding note and no pedal |
| Instrument.IsPlayerInRange | front/src/assets/three/entities/Instrument.ts:318-324 | a player in range is within 2.5 of the instrument on each horizontal axis |
| Instrument.InRangeIsDistanceAtMost | front/src/assets/three/entities/Instrument.ts:318-324 | in range exactly when the horizontal distance is at most 2.5, whatever the height |
| Instrument.LinkPlayer | front/src/assets/three/entities/Instrument.ts:326-336 | only an instrument with no owner takes the player; otherwise nothing changes |
| Instrument.IsLinkedToPlayer | front/src/assets/three/entities/Instrument.ts:368-370 | only an instrument with an owner is linked to anyone |
| Instrument.LinkedToExactlyTheLinker | front/src/assets/three/entities/Instrument.ts:326-370 | linking a free instrument links it to that player and no other, a second link never takes it away, and after unlinking it is linked to nobody |
| Instrument.StopAllActiveNotes | front/src/assets/three/entities/Instrument.ts:471-477 | no note sounds afterwards and nothing else changes |
| Instrument.StopActiveNote | front/src/assets/three/entities/Instrument.ts:461-468 | only that key's note stops; every other sounding note is kept |
| Instrument.UnlinkPlayer | front/src/assets/three/entities/Instrument.ts:338-366 | afterwards there is no owner; an owned instrument goes silent and forgets held keys; the pianos also release the pedal |
| Instrument.UnlinkIdempotent | front/src/assets/three/entities/Instrument.ts:338-366 | unlinking twice is unlinking once |
| Instrument.Cleanup | front/src/assets/three/entities/Instrument.ts:406-427 | cleanup silences every note and forgets held keys, keeping the owner and handler |
| Instrument.PlayNoteFromKey | front/src/assets/three/entities/AcousticPiano.ts:182-206 | a note is sent exactly when the key is mapped and the instrument has an owner, under the owner's id with that kind's note id; guitars and bass record nothing, the others record the key's note |
| Instrument.HandleKeyDown | front/src/assets/three/entities/Instrument.ts:435-446 | a key already held is ignored; otherwise it becomes held and plays once |
| Instrument.HandleKeyUp | front/src/assets/three/entities/AcousticPiano.ts:168-179 | the key is released; pianos stop its note unless the pedal is down, in which case it is sustained; the saxophone stops it; the others keep their notes |
| Instrument.SetSustainPedal | front/src/assets/three/entities/AcousticPiano.ts:223-235 | pressing records the pedal; releasing stops every sustained note and forgets them |
| Instrument.PlayNote | front/src/assets/three/entities/Instrument.ts:372-390 | a note is sent exactly when owned and the name is in the note table, and its id resolves back to that name |
| Instrument.OnNote | front/src/assets/three/entities/Instrument.ts:305-316 | a note plays exactly when it is an `instrument_note` for this instrument's id with a note id, whoever owns the instrument |
| Instrument.ParticlesThrowExactly | front/src/assets/three/entities/Instrument.ts:73-81 | the particle count is negative, so `new Float32Array` throws a RangeError, exactly for a note id of -50 or below |
| Instrument.OnNoteThrows | front/src/assets/three/entities/Instrument.ts:305-316 | the note handler can throw only on a note it plays, after handing it to the audio manager |
| Instrument.RemotePianoMostlySilent | front/src/assets/three/audio/AudioManager.ts:83-84 | a piano key press sends an id in 1..36, and a peer's audio manager finds a note for it only when it is at most 9 |
| Instrument.NewIsValid | front/src/assets/three/entities/Instrument.ts:27-47 | a new instrument satisfies the note-state invariant |
| Instrument.HandleKeyDownPreservesValid | front/src/assets/three/entities/Instrument.ts:435-446 | a key press keeps the invariant: only held or sustained keys sound, each with its own note, and nothing sounds without an owner |
| Instrument.HandleKeyUpPreservesValid | front/src/assets/three/entities/Instrument.ts:448-453 | a key release keeps the invariant |
| Instrument.SetSustainPedalPreservesValid | front/src/assets/three/entities/AcousticPiano.ts:223-235 | the pedal keeps the invariant |
| Instrument.LinkUnlinkPreserveValid | front/src/assets/three/entities/Instrument.ts:326-366 | linking, unlinking and cleanup keep the invariant |
| Instrument.RetriggerNeverSounds | front/src/assets/three/entities/AcousticGuitar.ts:106-125 | guitars and the bass never record a sounding note, on press or release |
| Instrument.PianoReleaseSilences | front/src/assets/three/entities/AcousticPiano.ts:168-235 | without the pedal a released key stops sounding; releasing the pedal leaves only held keys sounding |
| Player.New | front/src/assets/three/entities/Player.ts:14-34 | a new player is at rest at the spawn point, unlinked, with nothing sent yet |
| Player.ShouldSendUpdate | front/src/assets/three/entities/Player.ts:94-107 | a send is allowed only 10 ms or more after the last one, and exactly when some axis moved by more than 0.01 |
| Player.FirstLinkable | front/src/assets/three/entities/Player.ts:128-130 | the first instrument in list order that is in range and not already this player's, or none exists |
| Player.LinkInstrument | front/src/assets/three/entities/Player.ts:178-181 | the player records the instrument, and only that instrument is offered to the player |
| Player.LinkInstrumentAgreesWhenFree | front/src/assets/three/entities/Player.ts:178-181 | after linking, the instrument names the player as owner exactly when it was free or already the player's; one owned by someone else keeps its owner while the player still records it; no other instrument changes |
| Player.UpdateKeepsLinkAgreement | front/src/assets/three/entities/Player.ts:109-188 | when the player's recorded instrument is the only owned one and names the player, every frame keeps it that way, and a recorded link is always an instrument owned by the player |
| Player.UnlinkInstrument | front/src/assets/three/entities/Player.ts:183-188 | the player drops its link and only its instrument is unlinked |
| Player.UnlinkInstrumentIdempotent | front/src/assets/three/entities/Player.ts:183-188 | unlinking twice is unlinking once |
| Player.Move | front/src/assets/three/entities/Player.ts:120-125 | only the body moves, and the mesh follows it |
| Player.Update | front/src/assets/three/entities/Player.ts:109-150 | remote players do nothing; a linked player does not move and unlinks on Shift; an unlinked one moves, links on Shift to the first free instrument in range, and sends its position exactly when the throttle allows |
| Player.SendsAreSpaced | front/src/assets/three/entities/Player.ts:94-98 | two sends are never closer than 10 ms |
| Player.StillPlayerIsQuiet | front/src/assets/three/entities/Player.ts:100-106 | a player that has not moved beyond the threshold sends nothing |
| Player.FirstFrameReportsSpawn | front/src/assets/three/entities/Player.ts:120-145 | the first frame of a new local player sends its spawn position |
| Player.HandleMessage | front/src/assets/three/entities/Player.ts:87-92 | another id's state moves this player's own mesh; one without a position throws |
| Player.UpdateAsWritten | front/src/assets/three/entities/Player.ts:109-127 | every local frame throws: a linked player before any change, an unlinked one after its body and mesh have moved and before any link or send; remote frames do nothing |
| Player.AsWrittenMovesLikeIntended | front/src/assets/three/entities/Player.ts:109-127 | up to the throw, an unlinked local player's body and mesh end where the intended frame puts them, but it links nothing, sends nothing and keeps its throttle state |
| Player.AsWrittenNeverSends | front/src/assets/three/entities/Player.ts:109-145 | as written the first frame draws the player at the spawn point and throws without sending, where the intended frame sends the spawn point |
| Scene.SetupInstruments | front/src/assets/three/scene/GameScene.ts:248-315 | ten fresh instruments `instrument_0`..`instrument_9`, in the listed kinds and positions |
| Scene.SetupIdsDistinct | front/src/assets/three/scene/GameScene.ts:256-308 | the ten ids are distinct and only the first two instruments have a sustain pedal |
| Scene.NoteReachesOneInstrument | front/src/assets/three/scene/GameScene.ts:274-308 | a note for `instrument_k` is played by instrument k and no other |
| Scene.CreateOtherPlayer | front/src/assets/three/scene/GameScene.ts:485-491 | the id is listed afterwards at its initial position or the origin, overwriting it, and no other entry changes |
| Scene.RemoveOtherPlayer | front/src/assets/three/scene/GameScene.ts:493-499 | exactly that id is gone and an unknown id changes nothing |
| Scene.PopulateIds | front/src/assets/three/scene/GameScene.ts:474-483 | after `player_info` the roster lists exactly the listed ids other than the local one |
| Scene.PopulatePositions | front/src/assets/three/scene/GameScene.ts:474-491 | each listed player sits at its last listed position, or the origin without one |
| Scene.HandlePlayerInfo | front/src/assets/three/scene/GameScene.ts:474-483 | `player_info` replaces the roster, which never lists the local player |
| Scene.OnMessage | front/src/assets/three/scene/GameScene.ts:454-472 | player_info repopulates, another id's join adds or overwrites, leave removes, a state moves only a known remote entry, anything else changes nothing |
| Scene.LocalIdNeverListed | front/src/assets/three/scene/GameScene.ts:454-483 | every message other than `player_info` that carries the local id leaves the roster unchanged, and the local id is never listed |
| Scene.LeaveIdempotent | front/src/assets/three/scene/GameScene.ts:462-463 | a second identical leave changes nothing |
| Scene.StateNeverAdds | front/src/assets/three/scene/GameScene.ts:465-469 | a state never adds or removes a player |
| Scene.FirstLinked | front/src/assets/three/scene/GameScene.ts:775-780 | the first instrument in list order with an owner (and a pedal when asked), or none exists |
| Scene.HandleKeyDown | front/src/assets/three/scene/GameScene.ts:769-795 | Space presses the pedal of the first owned pianos only; other keys go to the first owned instrument only when no modifier is held |
| Scene.HandleKeyUp | front/src/assets/three/scene/GameScene.ts:797-822 | Space releases the pedal of the first owned piano; other keys are released on the first owned instrument when no modifier is held |
| Scene.KeyDownTouchesOneLinked | front/src/assets/three/scene/GameScene.ts:784-794 | a key press changes at most one instrument, never one without an owner, and any note sent is from an owned instrument under its owner's id |
| Scene.NoOwnerNoEffect | front/src/assets/three/scene/GameScene.ts:769-822 | when no instrument has an owner, key events change nothing and send nothing |
| LegacyScene.Start | front/src/assets/three/gameScene.ts:72-78 | the box starts at the spawn point at rest, with no remote box and the socket not yet open |
| LegacyScene.Step | front/src/assets/three/gameScene.ts:157-180 | the box moves by at most one speed step of 0.08 per horizontal axis, left wins over right, and it never ends below the floor |
| LegacyScene.StepIsPhysicsUpdate | front/src/assets/three/gameScene.ts:157-180 | the inline step equals the `Physics` step with the default constants, fed by the input reading of the same keys |
| LegacyScene.StepKeepsAboveFloor | front/src/assets/three/gameScene.ts:176-180 | after every frame the height is at least 0.5 |
| LegacyScene.OnOpen | front/src/assets/three/gameScene.ts:90-108 | on open it sends host or join first, then a state with the current position |
| LegacyScene.Frame | front/src/assets/three/gameScene.ts:154-187 | a frame moves the box and sends the new position exactly when the socket is OPEN |
| LegacyScene.RunSendsEveryFrame | front/src/assets/three/gameScene.ts:183-187 | n frames while OPEN send exactly n states, all above the floor; none while not OPEN |
| LegacyScene.JoinPrecedesEveryState | front/src/assets/three/gameScene.ts:90-108 | whatever frames ran before the open event, the first frame on the wire is the host or join and every later one is a state, one per frame after it |
| LegacyScene.OnMessage | front/src/assets/three/gameScene.ts:117-142 | another id's state creates its box on first sight and then moves it; a leave removes the box if present; own messages change nothing |
| LegacyScene.BoxLivesUntilLeave | front/src/assets/three/gameScene.ts:123-141 | once created, a box stays until a leave for it arrives |
| Client.RegisterInstruments | front/src/assets/three/entities/Instrument.ts:305-316 | building n instruments registers one note handler each, in index order after the existing handlers |
| Client.Construct | front/src/assets/three/scene/GameScene.ts:55-60 | a fresh client is still CONNECTING with nothing sent, and its handlers are the player's, the ten instruments' and the roster's, in that order |
| Client.JoinIsDropped | front/src/assets/three/entities/Player.ts:67-69 | as written the join never reaches the wire, even once the socket opens |
| Client.OpenAndJoin | front/src/assets/three/gameScene.ts:90-97 | joining on the open event puts exactly one join on the wire and changes nothing else |
| Client.OpenAndJoinSendsJoin | front/src/assets/three/gameScene.ts:90-97 | with the corrected order the only frame sent is the player's join |
| Client.UnjoinedClientIsIgnored | back/start/websocket.ts:72-113 | the relay drops every state and note of a connection that never joined; the intended join makes it a room member |
| Client.Deliver | front/src/assets/three/network/WebSocketManager.ts:30-34 | a handler throws exactly when it is the player's on a state it cannot read, or an instrument's on a note of id -50 or below; a note handler changes nothing and plays what its instrument hears; no handler changes the gateway or the instrument list |
| Client.DeliverAll | front/src/assets/three/network/WebSocketManager.ts:30-34 | running the handlers in order never changes the gateway or the instrument list |
| Client.Receive | front/src/assets/three/network/WebSocketManager.ts:22-34 | a frame that does not parse reaches no handler and changes nothing |
| Client.InstrumentRun | front/src/assets/three/entities/Instrument.ts:305-316 | a run of note handlers none of which throws changes nothing and plays what those instruments hear |
| Client.InstrumentRunThrows | front/src/assets/three/entities/Instrument.ts:305-316 | when one note handler throws, the run stops there with the notes up to it played and nothing changed |
| Client.ReceiveRunsEveryHandler | front/src/assets/three/network/WebSocketManager.ts:30-34 | a frame on which no handler throws runs the player's, every instrument's and the roster's handler, with the same effect as each on its own |
| Client.ReceiveStopsAtThrowingNote | front/src/assets/three/network/WebSocketManager.ts:30-34 | when an instrument's handler throws, the player has handled the frame, the instruments up to that one have played, and the roster never sees it |
| Client.NoteOnFreshClient | front/src/assets/three/entities/Instrument.ts:305-316 | a note for `instrument_k` on a fresh client is handed to the audio manager once, by that instrument, and changes no state; the frame throws exactly when the note id is -50 or below |
| Client.PositionlessStateStopsDelivery | front/src/assets/three/entities/Player.ts:87-92 | another id's state without a position throws in the player's handler, so no later handler sees it |
| Client.CleanupInstrument | front/src/assets/three/entities/Instrument.ts:406-427 | cleanup changes only that instrument and never the handler list |
| Client.CleanedUpInstrumentStillPlays | front/src/assets/three/entities/Instrument.ts:315 | a cleaned-up instrument keeps its handler and still hands notes addressed to it to the audio manager |

## Left out

- Rendering, labels, particles, lights, the camera, orbit controls,
  animations and the resize handler are left out. So is sound output:
  audio playback is reduced to which note ids are handed to the audio
  manager.
- Client.Deliver: the roster handler's `msg.id.slice(0, 6)` (GameScene.ts:460,
  464, 486) throws on a `join`, `leave` or `player_info` entry without an id.
  The model represents a missing id as `""`, on which `slice` does not
  throw, so it never lets the roster handler throw.
- JSON fields of the wrong type are left out. A frame that does not parse
  is `None`, and every field is taken to have its declared type when
  present.
- A missing and an empty string are conflated. A missing `noteId` and a
  present one are kept apart, but a fractional or negative `noteId` is
  just an `int`.
- Floating point is modelled as exact reals. IEEE-754 rounding can change
  where a jump lands or whether a 0.01 move counts.
- `ws.send` throwing on a socket that closes mid-handler is left out.
  Relay sends go only to sockets in the open set.
- Keys such as `__proto__` in JS objects used as maps (`otherBoxes`, the
  key maps) are left out; the model treats every key as ordinary.
- Player.Update: `Date.now()` is read twice in the source, and the model
  uses one `now` for both reads. The ShiftLeft "pressed this frame" reading
  is an input, because the method the source calls for it does not exist.
- The local player's `handleMessage` moving its own mesh is modelled. The
  label update it triggers is not.
- The `InputManager.cleanup` listener removal is left out. It passes fresh
  closures and so removes nothing.
- The base `Instrument.playNote` is modelled (`Instrument.PlayNote`). Its
  only caller, `Player.handleInstrumentInput`, is commented out, and its
  KeyQ/KeyW mapping to Q and W has no entry in the note table.
- Subclass audio loading (`loadSounds`, `setAudioManager`) is left out. So
  is `playNoteDirectly` returning null when an audio URL is missing: every
  mapped note has an audio entry (`NoteTables.PianoKeysCovered`), so an
  active note is always recorded.
- There is no outbound queue: `send` drops a message while the socket is not
  OPEN (WebSocketManager.ts:46-51), and the model does the same.
- A later host/join on the same connection overwrites its room entry and its
  recorded game and id (websocket.ts:33-42); the model does the same.
- The legacy client's socket closing after it opened is left out. Its close
  handler only logs, and the model keeps `socketOpen` as the OPEN test.
- `GameScene.cleanup` and `Player.cleanup` mesh removal are left out.
  Instrument cleanup and what it fails to unregister are modelled.
- Physics.AboveFloorInFlight and Physics.Flight state the jump arc for the
  default constants only, not for every configuration.

## Findings

| source | as written | input that shows it | evidently intended | confidence | as-written member | corrected member |
|---|---|---|---|---|---|---|
| front/src/assets/three/entities/Player.ts:116-127 | `update` calls `inputManager.wasKeyPressedThisFrame`, which InputManager.ts does not define, so every local frame throws a TypeError. In `GameScene`'s constructor the first `animate()` throws before `requestAnimationFrame`, so the frame loop never runs and the keyboard controls are never installed. | a new local player's first frame | read the ShiftLeft press of the frame, move, link and send the throttled `state` | not executed; high | Player.AsWrittenNeverSends | Player.FirstFrameReportsSpawn |
| front/src/assets/three/entities/Player.ts:67-69 | the local player calls `connect` in its constructor, right after the gateway created its socket, while the socket is still CONNECTING, so the OPEN gate drops the join and the relay ignores every state and note from that connection | any client: `GameScene` constructs the gateway and the player in one synchronous run | send host/join once the socket opens, as the legacy client's `onopen` does | not executed; high | Client.JoinIsDropped | Client.OpenAndJoinSendsJoin |
