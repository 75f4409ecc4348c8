/** The relay hub of server.js: the table `rooms` from an operator token to the ids
    of the sockets that joined with it, the membership of the realtime library's
    rooms named `token-<token>`, and the rule that relays an event to every member
    of the room named by the payload's token, whichever rooms the sender joined,
    except the sender. What the hub emits is recorded in an outbox; the clock
    `Date.now()` is a parameter. */
module RelayHub {
  import opened JsText

  type SocketId = string

  /** A table from a key to a set of socket ids: `rooms` is keyed by token, the
      library's room membership by room name. */
  type RoomTable = map<string, set<SocketId>>

  /** The payload a client sends: its `token`, which may be missing, and whatever else it carries. */
  datatype EventData = EventData(token: Option<string>, fields: map<string, string>)

  /** The events the hub relays unchanged. */
  datatype RelayedEvent =
    | ExtensionOpened
    | ExtensionConnected
    | ExtensionClosed
    | AgentConnected
    | AgentLoggedOut
    | AgentLoggedOutDuringCall
    | CampaignsLoaded
    | MicrophoneMuted
    | MicrophoneUnmuted
    | TokenValidation
    | CheckExtensionStatus
    | ExtensionStatusResponse

  /** The events the hub emits. */
  datatype OutEvent = ErrorEvent | JoinedRoomEvent | UserConnectedEvent | Relayed(event: RelayedEvent) | HeartbeatEvent

  datatype Payload =
    | Data(data: EventData)
    | ErrorInfo(message: string)
    | JoinedInfo(room: string, token: string)
    | UserInfo(socketId: SocketId)
    | HeartbeatInfo(socketId: SocketId, timestamp: int)

  /** One emission: the sockets it reaches, the event and its payload. */
  datatype Emission = Emission(recipients: set<SocketId>, event: OutEvent, payload: Payload)

  datatype HubState = HubState(rooms: RoomTable, members: RoomTable, outbox: seq<Emission>)

  /** The room of a token. */
  function RoomName(token: string): (name: string)
    ensures StartsWith(name, "token-") && name[6..] == token
  {
    "token-" + token
  }

  /** A token interpolated into a template string: a missing one reads "undefined". */
  function TokenText(token: Option<string>): (text: string)
    ensures token.Some? ==> text == token.value
    ensures token.None? ==> text == "undefined"
  {
    if token.Some? then token.value else "undefined"
  }

  /** The ids a table holds under `key`; none when the key is absent. */
  function Members(m: RoomTable, key: string): set<SocketId> {
    if key in m then m[key] else {}
  }

  /** `id` added to the set under `key`, which is created when absent. */
  function Join(m: RoomTable, key: string, id: SocketId): (r: RoomTable)
    ensures key in r && r[key] == Members(m, key) + {id}
    ensures forall k :: k != key ==> (k in r <==> k in m)
    ensures forall k :: k != key && k in m ==> r[k] == m[k]
  {
    m[key := Members(m, key) + {id}]
  }

  /** `id` removed from every set, and every set it leaves empty removed from the table. */
  function Leave(m: RoomTable, id: SocketId): (r: RoomTable)
    ensures forall k :: k in r ==> k in m && id !in r[k]
    ensures forall k :: k in m && id !in m[k] ==> k in r && r[k] == m[k]
    ensures forall k, x :: k in m && x in m[k] && x != id ==> k in r && x in r[k]
    ensures forall k :: k in m && k !in r ==> m[k] == {id}
    ensures forall k :: k in m && m[k] == {id} ==> k !in r
    ensures forall k :: k in r ==> r[k] <= m[k]
  {
    map k | k in m && m[k] != {id} :: m[k] - {id}
  }

  /** No key of the table holds an empty set. */
  predicate NoEmptyRooms(m: RoomTable) {
    forall k :: k in m ==> m[k] != {}
  }

  /** `id` occurs in no set of the table. */
  predicate Absent(m: RoomTable, id: SocketId) {
    forall k :: k in m ==> id !in m[k]
  }

  // ---------------------------------------------------------------------
  // The handlers

  /** `join-room`: without a token an error goes back to the sender and nothing else happens;
      otherwise the socket joins the token's room and is recorded under the token, the sender
      is told which room it joined, and the room's other members are told of the new socket. */
  function JoinRoom(h: HubState, id: SocketId, token: Option<string>): HubState {
    if !Truthy(token) then
      h.(outbox := h.outbox + [Emission({id}, ErrorEvent, ErrorInfo("Token is required"))])
    else
      var t := token.value;
      var members := Join(h.members, RoomName(t), id);
      HubState(Join(h.rooms, t, id), members,
               h.outbox + [Emission({id}, JoinedRoomEvent, JoinedInfo(RoomName(t), t)),
                           Emission(members[RoomName(t)] - {id}, UserConnectedEvent, UserInfo(id))])
  }

  /** One of the relayed events: the payload, unchanged, to the room named by the payload's token, except the sender. */
  function Relay(h: HubState, id: SocketId, e: RelayedEvent, data: EventData): HubState {
    var room := RoomName(TokenText(data.token));
    h.(outbox := h.outbox + [Emission(Members(h.members, room) - {id}, Relayed(e), Data(data))])
  }

  /** `heartbeat`: the sender's id and the time, in place of the payload, to the room named by the payload's token, except the sender. */
  function Heartbeat(h: HubState, id: SocketId, data: EventData, now: int): HubState {
    var room := RoomName(TokenText(data.token));
    h.(outbox := h.outbox + [Emission(Members(h.members, room) - {id}, HeartbeatEvent, HeartbeatInfo(id, now))])
  }

  /** `disconnect`: the socket leaves every room of the library and every set of `rooms`. */
  function Disconnect(h: HubState, id: SocketId): HubState {
    h.(rooms := Leave(h.rooms, id), members := Leave(h.members, id))
  }

  /** Everything that can reach the hub. */
  datatype HubInput =
    | JoinRoomReceived(id: SocketId, token: Option<string>)
    | RelayReceived(id: SocketId, event: RelayedEvent, data: EventData)
    | HeartbeatReceived(id: SocketId, data: EventData, now: int)
    | SocketDisconnected(id: SocketId)

  function Step(h: HubState, i: HubInput): HubState {
    match i
    case JoinRoomReceived(id, token) => JoinRoom(h, id, token)
    case RelayReceived(id, e, data) => Relay(h, id, e, data)
    case HeartbeatReceived(id, data, now) => Heartbeat(h, id, data, now)
    case SocketDisconnected(id) => Disconnect(h, id)
  }

  function Run(h: HubState, inputs: seq<HubInput>): HubState
    decreases |inputs|
  {
    if inputs == [] then h else Run(Step(h, inputs[0]), inputs[1..])
  }

  // ---------------------------------------------------------------------
  // Properties

  /** `join-room` without a token (missing or empty) only sends the error back to the sender. */
  lemma JoinWithoutTokenOnlyErrs(h: HubState, id: SocketId, token: Option<string>)
    requires !Truthy(token)
    ensures JoinRoom(h, id, token).rooms == h.rooms && JoinRoom(h, id, token).members == h.members
    ensures JoinRoom(h, id, token).outbox == h.outbox + [Emission({id}, ErrorEvent, ErrorInfo("Token is required"))]
  {
  }

  /** `join-room` with a token adds the socket to the token's set, creating it when absent, and
      to the room `token-<token>`; the sender learns the room, and everyone else in it learns of the sender. */
  lemma JoinAddsSocket(h: HubState, id: SocketId, t: string)
    requires t != ""
    ensures var r := JoinRoom(h, id, Some(t));
      && t in r.rooms && r.rooms[t] == Members(h.rooms, t) + {id}
      && (forall k :: k != t ==> (k in r.rooms <==> k in h.rooms))
      && (forall k :: k != t && k in h.rooms ==> r.rooms[k] == h.rooms[k])
      && Members(r.members, "token-" + t) == Members(h.members, "token-" + t) + {id}
      && r.outbox == h.outbox + [Emission({id}, JoinedRoomEvent, JoinedInfo("token-" + t, t)),
                                 Emission(Members(h.members, "token-" + t) - {id}, UserConnectedEvent, UserInfo(id))]
  {
    var room := RoomName(t);
    assert (Members(h.members, room) + {id}) - {id} == Members(h.members, room) - {id};
  }

  /** Joining twice with the same token leaves the tables as joining once: one copy of the id. */
  lemma JoinTwiceIsJoinOnce(h: HubState, id: SocketId, token: Option<string>)
    ensures JoinRoom(JoinRoom(h, id, token), id, token).rooms == JoinRoom(h, id, token).rooms
    ensures JoinRoom(JoinRoom(h, id, token), id, token).members == JoinRoom(h, id, token).members
  {
    if Truthy(token) {
      var t := token.value;
      var once := JoinRoom(h, id, token);
      assert Members(once.rooms, t) + {id} == Members(once.rooms, t);
      assert Members(once.members, RoomName(t)) + {id} == Members(once.members, RoomName(t));
    }
  }

  /** A relayed event reaches exactly the members of `token-<payload token>` other than the
      sender, with the payload unchanged, and changes no table. A payload without a token
      goes to the room `token-undefined`. */
  lemma RelayReachesRoomButSender(h: HubState, id: SocketId, e: RelayedEvent, data: EventData)
    ensures var r := Relay(h, id, e, data);
      && r.rooms == h.rooms && r.members == h.members
      && |r.outbox| == |h.outbox| + 1 && r.outbox[..|h.outbox|] == h.outbox
      && r.outbox[|h.outbox|].payload == Data(data) && r.outbox[|h.outbox|].event == Relayed(e)
      && (forall x :: x in r.outbox[|h.outbox|].recipients <==> x != id && x in Members(h.members, "token-" + TokenText(data.token)))
    ensures data.token.None? ==> Relay(h, id, e, data).outbox[|h.outbox|].recipients == Members(h.members, "token-undefined") - {id}
  {
    var r := Relay(h, id, e, data);
    assert r.outbox[..|h.outbox|] == h.outbox;
    assert "token-" + "undefined" == "token-undefined";
  }

  /** A heartbeat carries the sender's id and the hub's time instead of the payload, to the same recipients a relay would reach. */
  lemma HeartbeatReplacesPayload(h: HubState, id: SocketId, data: EventData, now: int, e: RelayedEvent)
    ensures var r := Heartbeat(h, id, data, now);
      && r.rooms == h.rooms && r.members == h.members
      && r.outbox == h.outbox + [Emission(Relay(h, id, e, data).outbox[|h.outbox|].recipients, HeartbeatEvent, HeartbeatInfo(id, now))]
  {
  }

  /** `disconnect` removes the socket from every set, keeps every other socket where it was,
      leaves sets without it untouched, and drops exactly the sets it leaves empty. */
  lemma DisconnectRemovesSocket(h: HubState, id: SocketId)
    ensures var r := Disconnect(h, id);
      && Absent(r.rooms, id) && Absent(r.members, id)
      && (forall k, x :: k in h.rooms && x in h.rooms[k] && x != id ==> k in r.rooms && x in r.rooms[k])
      && (forall k :: k in h.rooms && id !in h.rooms[k] ==> k in r.rooms && r.rooms[k] == h.rooms[k])
      && (forall k :: k in h.rooms ==> (k !in r.rooms <==> h.rooms[k] == {id}))
      && (forall k :: k in r.rooms ==> k in h.rooms && r.rooms[k] <= h.rooms[k])
      && (forall k, x :: k in h.members && x in h.members[k] && x != id ==> k in r.members && x in r.members[k])
      && (forall k :: k in h.members ==> (k !in r.members <==> h.members[k] == {id}))
      && (forall k :: k in r.members ==> k in h.members && r.members[k] <= h.members[k])
      && r.outbox == h.outbox
  {
  }

  /** A socket that joins and then disconnects leaves the tables as they were, provided it was
      in none of their sets before and no set was empty. */
  lemma JoinThenDisconnectRestores(m: RoomTable, key: string, id: SocketId)
    requires NoEmptyRooms(m) && Absent(m, id)
    ensures Leave(Join(m, key, id), id) == m
  {
    var r := Leave(Join(m, key, id), id);
    forall k | k in m ensures k in r && r[k] == m[k] {
      if k == key {
        assert Join(m, key, id)[k] == m[k] + {id};
        assert m[k] + {id} - {id} == m[k];
      }
    }
  }

  /** No step leaves an empty set in either table. */
  lemma StepKeepsNoEmptyRooms(h: HubState, i: HubInput)
    requires NoEmptyRooms(h.rooms) && NoEmptyRooms(h.members)
    ensures NoEmptyRooms(Step(h, i).rooms) && NoEmptyRooms(Step(h, i).members)
  {
    match i {
      case JoinRoomReceived(id, token) =>
        if Truthy(token) {
          var r := JoinRoom(h, id, token);
          assert id in r.rooms[token.value];
          assert id in r.members[RoomName(token.value)];
        }
      case RelayReceived(_, _, _) =>
      case HeartbeatReceived(_, _, _) =>
      case SocketDisconnected(id) =>
        var r := Disconnect(h, id);
        forall k | k in r.rooms ensures r.rooms[k] != {} {
          var x :| x in h.rooms[k] && x != id;
          assert x in r.rooms[k];
        }
        forall k | k in r.members ensures r.members[k] != {} {
          var x :| x in h.members[k] && x != id;
          assert x in r.members[k];
        }
    }
  }

  /** From tables without empty sets (the hub starts with none at all), no sequence of joins,
      relays, heartbeats and disconnects ever leaves a token or a room with an empty set. */
  lemma {:induction false} RunKeepsNoEmptyRooms(h: HubState, inputs: seq<HubInput>)
    requires NoEmptyRooms(h.rooms) && NoEmptyRooms(h.members)
    ensures NoEmptyRooms(Run(h, inputs).rooms) && NoEmptyRooms(Run(h, inputs).members)
    decreases |inputs|
  {
    if inputs != [] {
      StepKeepsNoEmptyRooms(h, inputs[0]);
      RunKeepsNoEmptyRooms(Step(h, inputs[0]), inputs[1..]);
    }
  }

  // ---------------------------------------------------------------------
  // The hub itself

  /** The server's state: the `rooms` map updated in place by the handlers, the library's room
      membership, and what has been emitted. */
  class Hub {
    var rooms: RoomTable
    var members: RoomTable
    var outbox: seq<Emission>

    function State(): HubState
      reads this
    {
      HubState(rooms, members, outbox)
    }

    /** The server at start: no rooms, nothing emitted. */
    constructor ()
      ensures State() == HubState(map[], map[], [])
    {
      rooms, members, outbox := map[], map[], [];
    }

    method OnJoinRoom(id: SocketId, token: Option<string>)
      modifies this
      ensures State() == JoinRoom(old(State()), id, token)
    {
      if !Truthy(token) {
        outbox := outbox + [Emission({id}, ErrorEvent, ErrorInfo("Token is required"))];
        return;
      }
      var t := token.value;
      var roomName := "token-" + t;
      members := members[roomName := Members(members, roomName) + {id}];
      if t !in rooms {
        rooms := rooms[t := {}];
      }
      rooms := rooms[t := rooms[t] + {id}];
      outbox := outbox + [Emission({id}, JoinedRoomEvent, JoinedInfo(roomName, t))];
      outbox := outbox + [Emission(members[roomName] - {id}, UserConnectedEvent, UserInfo(id))];
    }

    method OnRelayedEvent(id: SocketId, e: RelayedEvent, data: EventData)
      modifies this
      ensures State() == Relay(old(State()), id, e, data)
    {
      var roomName := "token-" + TokenText(data.token);
      outbox := outbox + [Emission(Members(members, roomName) - {id}, Relayed(e), Data(data))];
    }

    method OnHeartbeat(id: SocketId, data: EventData, now: int)
      modifies this
      ensures State() == Heartbeat(old(State()), id, data, now)
    {
      var roomName := "token-" + TokenText(data.token);
      outbox := outbox + [Emission(Members(members, roomName) - {id}, HeartbeatEvent, HeartbeatInfo(id, now))];
    }

    /** The library drops the socket from its rooms; the handler then walks the entries of
        `rooms`, deleting the id from each set holding it and each set left empty. */
    method OnDisconnect(id: SocketId)
      modifies this
      ensures State() == Disconnect(old(State()), id)
    {
      members := Leave(members, id);
      ghost var r0 := rooms;
      var pending := rooms.Keys;
      while pending != {}
        invariant pending <= r0.Keys
        invariant members == Leave(old(members), id) && outbox == old(outbox)
        invariant forall k :: k in rooms <==> k in r0 && (k in pending || r0[k] != {id})
        invariant forall k :: k in rooms ==> rooms[k] == if k in pending then r0[k] else r0[k] - {id}
        decreases pending
      {
        var t :| t in pending;
        if id in rooms[t] {
          rooms := rooms[t := rooms[t] - {id}];
          if rooms[t] == {} {
            rooms := rooms - {t};
          }
        }
        pending := pending - {t};
      }
      forall k | k in r0 && r0[k] != {id} ensures k in rooms && rooms[k] == Leave(r0, id)[k] { }
      assert rooms.Keys == Leave(r0, id).Keys;
    }
  }
}
