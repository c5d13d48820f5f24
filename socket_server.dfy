/** The socket side of the server: the handshake guard admits a
    connection, the connection joins the room `'public'`, and each
    `send_message` first inserts the message into the `messages` table
    and then emits the stored row to exactly one room. socket.io's rooms
    are a map from room name to the connections in it; the table is a
    sequence of rows whose ids come from a SERIAL counter. */
module SocketServer {
  import opened Js
  import opened Text
  import opened Wire
  import opened ServerAuth

  /** The socket id socket.io gives a connection. */
  type ConnId = nat

  /** The room a stored message is emitted to. */
  datatype Room = PublicRoom | GroupRoom(groupId: JsVal) | UserRoom(receiverId: JsVal)

  const PublicName := "public"

  /** The room's name as the handler spells it: `'public'`,
      `` `group_${group_id}` `` or `` `user_${receiver_id}` ``. */
  function RoomName(room: Room): string
  {
    match room
    case PublicRoom => PublicName
    case GroupRoom(g) => "group_" + JsValToString(g)
    case UserRoom(u) => "user_" + JsValToString(u)
  }

  /** The routing chain of `send_message`: a truthy `group_id` wins,
      then a truthy `receiver_id`, otherwise the public room. */
  function Route(data: Envelope): (r: Room)
    ensures r.GroupRoom? ==> r.groupId == data.groupId
    ensures r.UserRoom? ==> r.receiverId == data.receiverId
  {
    if Truthy(data.groupId) then GroupRoom(data.groupId)
    else if Truthy(data.receiverId) then UserRoom(data.receiverId)
    else PublicRoom
  }

  /** Exactly one of the three rooms is chosen, by the truthiness of the
      two ids alone, and a group id takes precedence over a receiver id. */
  lemma RouteChoosesOneRoom(data: Envelope)
    ensures Route(data).GroupRoom? <==> Truthy(data.groupId)
    ensures Route(data).UserRoom? <==> !Truthy(data.groupId) && Truthy(data.receiverId)
    ensures Route(data).PublicRoom? <==> !Truthy(data.groupId) && !Truthy(data.receiverId)
    ensures Truthy(data.groupId) && Truthy(data.receiverId) ==> Route(data) == GroupRoom(data.groupId)
  {
  }

  /** `null`, `0` and `''` are all absent: an envelope carrying only such
      ids goes to the public room. */
  lemma FalsyIdsGoPublic(g: JsVal, u: JsVal, contentType: string, content: string)
    requires g in {Null, Num(0), Str("")} && u in {Null, Num(0), Str("")}
    ensures Route(Envelope(u, g, contentType, content)) == PublicRoom
  {
  }

  /** Room names tell the kind of room apart: different kinds never
      share a name, so a group or direct message is never emitted to
      `'public'`. */
  lemma RoomNamesSeparateKinds(a: Room, b: Room)
    ensures RoomName(a) == RoomName(b) ==>
      a.PublicRoom? == b.PublicRoom? && a.GroupRoom? == b.GroupRoom? && a.UserRoom? == b.UserRoom?
  {
    assert RoomName(a)[0] == (if a.PublicRoom? then 'p' else if a.GroupRoom? then 'g' else 'u');
    assert RoomName(b)[0] == (if b.PublicRoom? then 'p' else if b.GroupRoom? then 'g' else 'u');
  }

  /** Two group rooms share a name exactly when the ids render alike. */
  lemma GroupRoomNames(g1: JsVal, g2: JsVal)
    ensures RoomName(GroupRoom(g1)) == RoomName(GroupRoom(g2)) <==> JsValToString(g1) == JsValToString(g2)
  {
    var p := "group_";
    if p + JsValToString(g1) == p + JsValToString(g2) {
      assert JsValToString(g1) == (p + JsValToString(g1))[|p|..];
      assert JsValToString(g2) == (p + JsValToString(g2))[|p|..];
    }
  }

  /** One `io.to(room).emit('receive_message', row)`: the room, the
      connections in it at that moment, and the row. */
  datatype Emission = Emission(room: string, recipients: set<ConnId>, payload: MessageRow)

  /** The connections currently in the room called `name`. */
  function Members(rooms: map<string, set<ConnId>>, name: string): set<ConnId>
  {
    if name in rooms then rooms[name] else {}
  }

  class ChatServer {
    /** `socket.user` of every connected socket. */
    var sessions: map<ConnId, Claims>
    /** socket.io's room membership. */
    var rooms: map<string, set<ConnId>>
    /** The `messages` table in insertion order. */
    var table: seq<MessageRow>
    /** The next value of the SERIAL sequence behind `messages.id`. */
    var nextId: int
    /** Every `receive_message` emission, oldest first. */
    var emitted: seq<Emission>
    /** How many `发送消息错误` entries the handler has logged. */
    var sendErrors: nat

    /** Rooms only hold connected sockets, and no code ever joins a room
        other than `'public'`; ids in the table increase and stay below the
        sequence; every emitted payload is a stored row. */
    ghost predicate Valid()
      reads this
    {
      && nextId >= 1
      && (forall i :: 0 <= i < |table| ==> table[i].id < nextId)
      && (forall i, j :: 0 <= i < j < |table| ==> table[i].id < table[j].id)
      && (forall name :: name in rooms ==> rooms[name] <= sessions.Keys)
      && rooms.Keys <= {PublicName}
      && (forall k :: 0 <= k < |emitted| ==> emitted[k].payload in table)
    }

    constructor ()
      ensures Valid()
      ensures sessions == map[] && rooms == map[] && table == [] && emitted == [] && nextId == 1
    {
      sessions := map[];
      rooms := map[];
      table := [];
      nextId := 1;
      emitted := [];
      sendErrors := 0;
    }

    /** The `io.use` guard followed by the `connection` handler: an
        admitted socket gets `socket.user` and joins `'public'` and
        nothing else; a refused one changes nothing. */
    method Connect(conn: ConnId, token: Option<string>, verify: Verifier) returns (outcome: Handshake)
      requires Valid() && conn !in sessions
      modifies this
      ensures Valid()
      ensures outcome == HandshakeGuard(token, verify)
      ensures outcome.Refused? ==> sessions == old(sessions) && rooms == old(rooms)
      ensures outcome.Admitted? ==>
        && sessions == old(sessions)[conn := outcome.user]
        && rooms == old(rooms)[PublicName := Members(old(rooms), PublicName) + {conn}]
      ensures table == old(table) && nextId == old(nextId) && emitted == old(emitted)
      ensures sendErrors == old(sendErrors)
    {
      outcome := HandshakeGuard(token, verify);
      if outcome.Admitted? {
        sessions := sessions[conn := outcome.user];
        rooms := rooms[PublicName := Members(rooms, PublicName) + {conn}];
      }
    }

    /** `send_message`: insert first; only when the insert returns, emit
        the stored row to the one room `Route` picks. `insertSucceeds`
        says whether `pool.query` resolves and `now` is the timestamp the
        database assigns. A failed insert is logged and nothing is
        emitted. */
    method SendMessage(conn: ConnId, data: Envelope, insertSucceeds: bool, now: int) returns (stored: Option<MessageRow>)
      requires Valid() && conn in sessions
      modifies this
      ensures Valid()
      ensures sessions == old(sessions) && rooms == old(rooms)
      ensures stored.Some? <==> insertSucceeds
      ensures stored.Some? ==>
        && stored.value == MessageRow(old(nextId), sessions[conn].id, data.receiverId, data.groupId,
                                      data.contentType, data.content, now)
        && table == old(table) + [stored.value]
        && nextId == old(nextId) + 1
        && emitted == old(emitted) + [Emission(RoomName(Route(data)), Members(rooms, RoomName(Route(data))), stored.value)]
        && sendErrors == old(sendErrors)
      ensures stored.None? ==>
        table == old(table) && nextId == old(nextId) && emitted == old(emitted) && sendErrors == old(sendErrors) + 1
      // nobody ever joins a group or user room, so only public messages reach anyone
      ensures stored.Some? && !Route(data).PublicRoom? ==> emitted[|emitted| - 1].recipients == {}
    {
      if !insertSucceeds {
        sendErrors := sendErrors + 1;
        stored := None;
        return;
      }
      var row := MessageRow(nextId, sessions[conn].id, data.receiverId, data.groupId,
                            data.contentType, data.content, now);
      table := table + [row];
      nextId := nextId + 1;
      stored := Some(row);

      var name := RoomName(Route(data));
      RoomNamesSeparateKinds(Route(data), PublicRoom);
      emitted := emitted + [Emission(name, Members(rooms, name), row)];
    }

    /** The `disconnect` handler only logs; socket.io itself drops the
        socket from every room. */
    method Disconnect(conn: ConnId)
      requires Valid()
      modifies this
      ensures Valid()
      ensures sessions == old(sessions) - {conn}
      ensures rooms == map name | name in old(rooms) :: old(rooms)[name] - {conn}
      ensures table == old(table) && nextId == old(nextId) && emitted == old(emitted)
      ensures sendErrors == old(sendErrors)
    {
      sessions := sessions - {conn};
      rooms := map name | name in rooms :: rooms[name] - {conn};
    }
  }
}
