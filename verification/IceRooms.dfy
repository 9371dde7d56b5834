/**
  The signalling server's ICE rooms: two members with different roles, each sent the other's
  latest candidates. Each event is one stretch of a handler's code between two awaits.
 */
module IceRooms {
  import opened Wrappers

  type Socket = nat

  type RoomId = nat

  datatype Role = Controlling | Controlled

  datatype Json = Null | Str(s: string) | Number | List(items: seq<Json>) | Object(fields: map<string, Json>)

  /** What a member's candidates message is reduced to. */
  datatype Blob = Blob(username: string, password: string, candidates: seq<Json>, role: Role)

  // ---------- Messages ----------

  predicate HasAll(fields: map<string, Json>, keys: seq<string>) {
    forall i :: 0 <= i < |keys| ==> keys[i] in fields
  }

  predicate IsCandidate(c: Json) {
    && c.Object? && HasAll(c.fields, ["ip", "port", "type", "foundation", "component", "priority"])
    && ("related" in c.fields && !c.fields["related"].Null? ==>
          c.fields["related"].Object? && HasAll(c.fields["related"].fields, ["ip", "port"]))
  }

  predicate IsText(msg: map<string, Json>, key: string) {
    key in msg && msg[key].Str? && msg[key].s != ""
  }

  predicate ValidCandidates(msg: map<string, Json>) {
    && IsText(msg, "username") && IsText(msg, "password")
    && "candidates" in msg && msg["candidates"].List?
    && forall i :: 0 <= i < |msg["candidates"].items| ==> IsCandidate(msg["candidates"].items[i])
  }

  function BlobOf(msg: map<string, Json>, role: Role): Blob
    requires ValidCandidates(msg)
  {
    Blob(msg["username"].s, msg["password"].s, msg["candidates"].items, role)
  }

  // ---------- Rooms ----------

  datatype MemberValue = MemberValue(role: Role, blob: Option<Blob>)

  datatype RoomValue = RoomValue(name: string, members: map<Socket, MemberValue>)

  /** The other member, whichever it is. */
  predicate IsOther(r: RoomValue, ws: Socket, other: Option<Socket>) {
    if other.Some? then other.value in r.members && other.value != ws else forall k :: k in r.members ==> k == ws
  }

  datatype JoinError = BadJoin | RoomFull | DuplicateRole

  function Refusal(r: RoomValue, role: Role): Option<JoinError> {
    if |r.members| >= 2 then Some(RoomFull)
    else if exists k :: k in r.members && r.members[k].role == role then Some(DuplicateRole)
    else None
  }

  class Member {
    const ws: Socket
    const role: Role
    var blob: Option<Blob>

    constructor (ws: Socket, role: Role)
      ensures this.ws == ws && this.role == role && blob == None
    {
      this.ws, this.role, blob := ws, role, None;
    }
  }

  class Room {
    const name: string
    var members: map<Socket, Member>

    function Value(): RoomValue
      reads this, members.Values
    {
      RoomValue(name, map k | k in members :: MemberValue(members[k].role, members[k].blob))
    }

    constructor (name: string)
      ensures this.name == name && members == map[]
    {
      this.name, members := name, map[];
    }

    /** The member at another socket, in any order. */
    method Other(ws: Socket) returns (other: Option<Socket>)
      ensures IsOther(Value(), ws, other)
    {
      var todo := members.Keys;
      while todo != {}
        invariant todo <= members.Keys && forall k :: k in members && k !in todo ==> k == ws
        decreases todo
      {
        var k :| k in todo;
        if k != ws {
          return Some(k);
        }
        todo := todo - {k};
      }
      return None;
    }

    method Refuses(role: Role) returns (error: Option<JoinError>)
      ensures error == Refusal(Value(), role)
    {
      assert Value().members.Keys == members.Keys;
      if |members| >= 2 {
        return Some(RoomFull);
      }
      var taken := HasRole(role);
      assert forall k :: k in members ==> Value().members[k].role == members[k].role;
      return if taken then Some(DuplicateRole) else None;
    }

    method Add(ws: Socket, role: Role)
      modifies this
      ensures Value().members == old(Value().members)[ws := MemberValue(role, None)]
    {
      var member := new Member(ws, role);
      members := members[ws := member];
    }

    method HasRole(role: Role) returns (taken: bool)
      ensures taken <==> exists k :: k in members && members[k].role == role
    {
      var todo := members.Keys;
      while todo != {}
        invariant todo <= members.Keys && forall k :: k in members && k !in todo ==> members[k].role != role
        decreases todo
      {
        var k :| k in todo;
        if members[k].role == role {
          return true;
        }
        todo := todo - {k};
      }
      return false;
    }
  }

  class Hub {
    var rooms: map<string, Room>

    predicate Valid()
      reads this
    {
      forall name :: name in rooms ==> rooms[name].name == name
    }

    /** The room joined, or why not. A room is made when its first member joins. */
    method Join(ws: Socket, name: string, role: Role) returns (room: Room?, error: Option<JoinError>)
      requires Valid()
      modifies this, if name in rooms then {rooms[name]} else {}
      ensures Valid()
      ensures error == if name == "" then Some(BadJoin)
                       else if name in old(rooms) then Refusal(old(rooms[name].Value()), role) else None
      ensures error.Some? ==> room == null && rooms == old(rooms) && (name in rooms ==> unchanged(rooms[name]))
      ensures error.None? ==> room != null && rooms == old(rooms)[name := room] && (name in old(rooms) ==> room == old(rooms[name]))
      ensures error.None? ==> room.Value().members
                              == (if name in old(rooms) then old(rooms[name].Value().members) else map[])[ws := MemberValue(role, None)]
    {
      hide Refusal;
      if name == "" {
        return null, Some(BadJoin);
      }
      if name in rooms {
        room := rooms[name];
        error := room.Refuses(role);
        if error.Some? {
          return null, error;
        }
      } else {
        room := new Room(name);
        rooms := rooms[name := room];
        error := None;
      }
      room.Add(ws, role);
    }

    method Leave(ws: Socket, room: Room)
      requires Valid()
      modifies this, room
      ensures Valid()
      ensures room.Value().members == old(room.Value().members) - {ws}
      ensures rooms == if room.members == map[] then old(rooms) - {room.name} else old(rooms)
    {
      room.members := room.members - {ws};
      if room.members == map[] {
        rooms := rooms - {room.name};
      }
    }
  }

  // ---------- Handlers ----------

  /** Where a handler is: between frames, about to send `joined`, or after its last stretch. */
  datatype Pc = Idle(joined: Option<RoomId>) | Joining(room: RoomId) | Gone

  datatype Sent = Sent(receiver: Socket, sender: Socket, blob: Blob)

  datatype World = World(rooms: map<string, RoomId>, table: seq<RoomValue>, pcs: map<Socket, Pc>, log: seq<Sent>)

  datatype Event =
    | Connect(ws: Socket)
    | JoinFrame(ws: Socket, name: string, role: Role)
    | JoinedSent(ws: Socket, other: Option<Socket>)
    | CandidatesFrame(ws: Socket, msg: map<string, Json>, other: Option<Socket>)
    | Leave(ws: Socket)

  function OnJoin(w: World, ws: Socket, name: string, role: Role): World {
    if ws !in w.pcs || w.pcs[ws] != Idle(None) || name == "" then w
    else if name !in w.rooms then
      w.(rooms := w.rooms[name := |w.table|], table := w.table + [RoomValue(name, map[ws := MemberValue(role, None)])],
         pcs := w.pcs[ws := Joining(|w.table|)])
    else if w.rooms[name] >= |w.table| || Refusal(w.table[w.rooms[name]], role).Some? then w
    else
      var r := w.table[w.rooms[name]];
      w.(table := w.table[w.rooms[name] := r.(members := r.members[ws := MemberValue(role, None)])],
         pcs := w.pcs[ws := Joining(w.rooms[name])])
  }

  /** `joined` was sent; the peer's candidates, as they are now, follow. */
  function OnJoined(w: World, ws: Socket, other: Option<Socket>): World {
    if ws !in w.pcs || !w.pcs[ws].Joining? || w.pcs[ws].room >= |w.table| || !IsOther(w.table[w.pcs[ws].room], ws, other) then w
    else
      var idle := w.(pcs := w.pcs[ws := Idle(Some(w.pcs[ws].room))]);
      if other == None || w.table[w.pcs[ws].room].members[other.value].blob == None then idle
      else idle.(log := w.log + [Sent(ws, other.value, w.table[w.pcs[ws].room].members[other.value].blob.value)])
  }

  function OnCandidates(w: World, ws: Socket, msg: map<string, Json>, other: Option<Socket>): World {
    if ws !in w.pcs || !w.pcs[ws].Idle? || w.pcs[ws].joined == None || w.pcs[ws].joined.value >= |w.table| then w
    else
      var room := w.pcs[ws].joined.value;
      var r := w.table[room];
      if ws !in r.members || !ValidCandidates(msg) || !IsOther(r, ws, other) then w
      else
        var blob := BlobOf(msg, r.members[ws].role);
        var kept := w.(table := w.table[room := r.(members := r.members[ws := r.members[ws].(blob := Some(blob))])]);
        if other == None then kept else kept.(log := w.log + [Sent(other.value, ws, blob)])
  }

  function OnLeave(w: World, ws: Socket): World {
    if ws !in w.pcs || w.pcs[ws] == Gone then w
    else
      var gone := w.(pcs := w.pcs[ws := Gone]);
      var room := if w.pcs[ws].Joining? then Some(w.pcs[ws].room) else w.pcs[ws].joined;
      if room == None || room.value >= |w.table| then gone
      else
        var r := w.table[room.value];
        var left := r.(members := r.members - {ws});
        gone.(table := w.table[room.value := left], rooms := if left.members == map[] then w.rooms - {r.name} else w.rooms)
  }

  function Step(w: World, e: Event): World {
    match e
    case Connect(ws) => if ws in w.pcs then w else w.(pcs := w.pcs[ws := Idle(None)])
    case JoinFrame(ws, name, role) => OnJoin(w, ws, name, role)
    case JoinedSent(ws, other) => OnJoined(w, ws, other)
    case CandidatesFrame(ws, msg, other) => OnCandidates(w, ws, msg, other)
    case Leave(ws) => OnLeave(w, ws)
  }

  function Run(w: World, es: seq<Event>): World {
    if es == [] then w else Step(Run(w, es[..|es| - 1]), es[|es| - 1])
  }

  const START := World(map[], [], map[], [])

  // ---------- What every interleaving keeps ----------

  function RoomOf(pc: Pc): Option<RoomId> {
    match pc
    case Idle(room) => room
    case Joining(room) => Some(room)
    case Gone => None
  }

  predicate MemberIn(w: World, room: RoomId, ws: Socket) {
    room < |w.table| && ws in w.table[room].members
  }

  /** The handler is in this room. */
  predicate StandsIn(w: World, room: RoomId, ws: Socket) {
    ws in w.pcs && RoomOf(w.pcs[ws]) == Some(room)
  }

  /** At most two members, with different roles. */
  predicate RoomOk(r: RoomValue) {
    forall a, b :: a in r.members && b in r.members && r.members[a].role == r.members[b].role ==> a == b
  }

  /** A registered room is filed under its name. */
  predicate FiledAt(w: World, room: RoomId) {
    room < |w.table| && w.table[room].name in w.rooms && w.rooms[w.table[room].name] == room
  }

  /** The last candidates sent to a socket, and from whom. */
  function LastTo(log: seq<Sent>, ws: Socket): Option<(Socket, Blob)> {
    if log == [] then None
    else if log[|log| - 1].receiver == ws then Some((log[|log| - 1].sender, log[|log| - 1].blob))
    else LastTo(log[..|log| - 1], ws)
  }

  /** The peer's candidates were the last sent to the socket, unless its join is still being answered. */
  predicate Informed(w: World, room: RoomId, ws: Socket, peer: Socket) {
    MemberIn(w, room, ws) && MemberIn(w, room, peer) && ws != peer && w.table[room].members[peer].blob.Some?
    && !(ws in w.pcs && w.pcs[ws].Joining?)
    ==> LastTo(w.log, ws) == Some((peer, w.table[room].members[peer].blob.value))
  }

  ghost predicate RoomsOk(w: World) {
    forall room: RoomId :: room < |w.table| ==> RoomOk(w.table[room])
  }

  /** A socket is a member of exactly the room its handler is in. */
  ghost predicate Placed(w: World) {
    forall room: RoomId, ws: Socket :: MemberIn(w, room, ws) <==> StandsIn(w, room, ws)
  }

  /** Exactly the rooms with members are registered, under their names. */
  ghost predicate Filed(w: World) {
    && (forall name :: name in w.rooms ==> w.rooms[name] < |w.table| && w.table[w.rooms[name]].name == name)
    && (forall room: RoomId :: room < |w.table| ==> (FiledAt(w, room) <==> w.table[room].members != map[]))
  }

  ghost predicate AllInformed(w: World) {
    forall room: RoomId, ws: Socket, peer: Socket :: Informed(w, room, ws, peer)
  }

  ghost predicate Inv(w: World) {
    RoomsOk(w) && Placed(w) && Filed(w) && AllInformed(w)
  }

  // ---------- The steps ----------

  lemma LogGrows(log: seq<Sent>, s: Sent, ws: Socket)
    ensures LastTo(log + [s], ws) == if s.receiver == ws then Some((s.sender, s.blob)) else LastTo(log, ws)
  {
    assert (log + [s])[..|log|] == log;
  }

  /** Of two members with different roles, the other one is the only one. */
  lemma OnlyOther(r: RoomValue, ws: Socket, peer: Socket, other: Option<Socket>)
    requires RoomOk(r) && ws in r.members && peer in r.members && peer != ws && IsOther(r, ws, other)
    ensures other == Some(peer)
  {
    var role := r.members[ws].role;
    assert r.members[peer].role != role;
    assert forall k :: k in r.members && k != ws ==> r.members[k].role != role;
  }

  /** A new room with its first member. */
  lemma FirstJoinKeeps(w: World, ws: Socket, name: string, role: Role)
    requires Inv(w) && ws in w.pcs && w.pcs[ws] == Idle(None) && name !in w.rooms && name != ""
    ensures Inv(OnJoin(w, ws, name, role))
  {
    hide RoomOk, LastTo;
    var t, new_ := OnJoin(w, ws, name, role), |w.table|;
    assert forall room: RoomId :: room < new_ ==> t.table[room] == w.table[room];
    assert RoomOk(t.table[new_]) by { OneMember(name, ws, role); }
    forall room: RoomId, s: Socket ensures MemberIn(t, room, s) <==> StandsIn(t, room, s) {
      assert MemberIn(w, room, s) <==> StandsIn(w, room, s);
    }
    forall room: RoomId, s: Socket, peer: Socket ensures Informed(t, room, s, peer) {
      assert Informed(w, room, s, peer);
    }
    assert ws in t.table[new_].members;
    assert Filed(t) by { NewFiled(w, t, name); }
  }

  lemma OneMember(name: string, ws: Socket, role: Role)
    ensures RoomOk(RoomValue(name, map[ws := MemberValue(role, None)]))
  {
  }

  lemma NewFiled(w: World, t: World, name: string)
    requires Filed(w) && name !in w.rooms && t.rooms == w.rooms[name := |w.table|]
    requires |t.table| == |w.table| + 1 && t.table[..|w.table|] == w.table
    requires t.table[|w.table|].name == name && t.table[|w.table|].members != map[]
    ensures Filed(t)
  {
    forall room: RoomId | room < |t.table| ensures FiledAt(t, room) <==> t.table[room].members != map[] {
      if room < |w.table| {
        assert t.table[room] == t.table[..|w.table|][room] == w.table[room];
        assert FiledAt(w, room) <==> w.table[room].members != map[];
      }
    }
    forall n | n in t.rooms ensures t.rooms[n] < |t.table| && t.table[t.rooms[n]].name == n {
      if n != name {
        assert t.table[t.rooms[n]] == t.table[..|w.table|][w.rooms[n]];
      }
    }
  }

  /** One room's members change; it stays under its name, or leaves the register when it empties. */
  lemma RoomFiled(w: World, t: World, room: RoomId, members: map<Socket, MemberValue>)
    requires Filed(w) && FiledAt(w, room) && t.table == w.table[room := w.table[room].(members := members)]
    requires t.rooms == if members == map[] then w.rooms - {w.table[room].name} else w.rooms
    ensures Filed(t)
  {
    forall k: RoomId | k < |t.table| ensures FiledAt(t, k) <==> t.table[k].members != map[] {
      assert FiledAt(w, k) <==> w.table[k].members != map[];
    }
  }

  lemma SecondJoinKeeps(w: World, ws: Socket, name: string, role: Role)
    requires Inv(w) && ws in w.pcs && w.pcs[ws] == Idle(None) && name in w.rooms && name != ""
    ensures Inv(OnJoin(w, ws, name, role))
  {
    hide LastTo;
    var t := OnJoin(w, ws, name, role);
    var k := w.rooms[name];
    assert k < |w.table| && w.table[k].name == name;
    if t != w {
      var members := w.table[k].members[ws := MemberValue(role, None)];
      assert FiledAt(w, k);
      RoomFiled(w, t, k, members);
      assert ws !in w.table[k].members by { assert !StandsIn(w, k, ws) && (MemberIn(w, k, ws) <==> StandsIn(w, k, ws)); }
      assert RoomOk(t.table[k]) by { AddedOk(w.table[k], ws, role); }
      assert RoomsOk(t);
      SecondJoinInformed(w, ws, name, role);
    }
  }

  lemma SecondJoinInformed(w: World, ws: Socket, name: string, role: Role)
    requires Placed(w) && AllInformed(w) && ws in w.pcs && w.pcs[ws] == Idle(None) && name in w.rooms
    ensures Placed(OnJoin(w, ws, name, role)) && AllInformed(OnJoin(w, ws, name, role))
  {
    hide LastTo, Refusal;
    var t := OnJoin(w, ws, name, role);
    forall room: RoomId, s: Socket ensures MemberIn(t, room, s) <==> StandsIn(t, room, s) {
      assert MemberIn(w, room, s) <==> StandsIn(w, room, s);
    }
    forall room: RoomId, s: Socket, peer: Socket ensures Informed(t, room, s, peer) {
      assert Informed(w, room, s, peer);
    }
  }

  lemma AddedOk(r: RoomValue, ws: Socket, role: Role)
    requires RoomOk(r) && Refusal(r, role) == None
    ensures RoomOk(r.(members := r.members[ws := MemberValue(role, None)]))
  {
  }

  lemma JoinedKeeps(w: World, ws: Socket, other: Option<Socket>)
    requires Inv(w)
    ensures Inv(OnJoined(w, ws, other))
  {
    hide RoomOk, LastTo, IsOther;
    var t := OnJoined(w, ws, other);
    if t != w {
      var k := w.pcs[ws].room;
      assert Filed(t) by { RegisterSame(w, t); }
      forall room: RoomId, s: Socket ensures MemberIn(t, room, s) <==> StandsIn(t, room, s) {
        assert MemberIn(w, room, s) <==> StandsIn(w, room, s);
      }
      forall room: RoomId, s: Socket, peer: Socket ensures Informed(t, room, s, peer) {
        assert Informed(w, room, s, peer);
        if |t.log| > |w.log| {
          LogGrows(w.log, t.log[|w.log|], s);
        }
        if s == ws && MemberIn(w, room, s) && MemberIn(w, room, peer) && peer != ws {
          assert MemberIn(w, room, ws) <==> StandsIn(w, room, ws);
          OnlyOther(w.table[room], ws, peer, other);
        }
      }
    }
  }

  lemma RegisterSame(w: World, t: World)
    requires Filed(w) && t.rooms == w.rooms && t.table == w.table
    ensures Filed(t)
  {
    forall room: RoomId | room < |t.table| ensures FiledAt(t, room) <==> t.table[room].members != map[] {
      assert FiledAt(w, room) <==> w.table[room].members != map[];
    }
  }

  lemma CandidatesKeep(w: World, ws: Socket, msg: map<string, Json>, other: Option<Socket>)
    requires Inv(w)
    ensures Inv(OnCandidates(w, ws, msg, other))
  {
    hide LastTo, IsOther, ValidCandidates, BlobOf;
    var t := OnCandidates(w, ws, msg, other);
    if t != w {
      var k := w.pcs[ws].joined.value;
      var members := t.table[k].members;
      assert FiledAt(w, k) <==> w.table[k].members != map[];
      RoomFiled(w, t, k, members);
      assert RoomOk(t.table[k]) by { SameRoles(w.table[k], t.table[k]); }
      assert RoomsOk(t);
      CandidatesInformed(w, ws, msg, other);
    }
  }

  lemma CandidatesInformed(w: World, ws: Socket, msg: map<string, Json>, other: Option<Socket>)
    requires RoomsOk(w) && Placed(w) && AllInformed(w) && OnCandidates(w, ws, msg, other) != w
    ensures Placed(OnCandidates(w, ws, msg, other)) && AllInformed(OnCandidates(w, ws, msg, other))
  {
    hide LastTo, IsOther, ValidCandidates, BlobOf, RoomOk;
    var t := OnCandidates(w, ws, msg, other);
    var k := w.pcs[ws].joined.value;
    forall room: RoomId, s: Socket ensures MemberIn(t, room, s) <==> StandsIn(t, room, s) {
      assert MemberIn(w, room, s) <==> StandsIn(w, room, s);
    }
    forall room: RoomId, s: Socket, peer: Socket ensures Informed(t, room, s, peer) {
      assert Informed(w, room, s, peer);
      if other.Some? {
        LogGrows(w.log, t.log[|w.log|], s);
      }
      assert MemberIn(w, room, s) <==> StandsIn(w, room, s);
      if room == k && MemberIn(w, k, s) && s != ws {
        OnlyOther(w.table[k], ws, s, other);
        if MemberIn(w, k, peer) && peer != ws {
          OnlyOther(w.table[k], ws, peer, other);
        }
      } else if other.Some? {
        OtherIsMember(w.table[k], ws, other);
        assert MemberIn(w, k, other.value) <==> StandsIn(w, k, other.value);
      }
    }
  }

  lemma OtherIsMember(r: RoomValue, ws: Socket, other: Option<Socket>)
    requires IsOther(r, ws, other) && other.Some?
    ensures other.value in r.members && other.value != ws
  {
  }

  lemma SameRoles(a: RoomValue, b: RoomValue)
    requires RoomOk(a) && a.members.Keys == b.members.Keys && forall k :: k in a.members ==> b.members[k].role == a.members[k].role
    ensures RoomOk(b)
  {
  }

  lemma LeaveKeeps(w: World, ws: Socket)
    requires Inv(w)
    ensures Inv(OnLeave(w, ws))
  {
    hide LastTo;
    var t := OnLeave(w, ws);
    if t != w {
      var room := RoomOf(w.pcs[ws]);
      if room == None || room.value >= |w.table| {
        assert Filed(t) by { RegisterSame(w, t); }
        assert RoomsOk(t);
      } else {
        var k := room.value;
        assert MemberIn(w, k, ws) <==> StandsIn(w, k, ws);
        assert FiledAt(w, k) <==> w.table[k].members != map[];
        RoomFiled(w, t, k, w.table[k].members - {ws});
        assert RoomOk(t.table[k]) by { FewerOk(w.table[k], ws); }
        assert RoomsOk(t);
      }
      LeaveInformed(w, ws);
      assert Inv(t);
    }
  }

  lemma LeaveInformed(w: World, ws: Socket)
    requires Placed(w) && AllInformed(w)
    ensures Placed(OnLeave(w, ws)) && AllInformed(OnLeave(w, ws))
  {
    hide LastTo;
    var t := OnLeave(w, ws);
    forall room: RoomId, s: Socket ensures MemberIn(t, room, s) <==> StandsIn(t, room, s) {
      assert MemberIn(w, room, s) <==> StandsIn(w, room, s);
    }
    forall room: RoomId, s: Socket, peer: Socket ensures Informed(t, room, s, peer) {
      assert Informed(w, room, s, peer);
      assert MemberIn(w, room, s) <==> StandsIn(w, room, s);
    }
  }

  lemma FewerOk(r: RoomValue, ws: Socket)
    requires RoomOk(r)
    ensures RoomOk(r.(members := r.members - {ws}))
  {
  }

  lemma ConnectKeeps(w: World, ws: Socket)
    requires Inv(w) && ws !in w.pcs
    ensures Inv(w.(pcs := w.pcs[ws := Idle(None)]))
  {
    hide RoomOk, LastTo;
    var t := w.(pcs := w.pcs[ws := Idle(None)]);
    assert Filed(t) by { RegisterSame(w, t); }
    forall room: RoomId, s: Socket ensures MemberIn(t, room, s) <==> StandsIn(t, room, s) {
      assert MemberIn(w, room, s) <==> StandsIn(w, room, s);
    }
    forall room: RoomId, s: Socket, peer: Socket ensures Informed(t, room, s, peer) {
      assert Informed(w, room, s, peer);
    }
  }

  lemma StepKeeps(w: World, e: Event)
    requires Inv(w)
    ensures Inv(Step(w, e))
  {
    hide Inv, OnJoined, OnCandidates, OnLeave;
    match e
    case Connect(ws) => if ws !in w.pcs { ConnectKeeps(w, ws); }
    case JoinFrame(ws, name, role) =>
      if ws in w.pcs && w.pcs[ws] == Idle(None) && name != "" {
        if name in w.rooms {
          SecondJoinKeeps(w, ws, name, role);
        } else {
          FirstJoinKeeps(w, ws, name, role);
        }
      }
    case JoinedSent(ws, other) => JoinedKeeps(w, ws, other);
    case CandidatesFrame(ws, msg, other) => CandidatesKeep(w, ws, msg, other);
    case Leave(ws) => LeaveKeeps(w, ws);
  }

  lemma {:induction false} RunInv(es: seq<Event>)
    ensures Inv(Run(START, es))
  {
    if es != [] {
      hide Inv, Step;
      RunInv(es[..|es| - 1]);
      StepKeeps(Run(START, es[..|es| - 1]), es[|es| - 1]);
    }
  }

  // ---------- The claims ----------

  lemma Another(keys: set<Socket>, a: Socket)
    requires a in keys
    ensures keys == {a} || exists b :: b in keys && b != a
  {
    if forall b :: b in keys ==> b == a {
      assert keys == {a};
    }
  }

  lemma AtMostTwo(r: RoomValue)
    requires RoomOk(r)
    ensures |r.members.Keys| <= 2
  {
    var keys := r.members.Keys;
    if keys != {} {
      var a :| a in keys;
      if keys == {a} {
      } else {
        Another(keys, a);
        var b :| b in keys && b != a;
        forall k | k in keys ensures k == a || k == b {
          assert r.members[a].role != r.members[b].role;
          assert r.members[k].role == r.members[a].role || r.members[k].role == r.members[b].role;
        }
        assert keys == {a, b};
      }
    }
  }

  /** Every registered room has one or two members with different roles, in every interleaving. */
  lemma RegisteredRooms(es: seq<Event>, name: string)
    requires name in Run(START, es).rooms
    ensures var w := Run(START, es);
            && w.rooms[name] < |w.table|
            && var r := w.table[w.rooms[name]];
               && r.name == name && 1 <= |r.members.Keys| <= 2
               && forall a, b :: a in r.members && b in r.members && a != b ==> r.members[a].role != r.members[b].role
  {
    RunInv(es);
    var w := Run(START, es);
    hide Run, AllInformed, Placed;
    assert FiledAt(w, w.rooms[name]);
    AtMostTwo(w.table[w.rooms[name]]);
  }

  /** Each socket is in at most one room, registered or not. */
  lemma InOneRoom(es: seq<Event>, a: RoomId, b: RoomId, ws: Socket)
    requires MemberIn(Run(START, es), a, ws) && MemberIn(Run(START, es), b, ws)
    ensures a == b
  {
    RunInv(es);
    var w := Run(START, es);
    hide Run, AllInformed, Filed, RoomsOk;
    assert StandsIn(w, a, ws) && StandsIn(w, b, ws);
  }

  /**
    Whenever no handler is between joining and sending `joined`, the last candidates each member
    was sent are its current peer's latest.
   */
  lemma LatestCandidatesSent(es: seq<Event>, room: RoomId, ws: Socket, peer: Socket)
    requires var w := Run(START, es);
             && (forall s :: s in w.pcs ==> !w.pcs[s].Joining?)
             && MemberIn(w, room, ws) && MemberIn(w, room, peer) && ws != peer && w.table[room].members[peer].blob.Some?
    ensures var w := Run(START, es);
            LastTo(w.log, ws) == Some((peer, w.table[room].members[peer].blob.value))
  {
    RunInv(es);
    var w := Run(START, es);
    hide Run, Placed, Filed, RoomsOk;
    assert Informed(w, room, ws, peer);
  }

  /**
    Who gets in. In every reachable state a handler that has joined no room joins one exactly when
    the name is not empty and the room registered under it, if there is one, has a single member
    with the other role; otherwise nothing changes.
   */
  lemma JoinsExactly(es: seq<Event>, ws: Socket, name: string, role: Role)
    requires ws in Run(START, es).pcs && Run(START, es).pcs[ws] == Idle(None)
    ensures var w, t := Run(START, es), Step(Run(START, es), JoinFrame(ws, name, role));
            var open := name != "" && (name in w.rooms ==>
                          w.rooms[name] < |w.table| && |w.table[w.rooms[name]].members| == 1
                          && forall k :: k in w.table[w.rooms[name]].members ==> w.table[w.rooms[name]].members[k].role != role);
            && (!open ==> t == w)
            && (open ==> ws in t.pcs && t.pcs[ws].Joining? && name in t.rooms && t.pcs[ws].room == t.rooms[name]
                         && MemberIn(t, t.rooms[name], ws) && t.table[t.rooms[name]].members[ws] == MemberValue(role, None))
  {
    RunInv(es);
    var w := Run(START, es);
    if name in w.rooms {
      RegisteredRooms(es, name);
      var members := w.table[w.rooms[name]].members;
      assert |members| == |members.Keys|;
    }
    hide Run, AllInformed, Placed;
  }

  /** A connection that ends leaves its room, and an empty room is no longer registered. */
  lemma LeavesItsRoom(es: seq<Event>, ws: Socket, room: RoomId)
    requires MemberIn(Run(START, es), room, ws)
    ensures var w, t := Run(START, es), Step(Run(START, es), Leave(ws));
            && |t.table| == |w.table| && t.table[room].members == w.table[room].members - {ws}
            && (t.table[room].members == map[] ==> t.rooms == w.rooms - {w.table[room].name})
            && (t.table[room].members != map[] ==> t.rooms == w.rooms)
            && forall k: RoomId :: !MemberIn(t, k, ws)
  {
    RunInv(es);
    var w := Run(START, es);
    hide Run, AllInformed, Filed, RoomsOk;
    assert StandsIn(w, room, ws);
    forall k: RoomId ensures !MemberIn(Step(w, Leave(ws)), k, ws) {
      assert MemberIn(w, k, ws) <==> StandsIn(w, k, ws);
    }
  }

  /** Good candidates of a member are kept as its latest, and sent to the other member if there is one; bad ones change nothing. */
  lemma CandidatesAreKept(es: seq<Event>, ws: Socket, room: RoomId, msg: map<string, Json>, other: Option<Socket>)
    requires MemberIn(Run(START, es), room, ws) && ws in Run(START, es).pcs && Run(START, es).pcs[ws] == Idle(Some(room))
    requires IsOther(Run(START, es).table[room], ws, other)
    ensures var w, t := Run(START, es), Step(Run(START, es), CandidatesFrame(ws, msg, other));
            && (!ValidCandidates(msg) ==> t == w)
            && (ValidCandidates(msg) ==>
                  var blob := Blob(msg["username"].s, msg["password"].s, msg["candidates"].items, w.table[room].members[ws].role);
                  && |t.table| == |w.table| && ws in t.table[room].members && t.table[room].members[ws].blob == Some(blob)
                  && t.log == w.log + if other.Some? then [Sent(other.value, ws, blob)] else [])
  {
    hide Run, IsOther;
  }
}
