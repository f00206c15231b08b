/**
 * The portal's `/token` and `/apply` endpoints: the request checks, which
 * all run before the first room-service call, and the two ways the portal
 * brings a room's agent dispatch in line with new voice settings. `/token`
 * restarts the agent only when a dispatch is stale and no one but agents is
 * in the room; `/apply` answers 404 or 409 or restarts unconditionally.
 */
module Portal {
  import opened Wrappers
  import opened PyText
  import opened VoiceSettings
  import opened RoomService

  /** The portal's configuration, read from the environment at start-up. */
  datatype PortalEnv = PortalEnv(
    webuiSecret: string, livekitUrl: string, apiKey: string, apiSecret: string,
    agentName: string, roomPrefix: string)

  const MissingBearer := HttpError(401, "Missing Bearer token")
  const InvalidToken := HttpError(401, "Invalid Open WebUI token")
  const InvalidRoomName := HttpError(400, "Invalid room name")
  const RoomRequired := HttpError(400, "Room is required")
  const RoomNotFound := HttpError(404, "Room not found")
  const OtherParticipants :=
    HttpError(409, "Room has other participants; pass force=true to restart the agent anyway")
  const RestartFailed := HttpError(500, "Failed to restart agent dispatch")
  const ApplyFailed := HttpError(500, "Apply failed")
  /** FastAPI's answer to a query parameter outside its declared range. */
  const QueryRejected := HttpError(422, "Unprocessable Entity")

  /** The JWT check: the claims of a token signed with the portal's secret, `None` for any other token. */
  type Decoder = string -> Option<map<string, string>>

  // ---------------------------------------------------------------------
  // Request checks.
  // ---------------------------------------------------------------------

  /** `_require_env` for the four required settings, in the source's order; a missing one is a 500. */
  function EnvError(env: PortalEnv): (e: Option<HttpError>)
    ensures e.None? <==> env.webuiSecret != "" && env.livekitUrl != "" && env.apiKey != "" && env.apiSecret != ""
    ensures e.Some? ==> e.value.status == 500
  {
    if env.webuiSecret == "" then Some(HttpError(500, "Missing required env var: WEBUI_SECRET_KEY (or .webui_secret_key file)"))
    else if env.livekitUrl == "" then Some(HttpError(500, "Missing required env var: LIVEKIT_URL"))
    else if env.apiKey == "" then Some(HttpError(500, "Missing required env var: LIVEKIT_API_KEY"))
    else if env.apiSecret == "" then Some(HttpError(500, "Missing required env var: LIVEKIT_API_SECRET"))
    else None
  }

  const BearerPrefix := "Bearer "

  /**
   * The bearer check: the header must start with `Bearer `, and the trimmed
   * rest must decode to claims holding an `id`; the result is that user id.
   */
  function Authorize(authorization: Option<string>, decode: Decoder): (r: Result<string, HttpError>)
    ensures r.Err? ==> r.error.status == 401
    ensures r.Err? && r.error == MissingBearer <==>
      authorization.None? || !StartsWith(authorization.value, BearerPrefix)
    ensures r.Ok? <==>
      authorization.Some? && StartsWith(authorization.value, BearerPrefix)
      && decode(Strip(authorization.value[|BearerPrefix|..])).Some?
      && "id" in decode(Strip(authorization.value[|BearerPrefix|..])).value
    ensures r.Ok? ==> r.value == decode(Strip(authorization.value[|BearerPrefix|..])).value["id"]
  {
    if authorization.None? || !StartsWith(authorization.value, BearerPrefix) then Err(MissingBearer)
    else
      var claims := decode(Strip(authorization.value[|BearerPrefix|..]));
      if claims.None? || "id" !in claims.value then Err(InvalidToken)
      else Ok(claims.value["id"])
  }

  /** A character of the room-name pattern `[a-zA-Z0-9_-]`. */
  predicate RoomChar(c: char) {
    'a' <= c <= 'z' || 'A' <= c <= 'Z' || '0' <= c <= '9' || c == '_' || c == '-'
  }

  /** A room name the portal accepts: 1 to 128 pattern characters, starting with `<prefix>-`. */
  predicate RoomNameValid(name: string, prefix: string) {
    1 <= |name| <= 128 && (forall i :: 0 <= i < |name| ==> RoomChar(name[i]))
    && StartsWith(name, prefix + "-")
  }

  /** `/token`'s room: a blank one is generated from the prefix and a fresh hex suffix. */
  function TokenRoom(room: Option<string>, prefix: string, hex: string): (r: Result<string, HttpError>)
    ensures r.Err? ==> r.error == InvalidRoomName
    ensures r.Ok? ==> (r.value == prefix + "-" + hex) || RoomNameValid(r.value, prefix)
    ensures room.None? ==> r == Ok(prefix + "-" + hex)
    ensures room.Some? && Strip(room.value) == "" ==> r == Ok(prefix + "-" + hex)
    ensures room.Some? && Strip(room.value) != "" ==>
      (r.Ok? <==> RoomNameValid(Strip(room.value), prefix)) && (r.Ok? ==> r.value == Strip(room.value))
  {
    var name := if room.Some? then Strip(room.value) else "";
    if name == "" then Ok(prefix + "-" + hex)
    else if !RoomNameValid(name, prefix) then Err(InvalidRoomName)
    else Ok(name)
  }

  /** `/apply`'s room: blank is an error here. */
  function ApplyRoom(room: string, prefix: string): (r: Result<string, HttpError>)
    ensures r.Err? ==> r.error.status == 400
    ensures r.Ok? ==> RoomNameValid(r.value, prefix) && r.value == Strip(room)
    ensures Strip(room) == "" <==> r == Err(RoomRequired)
    ensures Strip(room) != "" ==> (r.Ok? <==> RoomNameValid(Strip(room), prefix))
  {
    var name := Strip(room);
    if name == "" then Err(RoomRequired)
    else if !RoomNameValid(name, prefix) then Err(InvalidRoomName)
    else Ok(name)
  }

  /** A blank room is generated on `/token` but refused on `/apply`. */
  lemma BlankRoomHandling(room: string, prefix: string, hex: string)
    requires forall k :: 0 <= k < |room| ==> IsSpace(room[k])
    ensures TokenRoom(Some(room), prefix, hex) == Ok(prefix + "-" + hex)
    ensures ApplyRoom(room, prefix) == Err(RoomRequired)
  {
    StripEmptyIff(room);
  }

  /** What `/token` hands back: the LiveKit URL, the room, the identity and the room metadata in the token. */
  datatype TokenGrant = TokenGrant(url: string, room: string, identity: string, metadata: string)

  /** The checks of `/token` in order, and the grant when they pass; no room-service call is involved. */
  function TokenOutcome(
    env: PortalEnv, q: VoiceQuery, room: Option<string>, authorization: Option<string>,
    decode: Decoder, hex: string): (r: Result<TokenGrant, HttpError>)
    ensures r.Ok? <==>
      QueryInRange(q) && EnvError(env).None? && Authorize(authorization, decode).Ok?
      && TokenRoom(room, env.roomPrefix, hex).Ok? && BuildVoiceSettings(q).Ok?
    ensures r.Ok? ==>
      r.value.identity == "owui:" + Authorize(authorization, decode).value
      && r.value.room == TokenRoom(room, env.roomPrefix, hex).value
      && r.value.metadata == EncodeMetadata(BuildVoiceSettings(q).value)
  {
    if !QueryInRange(q) then Err(QueryRejected)
    else if EnvError(env).Some? then Err(EnvError(env).value)
    else
      var user := Authorize(authorization, decode);
      if user.Err? then Err(user.error)
      else
        var name := TokenRoom(room, env.roomPrefix, hex);
        if name.Err? then Err(name.error)
        else
          var settings := BuildVoiceSettings(q);
          if settings.Err? then Err(settings.error)
          else Ok(TokenGrant(env.livekitUrl, name.value, "owui:" + user.value, EncodeMetadata(settings.value)))
  }

  /** The checks of `/apply` in order; on success the room, its new metadata and the user id. */
  function ApplyChecks(
    env: PortalEnv, q: VoiceQuery, room: string, authorization: Option<string>, decode: Decoder)
    : (r: Result<(string, string, string), HttpError>)
    ensures r.Ok? <==>
      QueryInRange(q) && EnvError(env).None? && Authorize(authorization, decode).Ok?
      && ApplyRoom(room, env.roomPrefix).Ok? && BuildVoiceSettings(q).Ok?
    ensures r.Ok? ==>
      r.value.0 == ApplyRoom(room, env.roomPrefix).value
      && r.value.1 == EncodeMetadata(BuildVoiceSettings(q).value)
      && r.value.2 == Authorize(authorization, decode).value
  {
    if !QueryInRange(q) then Err(QueryRejected)
    else if EnvError(env).Some? then Err(EnvError(env).value)
    else
      var user := Authorize(authorization, decode);
      if user.Err? then Err(user.error)
      else
        var name := ApplyRoom(room, env.roomPrefix);
        if name.Err? then Err(name.error)
        else
          var settings := BuildVoiceSettings(q);
          if settings.Err? then Err(settings.error)
          else Ok((name.value, EncodeMetadata(settings.value), user.value))
  }

  // ---------------------------------------------------------------------
  // Restart decisions, as functions of the server state.
  // ---------------------------------------------------------------------

  /** Some job of some agent dispatch observed metadata other than `md`. */
  predicate SomeJobStale(ads: seq<Dispatch>, md: string) {
    exists i, j :: 0 <= i < |ads| && 0 <= j < |ads[i].jobs| && ads[i].jobs[j] != md
  }

  /** `/token`'s `restart_needed`: no agent dispatch at all, or a stale job. */
  predicate RestartNeeded(ads: seq<Dispatch>, md: string) {
    ads == [] || SomeJobStale(ads, md)
  }

  const AgentIdentityPrefix := "agent-"

  /** Someone other than an agent is in the room. */
  predicate HasNonAgent(participants: seq<string>) {
    exists i :: 0 <= i < |participants| && !StartsWith(participants[i], AgentIdentityPrefix)
  }

  /** `/apply`'s `other_humans`: non-agent identities other than the caller's own. */
  function OtherHumans(participants: seq<string>, user: string): (r: seq<string>)
    ensures forall p :: p in r <==>
      p in participants && !StartsWith(p, AgentIdentityPrefix) && p != "owui:" + user
  {
    if participants == [] then []
    else
      var p := participants[0];
      var rest := OtherHumans(participants[1..], user);
      if !StartsWith(p, AgentIdentityPrefix) && p != "owui:" + user then [p] + rest else rest
  }

  /** Deleting the dispatches `ids` one by one, stopping at the first call that raises. */
  function DeleteAll(lk: LiveKit, faults: set<Call>, room: string, ids: seq<nat>): (r: (LiveKit, bool))
    requires room in lk.rooms
    ensures room in r.0.rooms && r.0.rooms.Keys == lk.rooms.Keys && r.0.nextId == lk.nextId
    ensures r.0.rooms[room].metadata == lk.rooms[room].metadata
    ensures r.0.rooms[room].participants == lk.rooms[room].participants
    ensures forall o :: o in lk.rooms && o != room ==> r.0.rooms[o] == lk.rooms[o]
    decreases |ids|
  {
    if ids == [] then (lk, true)
    else if DeleteDispatch(ids[0]) in faults then (lk, false)
    else DeleteAll(Delete(lk, room, ids[0]), faults, room, ids[1..])
  }

  /** Deleting the agent's dispatches `ids`, then creating one new dispatch; false once a call raises. */
  function Restart(lk: LiveKit, faults: set<Call>, room: string, agent: string, ids: seq<nat>): (r: (LiveKit, bool))
    requires room in lk.rooms
    ensures room in r.0.rooms && r.0.rooms.Keys == lk.rooms.Keys
    ensures r.1 ==> r.0.nextId == lk.nextId + 1
    ensures r.0.rooms[room].metadata == lk.rooms[room].metadata
    ensures r.0.rooms[room].participants == lk.rooms[room].participants
    ensures forall o :: o in lk.rooms && o != room ==> r.0.rooms[o] == lk.rooms[o]
  {
    var (lk2, ok) := DeleteAll(lk, faults, room, ids);
    if !ok || CreateDispatch in faults then (lk2, false)
    else (Create(lk2, room, agent), true)
  }

  /** What `/token` does to the server once its checks pass; every failure is only logged. */
  function TokenSync(lk: LiveKit, faults: set<Call>, room: string, md: string, agent: string): (r: LiveKit)
    ensures r.rooms.Keys == lk.rooms.Keys
    ensures forall o :: o in lk.rooms && o != room ==> r.rooms[o] == lk.rooms[o]
    ensures room in lk.rooms ==> r.rooms[room].participants == lk.rooms[room].participants
  {
    if ListRooms in faults || room !in lk.rooms || UpdateRoomMetadata in faults then lk
    else
      var lk1 := SetMetadata(lk, room, md);
      var ads := AgentDispatches(lk1.rooms[room].dispatches, agent);
      if ListDispatch in faults || !RestartNeeded(ads, md) then lk1
      else if ListParticipants in faults || HasNonAgent(lk1.rooms[room].participants) then lk1
      else Restart(lk1, faults, room, agent, Ids(ads)).0
  }

  /** What `/apply` does to the server once its checks pass, and its answer. */
  function ApplySync(lk: LiveKit, faults: set<Call>, room: string, md: string, agent: string,
                     user: string, force: bool): (r: (LiveKit, Option<HttpError>))
    ensures r.0.rooms.Keys == lk.rooms.Keys
    ensures forall o :: o in lk.rooms && o != room ==> r.0.rooms[o] == lk.rooms[o]
    ensures room !in lk.rooms ==> r.0 == lk
    ensures r.1.None? ==> room in lk.rooms && r.0.rooms[room].metadata == md
  {
    if ListRooms in faults then (lk, Some(ApplyFailed))
    else if room !in lk.rooms then (lk, Some(RoomNotFound))
    else if UpdateRoomMetadata in faults then (lk, Some(ApplyFailed))
    else
      var lk1 := SetMetadata(lk, room, md);
      if ListParticipants in faults then (lk1, Some(ApplyFailed))
      else if OtherHumans(lk1.rooms[room].participants, user) != [] && !force then (lk1, Some(OtherParticipants))
      else if ListDispatch in faults then (lk1, Some(RestartFailed))
      else
        var (lk2, ok) := Restart(lk1, faults, room, agent, Ids(AgentDispatches(lk1.rooms[room].dispatches, agent)));
        (lk2, if ok then None else Some(RestartFailed))
  }

  // ---------------------------------------------------------------------
  // What the restarts leave behind.
  // ---------------------------------------------------------------------

  /** The dispatches that survive deleting every id in `ids`. */
  function WithoutAll(ds: seq<Dispatch>, ids: seq<nat>): (r: seq<Dispatch>)
    ensures forall d :: d in r <==> d in ds && d.id !in ids
    decreases |ids|
  {
    if ids == [] then ds else WithoutAll(Without(ds, ids[0]), ids[1..])
  }

  /** Dispatch ids are unique within a room. */
  predicate UniqueIds(ds: seq<Dispatch>) {
    forall d1, d2 :: d1 in ds && d2 in ds && d1.id == d2.id ==> d1 == d2
  }

  /** With no failing delete, `DeleteAll` removes exactly the listed ids. */
  lemma {:induction false} DeleteAllRemoves(lk: LiveKit, faults: set<Call>, room: string, ids: seq<nat>)
    requires room in lk.rooms
    requires forall id :: DeleteDispatch(id) !in faults
    ensures DeleteAll(lk, faults, room, ids).1
    ensures DeleteAll(lk, faults, room, ids).0.rooms[room].dispatches == WithoutAll(lk.rooms[room].dispatches, ids)
    decreases |ids|
  {
    if ids != [] {
      DeleteAllRemoves(Delete(lk, room, ids[0]), faults, room, ids[1..]);
    }
  }

  /** Every dispatch of the agent has its id among the ids listed for it. */
  lemma AgentIdsListed(ds: seq<Dispatch>, agent: string)
    ensures forall d :: d in ds && d.agentName == agent ==> d.id in Ids(AgentDispatches(ds, agent))
  {
    var ads := AgentDispatches(ds, agent);
    forall d | d in ds && d.agentName == agent ensures d.id in Ids(ads) {
      var i :| 0 <= i < |ads| && ads[i] == d;
      assert Ids(ads)[i] == d.id;
    }
  }

  /** With unique ids, the ids listed for the agent belong to no other agent's dispatch. */
  lemma OthersNotListed(ds: seq<Dispatch>, agent: string)
    requires UniqueIds(ds)
    ensures forall d :: d in ds && d.agentName != agent ==> d.id !in Ids(AgentDispatches(ds, agent))
  {
    var ads := AgentDispatches(ds, agent);
    forall d, i | d in ds && d.agentName != agent && 0 <= i < |ads| ensures Ids(ads)[i] != d.id {
      assert ads[i] in ads;
    }
  }

  lemma {:induction false} AgentDispatchesAppend(a: seq<Dispatch>, b: seq<Dispatch>, agent: string)
    ensures AgentDispatches(a + b, agent) == AgentDispatches(a, agent) + AgentDispatches(b, agent)
  {
    if a == [] {
      assert a + b == b;
    } else {
      assert (a + b)[0] == a[0];
      assert (a + b)[1..] == a[1..] + b;
      AgentDispatchesAppend(a[1..], b, agent);
    }
  }

  /** A dispatch list with none of the agent's dispatches filters to nothing. */
  lemma NoAgentDispatches(ds: seq<Dispatch>, agent: string)
    requires forall d :: d in ds ==> d.agentName != agent
    ensures AgentDispatches(ds, agent) == []
  {
    if AgentDispatches(ds, agent) != [] {
      assert AgentDispatches(ds, agent)[0] in AgentDispatches(ds, agent);
    }
  }

  /**
   * A restart whose calls all succeed leaves the agent with exactly one
   * dispatch, the new one, and keeps every dispatch of other agents.
   */
  lemma RestartLeavesOneDispatch(lk: LiveKit, faults: set<Call>, room: string, agent: string)
    requires room in lk.rooms
    requires forall id :: DeleteDispatch(id) !in faults
    requires CreateDispatch !in faults
    ensures var ds := lk.rooms[room].dispatches;
      var r := Restart(lk, faults, room, agent, Ids(AgentDispatches(ds, agent)));
      r.1 && AgentDispatches(r.0.rooms[room].dispatches, agent) == [Dispatch(lk.nextId, agent, [])]
      && (UniqueIds(ds) ==> forall d :: d in ds && d.agentName != agent ==> d in r.0.rooms[room].dispatches)
  {
    var ds := lk.rooms[room].dispatches;
    var ids := Ids(AgentDispatches(ds, agent));
    DeleteAllRemoves(lk, faults, room, ids);
    var lk2 := DeleteAll(lk, faults, room, ids).0;
    var kept := WithoutAll(ds, ids);
    AgentIdsListed(ds, agent);
    NoAgentDispatches(kept, agent);
    AgentDispatchesAppend(kept, [Dispatch(lk.nextId, agent, [])], agent);
    assert Create(lk2, room, agent).rooms[room].dispatches == kept + [Dispatch(lk.nextId, agent, [])];
    if UniqueIds(ds) {
      OthersNotListed(ds, agent);
    }
  }

  /** `/token` leaves the room's dispatches alone when none is stale or someone other than an agent is present. */
  lemma TokenKeepsDispatches(lk: LiveKit, faults: set<Call>, room: string, md: string, agent: string)
    requires room in lk.rooms
    requires !RestartNeeded(AgentDispatches(lk.rooms[room].dispatches, agent), md)
      || HasNonAgent(lk.rooms[room].participants)
    ensures TokenSync(lk, faults, room, md, agent).rooms[room].dispatches == lk.rooms[room].dispatches
    ensures TokenSync(lk, faults, room, md, agent).nextId == lk.nextId
  {
  }

  /**
   * `/token` on a room with a stale (or missing) agent dispatch and only
   * agents present writes the metadata and replaces the agent's dispatches
   * by one new dispatch.
   */
  lemma TokenRestartsStaleAgent(lk: LiveKit, room: string, md: string, agent: string)
    requires room in lk.rooms
    requires RestartNeeded(AgentDispatches(lk.rooms[room].dispatches, agent), md)
    requires !HasNonAgent(lk.rooms[room].participants)
    ensures var r := TokenSync(lk, {}, room, md, agent);
      r.rooms[room].metadata == md
      && AgentDispatches(r.rooms[room].dispatches, agent) == [Dispatch(lk.nextId, agent, [])]
      && (UniqueIds(lk.rooms[room].dispatches) ==>
          forall d :: d in lk.rooms[room].dispatches && d.agentName != agent ==> d in r.rooms[room].dispatches)
  {
    var lk1 := SetMetadata(lk, room, md);
    var ids := Ids(AgentDispatches(lk.rooms[room].dispatches, agent));
    assert TokenSync(lk, {}, room, md, agent) == Restart(lk1, {}, room, agent, ids).0;
    RestartLeavesOneDispatch(lk1, {}, room, agent);
  }

  /** A room already holding the metadata, with nothing to restart, is left as it is. */
  lemma TokenSyncSettled(lk: LiveKit, room: string, md: string, agent: string)
    requires room in lk.rooms && lk.rooms[room].metadata == md
    requires !RestartNeeded(AgentDispatches(lk.rooms[room].dispatches, agent), md)
      || HasNonAgent(lk.rooms[room].participants)
    ensures TokenSync(lk, {}, room, md, agent) == lk
  {
    assert SetMetadata(lk, room, md).rooms == lk.rooms;
  }

  /** A second `/token` with the same settings changes nothing: the room has settled. */
  lemma TokenSettles(lk: LiveKit, room: string, md: string, agent: string)
    ensures TokenSync(TokenSync(lk, {}, room, md, agent), {}, room, md, agent) == TokenSync(lk, {}, room, md, agent)
  {
    if room in lk.rooms {
      var lk1 := SetMetadata(lk, room, md);
      var ads := AgentDispatches(lk1.rooms[room].dispatches, agent);
      var r := TokenSync(lk, {}, room, md, agent);
      if !RestartNeeded(ads, md) || HasNonAgent(lk1.rooms[room].participants) {
        assert r == lk1;
        TokenSyncSettled(lk1, room, md, agent);
      } else {
        RestartLeavesOneDispatch(lk1, {}, room, agent);
        assert r == Restart(lk1, {}, room, agent, Ids(ads)).0;
        assert AgentDispatches(r.rooms[room].dispatches, agent) == [Dispatch(lk1.nextId, agent, [])];
        TokenSyncSettled(r, room, md, agent);
      }
    }
  }

  /** Someone `/apply` counts as another human is a non-agent participant `/token` would also see. */
  lemma OtherHumansAreNonAgents(participants: seq<string>, user: string)
    requires OtherHumans(participants, user) != []
    ensures HasNonAgent(participants)
  {
    var p := OtherHumans(participants, user)[0];
    assert p in OtherHumans(participants, user);
    var i :| 0 <= i < |participants| && participants[i] == p;
  }

  /** `/apply` on a room that does not exist answers 404 and changes nothing. */
  lemma ApplyMissingRoom(lk: LiveKit, faults: set<Call>, room: string, md: string, agent: string, user: string, force: bool)
    requires ListRooms !in faults && room !in lk.rooms
    ensures ApplySync(lk, faults, room, md, agent, user, force) == (lk, Some(RoomNotFound))
  {
  }

  /**
   * Without failing calls, `/apply` refuses with 409 exactly when another
   * human is present and `force` is off, and even then has already written
   * the new metadata.
   */
  lemma ApplyConflict(lk: LiveKit, room: string, md: string, agent: string, user: string, force: bool)
    requires room in lk.rooms
    ensures var r := ApplySync(lk, {}, room, md, agent, user, force);
      (r.1 == Some(OtherParticipants) <==> OtherHumans(lk.rooms[room].participants, user) != [] && !force)
      && (r.1 == Some(OtherParticipants) ==> r.0 == SetMetadata(lk, room, md))
  {
  }

  /**
   * Without failing calls and without a conflict, `/apply` succeeds and
   * restarts the agent whether or not its dispatch was stale.
   */
  lemma ApplyRestarts(lk: LiveKit, room: string, md: string, agent: string, user: string, force: bool)
    requires room in lk.rooms
    requires OtherHumans(lk.rooms[room].participants, user) == [] || force
    ensures var r := ApplySync(lk, {}, room, md, agent, user, force);
      r.1.None? && r.0.rooms[room].metadata == md && r.0.nextId == lk.nextId + 1
      && AgentDispatches(r.0.rooms[room].dispatches, agent) == [Dispatch(lk.nextId, agent, [])]
  {
    RestartLeavesOneDispatch(SetMetadata(lk, room, md), {}, room, agent);
  }

  // ---------------------------------------------------------------------
  // The endpoints, step by step against the room service.
  // ---------------------------------------------------------------------

  /** The `restart_needed` loop: the first stale job ends both loops. */
  method NeedsRestart(ads: seq<Dispatch>, md: string) returns (restart: bool)
    ensures restart == RestartNeeded(ads, md)
  {
    restart := false;
    if ads == [] {
      restart := true;
      return;
    }
    var i := 0;
    while i < |ads|
      invariant 0 <= i <= |ads|
      invariant !restart
      invariant forall k, j :: 0 <= k < i && 0 <= j < |ads[k].jobs| ==> ads[k].jobs[j] == md
    {
      var jobs := ads[i].jobs;
      var j := 0;
      while j < |jobs|
        invariant 0 <= j <= |jobs|
        invariant !restart
        invariant forall l :: 0 <= l < j ==> jobs[l] == md
      {
        if jobs[j] != md {
          restart := true;
          break;
        }
        j := j + 1;
      }
      if restart {
        assert ads[i].jobs[j] != md;
        return;
      }
      i := i + 1;
    }
  }

  /** The delete loop and the create call shared by both endpoints. */
  method RestartAgent(svc: RoomServer, room: string, agent: string, ids: seq<nat>) returns (ok: bool)
    modifies svc
    requires room in svc.rooms
    ensures (svc.State(), ok) == Restart(old(svc.State()), svc.faults, room, agent, ids)
  {
    var i := 0;
    while i < |ids|
      invariant 0 <= i <= |ids|
      invariant room in svc.rooms
      invariant DeleteAll(svc.State(), svc.faults, room, ids[i..]) == DeleteAll(old(svc.State()), svc.faults, room, ids)
    {
      ok := svc.DeleteDispatchCall(ids[i], room);
      if !ok {
        return;
      }
      assert ids[i..][1..] == ids[i + 1..];
      i := i + 1;
    }
    ok := svc.CreateDispatchCall(agent, room);
  }

  /** The room-service part of `/token`. */
  method TokenSyncRoom(svc: RoomServer, room: string, md: string, agent: string)
    modifies svc
    ensures svc.State() == TokenSync(old(svc.State()), svc.faults, room, md, agent)
  {
    var found := svc.RoomExists(room);
    if found != Some(true) {
      return;
    }
    var updated := svc.UpdateMetadata(room, md);
    if !updated {
      return;
    }
    var listed := svc.ListDispatches(room);
    if listed.None? {
      return;
    }
    var ads := AgentDispatches(listed.value, agent);
    var restart := NeedsRestart(ads, md);
    if !restart {
      return;
    }
    var participants := svc.Participants(room);
    if participants.None? || HasNonAgent(participants.value) {
      return;
    }
    var ok := RestartAgent(svc, room, agent, Ids(ads));
  }

  /** `/token`: checks first; once they pass the grant is returned whatever the room service does. */
  method Token(svc: RoomServer, env: PortalEnv, q: VoiceQuery, room: Option<string>,
               authorization: Option<string>, decode: Decoder, hex: string)
    returns (r: Result<TokenGrant, HttpError>)
    modifies svc
    ensures r == TokenOutcome(env, q, room, authorization, decode, hex)
    ensures r.Err? ==> svc.State() == old(svc.State())
    ensures r.Ok? ==> svc.State() == TokenSync(old(svc.State()), svc.faults, r.value.room, r.value.metadata, env.agentName)
  {
    r := TokenOutcome(env, q, room, authorization, decode, hex);
    if r.Ok? {
      TokenSyncRoom(svc, r.value.room, r.value.metadata, env.agentName);
    }
  }

  /** What `/apply` returns: the room and the metadata written. */
  datatype ApplyReply = ApplyReply(room: string, metadata: string)

  /** `/apply`: checks first, then 404, the metadata write, 409, and the unconditional restart. */
  method Apply(svc: RoomServer, env: PortalEnv, q: VoiceQuery, room: string, force: bool,
               authorization: Option<string>, decode: Decoder)
    returns (r: Result<ApplyReply, HttpError>)
    modifies svc
    ensures ApplyChecks(env, q, room, authorization, decode).Err? ==>
      r == Err(ApplyChecks(env, q, room, authorization, decode).error) && svc.State() == old(svc.State())
    ensures ApplyChecks(env, q, room, authorization, decode).Ok? ==>
      var (name, md, user) := ApplyChecks(env, q, room, authorization, decode).value;
      var (lk, err) := ApplySync(old(svc.State()), svc.faults, name, md, env.agentName, user, force);
      svc.State() == lk && r == (if err.Some? then Err(err.value) else Ok(ApplyReply(name, md)))
  {
    var checked := ApplyChecks(env, q, room, authorization, decode);
    if checked.Err? {
      return Err(checked.error);
    }
    var (name, md, user) := checked.value;
    var found := svc.RoomExists(name);
    if found.None? {
      return Err(ApplyFailed);
    }
    if !found.value {
      return Err(RoomNotFound);
    }
    var updated := svc.UpdateMetadata(name, md);
    if !updated {
      return Err(ApplyFailed);
    }
    var participants := svc.Participants(name);
    if participants.None? {
      return Err(ApplyFailed);
    }
    if OtherHumans(participants.value, user) != [] && !force {
      return Err(OtherParticipants);
    }
    var listed := svc.ListDispatches(name);
    if listed.None? {
      return Err(RestartFailed);
    }
    var ok := RestartAgent(svc, name, env.agentName, Ids(AgentDispatches(listed.value, env.agentName)));
    if !ok {
      return Err(RestartFailed);
    }
    r := Ok(ApplyReply(name, md));
  }
}
