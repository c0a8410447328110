/** The merge policies of the event handler service, as functions from the store
    before an event to the store after it. The class in service.dfy performs the
    same updates in place and is proved to agree with these functions; the lemmas
    in properties.dfy are stated over them. */
module Reconcile {
  import opened Events

  // ----- Rooms -----

  /** `initRoom`: a room that is missing is created empty; an existing room, and
      every other room, is left untouched. */
  function InitRoom(rooms: map<string, Room>, id: string): (r: map<string, Room>)
    ensures id in r && r.Keys == rooms.Keys + {id}
    ensures forall k :: k in rooms ==> r[k] == rooms[k]
    ensures id !in rooms ==>
      r[id].messages == [] && r[id].members == map[] &&
      r[id].earliestToken == "END" && r[id].meta == map[]
  {
    if id in rooms then rooms else rooms[id := EmptyRoom]
  }

  /** The room `id` as it is once `initRoom(id)` has run. */
  function Opened(s: Store, id: string): Room
  {
    InitRoom(s.rooms, id)[id]
  }

  /** `resetRoomMessages`: the timeline of a known room is emptied; its members,
      cursor and metadata slots stay; an unknown room is not created. */
  function ResetMessages(rooms: map<string, Room>, id: string): (r: map<string, Room>)
    ensures r.Keys == rooms.Keys
    ensures forall k :: k in rooms && k != id ==> r[k] == rooms[k]
    ensures id in rooms ==>
      r[id].messages == [] && r[id].members == rooms[id].members &&
      r[id].earliestToken == rooms[id].earliestToken && r[id].meta == rooms[id].meta
  {
    if id in rooms then rooms[id := rooms[id].(messages := [])] else rooms
  }

  /** The store with room `id` replaced. */
  function SetRoom(s: Store, id: string, room: Room): Store
  {
    s.(rooms := s.rooms[id := room])
  }

  /** `r` differs from `s` at most in room `id` (which exists in `r`) and in the
      notification log. */
  predicate OnlyRoomTouched(s: Store, r: Store, id: string)
  {
    && r.rooms.Keys == s.rooms.Keys + {id}
    && (forall k :: k in s.rooms && k != id ==> r.rooms[k] == s.rooms[k])
    && r.seen == s.seen
    && r.presence == s.presence
    && r.aliasRequests == s.aliasRequests
  }

  /** One `$broadcast`, appended to the log. */
  function Notify(s: Store, c: Category, e: Event, live: bool, state: Option<bool>): (r: Store)
    ensures r.rooms == s.rooms && r.seen == s.seen && r.presence == s.presence
    ensures r.aliasRequests == s.aliasRequests
    ensures r.log == s.log + [Notification(c, e, live, state)]
  {
    s.(log := s.log + [Notification(c, e, live, state)])
  }

  // ----- Timeline insertion -----

  /** `push` for a live event, `unshift` for a backfilled one. */
  function Insert(messages: seq<Event>, e: Event, live: bool): (r: seq<Event>)
    ensures |r| == |messages| + 1
    ensures live ==> r[..|messages|] == messages && r[|messages|] == e
    ensures !live ==> r[0] == e && r[1..] == messages
  {
    if live then messages + [e] else [e] + messages
  }

  /** `getRoomEventIndex`: scanning from the tail, the highest index `i >= 1`
      whose event carries `id`. Index 0 is never inspected. */
  function EchoIndex(messages: seq<Event>, id: Option<string>): (r: Option<nat>)
    ensures r.Some? ==>
      1 <= r.value < |messages| && messages[r.value].eventId == id &&
      forall j :: r.value < j < |messages| ==> messages[j].eventId != id
    ensures r.None? <==> forall j :: 1 <= j < |messages| ==> messages[j].eventId != id
    decreases |messages|
  {
    if |messages| <= 1 then None
    else if messages[|messages| - 1].eventId == id then Some(|messages| - 1)
    else EchoIndex(messages[..|messages| - 1], id)
  }

  /** The local user's own text or emote: the live copy is the server's echo of
      an event already shown optimistically. */
  predicate IsOwnEcho(e: Event, user: string)
  {
    e.userId == user && (e.content.msgtype == Some("m.text") || e.content.msgtype == Some("m.emote"))
  }

  // ----- Per-type policies -----

  function OnRoomCreate(s: Store, e: Event, live: bool): (r: Store)
    ensures OnlyRoomTouched(s, r, e.roomId)
    ensures r.rooms[e.roomId] == Opened(s, e.roomId)
    ensures r.log == s.log + [Notification(RoomCreateEvent, e, live, None)]
  {
    Notify(s.(rooms := InitRoom(s.rooms, e.roomId)), RoomCreateEvent, e, live, None)
  }

  /** The alias handed to the collaborator: `aliases[0]`, undefined when empty. */
  function FirstAlias(aliases: seq<string>): Option<string>
  {
    if |aliases| > 0 then Some(aliases[0]) else None
  }

  function OnRoomAliases(s: Store, e: Event): (r: Store)
    ensures r.rooms == s.rooms && r.seen == s.seen && r.presence == s.presence && r.log == s.log
    ensures r.aliasRequests == s.aliasRequests + [AliasRequest(e.roomId, FirstAlias(e.content.aliases))]
  {
    s.(aliasRequests := s.aliasRequests + [AliasRequest(e.roomId, FirstAlias(e.content.aliases))])
  }

  /** `handleMessage`: backfill is prepended; a live event is appended, except
      that the echo of the user's own text replaces the entry found by
      `EchoIndex` in place. */
  function OnMessage(s: Store, user: string, e: Event, live: bool): (r: Store)
    ensures OnlyRoomTouched(s, r, e.roomId)
    ensures var before, after := Opened(s, e.roomId), r.rooms[e.roomId];
      && after.members == before.members
      && after.earliestToken == before.earliestToken
      && after.meta == before.meta
      && (!live ==> after.messages == [e] + before.messages)
      && (live && !IsOwnEcho(e, user) ==> after.messages == before.messages + [e])
      && (live && IsOwnEcho(e, user) ==>
            match EchoIndex(before.messages, e.eventId)
            case Some(i) => |after.messages| == |before.messages| &&
                            after.messages == before.messages[i := e]
            case None => after.messages == before.messages + [e])
    ensures r.log == s.log + [Notification(MsgEvent, e, live, None)]
  {
    var s1 := s.(rooms := InitRoom(s.rooms, e.roomId));
    var room := s1.rooms[e.roomId];
    var messages :=
      if live && IsOwnEcho(e, user) then
        match EchoIndex(room.messages, e.eventId)
        case Some(i) => room.messages[i := e]
        case None => room.messages + [e]
      else Insert(room.messages, e, live);
    Notify(SetRoom(s1, e.roomId, room.(messages := messages)), MsgEvent, e, live, None)
  }

  /** The re-relayed no-op join that `handleRoomMember` discards. */
  predicate IsNoOpJoin(e: Event)
  {
    e.prevContent.Some? && e.content.membership == Some("join") &&
    e.content.membership == e.prevContent.value.membership
  }

  /** A membership event shown in the timeline: `content.prev` differs from
      `content.membership` and the event is not a state snapshot. */
  predicate ShowsInTimeline(e: Event, state: bool)
  {
    e.content.prev != e.content.membership && !state
  }

  /** `handleRoomMember`. */
  function OnRoomMember(s: Store, e: Event, live: bool, state: bool): (r: Store)
    ensures OnlyRoomTouched(s, r, e.roomId)
    ensures IsNoOpJoin(e) ==> r.rooms[e.roomId] == Opened(s, e.roomId) && r.log == s.log
    ensures !IsNoOpJoin(e) ==>
      var before, after := Opened(s, e.roomId), r.rooms[e.roomId];
      && after.earliestToken == before.earliestToken
      && after.meta == before.meta
      && after.messages ==
           (if ShowsInTimeline(e, state) then Insert(before.messages, e, live) else before.messages)
      && after.members ==
           (if state || live then before.members[e.stateKey := e] else before.members)
      && r.log == s.log + [Notification(MemberEvent, e, live, Some(state))]
  {
    var s1 := s.(rooms := InitRoom(s.rooms, e.roomId));
    if IsNoOpJoin(e) then s1
    else
      var room := s1.rooms[e.roomId];
      var messages := if ShowsInTimeline(e, state) then Insert(room.messages, e, live) else room.messages;
      var members := if state || live then room.members[e.stateKey := e] else room.members;
      Notify(SetRoom(s1, e.roomId, room.(messages := messages, members := members)),
             MemberEvent, e, live, Some(state))
  }

  /** `handlePresence`: last write wins, keyed by `content.user_id`. */
  function OnPresence(s: Store, e: Event, live: bool): (r: Store)
    ensures r.rooms == s.rooms && r.seen == s.seen && r.aliasRequests == s.aliasRequests
    ensures r.presence.Keys == s.presence.Keys + {e.content.userId}
    ensures r.presence[e.content.userId] == e
    ensures forall u :: u in s.presence && u != e.content.userId ==> r.presence[u] == s.presence[u]
    ensures r.log == s.log + [Notification(PresenceEvent, e, live, None)]
  {
    Notify(s.(presence := s.presence[e.content.userId := e]), PresenceEvent, e, live, None)
  }

  /** Power levels and their family: the slot is filled when empty or by a live event. */
  predicate PowerLevelsAccepted(room: Room, e: Event, live: bool)
  {
    e.eventType !in room.meta || live
  }

  function OnPowerLevels(s: Store, e: Event, live: bool): (r: Store)
    ensures OnlyRoomTouched(s, r, e.roomId)
    ensures var before, after := Opened(s, e.roomId), r.rooms[e.roomId];
      && after.messages == before.messages
      && after.members == before.members
      && after.earliestToken == before.earliestToken
      && (PowerLevelsAccepted(before, e, live) ==>
            after.meta == before.meta[e.eventType := e] &&
            r.log == s.log + [Notification(PowerLevelEvent, e, live, None)])
      && (!PowerLevelsAccepted(before, e, live) ==> after == before && r.log == s.log)
  {
    var s1 := s.(rooms := InitRoom(s.rooms, e.roomId));
    var room := s1.rooms[e.roomId];
    if PowerLevelsAccepted(room, e, live) then
      Notify(SetRoom(s1, e.roomId, room.(meta := room.meta[e.eventType := e])),
             PowerLevelEvent, e, live, None)
    else s1
  }

  /** `handleRoomName`: always overwrites the slot, whatever the liveness. */
  function OnRoomName(s: Store, e: Event, live: bool): (r: Store)
    ensures OnlyRoomTouched(s, r, e.roomId)
    ensures var before, after := Opened(s, e.roomId), r.rooms[e.roomId];
      && after == before.(meta := before.meta[e.eventType := e])
      && after.meta[e.eventType] == e
    ensures r.log == s.log + [Notification(NameEvent, e, live, None)]
  {
    var s1 := s.(rooms := InitRoom(s.rooms, e.roomId));
    var room := s1.rooms[e.roomId];
    Notify(SetRoom(s1, e.roomId, room.(meta := room.meta[e.eventType := e])), NameEvent, e, live, None)
  }

  /** A topic replaces the stored one when live, when none is stored, or when
      the stored one is not strictly newer. */
  predicate TopicAccepted(room: Room, e: Event, live: bool)
  {
    live || e.eventType !in room.meta || !(room.meta[e.eventType].ts > e.ts)
  }

  /** `handleRoomTopic`. */
  function OnRoomTopic(s: Store, e: Event, live: bool, state: bool): (r: Store)
    ensures OnlyRoomTouched(s, r, e.roomId)
    ensures var before, after := Opened(s, e.roomId), r.rooms[e.roomId];
      && after.members == before.members
      && after.earliestToken == before.earliestToken
      && after.messages == (if state then before.messages else Insert(before.messages, e, live))
      && after.meta == (if TopicAccepted(before, e, live) then before.meta[e.eventType := e] else before.meta)
    ensures r.log == s.log + [Notification(TopicEvent, e, live, None)]
  {
    var s1 := s.(rooms := InitRoom(s.rooms, e.roomId));
    var room := s1.rooms[e.roomId];
    var messages := if !state then Insert(room.messages, e, live) else room.messages;
    var meta := if TopicAccepted(room, e, live) then room.meta[e.eventType := e] else room.meta;
    Notify(SetRoom(s1, e.roomId, room.(messages := messages, meta := meta)), TopicEvent, e, live, None)
  }

  /** What an event does to the store, and whether it completed: `ok` is false
      when the source would throw, which leaves the store as it was at the throw
      and stops the batch. */
  datatype Outcome = Outcome(store: Store, ok: bool)

  /** `handleCallEvent`: broadcast first; an invite is then pushed onto the room's
      timeline. The room is not created, so an invite for an unknown room throws. */
  function OnCall(s: Store, e: Event, live: bool): (r: Outcome)
    ensures r.ok <==> e.eventType != CallInvite || e.roomId in s.rooms
    ensures r.store.log == s.log + [Notification(CallEvent, e, live, None)]
    ensures r.store.seen == s.seen && r.store.presence == s.presence
    ensures r.store.aliasRequests == s.aliasRequests
    ensures r.store.rooms.Keys == s.rooms.Keys
    ensures forall k :: k in s.rooms && (k != e.roomId || e.eventType != CallInvite) ==>
      r.store.rooms[k] == s.rooms[k]
    ensures e.eventType == CallInvite && e.roomId in s.rooms ==>
      r.store.rooms[e.roomId] == s.rooms[e.roomId].(messages := s.rooms[e.roomId].messages + [e])
  {
    var s1 := Notify(s, CallEvent, e, live, None);
    if e.eventType == CallInvite then
      if e.roomId in s1.rooms then
        var room := s1.rooms[e.roomId];
        Outcome(SetRoom(s1, e.roomId, room.(messages := room.messages + [e])), true)
      else Outcome(s1, false)
    else Outcome(s1, true)
  }

  // ----- handleEvent, handleEvents, handleRoomMessages -----

  /** The key under which `eventMap[event.event_id]` is stored; an absent id is
      coerced to the property name "undefined". */
  function IdKey(id: Option<string>): string
  {
    match id
    case Some(v) => v
    case None => "undefined"
  }

  /** A non-empty id already recorded. An absent or empty id is never a duplicate. */
  predicate IsDuplicate(seen: set<string>, id: Option<string>)
  {
    id.Some? && id.value != "" && id.value in seen
  }

  /** Routing by type, after the dedup step. Unknown types change nothing. */
  function Dispatch(s: Store, user: string, e: Event, live: bool, state: bool): (r: Outcome)
    ensures r.store.seen == s.seen
    ensures s.rooms.Keys <= r.store.rooms.Keys
    ensures s.log <= r.store.log
    ensures !r.ok ==> e.eventType == CallInvite && e.roomId !in s.rooms
    ensures Route(e.eventType) == Unhandled ==> r == Outcome(s, true)
  {
    match Route(e.eventType)
    case CallHandler => OnCall(s, e, live)
    case RoomCreateHandler => Outcome(OnRoomCreate(s, e, live), true)
    case RoomAliasesHandler => Outcome(OnRoomAliases(s, e), true)
    case MessageHandler => Outcome(OnMessage(s, user, e, live), true)
    case RoomMemberHandler => Outcome(OnRoomMember(s, e, live, state), true)
    case PresenceHandler => Outcome(OnPresence(s, e, live), true)
    case PowerLevelsHandler => Outcome(OnPowerLevels(s, e, live), true)
    case RoomNameHandler => Outcome(OnRoomName(s, e, live), true)
    case RoomTopicHandler => Outcome(OnRoomTopic(s, e, live, state), true)
    case Unhandled => Outcome(s, true)
  }

  /** `handleEvent`: a non-state duplicate is discarded; any other non-state event
      has its id recorded before routing (unknown types included); state events
      neither consult nor change the dedup set. */
  function Handle(s: Store, user: string, e: Event, live: bool, state: bool): (r: Outcome)
    ensures !state && IsDuplicate(s.seen, e.eventId) ==> r == Outcome(s, true)
    ensures !state && !IsDuplicate(s.seen, e.eventId) ==> r.store.seen == s.seen + {IdKey(e.eventId)}
    ensures state ==> r.store.seen == s.seen
    ensures s.rooms.Keys <= r.store.rooms.Keys && s.seen <= r.store.seen && s.log <= r.store.log
    ensures !r.ok ==> e.eventType == CallInvite && e.roomId !in s.rooms
  {
    if !state && IsDuplicate(s.seen, e.eventId) then Outcome(s, true)
    else
      var s1 := if state then s else s.(seen := s.seen + {IdKey(e.eventId)});
      Dispatch(s1, user, e, live, state)
  }

  /** `handleEvents`: the events in order with the same flags; a throw stops the batch. */
  function HandleAll(s: Store, user: string, es: seq<Event>, live: bool, state: bool): (r: Outcome)
    ensures s.rooms.Keys <= r.store.rooms.Keys && s.seen <= r.store.seen && s.log <= r.store.log
    ensures state ==> r.store.seen == s.seen
    decreases |es|
  {
    if es == [] then Outcome(s, true)
    else
      var o := Handle(s, user, es[0], live, state);
      if !o.ok then o else HandleAll(o.store, user, es[1..], live, state)
  }

  /** `handleRoomMessages`: the chunk as non-state events, then the cursor of the
      room becomes `end`; the room must exist by then, or the assignment throws. */
  function HandlePage(s: Store, user: string, roomId: string, chunk: seq<Event>, end: string, live: bool): (r: Outcome)
    ensures var o := HandleAll(s, user, chunk, live, false);
      && (r.ok <==> o.ok && roomId in o.store.rooms)
      && (!r.ok ==> r.store == o.store)
      && (r.ok ==>
            && r.store.rooms.Keys == o.store.rooms.Keys
            && r.store.rooms[roomId].earliestToken == end
            && r.store.rooms[roomId].messages == o.store.rooms[roomId].messages
            && r.store.rooms[roomId].members == o.store.rooms[roomId].members
            && r.store.rooms[roomId].meta == o.store.rooms[roomId].meta
            && (forall k :: k in o.store.rooms && k != roomId ==> r.store.rooms[k] == o.store.rooms[k])
            && r.store.seen == o.store.seen && r.store.presence == o.store.presence
            && r.store.log == o.store.log && r.store.aliasRequests == o.store.aliasRequests)
  {
    var o := HandleAll(s, user, chunk, live, false);
    if !o.ok then o
    else if roomId in o.store.rooms then
      var room := o.store.rooms[roomId];
      Outcome(SetRoom(o.store, roomId, room.(earliestToken := end)), true)
    else Outcome(o.store, false)
  }

  /** Processing `a ++ b` is processing `a`, then, unless that threw, `b`. */
  lemma {:induction false} HandleAllAppend(s: Store, user: string, a: seq<Event>, b: seq<Event>, live: bool, state: bool)
    ensures var o := HandleAll(s, user, a, live, state);
      HandleAll(s, user, a + b, live, state) == if o.ok then HandleAll(o.store, user, b, live, state) else o
    decreases |a|
  {
    if a == [] {
      assert a + b == b;
    } else {
      assert (a + b)[0] == a[0];
      assert (a + b)[1..] == a[1..] + b;
      var o := Handle(s, user, a[0], live, state);
      if o.ok {
        HandleAllAppend(o.store, user, a[1..], b, live, state);
      }
    }
  }
}
