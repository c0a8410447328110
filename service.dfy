/** `eventHandlerService`: the object that owns the room store, the dedup map,
    presence and the initial-sync gate, and updates them in place as events come
    in. Every method is proved to leave the object in the state that the
    corresponding function of Reconcile computes from the state before. */
module Service {
  import opened Events
  import Reconcile
  import SyncGate

  class EventHandlerService {
    /** The local user, `matrixService.config().user_id`. */
    const userId: string
    /** `$rootScope.events.rooms`. */
    var rooms: map<string, Room>
    /** The keys of `eventMap`. */
    var seen: set<string>
    /** `$rootScope.presence`. */
    var presence: map<string, Event>
    /** Every `$broadcast` so far, oldest first. */
    var log: seq<Notification>
    /** Every call to the alias collaborator so far, oldest first. */
    var aliasRequests: seq<AliasRequest>
    /** `initialSyncDeferred`: `None` while pending, then its payload. */
    var syncPayload: Option<Payload>

    /** The state the service owns, as a value. */
    ghost function Snapshot(): Store
      reads this
    {
      Store(rooms, seen, presence, log, aliasRequests)
    }

    constructor (userId: string)
      ensures this.userId == userId
      ensures Snapshot() == EmptyStore && syncPayload == None
    {
      this.userId := userId;
      rooms := map[];
      seen := {};
      presence := map[];
      log := [];
      aliasRequests := [];
      syncPayload := None;
    }

    method InitRoom(roomId: string)
      modifies this
      ensures rooms == Reconcile.InitRoom(old(rooms), roomId)
      ensures seen == old(seen) && presence == old(presence) && log == old(log)
      ensures aliasRequests == old(aliasRequests) && syncPayload == old(syncPayload)
    {
      if roomId !in rooms {
        rooms := rooms[roomId := Room([], map[], "END", map[])];
      }
    }

    method ResetRoomMessages(roomId: string)
      modifies this
      ensures rooms == Reconcile.ResetMessages(old(rooms), roomId)
      ensures seen == old(seen) && presence == old(presence) && log == old(log)
      ensures aliasRequests == old(aliasRequests) && syncPayload == old(syncPayload)
    {
      if roomId in rooms {
        rooms := rooms[roomId := rooms[roomId].(messages := [])];
      }
    }

    /** Appends one broadcast to the log. */
    method Broadcast(c: Category, e: Event, live: bool, state: Option<bool>)
      modifies this
      ensures Snapshot() == Reconcile.Notify(old(Snapshot()), c, e, live, state)
      ensures syncPayload == old(syncPayload)
    {
      log := log + [Notification(c, e, live, state)];
    }

    method HandleRoomCreate(e: Event, live: bool)
      modifies this
      ensures Snapshot() == Reconcile.OnRoomCreate(old(Snapshot()), e, live)
      ensures syncPayload == old(syncPayload)
    {
      InitRoom(e.roomId);
      Broadcast(RoomCreateEvent, e, live, None);
    }

    method HandleRoomAliases(e: Event)
      modifies this
      ensures Snapshot() == Reconcile.OnRoomAliases(old(Snapshot()), e)
      ensures syncPayload == old(syncPayload)
    {
      var alias := if |e.content.aliases| > 0 then Some(e.content.aliases[0]) else None;
      aliasRequests := aliasRequests + [AliasRequest(e.roomId, alias)];
    }

    /** `getRoomEventIndex`: walks the timeline from the tail down to index 1 and
        stops at the first entry carrying `eventId`; `None` is `undefined`. */
    method GetRoomEventIndex(roomId: string, eventId: Option<string>) returns (index: Option<nat>)
      ensures roomId !in rooms ==> index == None
      ensures roomId in rooms ==>
        var messages := rooms[roomId].messages;
        && (index.Some? ==>
              1 <= index.value < |messages| && messages[index.value].eventId == eventId &&
              forall j :: index.value < j < |messages| ==> messages[j].eventId != eventId)
        && (index.None? ==> forall j :: 1 <= j < |messages| ==> messages[j].eventId != eventId)
      ensures roomId in rooms ==> index == Reconcile.EchoIndex(rooms[roomId].messages, eventId)
    {
      index := None;
      if roomId in rooms {
        var messages := rooms[roomId].messages;
        var i := |messages| - 1;
        while i > 0
          invariant -1 <= i < |messages|
          invariant index == None
          invariant forall j :: i < j < |messages| ==> messages[j].eventId != eventId
        {
          if eventId == messages[i].eventId {
            index := Some(i);
            break;
          }
          i := i - 1;
        }
        var expected := Reconcile.EchoIndex(messages, eventId);
        assert index.Some? ==> expected.Some?;
      }
    }

    method HandleMessage(e: Event, live: bool)
      modifies this
      ensures Snapshot() == Reconcile.OnMessage(old(Snapshot()), userId, e, live)
      ensures syncPayload == old(syncPayload)
    {
      InitRoom(e.roomId);
      var room := rooms[e.roomId];
      if live {
        if Reconcile.IsOwnEcho(e, userId) {
          // the optimistic copy shown before the server confirmed it is replaced
          var index := GetRoomEventIndex(e.roomId, e.eventId);
          if index.Some? && index.value != 0 {
            rooms := rooms[e.roomId := room.(messages := room.messages[index.value := e])];
          } else {
            rooms := rooms[e.roomId := room.(messages := room.messages + [e])];
          }
        } else {
          rooms := rooms[e.roomId := room.(messages := room.messages + [e])];
        }
      } else {
        rooms := rooms[e.roomId := room.(messages := [e] + room.messages)];
      }
      Broadcast(MsgEvent, e, live, None);
    }

    method HandleRoomMember(e: Event, live: bool, state: bool)
      modifies this
      ensures Snapshot() == Reconcile.OnRoomMember(old(Snapshot()), e, live, state)
      ensures syncPayload == old(syncPayload)
    {
      InitRoom(e.roomId);
      if e.prevContent.Some? && e.content.membership == Some("join") &&
         e.content.membership == e.prevContent.value.membership {
        return;
      }
      if e.content.prev != e.content.membership && !state {
        var room := rooms[e.roomId];
        if live {
          rooms := rooms[e.roomId := room.(messages := room.messages + [e])];
        } else {
          rooms := rooms[e.roomId := room.(messages := [e] + room.messages)];
        }
      }
      if state || live {
        var room := rooms[e.roomId];
        rooms := rooms[e.roomId := room.(members := room.members[e.stateKey := e])];
      }
      Broadcast(MemberEvent, e, live, Some(state));
    }

    method HandlePresence(e: Event, live: bool)
      modifies this
      ensures Snapshot() == Reconcile.OnPresence(old(Snapshot()), e, live)
      ensures syncPayload == old(syncPayload)
    {
      presence := presence[e.content.userId := e];
      Broadcast(PresenceEvent, e, live, None);
    }

    method HandlePowerLevels(e: Event, live: bool)
      modifies this
      ensures Snapshot() == Reconcile.OnPowerLevels(old(Snapshot()), e, live)
      ensures syncPayload == old(syncPayload)
    {
      InitRoom(e.roomId);
      var room := rooms[e.roomId];
      if e.eventType !in room.meta || live {
        rooms := rooms[e.roomId := room.(meta := room.meta[e.eventType := e])];
        Broadcast(PowerLevelEvent, e, live, None);
      }
    }

    method HandleRoomName(e: Event, live: bool)
      modifies this
      ensures Snapshot() == Reconcile.OnRoomName(old(Snapshot()), e, live)
      ensures syncPayload == old(syncPayload)
    {
      InitRoom(e.roomId);
      var room := rooms[e.roomId];
      rooms := rooms[e.roomId := room.(meta := room.meta[e.eventType := e])];
      Broadcast(NameEvent, e, live, None);
    }

    method HandleRoomTopic(e: Event, live: bool, state: bool)
      modifies this
      ensures Snapshot() == Reconcile.OnRoomTopic(old(Snapshot()), e, live, state)
      ensures syncPayload == old(syncPayload)
    {
      InitRoom(e.roomId);
      if !state {
        var room := rooms[e.roomId];
        if live {
          rooms := rooms[e.roomId := room.(messages := room.messages + [e])];
        } else {
          rooms := rooms[e.roomId := room.(messages := [e] + room.messages)];
        }
      }
      // live events always update; others only when the stored topic is not newer
      var latestData := true;
      if !live {
        var room := rooms[e.roomId];
        if e.eventType in room.meta {
          if room.meta[e.eventType].ts > e.ts {
            latestData := false;
          }
        }
      }
      if latestData {
        var room := rooms[e.roomId];
        rooms := rooms[e.roomId := room.(meta := room.meta[e.eventType := e])];
      }
      Broadcast(TopicEvent, e, live, None);
    }

    /** `ok` is false where the source's push onto a missing room throws. */
    method HandleCallEvent(e: Event, live: bool) returns (ok: bool)
      modifies this
      ensures var o := Reconcile.OnCall(old(Snapshot()), e, live);
        Snapshot() == o.store && ok == o.ok
      ensures syncPayload == old(syncPayload)
    {
      Broadcast(CallEvent, e, live, None);
      ok := true;
      if e.eventType == CallInvite {
        if e.roomId !in rooms {
          ok := false;
          return;
        }
        var room := rooms[e.roomId];
        rooms := rooms[e.roomId := room.(messages := room.messages + [e])];
      }
    }

    /** `handleEvent`. `ok` is false when the event made the source throw. */
    method HandleEvent(e: Event, live: bool, state: bool) returns (ok: bool)
      modifies this
      ensures var o := Reconcile.Handle(old(Snapshot()), userId, e, live, state);
        Snapshot() == o.store && ok == o.ok
      ensures syncPayload == old(syncPayload)
    {
      if !state {
        if e.eventId.Some? && e.eventId.value != "" && e.eventId.value in seen {
          return true;
        } else {
          seen := seen + {Reconcile.IdKey(e.eventId)};
        }
      }
      ok := Dispatch(e, live, state);
    }

    /** The type test and `switch` of `handleEvent`, as the routing table `Route`. */
    method Dispatch(e: Event, live: bool, state: bool) returns (ok: bool)
      modifies this
      ensures var o := Reconcile.Dispatch(old(Snapshot()), userId, e, live, state);
        Snapshot() == o.store && ok == o.ok
      ensures syncPayload == old(syncPayload)
    {
      ok := true;
      match Route(e.eventType)
      case CallHandler => ok := HandleCallEvent(e, live);
      case RoomCreateHandler => HandleRoomCreate(e, live);
      case RoomAliasesHandler => HandleRoomAliases(e);
      case MessageHandler => HandleMessage(e, live);
      case RoomMemberHandler => HandleRoomMember(e, live, state);
      case PresenceHandler => HandlePresence(e, live);
      case PowerLevelsHandler => HandlePowerLevels(e, live);
      case RoomNameHandler => HandleRoomName(e, live);
      case RoomTopicHandler => HandleRoomTopic(e, live, state);
      case Unhandled =>
    }

    /** `handleEvents`: the batch in order; a throw ends it early. */
    method HandleEvents(es: seq<Event>, live: bool, state: bool) returns (ok: bool)
      modifies this
      ensures var o := Reconcile.HandleAll(old(Snapshot()), userId, es, live, state);
        Snapshot() == o.store && ok == o.ok
      ensures syncPayload == old(syncPayload)
    {
      ghost var s0 := Snapshot();
      var i := 0;
      while i < |es|
        invariant 0 <= i <= |es|
        invariant Reconcile.HandleAll(s0, userId, es[..i], live, state) == Reconcile.Outcome(Snapshot(), true)
        invariant syncPayload == old(syncPayload)
      {
        ghost var before := Snapshot();
        Reconcile.HandleAllAppend(s0, userId, es[..i], [es[i]], live, state);
        assert es[..i] + [es[i]] == es[..i + 1];
        ok := HandleEvent(es[i], live, state);
        assert Reconcile.HandleAll(before, userId, [es[i]], live, state) == Reconcile.Outcome(Snapshot(), ok);
        if !ok {
          Reconcile.HandleAllAppend(s0, userId, es[..i + 1], es[i + 1..], live, state);
          assert es[..i + 1] + es[i + 1..] == es;
          return;
        }
        i := i + 1;
      }
      assert es[..i] == es;
      ok := true;
    }

    /** `handleRoomMessages`: the chunk as non-state events, then the room's
        cursor; `ok` is false when either step throws. */
    method HandleRoomMessages(roomId: string, chunk: seq<Event>, end: string, live: bool) returns (ok: bool)
      modifies this
      ensures var o := Reconcile.HandlePage(old(Snapshot()), userId, roomId, chunk, end, live);
        Snapshot() == o.store && ok == o.ok
      ensures syncPayload == old(syncPayload)
    {
      ok := HandleEvents(chunk, live, false);
      if !ok {
        return;
      }
      if roomId !in rooms {
        ok := false;
        return;
      }
      var room := rooms[roomId];
      rooms := rooms[roomId := room.(earliestToken := end)];
    }

    method HandleInitialSyncDone(p: Payload)
      modifies this
      ensures syncPayload == SyncGate.Resolve(old(syncPayload), p)
      ensures Snapshot() == old(Snapshot())
    {
      if syncPayload.None? {
        syncPayload := Some(p);
      }
    }

    /** The promise of the gate, read now: `None` while pending. */
    method WaitForInitialSyncCompletion() returns (p: Option<Payload>)
      ensures p == syncPayload
    {
      p := syncPayload;
    }
  }
}
