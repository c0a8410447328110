/** What the merge policies guarantee across events: deduplication under
    repeated delivery, the two growth directions of a timeline, echo
    replacement and its blind spot at index 0, and the latest-wins rules of the
    metadata slots. Every lemma is about Reconcile.Handle, HandleAll or
    HandlePage, which the service's methods are proved to compute. */
module Properties {
  import opened Events
  import opened Reconcile

  // ----- Deduplication -----

  /** Every event carries a non-empty id, so each is subject to the dedup check. */
  predicate Identified(es: seq<Event>)
  {
    forall i :: 0 <= i < |es| ==> es[i].eventId.Some? && es[i].eventId.value != ""
  }

  /** No event of the batch is discarded as a duplicate when it is reached. */
  predicate Undelivered(seen: set<string>, es: seq<Event>)
    decreases |es|
  {
    es == [] || (!IsDuplicate(seen, es[0].eventId) && Undelivered(seen + {IdKey(es[0].eventId)}, es[1..]))
  }

  /** Delivering the same non-state event a second time changes nothing and
      broadcasts nothing. */
  lemma DuplicateDeliveryIsIgnored(s: Store, user: string, e: Event, live: bool)
    requires e.eventId.Some? && e.eventId.value != ""
    ensures var once := Handle(s, user, e, live, false).store;
      Handle(once, user, e, live, false) == Outcome(once, true)
  {
  }

  /** A completed non-state batch of identified events records every id. */
  lemma {:induction false} BatchRecordsIds(s: Store, user: string, es: seq<Event>, live: bool)
    requires Identified(es)
    requires HandleAll(s, user, es, live, false).ok
    ensures forall i :: 0 <= i < |es| ==> es[i].eventId.value in HandleAll(s, user, es, live, false).store.seen
    decreases |es|
  {
    if es != [] {
      var o := Handle(s, user, es[0], live, false);
      assert Identified(es[1..]) by {
        forall i | 0 <= i < |es[1..]| ensures es[1..][i].eventId.Some? && es[1..][i].eventId.value != "" {
          assert es[1..][i] == es[i + 1];
        }
      }
      BatchRecordsIds(o.store, user, es[1..], live);
      forall i | 0 <= i < |es| ensures es[i].eventId.value in HandleAll(s, user, es, live, false).store.seen {
        if i > 0 {
          assert es[i] == es[1..][i - 1];
        }
      }
    }
  }

  /** A non-state batch whose ids are all recorded is discarded entirely. */
  lemma {:induction false} RecordedBatchIsDiscarded(s: Store, user: string, es: seq<Event>, live: bool)
    requires Identified(es)
    requires forall i :: 0 <= i < |es| ==> es[i].eventId.value in s.seen
    ensures HandleAll(s, user, es, live, false) == Outcome(s, true)
    decreases |es|
  {
    if es != [] {
      assert IsDuplicate(s.seen, es[0].eventId);
      assert Identified(es[1..]) by {
        forall i | 0 <= i < |es[1..]| ensures es[1..][i].eventId.Some? && es[1..][i].eventId.value != "" {
          assert es[1..][i] == es[i + 1];
        }
      }
      forall i | 0 <= i < |es[1..]| ensures es[1..][i].eventId.value in s.seen {
        assert es[1..][i] == es[i + 1];
      }
      RecordedBatchIsDiscarded(s, user, es[1..], live);
    }
  }

  /** Replaying a completed batch of identified non-state events (an overlap
      between pagination and the live stream) leaves the state as one delivery did. */
  lemma ReplayedBatchIsIdempotent(s: Store, user: string, es: seq<Event>, live: bool)
    requires Identified(es)
    requires HandleAll(s, user, es, live, false).ok
    ensures var once := HandleAll(s, user, es, live, false).store;
      HandleAll(once, user, es, live, false) == Outcome(once, true)
  {
    BatchRecordsIds(s, user, es, live);
    RecordedBatchIsDiscarded(HandleAll(s, user, es, live, false).store, user, es, live);
  }

  /** State events do not consult the dedup set: what they do is the same
      whatever ids have been recorded. */
  lemma StateEventsIgnoreSeen(s: Store, user: string, e: Event, live: bool, other: set<string>)
    ensures var o := Handle(s, user, e, live, true);
      Handle(s.(seen := other), user, e, live, true) == Outcome(o.store.(seen := other), o.ok)
  {
  }

  /** An event of an unknown type is dropped, but a non-state one is still
      recorded in the dedup set. */
  lemma UnknownTypeIsOnlyRecorded(s: Store, user: string, e: Event, live: bool, state: bool)
    requires Route(e.eventType) == Unhandled
    ensures Handle(s, user, e, live, state) ==
      if state || IsDuplicate(s.seen, e.eventId) then Outcome(s, true)
      else Outcome(s.(seen := s.seen + {IdKey(e.eventId)}), true)
  {
  }

  // ----- Timeline direction -----

  function Reversed(es: seq<Event>): (r: seq<Event>)
    ensures |r| == |es|
    decreases |es|
  {
    if es == [] then [] else Reversed(es[1..]) + [es[0]]
  }

  /** Messages for one room and not from the local user's text echo. */
  predicate PlainMessagesFor(es: seq<Event>, roomId: string, user: string)
  {
    forall i :: 0 <= i < |es| ==>
      es[i].eventType == "m.room.message" && es[i].roomId == roomId && !IsOwnEcho(es[i], user)
  }

  /** Backfilled messages are each put at the head, so a page delivered newest
      first ends up oldest first in front of what was there. */
  lemma {:induction false} BackfillPrependsReversed(s: Store, user: string, roomId: string, es: seq<Event>)
    requires roomId in s.rooms
    requires forall i :: 0 <= i < |es| ==> es[i].eventType == "m.room.message" && es[i].roomId == roomId
    requires Undelivered(s.seen, es)
    ensures var o := HandleAll(s, user, es, false, false);
      o.ok && roomId in o.store.rooms &&
      o.store.rooms[roomId].messages == Reversed(es) + s.rooms[roomId].messages
    decreases |es|
  {
    if es != [] {
      var o := Handle(s, user, es[0], false, false);
      assert o.store.rooms[roomId].messages == [es[0]] + s.rooms[roomId].messages;
      forall i | 0 <= i < |es[1..]|
        ensures es[1..][i].eventType == "m.room.message" && es[1..][i].roomId == roomId
      {
        assert es[1..][i] == es[i + 1];
      }
      BackfillPrependsReversed(o.store, user, roomId, es[1..]);
      assert Reversed(es[1..]) + [es[0]] + s.rooms[roomId].messages
          == Reversed(es[1..]) + ([es[0]] + s.rooms[roomId].messages);
    }
  }

  /** One live message that is not the user's own echo, for a known room, is
      appended to its timeline. */
  lemma LiveMessageIsAppended(s: Store, user: string, roomId: string, e: Event)
    requires roomId in s.rooms
    requires e.eventType == "m.room.message" && e.roomId == roomId && !IsOwnEcho(e, user)
    requires !IsDuplicate(s.seen, e.eventId)
    ensures var o := Handle(s, user, e, true, false);
      o.ok && roomId in o.store.rooms &&
      o.store.rooms[roomId].messages == s.rooms[roomId].messages + [e]
  {
    var s1 := s.(seen := s.seen + {IdKey(e.eventId)});
    assert Handle(s, user, e, true, false) == Outcome(OnMessage(s1, user, e, true), true);
  }

  /** Live messages that are not the user's own echo are appended in order. */
  lemma {:induction false} LiveAppendsInOrder(s: Store, user: string, roomId: string, es: seq<Event>)
    requires roomId in s.rooms
    requires PlainMessagesFor(es, roomId, user)
    requires Undelivered(s.seen, es)
    ensures var o := HandleAll(s, user, es, true, false);
      o.ok && roomId in o.store.rooms &&
      o.store.rooms[roomId].messages == s.rooms[roomId].messages + es
    decreases |es|
  {
    if es != [] {
      var o := Handle(s, user, es[0], true, false);
      LiveMessageIsAppended(s, user, roomId, es[0]);
      assert PlainMessagesFor(es[1..], roomId, user) by {
        forall i | 0 <= i < |es[1..]|
          ensures es[1..][i].eventType == "m.room.message" && es[1..][i].roomId == roomId &&
                  !IsOwnEcho(es[1..][i], user)
        {
          assert es[1..][i] == es[i + 1];
        }
      }
      LiveAppendsInOrder(o.store, user, roomId, es[1..]);
      assert s.rooms[roomId].messages + [es[0]] + es[1..] == s.rooms[roomId].messages + es;
    }
  }

  /** A room showing one live message `m`, then a history page `[b, a]` (newest
      first, as the server pages backwards): the timeline reads `[a, b, m]` and
      the cursor moves to the page's end token. */
  lemma BackfillPageOrdersTimeline(s: Store, user: string, roomId: string, m: Event, a: Event, b: Event, end: string)
    requires roomId in s.rooms && s.rooms[roomId].messages == [m]
    requires a.eventType == "m.room.message" && a.roomId == roomId
    requires b.eventType == "m.room.message" && b.roomId == roomId
    requires Undelivered(s.seen, [b, a])
    ensures var o := HandlePage(s, user, roomId, [b, a], end, false);
      o.ok && o.store.rooms[roomId].messages == [a, b, m] &&
      o.store.rooms[roomId].earliestToken == end
  {
    BackfillPrependsReversed(s, user, roomId, [b, a]);
    assert Reversed([b, a]) == [a, b] by {
      assert [b, a][1..] == [a];
      assert Reversed([a]) == [a] by { assert [a][1..] == []; }
    }
  }

  // ----- Echo replacement -----

  /** The live echo of the user's own message replaces the last entry at index
      1 or above that has its id: the length stays and only that index changes. */
  lemma EchoReplacesInPlace(s: Store, user: string, e: Event, i: nat)
    requires e.eventType == "m.room.message" && IsOwnEcho(e, user)
    requires !IsDuplicate(s.seen, e.eventId)
    requires e.roomId in s.rooms
    requires var ms := s.rooms[e.roomId].messages;
      1 <= i < |ms| && ms[i].eventId == e.eventId &&
      forall j :: i < j < |ms| ==> ms[j].eventId != e.eventId
    ensures var ms := s.rooms[e.roomId].messages;
      var after := Handle(s, user, e, true, false).store.rooms[e.roomId].messages;
      |after| == |ms| && after[i] == e &&
      forall j :: 0 <= j < |ms| && j != i ==> after[j] == ms[j]
  {
    var ms := s.rooms[e.roomId].messages;
    var k := EchoIndex(ms, e.eventId);
    assert k.Some?;
  }

  /** An echo whose optimistic copy sits at index 0 is not found, because the
      search never looks there: it is appended and the timeline holds the id twice. */
  lemma EchoAtHeadIsDuplicated(s: Store, user: string, e: Event, m: Event)
    requires e.eventType == "m.room.message" && IsOwnEcho(e, user)
    requires !IsDuplicate(s.seen, e.eventId)
    requires e.roomId in s.rooms && s.rooms[e.roomId].messages == [m]
    requires m.eventId == e.eventId
    ensures var after := Handle(s, user, e, true, false).store.rooms[e.roomId].messages;
      after == [m, e] && after[0].eventId == after[1].eventId
  {
  }

  // ----- Membership -----

  /** A re-relayed join is discarded: only the lazy room creation remains. */
  lemma NoOpRejoinIsSuppressed(s: Store, user: string, e: Event, live: bool, state: bool)
    requires e.eventType == "m.room.member" && IsNoOpJoin(e)
    requires state || !IsDuplicate(s.seen, e.eventId)
    ensures var r := Handle(s, user, e, live, state).store;
      r.rooms == InitRoom(s.rooms, e.roomId) && r.log == s.log && r.presence == s.presence
  {
  }

  /** A membership event met while paginating back never changes `members`. */
  lemma BackfilledMembershipKeepsMembers(s: Store, user: string, e: Event)
    requires e.eventType == "m.room.member" && e.roomId in s.rooms
    ensures Handle(s, user, e, false, false).store.rooms[e.roomId].members == s.rooms[e.roomId].members
  {
  }

  // ----- Metadata slots -----

  /** Once a live power-levels event is stored, a backfilled one of the same type
      for the same room does not replace it. */
  lemma LivePowerLevelsSurviveBackfill(s: Store, user: string, p: Event, q: Event, pState: bool, qState: bool)
    requires p.eventType in PowerLevelTypes && q.eventType == p.eventType && q.roomId == p.roomId
    requires pState || !IsDuplicate(s.seen, p.eventId)
    ensures var s1 := Handle(s, user, p, true, pState).store;
      var s2 := Handle(s1, user, q, false, qState).store;
      s1.rooms[p.roomId].meta[p.eventType] == p && s2.rooms[p.roomId].meta[p.eventType] == p
  {
  }

  /** A backfilled power-levels event over a filled slot changes no room and
      broadcasts nothing. */
  lemma BackfilledPowerLevelsChangeNothing(s: Store, user: string, e: Event, state: bool)
    requires e.eventType in PowerLevelTypes && e.roomId in s.rooms
    requires e.eventType in s.rooms[e.roomId].meta
    ensures var r := Handle(s, user, e, false, state).store;
      r.rooms == s.rooms && r.log == s.log
  {
  }

  /** A backfilled topic replaces the stored one exactly when the stored one is
      not strictly newer; the broadcast happens either way. */
  lemma BackfilledTopicIsTimestampGated(s: Store, user: string, stored: Event, e: Event, state: bool)
    requires e.eventType == "m.room.topic" && e.roomId in s.rooms
    requires e.eventType in s.rooms[e.roomId].meta && s.rooms[e.roomId].meta[e.eventType] == stored
    requires state || !IsDuplicate(s.seen, e.eventId)
    ensures var r := Handle(s, user, e, false, state).store;
      r.rooms[e.roomId].meta[e.eventType] == (if stored.ts > e.ts then stored else e) &&
      r.log == s.log + [Notification(TopicEvent, e, false, None)]
  {
  }

  /** A room name, even a backfilled older one, always replaces the stored name. */
  lemma NameAlwaysOverwrites(s: Store, user: string, e: Event, live: bool, state: bool)
    requires e.eventType == "m.room.name"
    requires state || !IsDuplicate(s.seen, e.eventId)
    ensures Handle(s, user, e, live, state).store.rooms[e.roomId].meta["m.room.name"] == e
  {
  }

  /** Presence is last write wins, per `content.user_id`. */
  lemma PresenceLastWriteWins(s: Store, user: string, e: Event, live: bool, state: bool)
    requires e.eventType == "m.presence"
    requires state || !IsDuplicate(s.seen, e.eventId)
    ensures Handle(s, user, e, live, state).store.presence[e.content.userId] == e
  {
  }
}
