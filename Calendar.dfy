/**
 * The in-memory calendar tool: a table of events keyed by event id, kept in
 * insertion order like a Python dictionary, with a window query, an
 * insert-or-overwrite and a merge-update.
 */
module Calendar {
  import opened Wrappers
  import opened Schemas

  /** Closed-interval overlap of an event with the window `[start, end]`. */
  predicate Overlaps(e: CalendarEvent, start: int, end: int)
  {
    e.startTime <= end && e.endTime >= start
  }

  /** The events of `evs` that overlap the window, in their order. */
  function Overlapping(evs: seq<CalendarEvent>, start: int, end: int): seq<CalendarEvent>
  {
    if evs == [] then []
    else
      var last := evs[|evs| - 1];
      Overlapping(evs[..|evs| - 1], start, end) + (if Overlaps(last, start, end) then [last] else [])
  }

  /** An event is in the query's answer exactly when it is stored and overlaps the window. */
  lemma {:induction false} OverlappingMembers(evs: seq<CalendarEvent>, start: int, end: int, e: CalendarEvent)
    ensures e in Overlapping(evs, start, end) <==> e in evs && Overlaps(e, start, end)
    decreases |evs|
  {
    if evs != [] {
      var init := evs[..|evs| - 1];
      OverlappingMembers(init, start, end, e);
      assert evs == init + [evs[|evs| - 1]];
    }
  }

  /**
   * `picked` is the filter of `evs` by overlap, witnessed by positions `idx`:
   * strictly increasing positions of `evs` holding the picked events, which are
   * exactly the positions whose event overlaps the window.
   */
  predicate FilteredAt(evs: seq<CalendarEvent>, start: int, end: int, picked: seq<CalendarEvent>, idx: seq<int>)
  {
    && |idx| == |picked|
    && (forall k :: 0 <= k < |idx| ==> 0 <= idx[k] < |evs| && picked[k] == evs[idx[k]])
    && (forall k, l :: 0 <= k < l < |idx| ==> idx[k] < idx[l])
    && (forall i :: 0 <= i < |evs| ==> (Overlaps(evs[i], start, end) <==> i in idx))
  }

  /**
   * The answer is the table's overlapping events in table order: a subsequence of
   * the table that takes every overlapping event and no other.
   */
  lemma {:induction false} OverlappingInOrder(evs: seq<CalendarEvent>, start: int, end: int)
    ensures exists idx :: FilteredAt(evs, start, end, Overlapping(evs, start, end), idx)
    decreases |evs|
  {
    if evs == [] {
      var none: seq<int> := [];
      assert FilteredAt(evs, start, end, Overlapping(evs, start, end), none);
    } else {
      var n := |evs|;
      var init := evs[..n - 1];
      var last := evs[n - 1];
      OverlappingInOrder(init, start, end);
      var picked := Overlapping(init, start, end);
      var idx0 :| FilteredAt(init, start, end, picked, idx0);
      var extra := if Overlaps(last, start, end) then [last] else [];
      var extraIdx := if Overlaps(last, start, end) then [n - 1] else [];
      assert Overlapping(evs, start, end) == picked + extra;
      FilteredExtend(evs, start, end, picked, idx0, extra, extraIdx);
      assert FilteredAt(evs, start, end, Overlapping(evs, start, end), idx0 + extraIdx);
    }
  }

  /** One step of the filter: the last event of `evs` is picked exactly when it overlaps. */
  lemma FilteredExtend(evs: seq<CalendarEvent>, start: int, end: int, picked: seq<CalendarEvent>, idx: seq<int>,
                       extra: seq<CalendarEvent>, extraIdx: seq<int>)
    requires evs != []
    requires FilteredAt(evs[..|evs| - 1], start, end, picked, idx)
    requires Overlaps(evs[|evs| - 1], start, end) ==> extra == [evs[|evs| - 1]] && extraIdx == [|evs| - 1]
    requires !Overlaps(evs[|evs| - 1], start, end) ==> extra == [] && extraIdx == []
    ensures picked + extra == Overlapping(evs, start, end) ==> FilteredAt(evs, start, end, picked + extra, idx + extraIdx)
  {
    var n := |evs|;
    var init := evs[..n - 1];
    var all := idx + extraIdx;
    var r := picked + extra;
    forall k | 0 <= k < |all|
      ensures 0 <= all[k] < n && r[k] == evs[all[k]]
    {
      if k < |idx| {
        assert all[k] == idx[k] && r[k] == picked[k] && init[idx[k]] == evs[idx[k]];
      }
    }
    forall k, l | 0 <= k < l < |all|
      ensures all[k] < all[l]
    {
      if l >= |idx| {
        assert all[k] == idx[k] < n - 1;
      }
    }
    forall i | 0 <= i < n
      ensures Overlaps(evs[i], start, end) <==> i in all
    {
      if i < n - 1 {
        assert init[i] == evs[i];
        assert i !in extraIdx;
      } else {
        assert i !in idx;
      }
    }
  }

  /** `data.update(updates)` then `CalendarEvent(**data)`, starting from the event's dump. */
  function Merge(e: CalendarEvent, updates: map<string, FieldValue>): Result<CalendarEvent, string>
  {
    ParseEvent(DumpEvent(e) + updates)
  }

  /** An update succeeds exactly when every field it names has a value of the field's kind. */
  lemma MergeValidates(e: CalendarEvent, updates: map<string, FieldValue>)
    ensures Merge(e, updates).Ok? <==>
      && ("event_id" in updates ==> updates["event_id"].Str?)
      && ("title" in updates ==> updates["title"].Str?)
      && ("start_time" in updates ==> updates["start_time"].Instant?)
      && ("end_time" in updates ==> updates["end_time"].Instant?)
      && ("attendees" in updates ==> updates["attendees"].StrList?)
      && ("location" in updates ==> updates["location"].Null? || updates["location"].Str?)
  {
  }

  /** A successful update overrides the fields it names and keeps every other one. */
  lemma MergeKeepsOtherFields(e: CalendarEvent, updates: map<string, FieldValue>)
    requires Merge(e, updates).Ok?
    ensures var u := Merge(e, updates).value;
      && u.eventId == (if "event_id" in updates then updates["event_id"].s else e.eventId)
      && u.title == (if "title" in updates then updates["title"].s else e.title)
      && u.startTime == (if "start_time" in updates then updates["start_time"].t else e.startTime)
      && u.endTime == (if "end_time" in updates then updates["end_time"].t else e.endTime)
      && u.attendees == (if "attendees" in updates then updates["attendees"].items else e.attendees)
      && u.location == (if "location" in updates then (if updates["location"].Str? then Some(updates["location"].s) else None) else e.location)
  {
  }

  /** An empty update gives the event back. */
  lemma MergeNothing(e: CalendarEvent)
    ensures Merge(e, map[]) == Ok(e)
  {
    assert DumpEvent(e) + map[] == DumpEvent(e);
    ParseDumpEvent(e);
  }

  /** `_CALENDAR_EVENTS`: the ids in insertion order, and the events by id. */
  class CalendarTable {
    var order: seq<string>
    var events: map<string, CalendarEvent>

    /** `order` lists each stored id once. */
    ghost predicate Valid()
      reads this
    {
      && (forall i :: 0 <= i < |order| ==> order[i] in events)
      && (forall id :: id in events ==> id in order)
      && (forall i, j :: 0 <= i < j < |order| ==> order[i] != order[j])
    }

    constructor()
      ensures Valid() && order == [] && events == map[]
    {
      order := [];
      events := map[];
    }

    /** `_CALENDAR_EVENTS.values()`: the stored events in table order. */
    function Values(): (r: seq<CalendarEvent>)
      requires Valid()
      reads this
      ensures |r| == |order| && forall i :: 0 <= i < |order| ==> r[i] == events[order[i]]
    {
      seq(|order|, i requires 0 <= i < |order| && Valid() reads this => events[order[i]])
    }

    /**
     * `get_calendar_events(user_id, start_time, end_time)`: every stored event
     * overlapping the closed window, in table order. The answer does not depend on
     * the user, and the table is only read.
     */
    method GetCalendarEvents(userId: string, start: int, end: int) returns (results: seq<CalendarEvent>)
      requires Valid()
      ensures results == Overlapping(Values(), start, end)
    {
      results := [];
      var vals := Values();
      for k := 0 to |order|
        invariant results == Overlapping(vals[..k], start, end)
      {
        var event := events[order[k]];
        assert vals[..k + 1][..k] == vals[..k];
        if event.startTime <= end && event.endTime >= start {
          results := results + [event];
        }
      }
      assert vals[..|order|] == vals;
    }

    /** `create_calendar_event(payload)`: validate, then store under the event's id. */
    method CreateCalendarEvent(payload: map<string, FieldValue>) returns (r: Result<CalendarEvent, string>)
      requires Valid()
      modifies this
      ensures Valid()
      ensures r == ParseEvent(payload)
      ensures r.Ok? ==> events == old(events)[r.value.eventId := r.value]
      ensures r.Ok? ==> order == if r.value.eventId in old(events) then old(order) else old(order) + [r.value.eventId]
      ensures r.Err? ==> events == old(events) && order == old(order)
    {
      r := ParseEvent(payload);
      if r.Ok? {
        var id := r.value.eventId;
        if id !in events {
          order := order + [id];
        }
        events := events[id := r.value];
      }
    }

    /**
     * `update_calendar_event(event_id, updates)`: an unknown id is an error; the
     * merged event is validated and stored under the original id, whatever
     * `event_id` the updates carry.
     */
    method UpdateCalendarEvent(eventId: string, updates: map<string, FieldValue>) returns (r: Result<CalendarEvent, string>)
      requires Valid()
      modifies this
      ensures Valid() && order == old(order)
      ensures eventId !in old(events) ==> r == Err("Event " + eventId + " not found.") && events == old(events)
      ensures eventId in old(events) ==> r == Merge(old(events)[eventId], updates)
      ensures r.Ok? ==> events == old(events)[eventId := r.value]
      ensures r.Err? ==> events == old(events)
    {
      if eventId !in events {
        return Err("Event " + eventId + " not found.");
      }
      r := Merge(events[eventId], updates);
      if r.Ok? {
        events := events[eventId := r.value];
      }
    }
  }
}
