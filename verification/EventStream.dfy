/** The live event stream: the server loop `send_updates` (src/orqalis/api/app.py) and the
    client's `mergeEvents`, `EventBuffer` and frame handling (web/src/api.ts).

    The durable log is append-only and numbers its events 1, 2, 3, ... .  Server and client
    run concurrently with appends, lost connections and failed history requests. */
module EventStream {
  datatype Event = Event(sequence: nat, body: string)

  ghost predicate WellNumbered(log: seq<Event>) {
    forall i :: 0 <= i < |log| ==> log[i].sequence == i + 1
  }

  /** The largest sequence number a JavaScript client can order exactly. */
  const MAX_SAFE_INTEGER: nat := 9_007_199_254_740_991

  const VIEW := 200

  function Last(k: nat, s: seq<Event>): seq<Event> { if |s| <= k then s else s[|s| - k..] }

  // ---------------------------------------------------------------------------------
  // mergeEvents

  type Table = map<nat, Event>

  function PutAll(table: Table, events: seq<Event>): Table {
    if events == [] then table
    else PutAll(table, events[..|events| - 1])[events[|events| - 1].sequence := events[|events| - 1]]
  }

  function AtMost(events: seq<Event>, cursor: nat): seq<Event> {
    if events == [] then []
    else AtMost(events[..|events| - 1], cursor) +
         if events[|events| - 1].sequence <= cursor then [events[|events| - 1]] else []
  }

  function Above(events: seq<Event>, cursor: nat): seq<Event> {
    if events == [] then []
    else Above(events[..|events| - 1], cursor) +
         if events[|events| - 1].sequence > cursor then [events[|events| - 1]] else []
  }

  /** The values of the table with keys below `top`, in ascending order of key. */
  function Listing(table: Table, top: nat): seq<Event> {
    if top == 0 then [] else Listing(table, top - 1) + if top - 1 in table then [table[top - 1]] else []
  }

  function Top(events: seq<Event>): (top: nat)
    ensures forall e :: e in events ==> e.sequence < top
  {
    if events == [] then 0
    else
      var rest := Top(events[..|events| - 1]);
      if events[|events| - 1].sequence < rest then rest else events[|events| - 1].sequence + 1
  }

  /** The unique events of both lists, the incoming ones up to the cursor taking precedence, newest 200 in order. */
  function Merged(current: seq<Event>, incoming: seq<Event>, cursor: nat): seq<Event> {
    var table := PutAll(PutAll(map[], current), AtMost(incoming, cursor));
    Last(VIEW, Listing(table, Top(current + AtMost(incoming, cursor))))
  }

  ghost predicate Ascending(events: seq<Event>) {
    forall i, j :: 0 <= i < j < |events| ==> events[i].sequence < events[j].sequence
  }

  ghost predicate Keyed(table: Table) {
    forall n :: n in table ==> table[n].sequence == n
  }

  /** A listing is ascending, so no sequence number occurs twice in it, and holds exactly the table's values. */
  lemma {:induction false} ListingAscends(table: Table, top: nat)
    requires Keyed(table)
    ensures Ascending(Listing(table, top))
    ensures forall e :: e in Listing(table, top) <==> e.sequence < top && e.sequence in table && table[e.sequence] == e
  {
    if top > 0 {
      ListingAscends(table, top - 1);
      var before := Listing(table, top - 1);
      assert forall i :: 0 <= i < |before| ==> before[i] in before;
    }
  }

  lemma {:induction false} PutAllKeyed(table: Table, events: seq<Event>)
    requires Keyed(table)
    ensures Keyed(PutAll(table, events))
    ensures forall n :: n in PutAll(table, events) <==> n in table || exists e :: e in events && e.sequence == n
  {
    if events != [] {
      PutAllKeyed(table, events[..|events| - 1]);
      assert events == events[..|events| - 1] + [events[|events| - 1]];
    }
  }

  /** Whatever the two lists hold, a merge is ascending, duplicate-free and at most 200 long. */
  lemma MergeAscends(current: seq<Event>, incoming: seq<Event>, cursor: nat)
    ensures Ascending(Merged(current, incoming, cursor)) && |Merged(current, incoming, cursor)| <= VIEW
  {
    PutAllKeyed(map[], current);
    PutAllKeyed(PutAll(map[], current), AtMost(incoming, cursor));
    ListingAscends(PutAll(PutAll(map[], current), AtMost(incoming, cursor)), Top(current + AtMost(incoming, cursor)));
  }

  lemma {:induction false} PutAllAppended(table: Table, a: seq<Event>, b: seq<Event>)
    ensures PutAll(PutAll(table, a), b) == PutAll(table, a + b)
  {
    if b == [] {
      assert a + b == a;
    } else {
      PutAllAppended(table, a, b[..|b| - 1]);
      assert (a + b)[..|a + b| - 1] == a + b[..|b| - 1];
    }
  }

  lemma {:induction false} ListingBelow(table: Table, more: Table, top: nat)
    requires forall n :: n < top ==> (n in table <==> n in more) && (n in table ==> table[n] == more[n])
    ensures Listing(table, top) == Listing(more, top)
  {
    if top > 0 {
      ListingBelow(table, more, top - 1);
    }
  }

  lemma {:induction false} ListingGap(table: Table, low: nat, high: nat)
    requires low <= high && forall n :: low <= n < high ==> n !in table
    ensures Listing(table, high) == Listing(table, low)
  {
    if low < high {
      ListingGap(table, low, high - 1);
    }
  }

  lemma NoneAfterLast(front: seq<Event>, last: Event)
    requires Ascending(front + [last])
    ensures Ascending(front) && forall e :: e in front ==> e.sequence < last.sequence
    ensures forall n :: n in PutAll(map[], front) ==> n < last.sequence
  {
    var all := front + [last];
    forall e | e in front
      ensures e.sequence < last.sequence
    {
      var i :| 0 <= i < |front| && front[i] == e;
      assert all[i].sequence < all[|front|].sequence;
    }
    assert forall i :: 0 <= i < |front| ==> front[i] == all[i];
    PutAllKeyed(map[], front);
  }

  /** Tabulating an ascending list and listing it again gives the list back. */
  lemma {:induction false} ListingOfAscending(events: seq<Event>, top: nat)
    requires Ascending(events) && forall e :: e in events ==> e.sequence < top
    ensures Listing(PutAll(map[], events), top) == events
  {
    var table := PutAll(map[], events);
    if events == [] {
      ListingGap(table, 0, top);
    } else {
      var front, last := events[..|events| - 1], events[|events| - 1];
      assert front + [last] == events;
      var before := PutAll(map[], front);
      assert table == before[last.sequence := last];
      NoneAfterLast(front, last);
      ListingOfAscending(front, last.sequence);
      ListingBelow(before, table, last.sequence);
      ListingGap(table, last.sequence + 1, top);
    }
  }

  lemma {:induction false} AllAtMost(events: seq<Event>, cursor: nat)
    requires forall e :: e in events ==> e.sequence <= cursor
    ensures AtMost(events, cursor) == events && Above(events, cursor) == []
  {
    if events != [] {
      AllAtMost(events[..|events| - 1], cursor);
    }
  }

  /** Merging a later batch below the cursor appends it and keeps the newest 200. */
  lemma MergeAppends(current: seq<Event>, incoming: seq<Event>, cursor: nat)
    requires Ascending(current + incoming) && forall e :: e in incoming ==> e.sequence <= cursor
    ensures Merged(current, incoming, cursor) == Last(VIEW, current + incoming)
  {
    AllAtMost(incoming, cursor);
    PutAllAppended(map[], current, incoming);
    ListingOfAscending(current + incoming, Top(current + incoming));
  }

  /** Dropping old events early does not matter: the newest of the newest are the newest. */
  lemma LastOfParts(a: seq<Event>, b: seq<Event>)
    ensures Last(VIEW, Last(VIEW, a) + Last(VIEW, b)) == Last(VIEW, a + b)
  {
  }

  /** The same when only the older part was cut down already, as in a buffer. */
  lemma LastOfBuffered(a: seq<Event>, b: seq<Event>)
    requires Ascending(a + b)
    ensures Last(VIEW, Last(VIEW, a) + b) == Last(VIEW, a + b)
    ensures Ascending(Last(VIEW, a) + b)
  {
    var cut := if |a| <= VIEW then 0 else |a| - VIEW;
    assert Last(VIEW, a) + b == (a + b)[cut..];
  }

  lemma AtMostGrows(events: seq<Event>, i: nat, cursor: nat)
    requires i < |events|
    ensures AtMost(events[..i + 1], cursor)
         == AtMost(events[..i], cursor) + if events[i].sequence <= cursor then [events[i]] else []
  {
    assert events[..i + 1][..i] == events[..i];
  }

  lemma OneMore(table: Table, known: seq<Event>, taken: seq<Event>, event: Event)
    ensures PutAll(table, taken + [event]) == PutAll(table, taken)[event.sequence := event]
    ensures Top(known + (taken + [event])) ==
      if event.sequence < Top(known + taken) then Top(known + taken) else event.sequence + 1
  {
    assert (taken + [event])[..|taken|] == taken;
    assert (known + (taken + [event]))[..|known + taken|] == known + taken;
  }

  /** `mergeEvents`. */
  method MergeEvents(current: seq<Event>, incoming: seq<Event>, cursor: nat) returns (merged: seq<Event>)
    ensures merged == Merged(current, incoming, cursor)
  {
    var unique := PutAll(map[], current);
    var top := Top(current);
    assert current + [] == current;
    ghost var taken: seq<Event> := [];
    for i := 0 to |incoming|
      invariant taken == AtMost(incoming[..i], cursor)
      invariant unique == PutAll(PutAll(map[], current), taken)
      invariant top == Top(current + taken)
    {
      var event := incoming[i];
      AtMostGrows(incoming, i, cursor);
      if event.sequence <= cursor {
        OneMore(PutAll(map[], current), current, taken, event);
        unique := unique[event.sequence := event];
        top := if event.sequence < top then top else event.sequence + 1;
        taken := taken + [event];
      }
    }
    assert incoming[..|incoming|] == incoming;
    merged := Last(VIEW, Listing(unique, top));
  }

  lemma {:induction false} SplitContents(events: seq<Event>, cursor: nat)
    ensures forall e :: e in AtMost(events, cursor) <==> e in events && e.sequence <= cursor
    ensures forall e :: e in Above(events, cursor) <==> e in events && e.sequence > cursor
  {
    if events != [] {
      SplitContents(events[..|events| - 1], cursor);
      assert events == events[..|events| - 1] + [events[|events| - 1]];
    }
  }

  /** Splitting an ascending list at a cursor cuts it in two. */
  lemma {:induction false} SplitAscending(events: seq<Event>, cursor: nat)
    requires Ascending(events)
    ensures AtMost(events, cursor) + Above(events, cursor) == events
  {
    if events != [] {
      var front, last := events[..|events| - 1], events[|events| - 1];
      assert events == front + [last];
      if last.sequence <= cursor {
        AllAtMost(events, cursor);
      } else {
        SplitAscending(front, cursor);
      }
    }
  }

  /** Events received but not yet covered by a snapshot. */
  class EventBuffer {
    var pending: seq<Event>

    constructor ()
      ensures pending == []
    {
      pending := [];
    }

    method Add(batch: seq<Event>)
      modifies this
      ensures pending == Merged(old(pending), batch, MAX_SAFE_INTEGER)
    {
      pending := MergeEvents(pending, batch, MAX_SAFE_INTEGER);
    }

    method Take(cursor: nat) returns (accepted: seq<Event>)
      modifies this
      ensures accepted == AtMost(old(pending), cursor)
      ensures pending == Above(old(pending), cursor)
      ensures forall e :: e in accepted ==> e.sequence <= cursor
      ensures forall e :: e in pending ==> e.sequence > cursor
      ensures Ascending(old(pending)) ==> accepted + pending == old(pending)
    {
      SplitContents(pending, cursor);
      if Ascending(pending) {
        SplitAscending(pending, cursor);
      }
      accepted := AtMost(pending, cursor);
      pending := Above(pending, cursor);
    }
  }
}
