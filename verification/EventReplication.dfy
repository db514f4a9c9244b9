/** Runs of the event stream: one durable log, one server loop per connection, one browser client.

    Every interleaving of appends, snapshot reads, sends, deliveries, failed history requests,
    dropped connections and reconnects is a sequence of `Action`s. */
module EventReplication {
  import opened Collections
  import opened EventStream

  datatype Frame = Batch(events: seq<Event>) | Snapshot(last: nat)

  // ---------------------------------------------------------------------------------
  // The two ends

  /** The variables of `useRun` for one page: the visible events, the cursor, the buffered events. */
  datatype Client = Client(view: seq<Event>, cursor: nat, pending: seq<Event>)

  /** `socket.onmessage`. */
  function Receive(client: Client, frame: Frame): Client {
    match frame
    case Batch(events) => client.(pending := Merged(client.pending, events, MAX_SAFE_INTEGER))
    case Snapshot(last) =>
      if last < client.cursor then client
      else Client(Merged(client.view, AtMost(client.pending, last), last), last, Above(client.pending, last))
  }

  /** The events endpoint: those after a cursor, at most `limit` of them. */
  function EventsAfter(log: seq<Event>, after: nat): seq<Event> { if after <= |log| then log[after..] else [] }

  function FirstOf(k: nat, events: seq<Event>): seq<Event> { if |events| <= k then events else events[..k] }

  /** The view after the history request answered (or failed: `history` is then empty). */
  function Opened(history: seq<Event>, last: nat): Client { Client(Merged([], history, last), last, []) }

  function HistoryStart(last: nat): nat { if last < VIEW then 0 else last - VIEW }

  /** One client page, with its socket's variables as fields. */
  class RunView {
    var view: seq<Event>
    var cursor: nat
    const pending: EventBuffer

    ghost function Value(): Client
      reads this, pending
    {
      Client(view, cursor, pending.pending)
    }

    constructor (history: seq<Event>, last: nat)
      ensures Value() == Opened(history, last) && fresh(pending)
    {
      pending := new EventBuffer();
      cursor := last;
      new;
      view := MergeEvents([], history, last);
    }

    method OnMessage(frame: Frame)
      modifies this, pending
      ensures Value() == Receive(old(Value()), frame)
    {
      match frame {
        case Batch(events) =>
          pending.Add(events);
        case Snapshot(last) =>
          if last >= cursor {
            cursor := last;
            var batch := pending.Take(cursor);
            view := MergeEvents(view, batch, cursor);
          }
      }
    }
  }

  /** The frames of one round of `send_updates`: the snapshot was read first and bounds the events read later. */
  function Round(log: seq<Event>, cursor: nat, last: nat): seq<Frame> {
    var batch := AtMost(EventsAfter(log, cursor), last);
    (if batch == [] then [] else [Batch(batch)]) + [Snapshot(last)]
  }

  /** `send_updates`, one round at a time. */
  class UpdateSender {
    var cursor: nat

    constructor (after: nat)
      ensures cursor == after
    {
      cursor := after;
    }

    /** `last` is the sequence of the snapshot; `log` is the log when the events are read afterwards. */
    method SendUpdate(last: nat, log: seq<Event>) returns (frames: seq<Frame>, closed: bool)
      modifies this
      ensures closed <==> old(cursor) > last
      ensures closed ==> frames == [] && cursor == old(cursor)
      ensures !closed ==> frames == Round(log, old(cursor), last) && cursor == last
    {
      if cursor > last {
        return [], true;
      }
      var batch := AtMost(EventsAfter(log, cursor), last);
      frames := [];
      if batch != [] {
        frames := frames + [Batch(batch)];
      }
      frames := frames + [Snapshot(last)];
      cursor := last;
      closed := false;
    }
  }

  // ---------------------------------------------------------------------------------
  // Runs

  datatype Link =
    | Down
    | Loading(last: nat)
    | Up(server: nat, reading: Option<nat>, wire: seq<Frame>)

  /** `base` remembers where the visible history begins: 0, or the cursor at which a history request failed. */
  datatype State = State(log: seq<Event>, link: Link, client: Client, base: nat)

  datatype Action =
    | Append(body: string)
    | FetchSnapshot
    | LoadHistory
    | FailHistory
    | ReadSnapshot
    | Send
    | Deliver
    | Disconnect

  const START := State([], Down, Client([], 0, []), 0)

  function Next(s: State, a: Action): State {
    match a
    case Append(body) =>
      if |s.log| < MAX_SAFE_INTEGER then s.(log := s.log + [Event(|s.log| + 1, body)]) else s
    case FetchSnapshot =>
      if s.link.Down? then s.(link := Loading(|s.log|)) else s
    case LoadHistory =>
      if !s.link.Loading? then s
      else
        var history := FirstOf(VIEW, EventsAfter(s.log, HistoryStart(s.link.last)));
        State(s.log, Up(s.link.last, None, []), Opened(history, s.link.last), 0)
    case FailHistory =>
      if !s.link.Loading? then s
      else State(s.log, Up(s.link.last, None, []), Opened([], s.link.last), s.link.last)
    case ReadSnapshot =>
      if !s.link.Up? || s.link.reading.Some? then s
      else if s.link.server > |s.log| then s.(link := Down)
      else s.(link := s.link.(reading := Some(|s.log|)))
    case Send =>
      if !s.link.Up? || s.link.reading.None? then s
      else
        var last := s.link.reading.value;
        s.(link := Up(last, None, s.link.wire + Round(s.log, s.link.server, last)))
    case Deliver =>
      if !s.link.Up? || s.link.wire == [] then s
      else s.(link := s.link.(wire := s.link.wire[1..]), client := Receive(s.client, s.link.wire[0]))
    case Disconnect =>
      s.(link := Down)
  }

  function Run(actions: seq<Action>): State {
    if actions == [] then START else Next(Run(actions[..|actions| - 1]), actions[|actions| - 1])
  }

  // ---------------------------------------------------------------------------------
  // Invariant

  /** The newest 200 events of a stretch of the log. */
  ghost function Window(log: seq<Event>, low: nat, high: nat): seq<Event>
    requires low <= high <= |log|
  {
    Last(VIEW, log[low..high])
  }

  /** The frames in flight continue the log from `frontier`, the last event received, to the server's cursor. */
  ghost predicate Continues(log: seq<Event>, frontier: nat, wire: seq<Frame>, server: nat)
    decreases |wire|
  {
    if wire == [] then frontier == server
    else match wire[0]
      case Batch(events) =>
        && |wire| > 1 && wire[1].Snapshot? && frontier < wire[1].last <= |log|
        && events == log[frontier..wire[1].last]
        && Continues(log, wire[1].last, wire[1..], server)
      case Snapshot(last) => last == frontier && Continues(log, frontier, wire[1..], server)
  }

  ghost predicate ClientAt(log: seq<Event>, client: Client, base: nat, frontier: nat) {
    && base <= client.cursor <= frontier <= |log|
    && client.view == Window(log, base, client.cursor)
    && client.pending == Window(log, client.cursor, frontier)
  }

  ghost predicate Linked(s: State, frontier: nat) {
    && s.link.Up?
    && ClientAt(s.log, s.client, s.base, frontier)
    && frontier <= s.link.server <= |s.log|
    && Continues(s.log, frontier, s.link.wire, s.link.server)
    && (s.link.reading.Some? ==> s.link.server <= s.link.reading.value <= |s.log|)
    && Shown(s.link.wire, s.client.cursor, frontier)
  }

  /** Unless a snapshot comes next, everything received has been shown. */
  ghost predicate Shown(wire: seq<Frame>, cursor: nat, frontier: nat) {
    wire == [] || wire[0].Batch? ==> cursor == frontier
  }

  ghost predicate Inv(s: State) {
    && WellNumbered(s.log) && |s.log| <= MAX_SAFE_INTEGER
    && (s.link.Loading? ==> s.link.last <= |s.log|)
    && (s.link.Up? ==> exists frontier :: Linked(s, frontier))
  }

  lemma StretchAscends(log: seq<Event>, low: nat, high: nat)
    requires WellNumbered(log) && low <= high <= |log|
    ensures Ascending(log[low..high])
    ensures forall e :: e in log[low..high] ==> low < e.sequence <= high
  {
  }

  lemma {:induction false} Stretch(log: seq<Event>, low: nat, high: nat, cursor: nat)
    requires WellNumbered(log) && low <= cursor <= high <= |log|
    ensures AtMost(log[low..high], cursor) == log[low..cursor]
    decreases high
  {
    if cursor < high {
      var all := log[low..high];
      assert all[..|all| - 1] == log[low..high - 1];
      assert all[|all| - 1] == log[high - 1] && log[high - 1].sequence > cursor;
      Stretch(log, low, high - 1, cursor);
      assert AtMost(all, cursor) == AtMost(log[low..high - 1], cursor);
    } else {
      StretchAscends(log, low, high);
      AllAtMost(log[low..high], cursor);
    }
  }

  lemma WindowOfWindows(log: seq<Event>, low: nat, mid: nat, high: nat)
    requires low <= mid <= high <= |log|
    ensures Last(VIEW, Window(log, low, mid) + Window(log, mid, high)) == Window(log, low, high)
  {
    LastOfParts(log[low..mid], log[mid..high]);
    assert log[low..mid] + log[mid..high] == log[low..high];
  }

  lemma WindowAscends(log: seq<Event>, low: nat, mid: nat, high: nat)
    requires WellNumbered(log) && low <= mid <= high <= |log|
    ensures Ascending(Window(log, low, mid) + Window(log, mid, high))
    ensures forall e :: e in Window(log, mid, high) ==> mid < e.sequence <= high
  {
    StretchAscends(log, low, mid);
    StretchAscends(log, mid, high);
  }

  /** A merge over adjoining stretches of the log shows the newest 200 of both. */
  lemma MergeWindows(log: seq<Event>, low: nat, mid: nat, high: nat, cursor: nat)
    requires WellNumbered(log) && low <= mid <= high <= |log| && high <= cursor
    ensures Merged(Window(log, low, mid), Window(log, mid, high), cursor) == Window(log, low, high)
  {
    WindowAscends(log, low, mid, high);
    MergeAppends(Window(log, low, mid), Window(log, mid, high), cursor);
    WindowOfWindows(log, low, mid, high);
  }

  lemma HistoryStretch(log: seq<Event>, last: nat)
    requires WellNumbered(log) && last <= |log|
    ensures var start := HistoryStart(last);
      && AtMost(FirstOf(VIEW, EventsAfter(log, start)), last) == log[start..last]
      && Last(VIEW, log[start..last]) == Window(log, 0, last)
  {
    var start := HistoryStart(last);
    var history := FirstOf(VIEW, EventsAfter(log, start));
    var end := start + |history|;
    assert history == log[start..end];
    Stretch(log, start, end, last);
  }

  /** The history endpoint returns exactly the window that ends at the snapshot, though the log may have grown. */
  lemma HistoryIsWindow(log: seq<Event>, last: nat)
    requires WellNumbered(log) && last <= |log|
    ensures Opened(FirstOf(VIEW, EventsAfter(log, HistoryStart(last))), last).view == Window(log, 0, last)
  {
    var start := HistoryStart(last);
    var history := FirstOf(VIEW, EventsAfter(log, start));
    var kept := log[start..last];
    HistoryStretch(log, last);
    StretchAscends(log, start, last);
    AllAtMost(kept, last);
    assert Merged([], history, last) == Merged([], kept, last);
    assert [] + kept == kept;
    MergeAppends([], kept, last);
  }

  lemma BufferGrows(log: seq<Event>, low: nat, mid: nat, high: nat)
    requires WellNumbered(log) && low <= mid <= high <= |log| <= MAX_SAFE_INTEGER
    ensures Merged(Window(log, low, mid), log[mid..high], MAX_SAFE_INTEGER) == Window(log, low, high)
  {
    assert log[low..mid] + log[mid..high] == log[low..high];
    StretchAscends(log, low, high);
    StretchAscends(log, mid, high);
    LastOfBuffered(log[low..mid], log[mid..high]);
    MergeAppends(Window(log, low, mid), log[mid..high], MAX_SAFE_INTEGER);
  }

  lemma ReceiveBatch(log: seq<Event>, client: Client, base: nat, frontier: nat, high: nat)
    requires WellNumbered(log) && |log| <= MAX_SAFE_INTEGER
    requires ClientAt(log, client, base, frontier) && frontier < high <= |log|
    ensures ClientAt(log, Receive(client, Batch(log[frontier..high])), base, high)
  {
    BufferGrows(log, client.cursor, frontier, high);
  }

  lemma ReceiveSnapshot(log: seq<Event>, client: Client, base: nat, frontier: nat)
    requires WellNumbered(log) && ClientAt(log, client, base, frontier)
    ensures ClientAt(log, Receive(client, Snapshot(frontier)), base, frontier)
    ensures Receive(client, Snapshot(frontier)).cursor == frontier
  {
    WindowAscends(log, base, client.cursor, frontier);
    AllAtMost(client.pending, frontier);
    MergeWindows(log, base, client.cursor, frontier, frontier);
  }

  lemma {:induction false} ContinuesLonger(log: seq<Event>, more: seq<Event>, frontier: nat, wire: seq<Frame>, server: nat)
    requires log <= more && Continues(log, frontier, wire, server) && frontier <= |log|
    ensures Continues(more, frontier, wire, server)
    decreases |wire|
  {
    if wire != [] {
      ContinuesLonger(log, more, if wire[0].Batch? then wire[1].last else frontier, wire[1..], server);
      if wire[0].Batch? {
        assert log[frontier..wire[1].last] == more[frontier..wire[1].last];
      }
    }
  }

  lemma RoundContinues(log: seq<Event>, server: nat, last: nat)
    requires WellNumbered(log) && server <= last <= |log|
    ensures Continues(log, server, Round(log, server, last), last)
  {
    Stretch(log, server, |log|, last);
    assert log[server..|log|] == EventsAfter(log, server);
    var round := Round(log, server, last);
    if server < last {
      assert round == [Batch(log[server..last]), Snapshot(last)];
      assert round[1..] == [Snapshot(last)];
      assert round[1..][1..] == [];
    } else {
      assert round == [Snapshot(last)];
      assert round[1..] == [];
    }
  }

  lemma {:induction false} ContinuesAppended(log: seq<Event>, frontier: nat, wire: seq<Frame>, server: nat,
                                             more: seq<Frame>, last: nat)
    requires Continues(log, frontier, wire, server) && Continues(log, server, more, last)
    ensures Continues(log, frontier, wire + more, last)
    decreases |wire|
  {
    if wire == [] {
      assert wire + more == more;
    } else {
      ContinuesAppended(log, if wire[0].Batch? then wire[1].last else frontier, wire[1..], server, more, last);
      assert (wire + more)[1..] == wire[1..] + more;
    }
  }

  lemma {:induction false} FrontierBelowServer(log: seq<Event>, frontier: nat, wire: seq<Frame>, server: nat)
    requires Continues(log, frontier, wire, server)
    ensures frontier <= server
    decreases |wire|
  {
    if wire != [] {
      FrontierBelowServer(log, if wire[0].Batch? then wire[1].last else frontier, wire[1..], server);
    }
  }

  lemma WindowLonger(log: seq<Event>, more: seq<Event>, low: nat, high: nat)
    requires log <= more && low <= high <= |log|
    ensures Window(log, low, high) == Window(more, low, high)
  {
    assert log[low..high] == more[low..high];
  }

  lemma AppendKeepsInv(s: State, body: string)
    requires Inv(s)
    ensures Inv(Next(s, Append(body)))
  {
    var t := Next(s, Append(body));
    if s.link.Up? {
      var frontier :| Linked(s, frontier);
      ContinuesLonger(s.log, t.log, frontier, s.link.wire, s.link.server);
      WindowLonger(s.log, t.log, s.base, s.client.cursor);
      WindowLonger(s.log, t.log, s.client.cursor, frontier);
      assert Linked(t, frontier);
    }
  }

  lemma DeliverKeepsInv(s: State)
    requires Inv(s)
    ensures Inv(Next(s, Deliver))
  {
    if s.link.Up? && s.link.wire != [] {
      var frontier :| Linked(s, frontier);
      var wire := s.link.wire;
      match wire[0] {
        case Batch(events) =>
          ReceiveBatch(s.log, s.client, s.base, frontier, wire[1].last);
          FrontierBelowServer(s.log, wire[1].last, wire[1..], s.link.server);
          assert Linked(Next(s, Deliver), wire[1].last);
        case Snapshot(last) =>
          ReceiveSnapshot(s.log, s.client, s.base, frontier);
          assert Linked(Next(s, Deliver), frontier);
      }
    }
  }

  lemma NextKeepsInv(s: State, a: Action)
    requires Inv(s)
    ensures Inv(Next(s, a))
  {
    match a {
      case Append(body) => AppendKeepsInv(s, body);
      case FetchSnapshot =>
      case LoadHistory =>
        if s.link.Loading? {
          HistoryIsWindow(s.log, s.link.last);
          assert Linked(Next(s, a), s.link.last);
        }
      case FailHistory =>
        if s.link.Loading? {
          AllAtMost([], s.link.last);
          MergeAppends([], [], s.link.last);
          assert Linked(Next(s, a), s.link.last);
        }
      case ReadSnapshot =>
        if s.link.Up? {
          var frontier :| Linked(s, frontier);
          assert Next(s, a).link.Up? ==> Linked(Next(s, a), frontier);
        }
      case Send =>
        if s.link.Up? && s.link.reading.Some? {
          var frontier :| Linked(s, frontier);
          RoundContinues(s.log, s.link.server, s.link.reading.value);
          ContinuesAppended(s.log, frontier, s.link.wire, s.link.server,
                            Round(s.log, s.link.server, s.link.reading.value), s.link.reading.value);
          assert Linked(Next(s, a), frontier);
        }
      case Deliver => DeliverKeepsInv(s);
      case Disconnect =>
    }
  }

  lemma {:induction false} RunKeepsInv(actions: seq<Action>)
    ensures Inv(Run(actions))
  {
    if actions != [] {
      RunKeepsInv(actions[..|actions| - 1]);
      NextKeepsInv(Run(actions[..|actions| - 1]), actions[|actions| - 1]);
    }
  }

  // ---------------------------------------------------------------------------------
  // Results

  /** In every run, a connected client shows exactly the newest 200 events between its base and its cursor:
      contiguous, in order, without gap or duplicate.  Its base is 0 unless its history request failed. */
  lemma ViewIsWindow(actions: seq<Action>)
    ensures var s := Run(actions);
      s.link.Up? ==>
        && s.base <= s.client.cursor <= |s.log|
        && s.client.view == Last(200, s.log[s.base..s.client.cursor])
  {
    RunKeepsInv(actions);
  }

  lemma SnapshotMovesCursor(client: Client, last: nat)
    requires client.cursor <= last
    ensures Receive(client, Snapshot(last)).cursor == last
  {
  }

  lemma SnapshotAtFrontier(s: State, frontier: nat)
    requires Linked(s, frontier) && s.link.wire != [] && s.link.wire[0].Snapshot?
    ensures s.link.wire[0].last == frontier >= s.client.cursor
  {
  }

  lemma DeliveredSnapshot(s: State)
    requires Inv(s) && s.link.Up? && s.link.wire != [] && s.link.wire[0].Snapshot?
    ensures Next(s, Deliver).client.cursor == s.link.wire[0].last >= s.client.cursor
  {
    var frontier :| Linked(s, frontier);
    SnapshotAtFrontier(s, frontier);
    SnapshotMovesCursor(s.client, frontier);
  }

  lemma RunNext(actions: seq<Action>, a: Action)
    ensures Run(actions + [a]) == Next(Run(actions), a)
  {
    assert (actions + [a])[..|actions|] == actions;
  }

  /** A snapshot frame brings the cursor to the snapshot's sequence. */
  lemma SnapshotAdvances(actions: seq<Action>)
    ensures var s, t := Run(actions), Run(actions + [Deliver]);
      s.link.Up? && s.link.wire != [] && s.link.wire[0].Snapshot? ==>
        t.client.cursor == s.link.wire[0].last >= s.client.cursor
  {
    RunKeepsInv(actions);
    RunNext(actions, Deliver);
    var s := Run(actions);
    if s.link.Up? && s.link.wire != [] && s.link.wire[0].Snapshot? {
      DeliveredSnapshot(s);
    }
  }

  /** Once everything sent has arrived and the server has caught up, the client shows the newest events of the log. */
  lemma CaughtUp(actions: seq<Action>)
    ensures var s := Run(actions);
      s.link.Up? && s.link.wire == [] && s.link.server == |s.log| ==>
        s.base <= |s.log| && s.client.view == Last(200, s.log[s.base..]) && s.client.pending == []
  {
    RunKeepsInv(actions);
    var s := Run(actions);
    if s.link.Up? && s.link.wire == [] && s.link.server == |s.log| {
      var frontier :| Linked(s, frontier);
      assert frontier == |s.log|;
      assert s.client.cursor == frontier;
      assert s.log[s.base..] == s.log[s.base..s.client.cursor];
    }
  }

  /** The server never has to refuse a cursor: a client is never ahead of the log. */
  lemma CursorNeverRefused(actions: seq<Action>)
    ensures var s := Run(actions);
      s.link.Up? && s.link.reading.None? ==> Next(s, ReadSnapshot).link.Up?
  {
    RunKeepsInv(actions);
  }

  lemma TwoSteps(actions: seq<Action>, a: Action, b: Action, s: State)
    requires s == Run(actions)
    ensures Run(actions + [a, b]) == Next(Next(s, a), b)
  {
    RunNext(actions, a);
    RunNext(actions + [a], b);
    assert actions + [a] + [b] == actions + [a, b];
  }

  lemma FourSteps(actions: seq<Action>, a: Action, b: Action, c: Action, d: Action, s: State)
    requires s == Run(actions)
    ensures Run(actions + [a, b, c, d]) == Next(Next(Next(Next(s, a), b), c), d)
  {
    TwoSteps(actions, a, b, s);
    var t := Next(Next(s, a), b);
    TwoSteps(actions + [a, b], c, d, t);
    assert actions + [a, b] + [c, d] == actions + [a, b, c, d];
  }

  /** One round of the server is enough: whatever happened before, an idle connection shows the newest events of the
      log as soon as the frames of the next round have arrived. */
  lemma RoundCatchesUp(actions: seq<Action>)
    requires var s := Run(actions); s.link.Up? && s.link.wire == [] && s.link.reading.None?
    ensures var s, t := Run(actions), Run(actions + [ReadSnapshot, Send, Deliver, Deliver]);
      && t.log == s.log && t.base == s.base && t.link.Up? && t.link.wire == []
      && t.client.cursor == |s.log| && s.base <= |s.log| && t.client.view == Last(200, s.log[s.base..]) && t.client.pending == []
  {
    var s := Run(actions);
    CursorNeverRefused(actions);
    FourSteps(actions, ReadSnapshot, Send, Deliver, Deliver, s);
    RoundSent(s);
    CaughtUp(actions + [ReadSnapshot, Send, Deliver, Deliver]);
    CursorCaughtUp(actions + [ReadSnapshot, Send, Deliver, Deliver]);
  }

  lemma RoundSent(s: State)
    requires s.link.Up? && s.link.wire == [] && s.link.reading.None? && Next(s, ReadSnapshot).link.Up?
    ensures var t := Next(Next(Next(Next(s, ReadSnapshot), Send), Deliver), Deliver);
      t.log == s.log && t.base == s.base && t.link.Up? && t.link.wire == [] && t.link.server == |s.log|
  {
  }

  lemma CursorCaughtUp(actions: seq<Action>)
    requires var s := Run(actions); s.link.Up? && s.link.wire == [] && s.link.server == |s.log|
    ensures Run(actions).client.cursor == |Run(actions).log|
  {
    RunKeepsInv(actions);
    var s := Run(actions);
    var frontier :| Linked(s, frontier);
  }
}
