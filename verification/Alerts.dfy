/** The alert aggregator: events of one key are collected in a bucket and sent in batches that keep a cooldown apart. */
module Alerts {
  import opened Spacing

  /** The zero time: a bucket that was never sent. */
  const ZERO_TIME: int := 0
  const DEFAULT_COOLDOWN: int := 300_000_000_000

  datatype Event = Event(key: string, at: int, detail: string)

  /** What is handed to send: the bucket's latest event, the number of events, and the first and last time. */
  datatype Alert = Alert(key: string, event: Event, count: nat, first: int, last: int)

  // ------------------------------------------------- one key, as a history

  /** A batch of events that was sent, with the time that lastSent was set to. */
  datatype Batch = Batch(events: seq<Event>, at: int)

  /** The events waiting, the time of the latest batch, and all batches. */
  datatype Line = Line(pending: seq<Event>, lastSent: int, batches: seq<Batch>)

  const EMPTY_LINE := Line([], ZERO_TIME, [])

  datatype Op = Record(ev: Event) | Flush(now: int)

  predicate Due(line: Line, now: int, cooldown: int) {
    line.lastSent == ZERO_TIME || now - line.lastSent >= cooldown
  }

  function SendAt(line: Line, now: int): Line {
    Line([], now, line.batches + [Batch(line.pending, now)])
  }

  function RecordOn(line: Line, ev: Event, cooldown: int): Line {
    var grown := line.(pending := line.pending + [ev]);
    if Due(line, ev.at, cooldown) then SendAt(grown, ev.at) else grown
  }

  function FlushOn(line: Line, now: int, cooldown: int): Line {
    if line.pending != [] && Due(line, now, cooldown) then SendAt(line, now) else line
  }

  /** The line of a key after a run of record and flushDue. */
  function LineOf(ops: seq<Op>, key: string, cooldown: int): Line {
    if ops == [] then EMPTY_LINE
    else
      var line := LineOf(ops[..|ops| - 1], key, cooldown);
      match ops[|ops| - 1]
      case Record(ev) => if ev.key == key then RecordOn(line, ev, cooldown) else line
      case Flush(now) => FlushOn(line, now, cooldown)
  }

  function RecordedOf(ops: seq<Op>, key: string): seq<Event> {
    if ops == [] then []
    else
      var before := RecordedOf(ops[..|ops| - 1], key);
      match ops[|ops| - 1]
      case Record(ev) => if ev.key == key then before + [ev] else before
      case Flush(_) => before
  }

  function EventsIn(batches: seq<Batch>): seq<Event> {
    if batches == [] then [] else EventsIn(batches[..|batches| - 1]) + batches[|batches| - 1].events
  }

  function TimesIn(batches: seq<Batch>): seq<int> {
    if batches == [] then [] else TimesIn(batches[..|batches| - 1]) + [batches[|batches| - 1].at]
  }

  lemma PushBatch(batches: seq<Batch>, b: Batch)
    ensures EventsIn(batches + [b]) == EventsIn(batches) + b.events && TimesIn(batches + [b]) == TimesIn(batches) + [b.at]
  {
    assert (batches + [b])[..|batches|] == batches;
  }

  /** No event is lost, duplicated or reordered: what was sent and what waits is what was recorded. */
  lemma {:induction false} Conserved(ops: seq<Op>, key: string, cooldown: int)
    ensures var line := LineOf(ops, key, cooldown); EventsIn(line.batches) + line.pending == RecordedOf(ops, key)
  {
    if ops != [] {
      var front := ops[..|ops| - 1];
      Conserved(front, key, cooldown);
      var line := LineOf(front, key, cooldown);
      match ops[|ops| - 1]
      case Record(ev) =>
        PushBatch(line.batches, Batch(line.pending + [ev], ev.at));
        assert EventsIn(line.batches) + (line.pending + [ev]) == RecordedOf(front, key) + [ev];
      case Flush(now) =>
        PushBatch(line.batches, Batch(line.pending, now));
    }
  }

  /** Events wait only behind a batch that was sent; also when a timestamp is the zero time. */
  lemma {:induction false} PendingWasSent(ops: seq<Op>, key: string, cooldown: int)
    ensures var line := LineOf(ops, key, cooldown); line.pending != [] ==> line.lastSent != ZERO_TIME
  {
    if ops != [] {
      PendingWasSent(ops[..|ops| - 1], key, cooldown);
    }
  }

  // ------------------------------------------------------------- promptness

  /** The time of the latest batch, which a line remembers. */
  lemma {:induction false} RemembersLast(ops: seq<Op>, key: string, cooldown: int)
    ensures var line := LineOf(ops, key, cooldown);
      if line.batches == [] then line == EMPTY_LINE else line.lastSent == line.batches[|line.batches| - 1].at
  {
    if ops != [] {
      RemembersLast(ops[..|ops| - 1], key, cooldown);
      PendingWasSent(ops[..|ops| - 1], key, cooldown);
    }
  }

  /** A batch was sent at a real time less than the cooldown before t. */
  predicate SentLately(batches: seq<Batch>, cooldown: int, t: int) {
    batches != [] && batches[|batches| - 1].at != ZERO_TIME && t - batches[|batches| - 1].at < cooldown
  }

  lemma LineSteps(ops: seq<Op>, op: Op, key: string, cooldown: int)
    ensures op.Record? ==>
              LineOf(ops + [op], key, cooldown) ==
              if op.ev.key == key then RecordOn(LineOf(ops, key, cooldown), op.ev, cooldown) else LineOf(ops, key, cooldown)
    ensures op.Flush? ==> LineOf(ops + [op], key, cooldown) == FlushOn(LineOf(ops, key, cooldown), op.now, cooldown)
  {
    assert (ops + [op])[..|ops|] == ops;
  }

  /** For every run: an event is held back exactly when its key had a batch less than a cooldown before.
      Otherwise it goes out at once, in one batch with everything that waited, at its own time. */
  lemma RecordIsPrompt(ops: seq<Op>, ev: Event, cooldown: int)
    ensures var before, after := LineOf(ops, ev.key, cooldown), LineOf(ops + [Record(ev)], ev.key, cooldown);
      if SentLately(before.batches, cooldown, ev.at) then
        after.batches == before.batches && after.pending == before.pending + [ev]
      else
        after.pending == [] && after.batches == before.batches + [Batch(before.pending + [ev], ev.at)]
  {
    LineSteps(ops, Record(ev), ev.key, cooldown);
    RemembersLast(ops, ev.key, cooldown);
  }

  /** For every run: a tick leaves events of a key waiting exactly when there were some and the key had a batch
      less than a cooldown before. Otherwise all that waited goes out in one batch, at the tick's time. */
  lemma FlushIsPrompt(ops: seq<Op>, now: int, key: string, cooldown: int)
    ensures var before, after := LineOf(ops, key, cooldown), LineOf(ops + [Flush(now)], key, cooldown);
      if before.pending == [] || SentLately(before.batches, cooldown, now) then after == before
      else after.pending == [] && after.batches == before.batches + [Batch(before.pending, now)]
  {
    LineSteps(ops, Flush(now), key, cooldown);
    RemembersLast(ops, key, cooldown);
  }

  /** For every run that ends with an event of the key or a tick at t: events wait only if a batch of the key was
      sent less than a cooldown before t. So a tick at or past the last batch plus the cooldown leaves nothing. */
  lemma WaitsOnlyLately(ops: seq<Op>, op: Op, key: string, cooldown: int, t: int)
    requires op == Flush(t) || (op.Record? && op.ev.key == key && op.ev.at == t)
    ensures var line := LineOf(ops + [op], key, cooldown);
      line.pending != [] ==> exists i | 0 <= i < |line.batches| :: t - line.batches[i].at < cooldown
    ensures var before, after := LineOf(ops, key, cooldown), LineOf(ops + [op], key, cooldown);
      before.batches == [] || t >= before.batches[|before.batches| - 1].at + cooldown ==> after.pending == []
  {
    if op.Record? {
      RecordIsPrompt(ops, op.ev, cooldown);
    } else {
      FlushIsPrompt(ops, t, key, cooldown);
    }
    RemembersLast(ops, key, cooldown);
  }

  /** What Notify puts on the queue: an event without a time gets the clock's. */
  function Notified(ev: Event, clock: int): Event {
    if ev.at == ZERO_TIME then ev.(at := clock) else ev
  }

  /** A call of Notify that reaches the worker, with the clock it would read, or a tick of the worker's ticker. */
  datatype Call = Notify(ev: Event, clock: int) | Tick(now: int)

  function OpOf(call: Call): Op {
    match call
    case Notify(ev, clock) => Record(Notified(ev, clock))
    case Tick(now) => Flush(now)
  }

  /** What the worker does for these calls. */
  function OpsOf(calls: seq<Call>): (ops: seq<Op>)
    ensures |ops| == |calls|
  {
    if calls == [] then [] else OpsOf(calls[..|calls| - 1]) + [OpOf(calls[|calls| - 1])]
  }

  /** The clock never shows the zero time. */
  predicate ClockRuns(calls: seq<Call>) {
    forall i | 0 <= i < |calls| :: match calls[i] case Notify(_, clock) => clock != ZERO_TIME case Tick(now) => now != ZERO_TIME
  }

  /** The times that Notify and the ticker let through. */
  predicate RealTimes(ops: seq<Op>) {
    forall i | 0 <= i < |ops| :: match ops[i] case Record(ev) => ev.at != ZERO_TIME case Flush(now) => now != ZERO_TIME
  }

  predicate LineSpaced(line: Line, cooldown: int) {
    var times := TimesIn(line.batches);
    && |times| == |line.batches| && Spaced(times, cooldown)
    && (if times == [] then line.lastSent == ZERO_TIME else line.lastSent == times[|times| - 1] != ZERO_TIME)
  }

  lemma SendKeepsSpaced(line: Line, now: int, cooldown: int)
    requires LineSpaced(line, cooldown) && cooldown > 0 && now != ZERO_TIME && Due(line, now, cooldown)
    ensures LineSpaced(SendAt(line, now), cooldown)
  {
    PushBatch(line.batches, Batch(line.pending, now));
    var times := TimesIn(line.batches);
    forall i | 0 <= i < |times|
      ensures now - times[i] >= cooldown
    {
      if i < |times| - 1 {
        assert times[|times| - 1] - times[i] >= cooldown;
      }
    }
  }

  /** Successive batches are a cooldown apart, in whatever order the timestamps come. */
  lemma {:induction false} BatchesSpaced(ops: seq<Op>, key: string, cooldown: int)
    requires RealTimes(ops) && cooldown > 0
    ensures LineSpaced(LineOf(ops, key, cooldown), cooldown)
  {
    hide SendAt, Due;
    if ops == [] {
    } else {
      hide LineSpaced;
      var front := ops[..|ops| - 1];
      BatchesSpaced(front, key, cooldown);
      LineStepSpaced(LineOf(front, key, cooldown), ops[|ops| - 1], cooldown);
    }
  }

  lemma LineStepSpaced(line: Line, op: Op, cooldown: int)
    requires LineSpaced(line, cooldown) && cooldown > 0 && RealTimes([op])
    ensures op.Record? ==> LineSpaced(RecordOn(line, op.ev, cooldown), cooldown)
    ensures op.Flush? ==> LineSpaced(FlushOn(line, op.now, cooldown), cooldown)
  {
    assert [op][0] == op;
    match op
    case Record(ev) =>
      var grown := line.(pending := line.pending + [ev]);
      if Due(line, ev.at, cooldown) {
        SendKeepsSpaced(grown, ev.at, cooldown);
      }
    case Flush(now) =>
      if Due(line, now, cooldown) {
        SendKeepsSpaced(line, now, cooldown);
      }
  }

  /** The number of batches of one key in a closed interval. */
  lemma BatchesBounded(ops: seq<Op>, key: string, cooldown: int, lo: int, hi: int)
    requires RealTimes(ops) && cooldown > 0 && lo <= hi
    ensures CountIn(TimesIn(LineOf(ops, key, cooldown).batches), lo, hi + 1) <= (hi - lo) / cooldown + 1
  {
    BatchesSpaced(ops, key, cooldown);
    SpacedCountClosed(TimesIn(LineOf(ops, key, cooldown).batches), cooldown, lo, hi);
  }

  /** Behind Notify every time is real, whatever times the events had. */
  lemma {:induction false} NotifiedIsReal(calls: seq<Call>)
    requires ClockRuns(calls)
    ensures RealTimes(OpsOf(calls))
  {
    if calls != [] {
      NotifiedIsReal(calls[..|calls| - 1]);
    }
  }

  /** Through Notify the batches of every key are a cooldown apart, also for events without a time. */
  lemma NotifiedSpaced(calls: seq<Call>, key: string, cooldown: int)
    requires ClockRuns(calls) && cooldown > 0
    ensures LineSpaced(LineOf(OpsOf(calls), key, cooldown), cooldown)
  {
    NotifiedIsReal(calls);
    BatchesSpaced(OpsOf(calls), key, cooldown);
  }

  /** Without Notify, at the zero time, the cooldown is not kept. */
  lemma ZeroTimeBreaksSpacing(ev: Event, cooldown: int)
    requires ev.at == ZERO_TIME && cooldown > 0
    ensures TimesIn(LineOf([Record(ev), Record(ev)], ev.key, cooldown).batches) == [0, 0]
  {
    var once, twice := [Record(ev)], [Record(ev), Record(ev)];
    assert once[..0] == [] && twice[..1] == once;
    PushBatch([], Batch([ev], 0));
    PushBatch([Batch([ev], 0)], Batch([ev], 0));
    assert LineOf(once, ev.key, cooldown) == Line([], 0, [] + [Batch([] + [ev], 0)]);
  }

  // ------------------------------------------------------------- summing up

  /** What send is given for a batch. */
  function AlertOf(key: string, events: seq<Event>): Alert
    requires events != []
  {
    Alert(key, events[|events| - 1], |events|, events[0].at, events[|events| - 1].at)
  }

  /** The alerts of one key, in the order of sending. */
  function AlertsOf(sent: seq<Alert>, key: string): seq<Alert> {
    if sent == [] then []
    else
      var before, last := AlertsOf(sent[..|sent| - 1], key), sent[|sent| - 1];
      if last.key == key then before + [last] else before
  }

  predicate AlertsAre(alerts: seq<Alert>, key: string, batches: seq<Batch>) {
    |alerts| == |batches| &&
    forall i | 0 <= i < |alerts| :: batches[i].events != [] && alerts[i] == AlertOf(key, batches[i].events)
  }

  lemma AlertPush(sent: seq<Alert>, a: Alert, key: string)
    ensures AlertsOf(sent + [a], key) == if a.key == key then AlertsOf(sent, key) + [a] else AlertsOf(sent, key)
  {
    assert (sent + [a])[..|sent|] == sent;
  }

  /** How many events the alerts of a key stand for. */
  function Counted(alerts: seq<Alert>): nat {
    if alerts == [] then 0 else Counted(alerts[..|alerts| - 1]) + alerts[|alerts| - 1].count
  }

  lemma {:induction false} CountedBatches(alerts: seq<Alert>, key: string, batches: seq<Batch>)
    requires AlertsAre(alerts, key, batches)
    ensures Counted(alerts) == |EventsIn(batches)|
  {
    if alerts != [] {
      CountedBatches(alerts[..|alerts| - 1], key, batches[..|batches| - 1]);
    }
  }

  function Without(sent: seq<Alert>, key: string): seq<Alert> {
    if sent == [] then []
    else
      var before, last := Without(sent[..|sent| - 1], key), sent[|sent| - 1];
      if last.key == key then before else before + [last]
  }

  function WithoutKey(events: seq<Event>, key: string): seq<Event> {
    if events == [] then []
    else
      var before, last := WithoutKey(events[..|events| - 1], key), events[|events| - 1];
      if last.key == key then before else before + [last]
  }

  function OfKey(events: seq<Event>, key: string): seq<Event> {
    if events == [] then []
    else
      var before, last := OfKey(events[..|events| - 1], key), events[|events| - 1];
      if last.key == key then before + [last] else before
  }

  lemma {:induction false} SplitAlerts(sent: seq<Alert>, key: string, other: string)
    ensures Counted(sent) == Counted(AlertsOf(sent, key)) + Counted(Without(sent, key))
    ensures AlertsOf(Without(sent, key), other) == if other == key then [] else AlertsOf(sent, other)
  {
    if sent != [] {
      var front, last := sent[..|sent| - 1], sent[|sent| - 1];
      SplitAlerts(front, key, other);
      AlertPush(Without(front, key), last, other);
      assert (AlertsOf(front, key) + [last])[..|AlertsOf(front, key)|] == AlertsOf(front, key);
      assert (Without(front, key) + [last])[..|Without(front, key)|] == Without(front, key);
    }
  }

  lemma {:induction false} SplitEvents(events: seq<Event>, key: string, other: string)
    ensures |events| == |OfKey(events, key)| + |WithoutKey(events, key)|
    ensures OfKey(WithoutKey(events, key), other) == if other == key then [] else OfKey(events, other)
  {
    if events != [] {
      var front, last := events[..|events| - 1], events[|events| - 1];
      SplitEvents(front, key, other);
      assert (WithoutKey(front, key) + [last])[..|WithoutKey(front, key)|] == WithoutKey(front, key);
    }
  }

  ghost predicate SameCounts(sent: seq<Alert>, events: seq<Event>) {
    forall key: string :: Counted(AlertsOf(sent, key)) == |OfKey(events, key)|
  }

  /** If the alerts of every key stand for the events of that key, all alerts stand for all events. */
  lemma {:induction false} TotalsAgree(sent: seq<Alert>, events: seq<Event>)
    requires SameCounts(sent, events)
    ensures Counted(sent) == |events|
    decreases |sent| + |events|
  {
    if sent != [] || events != [] {
      var key := if sent != [] then sent[|sent| - 1].key else events[|events| - 1].key;
      var sent', events' := Without(sent, key), WithoutKey(events, key);
      forall other: string
        ensures Counted(AlertsOf(sent', other)) == |OfKey(events', other)|
      {
        SplitAlerts(sent, key, other);
        SplitEvents(events, key, other);
      }
      SplitAlerts(sent, key, key);
      SplitEvents(events, key, key);
      LastIsGone(sent, events, key);
      TotalsAgree(sent', events');
    }
  }

  lemma LastIsGone(sent: seq<Alert>, events: seq<Event>, key: string)
    requires if sent != [] then sent[|sent| - 1].key == key else events != [] && events[|events| - 1].key == key
    ensures |Without(sent, key)| + |WithoutKey(events, key)| < |sent| + |events|
  {
    ShorterAlerts(sent, key);
    ShorterEvents(events, key);
    if sent != [] {
      ShorterAlerts(sent[..|sent| - 1], key);
    } else {
      ShorterEvents(events[..|events| - 1], key);
    }
  }

  lemma ShorterAlerts(sent: seq<Alert>, key: string)
    ensures |Without(sent, key)| <= |sent|
  {
  }

  lemma ShorterEvents(events: seq<Event>, key: string)
    ensures |WithoutKey(events, key)| <= |events|
  {
  }
}
