/** The alert manager with its mutable buckets, proved against the per-key histories. */
module AlertManager {
  import opened Alerts

  class Bucket {
    var event: Event
    var count: nat
    var first: int
    var last: int
    var lastSent: int

    constructor (ev: Event)
      ensures event == ev && count == 0 && first == ev.at && last == ev.at && lastSent == ZERO_TIME
    {
      event := ev;
      count := 0;
      first := ev.at;
      last := ev.at;
      lastSent := ZERO_TIME;
    }

    /** What is handed to send. */
    function Clone(key: string): Alert
      reads this
    {
      Alert(key, event, count, first, last)
    }

    /** The bucket holds the waiting events of the line in summary. */
    ghost predicate Fits(line: Line)
      reads this
    {
      && count == |line.pending| && lastSent == line.lastSent
      && (line.pending != [] ==>
            first == line.pending[0].at && last == line.pending[|line.pending| - 1].at && event == line.pending[|line.pending| - 1])
    }

    method Add(ev: Event, ghost line: Line)
      requires Fits(line)
      modifies this
      ensures Fits(line.(pending := line.pending + [ev])) && lastSent == old(lastSent)
    {
      if count == 0 {
        first := ev.at;
      }
      event := ev;
      last := ev.at;
      count := count + 1;
    }

    /** Cuts the waiting events off and remembers the time. */
    method Cut(key: string, now: int, ghost line: Line) returns (alert: Alert)
      requires Fits(line) && line.pending != []
      modifies this
      ensures Fits(SendAt(line, now)) && alert == AlertOf(key, line.pending) && alert.key == key
    {
      alert := Clone(key);
      count := 0;
      first := ZERO_TIME;
      lastSent := now;
    }
  }

  function RecordedEvents(ops: seq<Op>): seq<Event> {
    if ops == [] then []
    else
      match ops[|ops| - 1]
      case Record(ev) => RecordedEvents(ops[..|ops| - 1]) + [ev]
      case Flush(_) => RecordedEvents(ops[..|ops| - 1])
  }

  lemma {:induction false} RecordedByKey(ops: seq<Op>, key: string)
    ensures OfKey(RecordedEvents(ops), key) == RecordedOf(ops, key)
  {
    if ops != [] {
      var front := ops[..|ops| - 1];
      RecordedByKey(front, key);
      match ops[|ops| - 1]
      case Record(ev) => assert (RecordedEvents(front) + [ev])[..|RecordedEvents(front)|] == RecordedEvents(front);
      case Flush(_) =>
    }
  }

  lemma {:induction false} AlertsConcat(sent: seq<Alert>, more: seq<Alert>, key: string)
    ensures AlertsOf(sent + more, key) == AlertsOf(sent, key) + AlertsOf(more, key)
  {
    hide AlertsOf;
    if more == [] {
      NoAlerts(key);
      assert sent + more == sent;
    } else {
      var front, last := more[..|more| - 1], more[|more| - 1];
      AlertsConcat(sent, front, key);
      assert sent + more == (sent + front) + [last] && front + [last] == more;
      AlertPush(sent + front, last, key);
      AlertPush(front, last, key);
      assert AlertsOf(sent, key) + (AlertsOf(front, key) + [last]) == (AlertsOf(sent, key) + AlertsOf(front, key)) + [last];
    }
  }

  lemma NoAlerts(key: string)
    ensures AlertsOf([], key) == []
  {
  }

  lemma BatchAdded(alerts: seq<Alert>, key: string, batches: seq<Batch>, b: Batch)
    requires AlertsAre(alerts, key, batches) && b.events != []
    ensures AlertsAre(alerts + [AlertOf(key, b.events)], key, batches + [b])
  {
  }

  /** The last alert of a key with events still waiting. */
  function Closing(key: string, pending: seq<Event>): seq<Alert> {
    if pending != [] then [AlertOf(key, pending)] else []
  }

  lemma NothingWaits(key: string)
    ensures Closing(key, []) == []
  {
  }

  class Manager {
    /** The configured cooldown. */
    const configured: int
    var buckets: map<string, Bucket>
    /** Everything handed to send, in order. */
    var sent: seq<Alert>
    ghost var ops: seq<Op>

    constructor (configured: int)
      ensures Valid() && this.configured == configured && ops == [] && sent == []
    {
      this.configured, buckets, sent, ops := configured, map[], [], [];
      new;
      forall key: string
        ensures LineOf([], key, Cooldown()) == EMPTY_LINE
      {
      }
    }

    /** cooldownLocked. */
    function Cooldown(): (c: int)
      ensures c > 0
    {
      if configured > 0 then configured else DEFAULT_COOLDOWN
    }

    ghost function LineFor(key: string): Line
      reads this
    {
      LineOf(ops, key, Cooldown())
    }

    ghost predicate Distinct()
      reads this
    {
      forall a, b | a in buckets && b in buckets && buckets[a] == buckets[b] :: a == b
    }

    ghost predicate KeyFits(key: string, line: Line)
      reads this, buckets.Values
    {
      if key in buckets then buckets[key].Fits(line) else line == EMPTY_LINE
    }

    /** Every bucket summarises the waiting events of its key, and the alerts sent are those of its batches. */
    ghost predicate Valid()
      reads this, buckets.Values
    {
      Distinct() &&
      forall key: string :: KeyFits(key, LineFor(key)) && AlertsAre(AlertsOf(sent, key), key, LineFor(key).batches)
    }

    method Bucketed(ev: Event) returns (b: Bucket)
      requires Distinct()
      modifies this`buckets
      ensures Distinct() && ev.key in buckets && buckets[ev.key] == b
      ensures forall key | key != ev.key :: key in buckets <==> key in old(buckets)
      ensures forall key | key in old(buckets) :: buckets[key] == old(buckets)[key]
      ensures ev.key !in old(buckets) ==> fresh(b) && b.Fits(EMPTY_LINE)
    {
      if ev.key in buckets {
        b := buckets[ev.key];
      } else {
        b := new Bucket(ev);
        buckets := buckets[ev.key := b];
      }
    }

    /** record. */
    method Record(ev: Event)
      requires Valid()
      modifies this, buckets.Values
      ensures Valid() && ops == old(ops) + [Op.Record(ev)]
      ensures fresh(buckets.Values - old(buckets.Values))
      ensures var line := old(LineFor(ev.key));
        sent == old(sent) + if SentLately(line.batches, Cooldown(), ev.at) then [] else [AlertOf(ev.key, line.pending + [ev])]
    {
      hide AlertsAre, AlertsOf, LineOf, AlertOf;
      ghost var before := LineFor(ev.key);
      RemembersLast(ops, ev.key, Cooldown());
      assert KeyFits(ev.key, before) && AlertsAre(AlertsOf(sent, ev.key), ev.key, before.batches);
      ghost var grown := before.(pending := before.pending + [ev]);
      var b := Bucketed(ev);
      b.Add(ev, before);
      if b.lastSent == ZERO_TIME || ev.at - b.lastSent >= Cooldown() {
        var alert := b.Cut(ev.key, ev.at, grown);
        BatchAdded(AlertsOf(sent, ev.key), ev.key, before.batches, Batch(grown.pending, ev.at));
        sent := sent + [alert];
      }
      ops := ops + [Op.Record(ev)];
      assert b.Fits(RecordOn(before, ev, Cooldown()));
      forall key: string
        ensures KeyFits(key, LineFor(key)) && AlertsAre(AlertsOf(sent, key), key, LineFor(key).batches)
      {
        LineSteps(old(ops), Op.Record(ev), key, Cooldown());
        if sent != old(sent) {
          AlertPush(old(sent), sent[|sent| - 1], key);
        }
        if key != ev.key {
          assert old(KeyFits(key, LineFor(key)) && AlertsAre(AlertsOf(sent, key), key, LineFor(key).batches));
        }
      }
    }

    /** One bucket's turn in flushDue. */
    method FlushOne(key: string, now: int, ghost line: Line) returns (sends: seq<Alert>)
      requires Distinct() && key in buckets && KeyFits(key, line)
      modifies buckets[key]
      ensures KeyFits(key, FlushOn(line, now, Cooldown()))
      ensures sends == if line.pending != [] && Due(line, now, Cooldown()) then [AlertOf(key, line.pending)] else []
      ensures sends != [] ==> sends[0].key == key
    {
      var b := buckets[key];
      sends := [];
      if b.count == 0 {
        return;
      }
      if b.lastSent != ZERO_TIME && now - b.lastSent < Cooldown() {
        return;
      }
      var alert := b.Cut(key, now, line);
      sends := [alert];
    }

    /** What flushDue has done so far with a key: nothing while it is still to come. */
    ghost predicate FlushedSoFar(key: string, now: int, line: Line, toCome: set<string>, sends: seq<Alert>)
      reads this, buckets.Values
    {
      if key in toCome then KeyFits(key, line) && AlertsOf(sends, key) == []
      else KeyFits(key, FlushOn(line, now, Cooldown())) &&
           AlertsOf(sends, key) ==
             if line.pending != [] && Due(line, now, Cooldown()) then [AlertOf(key, line.pending)] else []
    }

    lemma FlushStart(now: int)
      requires Valid()
      ensures forall key: string :: FlushedSoFar(key, now, LineFor(key), buckets.Keys, [])
    {
      hide AlertsAre, AlertsOf, LineOf;
      forall key: string
        ensures FlushedSoFar(key, now, LineFor(key), buckets.Keys, [])
      {
        assert KeyFits(key, LineFor(key));
        NoAlerts(key);
      }
    }

    /** The loop of flushDue under its lock, over the buckets in any order. */
    method FlushBuckets(now: int) returns (sends: seq<Alert>)
      requires Valid()
      modifies buckets.Values
      ensures forall key: string :: FlushedSoFar(key, now, LineFor(key), {}, sends)
    {
      hide AlertsAre, AlertsOf, LineOf, FlushOn, Due, AlertOf;
      sends := [];
      var toCome := buckets.Keys;
      FlushStart(now);
      while toCome != {}
        invariant toCome <= buckets.Keys
        invariant forall key: string :: FlushedSoFar(key, now, LineFor(key), toCome, sends)
        decreases |toCome|
      {
        var key :| key in toCome;
        assert FlushedSoFar(key, now, LineFor(key), toCome, sends);
        label Before:
        ghost var was, had := toCome, sends;
        var more := FlushOne(key, now, LineFor(key));
        sends := sends + more;
        toCome := toCome - {key};
        forall other: string
          ensures FlushedSoFar(other, now, LineFor(other), toCome, sends)
        {
          assert old@Before(FlushedSoFar(other, now, LineFor(other), was, had));
          AlertsConcat(had, more, other);
          OneAlert(more, key, other);
        }
      }
    }

    /** flushDue. */
    method FlushDue(now: int)
      requires Valid()
      modifies this, buckets.Values
      ensures Valid() && ops == old(ops) + [Flush(now)] && buckets == old(buckets)
    {
      hide AlertsAre, AlertsOf, LineOf, FlushOn, Due, AlertOf;
      var sends := FlushBuckets(now);
      label Flushed:
      sent := sent + sends;
      ops := ops + [Flush(now)];
      forall key: string
        ensures KeyFits(key, LineFor(key)) && AlertsAre(AlertsOf(sent, key), key, LineFor(key).batches)
      {
        ghost var line := LineOf(old(ops), key, Cooldown());
        assert old@Flushed(FlushedSoFar(key, now, LineFor(key), {}, sends));
        assert old(KeyFits(key, LineFor(key)) && AlertsAre(AlertsOf(sent, key), key, LineFor(key).batches));
        LineSteps(old(ops), Flush(now), key, Cooldown());
        AlertsConcat(old(sent), sends, key);
        FlushAdds(AlertsOf(old(sent), key), key, line, now, Cooldown());
      }
    }

    /** The collecting loop of flushAll: a clone of every bucket that still holds events. */
    method Waiting() returns (sends: seq<Alert>)
      requires Valid()
      ensures forall key: string ::
                AlertsOf(sends, key) == Closing(key, LineFor(key).pending)
    {
      hide AlertsAre, AlertsOf, LineOf, AlertOf, Closing;
      sends := [];
      var toCome := buckets.Keys;
      forall key: string
        ensures CollectedSoFar(key, toCome, sends)
      {
        assert KeyFits(key, LineFor(key));
        NoAlerts(key);
        NothingWaits(key);
      }
      while toCome != {}
        invariant toCome <= buckets.Keys
        invariant forall key: string :: CollectedSoFar(key, toCome, sends)
        decreases |toCome|
      {
        var key :| key in toCome;
        assert KeyFits(key, LineFor(key));
        var more := CloneOf(key, LineFor(key));
        forall other: string
          ensures CollectedSoFar(other, toCome - {key}, sends + more)
        {
          assert CollectedSoFar(other, toCome, sends);
          AlertsConcat(sends, more, other);
          OneAlert(more, key, other);
        }
        sends := sends + more;
        toCome := toCome - {key};
      }
      forall key: string
        ensures AlertsOf(sends, key) == Closing(key, LineFor(key).pending)
      {
        assert CollectedSoFar(key, toCome, sends);
      }
    }

    ghost predicate CollectedSoFar(key: string, toCome: set<string>, sends: seq<Alert>)
      reads this
    {
      AlertsOf(sends, key) == if key in toCome then [] else Closing(key, LineFor(key).pending)
    }

    method CloneOf(key: string, ghost line: Line) returns (more: seq<Alert>)
      requires key in buckets && KeyFits(key, line)
      ensures more == Closing(key, line.pending)
      ensures |more| <= 1 && (more != [] ==> more[0].key == key)
    {
      var b := buckets[key];
      more := if b.count > 0 then [b.Clone(key)] else [];
    }

    /** flushAll: whatever still waits is sent; the buckets are left as they are, since the manager stops. */
    method FlushAll()
      requires Valid()
      modifies this`sent
      ensures forall key: string ::
                AlertsOf(sent, key) == AlertsOf(old(sent), key) + Closing(key, LineFor(key).pending)
    {
      hide AlertsAre, AlertsOf, LineOf, Closing;
      var sends := Waiting();
      forall key: string
        ensures AlertsOf(sent + sends, key) == AlertsOf(sent, key) + AlertsOf(sends, key)
      {
        AlertsConcat(sent, sends, key);
      }
      sent := sent + sends;
    }

    /** run: records and ticks in the order they come, then the final flush. Every event recorded has
        then been counted in exactly one alert. */
    method Run(script: seq<Op>)
      requires Valid() && ops == []
      modifies this, buckets.Values
      ensures ops == script
      ensures forall key: string :: Counted(AlertsOf(sent, key)) == |RecordedOf(script, key)|
      ensures Counted(sent) == |RecordedEvents(script)|
    {
      hide AlertsAre, AlertsOf, LineOf, Closing, Counted, RecordedOf, RecordedEvents;
      for i := 0 to |script|
        invariant Valid() && ops == script[..i]
        invariant fresh(buckets.Values - old(buckets.Values))
      {
        assert script[..i + 1] == script[..i] + [script[i]];
        match script[i]
        case Record(ev) => Record(ev);
        case Flush(now) => FlushDue(now);
      }
      assert script[..|script|] == script;
      ghost var before := sent;
      assert forall key: string :: AlertsAre(AlertsOf(before, key), key, LineOf(script, key, Cooldown()).batches);
      FlushAll();
      forall key: string
        ensures Counted(AlertsOf(sent, key)) == |RecordedOf(script, key)| == |OfKey(RecordedEvents(script), key)|
      {
        AllCounted(before, script, key, Cooldown());
        RecordedByKey(script, key);
      }
      TotalsAgree(sent, RecordedEvents(script));
    }
  }

  /** Batches and what waits make up what was recorded. */
  lemma AllCounted(sent: seq<Alert>, ops: seq<Op>, key: string, cooldown: int)
    requires AlertsAre(AlertsOf(sent, key), key, LineOf(ops, key, cooldown).batches)
    ensures var line := LineOf(ops, key, cooldown);
      Counted(AlertsOf(sent, key) + Closing(key, line.pending)) == |RecordedOf(ops, key)|
  {
    hide LineOf, RecordedOf;
    var line, alerts := LineOf(ops, key, cooldown), AlertsOf(sent, key);
    Conserved(ops, key, cooldown);
    CountedBatches(alerts, key, line.batches);
    if line.pending != [] {
      var last := AlertOf(key, line.pending);
      assert (alerts + [last])[..|alerts|] == alerts;
    } else {
      assert alerts + [] == alerts;
    }
  }

  lemma OneAlert(alerts: seq<Alert>, key: string, other: string)
    requires |alerts| <= 1 && (alerts != [] ==> alerts[0].key == key)
    ensures AlertsOf(alerts, other) == if other == key then alerts else []
  {
  }

  lemma FlushAdds(alerts: seq<Alert>, key: string, line: Line, now: int, cooldown: int)
    requires AlertsAre(alerts, key, line.batches)
    ensures var more := if line.pending != [] && Due(line, now, cooldown) then [AlertOf(key, line.pending)] else [];
      AlertsAre(alerts + more, key, FlushOn(line, now, cooldown).batches)
  {
    if line.pending != [] && Due(line, now, cooldown) {
      BatchAdded(alerts, key, line.batches, Batch(line.pending, now));
    }
  }
}
