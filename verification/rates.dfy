/** The rate window and the duplicate cache of a channel, over whole runs
    (src/core/engine.ts:350-357, 955-975, 1002). */
module Rates {
  import opened Types
  import opened Delivery
  import opened Sending
  import opened Membership
  import opened Queues
  import opened System
  import opened Safety
  import opened Chronicle

  /** The next accepted send falls into the same window, or opens one more than a minute
      after the last window opened. */
  predicate Succeeds(a: SendRecord, b: SendRecord) {
    && a.time <= b.time && a.limit == b.limit
    && if b.window == a.window then b.ordinal == a.ordinal + 1
       else b.window > a.window + RATE_WINDOW_MS && b.ordinal == 1
  }

  predicate InWindow(a: SendRecord) {
    1 <= a.ordinal <= a.limit && a.window <= a.time <= a.window + RATE_WINDOW_MS
  }

  /** An accepted-send history as the rate limiter admits it. */
  ghost predicate RateLog(log: seq<SendRecord>) {
    && (forall i :: 0 <= i < |log| ==> InWindow(log[i]))
    && (forall i, j :: 0 <= i && j == i + 1 && j < |log| ==> Succeeds(log[i], log[j]))
  }

  lemma {:induction false} WindowsGrow(log: seq<SendRecord>, i: nat, j: nat)
    requires RateLog(log) && i <= j < |log|
    ensures log[i].limit == log[j].limit && log[i].time <= log[j].time
    ensures if log[j].window == log[i].window then log[j].ordinal - log[i].ordinal == j - i
            else log[j].window > log[i].window + RATE_WINDOW_MS
    decreases j
  {
    if i < j {
      WindowsGrow(log, i, j - 1);
      assert Succeeds(log[j - 1], log[j]);
    }
  }

  /** Where the window of record `j` begins, when it is not the window of record `i`. */
  lemma {:induction false} WindowOpens(log: seq<SendRecord>, i: nat, j: nat) returns (m: nat)
    requires RateLog(log) && i < j < |log| && log[i].window != log[j].window
    ensures i < m <= j && log[m].window == log[j].window && log[m].ordinal == 1
    ensures log[m - 1].window != log[j].window
    decreases j
  {
    assert Succeeds(log[j - 1], log[j]);
    if log[j - 1].window == log[j].window {
      m := WindowOpens(log, i, j - 1);
    } else {
      m := j;
    }
  }

  /** One window admits at most `limit` sends; any minute at most twice that. */
  lemma AtMostTwiceTheLimit(log: seq<SendRecord>, i: nat, j: nat)
    requires RateLog(log) && i <= j < |log|
    ensures log[i].window == log[j].window ==> j - i + 1 <= log[i].limit
    ensures log[j].time - log[i].time <= RATE_WINDOW_MS ==> j - i + 1 <= 2 * log[i].limit
  {
    WindowsGrow(log, i, j);
    if log[i].window != log[j].window && log[j].time - log[i].time <= RATE_WINDOW_MS {
      var m := WindowOpens(log, i, j);
      WindowsGrow(log, m, j);
      WindowsGrow(log, i, m - 1);
      assert Succeeds(log[m - 1], log[m]);
      assert InWindow(log[i]) && InWindow(log[j]) && InWindow(log[m - 1]);
    }
  }

  /** The channel's limiter stands where its history left it. */
  ghost predicate LimiterAt(ch: Channel, log: seq<SendRecord>, now: int) {
    && ch.rateStart <= now
    && (log == [] ==> ch.rateCount == 0)
    && (log != [] ==>
          var last := log[|log| - 1];
          last.window == ch.rateStart && last.ordinal == ch.rateCount && last.limit == ch.rateLimit && last.time <= now)
  }

  /** The cache holds the time of some send for each key, and for every send that is still
      young an entry at least as late. */
  ghost predicate CacheOf(ch: Channel, log: seq<SendRecord>, now: int) {
    && (forall key :: key in ch.seen ==> exists i :: 0 <= i < |log| && log[i].key == key && log[i].time == ch.seen[key])
    && (forall i :: 0 <= i < |log| ==>
          now - log[i].time >= ch.staleMs || (log[i].key in ch.seen && ch.seen[log[i].key] >= log[i].time))
    && (forall i :: 0 <= i < |log| ==> log[i].time <= now)
  }

  ghost predicate RateInv(w: World) {
    && (forall c :: c in w.sends ==> RateLog(w.sends[c]) && c < w.s.nextChannel)
    && (forall c :: c in w.s.channels ==>
          && c < w.s.nextChannel
          && LimiterAt(w.s.channels[c], SendsOn(w, c), w.now)
          && CacheOf(w.s.channels[c], SendsOn(w, c), w.now))
  }

  lemma SendKeepsLimiter(ch: Channel, log: seq<SendRecord>, sender: Session, content: Text, to: Session, now: int)
    requires RateLog(log) && LimiterAt(ch, log, now) && RateWindow(ch, now).1 + 1 <= ch.rateLimit
    ensures var log' := log + [RecordOf(ch, (sender, content), now)];
            RateLog(log') && LimiterAt(AfterSend(ch, sender, content, to, now), log', now)
  {
    var log' := log + [RecordOf(ch, (sender, content), now)];
    forall i, j | 0 <= i && j == i + 1 && j < |log'|
      ensures Succeeds(log'[i], log'[j])
    {
      if j < |log| {
        assert Succeeds(log[i], log[j]);
      }
    }
  }

  lemma SendKeepsCache(ch: Channel, log: seq<SendRecord>, rec: SendRecord, to: Session, now: int)
    requires CacheOf(ch, log, now) && rec.time == now
    ensures CacheOf(AfterSend(ch, rec.key.0, rec.key.1, to, now), log + [rec], now)
  {
    var ch' := AfterSend(ch, rec.key.0, rec.key.1, to, now);
    var log' := log + [rec];
    forall key | key in ch'.seen
      ensures exists i :: 0 <= i < |log'| && log'[i].key == key && log'[i].time == ch'.seen[key]
    {
      if key == rec.key {
        assert log'[|log|] == rec;
      } else {
        var i :| 0 <= i < |log| && log[i].key == key && log[i].time == ch.seen[key];
        assert log'[i] == log[i];
      }
    }
    forall i | 0 <= i < |log'|
      ensures now - log'[i].time >= ch'.staleMs || (log'[i].key in ch'.seen && ch'.seen[log'[i].key] >= log'[i].time)
    {
      if i < |log| && now - log[i].time < ch.staleMs {
        assert now - ch.seen[log[i].key] < ch.staleMs;
      }
    }
  }

  lemma LaterKeepsRates(w: World, now: int)
    requires RateInv(w) && w.now <= now
    ensures RateInv(w.(now := now))
  {
    var u := w.(now := now);
    assert forall c :: SendsOn(u, c) == SendsOn(w, c);
  }

  lemma SteadyKeepsRates(w: World, u: World)
    requires RateInv(w) && Steady(w.s, u.s) && u.sends == w.sends && u.now == w.now
    ensures RateInv(u)
  {
    forall c | c in u.s.channels
      ensures LimiterAt(u.s.channels[c], SendsOn(u, c), u.now) && CacheOf(u.s.channels[c], SendsOn(u, c), u.now)
    {
      var ch, ch' := w.s.channels[c], u.s.channels[c];
      assert Settings(ch').rateStart == Settings(ch).rateStart && Settings(ch').rateCount == Settings(ch).rateCount;
      assert Settings(ch').rateLimit == Settings(ch).rateLimit && Settings(ch').staleMs == Settings(ch).staleMs;
      assert Settings(ch').seen == Settings(ch).seen;
    }
  }

  lemma SendKeepsRates(ch: Channel, log: seq<SendRecord>, key: (Session, Text), to: Session, now: int)
    requires RateLog(log) && LimiterAt(ch, log, now) && CacheOf(ch, log, now)
    requires RateWindow(ch, now).1 + 1 <= ch.rateLimit
    ensures var ch' := AfterSend(ch, key.0, key.1, to, now);
            var log' := log + [RecordOf(ch, key, now)];
            RateLog(log') && LimiterAt(ch', log', now) && CacheOf(ch', log', now)
  {
    SendKeepsLimiter(ch, log, key.0, key.1, to, now);
    SendKeepsCache(ch, log, RecordOf(ch, key, now), to, now);
  }

  lemma RecordedSends(w: World, op: Op, c: ChannelId)
    ensures SendsOn(Do(w, Act(op)), c) ==
            if SendsTo(w.s, op, w.now, c)
            then SendsOn(w, c) + [RecordOf(w.s.channels[c], (op.sender, op.draft.content), w.now)]
            else SendsOn(w, c)
  {
  }

  /** One channel's limiter and cache agree with its history. */
  ghost predicate ChannelRates(w: World, c: ChannelId) {
    c in w.s.channels && RateLog(SendsOn(w, c))
    && LimiterAt(w.s.channels[c], SendsOn(w, c), w.now) && CacheOf(w.s.channels[c], SendsOn(w, c), w.now)
  }

  lemma ActKeepsChannelRates(w: World, op: Op, c: ChannelId)
    requires QueueInv(w.s) && ChannelRates(w, c) && c < w.s.nextChannel && c in Do(w, Act(op)).s.channels
    ensures ChannelRates(Do(w, Act(op)), c)
  {
    RecordedSends(w, op, c);
    ActPulse(w.s, op, w.now, c);
    if SendsTo(w.s, op, w.now, c) {
      var to := Resolve(w.s.channels[c], op.sender, op.draft.target)[0].session;
      SentChannelRates(w, Do(w, Act(op)), c, (op.sender, op.draft.content), to);
    } else {
      SamePulse(w, Do(w, Act(op)), c);
    }
  }

  lemma SentChannelRates(w: World, u: World, c: ChannelId, key: (Session, Text), to: Session)
    requires ChannelRates(w, c) && u.now == w.now && c in u.s.channels
    requires RateWindow(w.s.channels[c], w.now).1 + 1 <= w.s.channels[c].rateLimit
    requires u.s.channels[c] == AfterSend(w.s.channels[c], key.0, key.1, to, w.now)
    requires SendsOn(u, c) == SendsOn(w, c) + [RecordOf(w.s.channels[c], key, w.now)]
    ensures ChannelRates(u, c)
  {
    SendKeepsRates(w.s.channels[c], SendsOn(w, c), key, to, w.now);
  }

  lemma SamePulse(w: World, u: World, c: ChannelId)
    requires ChannelRates(w, c) && c in u.s.channels && PulseOf(u.s.channels[c]) == PulseOf(w.s.channels[c])
    requires SendsOn(u, c) == SendsOn(w, c) && u.now == w.now
    ensures ChannelRates(u, c)
  {
    var ch, ch' := w.s.channels[c], u.s.channels[c];
    assert PulseOf(ch').rateStart == PulseOf(ch).rateStart && PulseOf(ch').rateCount == PulseOf(ch).rateCount;
    assert PulseOf(ch').rateLimit == PulseOf(ch).rateLimit && PulseOf(ch').staleMs == PulseOf(ch).staleMs;
    assert PulseOf(ch').seen == PulseOf(ch).seen;
  }

  lemma NewChannelRates(w: World, op: Op, c: ChannelId)
    requires QueueInv(w.s) && RateInv(w) && c !in w.s.channels && c in Do(w, Act(op)).s.channels
    ensures ChannelRates(Do(w, Act(op)), c)
  {
    ActCreates(w.s, op, w.now, c);
    RecordedSends(w, op, c);
    assert SendsOn(w, c) == [];
  }

  lemma ActKeepsRates(w: World, op: Op)
    requires QueueInv(w.s) && RateInv(w)
    ensures RateInv(Do(w, Act(op)))
  {
    var u := Do(w, Act(op));
    ChannelCounter(w.s, op, w.now);
    forall c | c in u.s.channels
      ensures ChannelRates(u, c)
    {
      if c in w.s.channels {
        assert ChannelRates(w, c);
        ActKeepsChannelRates(w, op, c);
      } else {
        NewChannelRates(w, op, c);
      }
    }
    forall c | c in u.sends
      ensures RateLog(u.sends[c]) && c < u.s.nextChannel
    {
      RecordedSends(w, op, c);
      if SendsTo(w.s, op, w.now, c) {
        SendStays(w, op, c);
        assert ChannelRates(u, c);
      }
    }
  }

  lemma SendStays(w: World, op: Op, c: ChannelId)
    requires SendsTo(w.s, op, w.now, c)
    ensures c in w.s.channels && c in Do(w, Act(op)).s.channels
  {
    SendPulse(w.s, op.c, op.draft, op.sender, op.operator, w.now);
  }

  lemma StepKeepsRates(w: World, step: Step)
    requires BaseInv(w) && RateInv(w) && Enabled(w, step)
    ensures RateInv(Do(w, step))
  {
    if step.Act? {
      ActKeepsRates(w, step.op);
    } else {
      DeliveryKeepsRates(w, step);
    }
  }

  lemma DeliveryKeepsRates(w: World, step: Step)
    requires BaseInv(w) && RateInv(w) && Enabled(w, step) && !step.Act?
    ensures RateInv(Do(w, step))
  {
    DeliverySteady(w, step);
    RecordsSendsOnly(w, step);
    SteadyKeepsRates(w, Do(w, step));
  }

  lemma RecordsSendsOnly(w: World, step: Step)
    requires Enabled(w, step) && !step.Act?
    ensures Do(w, step).sends == w.sends && Do(w, step).now == w.now
  {
  }

  lemma {:induction false} RunKeepsRates(w: World, trace: seq<Event>)
    requires BaseInv(w) && RateInv(w) && Legal(w, trace)
    ensures RateInv(Run(w, trace))
    decreases |trace|
  {
    if trace != [] {
      LaterIsFine(w, trace[0].now);
      LaterKeepsRates(w, trace[0].now);
      StepKeepsRates(w.(now := trace[0].now), trace[0].step);
      NextKeepsBase(w, trace[0]);
      RunKeepsRates(Next(w, trace[0]), trace[1..]);
    }
  }

  /** On any channel of any run, no minute holds more than twice the rate limit of accepted
      sends, and no rate window more than the limit. */
  lemma RateBoundInEveryRun(trace: seq<Event>, c: ChannelId, i: nat, j: nat)
    requires Legal(START, trace) && i <= j < |SendsOn(Run(START, trace), c)|
    ensures var log := SendsOn(Run(START, trace), c);
            && (log[i].window == log[j].window ==> j - i + 1 <= log[i].limit)
            && (log[j].time - log[i].time <= RATE_WINDOW_MS ==> j - i + 1 <= 2 * log[i].limit)
            && (log[i].window != log[j].window ==> log[j].window - log[i].window > RATE_WINDOW_MS)
  {
    RunKeepsRates(START, trace);
    var log := SendsOn(Run(START, trace), c);
    AtMostTwiceTheLimit(log, i, j);
    WindowsGrow(log, i, j);
  }

  /** The duplicate check answers from the swept cache what it would answer from the full
      history: refuse exactly when the same sender's same content was accepted on this
      channel less than the stale window ago. */
  lemma DuplicateIffRecentlySent(trace: seq<Event>, c: ChannelId, key: (Session, Text), now: int)
    requires Legal(START, trace) && c in Run(START, trace).s.channels && Run(START, trace).now <= now
    ensures var w := Run(START, trace);
            var log, ch := SendsOn(w, c), w.s.channels[c];
            Repeats(ch, key, now) <==>
              exists i :: 0 <= i < |log| && log[i].key == key && now - log[i].time < ch.staleMs
  {
    RunKeepsRates(START, trace);
    var w := Run(START, trace);
    var log, ch := SendsOn(w, c), w.s.channels[c];
    assert CacheOf(ch, log, w.now);
  }
}
