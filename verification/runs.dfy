/** Runs of the whole system, put together event by event. */
module Runs {
  import opened Seqs
  import opened Types
  import opened Retention
  import opened Delivery
  import opened Sending
  import opened Membership
  import opened Queues
  import opened Effects
  import opened System
  import opened Safety
  import opened RoundTrip
  import opened Overtaking
  import opened Fifo

  /** The run `trace` from START ends in `w`. */
  ghost predicate Reaches(trace: seq<Event>, w: World) {
    Legal(START, trace) && Run(START, trace) == w
  }

  /** One run after another is a run. */
  lemma {:induction false} RunsJoin(w: World, first: seq<Event>, second: seq<Event>)
    requires Legal(w, first) && Legal(Run(w, first), second)
    ensures Legal(w, first + second) && Run(w, first + second) == Run(Run(w, first), second)
    decreases |first|
  {
    if first == [] {
      assert first + second == second;
    } else {
      assert (first + second)[1..] == first[1..] + second;
      RunsJoin(Next(w, first[0]), first[1..], second);
    }
  }

  lemma OneStepRun(w: World, e: Event)
    requires Possible(w, e)
    ensures Legal(w, [e]) && Run(w, [e]) == Next(w, e)
  {
    assert [e][1..] == [];
    assert Legal(Next(w, e), []) && Run(Next(w, e), []) == Next(w, e);
  }

  /** A run goes on with one more event. */
  lemma Go(trace: seq<Event>, w: World, e: Event)
    requires Reaches(trace, w) && Possible(w, e)
    ensures Reaches(trace + [e], Next(w, e))
  {
    OneStepRun(w, e);
    RunsJoin(START, trace, [e]);
  }

  /** Every batch for `r` is started when no other is outstanding. */
  ghost predicate AloneRun(w: World, trace: seq<Event>, r: Session)
    requires Legal(w, trace)
    decreases |trace|
  {
    trace != [] ==> Alone(w.(now := trace[0].now), trace[0].step, r) && AloneRun(Next(w, trace[0]), trace[1..], r)
  }

  lemma {:induction false} GoAlone(w: World, trace: seq<Event>, e: Event, r: Session)
    requires Legal(w, trace) && AloneRun(w, trace, r) && Legal(w, trace + [e])
    requires Possible(Run(w, trace), e) && Alone(Run(w, trace).(now := e.now), e.step, r)
    ensures AloneRun(w, trace + [e], r)
    decreases |trace|
  {
    if trace == [] {
      assert trace + [e] == [e];
    } else {
      assert (trace + [e])[1..] == trace[1..] + [e];
      GoAlone(Next(w, trace[0]), trace[1..], e, r);
    }
  }

  const PLAIN := Config(None, None, None, None, None)

  function Talker(name: Session): Member {
    Member(name, name, false, false, Push, Never)
  }

  /** The n-th text; no two are alike. */
  function Words(n: nat): Text
    requires n < 10
  {
    [(0x61 + n) as Unit]
  }

  /** A channel of "s" and "r" under default terms, on which only earlier texts were sent. */
  ghost predicate Ready(s: State, c: ChannelId) {
    && c in s.channels && |s.log| < 10
    && var ch := s.channels[c];
       && ch.members == [Talker("s"), Talker("r")] && ch.lifecycle == Active && !ch.paused
       && ch.maxRuntime.None? && ch.maxDelivered.None? && ch.cooldownMs == DEFAULT_COOLDOWN_MS
       && ch.rateLimit == DEFAULT_RATE_LIMIT && ch.rateCount <= |s.log|
       && forall key :: key in ch.seen ==> |key.1| == 1 && key.1[0] as int < 0x61 + |s.log|
  }

  function Note(n: nat): Draft
    requires n < 10
  {
    Draft(Words(n), Manual, Peer, None)
  }

  function Letter(s: State, c: ChannelId, now: int): Envelope
    requires |s.log| < 10
  {
    Addressed(c, Note(|s.log|), "s", "r", Thread(|s.log|, 0, None), now)
  }

  lemma PeerIsOther(ch: Channel)
    requires ch.members == [Talker("s"), Talker("r")]
    ensures Resolve(ch, "s", Peer) == [Talker("r")] && IsMember(ch, "s")
    ensures FindMember(ch.members, "r") == Some(Talker("r"))
  {
    var rest := ch.members[1..];
    assert rest == [Talker("r")] && rest[1..] == [];
    assert Others(rest, "s") == [Talker("r")];
  }

  lemma {:induction false} FewIds(live: set<MessageId>, n: nat)
    ensures |IdsBelow(live, n)| <= n
  {
    if n > 0 {
      FewIds(live, n - 1);
    }
  }

  /** A send on a ready channel is accepted. */
  lemma SendAccepted(s: State, c: ChannelId, now: int)
    requires Ready(s, c)
    ensures SendRefusal(s, c, Note(|s.log|), "s", false, now).None?
  {
    PeerIsOther(s.channels[c]);
    assert !IsBlank(Words(|s.log|)) by { assert !IsSpace(Words(|s.log|)[0] as int); }
  }

  function Counted(s: State, c: ChannelId, now: int): State
    requires Ready(s, c)
  {
    s.(channels := s.channels[c := AfterSend(s.channels[c], "s", Words(|s.log|), "r", now)])
  }

  lemma EnqueuesLetter(s: State, c: ChannelId, now: int)
    requires Ready(s, c)
    ensures Resolve(s.channels[c], "s", Peer) == [Talker("r")]
    ensures Enqueue(s, c, Note(|s.log|), "s", now) == PostAll(Counted(s, c, now), [Letter(s, c, now)])
  {
    PeerIsOther(s.channels[c]);
    var letters := Letters(c, Note(|s.log|), "s", [Talker("r")], Thread(|s.log|, 0, None), now);
    assert letters == [Letter(s, c, now)];
  }

  lemma PostsOne(s: State, e: Envelope)
    requires |s.log| < 10
    ensures Prune(PostAll(s, [e])) == Post(s, e)
  {
    assert [e][1..] == [];
    assert PostAll(s, [e]) == Post(s, e);
    FewIds(Post(s, e).live, |s.log| + 1);
  }

  lemma SendForm(s: State, c: ChannelId, now: int)
    requires Ready(s, c) && |s.log| < 9
    ensures Send(s, c, Note(|s.log|), "s", false, now) == Post(Counted(s, c, now), Letter(s, c, now))
  {
    SendAccepted(s, c, now);
    EnqueuesLetter(s, c, now);
    PostsOne(Counted(s, c, now), Letter(s, c, now));
  }

  lemma StaysReady(s: State, c: ChannelId, now: int, e: Envelope, d: ChannelId)
    requires Ready(s, c) && Ready(s, d) && |s.log| < 9
    ensures Ready(Post(Counted(s, c, now), e), d)
  {
    var ch, ch' := s.channels[d], Post(Counted(s, c, now), e).channels[d];
    forall key | key in ch'.seen
      ensures |key.1| == 1 && key.1[0] as int < 0x61 + |s.log| + 1
    {
      assert key in ch.seen || key.1 == Words(|s.log|);
    }
  }

  lemma SendKeepsReady(s: State, c: ChannelId, now: int)
    requires Ready(s, c) && |s.log| < 9
    ensures forall d :: Ready(s, d) ==> Ready(Post(Counted(s, c, now), Letter(s, c, now)), d)
  {
    forall d | Ready(s, d)
      ensures Ready(Post(Counted(s, c, now), Letter(s, c, now)), d)
    {
      StaysReady(s, c, now, Letter(s, c, now), d);
    }
  }

  lemma CountedCools(s: State, c: ChannelId, now: int)
    requires Ready(s, c)
    ensures var t := Counted(s, c, now);
            && t.channels.Keys == s.channels.Keys
            && forall d :: d in s.channels ==> t.channels[d].cooldownUntil == s.channels[d].cooldownUntil
  {
  }

  /** What it does. */
  lemma SendReadies(s: State, c: ChannelId, now: int)
    requires Ready(s, c) && |s.log| < 9
    ensures var t := Send(s, c, Note(|s.log|), "s", false, now);
            && t.log == s.log + [Letter(s, c, now)] && t.live == s.live + {|s.log|}
            && t.queues == s.queues["r" := QueueOf(s, "r") + [|s.log|]]
            && t.channels.Keys == s.channels.Keys
            && (forall d :: d in s.channels ==> t.channels[d].cooldownUntil == s.channels[d].cooldownUntil)
            && (forall d :: Ready(s, d) ==> Ready(t, d))
  {
    SendForm(s, c, now);
    SendKeepsReady(s, c, now);
    CountedCools(s, c, now);
  }

  /** `id` is a letter to "r" on the ready channel `c`, still pending. */
  ghost predicate Posted(s: State, c: ChannelId, id: MessageId) {
    Ready(s, c) && Waits(s, "r", id) && s.log[id].channel == c
  }

  lemma NeverLapses(s: State, c: ChannelId, id: MessageId, now: int)
    requires Posted(s, c, id)
    ensures !Expired(s.channels[c], s.log[id], now) && !Lapses(s, now, id)
  {
    PeerIsOther(s.channels[c]);
  }

  lemma JudgeLetter(s: State, c: ChannelId, id: MessageId, now: int, first: bool)
    requires Posted(s, c, id)
    ensures Judge(s, "r", now, None, id, first)
         == if first && now < CooldownUntil(s.channels[c], "r") then Keep else Take
  {
    NeverLapses(s, c, id, now);
  }

  /** Handing over a letter: the queue without it, the others as they were, the channel cooling. */
  lemma HandOverReadies(s: State, c: ChannelId, i: nat, now: int)
    requires i < |QueueOf(s, "r")| && Posted(s, c, QueueOf(s, "r")[i])
    ensures var t := HandOver(s, "r", i, now);
            && t.queues == s.queues["r" := RemoveAt(QueueOf(s, "r"), i)] && t.live == s.live
            && t.log == s.log[QueueOf(s, "r")[i] := HandedOver(s.log[QueueOf(s, "r")[i]])]
            && t.channels.Keys == s.channels.Keys
            && CooldownUntil(t.channels[c], "r") == now + DEFAULT_COOLDOWN_MS
            && (forall d :: d in s.channels && d != c ==> t.channels[d] == s.channels[d])
            && (forall d :: Ready(s, d) ==> Ready(t, d))
  {
  }

  /** A queue of one letter that is due. */
  lemma DrainsOne(s: State, c: ChannelId, id: MessageId, now: int)
    requires QueueOf(s, "r") == [id] && Posted(s, c, id) && now >= CooldownUntil(s.channels[c], "r")
    ensures DrainFrom(Touch(s, "r"), "r", now, None, 0, []) == Drained(HandOver(s, "r", 0, now), [id])
  {
    assert Touch(s, "r") == s by { assert s.queues["r" := [id]] == s.queues; }
    JudgeLetter(s, c, id, now, true);
    var t := HandOver(s, "r", 0, now);
    assert QueueOf(t, "r") == [] && [] + [id] == [id];
    assert DrainFrom(t, "r", now, None, 0, [id]) == Drained(t, [id]);
  }

  lemma SmallDrain(s: State, now: int)
    requires |s.log| < 10 && QueueInv(s)
    ensures Drain(s, "r", now, None) == DrainFrom(Touch(s, "r"), "r", now, None, 0, [])
  {
    FewIds(s.live, |s.log|);
    DrainPrunesNothing(s, "r", now, None);
  }

  /** The run so far, in which no batch for "r" was started while another was outstanding. */
  ghost predicate SingleFile(trace: seq<Event>, w: World) {
    Reaches(trace, w) && AloneRun(START, trace, "r")
  }

  lemma Acts(trace: seq<Event>, w: World, now: int, op: Op) returns (longer: seq<Event>, u: World)
    requires SingleFile(trace, w) && w.now <= now
    ensures SingleFile(longer, u)
    ensures u == w.(now := now, s := Apply(w.s, op, now), sends := u.sends)
  {
    var e := Event(now, Act(op));
    longer, u := trace + [e], Next(w, e);
    Go(trace, w, e);
    GoAlone(START, trace, e, "r");
  }

  /** "s" sends on channel `c`. */
  lemma Sends(trace: seq<Event>, w: World, now: int, c: ChannelId) returns (longer: seq<Event>, u: World)
    requires SingleFile(trace, w) && w.now <= now && Ready(w.s, c) && |w.s.log| < 9
    ensures SingleFile(longer, u)
    ensures u == w.(now := now, s := Send(w.s, c, Note(|w.s.log|), "s", false, now), sends := u.sends)
  {
    longer, u := Acts(trace, w, now, DoSend(c, Note(|w.s.log|), "s", false));
  }

  /** Nothing is in flight and no batch is unfinished. */
  ghost predicate AtRest(w: World) {
    && (forall id :: id in w.s.live && id < |w.s.log| ==> w.s.log[id].status != InFlight)
    && (forall j :: 0 <= j < |w.jobs| ==> w.jobs[j].fate != Open)
  }

  /** Channels 0 and 1 are ready; nothing was sent. */
  ghost predicate Fresh(w: World) {
    && Ready(w.s, 0) && Ready(w.s, 1) && w.s.log == [] && w.s.live == {} && w.s.queues == map[]
    && w.s.channels[0].cooldownUntil == map[] && w.s.channels[1].cooldownUntil == map[]
    && w.now == 0 && w.jobs == [] && w.committed == map[]
  }

  /** "s" opens a channel and "r" joins it. */
  lemma Opens(trace: seq<Event>, w: World, c: ChannelId) returns (longer: seq<Event>, u: World)
    requires SingleFile(trace, w) && w.now == 0 && w.s.nextChannel == c && |w.s.log| < 10
    ensures SingleFile(longer, u) && u.now == 0 && Ready(u.s, c) && u.s.channels[c].cooldownUntil == map[]
    ensures u.s == w.s.(channels := w.s.channels[c := u.s.channels[c]], nextChannel := c + 1)
    ensures u.jobs == w.jobs && u.committed == w.committed
  {
    longer, u := Acts(trace, w, 0, DoCreate(PLAIN, Some(Talker("s"))));
    MayEnter(u.s.channels[c]);
    longer, u := Acts(longer, u, 0, DoJoin(c, Talker("r")));
  }

  lemma MayEnter(ch: Channel)
    requires ch == NewChannel(PLAIN, [Talker("s")], 0)
    ensures MayJoin(ch, Talker("r"))
  {
    assert ch.members[1..] == [];
    assert Lower("s")[0] == 's' && Lower("r")[0] == 'r';
  }

  lemma TwoChannels() returns (trace: seq<Event>, w: World)
    ensures SingleFile(trace, w) && Fresh(w)
  {
    trace, w := Opens([], START, 0);
    trace, w := Opens(trace, w, 1);
  }

  lemma AlwaysBase(trace: seq<Event>, w: World, now: int)
    requires Reaches(trace, w) && w.now <= now
    ensures BaseInv(w.(now := now))
  {
    RunKeepsBase(START, trace);
    LaterIsFine(w, now);
  }

  /** What a pull leaves of the channels and of `r`'s queue is what its drain leaves. */
  lemma PullKeepsDrained(w: World)
    ensures var d := Drain(w.s, "r", w.now, None);
            var t := Begin(w, "r", PullJob).s;
            t.channels == d.state.channels && t.queues == d.state.queues && |t.log| == |d.state.log|
  {
    var d := Drain(w.s, "r", w.now, None);
    CommitEffects(d.state, "r", d.ids, w.now, PullTransport);
  }

  lemma PullRests(w: World)
    requires BaseInv(w) && AtRest(w)
    ensures AtRest(Begin(w, "r", PullJob))
  {
    var u := Begin(w, "r", PullJob);
    var taken := BeginEffects(w, "r", PullJob);
    forall id | id in u.s.live && id < |u.s.log|
      ensures u.s.log[id].status != InFlight
    {
      assert id in taken || Drift(w.s.log[id], u.s.log[id]);
    }
  }

  lemma Pulls(trace: seq<Event>, w: World, now: int) returns (longer: seq<Event>, u: World)
    requires SingleFile(trace, w) && AtRest(w) && w.now <= now
    ensures longer == trace + [Event(now, StartJob("r", PullJob))] && u == Begin(w.(now := now), "r", PullJob)
    ensures SingleFile(longer, u) && AtRest(u)
  {
    var e := Event(now, StartJob("r", PullJob));
    longer, u := trace + [e], Next(w, e);
    Go(trace, w, e);
    assert Alone(w.(now := now), e.step, "r");
    GoAlone(START, trace, e, "r");
    AlwaysBase(trace, w, now);
    PullRests(w.(now := now));
  }

  lemma SendRests(w: World, u: World, c: ChannelId)
    requires AtRest(w) && Ready(w.s, c) && |w.s.log| < 9 && u.jobs == w.jobs
    requires u.s == Send(w.s, c, Note(|w.s.log|), "s", false, u.now)
    ensures AtRest(u)
  {
    SendReadies(w.s, c, u.now);
  }

  /** "r" has pulled the first message of channel 0 and one more channel is untouched. */
  lemma AfterFirstPull() returns (trace: seq<Event>, w: World)
    ensures SingleFile(trace, w) && AtRest(w) && w.now == 0
    ensures Ready(w.s, 0) && Ready(w.s, 1) && |w.s.log| == 1 && QueueOf(w.s, "r") == [] && CommittedTo(w, "r") == [0]
    ensures CooldownUntil(w.s.channels[0], "r") == DEFAULT_COOLDOWN_MS && CooldownUntil(w.s.channels[1], "r") == 0
  {
    trace, w := TwoChannels();
    var v;
    SendReadies(w.s, 0, 0);
    trace, v := Sends(trace, w, 0, 0);
    SendRests(w, v, 0);
    trace, w := FirstPull(trace, v);
  }

  /** A pull of one letter that is due. */
  lemma PullsOne(w: World, c: ChannelId, id: MessageId)
    requires QueueInv(w.s) && QueueOf(w.s, "r") == [id] && Posted(w.s, c, id)
    requires w.now >= CooldownUntil(w.s.channels[c], "r")
    ensures var u, t := Begin(w, "r", PullJob), HandOver(w.s, "r", 0, w.now);
            u.s.channels == t.channels && u.s.queues == t.queues && |u.s.log| == |t.log|
            && CommittedTo(u, "r") == CommittedTo(w, "r") + [id]
  {
    SmallDrain(w.s, w.now);
    DrainsOne(w.s, c, id, w.now);
    PullKeepsDrained(w);
    FewIds(w.s.live, |w.s.log|);
    BeganCommitted(w, "r", PullJob, [id]);
  }

  lemma ReadyToo(s: State, t: State, c: ChannelId)
    requires Ready(s, c) && |t.log| == |s.log| && c in t.channels && t.channels[c] == s.channels[c]
    ensures Ready(t, c)
  {
  }

  lemma FirstPull(trace: seq<Event>, v: World) returns (longer: seq<Event>, u: World)
    requires SingleFile(trace, v) && AtRest(v) && v.now == 0 && CommittedTo(v, "r") == []
    requires Posted(v.s, 0, 0) && Ready(v.s, 1) && QueueOf(v.s, "r") == [0] && |v.s.log| == 1
    requires CooldownUntil(v.s.channels[0], "r") == 0 && CooldownUntil(v.s.channels[1], "r") == 0
    ensures SingleFile(longer, u) && AtRest(u) && u.now == 0
    ensures Ready(u.s, 0) && Ready(u.s, 1) && |u.s.log| == 1 && QueueOf(u.s, "r") == [] && CommittedTo(u, "r") == [0]
    ensures CooldownUntil(u.s.channels[0], "r") == DEFAULT_COOLDOWN_MS && CooldownUntil(u.s.channels[1], "r") == 0
  {
    longer, u := Pulls(trace, v, 0);
    assert QueueInv(v.s) by { AlwaysBase(trace, v, 0); }
    PullsOne(v, 0, 0);
    PulledReady(v, u);
    assert [] + [0] == [0];
  }

  lemma PulledReady(v: World, u: World)
    requires Posted(v.s, 0, 0) && Ready(v.s, 1) && QueueOf(v.s, "r") == [0] && |v.s.log| == 1
    requires CooldownUntil(v.s.channels[1], "r") == 0
    requires var t := HandOver(v.s, "r", 0, 0);
             u.s.channels == t.channels && u.s.queues == t.queues && |u.s.log| == |t.log|
    ensures Ready(u.s, 0) && Ready(u.s, 1) && |u.s.log| == 1 && QueueOf(u.s, "r") == []
    ensures CooldownUntil(u.s.channels[0], "r") == DEFAULT_COOLDOWN_MS && CooldownUntil(u.s.channels[1], "r") == 0
  {
    var t := HandOver(v.s, "r", 0, 0);
    HandOverReadies(v.s, 0, 0, 0);
    ReadyToo(t, u.s, 0);
    ReadyToo(t, u.s, 1);
  }

  /** What a send leaves as it was. */
  ghost predicate GoesOn(w: World, u: World) {
    && u.committed == w.committed
    && (forall d :: Ready(w.s, d) ==> Ready(u.s, d))
    && (forall d, id :: Posted(w.s, d, id) ==> Posted(u.s, d, id))
    && w.s.channels.Keys <= u.s.channels.Keys
    && forall d :: d in w.s.channels ==> CooldownUntil(u.s.channels[d], "r") == CooldownUntil(w.s.channels[d], "r")
  }

  /** `u` is `w` with one more letter for "r" on channel `c`. */
  ghost predicate Mailed(w: World, u: World, c: ChannelId) {
    && |w.s.log| < 9 && Ready(w.s, c) && GoesOn(w, u) && u.jobs == w.jobs
    && u.s.log == w.s.log + [Letter(w.s, c, u.now)] && u.s.live == w.s.live + {|w.s.log|}
    && Posted(u.s, c, |w.s.log|) && QueueOf(u.s, "r") == QueueOf(w.s, "r") + [|w.s.log|]
  }

  lemma SendMails(w: World, u: World, c: ChannelId)
    requires Ready(w.s, c) && |w.s.log| < 9 && (forall id :: id in w.s.live ==> id < |w.s.log|)
    requires u == w.(now := u.now, s := Send(w.s, c, Note(|w.s.log|), "s", false, u.now), sends := u.sends)
    ensures Mailed(w, u, c)
  {
    SendReadies(w.s, c, u.now);
    assert GoesOn(w, u) by {
      forall d, id | Posted(w.s, d, id)
        ensures Posted(u.s, d, id)
      {
      }
    }
  }

  lemma Mails(trace: seq<Event>, w: World, now: int, c: ChannelId) returns (longer: seq<Event>, u: World)
    requires SingleFile(trace, w) && w.now <= now && Ready(w.s, c) && |w.s.log| < 9
    ensures SingleFile(longer, u) && u.now == now && Mailed(w, u, c) && (AtRest(w) ==> AtRest(u))
  {
    assert forall id :: id in w.s.live ==> id < |w.s.log| by { AlwaysBase(trace, w, now); }
    longer, u := Sends(trace, w, now, c);
    SendMails(w, u, c);
    if AtRest(w) {
      SendRests(w, u, c);
    }
  }

  /** In front a letter of the cooling channel 0, behind it one of channel 1, then another
      of channel 0. */
  ghost predicate Mixed(s: State) {
    && |s.log| == 4 && QueueOf(s, "r") == [1, 2, 3] && Posted(s, 0, 1) && Posted(s, 1, 2) && Posted(s, 0, 3)
    && CooldownUntil(s.channels[0], "r") > 1 && CooldownUntil(s.channels[1], "r") <= 1
  }

  lemma MixedMail() returns (trace: seq<Event>, w: World)
    ensures SingleFile(trace, w) && AtRest(w) && w.now == 1 && CommittedTo(w, "r") == [0] && Mixed(w.s)
  {
    trace, w := AfterFirstPull();
    var u, v, x;
    trace, u := Mails(trace, w, 1, 0);
    trace, v := Mails(trace, u, 1, 1);
    trace, x := Mails(trace, v, 1, 0);
    MailsMix(w, u, v, x);
    w := x;
  }

  lemma MailsMix(w: World, u: World, v: World, x: World)
    requires |w.s.log| == 1 && QueueOf(w.s, "r") == []
    requires Mailed(w, u, 0) && Mailed(u, v, 1) && Mailed(v, x, 0)
    requires Ready(w.s, 1)
    requires CooldownUntil(w.s.channels[0], "r") > 1 && CooldownUntil(w.s.channels[1], "r") <= 1
    ensures Mixed(x.s) && x.committed == w.committed
  {
    assert [] + [1] + [2] + [3] == [1, 2, 3];
    GoesOnTwice(w, u, v);
    GoesOnTwice(w, v, x);
  }

  lemma GoesOnTwice(w: World, u: World, v: World)
    requires GoesOn(w, u) && GoesOn(u, v)
    ensures GoesOn(w, v)
  {
  }

  lemma MixedOvertakes(s: State)
    requires Mixed(s)
    ensures Overtakes(s, "r", 1, None, 0) && OfOne(s, 0, QueueOf(s, "r")) == [1, 3]
  {
    var q := QueueOf(s, "r");
    JudgeLetter(s, 0, 1, 1, true);
    JudgeLetter(s, 1, 2, 1, true);
    assert q[..1] == [1] && q[1..] == [2] + [3] && [1, 2, 3] == [1] + q[1..];
    assert FirstTaken(s, "r", 1, None, q[1..]) == 0;
    assert FirstTaken(s, "r", 1, None, q) == 1;
    NeverLapses(s, 0, 1, 1);
    NeverLapses(s, 1, 2, 1);
    NeverLapses(s, 0, 3, 1);
    assert [1][1..] == [] && [3][1..] == [] && ([2] + [3])[1..] == [3];
    assert Lasting(s, 1, []) == [] && Lasting(s, 1, [3]) == [3];
    assert Lasting(s, 1, [2] + [3]) == [2] + [3] && Lasting(s, 1, [1]) == [1];
    OfOneCons(s, 0, 1, q[1..]);
    OfOneCons(s, 0, 2, [3]);
    OfOneCons(s, 0, 3, []);
    OfOneCons(s, 0, 1, []);
    assert [1] + [] == [1] && [3] + [] == [3];
  }

  /** The second letter of channel 0 goes out and the first stays behind. */
  lemma MixedDrains(s: State)
    requires Mixed(s)
    ensures var d := DrainFrom(Touch(s, "r"), "r", 1, None, 0, []);
            d.ids == [2, 3] && QueueOf(d.state, "r") == [1]
  {
    assert Touch(s, "r") == s by { assert s.queues["r" := QueueOf(s, "r")] == s.queues; }
    JudgeLetter(s, 0, 1, 1, true);
    JudgeLetter(s, 1, 2, 1, true);
    HandOverReadies(s, 1, 1, 1);
    var t := HandOver(s, "r", 1, 1);
    assert QueueOf(t, "r") == [1, 3] && [] + [2] == [2];
    assert DrainFrom(s, "r", 1, None, 1, []) == DrainFrom(t, "r", 1, None, 1, [2]);
    ThirdGoes(t);
  }

  lemma ThirdGoes(s: State)
    requires QueueOf(s, "r") == [1, 3] && Posted(s, 0, 3)
    ensures var d := DrainFrom(s, "r", 1, None, 1, [2]);
            d.ids == [2, 3] && QueueOf(d.state, "r") == [1]
  {
    JudgeLetter(s, 0, 3, 1, false);
    HandOverReadies(s, 0, 1, 1);
    var t := HandOver(s, "r", 1, 1);
    assert QueueOf(t, "r") == [1] && [2] + [3] == [2, 3];
    assert DrainFrom(s, "r", 1, None, 1, [2]) == DrainFrom(t, "r", 1, None, 1, [2, 3]);
  }

  /** A run in which mail of two channels is pulled out of order, one batch at a time: of
      channel 0 the second letter goes before the first, as its cooldown overtakes it. */
  lemma CoolingChannelIsOvertaken() returns (trace: seq<Event>, pull: Event)
    ensures Legal(START, trace) && Legal(START, trace + [pull]) && AloneRun(START, trace + [pull], "r")
    ensures pull.step == StartJob("r", PullJob)
    ensures var w := Run(START, trace);
            Overtakes(w.s, "r", pull.now, None, 0) && OfOne(w.s, 0, QueueOf(w.s, "r")) == [1, 3]
    ensures var u := Run(START, trace + [pull]);
            CommittedTo(u, "r") == [0, 2, 3] && QueueOf(u.s, "r") == [1] && !InOrder(u, "r")
  {
    var w, u, longer;
    trace, w := MixedMail();
    pull := Event(1, StartJob("r", PullJob));
    MixedOvertakes(w.s);
    longer, u := Pulls(trace, w, 1);
    assert BaseInv(w) by { AlwaysBase(trace, w, 1); }
    MixedPulled(w, u);
    assert CommittedTo(u, "r")[2] == 3 && QueueOf(u.s, "r")[0] == 1;
  }

  lemma MixedPulled(w: World, u: World)
    requires BaseInv(w) && Mixed(w.s) && w.now == 1 && CommittedTo(w, "r") == [0] && u == Begin(w, "r", PullJob)
    ensures CommittedTo(u, "r") == [0, 2, 3] && QueueOf(u.s, "r") == [1]
  {
    SmallDrain(w.s, 1);
    MixedDrains(w.s);
    PullKeepsDrained(w);
    BeganCommitted(w, "r", PullJob, [2, 3]);
    assert [0] + [2, 3] == [0, 2, 3];
  }

  /** A push of one letter that is due is started. */
  lemma StartsOne(w: World, c: ChannelId, id: MessageId)
    requires QueueInv(w.s) && QueueOf(w.s, "r") == [id] && Posted(w.s, c, id)
    requires w.now >= CooldownUntil(w.s.channels[c], "r")
    ensures Begin(w, "r", PushJob)
         == w.(s := HandOver(w.s, "r", 0, w.now), jobs := w.jobs + [Outstanding(id, w.now)])
  {
    SmallDrain(w.s, w.now);
    DrainsOne(w.s, c, id, w.now);
  }

  function Outstanding(id: MessageId, now: int): Job {
    Job(PushJob, "r", [id], false, None, Open, false, now)
  }

  /** Letter `id` of channel 0 is in flight to "r" after one attempt. */
  ghost predicate Sent(s: State, id: MessageId) {
    InFlightTo(s, "r", id) && s.log[id].channel == 0 && s.log[id].attempts == 1
  }

  /** A push of the one queued letter of channel 0 is started. */
  lemma PushStarts(trace: seq<Event>, w: World, id: MessageId) returns (longer: seq<Event>, u: World)
    requires Reaches(trace, w) && QueueOf(w.s, "r") == [id] && Posted(w.s, 0, id) && w.s.log[id].attempts == 0
    requires w.now >= CooldownUntil(w.s.channels[0], "r")
    ensures longer == trace + [Event(w.now, StartJob("r", PushJob))] && Reaches(longer, u)
    ensures u.jobs == w.jobs + [Outstanding(id, w.now)] && u.committed == w.committed && u.now == w.now
    ensures Ready(u.s, 0) && CooldownUntil(u.s.channels[0], "r") == w.now + DEFAULT_COOLDOWN_MS
    ensures QueueOf(u.s, "r") == [] && u.s.live == w.s.live
    ensures u.s.log == w.s.log[id := HandedOver(w.s.log[id])] && Sent(u.s, id)
  {
    var e := Event(w.now, StartJob("r", PushJob));
    assert QueueInv(w.s) by { AlwaysBase(trace, w, w.now); }
    StartsOne(w, 0, id);
    HandOverReadies(w.s, 0, 0, w.now);
    Go(trace, w, e);
    longer, u := trace + [e], Begin(w, "r", PushJob);
  }

  /** One letter is in flight; its push is not finished. */
  lemma FirstPush() returns (trace: seq<Event>, w: World)
    ensures SingleFile(trace, w) && w.now == 0 && Ready(w.s, 0) && |w.s.log| == 1 && Sent(w.s, 0)
    ensures QueueOf(w.s, "r") == [] && CooldownUntil(w.s.channels[0], "r") == DEFAULT_COOLDOWN_MS
    ensures w.jobs == [Outstanding(0, 0)] && w.committed == map[]
  {
    var v, u, longer;
    trace, w := TwoChannels();
    trace, v := Mails(trace, w, 0, 0);
    assert [] + [0] == [0];
    longer, u := PushStarts(trace, v, 0);
    assert Alone(v.(now := 0), StartJob("r", PushJob), "r");
    GoAlone(START, trace, Event(0, StartJob("r", PushJob)), "r");
    trace, w := longer, u;
  }

  /** Two letters of channel 0 are in flight, each in a push of its own. */
  ghost predicate Twins(w: World) {
    && |w.s.log| == 2 && Sent(w.s, 0) && Sent(w.s, 1) && QueueOf(w.s, "r") == []
    && w.jobs == [Outstanding(0, 0), Outstanding(1, 1_000)] && w.committed == map[] && w.now == 1_000
  }

  lemma SecondPush() returns (trace: seq<Event>, w: World)
    ensures Reaches(trace, w) && Twins(w)
  {
    var v, u;
    trace, u := FirstPush();
    trace, v := Mails(trace, u, 1_000, 0);
    assert [] + [1] == [1];
    assert Sent(v.s, 0);
    trace, w := PushStarts(trace, v, 1);
    assert Sent(w.s, 0);
  }

  /** The second push is accepted and committed, then the first is given back uncalled. */
  lemma TwinsSettle(trace: seq<Event>, w: World) returns (longer: seq<Event>, u: World)
    requires Reaches(trace, w) && Twins(w)
    ensures Reaches(longer, u) && CommittedTo(u, "r") == [1] && QueueOf(u.s, "r") == [0] && OneChannel(u.s, "r", 0)
  {
    longer, u := trace, w;
    var called := Event(1_000, CallHost(1));
    Go(longer, u, called);
    longer, u := longer + [called], Next(u, called);
    var answered := Event(1_000, HostAnswers(1, Accepted));
    Go(longer, u, answered);
    longer, u := longer + [answered], Next(u, answered);
    longer, u := SecondConfirmed(longer, u, w.s);
    longer, u := FirstReturned(longer, u);
  }

  lemma SecondConfirmed(trace: seq<Event>, w: World, s: State) returns (longer: seq<Event>, u: World)
    requires Reaches(trace, w) && w.now == 1_000 && w.committed == map[] && w.s == s
    requires |w.jobs| == 2 && w.jobs[0] == Outstanding(0, 0)
    requires w.jobs[1] == Outstanding(1, 1_000).(called := true, answer := Some(Accepted))
    requires |s.log| == 2 && Sent(s, 0) && Sent(s, 1) && QueueOf(s, "r") == []
    ensures Reaches(longer, u) && u.now == 1_000 && |u.jobs| == 2 && u.jobs[0] == Outstanding(0, 0)
    ensures |u.s.log| == 2 && Sent(u.s, 0) && u.s.log[1].channel == 0
    ensures QueueOf(u.s, "r") == [] && CommittedTo(u, "r") == [1]
  {
    var confirmed := Event(1_000, Confirm(1));
    Go(trace, w, confirmed);
    CommitEffects(s, "r", [1], 1_000, SpawnTransport);
    CommittableAll(s, "r", [1]);
    assert [] + [1] == [1];
    longer, u := trace + [confirmed], Next(w, confirmed);
  }

  lemma FirstReturned(trace: seq<Event>, w: World) returns (longer: seq<Event>, u: World)
    requires Reaches(trace, w) && w.now == 1_000 && |w.jobs| == 2 && w.jobs[0] == Outstanding(0, 0)
    requires |w.s.log| == 2 && Sent(w.s, 0) && w.s.log[1].channel == 0
    requires QueueOf(w.s, "r") == [] && CommittedTo(w, "r") == [1]
    ensures Reaches(longer, u) && CommittedTo(u, "r") == [1] && QueueOf(u.s, "r") == [0] && OneChannel(u.s, "r", 0)
  {
    var returned := Event(1_000, GiveBack(0));
    Go(trace, w, returned);
    longer, u := trace + [returned], Next(w, returned);
    var t := Touch(w.s, "r");
    assert [0][..0] == [] && [0] + [] == [0];
    assert ReturnAll(t, "r", [0]) == ReturnAll(ReturnOne(t, "r", 0), "r", []);
    assert QueueOf(ReturnOne(t, "r", 0), "r") == [0];
    RequeueEffects(w.s, "r", [0]);
  }

  /** A run in which all of "r"'s mail is on one channel and two pushes overlap: the second
      letter is delivered while the first is queued again. */
  lemma OverlappingBatchesBreakOrder() returns (trace: seq<Event>)
    ensures Legal(START, trace)
    ensures var w := Run(START, trace);
            OneChannel(w.s, "r", 0) && CommittedTo(w, "r") == [1] && QueueOf(w.s, "r") == [0] && !InOrder(w, "r")
  {
    var w;
    trace, w := SecondPush();
    trace, w := TwinsSettle(trace, w);
    assert CommittedTo(w, "r")[0] == 1 && QueueOf(w.s, "r")[0] == 0;
  }
}
