/** The command line a spawned delivery is given (src/hosts/spawn-delivery.ts:72-76,
    290-293, 324-408). */
module Argv {
  import opened Seqs
  import opened Types
  import opened Retention
  import opened Delivery
  import opened Queues
  import opened Effects
  import opened System
  import opened Safety

  datatype Platform = Windows | Posix

  const OVERHEAD := 64
  const NL: Unit := 10
  const DASH: Unit := 45

  /** What joins the framed messages: two newlines, three dashes, two newlines. */
  const SEPARATOR: Text := [NL, NL, DASH, DASH, DASH, NL, NL]

  function Budget(platform: Platform): nat {
    if platform.Windows? then 30_000 else 120_000
  }

  predicate High(u: Unit) {
    0xD800 <= u <= 0xDBFF
  }

  predicate Low(u: Unit) {
    0xDC00 <= u <= 0xDFFF
  }

  /** Bytes of one unit that is not part of a pair; an unpaired surrogate is replaced by a
      character of three. */
  function UnitBytes(u: Unit): nat {
    if u < 0x80 then 1 else if u < 0x800 then 2 else 3
  }

  /** `Buffer.byteLength(text, "utf8")`. */
  function Utf8Bytes(text: Text): nat {
    if text == [] then 0
    else if |text| >= 2 && High(text[0]) && Low(text[1]) then 4 + Utf8Bytes(text[2..])
    else UnitBytes(text[0]) + Utf8Bytes(text[1..])
  }

  /** The bytes of the i-th unit in its place: a half of a pair counts two. */
  function ByteShare(text: Text, i: nat): nat
    requires i < |text|
  {
    if High(text[i]) && i + 1 < |text| && Low(text[i + 1]) then 2
    else if Low(text[i]) && i > 0 && High(text[i - 1]) then 2
    else if text[i] as int <= 0x7F then 1
    else if text[i] as int <= 0x7FF then 2
    else 3
  }

  function ByteShares(text: Text, i: nat): nat
    requires i <= |text|
    decreases |text| - i
  {
    if i == |text| then 0 else ByteShare(text, i) + ByteShares(text, i + 1)
  }

  /** The bytes of a text are those of its units, each in its place. */
  lemma {:induction false} BytesByUnit(text: Text, i: nat)
    requires i <= |text| && (0 < i < |text| && High(text[i - 1]) ==> !Low(text[i]))
    ensures Utf8Bytes(text[i..]) == ByteShares(text, i)
    decreases |text| - i
  {
    if i < |text| {
      assert text[i..][1..] == text[i + 1..];
      if i + 1 < |text| && High(text[i]) && Low(text[i + 1]) {
        assert text[i..][2..] == text[i + 2..];
        BytesByUnit(text, i + 2);
      } else {
        BytesByUnit(text, i + 1);
      }
    }
  }

  /** `spawnArgumentCost`. */
  function ArgumentCost(text: Text, platform: Platform): nat {
    if platform.Windows? then 2 * |text| + 3 else Utf8Bytes(text) + 1
  }

  function JoinedBy(texts: seq<Text>, gap: Text): Text {
    if texts == [] then []
    else if |texts| == 1 then texts[0]
    else texts[0] + gap + JoinedBy(texts[1..], gap)
  }

  function Joined(texts: seq<Text>): Text {
    JoinedBy(texts, SEPARATOR)
  }

  function CostSum(texts: seq<Text>, platform: Platform): nat {
    if texts == [] then 0 else ArgumentCost(texts[0], platform) + CostSum(texts[1..], platform)
  }

  /** Where no pair straddles the seam, bytes add up. */
  lemma {:induction false} BytesAdd(a: Text, b: Text)
    requires a == [] || b == [] || !High(a[|a| - 1]) || !Low(b[0])
    ensures Utf8Bytes(a + b) == Utf8Bytes(a) + Utf8Bytes(b)
  {
    if a == [] {
      assert a + b == b;
    } else if |a| >= 2 && High(a[0]) && Low(a[1]) {
      assert (a + b)[2..] == a[2..] + b;
      BytesAdd(a[2..], b);
    } else {
      assert (a + b)[1..] == a[1..] + b;
      BytesAdd(a[1..], b);
      assert |a| == 1 && b != [] ==> (a + b)[1] == b[0];
    }
  }

  lemma SeparatorBytes(a: Text, b: Text)
    ensures Utf8Bytes(a + SEPARATOR + b) == Utf8Bytes(a) + 7 + Utf8Bytes(b)
  {
    BytesAdd(a, SEPARATOR);
    BytesAdd(a + SEPARATOR, b);
    PlainBytes(SEPARATOR);
  }

  lemma {:induction false} PlainBytes(text: Text)
    requires forall i :: 0 <= i < |text| ==> text[i] < 0x80
    ensures Utf8Bytes(text) == |text|
  {
    if text != [] {
      PlainBytes(text[1..]);
    }
  }

  /** What one separator adds to the sum of the parts' costs. */
  function SeamCost(platform: Platform): nat {
    if platform.Windows? then 11 else 6
  }

  /** The exact cost of a joined batch. */
  lemma {:induction false} JoinedCost(texts: seq<Text>, platform: Platform)
    requires texts != []
    ensures ArgumentCost(Joined(texts), platform) == CostSum(texts, platform) + SeamCost(platform) * (|texts| - 1)
  {
    if |texts| > 1 {
      JoinedCost(texts[1..], platform);
      SeparatorBytes(texts[0], Joined(texts[1..]));
    }
  }

  /** `p` is `q` with some elements left out. */
  predicate Subsequence<T(==)>(p: seq<T>, q: seq<T>) {
    p == [] || (q != [] && ((p[0] == q[0] && Subsequence(p[1..], q[1..])) || Subsequence(p, q[1..])))
  }

  lemma {:induction false} FewerCostLess(p: seq<Text>, q: seq<Text>, platform: Platform)
    requires Subsequence(p, q)
    ensures |p| <= |q| && CostSum(p, platform) <= CostSum(q, platform)
  {
    if p != [] {
      if p[0] == q[0] && Subsequence(p[1..], q[1..]) {
        FewerCostLess(p[1..], q[1..], platform);
      } else {
        FewerCostLess(p, q[1..], platform);
      }
    }
  }

  /** Leaving messages out never costs more. */
  lemma SubsetCostsLess(p: seq<Text>, q: seq<Text>, platform: Platform)
    requires Subsequence(p, q)
    ensures ArgumentCost(Joined(p), platform) <= ArgumentCost(Joined(q), platform)
  {
    FewerCostLess(p, q, platform);
    if p != [] {
      JoinedCost(p, platform);
      JoinedCost(q, platform);
    }
  }

  /** The frame text of an envelope depends on nothing that delivery changes. */
  function Framed(s: State, frame: Envelope -> Text, id: MessageId): Text
    requires id < |s.log|
  {
    frame(Identity(s.log[id]))
  }

  /** The framed texts of those of `ids` that are persisted, and pending if `onlyPending`. */
  function Texts(s: State, frame: Envelope -> Text, ids: seq<MessageId>, onlyPending: bool): seq<Text> {
    if ids == [] then []
    else
      (if Has(s, ids[0]) && (onlyPending ==> s.log[ids[0]].status == Pending) then [Framed(s, frame, ids[0])] else [])
      + Texts(s, frame, ids[1..], onlyPending)
  }

  function CommandCost(fixed: seq<Text>, message: Text, platform: Platform): nat {
    OVERHEAD + CostSum(fixed, platform) + ArgumentCost(message, platform)
  }

  /** The exact check under the drain's own lock. */
  predicate Fits(s: State, r: Session, fixed: seq<Text>, frame: Envelope -> Text, platform: Platform) {
    CommandCost(fixed, Joined(Texts(s, frame, QueueOf(s, r), true)), platform) <= Budget(platform)
  }

  datatype Prepared = Prepared(state: State, ids: seq<MessageId>, message: Text)

  /** The locked first phase of a spawn delivery: None when the pending mail does not fit,
      which leaves everything as it is. */
  function Prepare(s: State, r: Session, now: int, fixed: seq<Text>, frame: Envelope -> Text,
        platform: Platform): Option<Prepared> {
    if !Fits(s, r, fixed, frame, platform) then None
    else
      var d := Drain(s, r, now, None);
      Some(Prepared(d.state, d.ids, Joined(Texts(d.state, frame, d.ids, false))))
  }

  /** The drain takes a subsequence of the queue. */
  lemma {:induction false} DrainTakesWithin(s: State, r: Session, now: int, gate: Gate, i: nat, ids: seq<MessageId>)
      returns (taken: seq<MessageId>)
    requires QueueInv(s) && i <= |QueueOf(s, r)|
    ensures DrainFrom(s, r, now, gate, i, ids).ids == ids + taken
    ensures Subsequence(taken, QueueOf(s, r)[i..])
    decreases |QueueOf(s, r)| - i
  {
    var q := QueueOf(s, r);
    if i == |q| {
      return [];
    }
    assert Waits(s, r, q[i]) by { DequeueKeeps(s, r, i, Stale); }
    TailWithout(q, i);
    var verdict := Judge(s, r, now, gate, q[i], ids == []);
    if verdict == Keep {
      taken := DrainTakesWithin(s, r, now, gate, i + 1, ids);
      SkipsFirst(taken, q[i..]);
    } else if verdict.Drop? {
      var u := Dequeue(s, r, i, verdict.status);
      assert QueueInv(u) by { DequeueKeeps(s, r, i, verdict.status); }
      taken := DrainTakesWithin(u, r, now, gate, i, ids);
      SkipsFirst(taken, q[i..]);
    } else {
      taken := TakeWithin(s, r, now, gate, i, ids);
    }
  }

  lemma TailWithout(q: seq<MessageId>, i: nat)
    requires i < |q|
    ensures q[i..][1..] == q[i + 1..] && RemoveAt(q, i)[i..] == q[i + 1..]
  {
  }

  lemma SkipsFirst(p: seq<MessageId>, q: seq<MessageId>)
    requires q != [] && Subsequence(p, q[1..])
    ensures Subsequence(p, q)
  {
  }

  lemma {:induction false} TakeWithin(s: State, r: Session, now: int, gate: Gate, i: nat, ids: seq<MessageId>)
      returns (taken: seq<MessageId>)
    requires QueueInv(s) && i < |QueueOf(s, r)|
    requires Judge(s, r, now, gate, QueueOf(s, r)[i], ids == []) == Take
    ensures DrainFrom(s, r, now, gate, i, ids).ids == ids + taken
    ensures Subsequence(taken, QueueOf(s, r)[i..])
    decreases |QueueOf(s, r)| - i, 0
  {
    var q, u := QueueOf(s, r), HandOver(s, r, i, now);
    assert QueueInv(u) by { HandOverKeeps(s, r, i, now); }
    TailWithout(q, i);
    assert QueueOf(u, r) == RemoveAt(q, i);
    var rest := DrainTakesWithin(u, r, now, gate, i, ids + [q[i]]);
    taken := [q[i]] + rest;
    AppendAssoc(ids, q[i], rest);
    assert taken[0] == q[i..][0] && taken[1..] == rest;
  }

  /** In a state any run reaches, what is drained frames to some of the texts measured. */
  lemma {:induction false} TextsWithin(s: State, t: State, frame: Envelope -> Text, taken: seq<MessageId>,
        q: seq<MessageId>)
    requires Subsequence(taken, q) && Follows(s, t) && t.live == s.live
    requires forall i :: 0 <= i < |q| ==> Has(s, q[i]) && s.log[q[i]].status == Pending
    ensures Subsequence(Texts(t, frame, taken, false), Texts(s, frame, q, true))
  {
    if taken != [] {
      if taken[0] == q[0] && Subsequence(taken[1..], q[1..]) {
        TextsWithin(s, t, frame, taken[1..], q[1..]);
        assert Framed(t, frame, q[0]) == Framed(s, frame, q[0]);
        assert Texts(t, frame, taken, false)[1..] == Texts(t, frame, taken[1..], false);
        assert Texts(s, frame, q, true)[1..] == Texts(s, frame, q[1..], true);
      } else {
        TextsWithin(s, t, frame, taken, q[1..]);
        assert Texts(s, frame, q, true)[1..] == Texts(s, frame, q[1..], true);
      }
    }
  }

  lemma DrainedWithinQueue(s: State, r: Session, now: int)
    requires QueueInv(s) && |LiveIds(s)| <= MAX_PERSISTED_MESSAGES
    ensures var d := Drain(s, r, now, None);
            Subsequence(d.ids, QueueOf(s, r)) && Follows(s, d.state) && d.state.live == s.live
  {
    DrainPrunesNothing(s, r, now, None);
    TouchKeeps(s, r);
    var taken := DrainTakesWithin(Touch(s, r), r, now, None, 0, []);
    assert [] + taken == taken && QueueOf(s, r)[0..] == QueueOf(s, r);
    DrainFromKeeps(Touch(s, r), r, now, None, 0, []);
    FollowsTrans(s, Touch(s, r), Drain(s, r, now, None).state);
  }

  /** What is drained under the lock of the exact check fits as well. */
  lemma PreparedFits(s: State, r: Session, now: int, fixed: seq<Text>, frame: Envelope -> Text, platform: Platform)
    requires QueueInv(s) && |LiveIds(s)| <= MAX_PERSISTED_MESSAGES
    ensures var p := Prepare(s, r, now, fixed, frame, platform);
            p.Some? ==> CommandCost(fixed, p.value.message, platform) <= Budget(platform)
  {
    if Fits(s, r, fixed, frame, platform) {
      var q, d := QueueOf(s, r), Drain(s, r, now, None);
      DrainedWithinQueue(s, r, now);
      assert QueueOk(s, r, q);
      assert forall i :: 0 <= i < |q| ==> Waits(s, r, q[i]);
      TextsWithin(s, d.state, frame, d.ids, q);
      SubsetCostsLess(Texts(d.state, frame, d.ids, false), Texts(s, frame, q, true), platform);
    }
  }

  /** `call` is the framed envelopes of `ids` in their order, the k-th at offset `at[k]`, with
      `gap` between neighbours and nothing else. */
  ghost predicate SpelledAt(s: State, frame: Envelope -> Text, ids: seq<MessageId>, gap: Text, call: Text,
        at: seq<nat>) {
    && |at| == |ids| && (ids == [] ==> call == [])
    && forall k :: 0 <= k < |ids| ==>
         ids[k] < |s.log| && SpelledHere(frame(Identity(s.log[ids[k]])), gap, call, at, k)
  }

  ghost predicate SpelledHere(part: Text, gap: Text, call: Text, at: seq<nat>, k: nat)
    requires k < |at|
  {
    && (k == 0 ==> at[k] == 0)
    && at[k] + |part| <= |call| && call[at[k]..at[k] + |part|] == part
    && if k + 1 == |at| then at[k] + |part| == |call|
       else at[k] + |part| + |gap| == at[k + 1] <= |call| && call[at[k] + |part|..at[k + 1]] == gap
  }

  function Further(at: seq<nat>, n: nat): seq<nat> {
    [0] + seq(|at|, i requires 0 <= i < |at| => at[i] + n)
  }

  lemma SpelledLater(first: Text, part: Text, gap: Text, call: Text, at: seq<nat>, k: nat)
    requires k < |at| && SpelledHere(part, gap, call, at, k)
    ensures SpelledHere(part, gap, first + gap + call, Further(at, |first| + |gap|), k + 1)
  {
    var n, longer := |first| + |gap|, first + gap + call;
    assert |first + gap| == n;
    assert forall i :: 0 <= i < |call| ==> longer[n + i] == call[i];
    assert longer[n + at[k]..n + at[k] + |part|] == call[at[k]..at[k] + |part|];
    if k + 1 < |at| {
      assert longer[n + at[k] + |part|..n + at[k + 1]] == call[at[k] + |part|..at[k + 1]];
    }
  }

  /** Joining the framed texts spells the envelopes out. */
  lemma {:induction false} JoinedSpells(s: State, frame: Envelope -> Text, ids: seq<MessageId>, gap: Text)
      returns (at: seq<nat>)
    requires forall k :: 0 <= k < |ids| ==> Has(s, ids[k])
    ensures |Texts(s, frame, ids, false)| == |ids|
    ensures SpelledAt(s, frame, ids, gap, JoinedBy(Texts(s, frame, ids, false), gap), at)
  {
    if ids == [] {
      return [];
    }
    var part, more := frame(Identity(s.log[ids[0]])), Texts(s, frame, ids[1..], false);
    var behind := JoinedSpells(s, frame, ids[1..], gap);
    assert Texts(s, frame, ids, false) == [part] + more && ([part] + more)[1..] == more;
    if |ids| == 1 {
      return [0];
    }
    var call := JoinedBy(more, gap);
    at := Further(behind, |part| + |gap|);
    FirstSpelled(part, gap, call, behind);
    forall k | 0 <= k < |ids|
      ensures SpelledHere(frame(Identity(s.log[ids[k]])), gap, part + gap + call, at, k)
    {
      if k > 0 {
        assert SpelledHere(frame(Identity(s.log[ids[1..][k - 1]])), gap, call, behind, k - 1);
        SpelledLater(part, frame(Identity(s.log[ids[k]])), gap, call, behind, k - 1);
      }
    }
  }

  lemma FirstSpelled(part: Text, gap: Text, call: Text, behind: seq<nat>)
    requires |behind| > 0 && behind[0] == 0
    ensures SpelledHere(part, gap, part + gap + call, Further(behind, |part| + |gap|), 0)
  {
    var longer := part + gap + call;
    assert longer[0..|part|] == part && longer[|part|..|part| + |gap|] == gap;
  }

  /** What a drain hands over is spelled out whole, in the order drained. */
  lemma DrainSpells(s: State, r: Session, now: int, gate: Gate, frame: Envelope -> Text, gap: Text)
    requires QueueInv(s) && |LiveIds(s)| <= MAX_PERSISTED_MESSAGES
    ensures var d := Drain(s, r, now, gate);
            exists at :: SpelledAt(s, frame, d.ids, gap, JoinedBy(Texts(d.state, frame, d.ids, false), gap), at)
  {
    var d := Drain(s, r, now, gate);
    DrainPrunesNothing(s, r, now, gate);
    DrainEffects(s, r, now, gate);
    assert Follows(s, d.state) by { DrainKeeps(s, r, now, gate); }
    forall k | 0 <= k < |d.ids|
      ensures Has(d.state, d.ids[k])
    {
      assert Waits(s, r, d.ids[k]);
    }
    var at := JoinedSpells(d.state, frame, d.ids, gap);
    SpelledInBoth(s, d.state, frame, d.ids, gap, JoinedBy(Texts(d.state, frame, d.ids, false), gap), at);
  }

  lemma SpelledInBoth(s: State, t: State, frame: Envelope -> Text, ids: seq<MessageId>, gap: Text, call: Text,
        at: seq<nat>)
    requires Follows(s, t) && |t.log| == |s.log| && SpelledAt(t, frame, ids, gap, call, at)
    ensures SpelledAt(s, frame, ids, gap, call, at)
  {
    forall k | 0 <= k < |ids|
      ensures SpelledHere(frame(Identity(s.log[ids[k]])), gap, call, at, k)
    {
      assert SpelledHere(frame(Identity(t.log[ids[k]])), gap, call, at, k);
    }
  }

  /** Every batch that is actually spawned fits the platform's command line, in every state
      of every run: the drain takes a subsequence of the mail measured under the same lock. */
  lemma SpawnedBatchFits(trace: seq<Event>, r: Session, now: int, fixed: seq<Text>, frame: Envelope -> Text,
        platform: Platform)
    requires Legal(START, trace)
    ensures var p := Prepare(Run(START, trace).s, r, now, fixed, frame, platform);
            p.Some? ==>
              CommandCost(fixed, p.value.message, platform) <= (if platform.Windows? then 30_000 else 120_000)
  {
    RunKeepsBase(START, trace);
    PreparedFits(Run(START, trace).s, r, now, fixed, frame, platform);
  }

  /** The earlier, unlocked-in-between estimate: each message counted with six more. */
  method Estimate(texts: seq<Text>, overhead: nat, budget: nat, platform: Platform)
      returns (oversized: set<nat>, estimated: nat)
    ensures oversized == {} ==> estimated == CostSum(texts, platform) + 6 * |texts|
    ensures oversized == {} <==> texts == [] || overhead + CostSum(texts, platform) + 6 * (|texts| - 1) <= budget
  {
    oversized, estimated := {}, 0;
    for i := 0 to |texts|
      invariant oversized == {} ==> estimated == CostSum(texts[..i], platform) + 6 * i
      invariant oversized == {} <==> i == 0 || overhead + CostSum(texts[..i], platform) + 6 * (i - 1) <= budget
    {
      var cost := ArgumentCost(texts[i], platform);
      CostSumAppend(texts[..i], texts[i], platform);
      assert texts[..i + 1] == texts[..i] + [texts[i]];
      if overhead + estimated + cost > budget {
        oversized := oversized + {i};
      } else {
        estimated := estimated + cost + 6;
      }
    }
    assert texts[..|texts|] == texts;
  }

  lemma {:induction false} CostSumAppend(texts: seq<Text>, last: Text, platform: Platform)
    ensures CostSum(texts + [last], platform) == CostSum(texts, platform) + ArgumentCost(last, platform)
  {
    if texts != [] {
      assert (texts + [last])[1..] == texts[1..] + [last];
      CostSumAppend(texts[1..], last, platform);
    }
  }

  /** Against one and the same queue the estimate agrees with the exact check on Posix; on
      Windows it passes batches up to five a seam too long, which the exact check stops. */
  lemma EstimateAgainstExact(texts: seq<Text>, fixed: seq<Text>, platform: Platform)
    requires texts != []
    ensures var estimate := OVERHEAD + CostSum(fixed, platform) + CostSum(texts, platform) + 6 * (|texts| - 1);
            CommandCost(fixed, Joined(texts), platform) == estimate + if platform.Windows? then 5 * (|texts| - 1) else 0
  {
    JoinedCost(texts, platform);
  }
}

/** Splitting a host command template (src/hosts/spawn-delivery.ts:78-111). */
module Template {
  import opened Types

  /** Where the scan stands: the tokens so far, and the one under way. */
  datatype Scan = Scan(tokens: seq<string>, current: string, inQuotes: bool, hasContent: bool)

  const EMPTY := Scan([], "", false, false)

  function Close(scan: Scan): Scan {
    if scan.current != "" || scan.hasContent then
      scan.(tokens := scan.tokens + [scan.current], current := "", hasContent := false)
    else scan
  }

  function Read(scan: Scan, c: char): Scan {
    if c == '"' then scan.(inQuotes := !scan.inQuotes, hasContent := true)
    else if !scan.inQuotes && IsSpace(c as int) then Close(scan)
    else scan.(current := scan.current + [c], hasContent := true)
  }

  function ReadAll(scan: Scan, raw: string): Scan
    decreases raw
  {
    if raw == "" then scan else ReadAll(Read(scan, raw[0]), raw[1..])
  }

  /** The tokens of a template; None when a quote is left open. */
  function Parsed(raw: string): Option<seq<string>> {
    var end := ReadAll(EMPTY, raw);
    if end.inQuotes then None else Some(Close(end).tokens)
  }

  /** `parseCommandTemplate`. */
  method ParseCommandTemplate(raw: string) returns (result: Option<seq<string>>)
    ensures result == Parsed(raw)
  {
    var tokens: seq<string>, current, inQuotes, hasContent := [], "", false, false;
    for i := 0 to |raw|
      invariant ReadAll(Scan(tokens, current, inQuotes, hasContent), raw[i..]) == ReadAll(EMPTY, raw)
    {
      var c := raw[i];
      assert raw[i..][1..] == raw[i + 1..];
      if c == '"' {
        inQuotes, hasContent := !inQuotes, true;
      } else if !inQuotes && IsSpace(c as int) {
        if |current| > 0 || hasContent {
          tokens, current, hasContent := tokens + [current], "", false;
        }
      } else {
        current, hasContent := current + [c], true;
      }
    }
    if inQuotes {
      return None;
    }
    if |current| > 0 || hasContent {
      tokens := tokens + [current];
    }
    result := Some(tokens);
  }

  lemma {:induction false} ReadConcat(scan: Scan, a: string, b: string)
    ensures ReadAll(scan, a + b) == ReadAll(ReadAll(scan, a), b)
    decreases a
  {
    if a == "" {
      assert a + b == b;
    } else {
      assert (a + b)[1..] == a[1..] + b;
      ReadConcat(Read(scan, a[0]), a[1..], b);
    }
  }

  function Quotes(raw: string): nat {
    if raw == "" then 0 else (if raw[0] == '"' then 1 else 0) + Quotes(raw[1..])
  }

  lemma {:induction false} QuotesToggle(scan: Scan, raw: string)
    ensures ReadAll(scan, raw).inQuotes <==> (scan.inQuotes <==> Quotes(raw) % 2 == 0)
    decreases raw
  {
    if raw != "" {
      QuotesToggle(Read(scan, raw[0]), raw[1..]);
    }
  }

  /** A template is refused exactly when its quotes do not pair up. */
  lemma RefusedIffOddQuotes(raw: string)
    ensures Parsed(raw).None? <==> Quotes(raw) % 2 == 1
  {
    QuotesToggle(EMPTY, raw);
  }

  function Quoted(token: string): string {
    "\"" + token + "\""
  }

  function QuotedAll(tokens: seq<string>): string {
    if tokens == [] then "" else Quoted(tokens[0]) + " " + QuotedAll(tokens[1..])
  }

  lemma {:induction false} ReadInside(scan: Scan, token: string)
    requires scan.inQuotes && scan.hasContent && '"' !in token
    ensures ReadAll(scan, token) == scan.(current := scan.current + token)
    decreases token
  {
    if token == "" {
      assert scan.current + token == scan.current;
    } else {
      assert token[0] in token && forall c :: c in token[1..] ==> c in token;
      ReadInside(Read(scan, token[0]), token[1..]);
      assert scan.current + [token[0]] + token[1..] == scan.current + token;
    }
  }

  lemma ReadQuoted(tokens: seq<string>, token: string)
    requires '"' !in token
    ensures ReadAll(Scan(tokens, "", false, false), Quoted(token) + " ") == Scan(tokens + [token], "", false, false)
  {
    var open := Scan(tokens, "", true, true);
    ReadInside(open, token);
    assert open.current + token == token;
    ReadConcat(open, token, "\" ");
    var closed := Scan(tokens, token, true, true);
    assert "\" "[0] == '"' && "\" "[1..] == " ";
    assert ReadAll(closed, "\" ") == ReadAll(Scan(tokens, token, false, true), " ");
    var text := Quoted(token) + " ";
    assert text[0] == '"' && text[1..] == token + "\" ";
  }

  lemma {:induction false} ReadQuotedAll(done: seq<string>, tokens: seq<string>)
    requires forall i :: 0 <= i < |tokens| ==> '"' !in tokens[i]
    ensures ReadAll(Scan(done, "", false, false), QuotedAll(tokens)) == Scan(done + tokens, "", false, false)
    decreases tokens
  {
    if tokens == [] {
      assert done + tokens == done;
    } else {
      ReadQuoted(done, tokens[0]);
      ReadConcat(Scan(done, "", false, false), Quoted(tokens[0]) + " ", QuotedAll(tokens[1..]));
      ReadQuotedAll(done + [tokens[0]], tokens[1..]);
      assert done + [tokens[0]] + tokens[1..] == done + tokens;
    }
  }

  /** Quoting every token makes a template that parses back to them, spaces and empty tokens
      included. */
  lemma QuotingRoundTrips(tokens: seq<string>)
    requires forall i :: 0 <= i < |tokens| ==> '"' !in tokens[i]
    ensures Parsed(QuotedAll(tokens)) == Some(tokens)
  {
    ReadQuotedAll([], tokens);
    assert [] + tokens == tokens;
  }

  /** A word without quotes or spaces. */
  predicate Plain(word: string) {
    word != "" && forall i :: 0 <= i < |word| ==> word[i] != '"' && !IsSpace(word[i] as int)
  }

  predicate Blank(gap: string) {
    forall i :: 0 <= i < |gap| ==> IsSpace(gap[i] as int)
  }

  /** Each word followed by its gap; only the last gap may be empty. */
  function Spread(words: seq<string>, gaps: seq<string>): string
    requires |gaps| == |words|
  {
    if words == [] then "" else words[0] + gaps[0] + Spread(words[1..], gaps[1..])
  }

  ghost predicate Spaced(words: seq<string>, gaps: seq<string>) {
    && |gaps| == |words| && (forall k :: 0 <= k < |words| ==> Plain(words[k]) && Blank(gaps[k]))
    && forall k :: 0 <= k < |words| - 1 ==> gaps[k] != ""
  }

  lemma {:induction false} ReadPlain(tokens: seq<string>, current: string, word: string, some: bool)
    requires forall i :: 0 <= i < |word| ==> word[i] != '"' && !IsSpace(word[i] as int)
    ensures ReadAll(Scan(tokens, current, false, some), word)
         == Scan(tokens, current + word, false, some || word != "")
    decreases word
  {
    if word == "" {
      assert current + word == current;
    } else {
      assert forall i :: 0 <= i < |word[1..]| ==> word[1..][i] == word[i + 1];
      ReadPlain(tokens, current + [word[0]], word[1..], true);
      assert current + [word[0]] + word[1..] == current + word;
    }
  }

  lemma {:induction false} ReadBlank(tokens: seq<string>, gap: string)
    requires Blank(gap)
    ensures ReadAll(Scan(tokens, "", false, false), gap) == Scan(tokens, "", false, false)
    decreases gap
  {
    if gap != "" {
      assert IsSpace(gap[0] as int) && gap[0] != '"';
      assert forall i :: 0 <= i < |gap[1..]| ==> gap[1..][i] == gap[i + 1];
      ReadBlank(tokens, gap[1..]);
    }
  }

  lemma ReadWord(tokens: seq<string>, word: string, gap: string)
    requires Plain(word) && Blank(gap)
    ensures var scan := ReadAll(Scan(tokens, "", false, false), word + gap);
            if gap == "" then scan == Scan(tokens, word, false, true)
            else scan == Scan(tokens + [word], "", false, false)
  {
    ReadConcat(Scan(tokens, "", false, false), word, gap);
    ReadPlain(tokens, "", word, false);
    assert "" + word == word;
    if gap != "" {
      assert IsSpace(gap[0] as int) && gap[0] != '"';
      assert forall i :: 0 <= i < |gap[1..]| ==> gap[1..][i] == gap[i + 1];
      ReadBlank(tokens + [word], gap[1..]);
    }
  }

  lemma {:induction false} ReadSpread(tokens: seq<string>, words: seq<string>, gaps: seq<string>)
    requires Spaced(words, gaps)
    ensures var end := ReadAll(Scan(tokens, "", false, false), Spread(words, gaps));
            !end.inQuotes && Close(end).tokens == tokens + words
    decreases words
  {
    if words == [] {
      assert tokens + words == tokens;
    } else {
      ReadConcat(Scan(tokens, "", false, false), words[0] + gaps[0], Spread(words[1..], gaps[1..]));
      ReadWord(tokens, words[0], gaps[0]);
      if gaps[0] == "" {
        assert words[1..] == [] && tokens + [words[0]] == tokens + words;
      } else {
        ReadSpread(tokens + [words[0]], words[1..], gaps[1..]);
        assert tokens + [words[0]] + words[1..] == tokens + words;
      }
    }
  }

  /** Words without quotes are split at white space, however much of it. */
  lemma PlainWordsSplit(lead: string, words: seq<string>, gaps: seq<string>)
    requires Blank(lead) && Spaced(words, gaps)
    ensures Parsed(lead + Spread(words, gaps)) == Some(words)
  {
    ReadConcat(EMPTY, lead, Spread(words, gaps));
    ReadBlank([], lead);
    ReadSpread([], words, gaps);
    assert [] + words == words;
  }
}
