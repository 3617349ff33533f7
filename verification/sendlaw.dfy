/** When a send is accepted and what it posts, in terms of the roster, the channel's limits
    and the draft alone (src/core/engine.ts:268-326, 899-1062). */
module SendLaw {
  import opened Seqs
  import opened Types
  import opened Retention
  import opened Delivery
  import opened Sending
  import opened Membership
  import opened Effects
  import opened Roster

  /** The i-th member is not the sender. */
  predicate Another(members: seq<Member>, sender: Session, i: nat) {
    i < |members| && members[i].session != sender
  }

  predicate SessionIs(members: seq<Member>, sender: Session, key: string, i: nat) {
    Another(members, sender, i) && Lower(members[i].session) == Lower(key)
  }

  predicate RoleIs(members: seq<Member>, sender: Session, key: string, i: nat) {
    Another(members, sender, i) && Lower(members[i].role) == Lower(key)
  }

  /** Among the others `key` means the i-th member: the first with that session, or, when no
      session matches, the first with that role. */
  ghost predicate Means(members: seq<Member>, sender: Session, key: string, i: nat) {
    if exists k: nat :: SessionIs(members, sender, key, k)
    then SessionIs(members, sender, key, i) && forall k: nat :: k < i ==> !SessionIs(members, sender, key, k)
    else RoleIs(members, sender, key, i) && forall k: nat :: k < i ==> !RoleIs(members, sender, key, k)
  }

  /** The send is for the i-th member: for every live other one when broadcast, for the one its
      key means, or for the only other one when it names nobody; never for somebody stale. */
  ghost predicate Addressee(members: seq<Member>, sender: Session, target: Target, i: nat) {
    && Another(members, sender, i) && !members[i].stale
    && match target
       case Everyone => true
       case Direct(key) => Means(members, sender, key, i)
       case Peer => forall k: nat :: Another(members, sender, k) ==> k == i
  }

  /** Where a lookup by session among the others ends. */
  lemma {:induction false} OtherBySession(members: seq<Member>, sender: Session, key: string) returns (i: nat)
    ensures var found := BySession(Others(members, sender), key);
            if found.None? then forall k: nat :: !SessionIs(members, sender, key, k)
            else && SessionIs(members, sender, key, i) && found.value == members[i]
                 && forall k: nat :: k < i ==> !SessionIs(members, sender, key, k)
  {
    i := 0;
    if members != [] {
      var rest := Others(members[1..], sender);
      assert ([members[0]] + rest)[1..] == rest && [] + rest == rest;
      if !SessionIs(members, sender, key, 0) {
        i := OtherBySession(members[1..], sender, key);
        forall k: nat | k > 0
          ensures SessionIs(members, sender, key, k) <==> SessionIs(members[1..], sender, key, k - 1)
        {
        }
        i := i + 1;
      }
    }
  }

  lemma {:induction false} OtherByRole(members: seq<Member>, sender: Session, key: string) returns (i: nat)
    ensures var found := ByRole(Others(members, sender), key);
            if found.None? then forall k: nat :: !RoleIs(members, sender, key, k)
            else && RoleIs(members, sender, key, i) && found.value == members[i]
                 && forall k: nat :: k < i ==> !RoleIs(members, sender, key, k)
  {
    i := 0;
    if members != [] {
      var rest := Others(members[1..], sender);
      assert ([members[0]] + rest)[1..] == rest && [] + rest == rest;
      if !RoleIs(members, sender, key, 0) {
        i := OtherByRole(members[1..], sender, key);
        forall k: nat | k > 0
          ensures RoleIs(members, sender, key, k) <==> RoleIs(members[1..], sender, key, k - 1)
        {
        }
        i := i + 1;
      }
    }
  }

  /** The lookup of a key among the others finds what the key means. */
  lemma OtherNamed(members: seq<Member>, sender: Session, key: string) returns (i: nat)
    ensures var found := Named(Others(members, sender), key);
            if found.None? then forall k: nat :: !Means(members, sender, key, k)
            else && Means(members, sender, key, i) && found.value == members[i]
                 && forall k: nat :: Means(members, sender, key, k) ==> k == i
  {
    var s := OtherBySession(members, sender, key);
    var r := OtherByRole(members, sender, key);
    i := if BySession(Others(members, sender), key).Some? then s else r;
  }

  function Shifted(idx: seq<nat>): seq<nat> {
    seq(|idx|, k requires 0 <= k < |idx| => idx[k] + 1)
  }

  lemma ShiftedMembers(idx: seq<nat>, i: nat)
    ensures i in Shifted(idx) <==> i > 0 && i - 1 in idx
  {
    if i > 0 && i - 1 in idx {
      var k :| 0 <= k < |idx| && idx[k] == i - 1;
      assert Shifted(idx)[k] == i;
    }
  }

  predicate Chosen(m: Member, sender: Session, onlyLive: bool) {
    m.session != sender && (onlyLive ==> !m.stale)
  }

  /** `idx` are the positions of the chosen members, in roster order, and `to` those members. */
  ghost predicate Lists(members: seq<Member>, sender: Session, onlyLive: bool, idx: seq<nat>, to: seq<Member>) {
    && Increasing(idx) && Within(idx, |members|)
    && (forall i: nat :: i < |members| ==> (i in idx <==> Chosen(members[i], sender, onlyLive)))
    && |to| == |idx| && forall k :: 0 <= k < |idx| ==> idx[k] < |members| && to[k] == members[idx[k]]
  }

  lemma ListsOneMore(m: Member, members: seq<Member>, sender: Session, onlyLive: bool, idx: seq<nat>, to: seq<Member>)
    requires Lists(members, sender, onlyLive, idx, to)
    ensures var first := Chosen(m, sender, onlyLive);
            Lists([m] + members, sender, onlyLive, (if first then [0] else []) + Shifted(idx),
                  (if first then [m] else []) + to)
  {
    ListsInOrder(m, members, Chosen(m, sender, onlyLive), idx, to);
    forall i: nat | i < |[m] + members|
      ensures var longer := (if Chosen(m, sender, onlyLive) then [0] else []) + Shifted(idx);
              i in longer <==> Chosen(([m] + members)[i], sender, onlyLive)
    {
      PickedOneMore(m, members, sender, onlyLive, idx, i);
    }
  }

  lemma ListsInOrder(m: Member, members: seq<Member>, first: bool, idx: seq<nat>, to: seq<Member>)
    requires Increasing(idx) && Within(idx, |members|) && |to| == |idx|
    requires forall k :: 0 <= k < |idx| ==> to[k] == members[idx[k]]
    ensures var longer, more := (if first then [0] else []) + Shifted(idx), (if first then [m] else []) + to;
            && Increasing(longer) && Within(longer, |members| + 1) && |longer| == |more|
            && forall k :: 0 <= k < |longer| ==> more[k] == ([m] + members)[longer[k]]
  {
  }

  lemma PickedOneMore(m: Member, members: seq<Member>, sender: Session, onlyLive: bool, idx: seq<nat>, i: nat)
    requires i <= |members|
    requires forall k: nat :: k < |members| ==> (k in idx <==> Chosen(members[k], sender, onlyLive))
    ensures var longer := (if Chosen(m, sender, onlyLive) then [0] else []) + Shifted(idx);
            i in longer <==> Chosen(([m] + members)[i], sender, onlyLive)
  {
    ShiftedMembers(idx, i);
  }

  function ChosenOf(members: seq<Member>, sender: Session, onlyLive: bool): seq<Member> {
    if onlyLive then Fresh(Others(members, sender)) else Others(members, sender)
  }

  lemma ChosenCons(m: Member, members: seq<Member>, sender: Session, onlyLive: bool)
    ensures ChosenOf([m] + members, sender, onlyLive)
         == (if Chosen(m, sender, onlyLive) then [m] else []) + ChosenOf(members, sender, onlyLive)
  {
    var rest := Others(members, sender);
    assert ([m] + members)[1..] == members && ([m] + rest)[1..] == rest;
    assert [] + rest == rest && [] + Fresh(rest) == Fresh(rest);
  }

  /** The other members, in roster order, and the live ones of them. */
  lemma {:induction false} OthersInOrder(members: seq<Member>, sender: Session, onlyLive: bool)
      returns (idx: seq<nat>)
    ensures Lists(members, sender, onlyLive, idx, ChosenOf(members, sender, onlyLive))
  {
    if members == [] {
      return [];
    }
    var behind := OthersInOrder(members[1..], sender, onlyLive);
    assert members == [members[0]] + members[1..];
    ChosenCons(members[0], members[1..], sender, onlyLive);
    ListsOneMore(members[0], members[1..], sender, onlyLive, behind, ChosenOf(members[1..], sender, onlyLive));
    idx := (if Chosen(members[0], sender, onlyLive) then [0] else []) + Shifted(behind);
  }

  /** The members a send is for, in roster order. */
  ghost predicate Addressees(members: seq<Member>, sender: Session, target: Target, idx: seq<nat>) {
    && Increasing(idx) && Within(idx, |members|)
    && forall i: nat :: i < |members| ==> (i in idx <==> Addressee(members, sender, target, i))
  }

  /** The recipients are the addressees, each once, in roster order. */
  lemma ResolveExactly(ch: Channel, sender: Session, target: Target) returns (idx: seq<nat>)
    ensures Addressees(ch.members, sender, target, idx)
    ensures var to := Resolve(ch, sender, target);
            |to| == |idx| && forall k :: 0 <= k < |idx| ==> to[k] == ch.members[idx[k]]
  {
    match target {
      case Everyone => idx := OthersInOrder(ch.members, sender, true);
      case Direct(key) =>
        var i := OtherNamed(ch.members, sender, key);
        idx := if Resolve(ch, sender, target) == [] then [] else [i];
      case Peer => idx := PeerExactly(ch, sender);
    }
  }

  lemma PeerExactly(ch: Channel, sender: Session) returns (idx: seq<nat>)
    ensures Addressees(ch.members, sender, Peer, idx)
    ensures var to := Resolve(ch, sender, Peer);
            |to| == |idx| && forall k :: 0 <= k < |idx| ==> to[k] == ch.members[idx[k]]
  {
    var all := OthersInOrder(ch.members, sender, false);
    idx := if Resolve(ch, sender, Peer) == [] then [] else all;
    PeerIsOnly(ch.members, sender, all);
  }

  lemma FirstTwoDiffer(idx: seq<nat>)
    requires Increasing(idx)
    ensures |idx| >= 2 ==> idx[0] != idx[1]
  {
  }

  lemma PeerIsOnly(members: seq<Member>, sender: Session, all: seq<nat>)
    requires Increasing(all) && Within(all, |members|)
    requires forall i: nat :: i < |members| ==> (i in all <==> Chosen(members[i], sender, false))
    ensures |all| == 1 ==> forall k: nat :: Another(members, sender, k) ==> k == all[0]
    ensures forall i: nat ::
              Another(members, sender, i) && (forall k: nat :: Another(members, sender, k) ==> k == i) ==>
              |all| == 1 && all[0] == i
  {
    forall i: nat | Another(members, sender, i) && (forall k: nat :: Another(members, sender, k) ==> k == i)
      ensures |all| == 1 && all[0] == i
    {
      assert Chosen(members[i], sender, false) && i in all;
      forall k | 0 <= k < |all|
        ensures all[k] == i
      {
        assert all[k] in all && Chosen(members[all[k]], sender, false) && Another(members, sender, all[k]);
      }
      FirstTwoDiffer(all);
    }
    if |all| == 1 {
      forall k: nat | Another(members, sender, k)
        ensures k == all[0]
      {
        assert Chosen(members[k], sender, false) && k in all;
      }
    }
  }

  /** Letter case is compared for ASCII alone. */
  predicate SameLetter(a: char, b: char) {
    || a == b
    || ('A' <= a <= 'Z' && b as int == a as int + 32)
    || ('A' <= b <= 'Z' && a as int == b as int + 32)
  }

  lemma LowerIff(a: string, b: string)
    ensures Lower(a) == Lower(b) <==> |a| == |b| && forall i :: 0 <= i < |a| ==> SameLetter(a[i], b[i])
  {
    if Lower(a) == Lower(b) {
      forall i | 0 <= i < |a|
        ensures |a| == |b| && SameLetter(a[i], b[i])
      {
        assert Lower(a)[i] == Lower(b)[i];
      }
    }
  }

  /** What makes a send acceptable, each in the channel's and the draft's own terms. */
  datatype Ground =
    | OnChannel
    | FromMember
    | Open
    | WithinBudget
    | Worded
    | Typed
    | Reaching
    | Rated
    | Unrepeated
    | Shallow

  ghost predicate Holds(ground: Ground, s: State, c: ChannelId, draft: Draft, sender: Session, operator: bool,
        now: int)
    requires c in s.channels
  {
    var ch := s.channels[c];
    match ground
    case OnChannel => true
    case FromMember =>
      if operator then sender == OPERATOR && draft.target.Direct? else OnRoster(ch.members, sender)
    case Open => ch.lifecycle == Active && !ch.paused
    case WithinBudget =>
      && (ch.maxRuntime.Some? ==> now - ch.createdAt <= ch.maxRuntime.value)
      && (ch.maxDelivered.Some? ==> ch.deliveredTotal < ch.maxDelivered.value)
    case Worded =>
      |draft.content| <= 100_000 && exists i :: 0 <= i < |draft.content| && !IsSpace(draft.content[i] as int)
    case Typed => draft.kind in {ReviewRequest, ReviewResponse, Manual}
    case Reaching => exists i: nat :: Addressee(ch.members, sender, draft.target, i)
    case Rated => if now - ch.rateStart > 60_000 then ch.rateLimit >= 1 else ch.rateCount < ch.rateLimit
    case Unrepeated => (sender, draft.content) in ch.seen ==> now - ch.seen[(sender, draft.content)] >= ch.staleMs
    case Shallow =>
      draft.replyTo.Some? && Has(s, draft.replyTo.value) ==> s.log[draft.replyTo.value].hop < ch.maxHops
  }

  ghost predicate Accepts(s: State, c: ChannelId, draft: Draft, sender: Session, operator: bool, now: int) {
    c in s.channels && forall ground :: Holds(ground, s, c, draft, sender, operator, now)
  }

  lemma SomeAddressee(ch: Channel, sender: Session, target: Target)
    ensures Resolve(ch, sender, target) != [] <==> exists i: nat :: Addressee(ch.members, sender, target, i)
  {
    var idx := ResolveExactly(ch, sender, target);
    if idx != [] {
      assert idx[0] in idx && Addressee(ch.members, sender, target, idx[0]);
    }
  }

  lemma EarlyIff(s: State, c: ChannelId, draft: Draft, sender: Session, operator: bool, now: int)
    requires c in s.channels
    requires operator ==> draft.target.Direct? && sender == OPERATOR
    ensures var refusal := EarlyRefusal(s.channels[c], draft, sender, operator, now);
            && (refusal.None? <==>
                 && Holds(FromMember, s, c, draft, sender, operator, now)
                 && Holds(Open, s, c, draft, sender, operator, now)
                 && Holds(WithinBudget, s, c, draft, sender, operator, now)
                 && Holds(Worded, s, c, draft, sender, operator, now)
                 && Holds(Typed, s, c, draft, sender, operator, now)
                 && Holds(Reaching, s, c, draft, sender, operator, now))
            && (refusal.Some? ==> Justified(refusal.value, s, c, draft, sender, operator, now))
  {
    MemberOnRoster(s.channels[c].members, sender);
    SomeAddressee(s.channels[c], sender, draft.target);
  }

  lemma LateIff(s: State, c: ChannelId, draft: Draft, sender: Session, operator: bool, now: int)
    requires c in s.channels
    ensures var refusal := LateRefusal(s, s.channels[c], draft, sender, now);
            && (refusal.None? <==>
                 && Holds(Rated, s, c, draft, sender, operator, now)
                 && Holds(Unrepeated, s, c, draft, sender, operator, now)
                 && Holds(Shallow, s, c, draft, sender, operator, now))
            && (refusal.Some? ==> Justified(refusal.value, s, c, draft, sender, operator, now))
  {
  }

  /** A send is accepted exactly when every ground holds. */
  lemma AcceptedIff(s: State, c: ChannelId, draft: Draft, sender: Session, operator: bool, now: int)
    ensures SendRefusal(s, c, draft, sender, operator, now).None? <==> Accepts(s, c, draft, sender, operator, now)
  {
    if c in s.channels {
      EveryGround(s, c, draft, sender, operator, now);
      LateIff(s, c, draft, sender, operator, now);
      if operator ==> draft.target.Direct? && sender == OPERATOR {
        EarlyIff(s, c, draft, sender, operator, now);
      }
    }
  }

  /** All the grounds, one by one. */
  lemma EveryGround(s: State, c: ChannelId, draft: Draft, sender: Session, operator: bool, now: int)
    requires c in s.channels
    ensures Accepts(s, c, draft, sender, operator, now) <==>
              && Holds(FromMember, s, c, draft, sender, operator, now)
              && Holds(Open, s, c, draft, sender, operator, now)
              && Holds(WithinBudget, s, c, draft, sender, operator, now)
              && Holds(Worded, s, c, draft, sender, operator, now)
              && Holds(Typed, s, c, draft, sender, operator, now)
              && Holds(Reaching, s, c, draft, sender, operator, now)
              && Holds(Rated, s, c, draft, sender, operator, now)
              && Holds(Unrepeated, s, c, draft, sender, operator, now)
              && Holds(Shallow, s, c, draft, sender, operator, now)
  {
  }

  /** What a refusal tells the caller is so. */
  ghost predicate Justified(refusal: Refusal, s: State, c: ChannelId, draft: Draft, sender: Session, operator: bool,
        now: int) {
    if c !in s.channels then
      refusal == NoChannel || (refusal == NoRecipient && operator && !(sender == OPERATOR && draft.target.Direct?))
    else
      match refusal
      case NoChannel => false
      case NotMember => !operator && !OnRoster(s.channels[c].members, sender)
      case Inactive => s.channels[c].lifecycle != Active
      case ChannelPaused => s.channels[c].paused
      case BudgetSpent => !Holds(WithinBudget, s, c, draft, sender, operator, now)
      case Blank => forall i :: 0 <= i < |draft.content| ==> IsSpace(draft.content[i] as int)
      case TooLong => |draft.content| > 100_000
      case BadType => draft.kind in {System, Unknown}
      case NoRecipient =>
        || (operator && !(sender == OPERATOR && draft.target.Direct?))
        || !Holds(Reaching, s, c, draft, sender, operator, now)
      case RateLimited => !Holds(Rated, s, c, draft, sender, operator, now)
      case Duplicate => !Holds(Unrepeated, s, c, draft, sender, operator, now)
      case TooDeep => !Holds(Shallow, s, c, draft, sender, operator, now)
  }

  lemma RefusalsAreJustified(s: State, c: ChannelId, draft: Draft, sender: Session, operator: bool, now: int)
    ensures var refusal := SendRefusal(s, c, draft, sender, operator, now);
            refusal.Some? ==> Justified(refusal.value, s, c, draft, sender, operator, now)
  {
    if c in s.channels {
      LateIff(s, c, draft, sender, operator, now);
      if operator ==> draft.target.Direct? && sender == OPERATOR {
        EarlyIff(s, c, draft, sender, operator, now);
      }
    }
  }

  /** The k-th letter of an accepted send, to the member at position `i`. */
  ghost predicate LetterFor(s: State, c: ChannelId, draft: Draft, sender: Session, now: int, i: nat, e: Envelope)
    requires c in s.channels
  {
    && i < |s.channels[c].members| && e.recipient == s.channels[c].members[i].session
    && e.channel == c && e.sender == sender && e.timestamp == now && e.kind == draft.kind
    && e.content == draft.content && e.replyTo == draft.replyTo
    && e.status == Pending && e.attempts == 0 && e.deliveredAt.None? && e.transport.None?
    && if draft.replyTo.Some? && Has(s, draft.replyTo.value) then
         var parent := s.log[draft.replyTo.value];
         && e.correlation == parent.correlation && e.hop == parent.hop + 1
         && e.root == if parent.root.Some? then parent.root else draft.replyTo
       else e.correlation == |s.log| && e.hop == 0 && e.root.None?
  }

  /** An accepted send posts one letter for each addressee, in roster order, and before the
      final prune nothing else; each is queued last at its recipient. */
  lemma SendPosts(s: State, c: ChannelId, draft: Draft, sender: Session, operator: bool, now: int)
      returns (v: State, idx: seq<nat>)
    requires Accepts(s, c, draft, sender, operator, now)
    ensures Send(s, c, draft, sender, operator, now) == Prune(v)
    ensures Addressees(s.channels[c].members, sender, draft.target, idx) && idx != []
    ensures |v.log| == |s.log| + |idx| && v.log[..|s.log|] == s.log
    ensures forall k :: 0 <= k < |idx| ==> LetterFor(s, c, draft, sender, now, idx[k], v.log[|s.log| + k])
    ensures forall id :: id in v.live <==> id in s.live || |s.log| <= id < |v.log|
    ensures forall r :: QueueOf(v, r) == QueueOf(s, r) + Arrivals(v.log[|s.log|..], |s.log|, r)
    ensures v.channels.Keys == s.channels.Keys && v.deliveredTo == s.deliveredTo
    ensures forall d :: d in s.channels && d != c ==> v.channels[d] == s.channels[d]
  {
    assert SendRefusal(s, c, draft, sender, operator, now).None? by {
      AcceptedIff(s, c, draft, sender, operator, now);
    }
    v := Enqueue(s, c, draft, sender, now);
    idx := ResolveExactly(s.channels[c], sender, draft.target);
    EnqueueForm(s, c, draft, sender, now);
    var to := Resolve(s.channels[c], sender, draft.target);
    var letters := Letters(c, draft, sender, to, ThreadOf(s, draft.replyTo, |s.log|), now);
    assert v.log[|s.log|..] == letters && v.log[..|s.log|] == s.log;
    forall k | 0 <= k < |idx|
      ensures LetterFor(s, c, draft, sender, now, idx[k], v.log[|s.log| + k])
    {
      LettersAre(s, c, draft, sender, now, to, idx, k);
      assert v.log[|s.log| + k] == letters[k];
    }
  }

  lemma LettersAre(s: State, c: ChannelId, draft: Draft, sender: Session, now: int, to: seq<Member>, idx: seq<nat>,
        k: nat)
    requires c in s.channels && k < |to| == |idx| && idx[k] < |s.channels[c].members|
    requires to[k] == s.channels[c].members[idx[k]]
    ensures var letters := Letters(c, draft, sender, to, ThreadOf(s, draft.replyTo, |s.log|), now);
            LetterFor(s, c, draft, sender, now, idx[k], letters[k])
  {
  }

  /** Every new envelope is the letter for some addressee. */
  lemma LetterAt(s: State, c: ChannelId, draft: Draft, sender: Session, operator: bool, now: int, id: MessageId)
      returns (i: nat)
    requires Accepts(s, c, draft, sender, operator, now)
    requires |s.log| <= id < |Send(s, c, draft, sender, operator, now).log|
    ensures Addressee(s.channels[c].members, sender, draft.target, i)
    ensures LetterFor(s, c, draft, sender, now, i, Send(s, c, draft, sender, operator, now).log[id])
  {
    var to := Resolve(s.channels[c], sender, draft.target);
    var idx := ResolveExactly(s.channels[c], sender, draft.target);
    SendLog(s, c, draft, sender, operator, now);
    LettersAre(s, c, draft, sender, now, to, idx, id - |s.log|);
    i := idx[id - |s.log|];
    assert i in idx;
  }

  lemma SendLog(s: State, c: ChannelId, draft: Draft, sender: Session, operator: bool, now: int)
    requires Accepts(s, c, draft, sender, operator, now)
    ensures var to := Resolve(s.channels[c], sender, draft.target);
            Send(s, c, draft, sender, operator, now).log ==
            s.log + Letters(c, draft, sender, to, ThreadOf(s, draft.replyTo, |s.log|), now)
  {
    AcceptedIff(s, c, draft, sender, operator, now);
    EnqueueForm(s, c, draft, sender, now);
  }
}
