/** Who receives and who may remove (src/core/engine.ts:271-326, 825-877). */
module Roster {
  import opened Types
  import opened Delivery
  import opened Sending
  import opened Membership

  ghost predicate OnRoster(members: seq<Member>, m: Session) {
    exists i :: 0 <= i < |members| && members[i].session == m
  }

  lemma OnRosterIn(members: seq<Member>, m: Member)
    requires m in members
    ensures OnRoster(members, m.session)
  {
    var i :| 0 <= i < |members| && members[i] == m;
    assert members[i].session == m.session;
  }

  lemma {:induction false} OthersMembers(members: seq<Member>, m: Session)
    ensures forall x :: x in Others(members, m) <==> x in members && x.session != m
  {
    if members != [] {
      OthersMembers(members[1..], m);
    }
  }

  lemma {:induction false} FreshMembers(members: seq<Member>)
    ensures forall x :: x in Fresh(members) <==> x in members && !x.stale
  {
    if members != [] {
      FreshMembers(members[1..]);
    }
  }

  lemma {:induction false} FoundByKey(members: seq<Member>, key: string)
    ensures BySession(members, key).Some? ==> BySession(members, key).value in members
    ensures ByRole(members, key).Some? ==> ByRole(members, key).value in members
  {
    if members != [] {
      FoundByKey(members[1..], key);
    }
  }

  lemma {:induction false} MemberOnRoster(members: seq<Member>, m: Session)
    ensures FindMember(members, m).Some? <==> OnRoster(members, m)
  {
    if members != [] {
      MemberOnRoster(members[1..], m);
      if OnRoster(members, m) && members[0].session != m {
        var i :| 0 <= i < |members| && members[i].session == m;
        assert members[1..][i - 1].session == m;
      }
      if OnRoster(members[1..], m) {
        var i :| 0 <= i < |members[1..]| && members[1..][i].session == m;
        assert members[i + 1].session == m;
      }
    }
  }

  /** Mail goes only to live members other than the sender. */
  lemma RecipientsAreLiveMembers(ch: Channel, sender: Session, target: Target)
    ensures forall i :: 0 <= i < |Resolve(ch, sender, target)| ==>
              var m := Resolve(ch, sender, target)[i];
              m in ch.members && m.session != sender && !m.stale
  {
    var others := Others(ch.members, sender);
    OthersMembers(ch.members, sender);
    FreshMembers(others);
    if target.Direct? {
      FoundByKey(others, target.key);
    }
    forall i | 0 <= i < |Resolve(ch, sender, target)|
      ensures var m := Resolve(ch, sender, target)[i]; m in ch.members && m.session != sender && !m.stale
    {
      assert Resolve(ch, sender, target)[i] in Resolve(ch, sender, target);
    }
  }

  predicate HasSession(members: seq<Member>, key: string, i: nat) {
    i < |members| && Lower(members[i].session) == Lower(key)
  }

  predicate HasRole(members: seq<Member>, key: string, i: nat) {
    i < |members| && Lower(members[i].role) == Lower(key)
  }

  /** `key` names the i-th member: the first with that session, or, when no session matches,
      the first with that role. */
  ghost predicate Names(members: seq<Member>, key: string, i: nat) {
    if exists k: nat :: HasSession(members, key, k)
    then HasSession(members, key, i) && forall k: nat :: k < i ==> !HasSession(members, key, k)
    else HasRole(members, key, i) && forall k: nat :: k < i ==> !HasRole(members, key, k)
  }

  /** Where a lookup by session ends: at the first match, or with none anywhere. */
  lemma {:induction false} SessionLookup(members: seq<Member>, key: string) returns (i: nat)
    ensures if BySession(members, key).None? then forall k: nat :: !HasSession(members, key, k)
            else && HasSession(members, key, i) && BySession(members, key).value == members[i]
                 && forall k: nat :: k < i ==> !HasSession(members, key, k)
  {
    i := 0;
    if members != [] && !HasSession(members, key, 0) {
      i := SessionLookup(members[1..], key);
      forall k: nat | k > 0
        ensures HasSession(members, key, k) <==> HasSession(members[1..], key, k - 1)
      {
      }
      i := i + 1;
    }
  }

  lemma {:induction false} RoleLookup(members: seq<Member>, key: string) returns (i: nat)
    ensures if ByRole(members, key).None? then forall k: nat :: !HasRole(members, key, k)
            else && HasRole(members, key, i) && ByRole(members, key).value == members[i]
                 && forall k: nat :: k < i ==> !HasRole(members, key, k)
  {
    i := 0;
    if members != [] && !HasRole(members, key, 0) {
      i := RoleLookup(members[1..], key);
      forall k: nat | k > 0
        ensures HasRole(members, key, k) <==> HasRole(members[1..], key, k - 1)
      {
      }
      i := i + 1;
    }
  }

  /** The lookup of a target finds the member its key names, if there is one. */
  lemma LookupNames(members: seq<Member>, key: string)
    ensures Named(members, key).None? ==> forall i: nat :: !Names(members, key, i)
    ensures forall i: nat :: Names(members, key, i) ==> Named(members, key) == Some(members[i])
  {
    var s := SessionLookup(members, key);
    var r := RoleLookup(members, key);
    forall i: nat | Names(members, key, i)
      ensures Named(members, key) == Some(members[i])
    {
      if BySession(members, key).Some? {
        assert HasSession(members, key, s);
        assert i == s;
      } else {
        assert i == r;
      }
    }
  }

  /** A broadcast reaches every live member but the sender. A direct target is the member its
      key names among the others, by session before role; there is no recipient exactly when
      it names nobody or somebody stale. Without a target there is one only in a channel of two. */
  lemma RecipientsExactly(ch: Channel, sender: Session, target: Target)
    ensures target.Everyone? ==> forall m ::
              m in Resolve(ch, sender, target) <==> m in ch.members && m.session != sender && !m.stale
    ensures var others := Others(ch.members, sender);
            target.Direct? ==>
              && (forall i: nat :: Names(others, target.key, i) && !others[i].stale ==>
                    Resolve(ch, sender, target) == [others[i]])
              && (Resolve(ch, sender, target) == [] <==>
                    forall i: nat :: Names(others, target.key, i) ==> others[i].stale)
    ensures target.Peer? ==> (Resolve(ch, sender, target) != [] <==>
              |Others(ch.members, sender)| == 1 && !Others(ch.members, sender)[0].stale)
  {
    var others := Others(ch.members, sender);
    OthersMembers(ch.members, sender);
    FreshMembers(others);
    if target.Direct? {
      LookupNames(others, target.key);
      if Named(others, target.key).Some? {
        SomebodyNamed(others, target.key);
      }
    }
  }

  lemma SomebodyNamed(members: seq<Member>, key: string)
    requires Named(members, key).Some?
    ensures exists i: nat :: Names(members, key, i)
  {
    var s := SessionLookup(members, key);
    var r := RoleLookup(members, key);
    if BySession(members, key).Some? {
      assert Names(members, key, s);
    } else {
      assert Names(members, key, r);
    }
  }

  /** Only the first member may kick, and never itself; a target is a member. */
  lemma KickNeedsCoordinator(ch: Channel, caller: Option<Session>, targetId: Option<string>, targetRole: Option<string>)
    requires KickTarget(ch, caller, targetId, targetRole).Some?
    ensures OnRoster(ch.members, KickTarget(ch, caller, targetId, targetRole).value)
    ensures caller.Some? ==>
              && ch.members != [] && ch.members[0].session == caller.value
              && KickTarget(ch, caller, targetId, targetRole).value != caller.value
  {
    if targetId.Some? {
      FoundByKey(ch.members, targetId.value);
    }
    if targetRole.Some? {
      FoundByKey(ch.members, targetRole.value);
    }
    var m: Member :| m in ch.members && m.session == KickTarget(ch, caller, targetId, targetRole).value;
    OnRosterIn(ch.members, m);
  }
}
