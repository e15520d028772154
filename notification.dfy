/**
 * The fail-fast notification policy of a signing request: the member
 * parties of its room are notified one after the other, and the first
 * notification that fails ends the round and becomes its result.
 */
module Notification {
  import opened Common

  /**
   * The position of the first party whose notification fails, or the number
   * of parties when none fails.
   */
  function FirstFailure(parties: seq<u16>, notify: u16 -> Status): (k: nat)
    ensures k <= |parties|
    ensures forall j :: 0 <= j < k ==> notify(parties[j]).Ok?
    ensures k < |parties| ==> notify(parties[k]).Err?
  {
    if parties == [] then 0
    else if notify(parties[0]).Err? then 0
    else 1 + FirstFailure(parties[1..], notify)
  }

  /** How many notifications a round over `parties` attempts. */
  function Attempts(parties: seq<u16>, notify: u16 -> Status): nat
  {
    var k := FirstFailure(parties, notify);
    if k < |parties| then k + 1 else k
  }

  /** The parties a round over `parties` attempts to notify, in order. */
  function Attempted(parties: seq<u16>, notify: u16 -> Status): seq<u16>
  {
    parties[..Attempts(parties, notify)]
  }

  /** The result of a round over `parties`: the first failure, or success. */
  function Delivery(parties: seq<u16>, notify: u16 -> Status): Status
  {
    var k := FirstFailure(parties, notify);
    if k < |parties| then notify(parties[k]) else Ok(())
  }

  /**
   * If the notification at position k is the first to fail, the round
   * attempts exactly the k + 1 notifications up to and including it, fails
   * with its error and attempts no later party.
   */
  lemma StopsAtFirstFailure(parties: seq<u16>, notify: u16 -> Status, k: nat)
    requires k < |parties|
    requires forall j :: 0 <= j < k ==> notify(parties[j]).Ok?
    requires notify(parties[k]).Err?
    ensures FirstFailure(parties, notify) == k
    ensures Attempts(parties, notify) == k + 1
    ensures Attempted(parties, notify) == parties[..k + 1]
    ensures Delivery(parties, notify) == notify(parties[k])
  {
  }

  /**
   * A round succeeds exactly when every notification succeeds, and then it
   * has attempted every party.
   */
  lemma SucceedsIffAllSucceed(parties: seq<u16>, notify: u16 -> Status)
    ensures Delivery(parties, notify).Ok? <==> forall j :: 0 <= j < |parties| ==> notify(parties[j]).Ok?
    ensures Delivery(parties, notify).Ok? ==> Attempted(parties, notify) == parties
    ensures Delivery(parties, notify).Err? ==> 1 <= Attempts(parties, notify) <= |parties|
  {
  }

  /** A sequence without repetitions holds each of its elements once. */
  lemma {:induction false} DistinctOccursOnce(s: seq<u16>, p: u16)
    requires forall i, j :: 0 <= i < j < |s| ==> s[i] != s[j]
    ensures multiset(s)[p] == if p in s then 1 else 0
  {
    if s != [] {
      var last := |s| - 1;
      assert s == s[..last] + [s[last]];
      DistinctOccursOnce(s[..last], p);
      if p == s[last] {
        assert p !in s[..last];
      }
    }
  }

  /**
   * When the notification order enumerates a room's members and every
   * member can be notified, the round attempts every member exactly once
   * and no one else.
   */
  lemma EveryMemberNotifiedOnce(order: seq<u16>, members: set<u16>, notify: u16 -> Status)
    requires IsEnumeration(order, members)
    requires forall p :: p in members ==> notify(p).Ok?
    ensures Delivery(order, notify) == Ok(())
    ensures forall p :: p in members ==> multiset(Attempted(order, notify))[p] == 1
    ensures forall p :: p in Attempted(order, notify) ==> p in members
  {
    SucceedsIffAllSucceed(order, notify);
    assert order[..|order|] == order;
    forall p | p in members ensures multiset(Attempted(order, notify))[p] == 1 {
      DistinctOccursOnce(order, p);
    }
  }
}
