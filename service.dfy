/**
 * The manager service: the room registry it owns and the request pipelines
 * that drive storage, notification, the queue and the keygen tasks. Every
 * collaborator's outcome is a parameter of the operation that calls it, and
 * `calls` records the calls made, in order, with their outcomes.
 */
module Manager {
  import opened Common
  import opened Trace
  import opened Notification
  import opened Keygen

  class ManagerService {
    /** The room registry: one descriptor per room key. */
    var signingRooms: map<Key, SigningRoom>
    /** The capacity of every room this service creates. */
    const totalParties: u16
    /** The message digest that derives a room key; deterministic, otherwise unknown. */
    const digest: seq<byte> -> Key
    /**
     * The member numbers a freshly created room of the given key and capacity
     * starts with; deterministic, otherwise unknown.
     */
    const newMembers: (Key, u16) -> set<u16>
    /** The calls made to collaborators so far. */
    var calls: seq<Call>

    /**
     * Every member number a fresh room gets lies in 1..totalParties, every
     * stored descriptor sits under its own room key with this service's
     * capacity, and no request has been distributed before storage accepted it.
     */
    ghost predicate Valid()
      reads this
    {
      (forall k :: newMembers(k, totalParties) <= PartySlots(totalParties)) &&
      (forall k :: k in signingRooms ==> WellFormedRoom(k, signingRooms[k], totalParties)) &&
      Ordered(calls)
    }

    /** The descriptor that creating the room `roomId` stores. */
    function FreshRoom(roomId: Key): SigningRoom
    {
      NewRoom(roomId, newMembers(roomId, totalParties), totalParties)
    }

    constructor (totalParties: u16, digest: seq<byte> -> Key, newMembers: (Key, u16) -> set<u16>)
      requires forall k :: newMembers(k, totalParties) <= PartySlots(totalParties)
      ensures Valid()
      ensures this.totalParties == totalParties && this.digest == digest && this.newMembers == newMembers
      ensures signingRooms == map[] && calls == []
    {
      this.totalParties := totalParties;
      this.digest := digest;
      this.newMembers := newMembers;
      signingRooms := map[];
      calls := [];
    }

    /**
     * Stores a fresh room for the message under its digest, replacing any
     * descriptor already stored there, and returns that key.
     */
    method InitiateSigning(message: seq<byte>) returns (roomId: Key)
      requires Valid()
      modifies this`signingRooms
      ensures Valid()
      ensures roomId == digest(message)
      ensures roomId in signingRooms && signingRooms[roomId] == FreshRoom(roomId)
      ensures forall k :: k != roomId ==> (k in signingRooms <==> k in old(signingRooms))
      ensures forall k :: k != roomId && k in old(signingRooms) ==> signingRooms[k] == old(signingRooms)[k]
      ensures signingRooms == old(signingRooms)[roomId := FreshRoom(roomId)]
    {
      roomId := digest(message);
      signingRooms := signingRooms[roomId := FreshRoom(roomId)];
    }

    /**
     * Stores the request, creates its room, reads the room back and notifies
     * its members one by one in `order`, stopping at the first failure.
     * `stored` is storage's answer to the insert, `notify` each party's
     * notification outcome, and `order` the order in which the room's member
     * numbers are visited.
     */
    method HandleSigningRequest(request: SigningRequest, stored: Status, notify: u16 -> Status, order: seq<u16>)
      returns (r: Status)
      requires Valid()
      requires IsEnumeration(order, newMembers(digest(request.message), totalParties))
      modifies this
      ensures Valid()
      ensures stored.Err? ==>
        r == stored &&
        signingRooms == old(signingRooms) &&
        calls == old(calls) + [InsertRequest(request.id, false)]
      ensures stored.Ok? ==>
        var roomId := digest(request.message);
        signingRooms == old(signingRooms)[roomId := FreshRoom(roomId)] &&
        calls == old(calls) + [InsertRequest(request.id, true)] +
                 NotifyCalls(Attempted(order, notify), request.id, notify) &&
        r == Delivery(order, notify)
    {
      calls := calls + [InsertRequest(request.id, stored.Ok?)];
      ExtendOrdered(old(calls), [InsertRequest(request.id, stored.Ok?)]);
      if stored.Err? {
        return stored;
      }
      ghost var started := calls;

      var roomId := InitiateSigning(request.message);

      if roomId in signingRooms {
        var room := signingRooms[roomId];
        assert room.memberInfo == newMembers(digest(request.message), totalParties);
        var i := 0;
        while i < |order|
          invariant 0 <= i <= |order|
          invariant forall j :: 0 <= j < i ==> notify(order[j]).Ok?
          invariant calls == started + NotifyCalls(order[..i], request.id, notify)
          invariant Ordered(calls) && InsertRequest(request.id, true) in calls
          invariant signingRooms == old(signingRooms)[roomId := FreshRoom(roomId)]
        {
          var sent := notify(order[i]);
          var call := NotifySigner(order[i], request.id, sent.Ok?);
          assert NotifyCalls(order[..i + 1], request.id, notify) ==
                 NotifyCalls(order[..i], request.id, notify) + [call];
          ExtendOrdered(calls, [call]);
          calls := calls + [call];
          if sent.Err? {
            StopsAtFirstFailure(order, notify, i);
            return sent;
          }
          i := i + 1;
        }
        SucceedsIffAllSucceed(order, notify);
        assert order[..i] == order;
      }
      r := Ok(());
    }

    /**
     * The queue pathway: stores the request and, only once it is stored,
     * publishes it. `stored` and `published` are the two collaborators' answers.
     */
    method ProcessSigningRequest(request: SigningRequest, stored: Status, published: Status)
      returns (r: Status)
      requires Valid()
      modifies this`calls
      ensures Valid()
      ensures stored.Err? ==> r == stored && calls == old(calls) + [InsertRequest(request.id, false)]
      ensures stored.Ok? ==>
        r == published &&
        calls == old(calls) + [InsertRequest(request.id, true), PublishSigningRequest(request.id, published.Ok?)]
    {
      var insert := InsertRequest(request.id, stored.Ok?);
      ExtendOrdered(calls, [insert]);
      calls := calls + [insert];
      if stored.Err? {
        return stored;
      }
      var publish := PublishSigningRequest(request.id, published.Ok?);
      ExtendOrdered(calls, [publish]);
      calls := calls + [publish];
      r := published;
    }

    /**
     * Stores the keygen request, runs one task per party, aggregates their
     * outcomes (given in spawn order as `results`) and records the successes
     * against the request, whatever the number of failures. `stored` and
     * `updated` are storage's answers to the insert and to the final update.
     */
    method ProcessKeygenRequest(request: KeyGenRequest, managerAddr: string, stored: Status,
                                results: seq<TaskOutcome>, updated: Status)
      returns (r: Result<seq<string>>)
      requires Valid()
      requires |results| == request.keygenParams.parties as int
      modifies this`calls
      ensures Valid()
      ensures stored.Err? ==> r == Err(stored.error) && calls == old(calls) + [InsertKeyGenRequest(request.id, false)]
      ensures stored.Ok? ==>
        calls == old(calls) + [InsertKeyGenRequest(request.id, true)] +
                 RunKeygenCalls(|results|, managerAddr, request.id) +
                 [UpdateKeyGenResult(request.id, Successes(results), updated.Ok?)] &&
        r == (if updated.Ok? then Ok(Successes(results)) else Err(updated.error))
    {
      var insert := InsertKeyGenRequest(request.id, stored.Ok?);
      ExtendOrdered(calls, [insert]);
      calls := calls + [insert];
      if stored.Err? {
        return Err(stored.error);
      }
      var totalParties := request.keygenParams.parties as int;
      var tasks := RunKeygenCalls(totalParties, managerAddr, request.id);
      ExtendOrdered(calls, tasks);
      calls := calls + tasks;

      var successfulResults, errors := Partition(results);

      var update := UpdateKeyGenResult(request.id, successfulResults, updated.Ok?);
      ExtendOrdered(calls, [update]);
      calls := calls + [update];
      if updated.Err? {
        return Err(updated.error);
      }
      r := Ok(successfulResults);
    }

    /** Reads a stored signing result; `found` is storage's answer. */
    method GetSigningResult(requestId: string, found: Result<Option<MessageToSignStored>>)
      returns (r: Result<Option<MessageToSignStored>>)
      requires Valid()
      modifies this`calls
      ensures Valid()
      ensures r == found && calls == old(calls) + [FetchSigningResult(requestId, found.Ok?)]
    {
      ExtendOrdered(calls, [FetchSigningResult(requestId, found.Ok?)]);
      calls := calls + [FetchSigningResult(requestId, found.Ok?)];
      r := found;
    }

    /** Writes a signing result; `written` is storage's answer. */
    method UpdateSigningResult(result: SignerResult, written: Status) returns (r: Status)
      requires Valid()
      modifies this`calls
      ensures Valid()
      ensures r == written && calls == old(calls) + [StoreSigningResult(result.requestId, written.Ok?)]
    {
      ExtendOrdered(calls, [StoreSigningResult(result.requestId, written.Ok?)]);
      calls := calls + [StoreSigningResult(result.requestId, written.Ok?)];
      r := written;
    }
  }

  /**
   * Three parties, message "hello", fresh rooms that start with members
   * 1, 2 and 3, and party 1 cannot be notified: the request is stored, its
   * room created, and the round stops after the first notification.
   */
  method ThreePartiesFirstNotifyFails(digest: seq<byte> -> Key)
  {
    var service := new ManagerService(3, digest, (_, n) => PartySlots(n));
    var hello: seq<byte> := [104, 101, 108, 108, 111];
    var request := SigningRequest("req-1", hello);
    var notify := (p: u16) => if p == 1 then Err("unreachable") else Ok(());
    assert forall p :: p in [1, 2, 3] <==> p in PartySlots(3);
    var r := service.HandleSigningRequest(request, Ok(()), notify, [1, 2, 3]);
    StopsAtFirstFailure([1, 2, 3], notify, 0);
    assert r == Err("unreachable");
    assert service.calls == [InsertRequest("req-1", true), NotifySigner(1, "req-1", false)];
    assert service.signingRooms[digest(hello)].memberInfo == PartySlots(3);
  }
}
