/**
 * Types shared by the manager service: the request records, the room
 * descriptor held in the room registry, and the success/failure results
 * that every collaborator (storage, queue, per-party notification) returns.
 */
module Common {

  /** An octet of a message to be signed. */
  newtype byte = x: int | 0 <= x < 0x100

  /** The 16-bit unsigned integers used for party numbers and party counts. */
  newtype u16 = x: int | 0 <= x < 0x1_0000

  /** A room key: the digest of a message, as a string. */
  type Key = string

  datatype Option<T> = None | Some(value: T)

  /** The outcome of a fallible call; the error carries the error's message. */
  datatype Result<T> = Ok(value: T) | Err(error: string)

  /** The outcome of a fallible call that returns nothing on success. */
  type Status = Result<()>

  datatype SigningRequest = SigningRequest(id: string, message: seq<byte>)

  datatype KeygenParams = KeygenParams(parties: u16)

  datatype KeyGenRequest = KeyGenRequest(id: string, keygenParams: KeygenParams)

  /** A party's signing result, as handed on to storage. */
  datatype SignerResult = SignerResult(requestId: string, payload: string)

  /** The stored read-model of a signing outcome, as returned by storage. */
  datatype MessageToSignStored = MessageToSignStored(requestId: string, payload: string)

  /**
   * A room descriptor: its key, the party numbers of its members and its
   * capacity. The per-member metadata is not modelled, only which party
   * numbers are members.
   */
  datatype SigningRoom = SigningRoom(roomId: Key, memberInfo: set<u16>, totalParties: u16)

  /** The party numbers 1, 2, ..., n in ascending order. */
  function SlotOrder(n: u16): (order: seq<u16>)
  {
    seq(n as int, i requires 0 <= i < n as int => (i + 1) as u16)
  }

  /** The party numbers 1..n, the range member numbers of a room of capacity n are drawn from. */
  function PartySlots(n: u16): (slots: set<u16>)
    ensures forall p :: p in slots <==> 1 <= p <= n
  {
    var order := SlotOrder(n);
    assert forall p :: 1 <= p <= n ==> p in order by {
      forall p | 1 <= p <= n ensures p in order {
        assert order[p as int - 1] == p;
      }
    }
    set p | p in order
  }

  /** The descriptor of a freshly created room of capacity n with the given members. */
  function NewRoom(roomId: Key, members: set<u16>, n: u16): SigningRoom
  {
    SigningRoom(roomId, members, n)
  }

  /** A descriptor stored under `key` in a registry whose rooms have capacity n. */
  predicate WellFormedRoom(key: Key, room: SigningRoom, n: u16)
  {
    room.roomId == key && room.totalParties == n && room.memberInfo <= PartySlots(n)
  }

  /** `order` lists every element of `members` exactly once. */
  predicate IsEnumeration(order: seq<u16>, members: set<u16>)
  {
    (forall i, j :: 0 <= i < j < |order| ==> order[i] != order[j]) &&
    (forall p :: p in order <==> p in members)
  }
}
