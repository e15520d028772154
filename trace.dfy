/**
 * The trace of calls the manager service makes to its collaborators, and
 * the ordering discipline every trace it produces obeys: a request is
 * distributed (notified, published, run, its result recorded) only after
 * storage has accepted it.
 */
module Trace {
  import opened Common

  /** One call to a collaborator; `ok` records whether the call succeeded. */
  datatype Call =
    | InsertRequest(requestId: string, ok: bool)
    | NotifySigner(party: u16, requestId: string, ok: bool)
    | PublishSigningRequest(requestId: string, ok: bool)
    | InsertKeyGenRequest(requestId: string, ok: bool)
    | RunKeygen(managerAddr: string, requestId: string)
    | UpdateKeyGenResult(requestId: string, results: seq<string>, ok: bool)
    | FetchSigningResult(requestId: string, ok: bool)
    | StoreSigningResult(requestId: string, ok: bool)

  /** The successful storage call that must precede a call, if any. */
  function Prerequisite(c: Call): Option<Call>
  {
    match c
    case NotifySigner(_, id, _) => Some(InsertRequest(id, true))
    case PublishSigningRequest(id, _) => Some(InsertRequest(id, true))
    case RunKeygen(_, id) => Some(InsertKeyGenRequest(id, true))
    case UpdateKeyGenResult(id, _, _) => Some(InsertKeyGenRequest(id, true))
    case _ => None
  }

  /** Every call in `log` is preceded by its prerequisite. */
  predicate Ordered(log: seq<Call>)
  {
    forall j :: 0 <= j < |log| && Prerequisite(log[j]).Some? ==> Prerequisite(log[j]).value in log[..j]
  }

  /** Every call in `more` is free of prerequisites or has its prerequisite in `log`. */
  predicate Admissible(log: seq<Call>, more: seq<Call>)
  {
    forall c :: c in more && Prerequisite(c).Some? ==> Prerequisite(c).value in log
  }

  /** Extending an ordered log by admissible calls keeps it ordered. */
  lemma ExtendOrdered(log: seq<Call>, more: seq<Call>)
    requires Ordered(log)
    requires Admissible(log, more)
    ensures Ordered(log + more)
  {
    var all := log + more;
    forall j | 0 <= j < |all| && Prerequisite(all[j]).Some?
      ensures Prerequisite(all[j]).value in all[..j]
    {
      if j < |log| {
        assert all[..j] == log[..j];
      } else {
        assert all[j] == more[j - |log|];
        var p := Prerequisite(all[j]).value;
        var i :| 0 <= i < |log| && log[i] == p;
        assert all[..j][i] == p;
      }
    }
  }

  /** The notification calls for `parties`, each with the result `notify` gives it. */
  function NotifyCalls(parties: seq<u16>, requestId: string, notify: u16 -> Status): (calls: seq<Call>)
  {
    seq(|parties|, j requires 0 <= j < |parties| => NotifySigner(parties[j], requestId, notify(parties[j]).Ok?))
  }

  /** The run calls for `n` spawned keygen tasks, all on the same address and request. */
  function RunKeygenCalls(n: nat, managerAddr: string, requestId: string): (calls: seq<Call>)
  {
    seq(n, _ => RunKeygen(managerAddr, requestId))
  }
}
