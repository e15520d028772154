/**
 * Aggregation of the outcomes of the per-party key-generation tasks: every
 * task's outcome is classified, successes are kept in party-index order,
 * and each failure becomes a diagnostic line tagged with its party index.
 */
module Keygen {
  import opened Common

  /**
   * What awaiting one spawned keygen task yields: the protocol's result
   * (`Ok(Ok(json))`), an error the protocol reported (`Ok(Err(e))`), or a
   * task that did not run to completion (`Err(e)`).
   */
  datatype TaskOutcome =
    | Success(payload: string)
    | ProtocolFailure(reason: string)
    | ExecutionFault(reason: string)

  // Decimal rendering of a party index, as Rust's Display for usize writes it.

  predicate IsDigit(c: char)
  {
    '0' <= c <= '9'
  }

  predicate AllDigits(s: string)
  {
    forall i :: 0 <= i < |s| ==> IsDigit(s[i])
  }

  function DigitChar(d: nat): (c: char)
    requires d < 10
  {
    ('0' as int + d) as char
  }

  function DigitValue(c: char): (d: nat)
    requires IsDigit(c)
  {
    c as int - '0' as int
  }

  /** The shortest decimal numeral of n (no leading zeros; "0" for zero). */
  function DecimalString(n: nat): (s: string)
    ensures 1 <= |s| && AllDigits(s)
    ensures |s| > 1 ==> s[0] != '0'
    decreases n
  {
    if n < 10 then [DigitChar(n)] else DecimalString(n / 10) + [DigitChar(n % 10)]
  }

  /** The number a string of decimal digits denotes. */
  function DecimalValue(s: string): nat
    requires AllDigits(s)
    decreases |s|
  {
    if s == [] then 0 else DecimalValue(s[..|s| - 1]) * 10 + DigitValue(s[|s| - 1])
  }

  lemma {:induction false} DecimalRoundTrip(n: nat)
    ensures DecimalValue(DecimalString(n)) == n
    decreases n
  {
    if n >= 10 {
      var s := DecimalString(n);
      assert s[..|s| - 1] == DecimalString(n / 10);
      DecimalRoundTrip(n / 10);
    }
  }

  /** The number of leading decimal digits of s. */
  function LeadingDigits(s: string): (k: nat)
    ensures k <= |s| && AllDigits(s[..k])
    ensures k < |s| ==> !IsDigit(s[k])
  {
    if s == [] || !IsDigit(s[0]) then 0
    else
      var k := 1 + LeadingDigits(s[1..]);
      assert s[..k] == [s[0]] + s[1..][..k - 1];
      k
  }

  // The diagnostic lines of failed parties.

  const ProtocolPrefix: string := "Error in party "
  const TaskPrefix: string := "Task error in party "

  /** The diagnostic for the failed outcome of the party at `index`. */
  function Diagnostic(index: nat, outcome: TaskOutcome): string
    requires !outcome.Success?
  {
    match outcome
    case ProtocolFailure(e) => ProtocolPrefix + DecimalString(index) + ": " + e
    case ExecutionFault(e) => TaskPrefix + DecimalString(index) + ": " + e
  }

  /** What a diagnostic line identifies: the party and whether its task faulted. */
  datatype Tag = Tag(party: nat, faulted: bool)

  /** Reads the party index off the part of a diagnostic after its prefix. */
  function ParseIndex(s: string): Option<nat>
  {
    var k := LeadingDigits(s);
    if 0 < k && k + 2 <= |s| && s[k..k + 2] == ": " then Some(DecimalValue(s[..k])) else None
  }

  /** Reads back the tag of a diagnostic line. */
  function ParseDiagnostic(line: string): Option<Tag>
  {
    if |TaskPrefix| <= |line| && line[..|TaskPrefix|] == TaskPrefix then
      match ParseIndex(line[|TaskPrefix|..])
      case Some(i) => Some(Tag(i, true))
      case None => None
    else if |ProtocolPrefix| <= |line| && line[..|ProtocolPrefix|] == ProtocolPrefix then
      match ParseIndex(line[|ProtocolPrefix|..])
      case Some(i) => Some(Tag(i, false))
      case None => None
    else None
  }

  lemma ParseIndexOfNumeral(n: nat, e: string)
    ensures ParseIndex(DecimalString(n) + ": " + e) == Some(n)
  {
    var d := DecimalString(n);
    var s := d + ": " + e;
    assert s[..|d|] == d;
    assert s[|d|..|d| + 2] == ": ";
    LeadingDigitsOfNumeral(d, s[|d|..]);
    assert s == d + s[|d|..];
    DecimalRoundTrip(n);
  }

  lemma {:induction false} LeadingDigitsOfNumeral(d: string, t: string)
    requires AllDigits(d)
    requires t != [] && !IsDigit(t[0])
    ensures LeadingDigits(d + t) == |d|
    decreases |d|
  {
    if d != [] {
      assert (d + t)[1..] == d[1..] + t;
      LeadingDigitsOfNumeral(d[1..], t);
    } else {
      assert d + t == t;
    }
  }

  /** Every diagnostic names the party it was made for and the kind of its failure. */
  lemma DiagnosticRoundTrip(index: nat, outcome: TaskOutcome)
    requires !outcome.Success?
    ensures ParseDiagnostic(Diagnostic(index, outcome)) == Some(Tag(index, outcome.ExecutionFault?))
  {
    var line := Diagnostic(index, outcome);
    var rest := DecimalString(index) + ": " + outcome.reason;
    ParseIndexOfNumeral(index, outcome.reason);
    if outcome.ProtocolFailure? {
      assert line == ProtocolPrefix + rest;
      assert line[0] == 'E' && TaskPrefix[0] == 'T';
      assert line[..|ProtocolPrefix|] == ProtocolPrefix;
      assert line[|ProtocolPrefix|..] == rest;
    } else {
      assert line == TaskPrefix + rest;
      assert line[..|TaskPrefix|] == TaskPrefix;
      assert line[|TaskPrefix|..] == rest;
    }
  }

  // The partition of the outcomes, as specification functions over prefixes.

  /** The payloads of the successful outcomes, in party-index order. */
  function Successes(outcomes: seq<TaskOutcome>): seq<string>
    decreases |outcomes|
  {
    if outcomes == [] then []
    else
      var n := |outcomes| - 1;
      Successes(outcomes[..n]) + (if outcomes[n].Success? then [outcomes[n].payload] else [])
  }

  /** The diagnostics of the failed outcomes, in party-index order. */
  function Diagnostics(outcomes: seq<TaskOutcome>): seq<string>
    decreases |outcomes|
  {
    if outcomes == [] then []
    else
      var n := |outcomes| - 1;
      Diagnostics(outcomes[..n]) + (if outcomes[n].Success? then [] else [Diagnostic(n, outcomes[n])])
  }

  /** The party indices whose task succeeded, ascending. */
  function SuccessIndices(outcomes: seq<TaskOutcome>): (idx: seq<nat>)
    ensures forall j :: 0 <= j < |idx| ==> idx[j] < |outcomes| && outcomes[idx[j]].Success?
    ensures forall j, k :: 0 <= j < k < |idx| ==> idx[j] < idx[k]
    ensures forall i :: 0 <= i < |outcomes| && outcomes[i].Success? ==> i in idx
    decreases |outcomes|
  {
    if outcomes == [] then []
    else
      var n := |outcomes| - 1;
      SuccessIndices(outcomes[..n]) + (if outcomes[n].Success? then [n] else [])
  }

  /** The party indices whose task failed, ascending. */
  function FailureIndices(outcomes: seq<TaskOutcome>): (idx: seq<nat>)
    ensures forall j :: 0 <= j < |idx| ==> idx[j] < |outcomes| && !outcomes[idx[j]].Success?
    ensures forall j, k :: 0 <= j < k < |idx| ==> idx[j] < idx[k]
    ensures forall i :: 0 <= i < |outcomes| && !outcomes[i].Success? ==> i in idx
    decreases |outcomes|
  {
    if outcomes == [] then []
    else
      var n := |outcomes| - 1;
      FailureIndices(outcomes[..n]) + (if outcomes[n].Success? then [] else [n])
  }

  /**
   * The successes are exactly the payloads of the successful outcomes,
   * taken in party-index order.
   */
  lemma {:induction false} SuccessesSelectPayloads(outcomes: seq<TaskOutcome>)
    ensures |Successes(outcomes)| == |SuccessIndices(outcomes)|
    ensures forall j :: 0 <= j < |Successes(outcomes)| ==>
      Successes(outcomes)[j] == outcomes[SuccessIndices(outcomes)[j]].payload
    decreases |outcomes|
  {
    if outcomes != [] {
      var n := |outcomes| - 1;
      var front := outcomes[..n];
      SuccessesSelectPayloads(front);
      forall j | 0 <= j < |SuccessIndices(front)|
        ensures front[SuccessIndices(front)[j]] == outcomes[SuccessIndices(front)[j]]
      {
      }
    }
  }

  /**
   * The diagnostics are exactly the diagnostics of the failed outcomes,
   * one per failed party, in party-index order.
   */
  lemma {:induction false} DiagnosticsSelectFailures(outcomes: seq<TaskOutcome>)
    ensures |Diagnostics(outcomes)| == |FailureIndices(outcomes)|
    ensures forall j :: 0 <= j < |Diagnostics(outcomes)| ==>
      Diagnostics(outcomes)[j] == Diagnostic(FailureIndices(outcomes)[j], outcomes[FailureIndices(outcomes)[j]])
    decreases |outcomes|
  {
    if outcomes != [] {
      var n := |outcomes| - 1;
      var front := outcomes[..n];
      DiagnosticsSelectFailures(front);
      forall j | 0 <= j < |FailureIndices(front)|
        ensures front[FailureIndices(front)[j]] == outcomes[FailureIndices(front)[j]]
      {
      }
    }
  }

  /** Every outcome is accounted for once: as a success or as a diagnostic. */
  lemma {:induction false} OutcomesAccounted(outcomes: seq<TaskOutcome>)
    ensures |Successes(outcomes)| + |Diagnostics(outcomes)| == |outcomes|
    ensures |SuccessIndices(outcomes)| + |FailureIndices(outcomes)| == |outcomes|
    decreases |outcomes|
  {
    if outcomes != [] {
      OutcomesAccounted(outcomes[..|outcomes| - 1]);
    }
  }

  /** Each diagnostic reads back as the index and failure kind of its party. */
  lemma DiagnosticsTagged(outcomes: seq<TaskOutcome>, j: nat)
    requires j < |Diagnostics(outcomes)|
    ensures j < |FailureIndices(outcomes)|
    ensures ParseDiagnostic(Diagnostics(outcomes)[j]) ==
      Some(Tag(FailureIndices(outcomes)[j], outcomes[FailureIndices(outcomes)[j]].ExecutionFault?))
  {
    DiagnosticsSelectFailures(outcomes);
    var i := FailureIndices(outcomes)[j];
    DiagnosticRoundTrip(i, outcomes[i]);
  }

  /**
   * When every party fails, no payload survives and there is one diagnostic
   * per party.
   */
  lemma AllFailed(outcomes: seq<TaskOutcome>)
    requires forall i :: 0 <= i < |outcomes| ==> !outcomes[i].Success?
    ensures Successes(outcomes) == []
    ensures |Diagnostics(outcomes)| == |outcomes|
  {
  }

  /**
   * Four parties where party 2's task faults and the others succeed: three
   * payloads in party order and a single diagnostic, tagged with index 2.
   */
  lemma FourPartiesOneFault(a: string, b: string, d: string, reason: string)
    ensures var outcomes := [Success(a), Success(b), ExecutionFault(reason), Success(d)];
      Successes(outcomes) == [a, b, d] &&
      Diagnostics(outcomes) == ["Task error in party 2: " + reason] &&
      ParseDiagnostic(Diagnostics(outcomes)[0]) == Some(Tag(2, true))
  {
    var outcomes := [Success(a), Success(b), ExecutionFault(reason), Success(d)];
    assert outcomes[..3] == [Success(a), Success(b), ExecutionFault(reason)];
    assert outcomes[..3][..2] == [Success(a), Success(b)];
    assert outcomes[..3][..2][..1] == [Success(a)];
    assert outcomes[..3][..2][..1][..0] == [];
    assert Successes(outcomes[..3][..2][..1]) == [a];
    assert Successes(outcomes[..3][..2]) == [a, b];
    assert Successes(outcomes[..3]) == [a, b];
    assert Diagnostics(outcomes[..3][..2][..1]) == [];
    assert Diagnostics(outcomes[..3][..2]) == [];
    assert DecimalString(2) == "2";
    assert Diagnostics(outcomes[..3]) == [Diagnostic(2, ExecutionFault(reason))];
    assert Diagnostics(outcomes) == Diagnostics(outcomes[..3]);
    assert Diagnostic(2, ExecutionFault(reason)) == "Task error in party 2: " + reason;
    DiagnosticRoundTrip(2, ExecutionFault(reason));
  }

  /**
   * The aggregation loop over the awaited outcomes, in spawn order: a
   * success's payload joins the successes, a failure's diagnostic joins the
   * errors.
   */
  method Partition(results: seq<TaskOutcome>) returns (successfulResults: seq<string>, errors: seq<string>)
    ensures successfulResults == Successes(results)
    ensures errors == Diagnostics(results)
  {
    successfulResults, errors := [], [];
    var index := 0;
    while index < |results|
      invariant 0 <= index <= |results|
      invariant successfulResults == Successes(results[..index])
      invariant errors == Diagnostics(results[..index])
    {
      assert results[..index + 1][..index] == results[..index];
      match results[index] {
        case Success(jsonStr) =>
          successfulResults := successfulResults + [jsonStr];
        case ProtocolFailure(e) =>
          errors := errors + [ProtocolPrefix + DecimalString(index) + ": " + e];
        case ExecutionFault(e) =>
          errors := errors + [TaskPrefix + DecimalString(index) + ": " + e];
      }
      index := index + 1;
    }
    assert results[..index] == results;
  }
}
