/** The AI execution boundary and its append-only evidence trail. */
module AgentBoundary {
  import opened Values

  datatype AgentStatus = Succeeded | Failed | TimedOut | Cancelled

  /** `body` is the canonical text of the remaining request fields. */
  datatype AgentRequest = AgentRequest(requestId: string, agentId: string, taskId: string, operation: string, body: string)

  datatype RawResult = RawResult(requestId: string, agentId: string, taskId: string, output: string, status: AgentStatus)

  /** What the adapter does when called. */
  datatype AdapterRun = Raises(kind: string) | Malformed | Returns(result: RawResult)

  datatype Decision = Decision(accepted: bool, reason: string)

  /** What the verifier does when asked. */
  datatype VerifierRun = Judges(decision: Decision) | VerifierRaises(kind: string)

  datatype ErrorCode =
    | AdapterDisabled
    | AdapterException(kind: string)
    | InvalidResultType
    | RequestMismatch
    | AgentMismatch
    | TaskMismatch
    | VerifierException(kind: string)

  datatype Evidence = Evidence(
    sequence: nat, requestId: string, agentId: string, taskId: string,
    result: Option<RawResult>, verification: Decision, error: Option<ErrorCode>)

  datatype AgentOutcome = AgentOutcome(
    attempted: bool, accepted: bool, result: Option<RawResult>, verification: Decision, error: Option<ErrorCode>)

  function IdentityError(q: AgentRequest, r: RawResult): Option<ErrorCode> {
    if r.requestId != q.requestId then Some(RequestMismatch)
    else if r.agentId != q.agentId then Some(AgentMismatch)
    else if r.taskId != q.taskId then Some(TaskMismatch)
    else None
  }

  /** The text of an error code, as evidence and records carry it. */
  function ErrorText(e: ErrorCode): string {
    match e
    case AdapterDisabled => "ADAPTER_DISABLED"
    case AdapterException(kind) => "adapter_exception:" + kind
    case InvalidResultType => "INVALID_RAW_RESULT_TYPE"
    case RequestMismatch => "RESULT_REQUEST_ID_MISMATCH"
    case AgentMismatch => "RESULT_AGENT_ID_MISMATCH"
    case TaskMismatch => "RESULT_TASK_ID_MISMATCH"
    case VerifierException(kind) => "verifier_exception:" + kind
  }

  function StatusName(s: AgentStatus): string {
    match s
    case Succeeded => "SUCCEEDED"
    case Failed => "FAILED"
    case TimedOut => "TIMED_OUT"
    case Cancelled => "CANCELLED"
  }

  /** A result counts as accepted only if it is the agent's own success, for this request, and the verifier said so. */
  ghost predicate Vouched(q: AgentRequest, o: AgentOutcome) {
    && o.attempted
    && o.result.Some?
    && o.result.value.requestId == q.requestId
    && o.result.value.agentId == q.agentId
    && o.result.value.taskId == q.taskId
    && o.result.value.status.Succeeded?
    && o.verification.accepted
    && o.error.None?
  }

  /** An outcome the boundary can report for a request, whatever adapter and verifier do. */
  ghost predicate Possible(q: AgentRequest, o: AgentOutcome) {
    && (o.accepted <==> Vouched(q, o))
    && (o.accepted <==> o.verification.accepted)
    && (!o.attempted ==> o.error == Some(AdapterDisabled) && o.result.None?)
    && (o.error.Some? && o.error.value.AdapterException? ==> o.attempted && o.result.None?)
  }

  /** How everything around one attempt behaves. */
  datatype Conduct = Conduct(enabled: bool, run: AdapterRun, verifier: VerifierRun)

  /** What the boundary reports for a request, given the behaviour around it. */
  function Judge(q: AgentRequest, w: Conduct): AgentOutcome {
    if !w.enabled then AgentOutcome(false, false, None, Decision(false, "ADAPTER_DISABLED"), Some(AdapterDisabled))
    else
      match w.run
      case Raises(kind) =>
        AgentOutcome(true, false, None, Decision(false, "ADAPTER_EXCEPTION"), Some(AdapterException(kind)))
      case Malformed =>
        AgentOutcome(true, false, None, Decision(false, "INVALID_RAW_RESULT_TYPE"), Some(InvalidResultType))
      case Returns(result) =>
        if IdentityError(q, result).Some? then
          AgentOutcome(true, false, Some(result), Decision(false, ErrorText(IdentityError(q, result).value)), IdentityError(q, result))
        else if !result.status.Succeeded? then
          AgentOutcome(true, false, Some(result), Decision(false, "AGENT_" + StatusName(result.status)), None)
        else
          match w.verifier
          case VerifierRaises(kind) =>
            AgentOutcome(true, false, Some(result), Decision(false, "VERIFIER_EXCEPTION"), Some(VerifierException(kind)))
          case Judges(decision) => AgentOutcome(true, decision.accepted, Some(result), decision, None)
  }

  /** Acceptance is always vouched for, whatever adapter and verifier do. */
  lemma JudgementIsPossible(q: AgentRequest, w: Conduct)
    ensures Possible(q, Judge(q, w))
    ensures Judge(q, w).accepted ==> IdentityError(q, Judge(q, w).result.value).None?
  {}

  class Boundary {
    var trail: seq<Evidence>

    /** Sequence numbers are 1..n. */
    ghost predicate Valid()
      reads this
    {
      forall i :: 0 <= i < |trail| ==> trail[i].sequence == i + 1
    }

    constructor ()
      ensures Valid() && trail == []
    {
      trail := [];
    }

    method Append(q: AgentRequest, result: Option<RawResult>, verification: Decision, error: Option<ErrorCode>)
      requires Valid()
      modifies this
      ensures Valid()
      ensures trail == old(trail) + [Evidence(|old(trail)| + 1, q.requestId, q.agentId, q.taskId, result, verification, error)]
    {
      trail := trail + [Evidence(|trail| + 1, q.requestId, q.agentId, q.taskId, result, verification, error)];
    }

    /** One line of evidence for each attempt, none for a disabled adapter. */
    method Execute(q: AgentRequest, enabled: bool, run: AdapterRun, verifier: VerifierRun) returns (o: AgentOutcome)
      requires Valid()
      modifies this
      ensures Valid()
      ensures o == Judge(q, Conduct(enabled, run, verifier)) && Possible(q, o)
      ensures o.attempted <==> enabled
      ensures o.accepted <==> enabled && run.Returns? && IdentityError(q, run.result).None? && run.result.status.Succeeded?
                              && verifier.Judges? && verifier.decision.accepted
      ensures run.Returns? && enabled ==> o.result == Some(run.result)
      ensures enabled && run.Raises? ==> o.error == Some(AdapterException(run.kind))
      ensures trail == old(trail) + if enabled then
                [Evidence(|old(trail)| + 1, q.requestId, q.agentId, q.taskId, o.result, o.verification, o.error)] else []
    {
      if !enabled {
        o := AgentOutcome(false, false, None, Decision(false, "ADAPTER_DISABLED"), Some(AdapterDisabled));
        assert trail + [] == trail;
        return;
      }
      match run {
        case Raises(kind) =>
          o := AgentOutcome(true, false, None, Decision(false, "ADAPTER_EXCEPTION"), Some(AdapterException(kind)));
        case Malformed =>
          o := AgentOutcome(true, false, None, Decision(false, "INVALID_RAW_RESULT_TYPE"), Some(InvalidResultType));
        case Returns(result) =>
          var mismatch := IdentityError(q, result);
          if mismatch.Some? {
            o := AgentOutcome(true, false, Some(result), Decision(false, ErrorText(mismatch.value)), mismatch);
          } else if !result.status.Succeeded? {
            o := AgentOutcome(true, false, Some(result), Decision(false, "AGENT_" + StatusName(result.status)), None);
          } else {
            match verifier {
              case VerifierRaises(kind) =>
                o := AgentOutcome(true, false, Some(result), Decision(false, "VERIFIER_EXCEPTION"), Some(VerifierException(kind)));
              case Judges(decision) =>
                o := AgentOutcome(true, decision.accepted, Some(result), decision, None);
            }
          }
      }
      Append(q, o.result, o.verification, o.error);
    }
  }
}
