/**
 Installing files on a host and taking them back when anything goes wrong. The host
 behind the boundaries is an adversary: every call may fail, every service may end up
 in any state, and a command may answer anything. Only this is asked of it: it tells
 the truth about which files exist, it calls a file exact only if it is, a removal
 that fails removes nothing, and its commands leave files alone.
 */
module Bootstrap {
  import opened Values

  datatype Artifact = Artifact(role: string, destination: string, content: string)

  datatype Event =
    | Blocked(reason: string) | Installed(role: string) | Verified(role: string) | Command(name: string, code: int)
    | RestartVerified | CanaryVerified | DaemonProbed(status: string) | ShellProbed(status: string)
    | Removed(role: string) | RemovalFailed(role: string) | RolledCommand(name: string, code: int)
    | RolledCommandRaised(name: string) | RollbackVerified(pass: bool)

  datatype Error =
    | Mismatch(role: string) | BoundaryRaised(role: string) | CommandFailed(name: string) | CommandRaised(name: string)
    | StillPresent(role: string) | SentinelInactive | NnpNotRestored | CanaryStillActive

  datatype Status = BlockedStatus | Succeeded | FailedNoMutation | RolledBack | RollbackFailed

  /** Raised: the call ended with an exception of its own. */
  datatype Outcome = Raised | Result(status: Status, events: seq<Event>, errors: seq<Error>)

  /** A call and how the host answered it; None and false are exceptions. */
  datatype Call =
    | Existence(path: string, there: Option<bool>)
    | Installation(path: string, ok: bool)
    | Inspection(path: string, exact: Option<bool>)
    | Removal(path: string, ok: bool)
    | Order(name: string, code: Option<int>)
    | SentinelState(active: Option<bool>)
    | NnpState(on: Option<bool>)
    | CanaryState(active: Option<bool>)
    | InvocationId(id: Option<string>)
    | DaemonStatus(status: Option<string>)
    | ShellStatus(status: Option<string>)

  /** The commands among the calls, in order. */
  function Orders(calls: seq<Call>): seq<string> {
    if calls == [] then []
    else
      var before, last := Orders(calls[..|calls| - 1]), calls[|calls| - 1];
      if last.Order? then before + [last.name] else before
  }

  lemma OrdersSnoc(calls: seq<Call>, call: Call)
    ensures Orders(calls + [call]) == Orders(calls) + if call.Order? then [call.name] else []
  {
    assert (calls + [call])[..|calls|] == calls;
  }

  lemma {:induction false} OrdersConcat(a: seq<Call>, b: seq<Call>)
    ensures Orders(a + b) == Orders(a) + Orders(b)
    decreases |b|
  {
    if b == [] {
      assert a + b == a;
    } else {
      var rest, last := b[..|b| - 1], b[|b| - 1];
      OrdersConcat(a, rest);
      assert a + b == (a + rest) + [last] && b == rest + [last];
      OrdersSnoc(a + rest, last);
      OrdersSnoc(rest, last);
    }
  }

  class Host {
    const atomicInstall: bool   // an install that fails has written nothing
    ghost var calls: seq<Call>
    var files: map<string, string>
    var sentinelActive: bool
    var nnp: bool
    var canaryActive: bool
    var invocation: string

    constructor (atomicInstall: bool, files: map<string, string>, sentinelActive: bool, nnp: bool, canaryActive: bool, invocation: string)
      ensures this.atomicInstall == atomicInstall && this.files == files
    {
      this.atomicInstall, this.files := atomicInstall, files;
      this.sentinelActive, this.nnp, this.canaryActive, this.invocation := sentinelActive, nnp, canaryActive, invocation;
    }

    method Exists(path: string) returns (r: Option<bool>)
      modifies this`calls
      ensures calls == old(calls) + [Existence(path, r)]
      ensures r.Some? ==> (r.value <==> path in files)
    {
      if * { r := None; } else { r := Some(path in files); }
      calls := calls + [Existence(path, r)];
    }

    method InstallExact(a: Artifact) returns (ok: bool)
      modifies `files, `calls
      ensures calls == old(calls) + [Installation(a.destination, ok)]
      ensures ok ==> files == old(files)[a.destination := a.content]
      ensures !ok ==> files - {a.destination} == old(files) - {a.destination}
      ensures !ok && atomicInstall ==> files == old(files)
    {
      ok := *;
      calls := calls + [Installation(a.destination, ok)];
      if ok {
        files := files[a.destination := a.content];
      } else if !atomicInstall {
        if * {
          var torn: string;
          torn := *;
          files := files[a.destination := torn];
        }
      }
    }

    method VerifyExact(a: Artifact) returns (r: Option<bool>)
      modifies `calls
      ensures calls == old(calls) + [Inspection(a.destination, r)]
      ensures r == Some(true) ==> a.destination in files && files[a.destination] == a.content
    {
      r := None;
      if * { r := Some(false); }
      if * { r := Some(a.destination in files && files[a.destination] == a.content); }
      calls := calls + [Inspection(a.destination, r)];
    }

    method RemoveExact(a: Artifact) returns (ok: bool)
      modifies `files, `calls
      ensures calls == old(calls) + [Removal(a.destination, ok)]
      ensures files == if ok then old(files) - {a.destination} else old(files)
    {
      ok := *;
      calls := calls + [Removal(a.destination, ok)];
      if ok {
        files := files - {a.destination};
      }
    }

    method Run(name: string) returns (r: Option<int>)
      modifies `sentinelActive, `nnp, `canaryActive, `invocation, `calls
      ensures calls == old(calls) + [Order(name, r)]
    {
      sentinelActive := *;
      nnp := *;
      canaryActive := *;
      invocation := *;
      r := *;
      calls := calls + [Order(name, r)];
    }

    method SentinelActive() returns (r: Option<bool>)
      modifies `calls
      ensures calls == old(calls) + [SentinelState(r)]
      ensures r.Some? ==> r.value == sentinelActive
    {
      if * { r := None; } else { r := Some(sentinelActive); }
      calls := calls + [SentinelState(r)];
    }

    method NoNewPrivileges() returns (r: Option<bool>)
      modifies `calls
      ensures calls == old(calls) + [NnpState(r)]
      ensures r.Some? ==> r.value == nnp
    {
      if * { r := None; } else { r := Some(nnp); }
      calls := calls + [NnpState(r)];
    }

    method CanaryActive() returns (r: Option<bool>)
      modifies `calls
      ensures calls == old(calls) + [CanaryState(r)]
      ensures r.Some? ==> r.value == canaryActive
    {
      if * { r := None; } else { r := Some(canaryActive); }
      calls := calls + [CanaryState(r)];
    }

    method Invocation() returns (r: Option<string>)
      modifies `calls
      ensures calls == old(calls) + [InvocationId(r)]
      ensures r.Some? ==> r.value == invocation
    {
      if * { r := None; } else { r := Some(invocation); }
      calls := calls + [InvocationId(r)];
    }

    method ProbeDaemon() returns (r: Option<string>)
      modifies `calls
      ensures calls == old(calls) + [DaemonStatus(r)]
    {
      r := *;
      calls := calls + [DaemonStatus(r)];
    }

    method ProbeShell() returns (r: Option<string>)
      modifies `calls
      ensures calls == old(calls) + [ShellStatus(r)]
    {
      r := *;
      calls := calls + [ShellStatus(r)];
    }
  }

  /**
   The answer that lets an installation go on, once files are being written: installed,
   exact, code zero, active, with no-new-privileges on, under a new invocation, the daemon
   authorized and the shell not.
   */
  predicate Fine(call: Call, invocation: string) {
    match call
    case Existence(_, there) => there.Some?
    case Installation(_, ok) => ok
    case Inspection(_, exact) => exact == Some(true)
    case Removal(_, ok) => ok
    case Order(_, code) => code == Some(0)
    case SentinelState(active) => active == Some(true)
    case NnpState(on) => on == Some(true)
    case CanaryState(active) => active == Some(true)
    case InvocationId(id) => id.Some? && id.value != "" && id.value != invocation
    case DaemonStatus(status) => status == Some("AUTHORIZED")
    case ShellStatus(status) => status.Some? && status != Some("AUTHORIZED")
  }

  /** Every call since an earlier moment was answered like that. */
  ghost predicate FineSince(before: seq<Call>, now: seq<Call>, invocation: string) {
    before <= now && forall k :: |before| <= k < |now| ==> Fine(now[k], invocation)
  }

  /** The commands given since an earlier moment. */
  ghost function OrdersSince(before: seq<Call>, now: seq<Call>): seq<string> {
    if before <= now then Orders(now[|before|..]) else []
  }

  lemma Later(before: seq<Call>, mid: seq<Call>, now: seq<Call>, invocation: string)
    requires before <= mid <= now
    ensures FineSince(before, now, invocation) <==> FineSince(before, mid, invocation) && FineSince(mid, now, invocation)
    ensures OrdersSince(before, now) == OrdersSince(before, mid) + OrdersSince(mid, now)
  {
    assert now[|before|..] == mid[|before|..] + now[|mid|..];
    OrdersConcat(mid[|before|..], now[|mid|..]);
    if FineSince(before, now, invocation) {
      forall k | |before| <= k < |mid| ensures Fine(mid[k], invocation) {
        assert now[k] == mid[k];
      }
    }
  }

  lemma OneMore(before: seq<Call>, call: Call, invocation: string)
    ensures FineSince(before, before + [call], invocation) <==> Fine(call, invocation)
    ensures OrdersSince(before, before + [call]) == if call.Order? then [call.name] else []
    ensures FineSince(before, before, invocation) && OrdersSince(before, before) == []
  {
    var now := before + [call];
    assert now[|before|] == call && now[|before|..] == [call];
    OrdersSnoc([], call);
    assert [] + [call] == [call];
  }

  // --------------------------------------------------------------------- files

  predicate Distinct(artifacts: seq<Artifact>) {
    forall i, j :: 0 <= i < j < |artifacts| ==> artifacts[i].destination != artifacts[j].destination
  }

  function Destinations(artifacts: seq<Artifact>): set<string> {
    set i | 0 <= i < |artifacts| :: artifacts[i].destination
  }

  predicate Absent(files: map<string, string>, artifacts: seq<Artifact>) {
    files.Keys !! Destinations(artifacts)
  }

  predicate Exact(files: map<string, string>, a: Artifact) {
    a.destination in files && files[a.destination] == a.content
  }

  predicate SameElsewhere(before: map<string, string>, after: map<string, string>, artifacts: seq<Artifact>) {
    before - Destinations(artifacts) == after - Destinations(artifacts)
  }

  lemma UntouchedElsewhere(before: map<string, string>, after: map<string, string>, artifacts: seq<Artifact>)
    requires SameElsewhere(before, after, artifacts) && Absent(before, artifacts) && Absent(after, artifacts)
    ensures before == after
  {
    assert before == before - Destinations(artifacts) && after == after - Destinations(artifacts);
  }

  lemma OneChange(before: map<string, string>, mid: map<string, string>, after: map<string, string>,
                  artifacts: seq<Artifact>, i: nat)
    requires i < |artifacts| && SameElsewhere(before, mid, artifacts)
    requires mid - {artifacts[i].destination} == after - {artifacts[i].destination}
    ensures SameElsewhere(before, after, artifacts)
  {
    var all, one := Destinations(artifacts), {artifacts[i].destination};
    assert artifacts[i].destination in all;
    assert mid - all == (mid - one) - all && after - all == (after - one) - all;
  }

  /** The host did not raise. */
  predicate Answered(call: Call) {
    match call
    case Existence(_, there) => there.Some?
    case SentinelState(active) => active.Some?
    case NnpState(on) => on.Some?
    case InvocationId(id) => id.Some?
    case _ => true
  }

  /** The collision check; None where asking raises. */
  method FindCollision(host: Host, artifacts: seq<Artifact>) returns (r: Option<Option<string>>)
    modifies host`calls
    ensures old(host.calls) <= host.calls && OrdersSince(old(host.calls), host.calls) == []
    ensures r == Some(None) ==> Absent(host.files, artifacts) && |host.calls| == |old(host.calls)| + |artifacts|
    ensures |host.calls| <= |old(host.calls)| + |artifacts|
    ensures r.Some? <==> forall k :: |old(host.calls)| <= k < |host.calls| ==> Answered(host.calls[k])
    ensures r.Some? && r.value.Some? ==>
      exists i :: 0 <= i < |artifacts| && artifacts[i].destination in host.files && artifacts[i].role == r.value.value
  {
    hide OrdersSince;
    OneMore(host.calls, Existence("", None), "");
    for i := 0 to |artifacts|
      invariant old(host.calls) <= host.calls && OrdersSince(old(host.calls), host.calls) == []
      invariant |host.calls| == |old(host.calls)| + i
      invariant forall k :: |old(host.calls)| <= k < |host.calls| ==> Answered(host.calls[k])
      invariant forall j :: 0 <= j < i ==> artifacts[j].destination !in host.files
    {
      ghost var asked := host.calls;
      var there := host.Exists(artifacts[i].destination);
      OneMore(asked, Existence(artifacts[i].destination, there), "");
      Later(old(host.calls), asked, host.calls, "");
      assert host.calls[|asked|] == Existence(artifacts[i].destination, there);
      if there.None? { return None; }
      if there.value { return Some(Some(artifacts[i].role)); }
    }
    return Some(None);
  }

  function InstallEvents(artifacts: seq<Artifact>): seq<Event> {
    if artifacts == [] then []
    else InstallEvents(artifacts[..|artifacts| - 1])
         + [Installed(artifacts[|artifacts| - 1].role), Verified(artifacts[|artifacts| - 1].role)]
  }

  /** The first loop of the protected part: install, mark that something changed, verify. */
  method InstallAll(host: Host, artifacts: seq<Artifact>, ghost invocation: string)
    returns (ok: bool, started: bool, events: seq<Event>)
    requires Distinct(artifacts) && artifacts != []
    modifies host`files, host`calls
    ensures old(host.calls) <= host.calls && OrdersSince(old(host.calls), host.calls) == []
    ensures ok <==> FineSince(old(host.calls), host.calls, invocation)
    ensures SameElsewhere(old(host.files), host.files, artifacts)
    ensures ok ==> started && events == InstallEvents(artifacts)
    ensures ok ==> forall a :: a in artifacts ==> Exact(host.files, a)
    ensures !started ==> old(host.files) - {artifacts[0].destination} == host.files - {artifacts[0].destination}
    ensures !started && host.atomicInstall ==> host.files == old(host.files)
  {
    hide SameElsewhere, Destinations, FineSince, OrdersSince;
    started, events := false, [];
    SameElsewhereAtFirst(host.files, artifacts);
    OneMore(host.calls, Installation("", true), invocation);
    for i := 0 to |artifacts|
      invariant old(host.calls) <= host.calls && OrdersSince(old(host.calls), host.calls) == []
      invariant FineSince(old(host.calls), host.calls, invocation)
      invariant SameElsewhere(old(host.files), host.files, artifacts)
      invariant started <==> i > 0
      invariant i == 0 ==> host.files == old(host.files)
      invariant events == InstallEvents(artifacts[..i])
      invariant forall j :: 0 <= j < i ==> Exact(host.files, artifacts[j])
    {
      ghost var mid, asked := host.files, host.calls;
      var installed := host.InstallExact(artifacts[i]);
      OneMore(asked, Installation(artifacts[i].destination, installed), invocation);
      Later(old(host.calls), asked, host.calls, invocation);
      assert installed ==> mid - {artifacts[i].destination} == host.files - {artifacts[i].destination};
      OneChange(old(host.files), mid, host.files, artifacts, i);
      if !installed {
        return false, started, events;
      }
      started := true;
      events := events + [Installed(artifacts[i].role)];
      asked := host.calls;
      var exact := host.VerifyExact(artifacts[i]);
      OneMore(asked, Inspection(artifacts[i].destination, exact), invocation);
      Later(old(host.calls), asked, host.calls, invocation);
      if exact != Some(true) {
        return false, true, events;
      }
      events := events + [Verified(artifacts[i].role)];
      assert artifacts[..i + 1][..i] == artifacts[..i];
    }
    assert artifacts[..|artifacts|] == artifacts;
    ok := true;
  }

  lemma SameElsewhereAtFirst(files: map<string, string>, artifacts: seq<Artifact>)
    ensures SameElsewhere(files, files, artifacts)
  {}

  /** Nothing was written by the rollback, and what it took away was exact. */
  predicate OnlyExactRemoved(before: map<string, string>, after: map<string, string>, artifacts: seq<Artifact>) {
    && SameElsewhere(before, after, artifacts)
    && (forall path :: path in after ==> path in before && after[path] == before[path])
    && forall i :: 0 <= i < |artifacts| && artifacts[i].destination in before && artifacts[i].destination !in after ==>
         before[artifacts[i].destination] == artifacts[i].content
  }

  /** The removal loop of a rollback; None where asking for existence raises. */
  method RemoveAll(host: Host, artifacts: seq<Artifact>) returns (r: Option<(seq<Error>, seq<Event>)>)
    requires Distinct(artifacts)
    modifies host`files, host`calls
    ensures old(host.calls) <= host.calls && OrdersSince(old(host.calls), host.calls) == []
    ensures OnlyExactRemoved(old(host.files), host.files, artifacts)
    // what is still there was not exact, or could not be removed, and that is reported
    ensures r.Some? ==> forall i :: 0 <= i < |artifacts| && artifacts[i].destination in host.files ==>
      Mismatch(artifacts[i].role) in r.value.0 || BoundaryRaised(artifacts[i].role) in r.value.0
    ensures r.Some? && r.value.0 == [] ==> forall i :: 0 <= i < |artifacts| ==> artifacts[i].destination !in host.files
  {
    hide SameElsewhere, Destinations, OrdersSince;
    var errors: seq<Error>, events: seq<Event> := [], [];
    SameElsewhereAtFirst(host.files, artifacts);
    OneMore(host.calls, Existence("", None), "");
    for i := 0 to |artifacts|
      invariant old(host.calls) <= host.calls && OrdersSince(old(host.calls), host.calls) == []
      invariant OnlyExactRemoved(old(host.files), host.files, artifacts)
      invariant forall j :: i <= j < |artifacts| && artifacts[j].destination in old(host.files) ==>
        artifacts[j].destination in host.files
      invariant forall j :: 0 <= j < i && artifacts[j].destination in host.files ==>
        Mismatch(artifacts[j].role) in errors || BoundaryRaised(artifacts[j].role) in errors
    {
      var answered, found, seen := RemoveOne(host, artifacts, i, old(host.files));
      if !answered { return None; }
      assert forall e :: e in errors ==> e in errors + found;
      errors, events := errors + found, events + seen;
    }
    return Some((errors, events));
  }

  /** What a removal that ended with this call reports. */
  function RemovalReport(last: Call, role: string): (seq<Error>, seq<Event>) {
    match last
    case Inspection(_, None) => ([BoundaryRaised(role)], [RemovalFailed(role)])
    case Inspection(_, Some(_)) => ([Mismatch(role)], [RemovalFailed(role)])
    case Removal(_, false) => ([BoundaryRaised(role)], [RemovalFailed(role)])
    case Removal(_, true) => ([], [Removed(role)])
    case _ => ([], [])
  }

  /** One turn of that loop; not answered where asking for existence raises. */
  method RemoveOne(host: Host, artifacts: seq<Artifact>, i: nat, ghost start: map<string, string>)
    returns (answered: bool, errors: seq<Error>, events: seq<Event>)
    requires Distinct(artifacts) && i < |artifacts| && OnlyExactRemoved(start, host.files, artifacts)
    modifies host`files, host`calls
    ensures old(host.calls) <= host.calls
    ensures forall before :: before <= old(host.calls) ==> OrdersSince(before, host.calls) == OrdersSince(before, old(host.calls))
    ensures OnlyExactRemoved(start, host.files, artifacts)
    ensures host.files == old(host.files) || host.files == old(host.files) - {artifacts[i].destination}
    ensures |host.calls| > |old(host.calls)|
    ensures host.calls[|old(host.calls)|].Existence? && (answered <==> host.calls[|old(host.calls)|].there.Some?)
    ensures answered ==> (errors, events) == RemovalReport(host.calls[|host.calls| - 1], artifacts[i].role)
    ensures answered && artifacts[i].destination in host.files ==>
      Mismatch(artifacts[i].role) in errors || BoundaryRaised(artifacts[i].role) in errors
  {
    hide SameElsewhere, Destinations, OrdersSince;
    errors, events := [], [];
    var there := host.Exists(artifacts[i].destination);
    NoOrder(old(host.calls), host.calls);
    if there.None? { return false, [], []; }
    if !there.value { return true, [], []; }
    ghost var asked := host.calls;
    var exact := host.VerifyExact(artifacts[i]);
    NoOrder(asked, host.calls);
    if exact != Some(true) {
      errors := [if exact.None? then BoundaryRaised(artifacts[i].role) else Mismatch(artifacts[i].role)];
      return true, errors, [RemovalFailed(artifacts[i].role)];
    }
    asked := host.calls;
    ghost var mid := host.files;
    var removed := host.RemoveExact(artifacts[i]);
    NoOrder(asked, host.calls);
    if removed {
      assert mid - {artifacts[i].destination} == host.files - {artifacts[i].destination};
      OneChange(start, mid, host.files, artifacts, i);
      return true, [], [Removed(artifacts[i].role)];
    }
    return true, [BoundaryRaised(artifacts[i].role)], [RemovalFailed(artifacts[i].role)];
  }

  /** A call that gives no command adds none. */
  lemma NoOrder(asked: seq<Call>, now: seq<Call>)
    requires |now| == |asked| + 1 && asked <= now && !now[|asked|].Order?
    ensures forall before :: before <= asked ==> OrdersSince(before, now) == OrdersSince(before, asked)
  {
    forall before | before <= asked ensures OrdersSince(before, now) == OrdersSince(before, asked) {
      assert now == asked + [now[|asked|]];
      Later(before, asked, now, "");
      OneMore(asked, now[|asked|], "");
    }
  }

  /** The check after a rollback: whatever is still there is reported. */
  method ReportLeftovers(host: Host, artifacts: seq<Artifact>, found: seq<Error>) returns (r: Option<seq<Error>>)
    modifies host`calls
    ensures old(host.calls) <= host.calls && OrdersSince(old(host.calls), host.calls) == []
    ensures r.Some? ==> found <= r.value
    ensures r.Some? ==> forall a :: a in artifacts && a.destination in host.files ==> StillPresent(a.role) in r.value
    ensures r.Some? && (forall a :: a in artifacts ==> a.destination !in host.files) ==> r.value == found
  {
    hide OrdersSince;
    var errors := found;
    OneMore(host.calls, Existence("", None), "");
    for i := 0 to |artifacts|
      invariant old(host.calls) <= host.calls && OrdersSince(old(host.calls), host.calls) == []
      invariant found <= errors
      invariant forall j :: 0 <= j < i ==> artifacts[j].destination in host.files ==> StillPresent(artifacts[j].role) in errors
      invariant (forall a :: a in artifacts ==> a.destination !in host.files) ==> errors == found
    {
      ghost var asked := host.calls;
      var there := host.Exists(artifacts[i].destination);
      NoOrder(asked, host.calls);
      if there.None? { return None; }
      if there.value {
        ghost var before := errors;
        errors := errors + [StillPresent(artifacts[i].role)];
        assert errors[|errors| - 1] == StillPresent(artifacts[i].role);
        assert forall e :: e in before ==> e in errors;
        assert artifacts[i] in artifacts;
      }
    }
    return Some(errors);
  }

  method RollbackCommand(host: Host, name: string) returns (errors: seq<Error>, events: seq<Event>)
    modifies host`sentinelActive, host`nnp, host`canaryActive, host`invocation, host`calls
    ensures |host.calls| == |old(host.calls)| + 1 && old(host.calls) <= host.calls
    ensures var call := host.calls[|old(host.calls)|];
            && call.Order? && call.name == name
            && errors == if call.code.None? then [CommandRaised(name)]
                         else if call.code.value == 0 then [] else [CommandFailed(name)]
  {
    var code := host.Run(name);
    if code.None? {
      return [CommandRaised(name)], [RolledCommandRaised(name)];
    }
    return if code.value == 0 then [] else [CommandFailed(name)], [RolledCommand(name, code.value)];
  }
}
