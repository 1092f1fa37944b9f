/** The canary executor and the pilot executor: their order of steps and what their statuses mean. */
module BootstrapExecutors {
  import opened Values
  import opened Bootstrap

  const AUTHORIZED := "AUTHORIZED"

  datatype Canary = Canary(dropin: Artifact, unit: Artifact, polkit: Artifact, applyCommands: seq<string>)

  function InstallOrder(m: Canary): seq<Artifact> { [m.dropin, m.unit, m.polkit] }

  function RemovalOrder(m: Canary): seq<Artifact> { [m.polkit, m.unit, m.dropin] }

  lemma OrdersAgree(m: Canary)
    ensures Destinations(InstallOrder(m)) == Destinations(RemovalOrder(m))
    ensures Distinct(InstallOrder(m)) <==> Distinct(RemovalOrder(m))
  {
    var a, b := InstallOrder(m), RemovalOrder(m);
    assert a[0] == b[2] && a[1] == b[1] && a[2] == b[0];
    Listed(a, m);
    Listed(b, m);
  }

  lemma Listed(a: seq<Artifact>, m: Canary)
    requires a == InstallOrder(m) || a == RemovalOrder(m)
    ensures Destinations(a) == {m.dropin.destination, m.unit.destination, m.polkit.destination}
    ensures Distinct(a) <==>
      && m.dropin.destination != m.unit.destination && m.dropin.destination != m.polkit.destination
      && m.unit.destination != m.polkit.destination
  {
    assert a[0].destination in Destinations(a) && a[1].destination in Destinations(a) && a[2].destination in Destinations(a);
  }

  function CommandEvents(commands: seq<string>): seq<Event> {
    if commands == [] then []
    else
      var name := commands[|commands| - 1];
      CommandEvents(commands[..|commands| - 1]) + [Command(name, 0)]
      + (if name == "restart_sentinel" then [RestartVerified] else [])
      + (if name == "start_canary" then [CanaryVerified] else [])
  }

  /** The sentinel is active again, under a new invocation, with no-new-privileges on. */
  method RestartHolds(host: Host, before: string) returns (ok: bool)
    modifies host`calls
    ensures old(host.calls) <= host.calls && OrdersSince(old(host.calls), host.calls) == []
    ensures ok <==> FineSince(old(host.calls), host.calls, before)
    ensures ok ==> host.sentinelActive && host.nnp && host.invocation != "" && host.invocation != before
  {
    hide FineSince, OrdersSince;
    OneMore(host.calls, SentinelState(None), before);
    ghost var asked := host.calls;
    var active := host.SentinelActive();
    Continues(old(host.calls), asked, host.calls, before);
    if active != Some(true) { return false; }
    asked := host.calls;
    var after := host.Invocation();
    Continues(old(host.calls), asked, host.calls, before);
    if after.None? || after.value == "" || after.value == before { return false; }
    asked := host.calls;
    var nnp := host.NoNewPrivileges();
    Continues(old(host.calls), asked, host.calls, before);
    return nnp == Some(true);
  }

  /** One call more. */
  lemma Continues(before: seq<Call>, asked: seq<Call>, now: seq<Call>, invocation: string)
    requires before <= asked <= now && |now| == |asked| + 1
    ensures FineSince(before, now, invocation) <==> FineSince(before, asked, invocation) && Fine(now[|asked|], invocation)
    ensures OrdersSince(before, now)
         == OrdersSince(before, asked) + (if now[|asked|].Order? then [now[|asked|].name] else [])
  {
    assert now == asked + [now[|asked|]];
    Later(before, asked, now, invocation);
    OneMore(asked, now[|asked|], invocation);
  }

  predicate EndsWithStart(commands: seq<string>) {
    commands != [] && commands[|commands| - 1] == "start_canary"
  }

  /** The second loop of the protected part; any exception reads as a failure. */
  method ApplyCommands(host: Host, commands: seq<string>, before: string) returns (ok: bool, events: seq<Event>)
    modifies host`sentinelActive, host`nnp, host`canaryActive, host`invocation, host`calls
    ensures old(host.calls) <= host.calls
    ensures ok <==> FineSince(old(host.calls), host.calls, before)
    ensures exists n :: 0 <= n <= |commands| && OrdersSince(old(host.calls), host.calls) == commands[..n] && (ok ==> n == |commands|)
    ensures ok ==> events == CommandEvents(commands)
    ensures ok && EndsWithStart(commands) ==> host.canaryActive
  {
    hide FineSince, OrdersSince;
    events := [];
    OneMore(host.calls, SentinelState(None), before);
    for i := 0 to |commands|
      invariant old(host.calls) <= host.calls && FineSince(old(host.calls), host.calls, before)
      invariant OrdersSince(old(host.calls), host.calls) == commands[..i]
      invariant events == CommandEvents(commands[..i])
      invariant i > 0 && commands[i - 1] == "start_canary" ==> host.canaryActive
    {
      assert commands[..i + 1] == commands[..i] + [commands[i]];
      ghost var asked := host.calls;
      var fine, more := ApplyOne(host, commands[i], before);
      Later(old(host.calls), asked, host.calls, before);
      if !fine { return false, events + more; }
      events := events + more;
    }
    assert commands[..|commands|] == commands;
    return true, events;
  }

  /** One turn of that loop. */
  method ApplyOne(host: Host, name: string, before: string) returns (ok: bool, events: seq<Event>)
    modifies host`sentinelActive, host`nnp, host`canaryActive, host`invocation, host`calls
    ensures old(host.calls) <= host.calls && OrdersSince(old(host.calls), host.calls) == [name]
    ensures ok <==> FineSince(old(host.calls), host.calls, before)
    ensures forall done: seq<string> :: ok ==> CommandEvents(done + [name]) == CommandEvents(done) + events
    ensures ok && name == "start_canary" ==> host.canaryActive
    ensures ok ==> events != [] && events[0] == Command(name, 0)
  {
    hide FineSince, OrdersSince;
    forall done: seq<string>
      ensures CommandEvents(done + [name]) == CommandEvents(done) + [Command(name, 0)]
        + (if name == "restart_sentinel" then [RestartVerified] else [])
        + (if name == "start_canary" then [CanaryVerified] else [])
    {
      assert (done + [name])[..|done|] == done;
    }
    OneMore(host.calls, SentinelState(None), before);
    ghost var asked := host.calls;
    var code := host.Run(name);
    Continues(old(host.calls), asked, host.calls, before);
    if code.None? { return false, []; }
    events := [Command(name, code.value)];
    if code.value != 0 { return false, events; }
    if name == "restart_sentinel" {
      asked := host.calls;
      var holds := RestartHolds(host, before);
      Later(old(host.calls), asked, host.calls, before);
      if !holds { return false, events; }
      events := events + [RestartVerified];
    }
    if name == "start_canary" {
      asked := host.calls;
      var active := host.CanaryActive();
      Continues(old(host.calls), asked, host.calls, before);
      if active != Some(true) { return false, events; }
      events := events + [CanaryVerified];
    }
    return true, events;
  }

  /** Last in the protected part: the daemon must be authorized, the shell must not. */
  method ProbeBoth(host: Host, ghost before: string) returns (ok: bool, events: seq<Event>)
    modifies host`calls
    ensures old(host.calls) <= host.calls && OrdersSince(old(host.calls), host.calls) == []
    ensures ok <==> FineSince(old(host.calls), host.calls, before)
    ensures ok ==> exists shell :: shell != AUTHORIZED && events == [DaemonProbed(AUTHORIZED), ShellProbed(shell)]
  {
    hide FineSince, OrdersSince;
    OneMore(host.calls, SentinelState(None), before);
    ghost var asked := host.calls;
    var daemon := host.ProbeDaemon();
    Continues(old(host.calls), asked, host.calls, before);
    if daemon.None? { return false, []; }
    events := [DaemonProbed(daemon.value)];
    if daemon.value != AUTHORIZED { return false, events; }
    asked := host.calls;
    var shell := host.ProbeShell();
    Continues(old(host.calls), asked, host.calls, before);
    if shell.None? { return false, events; }
    events := events + [ShellProbed(shell.value)];
    return shell.value != AUTHORIZED, events;
  }

  /**
   Both executors end well exactly on a smooth course: the first n questions are answered
   at all, and everything from then on is answered as an installation needs it.
   */
  ghost predicate Smooth(before: seq<Call>, now: seq<Call>, n: nat, invocation: string) {
    && |before| + n <= |now| && before <= now
    && (forall k :: |before| <= k < |before| + n ==> Answered(now[k]))
    && FineSince(now[..|before| + n], now, invocation)
  }

  /** A course that has gone wrong once stays so. */
  lemma RoughStays(before: seq<Call>, mid: seq<Call>, later: seq<Call>, now: seq<Call>, n: nat, invocation: string)
    requires before <= mid <= later <= now && |mid| == |before| + n && !FineSince(mid, later, invocation)
    ensures !Smooth(before, now, n, invocation)
  {
    assert now[..|before| + n] == mid;
    Later(mid, later, now, invocation);
  }

  /** The protected part: install and verify, apply, probe. */
  method Protected(host: Host, artifacts: seq<Artifact>, commands: seq<string>, before: string)
    returns (ok: bool, started: bool, events: seq<Event>)
    requires Distinct(artifacts) && artifacts != []
    modifies host
    ensures old(host.calls) <= host.calls
    ensures ok <==> FineSince(old(host.calls), host.calls, before)
    ensures exists n :: 0 <= n <= |commands| && OrdersSince(old(host.calls), host.calls) == commands[..n] && (ok ==> n == |commands|)
    ensures SameElsewhere(old(host.files), host.files, artifacts)
    ensures ok ==> started && forall a :: a in artifacts ==> Exact(host.files, a)
    ensures ok ==>
      exists shell :: shell != AUTHORIZED && events ==
        InstallEvents(artifacts) + CommandEvents(commands) + [DaemonProbed(AUTHORIZED), ShellProbed(shell)]
    ensures ok && EndsWithStart(commands) ==> host.canaryActive
    ensures !started ==> !ok && OrdersSince(old(host.calls), host.calls) == []
    ensures !started ==> old(host.files) - {artifacts[0].destination} == host.files - {artifacts[0].destination}
    ensures !started && host.atomicInstall ==> host.files == old(host.files)
  {
    hide FineSince, OrdersSince, Exact, Distinct, SameElsewhere, InstallEvents, CommandEvents;
    ok, started, events := InstallAll(host, artifacts, before);
    assert commands[..0] == [];
    if ok {
      ghost var installed := host.calls;
      var applied, more := ApplyCommands(host, commands, before);
      Later(old(host.calls), installed, host.calls, before);
      events := events + more;
      ok := applied;
      if ok {
        ghost var asked := host.calls;
        var probed, last := ProbeBoth(host, before);
        Later(old(host.calls), asked, host.calls, before);
        events := events + last;
        ok := probed;
      }
    }
  }

  /** The three commands that every rollback gives, after stopping the canary where it runs. */
  const AFTER_REMOVAL: seq<string> :=
    ["daemon_reload_after_remove", "restart_sentinel_after_restore", "reset_failed_canary"]

  function RollbackOrders(active: bool): seq<string> {
    (if active then ["stop_canary"] else []) + AFTER_REMOVAL
  }

  /** `_rollback` of the canary executor; None where it raises itself. */
  method RollBackCanary(host: Host, m: Canary) returns (r: Option<(seq<Error>, seq<Event>)>)
    requires Distinct(RemovalOrder(m))
    modifies host
    ensures old(host.calls) <= host.calls
    ensures r.Some? ==> OrdersSince(old(host.calls), host.calls) == RollbackOrders(old(host.canaryActive))
    ensures OnlyExactRemoved(old(host.files), host.files, RemovalOrder(m))
    ensures r.Some? ==> forall a :: a in RemovalOrder(m) && a.destination in host.files ==> StillPresent(a.role) in r.value.0
    ensures r.Some? && r.value.0 == [] ==> host.sentinelActive && !host.nnp && !host.canaryActive
  {
    hide OnlyExactRemoved, RemovalOrder, OrdersSince;
    UnchangedIsOk(host.files, RemovalOrder(m));
    OneMore(host.calls, SentinelState(None), "");
    var running := host.CanaryActive();
    NoOrder(old(host.calls), host.calls);
    if running.None? { return None; }
    var errors: seq<Error>, events: seq<Event> := [], [];
    if running.value {
      ghost var asked := host.calls;
      errors, events := RollbackCommand(host, "stop_canary");
      Continues(old(host.calls), asked, host.calls, "");
    }
    ghost var asked := host.calls;
    var removal := RemoveAll(host, RemovalOrder(m));
    Later(old(host.calls), asked, host.calls, "");
    if removal.None? { return None; }
    errors, events := errors + removal.value.0, events + removal.value.1;
    var more, seen := ReloadAfterRemoval(host, old(host.calls));
    errors, events := errors + more, events + seen;
    asked := host.calls;
    var leftovers := ReportLeftovers(host, RemovalOrder(m), errors);
    Later(old(host.calls), asked, host.calls, "");
    if leftovers.None? { return None; }
    ghost var reported := leftovers.value;
    asked := host.calls;
    var services := ReportServices(host, leftovers.value);
    Later(old(host.calls), asked, host.calls, "");
    if services.None? { return None; }
    errors := services.value;
    assert forall e :: e in reported ==> e in errors;
    return Some((errors, events + [RollbackVerified(errors == [])]));
  }

  method ReloadAfterRemoval(host: Host, ghost before: seq<Call>) returns (errors: seq<Error>, events: seq<Event>)
    requires before <= host.calls
    modifies host`sentinelActive, host`nnp, host`canaryActive, host`invocation, host`calls
    ensures old(host.calls) <= host.calls
    ensures OrdersSince(before, host.calls) == OrdersSince(before, old(host.calls)) + AFTER_REMOVAL
  {
    hide OrdersSince;
    ghost var asked := host.calls;
    var e1, v1 := RollbackCommand(host, "daemon_reload_after_remove");
    Continues(before, asked, host.calls, "");
    asked := host.calls;
    var e2, v2 := RollbackCommand(host, "restart_sentinel_after_restore");
    Continues(before, asked, host.calls, "");
    asked := host.calls;
    var e3, v3 := RollbackCommand(host, "reset_failed_canary");
    Continues(before, asked, host.calls, "");
    return e1 + e2 + e3, v1 + v2 + v3;
  }

  lemma UnchangedIsOk(files: map<string, string>, artifacts: seq<Artifact>)
    ensures OnlyExactRemoved(files, files, artifacts)
  {}

  /** The service checks at the end of a rollback. */
  method ReportServices(host: Host, found: seq<Error>) returns (r: Option<seq<Error>>)
    modifies host`calls
    ensures old(host.calls) <= host.calls && OrdersSince(old(host.calls), host.calls) == []
    ensures r.Some? ==>
      r.value == found + (if host.sentinelActive then [] else [SentinelInactive]) + (if host.nnp then [NnpNotRestored] else [])
      + (if host.canaryActive then [CanaryStillActive] else [])
  {
    hide OrdersSince;
    OneMore(host.calls, SentinelState(None), "");
    var errors := found;
    var active := host.SentinelActive();
    NoOrder(old(host.calls), host.calls);
    if active.None? { return None; }
    if !active.value { errors := errors + [SentinelInactive]; }
    ghost var asked := host.calls;
    var nnp := host.NoNewPrivileges();
    NoOrder(asked, host.calls);
    if nnp.None? { return None; }
    if nnp.value { errors := errors + [NnpNotRestored]; }
    asked := host.calls;
    var canary := host.CanaryActive();
    NoOrder(asked, host.calls);
    if canary.None? { return None; }
    if canary.value { errors := errors + [CanaryStillActive]; }
    return Some(errors);
  }

  /** What each status promises, given the files before and after. */
  predicate Kept(o: Outcome, before: map<string, string>, after: map<string, string>, artifacts: seq<Artifact>, atomic: bool)
    requires artifacts != []
  {
    && SameElsewhere(before, after, artifacts)
    && (o.Result? ==>
          match o.status
          case BlockedStatus => after == before && o.errors == []
          case FailedNoMutation =>
            && (atomic ==> after == before) && o.errors == []
            && before - {artifacts[0].destination} == after - {artifacts[0].destination}
          case Succeeded => Absent(before, artifacts) && (forall a :: a in artifacts ==> Exact(after, a)) && o.errors == []
          case RolledBack => after == before && o.errors == []
          case RollbackFailed =>
            o.errors != [] && forall a :: a in artifacts && a.destination in after ==> StillPresent(a.role) in o.errors)
  }

  /** A rollback turned into a status. */
  lemma RollbackKept(before: map<string, string>, mid: map<string, string>, after: map<string, string>,
                     artifacts: seq<Artifact>, removal: seq<Artifact>, errors: seq<Error>, events: seq<Event>, atomic: bool)
    requires artifacts != [] && Destinations(artifacts) == Destinations(removal)
    requires forall a :: a in artifacts <==> a in removal
    requires Absent(before, artifacts) && SameElsewhere(before, mid, artifacts) && OnlyExactRemoved(mid, after, removal)
    requires forall a :: a in removal && a.destination in after ==> StillPresent(a.role) in errors
    ensures Kept(Result(if errors == [] then RolledBack else RollbackFailed, events, errors), before, after, artifacts, atomic)
  {
    assert SameElsewhere(before, after, artifacts);
    if errors == [] {
      forall d | d in Destinations(artifacts) ensures d !in after {
        var i :| 0 <= i < |artifacts| && artifacts[i].destination == d;
        assert artifacts[i] in removal;
      }
      UntouchedElsewhere(before, after, artifacts);
    }
  }

  /** The file is there with the artifact's content. */
  ghost predicate Holds(files: map<string, string>, a: Artifact) {
    a.destination in files && files[a.destination] == a.content
  }

  lemma InstalledInOrder(m: Canary, files: map<string, string>)
    ensures InstallEvents(InstallOrder(m)) ==
      [Installed(m.dropin.role), Verified(m.dropin.role), Installed(m.unit.role), Verified(m.unit.role),
       Installed(m.polkit.role), Verified(m.polkit.role)]
    ensures (forall a :: a in InstallOrder(m) ==> Exact(files, a)) ==>
      Holds(files, m.dropin) && Holds(files, m.unit) && Holds(files, m.polkit)
  {
    var all := InstallOrder(m);
    assert all[..2] == [m.dropin, m.unit] && all[..2][..1] == [m.dropin] && all[..2][..1][..0] == [];
    assert InstallEvents([m.dropin]) == [Installed(m.dropin.role), Verified(m.dropin.role)];
    assert m.dropin in all && m.unit in all && m.polkit in all;
  }

  lemma PilotInstalledInOrder(m: Pilot, files: map<string, string>)
    ensures InstallEvents(PilotInstall(m)) ==
      [Installed(m.helper.role), Verified(m.helper.role), Installed(m.polkit.role), Verified(m.polkit.role)]
    ensures (forall a :: a in PilotInstall(m) ==> Exact(files, a)) ==> Holds(files, m.helper) && Holds(files, m.polkit)
  {
    var all := PilotInstall(m);
    assert all[..1] == [m.helper] && all[..1][..0] == [];
    assert InstallEvents([m.helper]) == [Installed(m.helper.role), Verified(m.helper.role)];
    assert m.helper in all && m.polkit in all;
  }

  /** What the canary executor asks of a host before it touches it. */
  ghost predicate Healthy(host: Host, artifacts: seq<Artifact>)
    reads host
  {
    Absent(host.files, artifacts) && host.sentinelActive && !host.nnp && host.invocation != ""
  }

  /** Why a host is refused before anything is written. */
  ghost predicate Refused(host: Host, artifacts: seq<Artifact>, why: string)
    reads host
  {
    || (exists i :: 0 <= i < |artifacts| && artifacts[i].destination in host.files && artifacts[i].role == why)
    || ServiceRefused(host, why)
  }

  /** The checks before anything is written: None where they pass, and the invocation found. */
  method Preflight(host: Host, artifacts: seq<Artifact>) returns (stop: Option<Outcome>, invocation: string)
    modifies host`calls
    ensures old(host.calls) <= host.calls && OrdersSince(old(host.calls), host.calls) == []
    ensures |host.calls| <= |old(host.calls)| + |artifacts| + 3
    ensures stop.None? ==>
      && old(Healthy(host, artifacts)) && invocation == old(host.invocation) && |host.calls| == |old(host.calls)| + |artifacts| + 3
      && forall k :: |old(host.calls)| <= k < |host.calls| ==> Answered(host.calls[k])
    ensures stop == Some(Raised) <==> exists k :: |old(host.calls)| <= k < |host.calls| && !Answered(host.calls[k])
    ensures stop.Some? && stop.value.Result? ==> !old(Healthy(host, artifacts))
    ensures stop.Some? && stop.value.Result? ==>
      exists why :: old(Refused(host, artifacts, why)) && stop.value == Result(BlockedStatus, [Blocked(why)], [])
  {
    hide OrdersSince, Absent;
    var collision := FindCollision(host, artifacts);
    if collision.None? { return Some(Raised), ""; }
    if collision.value.Some? {
      CollisionIsUnhealthy(host, artifacts, collision.value.value);
      assert old(Refused(host, artifacts, collision.value.value));
      return Some(Result(BlockedStatus, [Blocked(collision.value.value)], [])), "";
    }
    ghost var asked := host.calls;
    stop, invocation := CheckServices(host);
    Later(old(host.calls), asked, host.calls, "");
    if stop.Some? && stop.value.Result? {
      ghost var why :| old(ServiceRefused(host, why)) && stop.value == Result(BlockedStatus, [Blocked(why)], []);
      assert old(Refused(host, artifacts, why));
    }
  }

  ghost predicate ServiceRefused(host: Host, why: string)
    reads host
  {
    || (why == "sentinel_inactive" && !host.sentinelActive)
    || (why == "unexpected_pre_nnp" && host.nnp)
    || (why == "missing_invocation" && host.invocation == "")
  }

  /** The questions about the services, in their order. */
  method CheckServices(host: Host) returns (stop: Option<Outcome>, invocation: string)
    modifies host`calls
    ensures old(host.calls) <= host.calls && OrdersSince(old(host.calls), host.calls) == []
    ensures |host.calls| <= |old(host.calls)| + 3
    ensures stop.None? ==>
      && host.sentinelActive && !host.nnp && invocation == host.invocation != "" && |host.calls| == |old(host.calls)| + 3
      && forall k :: |old(host.calls)| <= k < |host.calls| ==> Answered(host.calls[k])
    ensures stop == Some(Raised) <==> exists k :: |old(host.calls)| <= k < |host.calls| && !Answered(host.calls[k])
    ensures stop.Some? && stop.value.Result? ==>
      exists why :: old(ServiceRefused(host, why)) && stop.value == Result(BlockedStatus, [Blocked(why)], [])
  {
    hide OrdersSince;
    OneMore(host.calls, SentinelState(None), "");
    ghost var asked := host.calls;
    var before := host.Invocation();
    NoOrder(asked, host.calls);
    assert Answered(host.calls[|asked|]) <==> before.Some?;
    if before.None? { return Some(Raised), ""; }
    asked := host.calls;
    var active := host.SentinelActive();
    NoOrder(asked, host.calls);
    assert Answered(host.calls[|asked|]) <==> active.Some?;
    if active.None? { return Some(Raised), ""; }
    if !active.value {
      assert old(ServiceRefused(host, "sentinel_inactive"));
      return Some(Result(BlockedStatus, [Blocked("sentinel_inactive")], [])), "";
    }
    asked := host.calls;
    var nnp := host.NoNewPrivileges();
    NoOrder(asked, host.calls);
    assert Answered(host.calls[|asked|]) <==> nnp.Some?;
    if nnp.None? { return Some(Raised), ""; }
    if nnp.value {
      assert old(ServiceRefused(host, "unexpected_pre_nnp"));
      return Some(Result(BlockedStatus, [Blocked("unexpected_pre_nnp")], [])), "";
    }
    if before.value == "" {
      assert old(ServiceRefused(host, "missing_invocation"));
      return Some(Result(BlockedStatus, [Blocked("missing_invocation")], [])), "";
    }
    return None, before.value;
  }

  lemma CollisionIsUnhealthy(host: Host, artifacts: seq<Artifact>, role: string)
    requires exists i :: 0 <= i < |artifacts| && artifacts[i].destination in host.files && artifacts[i].role == role
    ensures !Absent(host.files, artifacts)
  {
    var i :| 0 <= i < |artifacts| && artifacts[i].destination in host.files;
    assert artifacts[i].destination in Destinations(artifacts);
  }

  /**
   `execute` of the canary executor, past the check of the authorization. It succeeds
   exactly on a healthy host that answers smoothly.
   */
  method ExecuteCanary(host: Host, m: Canary) returns (o: Outcome)
    requires Distinct(InstallOrder(m))
    modifies host
    ensures old(host.calls) <= host.calls
    ensures o.Result? && o.status.Succeeded? <==>
      old(Healthy(host, InstallOrder(m))) && Smooth(old(host.calls), host.calls, 6, old(host.invocation))
    ensures o.Result? && o.status.BlockedStatus? ==>
      && !old(Healthy(host, InstallOrder(m)))
      && exists why :: old(Refused(host, InstallOrder(m), why)) && o.events == [Blocked(why)]
    ensures Kept(o, old(host.files), host.files, InstallOrder(m), host.atomicInstall)
    ensures o.Result? && o.status.Succeeded? ==>
      exists shell :: shell != AUTHORIZED && o.events ==
        [Installed(m.dropin.role), Verified(m.dropin.role), Installed(m.unit.role), Verified(m.unit.role),
         Installed(m.polkit.role), Verified(m.polkit.role)]
        + CommandEvents(m.applyCommands) + [DaemonProbed("AUTHORIZED"), ShellProbed(shell)]
    ensures o.Result? && o.status.Succeeded? ==>
      Holds(host.files, m.dropin) && Holds(host.files, m.unit) && Holds(host.files, m.polkit)
    ensures o.Result? && o.status.Succeeded? && EndsWithStart(m.applyCommands) ==> host.canaryActive
    ensures o.Result? && o.status.RolledBack? ==> host.sentinelActive && !host.nnp && !host.canaryActive
    // the commands that were given
    ensures o.Result? ==>
      match o.status
      case BlockedStatus => OrdersSince(old(host.calls), host.calls) == []
      case FailedNoMutation => OrdersSince(old(host.calls), host.calls) == []
      case Succeeded => OrdersSince(old(host.calls), host.calls) == m.applyCommands
      case _ =>
        exists n, active :: 0 <= n <= |m.applyCommands| && OrdersSince(old(host.calls), host.calls) ==
          m.applyCommands[..n] + RollbackOrders(active)
  {
    hide InstallOrder, RemovalOrder, Distinct, Exact, Absent, OnlyExactRemoved, OrdersSince, FineSince, Smooth, InstallEvents,
         CommandEvents, Refused;
    var artifacts := InstallOrder(m);
    OrdersAgree(m);
    SameArtifacts(m);
    assert SameElsewhere(host.files, host.files, artifacts);
    var stop, before := Preflight(host, artifacts);
    if stop.Some? {
      StoppedIsRough(old(host.calls), host.calls, old(host.invocation));
      return stop.value;
    }
    ghost var checked := host.calls;
    var ok, started, events := Protected(host, artifacts, m.applyCommands, before);
    Later(old(host.calls), checked, host.calls, before);
    CourseIs(old(host.calls), checked, host.calls, before);
    assert m.applyCommands[..|m.applyCommands|] == m.applyCommands;
    if ok {
      InstalledInOrder(m, host.files);
      return Result(Succeeded, events, []);
    }
    if !started {
      return Result(FailedNoMutation, events, []);
    }
    ghost var mid, tried := host.files, host.calls;
    ghost var n :| 0 <= n <= |m.applyCommands| && OrdersSince(old(host.calls), tried) == m.applyCommands[..n];
    ghost var active := host.canaryActive;
    var rolled := RollBackCanary(host, m);
    Later(old(host.calls), tried, host.calls, before);
    RoughStays(old(host.calls), checked, tried, host.calls, 6, before);
    if rolled.None? {
      RolledElsewhere(old(host.files), mid, host.files, artifacts, RemovalOrder(m));
      return Raised;
    }
    RollbackKept(old(host.files), mid, host.files, artifacts, RemovalOrder(m), rolled.value.0, events + rolled.value.1,
                 host.atomicInstall);
    return Result(if rolled.value.0 == [] then RolledBack else RollbackFailed, events + rolled.value.1, rolled.value.0);
  }

  lemma CourseIs(before: seq<Call>, checked: seq<Call>, now: seq<Call>, invocation: string)
    requires before <= checked <= now && |checked| == |before| + 6
    requires forall k :: |before| <= k < |checked| ==> Answered(checked[k])
    ensures Smooth(before, now, 6, invocation) <==> FineSince(checked, now, invocation)
  {
    hide FineSince;
    assert now[..|before| + 6] == checked;
  }

  lemma StoppedIsRough(before: seq<Call>, now: seq<Call>, invocation: string)
    requires before <= now && |now| <= |before| + 6
    ensures (exists k :: |before| <= k < |now| && !Answered(now[k])) ==> !Smooth(before, now, 6, invocation)
  {
    hide FineSince;
  }

  lemma SameArtifacts(m: Canary)
    ensures |InstallOrder(m)| == 3 && forall a :: a in InstallOrder(m) <==> a in RemovalOrder(m)
  {}

  lemma RolledElsewhere(before: map<string, string>, mid: map<string, string>, after: map<string, string>,
                        artifacts: seq<Artifact>, removal: seq<Artifact>)
    requires Destinations(artifacts) == Destinations(removal)
    requires SameElsewhere(before, mid, artifacts) && OnlyExactRemoved(mid, after, removal)
    ensures SameElsewhere(before, after, artifacts)
  {}

  // --------------------------------------------------------------------- pilot

  datatype Pilot = Pilot(helper: Artifact, polkit: Artifact)

  function PilotInstall(m: Pilot): seq<Artifact> { [m.helper, m.polkit] }

  function PilotRemoval(m: Pilot): seq<Artifact> { [m.polkit, m.helper] }

  lemma PilotOrders(m: Pilot)
    ensures Destinations(PilotInstall(m)) == Destinations(PilotRemoval(m)) == {m.helper.destination, m.polkit.destination}
    ensures Distinct(PilotInstall(m)) <==> Distinct(PilotRemoval(m))
    ensures forall a :: a in PilotInstall(m) <==> a in PilotRemoval(m)
  {
    var a, b := PilotInstall(m), PilotRemoval(m);
    assert a[0] == b[1] && a[1] == b[0];
    assert a[0].destination in Destinations(a) && a[1].destination in Destinations(a);
    assert b[0].destination in Destinations(b) && b[1].destination in Destinations(b);
  }

  /**
   `execute` of the pilot executor: one command, no service checks, the same promises
   about files. It succeeds exactly where nothing is in the way and the host answers smoothly.
   */
  method ExecutePilot(host: Host, m: Pilot) returns (o: Outcome)
    requires Distinct(PilotInstall(m))
    modifies host
    ensures old(host.calls) <= host.calls
    ensures o.Result? && o.status.Succeeded? <==>
      old(Absent(host.files, PilotInstall(m))) && Smooth(old(host.calls), host.calls, 2, "")
    ensures o.Result? && o.status.BlockedStatus? ==> !old(Absent(host.files, PilotInstall(m)))
    ensures Kept(o, old(host.files), host.files, PilotInstall(m), host.atomicInstall)
    ensures o.Result? && o.status.Succeeded? ==>
      exists shell :: shell != AUTHORIZED && o.events ==
        [Installed(m.helper.role), Verified(m.helper.role), Installed(m.polkit.role), Verified(m.polkit.role)]
        + [Command("daemon_reload", 0)] + [DaemonProbed("AUTHORIZED"), ShellProbed(shell)]
    ensures o.Result? && o.status.Succeeded? ==> Holds(host.files, m.helper) && Holds(host.files, m.polkit)
    ensures o.Result? ==>
      match o.status
      case BlockedStatus => OrdersSince(old(host.calls), host.calls) == []
      case FailedNoMutation => OrdersSince(old(host.calls), host.calls) == []
      case Succeeded => OrdersSince(old(host.calls), host.calls) == ["daemon_reload"]
      case _ =>
        || OrdersSince(old(host.calls), host.calls) == ["daemon_reload"]
        || OrdersSince(old(host.calls), host.calls) == ["daemon_reload", "daemon_reload"]
  {
    hide Distinct, Exact, Absent, OnlyExactRemoved, InstallEvents, OrdersSince, FineSince, Smooth, CommandEvents;
    var artifacts := PilotInstall(m);
    PilotOrders(m);
    OneCommand();
    assert SameElsewhere(host.files, host.files, artifacts);
    var collision := FindCollision(host, artifacts);
    if collision.None? {
      PilotStopped(old(host.calls), host.calls);
      return Raised;
    }
    if collision.value.Some? {
      CollisionIsUnhealthy(host, artifacts, collision.value.value);
      return Result(BlockedStatus, [Blocked(collision.value.value)], []);
    }
    hide PilotInstall, PilotRemoval;
    ghost var checked := host.calls;
    var ok, started, events := Protected(host, artifacts, ["daemon_reload"], "");
    Later(old(host.calls), checked, host.calls, "");
    PilotCourse(old(host.calls), checked, host.calls);
    if ok {
      PilotInstalledInOrder(m, host.files);
      return Result(Succeeded, events, []);
    }
    if !started {
      return Result(FailedNoMutation, events, []);
    }
    ghost var mid, tried := host.files, host.calls;
    var errors, more := RollBackPilot(host, m, events);
    Later(old(host.calls), tried, host.calls, "");
    RoughStays(old(host.calls), checked, tried, host.calls, 2, "");
    if errors.None? {
      RolledElsewhere(old(host.files), mid, host.files, artifacts, PilotRemoval(m));
      return Raised;
    }
    RollbackKept(old(host.files), mid, host.files, artifacts, PilotRemoval(m), errors.value, more, host.atomicInstall);
    return Result(if errors.value == [] then RolledBack else RollbackFailed, more, errors.value);
  }

  /** `_rollback` of the pilot executor. */
  method RollBackPilot(host: Host, m: Pilot, events: seq<Event>) returns (r: Option<seq<Error>>, all: seq<Event>)
    requires Distinct(PilotRemoval(m))
    modifies host
    ensures old(host.calls) <= host.calls
    ensures r.Some? ==> OrdersSince(old(host.calls), host.calls) == ["daemon_reload"]
    ensures OnlyExactRemoved(old(host.files), host.files, PilotRemoval(m))
    ensures r.Some? ==> forall a :: a in PilotRemoval(m) && a.destination in host.files ==> StillPresent(a.role) in r.value
  {
    hide OnlyExactRemoved, PilotRemoval, OrdersSince;
    OneMore(host.calls, SentinelState(None), "");
    var removal := RemoveAll(host, PilotRemoval(m));
    if removal.None? { return None, events; }
    ghost var asked := host.calls;
    var failed, more := RollbackCommand(host, "daemon_reload");
    Continues(old(host.calls), asked, host.calls, "");
    asked := host.calls;
    var leftovers := ReportLeftovers(host, PilotRemoval(m), removal.value.0 + failed);
    Later(old(host.calls), asked, host.calls, "");
    if leftovers.None? { return None, events; }
    return Some(leftovers.value), events + removal.value.1 + more + [RollbackVerified(leftovers.value == [])];
  }

  lemma OneCommand()
    ensures CommandEvents(["daemon_reload"]) == [Command("daemon_reload", 0)]
    ensures forall n :: 0 <= n <= 1 ==> ["daemon_reload"][..n] == [] || ["daemon_reload"][..n] == ["daemon_reload"]
  {
    assert ["daemon_reload"][..0] == [];
    assert [Command("daemon_reload", 0)] + [] + [] == [Command("daemon_reload", 0)];
  }

  lemma PilotStopped(before: seq<Call>, now: seq<Call>)
    requires before <= now && |now| <= |before| + 2 && exists k :: |before| <= k < |now| && !Answered(now[k])
    ensures !Smooth(before, now, 2, "")
  {
    hide FineSince;
  }

  lemma PilotCourse(before: seq<Call>, checked: seq<Call>, now: seq<Call>)
    requires before <= checked <= now && |checked| == |before| + 2
    requires forall k :: |before| <= k < |checked| ==> Answered(checked[k])
    ensures Smooth(before, now, 2, "") <==> FineSince(checked, now, "")
  {
    hide FineSince;
    assert now[..|before| + 2] == checked;
  }
}
