/** Withdrawing one address of a device strands the client actions begun on it, although the device
    stays: nobody tells the client, and nothing but its own cancel or the loss of the whole device
    ends the action. */
module Stranding {
  import opened Wrappers
  import opened Registry
  import opened Invariant
  import opened History
  import opened TreeWalks
  import opened Bus
  import opened Runs
  import opened Completion
  import opened Joint
  import opened DeviceTree
  import T = Tasks
  import Causes
  import Contexts

  /** A withdrawal of one of several addresses of a published device sends no signal. */
  lemma OneOfSeveral(s: State, d: nat, ip: string)
    requires Inv(s) && IsPublished(s, d) && Causes.HasContext(s, d, ip) && |s.devices[d].contexts| > 1
    ensures RemoveDevice(s, ip, s.devices[d].udn).Ok?
    ensures var t := RemoveDevice(s, ip, s.devices[d].udn).value;
            && IsPublished(t, d) && t.devices[d].udn == s.devices[d].udn && t.signals == s.signals
            && t.devices[d].contexts ==
               Contexts.RemoveAt(s.devices[d].contexts, Contexts.IndexOfIp(s.devices[d].contexts, ip))
  {
    hide InvBut, DropContext;
    LinkedOf(s);
    var cs := s.devices[d].contexts;
    var i := Contexts.IndexOfIp(cs, ip);
    DropPlainResult(s, s.devices[d].udn, d, None, i);
  }

  lemma TheOnlyOne(s: State, d: nat, ip: string)
    requires Inv(s) && IsPublished(s, d) && Causes.HasContext(s, d, ip) && |s.devices[d].contexts| == 1
    ensures RemoveDevice(s, ip, s.devices[d].udn).Ok? && !IsPublished(RemoveDevice(s, ip, s.devices[d].udn).value, d)
  {
    hide InvBut, DropContext;
    LinkedOf(s);
    var cs := s.devices[d].contexts;
    DropLostResult(s, s.devices[d].udn, d, Contexts.IndexOfIp(cs, ip));
  }

  lemma {:induction false} KeepsOrigins(jobs: seq<Job>, t: State, signals: seq<Signal>)
    requires ReactAll(jobs, t, signals).Ok?
    ensures var r := ReactAll(jobs, t, signals).value;
            |r| == |jobs| && forall k :: 0 <= k < |jobs| ==> r[k].origin == jobs[k].origin
  {
    hide T.Step, T.Live;
    if jobs != [] { KeepsOrigins(jobs[1..], t, signals); }
  }

  /** In every state of the service: the withdrawal of its address leaves an open action hanging
      exactly if the device has another address, and then no client is told anything. */
  lemma WithdrawalStrands(s: Service, k: nat)
    requires Safe(s) && k < |s.jobs| && s.jobs[k].task.remote == T.Action
    ensures s.jobs[k].origin.Some? && IsPublished(s.registry, s.jobs[k].origin.value.device)
    ensures var origin := s.jobs[k].origin.value;
            var dev := s.registry.devices[origin.device];
            var r := Happen(s, Network(Withdrawn(Plain(dev.udn), Some(origin.address))));
            && r.Ok? && (Hanging(r.value, k) <==> |dev.contexts| > 1)
            && (IsPublished(r.value.registry, origin.device) <==> |dev.contexts| > 1)
            && (|dev.contexts| > 1 ==>
                  && r.value.registry.signals == s.registry.signals
                  && r.value.registry.devices[origin.device].udn == dev.udn)
            && |r.value.jobs| == |s.jobs| && r.value.jobs[k].origin == s.jobs[k].origin
  {
    hide Inv, HistoryOk, PathsOk, T.Matches, T.Stuck, RemoveDevice, Withdraw, Announce, Causes.HasContext, ReactAll,
         IsPublished;
    var j, r := s.jobs[k], s.registry;
    StageOf(j.task, j.life);
    var d, a := j.origin.value.device, j.origin.value.address;
    PublishedPath(r, d);
    var udn := r.devices[d].udn;
    var e := Withdrawn(Plain(udn), Some(a));
    PlainWalks(r, udn, a);
    if |r.devices[d].contexts| > 1 { OneOfSeveral(r, d, a); } else { TheOnlyOne(r, d, a); }
    WithdrawsPlain(udn, a);
    HappenOk(s, Network(e), k);
    StepGood(r, e);
    ReactAllOk(r, e, s.jobs);
    KeepsOrigins(s.jobs, Step(r, e).value, NewSignals(r, Step(r, e).value));
    if |r.devices[d].contexts| > 1 { assert NewSignals(r, Step(r, e).value) == []; }
    else { GoneIsSignalled(r, e, d); }
  }

  lemma WithdrawsPlain(udn: string, a: string)
    ensures Withdraws(Plain(udn), Some(a)) == [udn] && Address(Some(a)) == a
  {
    assert ManagedBelow(Plain(udn)) + [udn] == [udn];
  }

  // ----- a run that strands an action -----

  /** The states the service gets into. */
  ghost predicate Occurs(s: Service) {
    exists hs :: FreshHappenings(START, hs) && HappenAll(START, hs) == Ok(s)
  }

  lemma OccursSafe(s: Service)
    requires Occurs(s)
    ensures Safe(s)
  {
    hide Safe, HappenAll, FreshHappenings;
    var hs :| FreshHappenings(START, hs) && HappenAll(START, hs) == Ok(s);
    StartSafe();
    RunOk(START, hs);
  }

  lemma {:induction false} HappenExtends(s: Service, hs: seq<Happening>, h: Happening)
    requires FreshHappenings(s, hs) && HappenAll(s, hs).Ok? && FreshHappening(HappenAll(s, hs).value, h)
    ensures FreshHappenings(s, hs + [h]) && HappenAll(s, hs + [h]) == Happen(HappenAll(s, hs).value, h)
    decreases |hs|
  {
    hide FreshHappening, Happen;
    var all := hs + [h];
    if hs == [] {
      var t := Happen(s, h);
      if t.Ok? { assert all[1..] == [] && HappenAll(t.value, all[1..]) == t && FreshHappenings(t.value, all[1..]); }
    } else {
      assert all[1..] == hs[1..] + [h];
      HappenExtends(Happen(s, hs[0]).value, hs[1..], h);
    }
  }

  lemma OccursNext(s: Service, h: Happening)
    requires Occurs(s) && FreshHappening(s, h)
    ensures Happen(s, h).Ok? && Occurs(Happen(s, h).value)
  {
    hide FreshHappening, Happen, HappenAll, FreshHappenings, Safe;
    var hs :| FreshHappenings(START, hs) && HappenAll(START, hs) == Ok(s);
    OccursSafe(s);
    HappenOk(s, h, 0);
    HappenExtends(START, hs, h);
  }

  /** Without jobs the service is its registry. */
  lemma {:induction false} RegistryOccurs(s: State, events: seq<Event>)
    requires Occurs(Service(s, [])) && FreshRun(s, events) && Run(s, events).Ok?
    ensures Occurs(Service(Run(s, events).value, []))
    decreases |events|
  {
    hide Occurs, Step, FreshReplies;
    if events != [] {
      OccursNext(Service(s, []), Network(events[0]));
      RegistryOccurs(Step(s, events[0]).value, events[1..]);
    }
  }

  lemma ReachableOccurs(s: State)
    requires Reachable(s)
    ensures Occurs(Service(s, []))
  {
    hide Run, FreshRun;
    var events :| FreshRun(INIT, events) && Run(INIT, events) == Ok(s);
    assert FreshHappenings(START, []) && HappenAll(START, []) == Ok(START);
    RegistryOccurs(INIT, events);
  }

  lemma SecondAddress(s: State, udn: string, a: string, b: string)
    requires a != b && !Contexts.IsLoopback(a) && !Contexts.IsLoopback(b)
    requires udn in s.published && s.published[udn] in s.devices
    requires s.devices[s.published[udn]].contexts == [Contexts.Context(a, true, false)]
    requires s.devices[s.published[udn]].udn == udn
    ensures AddDevice(s, b, udn).Ok?
    ensures var t := AddDevice(s, b, udn).value;
            var d := s.published[udn];
            && IsPublished(t, d) && t.devices[d].path == s.devices[d].path && t.devices[d].udn == udn
            && |t.devices[d].contexts| == 2
            && t.devices[d].contexts[Contexts.Preferred(t.devices[d].contexts)].ip == a
  {
    hide Contexts.IsLoopback;
    var cs := [Contexts.Context(a, true, false)] + [Contexts.Context(b, false, false)];
    assert Contexts.FirstSubscribed(cs) == 0;
    assert Contexts.FirstLoopback(cs) == 2;
  }

  /** For every UDN and every two non-loopback addresses there is a run of the service in which a
      client's action hangs, unanswered, while its device is still published. */
  lemma HangingOccurs(udn: string, a: string, b: string, hasFormat: bool, value: string) returns (s: Service)
    requires a != b && !Contexts.IsLoopback(a) && !Contexts.IsLoopback(b)
    ensures Occurs(s) && |s.jobs| == 1 && Hanging(s, 0)
    ensures s.jobs[0].task.answers == []
    ensures udn in s.registry.published && s.jobs[0].origin == Some(Origin(s.registry.published[udn], a))
  {
    hide Reachable, Occurs, PathOf, AddDevice, RemoveDevice, Announce, Withdraw, Run, Contexts.IsLoopback, Safe,
         Hanging;
    InitReachable();
    var s1 := ConstructionCompletes(INIT, udn, a, 1, 2);
    PlainWalks(s1, udn, b);
    SecondAddress(s1, udn, a, b);
    ReachableStep(s1, Announced(Plain(udn), Some(b)));
    var r := AddDevice(s1, b, udn).value;
    ReachableOccurs(r);
    var service := Service(r, []);
    var request := Request(PathOf(0), false, hasFormat);
    OccursNext(service, request);
    var asked := Happen(service, request).value;
    OccursNext(asked, Begun(0, 0, value, T.Remotely));
    var begun := Happen(asked, Begun(0, 0, value, T.Remotely)).value;
    OccursSafe(begun);
    WithdrawalStrands(begun, 0);
    var gone := Network(Withdrawn(Plain(udn), Some(a)));
    OccursNext(begun, gone);
    s := Happen(begun, gone).value;
  }
}
