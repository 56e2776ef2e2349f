/** The main results, for every reachable state and every run. */
module Runs {
  import opened Wrappers
  import opened Registry
  import opened Invariant
  import opened History
  import opened TreeWalks
  import opened Refinement
  import opened Bus
  import V = View
  import Contexts
  import opened DeviceTree

  ghost predicate Reachable(s: State) {
    exists events :: FreshRun(INIT, events) && Run(INIT, events) == Ok(s)
  }

  lemma ReachableGood(s: State)
    requires Reachable(s)
    ensures Good(s)
  {
    hide Good, Run, FreshRun;
    var events :| FreshRun(INIT, events) && Run(INIT, events) == Ok(s);
    InitGood();
    RunGood(INIT, events);
  }

  lemma InitReachable()
    ensures Reachable(INIT)
  {
    assert FreshRun(INIT, []) && Run(INIT, []) == Ok(INIT);
  }

  lemma {:induction false} RunExtends(s: State, events: seq<Event>, e: Event)
    requires FreshRun(s, events) && Run(s, events).Ok? && FreshReplies(Run(s, events).value, e)
    ensures FreshRun(s, events + [e]) && Run(s, events + [e]) == Step(Run(s, events).value, e)
    decreases |events|
  {
    hide FreshReplies, Step;
    var all := events + [e];
    if events == [] {
      var t := Step(s, e);
      if t.Ok? { assert all[1..] == [] && Run(t.value, all[1..]) == t && FreshRun(t.value, all[1..]); }
    } else {
      assert all[1..] == events[1..] + [e];
      RunExtends(Step(s, events[0]).value, events[1..], e);
    }
  }

  lemma ReachableStep(s: State, e: Event)
    requires Reachable(s) && FreshReplies(s, e) && Step(s, e).Ok?
    ensures Reachable(Step(s, e).value)
  {
    hide FreshReplies, Step, Run, FreshRun;
    var events :| FreshRun(INIT, events) && Run(INIT, events) == Ok(s);
    RunExtends(INIT, events, e);
  }

  /** No run faults: every pointer followed is live, nothing is freed twice, and every context
      list consulted has an element. */
  lemma NoRunFaults(events: seq<Event>)
    requires FreshRun(INIT, events)
    ensures Run(INIT, events).Ok?
  {
    hide Good, Run, FreshRun;
    InitGood();
    RunGood(INIT, events);
  }

  // ----- ownership -----

  predicate UnderConstruction(s: State, d: nat) {
    && d in s.devices
    && var u := s.devices[d].udn;
       u in s.building && s.building[u] in s.chains && s.chains[s.building[u]].device == d
  }

  /** Every device ever created is in exactly one of three conditions, and has been freed exactly
      once in the third and never in the others. */
  lemma OwnedExactlyOnce(s: State, d: nat)
    requires Reachable(s) && d < s.created
    ensures Count(s.log, Deleted(d)) <= 1
    ensures !(UnderConstruction(s, d) && IsPublished(s, d))
    ensures Count(s.log, Deleted(d)) == 1 <==> !UnderConstruction(s, d) && !IsPublished(s, d)
  {
    ReachableGood(s);
    assert DeviceHistory(s, d);
    if d in s.devices {
      OwnerOf(s, d);
      if s.devices[d].udn in s.published { PublishedOf(s, s.devices[d].udn); }
    }
  }

  /** A UDN names at most one device; a construction record is live exactly while its own queue
      is, and has been freed exactly once afterwards. */
  lemma RecordsExactlyOnce(s: State, q: nat)
    requires Reachable(s) && q < s.started
    ensures Count(s.log, ChainFreed(q)) == if q in s.chains then 0 else 1
    ensures q in s.chains ==> s.chains[q].udn in s.building && s.building[s.chains[q].udn] == q
    ensures q in s.chains ==> s.chains[q].udn !in s.published
  {
    ReachableGood(s);
    assert ChainHistory(s, q);
    if q in s.chains { ChainOf(s, q); }
  }

  // ----- construction -----

  /** However often a construction has moved to another context, its pending tasks are the suffix
      that is still to be done, on one of the device's addresses, and no task ran twice. */
  lemma ChainRunsTheSuffix(s: State, q: nat)
    requires Reachable(s) && q in s.chains
    ensures var c := s.chains[q];
            && c.device in s.devices && s.devices[c.device].step <= 2
            && c.pending == [Subscribe, Declare][s.devices[c.device].step..]
            && c.ip in Contexts.Ips(s.devices[c.device].contexts)
            && Count(s.log, Ran(c.device, Subscribe)) == 2 - |c.pending| - Count(s.log, Ran(c.device, Declare))
            && Count(s.log, Ran(c.device, Declare)) == Bit(c.pending == [])
  {
    ReachableGood(s);
    ChainOf(s, q);
    assert DeviceHistory(s, s.chains[q].device);
  }

  /** A device is published only complete: both tasks have run, once each, and both interfaces
      are on the bus under this device's name. */
  lemma PublishedComplete(s: State, udn: string)
    requires Reachable(s) && udn in s.published
    ensures var d := s.published[udn];
            && d in s.devices && s.devices[d].udn == udn && s.devices[d].contexts != []
            && s.devices[d].step == 2 && |s.devices[d].ids| == INTERFACES
            && (forall i :: 0 <= i < INTERFACES ==>
                  && s.devices[d].ids[i] != 0
                  && s.devices[d].ids[i] in s.objects && s.objects[s.devices[d].ids[i]] == d)
            && Count(s.log, Ran(d, Subscribe)) == Count(s.log, Ran(d, Declare)) == 1
  {
    ReachableGood(s);
    var d := s.published[udn];
    PublishedOf(s, udn);
    DeviceOf(s, d);
    assert s.devices[d].step == 2;
    assert DeviceHistory(s, d);
  }

  /** The published objects are exactly the non-zero interface ids of the live devices. */
  lemma ObjectsExact(s: State, o: nat)
    requires Reachable(s)
    ensures o in s.objects <==>
            o != 0 && exists d :: d in s.devices && o in s.devices[d].ids
  {
    ReachableGood(s);
    if d :| d in s.devices && o != 0 && o in s.devices[d].ids {
      var i :| 0 <= i < |s.devices[d].ids| && s.devices[d].ids[i] == o;
    }
  }

  // ----- subscriptions -----

  /** The subscription is only ever held by the context the device prefers. */
  lemma SubscribedIsPreferred(s: State, d: nat, i: nat)
    requires Reachable(s) && d in s.devices && i < |s.devices[d].contexts|
    requires s.devices[d].contexts[i].subscribed
    ensures i == Contexts.Preferred(s.devices[d].contexts)
  {
    ReachableGood(s);
    DeviceOf(s, d);
  }

  /** The main loop holds a re-subscribe timer exactly for the live devices that have one armed, and
      a loss timer exactly for the contexts of live devices that have one armed: no timer outlives
      the record it writes into. */
  lemma TimersExact(s: State, d: nat, ip: string)
    requires Reachable(s)
    ensures d in s.sources <==> d in s.devices && s.devices[d].timer
    ensures (d, ip) in s.lossSources <==>
            d in s.devices && exists i :: 0 <= i < |s.devices[d].contexts|
                                          && s.devices[d].contexts[i].ip == ip && s.devices[d].contexts[i].lossTimer
  {
    ReachableGood(s);
    if d in s.devices {
      var cs := s.devices[d].contexts;
      assert ip in Contexts.LossIps(cs) <==> exists i :: 0 <= i < |cs| && cs[i].ip == ip && cs[i].lossTimer;
    }
  }

  /** The contexts of a device are on different addresses. */
  lemma AddressesDistinct(s: State, d: nat, i: nat, j: nat)
    requires Reachable(s) && d in s.devices && i < |s.devices[d].contexts| && j < |s.devices[d].contexts|
    requires s.devices[d].contexts[i].ip == s.devices[d].contexts[j].ip
    ensures i == j
  {
    ReachableGood(s);
    DeviceOf(s, d);
  }

  /** A device past the subscribe step is without a subscription and without a timer to make one
      exactly when its history flag is set. */
  lemma CoverageFlagExact(s: State, d: nat)
    requires Reachable(s) && d in s.devices && s.devices[d].step >= 1
    ensures Covered(s.devices[d]) <==> !s.devices[d].exposed
  {
    ReachableGood(s);
    DeviceOf(s, d);
  }

  /** Withdrawing an address ends the coverage of a device it leaves alive exactly when the
      construction was on that address, held the subscription there, and no timer was armed. */
  lemma RemovalUncovers(s: State, ip: string, udn: string)
    requires Inv(s) && Holder(s, udn).Some?
    requires RemoveDevice(s, ip, udn).Ok? && Holder(s, udn).value in RemoveDevice(s, ip, udn).value.devices
    ensures Holder(s, udn).value in s.devices
    ensures var d := Holder(s, udn).value;
            var dev := s.devices[d];
            var i := Contexts.IndexOfIp(dev.contexts, ip);
            Covered(RemoveDevice(s, ip, udn).value.devices[d]) <==>
            Covered(dev) && !(&& i < |dev.contexts| && dev.contexts[i].subscribed && !dev.timer
                              && udn !in s.published && ip == s.chains[s.building[udn]].ip)
  {
    hide InvBut, DropContext;
    LinkedOf(s);
    HolderOf(s, udn);
    var d := Holder(s, udn).value;
    var dev := s.devices[d];
    DeviceOf(s, d);
    var i := Contexts.IndexOfIp(dev.contexts, ip);
    if i < |dev.contexts| {
      var chain := if udn in s.published then None else Some(s.building[udn]);
      if |dev.contexts| == 1 {
        if chain.None? { DropLostResult(s, udn, d, i); } else { DropCancelledResult(s, udn, d, chain.value, i); }
      } else {
        Contexts.RemovalKeepsValid(dev.contexts, i);
        if chain.Some? && ip == s.chains[chain.value].ip {
          DropBuiltResult(s, udn, d, chain.value, i);
        } else {
          DropPlainResult(s, udn, d, chain, i);
        }
      }
    }
  }

  /** A loss report ends the coverage of a device exactly when it is for the subscribed context, the
      second one within the window, and no re-subscribe timer is armed. */
  lemma LossUncovers(s: State, d: nat, i: nat)
    requires Inv(s) && d in s.devices && i < |s.devices[d].contexts|
    ensures ReportLoss(s, d, i).Ok?
    ensures var c := s.devices[d].contexts[i];
            Covered(ReportLoss(s, d, i).value.devices[d]) <==>
            Covered(s.devices[d]) && !(c.subscribed && c.lossTimer && !s.devices[d].timer)
  {
    DeviceOf(s, d);
    Contexts.LossKeepsValid(s.devices[d].contexts, i);
    assert s.devices[d].contexts[i].subscribed ==> Contexts.HasSubscription(s.devices[d].contexts);
  }

  /** Withdrawing the context under construction restarts the construction, under a new record, on
      the context the device prefers now, with what the old queue still had to do. */
  lemma SwitchRestartsOnPreferred(s: State, udn: string)
    requires Reachable(s) && udn in s.building
    requires s.building[udn] in s.chains && s.chains[s.building[udn]].device in s.devices
    requires |s.devices[s.chains[s.building[udn]].device].contexts| > 1
    ensures var q := s.building[udn];
            var c := s.chains[q];
            && RemoveDevice(s, c.ip, udn).Ok?
            && var t := RemoveDevice(s, c.ip, udn).value;
               && q !in t.chains && udn in t.building && t.building[udn] != q && t.building[udn] in t.chains
               && c.device in t.devices
               && var cs := t.devices[c.device].contexts;
                  && Contexts.Ips(cs) == Contexts.Ips(s.devices[c.device].contexts) - {c.ip} && cs != []
                  && t.chains[t.building[udn]] == c.(ip := cs[Contexts.Preferred(cs)].ip)
  {
    hide Reachable, InvBut, DropContext, PathsOk, HistoryOk;
    ReachableGood(s);
    LinkedOf(s);
    BuildingOf(s, udn);
    var q := s.building[udn];
    var c := s.chains[q];
    ChainOf(s, q);
    var cs := s.devices[c.device].contexts;
    var i := Contexts.IndexOfIp(cs, c.ip);
    Contexts.RemovalIps(cs, i);
    DropBuiltResult(s, udn, c.device, q, i);
  }

  // ----- what is known -----

  /** The declare step of the chain building `udn` is refused. */
  predicate Fails(s: State, e: Event, udn: string) {
    && e.TaskTurn? && e.chain in s.chains && s.chains[e.chain].udn == udn
    && s.chains[e.chain].pending == [Declare] && LiveIds(e.replies) < |e.replies|
  }

  /** Whether `udn` has been announced on `ip` and neither withdrawn there nor failed since, given
      whether it was before. */
  predicate StillKnown(s: State, events: seq<Event>, udn: string, ip: string, before: bool)
    decreases |events|
  {
    if events == [] then before
    else
      var e := events[0];
      var after :=
        match e
        case Announced(info, i) => before || (udn in Announces(info, i) && Address(i) == ip)
        case Withdrawn(info, i) => before && !(udn in Withdraws(info, i) && Address(i) == ip)
        case TaskTurn(_, _) => before && !Fails(s, e, udn)
        case _ => before;
      var t := Step(s, e);
      t.Ok? && StillKnown(t.value, events[1..], udn, ip, after)
  }

  lemma TurnKnows(s: State, e: Event, udn: string, ip: string)
    requires Inv(s) && e.TaskTurn? && FreshReplies(s, e)
    ensures Step(s, e).Ok?
    ensures V.Knows(ViewOf(Step(s, e).value), udn, ip) <==> V.Knows(ViewOf(s), udn, ip) && !Fails(s, e, udn)
  {
    hide InvBut, ViewOf, FreshReplies, Step;
    StepRefines(s, e);
    if e.chain in s.chains {
      ChainEntry(s, e.chain);
    }
  }

  lemma StepKnows(s: State, e: Event, udn: string, ip: string)
    requires Inv(s) && FreshReplies(s, e)
    ensures Step(s, e).Ok?
    ensures var before, after := V.Knows(ViewOf(s), udn, ip), V.Knows(ViewOf(Step(s, e).value), udn, ip);
            match e
            case Announced(info, i) => after <==> before || (udn in Announces(info, i) && Address(i) == ip)
            case Withdrawn(info, i) => after <==> before && !(udn in Withdraws(info, i) && Address(i) == ip)
            case TaskTurn(_, _) => after <==> before && !Fails(s, e, udn)
            case _ => after <==> before
  {
    hide Inv, ViewOf, FreshReplies, Step, V.Knows;
    StepRefines(s, e);
    ViewOfOk(s);
    match e
    case Announced(info, i) => V.JoinAllKnows(ViewOf(s), Announces(info, i), Address(i));
    case Withdrawn(info, i) => V.LeaveAllKnows(ViewOf(s), Withdraws(info, i), Address(i));
    case TaskTurn(_, _) => TurnKnows(s, e, udn, ip);
    case _ =>
  }

  /** Over every run the registry knows exactly the (UDN, address) pairs that were announced and
      neither withdrawn nor lost to a failed construction since. */
  lemma {:induction false} RunKnows(s: State, events: seq<Event>, udn: string, ip: string)
    requires Inv(s) && FreshRun(s, events)
    ensures Run(s, events).Ok?
    ensures V.Knows(ViewOf(Run(s, events).value), udn, ip) <==>
            StillKnown(s, events, udn, ip, V.Knows(ViewOf(s), udn, ip))
    decreases |events|
  {
    hide Inv, ViewOf, FreshReplies, Step, V.Knows;
    if events != [] {
      StepRefines(s, events[0]);
      StepKnows(s, events[0], udn, ip);
      RunKnows(Step(s, events[0]).value, events[1..], udn, ip);
    }
  }

  // ----- laws of announcing and withdrawing -----

  lemma AddKnown(s: State, ip: string, udn: string)
    requires Inv(s) && V.Knows(ViewOf(s), udn, ip)
    ensures AddDevice(s, ip, udn) == Ok(s)
  {}

  lemma {:induction false} AddAllKnown(s: State, ip: string, udns: seq<string>)
    requires Inv(s) && forall u :: u in udns ==> V.Knows(ViewOf(s), u, ip)
    ensures VisitAll(s, true, ip, udns) == Ok(s)
    decreases |udns|
  {
    hide Inv, ViewOf, V.Knows;
    if udns != [] {
      AddKnown(s, ip, udns[0]);
      AddAllKnown(s, ip, udns[1..]);
    }
  }

  /** Announcing a tree a second time changes nothing at all. */
  lemma AnnounceTwice(s: State, info: DeviceInfo, ip: Option<string>)
    requires Inv(s)
    ensures Announce(s, info, ip).Ok?
    ensures Announce(Announce(s, info, ip).value, info, ip) == Announce(s, info, ip)
  {
    hide Inv, ViewOf, V.Knows, Announce;
    var us := Announces(info, ip);
    AnnounceIsOnePass(s, info, ip);
    VisitAllRefines(s, true, Address(ip), us);
    var t := Announce(s, info, ip).value;
    ViewOfOk(s);
    V.JoinAllKnows(ViewOf(s), us, Address(ip));
    AddAllKnown(t, Address(ip), us);
    AnnounceIsOnePass(t, info, ip);
  }

  /** Withdrawing a tree right after announcing it forgets the address of its root and of its
      managed descendants, and nothing else. */
  lemma WithdrawAfterAnnounce(s: State, info: DeviceInfo, ip: Option<string>, u: string, i: string)
    requires Inv(s)
    ensures Announce(s, info, ip).Ok? && Withdraw(Announce(s, info, ip).value, info, ip).Ok?
    ensures V.Knows(ViewOf(Withdraw(Announce(s, info, ip).value, info, ip).value), u, i) <==>
            V.Knows(ViewOf(s), u, i) && !(u in Withdraws(info, ip) && i == Address(ip))
  {
    hide Inv, ViewOf, V.Knows, Announce, Withdraw, Managed, ManagedBelow;
    var e, f := Announced(info, ip), Withdrawn(info, ip);
    StepRefines(s, e);
    StepKnows(s, e, u, i);
    var t := Announce(s, info, ip).value;
    StepRefines(t, f);
    StepKnows(t, f, u, i);
    if u in Announces(info, ip) { AnnouncedAreWithdrawn(info, ip, u); }
  }

  lemma AnnouncedAreWithdrawn(info: DeviceInfo, ip: Option<string>, u: string)
    requires u in Announces(info, ip)
    ensures u in Withdraws(info, ip)
  {}
}
