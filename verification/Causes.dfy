/** What ends the event coverage of a device, and what frees a construction record: for every kind
    of event exactly when it does, and over every run nothing else. */
module Causes {
  import opened Wrappers
  import opened Registry
  import opened Invariant
  import opened TreeWalks
  import opened Refinement
  import opened Bus
  import opened Runs
  import History
  import Contexts

  /** The device is there, and has a subscription or a timer armed to make one. */
  predicate CoveredIn(s: State, d: nat) {
    d in s.devices && Covered(s.devices[d])
  }

  /** Construction of the device is on `ip` and so is its subscription, and no timer is armed. */
  predicate Hinges(s: State, d: nat, ip: string) {
    && d in s.devices
    && var dev := s.devices[d];
       var i := Contexts.IndexOfIp(dev.contexts, ip);
       && i < |dev.contexts| && dev.contexts[i].subscribed && !dev.timer
       && dev.udn !in s.published && dev.udn in s.building && s.building[dev.udn] in s.chains
       && s.chains[s.building[dev.udn]].ip == ip
  }

  /** The two ways to lose coverage. */
  predicate Uncovers(s: State, e: Event, d: nat) {
    match e
    case Withdrawn(info, ip) =>
      d in s.devices && s.devices[d].udn in Withdraws(info, ip) && Hinges(s, d, Address(ip))
    case SubscriptionLost(x, i) =>
      && x == d && d in s.devices && i < |s.devices[d].contexts|
      && s.devices[d].contexts[i].subscribed && s.devices[d].contexts[i].lossTimer && !s.devices[d].timer
    case _ => false
  }

  /** The two ways to gain it. */
  predicate Covers(s: State, e: Event, d: nat) {
    && d in s.devices
    && match e
       case Announced(info, ip) =>
         s.devices[d].udn in Announces(info, ip) && Address(ip) !in Contexts.Ips(s.devices[d].contexts)
       case TaskTurn(q, _) =>
         q in s.chains && s.chains[q].device == d && s.chains[q].pending != [] && s.chains[q].pending[0] == Subscribe
       case _ => false
  }

  // ----- operations on other devices -----

  /** Nothing about device `d` or its construction is different. */
  predicate Untouched(s: State, t: State, d: nat)
    requires d in s.devices
  {
    && d in t.devices && t.devices[d] == s.devices[d]
    && var u := s.devices[d].udn;
       && (u in t.published <==> u in s.published)
       && (u in t.building <==> u in s.building)
       && (u in s.building ==>
             && t.building[u] == s.building[u]
             && (s.building[u] in s.chains ==>
                   s.building[u] in t.chains && t.chains[s.building[u]] == s.chains[s.building[u]]))
  }

  lemma OwnerIsHolder(s: State, d: nat)
    requires Linked(s) && d in s.devices
    ensures Holder(s, s.devices[d].udn) == Some(d) && Lookup(s, s.devices[d].udn) == Ok(Some(d))
    ensures s.devices[d].udn in s.published || s.devices[d].udn in s.building
  {
    assert Owned(s, d);
  }

  lemma AddOther(s: State, ip: string, udn: string, d: nat)
    requires Inv(s) && d in s.devices && s.devices[d].udn != udn
    ensures AddDevice(s, ip, udn).Ok? && Untouched(s, AddDevice(s, ip, udn).value, d)
  {
    hide InvBut;
    LinkedOf(s);
    AddKeeps(s, ip, udn);
    OwnerOf(s, d);
    if udn in s.published || udn in s.building {
      HolderOf(s, udn);
    } else if s.devices[d].udn in s.building {
      BuildingOf(s, s.devices[d].udn);
      LinkOf(s, s.building[s.devices[d].udn]);
    }
  }

  lemma AddOwn(s: State, ip: string, d: nat)
    requires Inv(s) && d in s.devices
    ensures AddDevice(s, ip, s.devices[d].udn).Ok?
    ensures var t := AddDevice(s, ip, s.devices[d].udn).value;
            && d in t.devices && t.devices[d].udn == s.devices[d].udn && t.devices[d].step == s.devices[d].step
            && Contexts.Ips(t.devices[d].contexts) == Contexts.Ips(s.devices[d].contexts) + {ip}
            && (CoveredIn(t, d) <==> CoveredIn(s, d) || ip !in Contexts.Ips(s.devices[d].contexts))
  {
    hide InvBut, Contexts.Append, Contexts.Valid;
    LinkedOf(s);
    OwnerIsHolder(s, d);
    DeviceOf(s, d);
    var cs := s.devices[d].contexts;
    if Contexts.IndexOfIp(cs, ip) == |cs| {
      assert ip !in Contexts.Ips(cs);
      Contexts.AppendKeepsValid(cs, ip);
    } else {
      assert ip in Contexts.Ips(cs);
    }
  }

  lemma AddNew(s: State, ip: string, udn: string, d: nat)
    requires Inv(s) && d !in s.devices && AddDevice(s, ip, udn).Ok? && d in AddDevice(s, ip, udn).value.devices
    ensures var t := AddDevice(s, ip, udn).value;
            && t.devices[d].udn == udn && t.devices[d].step == 0
            && ip in Contexts.Ips(t.devices[d].contexts) && !CoveredIn(t, d)
  {
    hide InvBut, Contexts.Append;
    LinkedOf(s);
    if udn in s.published || udn in s.building {
      HolderOf(s, udn);
    } else {
      var cs := NewDevice(s.created, udn, ip).contexts;
      assert cs[0].ip in Contexts.Ips(cs);
    }
  }

  /** A whole announcement covers a known device exactly when its UDN is in the tree and the address
      is new to it, and covers no new device. */
  lemma {:induction false} AddAllCoverage(s: State, ip: string, udns: seq<string>, d: nat)
    requires Inv(s)
    ensures VisitAll(s, true, ip, udns).Ok?
    ensures var t := VisitAll(s, true, ip, udns).value;
            && (CoveredIn(t, d) <==>
                CoveredIn(s, d) || (d in s.devices && s.devices[d].udn in udns
                                    && ip !in Contexts.Ips(s.devices[d].contexts)))
            && (d in s.devices ==> d in t.devices && t.devices[d].step == s.devices[d].step)
            && (d in t.devices && d !in s.devices ==> t.devices[d].step == 0)
    decreases |udns|
  {
    hide Inv, AddDevice, Covered;
    if udns != [] {
      AddKeeps(s, ip, udns[0]);
      var t := AddDevice(s, ip, udns[0]).value;
      if d in s.devices {
        if s.devices[d].udn == udns[0] { AddOwn(s, ip, d); } else { AddOther(s, ip, udns[0], d); }
      } else if d in t.devices {
        AddNew(s, ip, udns[0], d);
      }
      AddAllCoverage(t, ip, udns[1..], d);
    }
  }

  /** A withdrawal has to do with one device, one UDN and, under construction, one record. */
  predicate Spared(s: State, t: State, udn: string, h: nat, q: Option<nat>) {
    && t.devices - {h} == s.devices - {h}
    && t.published - {udn} == s.published - {udn}
    && t.building - {udn} == s.building - {udn}
    && (if q.Some? then t.chains - {q.value, s.started} == s.chains - {q.value, s.started} else t.chains == s.chains)
  }

  lemma DropLastSpares(s: State, udn: string, d: nat, chain: Option<nat>, i: nat)
    requires Linked(s) && Denotes(s, udn, d, chain, i) && |s.devices[d].contexts| == 1
    ensures DropContext(s, udn, d, chain, i).Ok?
    ensures Spared(s, DropContext(s, udn, d, chain, i).value, udn, d, chain)
    ensures DropContext(s, udn, d, chain, i).value.devices.Keys <= s.devices.Keys
    ensures DropContext(s, udn, d, chain, i).value.started >= s.started
  {
    hide Linked, DropContext;
    if chain.None? {
      PublishedOf(s, udn);
      DropLostResult(s, udn, d, i);
    } else {
      BuildingOf(s, udn);
      DropCancelledResult(s, udn, d, chain.value, i);
    }
  }

  lemma DropRestSpares(s: State, udn: string, d: nat, chain: Option<nat>, i: nat)
    requires Linked(s) && Denotes(s, udn, d, chain, i) && |s.devices[d].contexts| > 1
    ensures DropContext(s, udn, d, chain, i).Ok?
    ensures Spared(s, DropContext(s, udn, d, chain, i).value, udn, d, chain)
    ensures DropContext(s, udn, d, chain, i).value.devices.Keys <= s.devices.Keys
    ensures DropContext(s, udn, d, chain, i).value.started >= s.started
  {
    hide Linked, DropContext, Contexts.RemoveAt;
    if chain.Some? && s.devices[d].contexts[i].ip == s.chains[chain.value].ip {
      BuildingOf(s, udn);
      DropBuiltResult(s, udn, d, chain.value, i);
    } else {
      DropPlainResult(s, udn, d, chain, i);
    }
  }

  lemma RemovalSpares(s: State, ip: string, udn: string)
    requires Inv(s) && (udn in s.published || udn in s.building)
    ensures Holder(s, udn).Some? && RemoveDevice(s, ip, udn).Ok?
    ensures Spared(s, RemoveDevice(s, ip, udn).value, udn, Holder(s, udn).value,
                   if udn in s.published || udn !in s.building then None else Some(s.building[udn]))
    ensures RemoveDevice(s, ip, udn).value.devices.Keys <= s.devices.Keys
    ensures RemoveDevice(s, ip, udn).value.started >= s.started
  {
    hide InvBut, DropContext, Spared;
    LinkedOf(s);
    HolderOf(s, udn);
    if udn in s.building { BuildingOf(s, udn); }
    var h := Holder(s, udn).value;
    DeviceOf(s, h);
    var cs := s.devices[h].contexts;
    var i := Contexts.IndexOfIp(cs, ip);
    var chain := if udn in s.published then None else Some(s.building[udn]);
    if i == |cs| { SparesItself(s, udn, h, chain); }
    else if |cs| == 1 { DropLastSpares(s, udn, h, chain, i); }
    else { DropRestSpares(s, udn, h, chain, i); }
  }

  lemma SparesItself(s: State, udn: string, h: nat, q: Option<nat>)
    ensures Spared(s, s, udn, h, q)
  {}

  lemma SparedIsUntouched(s: State, t: State, udn: string, d: nat)
    requires Inv(s) && d in s.devices && s.devices[d].udn != udn && (udn in s.published || udn in s.building)
    requires Holder(s, udn).Some?
    requires Spared(s, t, udn, Holder(s, udn).value,
                    if udn in s.published || udn !in s.building then None else Some(s.building[udn]))
    ensures Untouched(s, t, d)
  {
    hide InvBut;
    LinkedOf(s);
    HolderOf(s, udn);
    var h, u := Holder(s, udn).value, s.devices[d].udn;
    assert d in s.devices - {h} && d in t.devices - {h};
    assert u in s.published <==> u in s.published - {udn};
    assert u in t.published <==> u in t.published - {udn};
    assert u in s.building <==> u in s.building - {udn};
    assert u in t.building <==> u in t.building - {udn};
    if u in s.building {
      BuildingOf(s, u);
      var r := s.building[u];
      LinkOf(s, r);
      if udn !in s.published {
        BuildingOf(s, udn);
        var q := s.building[udn];
        assert r in s.chains - {q, s.started} && r in t.chains - {q, s.started};
      }
      assert (t.building - {udn})[u] == (s.building - {udn})[u];
    }
  }

  lemma RemoveOther(s: State, ip: string, udn: string, d: nat)
    requires Inv(s) && d in s.devices && s.devices[d].udn != udn
    ensures RemoveDevice(s, ip, udn).Ok? && Untouched(s, RemoveDevice(s, ip, udn).value, d)
  {
    hide Inv, Spared, DropContext;
    if udn in s.published || udn in s.building {
      RemovalSpares(s, ip, udn);
      SparedIsUntouched(s, RemoveDevice(s, ip, udn).value, udn, d);
    }
  }

  /** A withdrawal leaves the device, if it leaves it, covered unless everything hinged on the
      address. */
  lemma RemoveOwn(s: State, ip: string, d: nat)
    requires Inv(s) && d in s.devices
    ensures RemoveDevice(s, ip, s.devices[d].udn).Ok?
    ensures var t := RemoveDevice(s, ip, s.devices[d].udn).value;
            d in t.devices ==>
              && t.devices[d].udn == s.devices[d].udn && t.devices[d].step == s.devices[d].step
              && Contexts.Ips(t.devices[d].contexts) == Contexts.Ips(s.devices[d].contexts) - {ip}
              && (CoveredIn(t, d) <==> CoveredIn(s, d) && !Hinges(s, d, ip))
    ensures d !in RemoveDevice(s, ip, s.devices[d].udn).value.devices ==>
              Contexts.Ips(s.devices[d].contexts) == {ip}
  {
    hide InvBut, DropContext, Release, Emit, Unpublish, PendingFrom;
    LinkedOf(s);
    OwnerIsHolder(s, d);
    DeviceOf(s, d);
    var dev := s.devices[d];
    var udn, cs := dev.udn, dev.contexts;
    var i := Contexts.IndexOfIp(cs, ip);
    RemoveKeeps(s, ip, udn);
    if d in RemoveDevice(s, ip, udn).value.devices { RemovalUncovers(s, ip, udn); }
    if i < |cs| {
      Contexts.RemovalIps(cs, i);
      var chain := if udn in s.published then None else Some(s.building[udn]);
      if |cs| == 1 {
        assert Contexts.Ips(cs) == {ip} by { assert cs[0].ip in Contexts.Ips(cs); }
        if chain.None? { DropLostResult(s, udn, d, i); } else { DropCancelledResult(s, udn, d, chain.value, i); }
      } else {
        if chain.Some? && ip == s.chains[chain.value].ip {
          DropBuiltResult(s, udn, d, chain.value, i);
        } else {
          DropPlainResult(s, udn, d, chain, i);
        }
      }
    } else {
      assert ip !in Contexts.Ips(cs);
    }
  }

  lemma RemoveNone(s: State, ip: string, udn: string, d: nat)
    requires Inv(s) && d !in s.devices
    ensures RemoveDevice(s, ip, udn).Ok? && d !in RemoveDevice(s, ip, udn).value.devices
  {
    hide Inv, Spared, DropContext;
    if udn in s.published || udn in s.building { RemovalSpares(s, ip, udn); }
  }

  lemma HingesOnContext(s: State, d: nat, ip: string)
    requires d in s.devices && ip !in Contexts.Ips(s.devices[d].contexts)
    ensures !Hinges(s, d, ip)
  {}

  lemma HingesUntouched(s: State, t: State, d: nat, ip: string)
    requires Inv(s) && d in s.devices && Untouched(s, t, d)
    ensures Hinges(t, d, ip) <==> Hinges(s, d, ip)
  {
    hide InvBut;
    LinkedOf(s);
    if s.devices[d].udn in s.building { BuildingOf(s, s.devices[d].udn); }
  }

  lemma {:induction false} RemoveAllCoverage(s: State, ip: string, udns: seq<string>, d: nat)
    requires Inv(s)
    ensures VisitAll(s, false, ip, udns).Ok?
    ensures var t := VisitAll(s, false, ip, udns).value;
            d in t.devices ==>
              && d in s.devices && t.devices[d].step == s.devices[d].step
              && (CoveredIn(t, d) <==> CoveredIn(s, d) && !(s.devices[d].udn in udns && Hinges(s, d, ip)))
    decreases |udns|
  {
    hide Inv, RemoveDevice, Covered, Hinges, Contexts.Ips;
    if udns != [] {
      RemoveKeeps(s, ip, udns[0]);
      var t := RemoveDevice(s, ip, udns[0]).value;
      if d !in s.devices {
        RemoveNone(s, ip, udns[0], d);
      } else if s.devices[d].udn == udns[0] {
        RemoveOwn(s, ip, d);
        if d in t.devices { HingesOnContext(t, d, ip); }
      } else {
        RemoveOther(s, ip, udns[0], d);
        HingesUntouched(s, t, d, ip);
      }
      RemoveAllCoverage(t, ip, udns[1..], d);
    }
  }

  // ----- the other events -----

  lemma TurnCoverage(s: State, e: Event, d: nat)
    requires Inv(s) && FreshReplies(s, e) && e.TaskTurn?
    ensures Step(s, e).Ok?
    ensures var t := Step(s, e).value;
            d in t.devices ==>
              && d in s.devices
              && (CoveredIn(t, d) <==> CoveredIn(s, d) || Covers(s, e, d))
              && (t.devices[d].step >= 1 ==> s.devices[d].step >= 1 || Covers(s, e, d))
  {
    hide InvBut, FreshReplies;
    var q := e.chain;
    TurnKeeps(s, q, e.replies);
    if q in s.chains {
      ChainOf(s, q);
      var x := s.chains[q].device;
      if s.chains[q].pending == [] {
      } else if s.chains[q].pending[0] == Subscribe {
        Contexts.MoveSubscriptionKeepsValid(s.devices[x].contexts);
      } else {
        CancelResult(Declared(s, q, e.replies), q);
      }
    }
  }

  lemma TimerCoverage(s: State, d: nat, x: nat)
    requires Inv(s)
    ensures FireTimer(s, x).Ok?
    ensures var t := FireTimer(s, x).value;
            && (d in t.devices <==> d in s.devices) && (CoveredIn(t, d) <==> CoveredIn(s, d))
            && (d in s.devices ==> t.devices[d].step == s.devices[d].step)
  {
    hide Linked, ObjectsOk, DevicesOk, ProgressOk;
    TimerKeeps(s, x);
    if x in s.sources {
      SourceOf(s, x);
      DeviceOf(s, x);
      Contexts.SubscribePreferredKeepsValid(s.devices[x].contexts);
    }
  }

  lemma LossCoverage(s: State, e: Event, d: nat)
    requires Inv(s) && e.SubscriptionLost?
    ensures Step(s, e).Ok?
    ensures var t := Step(s, e).value;
            && (d in t.devices <==> d in s.devices)
            && (CoveredIn(t, d) <==> CoveredIn(s, d) && !Uncovers(s, e, d))
            && (d in s.devices ==> t.devices[d].step == s.devices[d].step)
  {
    hide InvBut;
    var x, i := e.device, e.context;
    if x in s.devices && i < |s.devices[x].contexts| {
      LossUncovers(s, x, i);
    }
  }

  lemma LossTimerCoverage(s: State, x: nat, ip: string, d: nat)
    requires Inv(s)
    ensures FireLossTimer(s, x, ip).Ok?
    ensures var t := FireLossTimer(s, x, ip).value;
            && (d in t.devices <==> d in s.devices) && (CoveredIn(t, d) <==> CoveredIn(s, d))
            && (d in s.devices ==> t.devices[d].step == s.devices[d].step)
  {
    hide Linked, ObjectsOk, SourcesOk, LossOk, DevicesOk, ProgressOk;
    if (x, ip) in s.lossSources {
      LossSourceOf(s, x, ip);
      DeviceOf(s, x);
      Contexts.LossTimerKeepsValid(s.devices[x].contexts, Contexts.IndexOfIp(s.devices[x].contexts, ip));
    }
  }

  /** For every event and every device that is there afterwards: it is covered exactly if it was and
      the event is not one of the two that end coverage, or the event is one of the two that give
      it; and no device passes the subscribe step otherwise. */
  lemma StepCoverage(s: State, e: Event, d: nat)
    requires Inv(s) && FreshReplies(s, e)
    ensures Step(s, e).Ok?
    ensures var t := Step(s, e).value;
            && (CoveredIn(t, d) <==> d in t.devices && ((CoveredIn(s, d) && !Uncovers(s, e, d)) || Covers(s, e, d)))
            && (d in t.devices && t.devices[d].step >= 1 ==>
                  (d in s.devices && s.devices[d].step >= 1) || (e.TaskTurn? && Covers(s, e, d)))
  {
    hide Inv, FreshReplies, Covered, Hinges, Contexts.Ips;
    match e
    case Announced(info, ip) =>
      AnnounceIsOnePass(s, info, ip);
      AddAllCoverage(s, Address(ip), Announces(info, ip), d);
    case Withdrawn(info, ip) =>
      WithdrawIsOnePass(s, info, ip);
      RemoveAllCoverage(s, Address(ip), Withdraws(info, ip), d);
    case TaskTurn(_, _) => TurnCoverage(s, e, d);
    case ResubscribeTimer(x) => TimerCoverage(s, d, x);
    case SubscriptionLost(_, _) => LossCoverage(s, e, d);
    case LossTimer(x, ip) => LossTimerCoverage(s, x, ip, d);
    case ClientAction(udn) => ActionRefines(s, udn);
  }

  // ----- runs -----

  /** Whether the device is covered after the events, given whether it was before them. */
  predicate StillCovered(s: State, events: seq<Event>, d: nat, before: bool)
    decreases |events|
  {
    if events == [] then before
    else
      var e := events[0];
      var t := Step(s, e);
      && t.Ok?
      && StillCovered(t.value, events[1..], d,
                      d in t.value.devices && ((before && !Uncovers(s, e, d)) || Covers(s, e, d)))
  }

  /** Over every run a device is covered exactly by this account of the four kinds of event. */
  lemma {:induction false} RunCoverage(s: State, events: seq<Event>, d: nat)
    requires Good(s) && FreshRun(s, events)
    ensures Run(s, events).Ok?
    ensures CoveredIn(Run(s, events).value, d) <==> StillCovered(s, events, d, CoveredIn(s, d))
    decreases |events|
  {
    hide Inv, PathsOk, History.HistoryOk, Step, FreshReplies, CoveredIn, Covers, Uncovers;
    if events != [] {
      StepGood(s, events[0]);
      StepCoverage(s, events[0], d);
      RunCoverage(Step(s, events[0]).value, events[1..], d);
    }
  }

  /** One of the two events that end coverage happens to the device. */
  predicate EverUncovered(s: State, events: seq<Event>, d: nat)
    decreases |events|
  {
    events != [] &&
    (Uncovers(s, events[0], d)
     || (Step(s, events[0]).Ok? && EverUncovered(Step(s, events[0]).value, events[1..], d)))
  }

  /** Past the subscribe step the device is covered. */
  predicate CoveredOnceSubscribed(s: State, d: nat) {
    d in s.devices && s.devices[d].step >= 1 ==> CoveredIn(s, d)
  }

  lemma {:induction false} UncoveredHasCause(s: State, events: seq<Event>, d: nat)
    requires Good(s) && FreshRun(s, events) && CoveredOnceSubscribed(s, d)
    ensures Run(s, events).Ok?
    ensures CoveredOnceSubscribed(Run(s, events).value, d) || EverUncovered(s, events, d)
    decreases |events|
  {
    hide Inv, PathsOk, History.HistoryOk, Step, FreshReplies, Covers, Uncovers, Covered;
    if events != [] {
      StepGood(s, events[0]);
      StepCoverage(s, events[0], d);
      if !Uncovers(s, events[0], d) {
        UncoveredHasCause(Step(s, events[0]).value, events[1..], d);
      } else {
        RunGood(s, events);
      }
    }
  }

  /** There are no other ways: in every run from the start, a device past the subscribe step that
      has neither a subscription nor an armed timer has met with one of the two events. */
  lemma OnlyTwoWays(events: seq<Event>, d: nat)
    requires FreshRun(INIT, events)
    ensures Run(INIT, events).Ok?
    ensures var s := Run(INIT, events).value;
            d in s.devices && s.devices[d].step >= 1 && !CoveredIn(s, d) ==> EverUncovered(INIT, events, d)
  {
    hide Good, Run, EverUncovered;
    InitGood();
    UncoveredHasCause(INIT, events, d);
  }

  // ----- construction records -----

  /** The last turn of the record's own queue, a turn in which its declare task is refused, or the
      withdrawal of the address the construction is on. */
  predicate Ends(s: State, e: Event, q: nat)
    requires q in s.chains
  {
    var c := s.chains[q];
    match e
    case TaskTurn(r, replies) =>
      r == q && (c.pending == [] || (c.pending[0] == Declare && LiveIds(replies) < |replies|))
    case Withdrawn(info, ip) => c.udn in Withdraws(info, ip) && Address(ip) == c.ip
    case _ => false
  }

  /** A record is as before, or was gone before and still is. */
  predicate SameRecord(s: State, t: State, q: nat) {
    t.started >= s.started && (q in t.chains <==> q in s.chains) && (q in s.chains ==> t.chains[q] == s.chains[q])
  }

  lemma AddKeepsRecord(s: State, ip: string, udn: string, q: nat)
    requires Inv(s) && q < s.started
    ensures AddDevice(s, ip, udn).Ok? && SameRecord(s, AddDevice(s, ip, udn).value, q)
  {
    hide InvBut;
    LinkedOf(s);
    AddKeeps(s, ip, udn);
    if udn in s.published || udn in s.building { HolderOf(s, udn); }
  }

  lemma RemoveKeepsRecord(s: State, ip: string, udn: string, q: nat)
    requires Inv(s) && q < s.started && !(q in s.chains && s.chains[q].udn == udn)
    ensures RemoveDevice(s, ip, udn).Ok? && SameRecord(s, RemoveDevice(s, ip, udn).value, q)
  {
    hide InvBut, DropContext;
    LinkedOf(s);
    if udn in s.published || udn in s.building {
      RemovalSpares(s, ip, udn);
      if udn !in s.published {
        BuildingOf(s, udn);
        var r := s.building[udn];
        var t := RemoveDevice(s, ip, udn).value;
        assert q in s.chains <==> q in s.chains - {r, s.started};
        assert q in t.chains <==> q in t.chains - {r, s.started};
        if q in s.chains { assert (t.chains - {r, s.started})[q] == (s.chains - {r, s.started})[q]; }
      }
    }
  }

  lemma RemoveEndsRecord(s: State, ip: string, q: nat)
    requires Inv(s) && q in s.chains && q < s.started
    ensures RemoveDevice(s, ip, s.chains[q].udn).Ok?
    ensures var t := RemoveDevice(s, ip, s.chains[q].udn).value;
            && t.started >= s.started
            && (q in t.chains <==> ip != s.chains[q].ip) && (q in t.chains ==> t.chains[q] == s.chains[q])
  {
    hide InvBut, DropContext;
    LinkedOf(s);
    ChainOf(s, q);
    var c := s.chains[q];
    BuildingOf(s, c.udn);
    var cs := s.devices[c.device].contexts;
    var i := Contexts.IndexOfIp(cs, ip);
    if i < |cs| {
      if |cs| == 1 { DropCancelledResult(s, c.udn, c.device, q, i); }
      else if ip == c.ip { DropBuiltResult(s, c.udn, c.device, q, i); }
      else { DropPlainResult(s, c.udn, c.device, Some(q), i); }
    }
  }

  lemma {:induction false} VisitAllRecord(s: State, add: bool, ip: string, udns: seq<string>, q: nat)
    requires Inv(s) && q < s.started
    ensures VisitAll(s, add, ip, udns).Ok?
    ensures var t := VisitAll(s, add, ip, udns).value;
            && t.started >= s.started
            && (q in t.chains <==>
                q in s.chains && (add || !(s.chains[q].udn in udns && ip == s.chains[q].ip)))
            && (q in t.chains ==> t.chains[q] == s.chains[q])
    decreases |udns|
  {
    hide Inv, AddDevice, RemoveDevice;
    if udns != [] {
      if add {
        AddKeeps(s, ip, udns[0]);
        AddKeepsRecord(s, ip, udns[0], q);
      } else {
        RemoveKeeps(s, ip, udns[0]);
        if q in s.chains && s.chains[q].udn == udns[0] {
          RemoveEndsRecord(s, ip, q);
        } else {
          RemoveKeepsRecord(s, ip, udns[0], q);
        }
      }
      VisitAllRecord(VisitOne(s, add, ip, udns[0]).value, add, ip, udns[1..], q);
    }
  }

  lemma TurnEndsRecord(s: State, e: Event, q: nat)
    requires Inv(s) && FreshReplies(s, e) && e.TaskTurn?
    ensures Step(s, e).Ok?
    ensures var t := Step(s, e).value;
            t.started == s.started && (q in t.chains <==> q in s.chains && !Ends(s, e, q))
  {
    hide InvBut, FreshReplies;
    var r := e.chain;
    TurnKeeps(s, r, e.replies);
    if r in s.chains {
      ChainOf(s, r);
      if s.chains[r].pending != [] && s.chains[r].pending[0] == Declare {
        CancelResult(Declared(s, r, e.replies), r);
      }
    }
  }

  /** A construction record is freed by exactly these events, and does not come back. */
  lemma StepFrees(s: State, e: Event, q: nat)
    requires Inv(s) && FreshReplies(s, e) && q < s.started
    ensures Step(s, e).Ok? && q < Step(s, e).value.started
    ensures q in Step(s, e).value.chains <==> q in s.chains && !Ends(s, e, q)
  {
    hide Inv, FreshReplies;
    match e
    case Announced(info, ip) =>
      AnnounceIsOnePass(s, info, ip);
      VisitAllRecord(s, true, Address(ip), Announces(info, ip), q);
    case Withdrawn(info, ip) =>
      WithdrawIsOnePass(s, info, ip);
      VisitAllRecord(s, false, Address(ip), Withdraws(info, ip), q);
    case TaskTurn(_, _) => TurnEndsRecord(s, e, q);
    case ResubscribeTimer(d) => TimerKeeps(s, d);
    case SubscriptionLost(d, i) =>
    case LossTimer(d, ip) => LossTimerKeeps(s, d, ip);
    case ClientAction(udn) => ActionRefines(s, udn);
  }

  /** As long as nothing ends it, a record changes only by its own turns: each takes one task off. */
  lemma StepAdvances(s: State, e: Event, q: nat)
    requires Inv(s) && FreshReplies(s, e) && q in s.chains && q < s.started && !Ends(s, e, q)
    ensures Step(s, e).Ok? && q in Step(s, e).value.chains
    ensures var c := s.chains[q];
            if e.TaskTurn? && e.chain == q then
              c.pending != [] && Step(s, e).value.chains[q] == c.(pending := c.pending[1..])
            else Step(s, e).value.chains[q] == c
  {
    hide Inv, FreshReplies;
    StepFrees(s, e, q);
    match e
    case Announced(info, ip) =>
      AnnounceIsOnePass(s, info, ip);
      VisitAllRecord(s, true, Address(ip), Announces(info, ip), q);
    case Withdrawn(info, ip) =>
      WithdrawIsOnePass(s, info, ip);
      VisitAllRecord(s, false, Address(ip), Withdraws(info, ip), q);
    case TaskTurn(_, _) => TurnAdvances(s, e, q);
    case _ =>
  }

  lemma TurnAdvances(s: State, e: Event, q: nat)
    requires Inv(s) && FreshReplies(s, e) && e.TaskTurn? && q in s.chains && !Ends(s, e, q)
    ensures Step(s, e).Ok? && q in Step(s, e).value.chains
    ensures var c := s.chains[q];
            if e.chain == q then c.pending != [] && Step(s, e).value.chains[q] == c.(pending := c.pending[1..])
            else Step(s, e).value.chains[q] == c
  {
    hide InvBut, FreshReplies;
    var r := e.chain;
    TurnKeeps(s, r, e.replies);
    if r in s.chains {
      ChainOf(s, r);
      if s.chains[r].pending != [] && s.chains[r].pending[0] == Declare {
        CancelResult(Declared(s, r, e.replies), r);
      }
    }
  }

  // ----- contexts -----

  predicate HasContext(s: State, d: nat, ip: string) {
    d in s.devices && ip in Contexts.Ips(s.devices[d].contexts)
  }

  lemma {:induction false} AddAllContexts(s: State, ip: string, udns: seq<string>, d: nat, a: string)
    requires Inv(s) && HasContext(s, d, a)
    ensures VisitAll(s, true, ip, udns).Ok? && HasContext(VisitAll(s, true, ip, udns).value, d, a)
    decreases |udns|
  {
    hide Inv, AddDevice, Covered, Contexts.Ips;
    if udns != [] {
      AddKeeps(s, ip, udns[0]);
      if s.devices[d].udn == udns[0] { AddOwn(s, ip, d); } else { AddOther(s, ip, udns[0], d); }
      AddAllContexts(AddDevice(s, ip, udns[0]).value, ip, udns[1..], d, a);
    }
  }

  lemma {:induction false} RemoveAllContexts(s: State, ip: string, udns: seq<string>, d: nat, a: string)
    requires Inv(s)
    ensures VisitAll(s, false, ip, udns).Ok?
    ensures HasContext(VisitAll(s, false, ip, udns).value, d, a) <==>
            HasContext(s, d, a) && !(s.devices[d].udn in udns && a == ip)
    decreases |udns|
  {
    hide Inv, RemoveDevice, Covered, Hinges, Contexts.Ips;
    if udns != [] {
      RemoveKeeps(s, ip, udns[0]);
      if d !in s.devices {
        RemoveNone(s, ip, udns[0], d);
      } else if s.devices[d].udn == udns[0] {
        RemoveOwn(s, ip, d);
      } else {
        RemoveOther(s, ip, udns[0], d);
      }
      RemoveAllContexts(RemoveDevice(s, ip, udns[0]).value, ip, udns[1..], d, a);
    }
  }

  /** The withdrawal of the address, for the device itself or a device it is embedded in. */
  predicate Withdrawal(s: State, e: Event, d: nat, a: string)
    requires d in s.devices
  {
    match e
    case Withdrawn(info, ip) => s.devices[d].udn in Withdraws(info, ip) && Address(ip) == a
    case _ => false
  }

  /** A published device loses a context by the withdrawal of its address, and by nothing else. */
  lemma ContextGoes(s: State, e: Event, d: nat, a: string)
    requires Inv(s) && FreshReplies(s, e) && History.IsPublished(s, d) && HasContext(s, d, a)
    ensures Step(s, e).Ok?
    ensures HasContext(Step(s, e).value, d, a) <==> !Withdrawal(s, e, d, a)
  {
    hide Inv, FreshReplies, Contexts.Ips, Covered;
    match e
    case Announced(info, ip) =>
      AnnounceIsOnePass(s, info, ip);
      AddAllContexts(s, Address(ip), Announces(info, ip), d, a);
    case Withdrawn(info, ip) =>
      WithdrawIsOnePass(s, info, ip);
      RemoveAllContexts(s, Address(ip), Withdraws(info, ip), d, a);
    case TaskTurn(q, replies) => TurnElsewhere(s, q, replies, d);
    case ResubscribeTimer(x) => TimerContexts(s, x, d);
    case SubscriptionLost(x, i) => LossContexts(s, x, i, d);
    case LossTimer(x, ip) => LossTimerContexts(s, x, ip, d);
    case ClientAction(udn) => ActionRefines(s, udn);
  }

  lemma TurnElsewhere(s: State, q: nat, replies: Replies, d: nat)
    requires Inv(s) && FreshReplies(s, TaskTurn(q, replies)) && History.IsPublished(s, d)
    ensures TakeTurn(s, q, replies).Ok?
    ensures var t := TakeTurn(s, q, replies).value; d in t.devices && t.devices[d] == s.devices[d]
  {
    hide InvBut, FreshReplies;
    TurnKeeps(s, q, replies);
    if q in s.chains {
      ChainOf(s, q);
      if s.chains[q].pending != [] && s.chains[q].pending[0] == Declare {
        CancelResult(Declared(s, q, replies), q);
      }
    }
  }

  lemma TimerContexts(s: State, x: nat, d: nat)
    requires Inv(s) && d in s.devices
    ensures FireTimer(s, x).Ok?
    ensures var t := FireTimer(s, x).value;
            d in t.devices && Contexts.Ips(t.devices[d].contexts) == Contexts.Ips(s.devices[d].contexts)
  {
    hide Linked, ObjectsOk, LossOk, DevicesOk, ProgressOk;
    if x in s.sources {
      SourceOf(s, x);
      DeviceOf(s, x);
      Contexts.SubscribePreferredKeepsValid(s.devices[x].contexts);
    }
  }

  lemma LossContexts(s: State, x: nat, i: nat, d: nat)
    requires Inv(s) && d in s.devices
    ensures ReportLoss(s, x, i).Ok?
    ensures var t := ReportLoss(s, x, i).value;
            d in t.devices && Contexts.Ips(t.devices[d].contexts) == Contexts.Ips(s.devices[d].contexts)
  {
    hide InvBut;
    if x in s.devices && i < |s.devices[x].contexts| {
      DeviceOf(s, x);
      Contexts.LossKeepsValid(s.devices[x].contexts, i);
    }
  }

  lemma LossTimerContexts(s: State, x: nat, ip: string, d: nat)
    requires Inv(s) && d in s.devices
    ensures FireLossTimer(s, x, ip).Ok?
    ensures var t := FireLossTimer(s, x, ip).value;
            d in t.devices && Contexts.Ips(t.devices[d].contexts) == Contexts.Ips(s.devices[d].contexts)
  {
    hide Linked, ObjectsOk, SourcesOk, LossOk, DevicesOk, ProgressOk;
    if (x, ip) in s.lossSources {
      LossSourceOf(s, x, ip);
      DeviceOf(s, x);
      Contexts.LossTimerKeepsValid(s.devices[x].contexts, Contexts.IndexOfIp(s.devices[x].contexts, ip));
    }
  }
}
