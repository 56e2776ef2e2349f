/** The registry refines the reference: whatever happens to records, queues, subscriptions and
    timers, and however often a construction moves to another context. */
module Refinement {
  import opened Wrappers
  import opened Registry
  import opened Invariant
  import opened TreeWalks
  import V = View
  import Contexts

  /** The device a known UDN denotes. */
  function Holder(s: State, udn: string): Option<nat> {
    if udn in s.published then Some(s.published[udn])
    else if udn in s.building && s.building[udn] in s.chains then Some(s.chains[s.building[udn]].device)
    else None
  }

  lemma HolderOf(s: State, udn: string)
    requires Linked(s) && (udn in s.published || udn in s.building)
    ensures Holder(s, udn).Some? && Holder(s, udn).value in s.devices
    ensures s.devices[Holder(s, udn).value].udn == udn
    ensures Lookup(s, udn) == Ok(Holder(s, udn))
  {}

  function EntryFor(dev: Device, published: bool): V.Entry {
    V.Entry(Contexts.Ips(dev.contexts), if published then V.PUBLISHED else dev.step)
  }

  function EntryOf(s: State, udn: string): V.Entry {
    match Holder(s, udn)
    case Some(d) => if d in s.devices then EntryFor(s.devices[d], udn in s.published) else V.Entry({}, 0)
    case None => V.Entry({}, 0)
  }

  function ViewOf(s: State): V.View {
    map u | u in s.published.Keys + s.building.Keys :: EntryOf(s, u)
  }

  lemma ViewOfOk(s: State)
    requires Inv(s)
    ensures V.ViewOk(ViewOf(s))
  {
    forall u | u in ViewOf(s) ensures ViewOf(s)[u].ips != {} {
      HolderOf(s, u);
      var cs := s.devices[Holder(s, u).value].contexts;
      assert DeviceOk(s.devices[Holder(s, u).value]);
      assert cs[0].ip in Contexts.Ips(cs);
    }
  }

  /** One device record is edited in place. */
  lemma EditView(s: State, t: State, d: nat)
    requires Linked(s) && d in s.devices && SameLinks(s, t)
    requires forall e :: e in s.devices && e != d ==> t.devices[e] == s.devices[e]
    ensures var u := s.devices[d].udn;
            && u in ViewOf(s)
            && ViewOf(s)[u] == EntryFor(s.devices[d], u in s.published)
            && ViewOf(t) == ViewOf(s)[u := EntryFor(t.devices[d], u in s.published)]
  {
    hide Linked;
    OwnerOf(s, d);
    var udn := s.devices[d].udn;
    if udn in s.published { PublishedOf(s, udn); }
    HolderOf(s, udn);
    forall u | u in ViewOf(s) && u != udn ensures EntryOf(t, u) == EntryOf(s, u) {
      HolderOf(s, u);
    }
  }

  /** One device is gone, with whatever pointed to it. */
  lemma DropView(s: State, t: State, udn: string)
    requires Linked(s) && Linked(t)
    requires t.published == s.published - {udn} && t.building == s.building - {udn}
    requires forall q :: q in t.chains ==> q in s.chains && t.chains[q] == s.chains[q]
    requires forall e :: e in t.devices ==> e in s.devices && t.devices[e] == s.devices[e]
    ensures ViewOf(t) == ViewOf(s) - {udn}
  {
    hide Linked;
    forall u | u in ViewOf(t) ensures EntryOf(t, u) == EntryOf(s, u) { HolderOf(t, u); }
  }

  lemma CreateView(s: State, t: State, udn: string, entry: V.Entry)
    requires Linked(s) && udn !in s.published && udn !in s.building
    requires t.published == s.published && t.building == s.building[udn := s.started]
    requires forall q :: q in s.chains ==> q in t.chains && t.chains[q] == s.chains[q]
    requires forall e :: e in s.devices ==> e in t.devices && t.devices[e] == s.devices[e]
    requires EntryOf(t, udn) == entry
    ensures ViewOf(t) == ViewOf(s)[udn := entry]
  {
    hide Linked;
    forall u | u in ViewOf(s) ensures EntryOf(t, u) == EntryOf(s, u) { HolderOf(s, u); }
  }

  // ----- announcements -----

  lemma AddContextRefines(s: State, ip: string, udn: string, d: nat)
    requires Inv(s) && Holder(s, udn) == Some(d) && (udn in s.published || udn in s.building)
    ensures AddContext(s, d, ip).Ok?
    ensures ViewOf(AddContext(s, d, ip).value) == V.Join(ViewOf(s), udn, ip)
  {
    hide Linked, ObjectsOk, SourcesOk, LossOk, DevicesOk, ProgressOk, ViewOf, Contexts.Append, Contexts.Valid;
    HolderOf(s, udn);
    var dev := s.devices[d];
    DeviceOf(s, d);
    var i := Contexts.IndexOfIp(dev.contexts, ip);
    EditView(s, s, d);
    if i < |dev.contexts| {
      assert ip in Contexts.Ips(dev.contexts);
      assert Contexts.Ips(dev.contexts) + {ip} == Contexts.Ips(dev.contexts);
    } else {
      Contexts.AppendKeepsValid(dev.contexts, ip);
      EditView(s, AddContext(s, d, ip).value, d);
    }
  }

  lemma CreateRefines(s: State, ip: string, udn: string)
    requires Inv(s) && udn !in s.published && udn !in s.building
    ensures CreateDevice(s, ip, udn).Ok?
    ensures ViewOf(CreateDevice(s, ip, udn).value) == V.Join(ViewOf(s), udn, ip)
  {
    hide Linked, ObjectsOk, SourcesOk, LossOk, DevicesOk, ProgressOk;
    if s.created in s.devices { OwnerOf(s, s.created); }
    var cs := NewDevice(s.created, udn, ip).contexts;
    assert Contexts.Ips(cs) == {ip} by { assert cs[0].ip in Contexts.Ips(cs); }
    if s.started in s.chains { LinkOf(s, s.started); }
    CreateView(s, CreateDevice(s, ip, udn).value, udn, V.Entry({ip}, 0));
  }

  lemma AddRefines(s: State, ip: string, udn: string)
    requires Inv(s)
    ensures AddDevice(s, ip, udn).Ok?
    ensures ViewOf(AddDevice(s, ip, udn).value) == V.Join(ViewOf(s), udn, ip)
  {
    if udn in s.published || udn in s.building {
      HolderOf(s, udn);
      AddContextRefines(s, ip, udn, Holder(s, udn).value);
    } else {
      CreateRefines(s, ip, udn);
    }
  }

  // ----- withdrawals -----

  lemma DropLastRefines(s: State, udn: string, d: nat, chain: Option<nat>, i: nat)
    requires Inv(s) && Denotes(s, udn, d, chain, i) && |s.devices[d].contexts| == 1
    ensures DropContext(s, udn, d, chain, i).Ok?
    ensures ViewOf(DropContext(s, udn, d, chain, i).value) == ViewOf(s) - {udn}
  {
    hide Linked, ObjectsOk, SourcesOk, LossOk, DevicesOk, ProgressOk;
    if chain.Some? { BuildingOf(s, udn); } else { PublishedOf(s, udn); }
    DropLastKeeps(s, udn, d, chain, i);
    var t := DropContext(s, udn, d, chain, i).value;
    DropView(s, t, udn);
  }

  lemma DropBuiltRefines(s: State, udn: string, d: nat, q: nat, i: nat)
    requires Inv(s) && Denotes(s, udn, d, Some(q), i) && |s.devices[d].contexts| > 1
    requires s.devices[d].contexts[i].ip == s.chains[q].ip
    ensures DropContext(s, udn, d, Some(q), i).Ok?
    ensures ViewOf(DropContext(s, udn, d, Some(q), i).value) ==
            ViewOf(s)[udn := EntryFor(s.devices[d].(contexts := Contexts.RemoveAt(s.devices[d].contexts, i)), false)]
  {
    hide Linked, ObjectsOk, SourcesOk, LossOk, DevicesOk, ProgressOk, ViewOf, Inv;
    LinkedOf(s);
    BuildingOf(s, udn);
    if s.started in s.chains { LinkOf(s, s.started); }
    DropBuiltResult(s, udn, d, q, i);
    var t := DropContext(s, udn, d, Some(q), i).value;
    SwitchView(s, t, d, q);
  }

  /** Another chain has taken over the construction of one device. */
  lemma SwitchView(s: State, t: State, d: nat, q: nat)
    requires Linked(s) && q in s.chains && d in s.devices && s.chains[q].device == d
    requires t.published == s.published && s.devices[d].udn !in s.published
    requires t.building == (s.building - {s.devices[d].udn})[s.devices[d].udn := s.started]
    requires s.started in t.chains && t.chains[s.started].device == d
    requires forall r :: r in s.chains && r != q ==> r in t.chains && t.chains[r].device == s.chains[r].device
    requires d in t.devices && t.devices[d].udn == s.devices[d].udn
    requires forall e :: e in s.devices && e != d ==> e in t.devices && t.devices[e] == s.devices[e]
    ensures ViewOf(t) == ViewOf(s)[s.devices[d].udn := EntryFor(t.devices[d], false)]
  {
    hide Linked;
    LinkOf(s, q);
    forall u | u in ViewOf(s) && u != s.devices[d].udn ensures EntryOf(t, u) == EntryOf(s, u) {
      HolderOf(s, u);
    }
  }

  lemma DropPlainRefines(s: State, udn: string, d: nat, chain: Option<nat>, i: nat)
    requires Inv(s) && Denotes(s, udn, d, chain, i) && |s.devices[d].contexts| > 1
    requires chain.None? || s.devices[d].contexts[i].ip != s.chains[chain.value].ip
    ensures DropContext(s, udn, d, chain, i).Ok?
    ensures ViewOf(DropContext(s, udn, d, chain, i).value) ==
            ViewOf(s)[udn := EntryFor(s.devices[d].(contexts := Contexts.RemoveAt(s.devices[d].contexts, i)),
                                      udn in s.published)]
  {
    hide Linked, ObjectsOk, SourcesOk, LossOk, DevicesOk, ProgressOk, ViewOf, Inv;
    LinkedOf(s);
    HolderOf(s, udn);
    DropPlainResult(s, udn, d, chain, i);
    EditView(s, DropContext(s, udn, d, chain, i).value, d);
  }

  lemma RemoveRefines(s: State, ip: string, udn: string)
    requires Inv(s)
    ensures RemoveDevice(s, ip, udn).Ok?
    ensures ViewOf(RemoveDevice(s, ip, udn).value) == V.Leave(ViewOf(s), udn, ip)
  {
    if udn in s.published || udn in s.building {
      HolderOf(s, udn);
      var d := Holder(s, udn).value;
      RemoveContextRefines(s, ip, udn, d);
    }
  }

  lemma RemoveContextRefines(s: State, ip: string, udn: string, d: nat)
    requires Inv(s) && Lookup(s, udn) == Ok(Some(d)) && d in s.devices && s.devices[d].udn == udn
    requires udn in s.published || udn in s.building
    ensures RemoveDevice(s, ip, udn).Ok?
    ensures ViewOf(RemoveDevice(s, ip, udn).value) == V.Leave(ViewOf(s), udn, ip)
  {
    hide Linked, ObjectsOk, SourcesOk, LossOk, DevicesOk, ProgressOk, ViewOf;
    var cs := s.devices[d].contexts;
    DeviceOf(s, d);
    EditView(s, s, d);
    var i := Contexts.IndexOfIp(cs, ip);
    var chain := if udn in s.published then None else Some(s.building[udn]);
    if i == |cs| {
      assert ip !in Contexts.Ips(cs);
      assert Contexts.Ips(cs) - {ip} == Contexts.Ips(cs);
      ViewOfOk(s);
    } else {
      Contexts.RemovalIps(cs, i);
      if |cs| == 1 {
        assert Contexts.Ips(cs) - {ip} == {};
        DropLastRefines(s, udn, d, chain, i);
      } else {
        var rest := Contexts.RemoveAt(cs, i);
        assert rest[0].ip in Contexts.Ips(rest);
        if chain.Some? && cs[i].ip == s.chains[chain.value].ip {
          DropBuiltRefines(s, udn, d, chain.value, i);
        } else {
          DropPlainRefines(s, udn, d, chain, i);
        }
      }
    }
  }

  // ----- construction -----

  lemma PublishView(s: State, t: State, q: nat)
    requires Linked(s) && q in s.chains && s.chains[q].device in s.devices
    requires t.published == s.published[s.chains[q].udn := s.chains[q].device]
    requires t.building == s.building - {s.chains[q].udn}
    requires t.chains == s.chains - {q} && t.devices == s.devices
    ensures ViewOf(t) == ViewOf(s)[s.chains[q].udn := EntryFor(s.devices[s.chains[q].device], true)]
  {
    hide Linked;
    LinkOf(s, q);
    forall u | u in ViewOf(s) && u != s.chains[q].udn ensures EntryOf(t, u) == EntryOf(s, u) {
      HolderOf(s, u);
      if u in s.building { BuildingOf(s, u); }
    }
  }

  /** The chain's device as the reference sees it. */
  lemma ChainEntry(s: State, q: nat)
    requires Inv(s) && q in s.chains
    ensures var c := s.chains[q];
            && c.device in s.devices && s.devices[c.device].udn == c.udn && c.udn !in s.published
            && c.udn in ViewOf(s) && ViewOf(s)[c.udn] == EntryFor(s.devices[c.device], false)
            && c.pending == PendingFrom(s.devices[c.device].step) && DeviceOk(s.devices[c.device])
  {}

  lemma PublishRefines(s: State, q: nat)
    requires Inv(s) && q in s.chains && s.chains[q].pending == []
    ensures EndChain(s, q, false).Ok?
    ensures ViewOf(EndChain(s, q, false).value) == V.Turn(ViewOf(s), s.chains[q].udn, false)
    ensures ViewOf(s)[s.chains[q].udn].stage == 2
  {
    hide Linked, ObjectsOk, SourcesOk, LossOk, DevicesOk, ProgressOk, ViewOf;
    ChainEntry(s, q);
    PublishView(s, EndChain(s, q, false).value, q);
  }

  lemma SubscribeRefines(s: State, q: nat)
    requires Inv(s) && q in s.chains && s.chains[q].pending != [] && s.chains[q].pending[0] == Subscribe
    ensures RunSubscribe(s, q).Ok?
    ensures ViewOf(RunSubscribe(s, q).value) == V.Turn(ViewOf(s), s.chains[q].udn, false)
    ensures ViewOf(s)[s.chains[q].udn].stage == 0
  {
    hide Linked, ObjectsOk, SourcesOk, LossOk, DevicesOk, ProgressOk, ViewOf;
    ChainEntry(s, q);
    var d := s.chains[q].device;
    Contexts.MoveSubscriptionKeepsValid(s.devices[d].contexts);
    EditView(s, RunSubscribe(s, q).value, d);
  }

  lemma GrantedRefines(s: State, q: nat, replies: Replies)
    requires Inv(s) && q in s.chains && s.chains[q].pending != [] && s.chains[q].pending[0] == Declare
    requires s.chains[q].device in s.devices && |s.devices[s.chains[q].device].ids| == INTERFACES
    ensures ViewOf(Declared(s, q, replies)) == V.Turn(ViewOf(s), s.chains[q].udn, false)
    ensures s.chains[q].udn in ViewOf(s) && ViewOf(s)[s.chains[q].udn].stage == 1
  {
    hide Linked, ObjectsOk, SourcesOk, LossOk, DevicesOk, ProgressOk, ViewOf;
    ChainEntry(s, q);
    EditView(s, Declared(s, q, replies), s.chains[q].device);
  }

  /** Cancelling chain `q` of `t`, which differs from `s` in that chain and its device only. */
  lemma CancelView(s: State, t: State, q: nat)
    requires Linked(s) && q in s.chains && SameLinks(s, t)
    requires forall r :: r in s.chains && r != q ==> t.chains[r] == s.chains[r]
    requires forall e :: e in s.devices && e != s.chains[q].device ==> t.devices[e] == s.devices[e]
    requires EndChain(t, q, true).Ok? && Linked(EndChain(t, q, true).value)
    ensures ViewOf(EndChain(t, q, true).value) == ViewOf(s) - {s.chains[q].udn}
  {
    hide Linked, EndChain, ViewOf;
    LinkOf(s, q);
    BuildingOf(s, s.chains[q].udn);
    CancelResult(t, q);
    assert s.published - {s.chains[q].udn} == s.published;
    DropView(s, EndChain(t, q, true).value, s.chains[q].udn);
  }

  lemma ChainDevice(s: State, q: nat)
    requires Inv(s) && q in s.chains
    ensures s.chains[q].device in s.devices && |s.devices[s.chains[q].device].ids| == INTERFACES
    ensures Linked(s)
  {}

  lemma DeclareCases(s: State, q: nat, replies: Replies)
    requires q in s.chains && s.chains[q].pending != []
    requires s.chains[q].device in s.devices && |s.devices[s.chains[q].device].ids| == INTERFACES
    ensures RunDeclare(s, q, replies) ==
            var t := Declared(s, q, replies);
            if LiveIds(replies) < |replies| then EndChain(t, q, true) else Ok(t)
  {}

  lemma DeclaredLinks(s: State, q: nat, replies: Replies)
    requires q in s.chains && s.chains[q].pending != []
    requires s.chains[q].device in s.devices && |s.devices[s.chains[q].device].ids| == INTERFACES
    ensures var t := Declared(s, q, replies);
            && SameLinks(s, t)
            && (forall r :: r in s.chains && r != q ==> t.chains[r] == s.chains[r])
            && (forall e :: e in s.devices && e != s.chains[q].device ==> t.devices[e] == s.devices[e])
  {}

  lemma DeclareRefines(s: State, q: nat, replies: Replies)
    requires Inv(s) && q in s.chains && s.chains[q].pending != [] && s.chains[q].pending[0] == Declare
    requires FreshReplies(s, TaskTurn(q, replies))
    ensures RunDeclare(s, q, replies).Ok?
    ensures ViewOf(RunDeclare(s, q, replies).value) ==
            V.Turn(ViewOf(s), s.chains[q].udn, LiveIds(replies) < |replies|)
    ensures s.chains[q].udn in ViewOf(s) && ViewOf(s)[s.chains[q].udn].stage == 1
  {
    hide InvBut, ViewOf, FreshReplies, EndChain, Declared, SameLinks, RunDeclare, LiveIds;
    ChainDevice(s, q);
    DeclareKeeps(s, q, replies);
    GrantedRefines(s, q, replies);
    DeclareCases(s, q, replies);
    DeclaredLinks(s, q, replies);
    if LiveIds(replies) < |replies| {
      LinkedOf(RunDeclare(s, q, replies).value);
      CancelView(s, Declared(s, q, replies), q);
    }
  }

  // ----- whole steps and runs -----

  lemma {:induction false} VisitAllRefines(s: State, add: bool, ip: string, udns: seq<string>)
    requires Inv(s)
    ensures VisitAll(s, add, ip, udns).Ok? && Inv(VisitAll(s, add, ip, udns).value)
    ensures ViewOf(VisitAll(s, add, ip, udns).value) ==
            if add then V.JoinAll(ViewOf(s), udns, ip) else V.LeaveAll(ViewOf(s), udns, ip)
    decreases |udns|
  {
    hide Inv, ViewOf;
    if udns != [] {
      if add {
        AddKeeps(s, ip, udns[0]);
        AddRefines(s, ip, udns[0]);
      } else {
        RemoveKeeps(s, ip, udns[0]);
        RemoveRefines(s, ip, udns[0]);
      }
      VisitAllRefines(VisitOne(s, add, ip, udns[0]).value, add, ip, udns[1..]);
    }
  }

  /** The move of the reference that an event amounts to. */
  function MoveOf(s: State, e: Event): V.Move {
    match e
    case Announced(info, ip) => V.Joined(Announces(info, ip), Address(ip))
    case Withdrawn(info, ip) => V.Left(Withdraws(info, ip), Address(ip))
    case TaskTurn(q, replies) =>
      if q in s.chains then V.Turned(s.chains[q].udn, LiveIds(replies) < |replies|) else V.Quiet
    case _ => V.Quiet
  }

  // Timers, loss reports and client actions are invisible to the reference.

  lemma TimerRefines(s: State, d: nat)
    requires Inv(s)
    ensures FireTimer(s, d).Ok? && ViewOf(FireTimer(s, d).value) == ViewOf(s)
  {
    hide Linked, ObjectsOk, SourcesOk, LossOk, DevicesOk, ProgressOk, ViewOf;
    if d in s.sources {
      SourceOf(s, d);
      DeviceOf(s, d);
      Contexts.SubscribePreferredKeepsValid(s.devices[d].contexts);
      EditView(s, s, d);
      EditView(s, FireTimer(s, d).value, d);
    }
  }

  lemma LossRefines(s: State, d: nat, i: nat)
    requires Inv(s)
    ensures ReportLoss(s, d, i).Ok? && ViewOf(ReportLoss(s, d, i).value) == ViewOf(s)
  {
    hide Linked, ObjectsOk, SourcesOk, LossOk, DevicesOk, ProgressOk, ViewOf;
    if d in s.devices && i < |s.devices[d].contexts| {
      DeviceOf(s, d);
      Contexts.LossKeepsValid(s.devices[d].contexts, i);
      EditView(s, s, d);
      EditView(s, ReportLoss(s, d, i).value, d);
    }
  }

  lemma LossTimerRefines(s: State, d: nat, ip: string)
    requires Inv(s)
    ensures FireLossTimer(s, d, ip).Ok? && ViewOf(FireLossTimer(s, d, ip).value) == ViewOf(s)
  {
    hide Linked, ObjectsOk, SourcesOk, LossOk, DevicesOk, ProgressOk, ViewOf;
    if (d, ip) in s.lossSources {
      LossSourceOf(s, d, ip);
      DeviceOf(s, d);
      Contexts.LossTimerKeepsValid(s.devices[d].contexts, Contexts.IndexOfIp(s.devices[d].contexts, ip));
      EditView(s, s, d);
      EditView(s, FireLossTimer(s, d, ip).value, d);
    }
  }

  lemma ActionRefines(s: State, udn: string)
    requires Inv(s)
    ensures StartAction(s, udn) == Ok(s)
  {}

  lemma StepRefines(s: State, e: Event)
    requires Inv(s) && FreshReplies(s, e)
    ensures Step(s, e).Ok? && Inv(Step(s, e).value)
    ensures ViewOf(Step(s, e).value) == V.Play(ViewOf(s), MoveOf(s, e))
  {
    hide InvBut, ViewOf;
    match e
    case Announced(info, ip) =>
      AnnounceIsOnePass(s, info, ip);
      VisitAllRefines(s, true, Address(ip), Announces(info, ip));
    case Withdrawn(info, ip) =>
      WithdrawIsOnePass(s, info, ip);
      VisitAllRefines(s, false, Address(ip), Withdraws(info, ip));
    case TaskTurn(q, replies) =>
      TurnKeeps(s, q, replies);
      if q in s.chains {
        if s.chains[q].pending == [] { PublishRefines(s, q); }
        else if s.chains[q].pending[0] == Subscribe { SubscribeRefines(s, q); }
        else { DeclareRefines(s, q, replies); }
      }
    case ResubscribeTimer(d) => TimerKeeps(s, d); TimerRefines(s, d);
    case SubscriptionLost(d, i) => LossKeeps(s, d, i); LossRefines(s, d, i);
    case LossTimer(d, ip) => LossTimerKeeps(s, d, ip); LossTimerRefines(s, d, ip);
    case ClientAction(udn) => ActionRefines(s, udn);
  }

  /** The moves of a whole run. */
  function MovesOf(s: State, events: seq<Event>): seq<V.Move>
    decreases |events|
  {
    if events == [] then []
    else
      var t := Step(s, events[0]);
      [MoveOf(s, events[0])] + if t.Ok? then MovesOf(t.value, events[1..]) else []
  }

  /** Every run is free of faults, keeps the invariant, and shows clients what the reference
      shows. */
  lemma {:induction false} RunRefines(s: State, events: seq<Event>)
    requires Inv(s) && FreshRun(s, events)
    ensures Run(s, events).Ok? && Inv(Run(s, events).value)
    ensures ViewOf(Run(s, events).value) == V.PlayAll(ViewOf(s), MovesOf(s, events))
    decreases |events|
  {
    hide Inv, ViewOf, Step, FreshReplies;
    if events != [] {
      StepRefines(s, events[0]);
      var t := Step(s, events[0]).value;
      RunRefines(t, events[1..]);
      assert MovesOf(s, events)[1..] == MovesOf(t, events[1..]);
    }
  }
}
