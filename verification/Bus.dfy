/** The history over whole steps, and what it means for the clients on the bus: which object
    paths they are told about, and which ones GetDevices returns. */
module Bus {
  import opened Wrappers
  import opened Registry
  import opened Invariant
  import opened History
  import opened TreeWalks
  import opened Refinement
  import Contexts

  // ----- paths and signals -----

  function SignalOf(o: Output): seq<Signal> {
    match o
    case Found(d) => [FoundDevice(PathOf(d))]
    case Lost(d) => [LostDevice(PathOf(d))]
    case _ => []
  }

  function SignalsOf(log: seq<Output>): seq<Signal> {
    if log == [] then [] else SignalsOf(log[..|log| - 1]) + SignalOf(log[|log| - 1])
  }

  lemma SignalsEmit(log: seq<Output>, o: Output)
    ensures SignalsOf(Emit(log, o)) == SignalsOf(log) + SignalOf(o)
  {}

  /** Every live device keeps the path of its handle, and every signal carries the path of the
      device it is about. */
  predicate PathsOk(s: State) {
    && (forall d :: d in s.devices ==> s.devices[d].path == PathOf(d))
    && s.signals == SignalsOf(s.log)
  }

  predicate KeepsPaths(s: State, t: State) {
    forall d :: d in t.devices ==> d in s.devices && t.devices[d].path == s.devices[d].path
  }

  /** Everything that holds in every reachable state. */
  ghost predicate Good(s: State) {
    Inv(s) && HistoryOk(s) && PathsOk(s)
  }

  lemma InitGood()
    ensures Good(INIT)
  {
    hide Inv;
    InitInv();
  }

  lemma SilentPaths(s: State, t: State, o: Output)
    requires PathsOk(s) && KeepsPaths(s, t) && SignalOf(o) == []
    requires t.log == Emit(s.log, o) && t.signals == s.signals
    ensures PathsOk(t)
  {}

  lemma SilentPaths2(s: State, t: State, o: Output, p: Output)
    requires PathsOk(s) && KeepsPaths(s, t) && SignalOf(o) == [] && SignalOf(p) == []
    requires t.log == Emit(Emit(s.log, o), p) && t.signals == s.signals
    ensures PathsOk(t)
  {}

  // ----- primitive operations -----

  lemma EditGood(s: State, t: State, d: nat)
    requires Good(s) && Inv(t) && d in s.devices && d in t.devices
    requires t == s.(devices := t.devices, sources := t.sources, lossSources := t.lossSources)
    requires t.devices == s.devices[d := t.devices[d]]
    requires t.devices[d].udn == s.devices[d].udn && t.devices[d].path == s.devices[d].path
    requires t.devices[d].step == s.devices[d].step
    ensures Good(t)
  {
    hide InvBut, PathOf, HistoryOk, SignalsOf;
    EditHistory(s, t);
  }

  lemma AddGood(s: State, ip: string, udn: string)
    requires Good(s)
    ensures AddDevice(s, ip, udn).Ok? && Good(AddDevice(s, ip, udn).value)
  {
    hide InvBut, PathsOk, HistoryOk;
    AddKeeps(s, ip, udn);
    LinkedOf(s);
    var t := AddDevice(s, ip, udn).value;
    if udn in s.published || udn in s.building {
      HolderOf(s, udn);
      EditGood(s, t, Holder(s, udn).value);
    } else {
      CreateGood(s, ip, udn);
    }
  }

  lemma CreateGood(s: State, ip: string, udn: string)
    requires Good(s) && udn !in s.published && udn !in s.building
    ensures CreateDevice(s, ip, udn).Ok? && Good(CreateDevice(s, ip, udn).value)
  {
    hide InvBut, PathOf, HistoryOk;
    LinkedOf(s);
    CreateKeeps(s, ip, udn);
    var t := CreateDevice(s, ip, udn).value;
    if s.created in s.devices { OwnerOf(s, s.created); }
    if s.started in s.chains { LinkOf(s, s.started); }
    CreateHistory(s, t);
    SignalsEmit(s.log, Created(s.created));
    SignalsEmit(Emit(s.log, Created(s.created)), ChainMade(s.started));
  }

  lemma LostGood(s: State, udn: string, d: nat, i: nat)
    requires Good(s) && Denotes(s, udn, d, None, i) && |s.devices[d].contexts| == 1
    ensures DropContext(s, udn, d, None, i).Ok? && Good(DropContext(s, udn, d, None, i).value)
  {
    hide InvBut, PathOf, HistoryOk, DropContext;
    LinkedOf(s);
    DropLastKeeps(s, udn, d, None, i);
    DropLostResult(s, udn, d, i);
    PublishedOf(s, udn);
    OwnerOf(s, d);
    var t := DropContext(s, udn, d, None, i).value;
    LoseHistory(s, t, udn);
    SignalsEmit(s.log, Lost(d));
    SignalsEmit(Emit(s.log, Lost(d)), Deleted(d));
  }

  lemma CancelledGood(s: State, udn: string, d: nat, q: nat, i: nat)
    requires Good(s) && Denotes(s, udn, d, Some(q), i) && |s.devices[d].contexts| == 1
    ensures DropContext(s, udn, d, Some(q), i).Ok? && Good(DropContext(s, udn, d, Some(q), i).value)
  {
    hide InvBut, PathsOk, HistoryOk, DropContext;
    LinkedOf(s);
    DropLastKeeps(s, udn, d, Some(q), i);
    DropCancelledResult(s, udn, d, q, i);
    BuildingOf(s, udn);
    OwnerOf(s, d);
    var t := DropContext(s, udn, d, Some(q), i).value;
    CancelHistory(s, t, q);
    SilentPaths2(s, t, ChainFreed(q), Deleted(d));
  }

  lemma BuiltGood(s: State, udn: string, d: nat, q: nat, i: nat)
    requires Good(s) && Denotes(s, udn, d, Some(q), i) && |s.devices[d].contexts| > 1
    requires s.devices[d].contexts[i].ip == s.chains[q].ip
    ensures DropContext(s, udn, d, Some(q), i).Ok? && Good(DropContext(s, udn, d, Some(q), i).value)
  {
    hide InvBut, PathsOk, HistoryOk, DropContext;
    LinkedOf(s);
    DropBuiltKeeps(s, udn, d, q, i);
    DropBuiltResult(s, udn, d, q, i);
    BuildingOf(s, udn);
    if s.started in s.chains { LinkOf(s, s.started); }
    var t := DropContext(s, udn, d, Some(q), i).value;
    var u := s.(devices := t.devices);
    EditHistory(s, u);
    SwitchHistory(u, t, q);
    SilentPaths2(s, t, ChainFreed(q), ChainMade(s.started));
  }

  lemma PlainGood(s: State, udn: string, d: nat, chain: Option<nat>, i: nat)
    requires Good(s) && Denotes(s, udn, d, chain, i) && |s.devices[d].contexts| > 1
    requires chain.None? || s.devices[d].contexts[i].ip != s.chains[chain.value].ip
    ensures DropContext(s, udn, d, chain, i).Ok? && Good(DropContext(s, udn, d, chain, i).value)
  {
    hide InvBut, PathsOk, HistoryOk, DropContext;
    DropPlainKeeps(s, udn, d, chain, i);
    DropPlainResult(s, udn, d, chain, i);
    EditGood(s, DropContext(s, udn, d, chain, i).value, d);
  }

  lemma RemoveGood(s: State, ip: string, udn: string)
    requires Good(s)
    ensures RemoveDevice(s, ip, udn).Ok? && Good(RemoveDevice(s, ip, udn).value)
  {
    hide InvBut, PathsOk, HistoryOk, DropContext;
    LinkedOf(s);
    if udn in s.published || udn in s.building {
      HolderOf(s, udn);
      var d := Holder(s, udn).value;
      DeviceOf(s, d);
      var cs := s.devices[d].contexts;
      var i := Contexts.IndexOfIp(cs, ip);
      if i < |cs| {
        if udn in s.published {
          if |cs| == 1 { LostGood(s, udn, d, i); } else { PlainGood(s, udn, d, None, i); }
        } else {
          var q := s.building[udn];
          if |cs| == 1 { CancelledGood(s, udn, d, q, i); }
          else if cs[i].ip == s.chains[q].ip { BuiltGood(s, udn, d, q, i); }
          else { PlainGood(s, udn, d, Some(q), i); }
        }
      }
    }
  }

  lemma SubscribeGood(s: State, q: nat)
    requires Good(s) && q in s.chains && s.chains[q].pending != [] && s.chains[q].pending[0] == Subscribe
    ensures RunSubscribe(s, q).Ok? && Good(RunSubscribe(s, q).value)
  {
    hide InvBut, PathsOk, HistoryOk;
    ChainOf(s, q);
    SubscribeKeeps(s, q);
    var t := RunSubscribe(s, q).value;
    StepHistory(s, t, s.chains[q].device);
    SilentPaths(s, t, Ran(s.chains[q].device, Subscribe));
  }

  lemma DeclareGood(s: State, q: nat, replies: Replies)
    requires Good(s) && q in s.chains && s.chains[q].pending != [] && s.chains[q].pending[0] == Declare
    requires FreshReplies(s, TaskTurn(q, replies))
    ensures RunDeclare(s, q, replies).Ok? && Good(RunDeclare(s, q, replies).value)
  {
    hide InvBut, PathsOk, HistoryOk, EndChain, FreshReplies, DeclaredIds, Granted;
    ChainOf(s, q);
    var d := s.chains[q].device;
    var t := Declared(s, q, replies);
    DeclareKeeps(s, q, replies);
    StepHistory(s, t, d);
    SilentPaths(s, t, Ran(d, Declare));
    if LiveIds(replies) < |replies| {
      CancelResult(t, q);
      var u := EndChain(t, q, true).value;
      LinkedOf(s);
      OwnerOf(s, d);
      CancelHistory(t, u, q);
      SilentPaths2(t, u, ChainFreed(q), Deleted(d));
    }
  }

  lemma PublishGood(s: State, q: nat)
    requires Good(s) && q in s.chains && s.chains[q].pending == []
    ensures EndChain(s, q, false).Ok? && Good(EndChain(s, q, false).value)
  {
    hide InvBut, PathOf, HistoryOk;
    ChainOf(s, q);
    PublishKeeps(s, q);
    var t := EndChain(s, q, false).value;
    PublishHistory(s, t, q);
    SignalsEmit(s.log, Found(s.chains[q].device));
    SignalsEmit(Emit(s.log, Found(s.chains[q].device)), ChainFreed(q));
  }

  // ----- whole steps and runs -----

  lemma {:induction false} VisitAllGood(s: State, add: bool, ip: string, udns: seq<string>)
    requires Good(s)
    ensures VisitAll(s, add, ip, udns).Ok? && Good(VisitAll(s, add, ip, udns).value)
    decreases |udns|
  {
    hide Good;
    if udns != [] {
      if add { AddGood(s, ip, udns[0]); } else { RemoveGood(s, ip, udns[0]); }
      VisitAllGood(VisitOne(s, add, ip, udns[0]).value, add, ip, udns[1..]);
    }
  }

  lemma TurnGood(s: State, q: nat, replies: Replies)
    requires Good(s) && FreshReplies(s, TaskTurn(q, replies))
    ensures TakeTurn(s, q, replies).Ok? && Good(TakeTurn(s, q, replies).value)
  {
    hide Good, FreshReplies;
    if q in s.chains {
      if s.chains[q].pending == [] { PublishGood(s, q); }
      else if s.chains[q].pending[0] == Subscribe { SubscribeGood(s, q); }
      else { DeclareGood(s, q, replies); }
    }
  }

  lemma TimerGood(s: State, d: nat)
    requires Good(s)
    ensures FireTimer(s, d).Ok? && Good(FireTimer(s, d).value)
  {
    hide InvBut, PathsOk, HistoryOk;
    TimerKeeps(s, d);
    if FireTimer(s, d) != Ok(s) { EditGood(s, FireTimer(s, d).value, d); }
  }

  lemma LossGood(s: State, d: nat, i: nat)
    requires Good(s)
    ensures ReportLoss(s, d, i).Ok? && Good(ReportLoss(s, d, i).value)
  {
    hide InvBut, PathsOk, HistoryOk;
    LossKeeps(s, d, i);
    if ReportLoss(s, d, i) != Ok(s) { EditGood(s, ReportLoss(s, d, i).value, d); }
  }

  lemma LossTimerGood(s: State, d: nat, ip: string)
    requires Good(s)
    ensures FireLossTimer(s, d, ip).Ok? && Good(FireLossTimer(s, d, ip).value)
  {
    hide InvBut, PathsOk, HistoryOk;
    LossTimerKeeps(s, d, ip);
    if FireLossTimer(s, d, ip) != Ok(s) { EditGood(s, FireLossTimer(s, d, ip).value, d); }
  }

  lemma StepGood(s: State, e: Event)
    requires Good(s) && FreshReplies(s, e)
    ensures Step(s, e).Ok? && Good(Step(s, e).value)
  {
    hide InvBut, PathsOk, HistoryOk, FreshReplies;
    match e
    case Announced(info, ip) =>
      AnnounceIsOnePass(s, info, ip);
      VisitAllGood(s, true, Address(ip), Announces(info, ip));
    case Withdrawn(info, ip) =>
      WithdrawIsOnePass(s, info, ip);
      VisitAllGood(s, false, Address(ip), Withdraws(info, ip));
    case TaskTurn(q, replies) => TurnGood(s, q, replies);
    case ResubscribeTimer(d) => TimerGood(s, d);
    case SubscriptionLost(d, i) => LossGood(s, d, i);
    case LossTimer(d, ip) => LossTimerGood(s, d, ip);
    case ClientAction(udn) => ActionRefines(s, udn);
  }

  /** Safety over whole runs: no run that starts well and whose connector hands out unused ids
      ever faults, and everything in `Good` holds at its end. */
  lemma {:induction false} RunGood(s: State, events: seq<Event>)
    requires Good(s) && FreshRun(s, events)
    ensures Run(s, events).Ok? && Good(Run(s, events).value)
    decreases |events|
  {
    hide Good, Step, FreshReplies;
    if events != [] {
      StepGood(s, events[0]);
      RunGood(Step(s, events[0]).value, events[1..]);
    }
  }
}
