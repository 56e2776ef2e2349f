/** The registry and the client invocations together. An icon download stores what it fetched in the
    device record it was started for: the record is still there. A service action loses its proxy with
    the context it was begun on: it then hangs exactly as long as the device stays and nobody cancels. */
module Joint {
  import opened Wrappers
  import opened Registry
  import opened Invariant
  import opened History
  import opened TreeWalks
  import opened Refinement
  import opened Bus
  import opened Runs
  import opened Causes
  import T = Tasks
  import Contexts

  // ----- a step only adds to the log -----

  lemma AddLogs(s: State, ip: string, udn: string)
    requires Inv(s)
    ensures AddDevice(s, ip, udn).Ok? && s.log <= AddDevice(s, ip, udn).value.log
  {
    hide InvBut;
    AddKeeps(s, ip, udn);
  }

  lemma RemoveLogs(s: State, ip: string, udn: string)
    requires Inv(s)
    ensures RemoveDevice(s, ip, udn).Ok? && s.log <= RemoveDevice(s, ip, udn).value.log
  {
    hide InvBut, DropContext;
    LinkedOf(s);
    RemoveKeeps(s, ip, udn);
    if udn in s.published || udn in s.building {
      HolderOf(s, udn);
      var h := Holder(s, udn).value;
      DeviceOf(s, h);
      var cs := s.devices[h].contexts;
      var i := Contexts.IndexOfIp(cs, ip);
      var chain := if udn in s.published then None else Some(s.building[udn]);
      if udn in s.building { BuildingOf(s, udn); }
      if i < |cs| { DropLogs(s, udn, h, chain, i); }
    }
  }

  lemma DropLogs(s: State, udn: string, d: nat, chain: Option<nat>, i: nat)
    requires Denotes(s, udn, d, chain, i)
    ensures DropContext(s, udn, d, chain, i).Ok? ==> s.log <= DropContext(s, udn, d, chain, i).value.log
  {
    hide DropContext;
    var cs := s.devices[d].contexts;
    if |cs| == 1 {
      if chain.None? { DropLostResult(s, udn, d, i); } else { DropCancelledResult(s, udn, d, chain.value, i); }
    } else if chain.Some? && cs[i].ip == s.chains[chain.value].ip {
      DropBuiltResult(s, udn, d, chain.value, i);
    } else {
      DropPlainResult(s, udn, d, chain, i);
    }
  }

  lemma {:induction false} VisitAllLogs(s: State, add: bool, ip: string, udns: seq<string>)
    requires Inv(s)
    ensures VisitAll(s, add, ip, udns).Ok? && s.log <= VisitAll(s, add, ip, udns).value.log
    decreases |udns|
  {
    hide Inv, AddDevice, RemoveDevice;
    if udns != [] {
      if add {
        AddKeeps(s, ip, udns[0]);
        AddLogs(s, ip, udns[0]);
      } else {
        RemoveKeeps(s, ip, udns[0]);
        RemoveLogs(s, ip, udns[0]);
      }
      VisitAllLogs(VisitOne(s, add, ip, udns[0]).value, add, ip, udns[1..]);
    }
  }

  lemma TurnLogs(s: State, q: nat, replies: Replies)
    requires Inv(s) && FreshReplies(s, TaskTurn(q, replies))
    ensures TakeTurn(s, q, replies).Ok? && s.log <= TakeTurn(s, q, replies).value.log
  {
    hide InvBut, FreshReplies;
    TurnKeeps(s, q, replies);
    if q in s.chains {
      ChainOf(s, q);
      if s.chains[q].pending != [] && s.chains[q].pending[0] == Declare {
        CancelResult(Declared(s, q, replies), q);
      }
    }
  }

  lemma StepLogs(s: State, e: Event)
    requires Inv(s) && FreshReplies(s, e)
    ensures Step(s, e).Ok? && s.log <= Step(s, e).value.log
  {
    hide InvBut, FreshReplies;
    match e
    case Announced(info, ip) =>
      AnnounceIsOnePass(s, info, ip);
      VisitAllLogs(s, true, Address(ip), Announces(info, ip));
    case Withdrawn(info, ip) =>
      WithdrawIsOnePass(s, info, ip);
      VisitAllLogs(s, false, Address(ip), Withdraws(info, ip));
    case TaskTurn(q, replies) => TurnLogs(s, q, replies);
    case ResubscribeTimer(d) => TimerKeeps(s, d);
    case SubscriptionLost(d, i) =>
    case LossTimer(d, ip) => LossTimerKeeps(s, d, ip);
    case ClientAction(udn) => ActionRefines(s, udn);
  }

  lemma {:induction false} SignalsConcat(log: seq<Output>, more: seq<Output>)
    ensures SignalsOf(log + more) == SignalsOf(log) + SignalsOf(more)
  {
    hide SignalOf;
    if more == [] {
      assert log + more == log;
    } else {
      var n := |more| - 1;
      assert (log + more)[..|log| + n] == log + more[..n] && (log + more)[|log| + n] == more[n];
      SignalsConcat(log, more[..n]);
      var last := SignalOf(more[n]);
      assert SignalsOf(log) + SignalsOf(more[..n]) + last == SignalsOf(log) + (SignalsOf(more[..n]) + last);
    }
  }

  lemma {:induction false} OutputHasSignal(log: seq<Output>, o: Output)
    requires o in log && SignalOf(o) != []
    ensures SignalOf(o)[0] in SignalsOf(log)
  {
    hide PathOf;
    var n := |log| - 1;
    if log[n] != o { OutputHasSignal(log[..n], o); }
  }

  /** The signals sent in one step. */
  function NewSignals(s: State, t: State): seq<Signal> {
    if |s.signals| <= |t.signals| then t.signals[|s.signals|..] else []
  }

  /** By the history: a device that was published and is not any more has been withdrawn since. */
  lemma GoneIsLost(s: State, t: State, d: nat)
    requires HistoryOk(s) && HistoryOk(t) && s.log <= t.log && IsPublished(s, d) && !IsPublished(t, d)
    ensures d !in t.devices && Lost(d) in t.log[|s.log|..]
  {
    hide Ordered;
    var more := t.log[|s.log|..];
    assert t.log == s.log + more;
    assert DeviceHistory(s, d) && DeviceHistory(t, d);
    CountPrefix(s.log, more, Found(d));
    CountIn(t.log, Lost(d));
    CountIn(s.log, Lost(d));
  }

  /** A published device only goes with a LostDevice signal for its path. */
  lemma GoneIsSignalled(s: State, e: Event, d: nat)
    requires Good(s) && FreshReplies(s, e) && IsPublished(s, d)
    ensures Step(s, e).Ok?
    ensures !IsPublished(Step(s, e).value, d) ==>
              d !in Step(s, e).value.devices && LostDevice(PathOf(d)) in NewSignals(s, Step(s, e).value)
  {
    hide Inv, HistoryOk, FreshReplies, Step, PathOf, IsPublished;
    StepGood(s, e);
    StepLogs(s, e);
    var t := Step(s, e).value;
    if !IsPublished(t, d) {
      GoneIsLost(s, t, d);
      var more := t.log[|s.log|..];
      assert t.log == s.log + more;
      SignalsConcat(s.log, more);
      OutputHasSignal(more, Lost(d));
    }
  }

  lemma {:induction false} CountPrefix(log: seq<Output>, more: seq<Output>, o: Output)
    ensures Count(log, o) <= Count(log + more, o)
  {
    if more == [] {
      assert log + more == log;
    } else {
      var n := |more| - 1;
      assert (log + more)[..|log| + n] == log + more[..n];
      CountPrefix(log, more[..n], o);
    }
  }

  // ----- the joint system -----

  /** Where an operation was begun: the device record, and the address of its context. */
  datatype Origin = Origin(device: nat, address: string)

  /** A client invocation on an object path. `life` is the client's view of it. */
  datatype Job = Job(path: string, task: T.Task, origin: Option<Origin>, life: T.Life)

  datatype Service = Service(registry: State, jobs: seq<Job>)

  const START := Service(INIT, [])

  datatype Happening =
    | Network(event: Event)
    | Request(path: string, synchronous: bool, hasFormat: bool)
    | Begun(job: nat, device: nat, value: string, begin: T.Begin)
    | Progress(job: nat, step: T.Event)

  function Advance(j: Job, e: T.Event): Outcome<Job> {
    var t :- T.Step(j.task, e);
    Ok(j.(task := t, life := T.Live(j.life, j.task.synchronous, j.task.hasFormat, e)))
  }

  /** Removing a context takes its service proxy away. */
  function Severed(j: Job, t: State): Outcome<Job> {
    if j.task.weak && j.origin.Some? && !HasContext(t, j.origin.value.device, j.origin.value.address) then
      Advance(j, T.ProxyGone)
    else Ok(j)
  }

  /** LostDevice also removes the queues whose sink is the path: what runs is cancelled, and what
      waits is deleted. */
  function Swept(j: Job, signals: seq<Signal>): Outcome<Job> {
    if LostDevice(j.path) !in signals then Ok(j)
    else if j.task.phase == T.Running then Advance(j, T.Cancelled)
    else if j.task.phase == T.Waiting then Advance(j, T.Dropped)
    else Ok(j)
  }

  /** What a registry step that leads to `t` and sends `signals` does to the jobs. The context goes
      before the device is announced lost. */
  function React(j: Job, t: State, signals: seq<Signal>): Outcome<Job> {
    var k :- Severed(j, t);
    Swept(k, signals)
  }

  function ReactAll(jobs: seq<Job>, t: State, signals: seq<Signal>): Outcome<seq<Job>> {
    if jobs == [] then Ok([])
    else
      var head :- React(jobs[0], t, signals);
      var tail :- ReactAll(jobs[1..], t, signals);
      Ok([head] + tail)
  }

  /** An operation that needs a device starts on a published one with the path of the job, on its
      preferred context, and a successful download writes into the record of that device. A proxy
      goes away with its context only. */
  function Happen(s: Service, h: Happening): Outcome<Service> {
    match h
    case Network(e) =>
      var t :- Step(s.registry, e);
      var jobs :- ReactAll(s.jobs, t, NewSignals(s.registry, t));
      Ok(Service(t, jobs))
    case Request(path, synchronous, hasFormat) =>
      Ok(s.(jobs := s.jobs + [Job(path, T.New(synchronous, hasFormat), None, T.NewLife())]))
    case Begun(k, d, value, begin) =>
      if k >= |s.jobs| || s.jobs[k].task.phase != T.Waiting then Ok(s)
      else if begin.Remotely? || begin.Downloading? then
        if !IsPublished(s.registry, d) || s.registry.devices[d].path != s.jobs[k].path then Ok(s)
        else
          var cs := s.registry.devices[d].contexts;
          if cs == [] then Fault
          else
            var j :- Advance(s.jobs[k], T.Started(value, begin));
            var origin := Origin(d, cs[Contexts.Preferred(cs)].ip);
            Ok(s.(jobs := s.jobs[k := j.(origin := Some(origin))]))
      else
        var j :- Advance(s.jobs[k], T.Started(value, begin));
        Ok(s.(jobs := s.jobs[k := j]))
    case Progress(k, e) =>
      if k >= |s.jobs| || e.Started? || e.ProxyGone? then Ok(s)
      else
        var j := s.jobs[k];
        if e.DownloadReply? && e.ending.Result? && j.task.remote == T.Message
           && (j.origin.None? || j.origin.value.device !in s.registry.devices) then Fault
        else
          var next :- Advance(j, e);
          Ok(s.(jobs := s.jobs[k := next]))
  }

  function HappenAll(s: Service, hs: seq<Happening>): Outcome<Service>
    decreases |hs|
  {
    if hs == [] then Ok(s)
    else
      var t :- Happen(s, hs[0]);
      HappenAll(t, hs[1..])
  }

  predicate FreshHappening(s: Service, h: Happening) {
    h.Network? ==> FreshReplies(s.registry, h.event)
  }

  predicate FreshHappenings(s: Service, hs: seq<Happening>)
    decreases |hs|
  {
    hs != [] ==>
      && FreshHappening(s, hs[0])
      && (var t := Happen(s, hs[0]); t.Ok? ==> FreshHappenings(t.value, hs[1..]))
  }

  // ----- what an event does to a task -----

  lemma AdvanceMatches(j: Job, e: T.Event)
    requires T.Matches(j.task, j.life)
    ensures Advance(j, e).Ok? && T.Matches(Advance(j, e).value.task, Advance(j, e).value.life)
    ensures Advance(j, e).value.path == j.path && Advance(j, e).value.origin == j.origin
    ensures Advance(j, e).value.life == T.Live(j.life, j.task.synchronous, j.task.hasFormat, e)
  {
    hide T.Matches, T.Step, T.Live;
    T.StepRefines(j.task, j.life, e);
  }

  /** The stages by what can be seen of the record. */
  lemma StageOf(t: T.Task, l: T.Life)
    requires T.Matches(t, l)
    ensures t.remote == T.Message <==> l.stage == T.Open(true)
    ensures t.remote == T.Action <==> l.stage == T.Open(false)
    ensures T.Stuck(t) <==> l.stage == T.Lost
    ensures t.phase == T.Waiting <==> l.stage == T.Queued
    ensures t.phase == T.Running <==> l.stage.Open? || l.stage == T.Lost || l.stage.Decided?
    ensures t.weak ==> t.phase == T.Running
    ensures l.stage == T.Open(false) ==> t.weak
  {}

  /** Only the start of a service action ties a task to a proxy, and the proxy's end unties it. */
  lemma WeakFromStart(j: Job, e: T.Event)
    requires T.Matches(j.task, j.life)
    ensures Advance(j, e).Ok?
    ensures Advance(j, e).value.task.weak ==>
              !e.ProxyGone? && (j.task.weak || (e.Started? && e.begin.Remotely? && j.task.phase == T.Waiting))
  {
    AdvanceMatches(j, e);
  }

  // ----- the invariant -----

  /** The task waits for something only its device or its client can bring about. */
  predicate Depends(t: T.Task) {
    t.remote == T.Message || t.weak || T.Stuck(t)
  }

  /** Such a task belongs to a published device with the path of its job, and while it is tied to a
      proxy the context is there. */
  predicate JobOk(s: State, j: Job) {
    && T.Matches(j.task, j.life)
    && (Depends(j.task) ==>
          && j.origin.Some? && IsPublished(s, j.origin.value.device)
          && s.devices[j.origin.value.device].path == j.path)
    && (j.task.weak ==> HasContext(s, j.origin.value.device, j.origin.value.address))
  }

  ghost predicate Safe(s: Service) {
    && Good(s.registry)
    && forall k :: 0 <= k < |s.jobs| ==> JobOk(s.registry, s.jobs[k])
  }

  lemma PublishedPath(s: State, d: nat)
    requires Good(s) && IsPublished(s, d)
    ensures d in s.devices && s.devices[d].path == PathOf(d)
    ensures s.devices[d].contexts != []
  {
    hide PathOf, InvBut, HistoryOk;
    DeviceOf(s, d);
  }

  // ----- one registry step, one job -----

  /** The context the action was begun on is withdrawn. */
  predicate CutOff(s: State, e: Event, j: Job) {
    && j.task.remote == T.Action && j.origin.Some?
    && j.origin.value.device in s.devices && Withdrawal(s, e, j.origin.value.device, j.origin.value.address)
  }

  /** Losing contexts: afterwards a task tied to a proxy still has its context, and it hangs exactly
      if it did or was cut off now. */
  lemma SeveredOk(s: State, e: Event, j: Job)
    requires Good(s) && FreshReplies(s, e) && JobOk(s, j)
    ensures Step(s, e).Ok? && Severed(j, Step(s, e).value).Ok?
    ensures var t := Step(s, e).value;
            var k := Severed(j, t).value;
            && T.Matches(k.task, k.life) && k.path == j.path && k.origin == j.origin
            && k.task.phase == j.task.phase && (k.task.remote == T.Message <==> j.task.remote == T.Message)
            && (T.Stuck(k.task) <==> T.Stuck(j.task) || CutOff(s, e, j))
            && (k.task.weak ==> j.task.weak && HasContext(t, j.origin.value.device, j.origin.value.address))
  {
    hide Inv, FreshReplies, Step, PathsOk, HistoryOk, T.Matches, T.Step, T.Stuck, HasContext, Withdrawal, IsPublished,
         Advance;
    StepGood(s, e);
    StageOf(j.task, j.life);
    if j.task.weak {
      ContextGoes(s, e, j.origin.value.device, j.origin.value.address);
      PublishedPath(s, j.origin.value.device);
      AdvanceMatches(j, T.ProxyGone);
      WeakFromStart(j, T.ProxyGone);
      var k := Advance(j, T.ProxyGone).value;
      StageOf(k.task, k.life);
      PhaseKept(j);
    }
  }

  lemma PhaseKept(j: Job)
    requires T.Matches(j.task, j.life)
    ensures Advance(j, T.ProxyGone).Ok? && Advance(j, T.ProxyGone).value.task.phase == j.task.phase
  {}

  lemma ReactOk(s: State, e: Event, j: Job)
    requires Good(s) && FreshReplies(s, e) && JobOk(s, j)
    ensures Step(s, e).Ok?
    ensures var t := Step(s, e).value;
            var signals := NewSignals(s, t);
            && React(j, t, signals).Ok? && JobOk(t, React(j, t, signals).value)
            && (T.Stuck(React(j, t, signals).value.task) <==>
                (T.Stuck(j.task) || CutOff(s, e, j)) && LostDevice(j.path) !in signals)
  {
    hide Inv, FreshReplies, Step, PathsOk, HistoryOk, T.Matches, T.Step, T.Stuck, HasContext, CutOff, IsPublished,
         Advance, NewSignals, PathOf, Severed;
    StepGood(s, e);
    SeveredOk(s, e, j);
    var t := Step(s, e).value;
    var signals := NewSignals(s, t);
    var k := Severed(j, t).value;
    StageOf(j.task, j.life);
    StageOf(k.task, k.life);
    CutOffDepends(s, e, j);
    if Depends(j.task) {
      var d := j.origin.value.device;
      GoneIsSignalled(s, e, d);
      PublishedPath(s, d);
      if IsPublished(t, d) { PublishedPath(t, d); }
      GoneHasNone(t, d, j.origin.value.address);
    }
    if LostDevice(j.path) in signals && (k.task.phase == T.Running || k.task.phase == T.Waiting) {
      var f := if k.task.phase == T.Running then T.Cancelled else T.Dropped;
      AdvanceMatches(k, f);
      WeakFromStart(k, f);
      StageOf(Advance(k, f).value.task, Advance(k, f).value.life);
    }
  }

  lemma CutOffDepends(s: State, e: Event, j: Job)
    requires T.Matches(j.task, j.life)
    ensures CutOff(s, e, j) ==> Depends(j.task)
  {
    hide T.Matches, T.Stuck, Withdrawal;
    StageOf(j.task, j.life);
  }

  lemma GoneHasNone(t: State, d: nat, a: string)
    ensures d !in t.devices ==> !HasContext(t, d, a)
  {}

  lemma {:induction false} ReactAllOk(s: State, e: Event, jobs: seq<Job>)
    requires Good(s) && FreshReplies(s, e) && forall k :: 0 <= k < |jobs| ==> JobOk(s, jobs[k])
    ensures Step(s, e).Ok?
    ensures var t := Step(s, e).value;
            var signals := NewSignals(s, t);
            var r := ReactAll(jobs, t, signals);
            && r.Ok? && |r.value| == |jobs|
            && (forall k :: 0 <= k < |jobs| ==> JobOk(t, r.value[k]))
            && (forall k :: 0 <= k < |jobs| ==>
                  (T.Stuck(r.value[k].task) <==>
                   (T.Stuck(jobs[k].task) || CutOff(s, e, jobs[k])) && LostDevice(jobs[k].path) !in signals))
  {
    hide Good, FreshReplies, Step, JobOk, React, NewSignals, T.Stuck, CutOff;
    StepGood(s, e);
    if jobs != [] {
      ReactOk(s, e, jobs[0]);
      ReactAllOk(s, e, jobs[1..]);
    }
  }

  // ----- one happening -----

  /** Job `k` runs, with nothing left that could end it but a cancel. */
  predicate Hanging(s: Service, k: nat) {
    k < |s.jobs| && T.Stuck(s.jobs[k].task)
  }

  /** The context its action was begun on is withdrawn. */
  predicate Strands(s: Service, h: Happening, k: nat) {
    h.Network? && k < |s.jobs| && CutOff(s.registry, h.event, s.jobs[k])
  }

  /** Its client cancels, or its path is announced lost. */
  predicate Frees(s: Service, h: Happening, k: nat) {
    || (h.Progress? && h.job == k && h.step.Cancelled?)
    || (h.Network? && k < |s.jobs| && Step(s.registry, h.event).Ok?
        && LostDevice(s.jobs[k].path) in NewSignals(s.registry, Step(s.registry, h.event).value))
  }

  /** What a job's own progress or start does. */
  lemma AdvanceOk(s: State, j: Job, e: T.Event)
    requires Good(s) && JobOk(s, j) && !e.Started? && !e.ProxyGone?
    ensures Advance(j, e).Ok? && JobOk(s, Advance(j, e).value)
    ensures T.Stuck(Advance(j, e).value.task) <==> T.Stuck(j.task) && !e.Cancelled?
  {
    hide Good, T.Matches, T.Step, T.Stuck, IsPublished, HasContext;
    AdvanceMatches(j, e);
    WeakFromStart(j, e);
    StageOf(j.task, j.life);
    StageOf(Advance(j, e).value.task, Advance(j, e).value.life);
  }

  lemma StartOk(s: State, j: Job, d: nat, value: string, begin: T.Begin)
    requires Good(s) && JobOk(s, j) && j.task.phase == T.Waiting && IsPublished(s, d) && s.devices[d].path == j.path
    ensures s.devices[d].contexts != []
    ensures Advance(j, T.Started(value, begin)).Ok?
    ensures var k := Advance(j, T.Started(value, begin)).value;
            var cs := s.devices[d].contexts;
            var origin := Origin(d, cs[Contexts.Preferred(cs)].ip);
            JobOk(s, k.(origin := Some(origin))) && !T.Stuck(k.task) && !T.Stuck(j.task)
  {
    hide Good, T.Matches, T.Step, T.Stuck, T.Live;
    PublishedPath(s, d);
    var cs := s.devices[d].contexts;
    assert cs[Contexts.Preferred(cs)].ip in Contexts.Ips(cs);
    AdvanceMatches(j, T.Started(value, begin));
    StageOf(j.task, j.life);
    var k := Advance(j, T.Started(value, begin)).value;
    StageOf(k.task, k.life);
    StartedStage(j.life, j.task.synchronous, j.task.hasFormat, value, begin);
  }

  lemma StartedStage(l: T.Life, synchronous: bool, hasFormat: bool, value: string, begin: T.Begin)
    requires l.stage == T.Queued
    ensures var m := T.Live(l, synchronous, hasFormat, T.Started(value, begin)).stage;
            && m != T.Lost
            && (begin.Locally? || begin.InvalidUrl? ==> !m.Open?)
            && (m == T.Open(false) ==> begin.Remotely?)
  {}

  lemma LocalOk(s: State, j: Job, value: string, begin: T.Begin)
    requires JobOk(s, j) && j.task.phase == T.Waiting && (begin.Locally? || begin.InvalidUrl?)
    ensures Advance(j, T.Started(value, begin)).Ok?
    ensures JobOk(s, Advance(j, T.Started(value, begin)).value)
    ensures !T.Stuck(Advance(j, T.Started(value, begin)).value.task) && !T.Stuck(j.task)
  {
    hide T.Matches, T.Step, T.Stuck, T.Live, IsPublished, HasContext;
    AdvanceMatches(j, T.Started(value, begin));
    WeakFromStart(j, T.Started(value, begin));
    StageOf(j.task, j.life);
    var k := Advance(j, T.Started(value, begin)).value;
    StageOf(k.task, k.life);
    StartedStage(j.life, j.task.synchronous, j.task.hasFormat, value, begin);
  }

  /** One thing happens: nothing faults, no download outlives its device, and a job hangs afterwards
      exactly if it did or was stranded now, and neither a cancel nor the loss of its path frees it. */
  lemma HappenOk(s: Service, h: Happening, k: nat)
    requires Safe(s) && FreshHappening(s, h)
    ensures Happen(s, h).Ok? && Safe(Happen(s, h).value)
    ensures Hanging(Happen(s, h).value, k) <==> (Hanging(s, k) || Strands(s, h, k)) && !Frees(s, h, k)
  {
    hide Good, FreshReplies, Step, Advance, IsPublished, ReactAll, NewSignals, T.Stuck, CutOff, JobOk;
    match h
    case Network(e) =>
      StepGood(s.registry, e);
      ReactAllOk(s.registry, e, s.jobs);
    case Request(path, synchronous, hasFormat) =>
      NewJobOk(s.registry, path, synchronous, hasFormat);
    case Begun(i, d, value, begin) =>
      if i < |s.jobs| && s.jobs[i].task.phase == T.Waiting {
        if begin.Remotely? || begin.Downloading? {
          if IsPublished(s.registry, d) {
            PublishedPath(s.registry, d);
            if s.registry.devices[d].path == s.jobs[i].path { StartOk(s.registry, s.jobs[i], d, value, begin); }
          }
        } else {
          LocalOk(s.registry, s.jobs[i], value, begin);
        }
      }
    case Progress(i, e) =>
      if i < |s.jobs| && !e.Started? && !e.ProxyGone? {
        AdvanceOk(s.registry, s.jobs[i], e);
        if s.jobs[i].task.remote == T.Message { DownloadHasDevice(s.registry, s.jobs[i]); }
      }
  }

  lemma NewJobOk(s: State, path: string, synchronous: bool, hasFormat: bool)
    ensures JobOk(s, Job(path, T.New(synchronous, hasFormat), None, T.NewLife()))
    ensures !T.Stuck(T.New(synchronous, hasFormat))
  {}

  lemma DownloadHasDevice(s: State, j: Job)
    requires JobOk(s, j) && j.task.remote == T.Message
    ensures j.origin.Some? && j.origin.value.device in s.devices
  {}

  // ----- runs -----

  /** Over every run of the service, whatever is announced, withdrawn, requested, cancelled and
      answered: nothing faults, so that no download writes into a freed device record. */
  lemma {:induction false} RunOk(s: Service, hs: seq<Happening>)
    requires Safe(s) && FreshHappenings(s, hs)
    ensures HappenAll(s, hs).Ok? && Safe(HappenAll(s, hs).value)
    decreases |hs|
  {
    hide Safe, Happen, FreshHappening;
    if hs != [] {
      HappenOk(s, hs[0], 0);
      RunOk(Happen(s, hs[0]).value, hs[1..]);
    }
  }

  lemma StartSafe()
    ensures Safe(START)
  {
    hide Good;
    InitGood();
  }

  /** Nor is a download outstanding, or an action tied to a proxy, or hanging, for a device that is
      not published any more. */
  lemma JobsSafe(hs: seq<Happening>, k: nat)
    requires FreshHappenings(START, hs)
    ensures HappenAll(START, hs).Ok?
    ensures var s := HappenAll(START, hs).value;
            k < |s.jobs| && Depends(s.jobs[k].task) ==>
              s.jobs[k].origin.Some? && IsPublished(s.registry, s.jobs[k].origin.value.device)
              && s.registry.devices[s.jobs[k].origin.value.device].path == s.jobs[k].path
  {
    hide Good, Happen, FreshHappening, T.Matches, Depends, IsPublished;
    StartSafe();
    RunOk(START, hs);
  }

  /** Whether job `k` hangs after what happens, given whether it did before. */
  predicate StillHangs(s: Service, hs: seq<Happening>, k: nat, before: bool)
    decreases |hs|
  {
    if hs == [] then before
    else
      var t := Happen(s, hs[0]);
      && t.Ok?
      && StillHangs(t.value, hs[1..], k, (before || Strands(s, hs[0], k)) && !Frees(s, hs[0], k))
  }

  /** Over every run a job hangs exactly when the address its action was begun on has been withdrawn
      before it replied, its path has not been announced lost since, and nobody has cancelled. */
  lemma {:induction false} RunHangs(s: Service, hs: seq<Happening>, k: nat)
    requires Safe(s) && FreshHappenings(s, hs)
    ensures HappenAll(s, hs).Ok?
    ensures Hanging(HappenAll(s, hs).value, k) <==> StillHangs(s, hs, k, Hanging(s, k))
    decreases |hs|
  {
    hide Safe, Happen, FreshHappening, Hanging, Strands, Frees;
    if hs != [] {
      HappenOk(s, hs[0], k);
      RunHangs(Happen(s, hs[0]).value, hs[1..], k);
    }
  }
}
