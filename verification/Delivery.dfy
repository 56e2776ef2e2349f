/** What the service makes each client's task see, happening by happening and over runs: a job of the
    service is in exactly the state its own events lead to, and no client of a lost device waits on. */
module Delivery {
  import opened Wrappers
  import opened Registry
  import opened Invariant
  import opened History
  import opened Bus
  import opened Causes
  import opened Joint
  import T = Tasks
  import Contexts

  // ----- what each job gets to see -----

  /** The queue starts the task, on a published device with the path of the job if it needs one. */
  predicate Starts(s: Service, h: Happening, k: nat)
    requires k < |s.jobs|
  {
    && h.Begun? && h.job == k && s.jobs[k].task.phase == T.Waiting
    && (h.begin.Remotely? || h.begin.Downloading? ==>
          IsPublished(s.registry, h.device) && s.registry.devices[h.device].path == s.jobs[k].path)
  }

  /** The signals a happening sends. */
  function Sent(s: Service, h: Happening): seq<Signal> {
    if h.Network? && Step(s.registry, h.event).Ok? then NewSignals(s.registry, Step(s.registry, h.event).value) else []
  }

  /** The service proxy of the job goes with its context. */
  predicate ProxyGoes(s: Service, h: Happening, k: nat)
    requires k < |s.jobs|
  {
    var j := s.jobs[k];
    && h.Network? && j.task.weak && j.origin.Some? && j.origin.value.device in s.registry.devices
    && Withdrawal(s.registry, h.event, j.origin.value.device, j.origin.value.address)
  }

  function LostEvents(phase: T.Phase): seq<T.Event> {
    match phase
    case Waiting => [T.Dropped]
    case Running => [T.Cancelled]
    case _ => []
  }

  /** The events one happening is for job `k`: its start, its own progress, the end of its proxy, and, when
      its path is announced lost, a cancel if it runs and its deletion if it waits. */
  function Delivered(s: Service, h: Happening, k: nat): seq<T.Event>
    requires k < |s.jobs|
  {
    match h
    case Network(_) =>
      (if ProxyGoes(s, h, k) then [T.ProxyGone] else [])
      + (if LostDevice(s.jobs[k].path) !in Sent(s, h) then []
         else LostEvents(s.jobs[k].task.phase))
    case Request(_, _, _) => []
    case Begun(_, _, value, begin) => if Starts(s, h, k) then [T.Started(value, begin)] else []
    case Progress(i, e) => if i == k && !e.Started? && !e.ProxyGone? then [e] else []
  }

  function DeliveredAll(s: Service, hs: seq<Happening>, k: nat): seq<T.Event>
    requires k < |s.jobs|
    decreases |hs|
  {
    if hs == [] then []
    else
      var t := Happen(s, hs[0]);
      Delivered(s, hs[0], k) + if t.Ok? && k < |t.value.jobs| then DeliveredAll(t.value, hs[1..], k) else []
  }

  /** `j` is job `i` after these events. */
  predicate Follows(i: Job, j: Job, events: seq<T.Event>) {
    && j.path == i.path && T.Run(i.task, events) == Ok(j.task)
    && j.life == T.LiveAll(i.life, i.task.synchronous, i.task.hasFormat, events)
  }

  lemma FollowsOne(j: Job, e: T.Event)
    requires Advance(j, e).Ok?
    ensures Follows(j, Advance(j, e).value, [e])
  {
    hide T.Step, T.Live;
    var k := Advance(j, e).value;
    assert [e][1..] == [];
    assert T.Run(k.task, []) == Ok(k.task);
    assert T.LiveAll(k.life, j.task.synchronous, j.task.hasFormat, []) == k.life;
  }

  lemma FollowsNone(j: Job)
    ensures Follows(j, j, [])
  {}

  lemma FollowsThen(i: Job, j: Job, k: Job, es: seq<T.Event>, fs: seq<T.Event>)
    requires T.Matches(i.task, i.life) && Follows(i, j, es) && Follows(j, k, fs)
    ensures Follows(i, k, es + fs)
  {
    hide T.Matches, T.Run, T.LiveAll;
    T.RunRefines(i.task, i.life, es);
    T.RunConcat(i.task, es, fs);
    T.LiveAllConcat(i.life, i.task.synchronous, i.task.hasFormat, es, fs);
  }

  lemma ReactDelivers(s: Service, e: Event, k: nat)
    requires Safe(s) && FreshReplies(s.registry, e) && k < |s.jobs|
    ensures Step(s.registry, e).Ok?
    ensures var t := Step(s.registry, e).value;
            var r := React(s.jobs[k], t, NewSignals(s.registry, t));
            r.Ok? && Follows(s.jobs[k], r.value, Delivered(s, Network(e), k))
  {
    hide Inv, HistoryOk, PathsOk, FreshReplies, Step, NewSignals, T.Matches, T.Stuck, HasContext, Withdrawal, Advance,
         Follows, IsPublished;
    var j := s.jobs[k];
    StepGood(s.registry, e);
    SeveredOk(s.registry, e, j);
    ReactOk(s.registry, e, j);
    StageOf(j.task, j.life);
    var t := Step(s.registry, e).value;
    var m := Severed(j, t).value;
    var gone := if ProxyGoes(s, Network(e), k) then [T.ProxyGone] else [];
    if j.task.weak {
      PublishedPath(s.registry, j.origin.value.device);
      ContextGoes(s.registry, e, j.origin.value.device, j.origin.value.address);
    }
    assert Follows(j, m, gone) by {
      if gone != [] { FollowsOne(j, T.ProxyGone); } else { FollowsNone(j); }
    }
    var r := React(j, t, NewSignals(s.registry, t)).value;
    var rest := if LostDevice(j.path) !in Sent(s, Network(e)) then []
                else if j.task.phase == T.Waiting then [T.Dropped]
                else if j.task.phase == T.Running then [T.Cancelled] else [];
    assert Follows(m, r, rest) by {
      if rest != [] { FollowsOne(m, rest[0]); } else { FollowsNone(m); }
    }
    FollowsThen(j, m, r, gone, rest);
  }

  lemma {:induction false} ReactAllEach(jobs: seq<Job>, t: State, signals: seq<Signal>)
    requires ReactAll(jobs, t, signals).Ok?
    ensures var r := ReactAll(jobs, t, signals).value;
            |r| == |jobs| && forall k :: 0 <= k < |jobs| ==> React(jobs[k], t, signals) == Ok(r[k])
  {
    hide React;
    if jobs != [] { ReactAllEach(jobs[1..], t, signals); }
  }

  /** One happening moves each job by exactly what is delivered to it, the registry by its event, and adds a
      job only for a request. */
  lemma HappenDelivers(s: Service, h: Happening, k: nat)
    requires Safe(s) && FreshHappening(s, h) && k < |s.jobs|
    ensures Happen(s, h).Ok? && k < |Happen(s, h).value.jobs|
    ensures Follows(s.jobs[k], Happen(s, h).value.jobs[k], Delivered(s, h, k))
  {
    hide Good, FreshReplies, Step, Advance, IsPublished, NewSignals, T.Stuck, JobOk, Follows, ProxyGoes, React;
    HappenOk(s, h, k);
    FollowsNone(s.jobs[k]);
    match h
    case Network(e) =>
      ReactDelivers(s, e, k);
      ReactAllEach(s.jobs, Step(s.registry, e).value, NewSignals(s.registry, Step(s.registry, e).value));
    case Request(path, synchronous, hasFormat) =>
    case Begun(i, d, value, begin) =>
      if Starts(s, h, k) { BegunDelivers(s, h); }
    case Progress(i, e) =>
      if i == k && !e.Started? && !e.ProxyGone? {
        AdvanceOk(s.registry, s.jobs[i], e);
        FollowsOne(s.jobs[i], e);
      }
  }

  lemma BegunDelivers(s: Service, h: Happening)
    requires Safe(s) && h.Begun? && h.job < |s.jobs| && Starts(s, h, h.job)
    ensures Happen(s, h).Ok? && |Happen(s, h).value.jobs| == |s.jobs|
    ensures Follows(s.jobs[h.job], Happen(s, h).value.jobs[h.job], [T.Started(h.value, h.begin)])
    ensures var d := h.device;
            h.begin.Remotely? || h.begin.Downloading? ==>
              && d in s.registry.devices && s.registry.devices[d].contexts != []
              && var cs := s.registry.devices[d].contexts;
                 Happen(s, h).value.jobs[h.job].origin == Some(Origin(d, cs[Contexts.Preferred(cs)].ip))
  {
    hide Good, Advance, IsPublished, T.Stuck, JobOk, T.Run, T.LiveAll, Contexts.Preferred;
    var j := s.jobs[h.job];
    if h.begin.Remotely? || h.begin.Downloading? {
      StartOk(s.registry, j, h.device, h.value, h.begin);
      PublishedPath(s.registry, h.device);
    } else {
      LocalOk(s.registry, j, h.value, h.begin);
    }
    FollowsOne(j, T.Started(h.value, h.begin));
  }

  /** What happens to the registry and to the number of jobs. */
  lemma HappenOutside(s: Service, h: Happening)
    requires Happen(s, h).Ok?
    ensures var t := Happen(s, h).value;
            && Ok(t.registry) == (if h.Network? then Step(s.registry, h.event) else Ok(s.registry))
            && |t.jobs| == |s.jobs| + (if h.Request? then 1 else 0)
            && (h.Request? ==>
                  t.jobs[|s.jobs|] == Job(h.path, T.New(h.synchronous, h.hasFormat), None, T.NewLife()))
  {
    hide Step, React, Advance, IsPublished, NewSignals;
    if h.Network? {
      var t := Step(s.registry, h.event).value;
      ReactAllEach(s.jobs, t, NewSignals(s.registry, t));
    }
  }

  /** Over every run the task of a job is in exactly the state its own events lead to, so that all that is
      known of tasks alone holds for the jobs of the service. */
  lemma {:induction false} RunDelivers(s: Service, hs: seq<Happening>, k: nat)
    requires Safe(s) && FreshHappenings(s, hs) && k < |s.jobs|
    ensures HappenAll(s, hs).Ok? && k < |HappenAll(s, hs).value.jobs|
    ensures Follows(s.jobs[k], HappenAll(s, hs).value.jobs[k], DeliveredAll(s, hs, k))
    decreases |hs|
  {
    hide Safe, Happen, FreshHappening, Delivered, Follows, T.Matches, JobOk;
    if hs == [] {
      FollowsNone(s.jobs[k]);
    } else {
      HappenOk(s, hs[0], k);
      HappenDelivers(s, hs[0], k);
      var t := Happen(s, hs[0]).value;
      RunDelivers(t, hs[1..], k);
      JobMatches(s, k);
      FollowsThen(s.jobs[k], t.jobs[k], HappenAll(s, hs).value.jobs[k], Delivered(s, hs[0], k),
                  DeliveredAll(t, hs[1..], k));
    }
  }

  lemma JobMatches(s: Service, k: nat)
    requires Safe(s) && k < |s.jobs|
    ensures T.Matches(s.jobs[k].task, s.jobs[k].life)
  {}

  // ----- when the path is lost -----

  /** The client has its one answer, and the task does not wait any more. */
  predicate Told(j: Job) {
    |j.task.answers| == 1 && j.task.phase != T.Waiting
  }

  /** When its path is announced lost, a task that waits is deleted, its client told that it died unless it
      had cancelled, and one that runs is cancelled and about to complete: no client is left waiting. */
  lemma LostAnswers(s: Service, h: Happening, k: nat)
    requires Safe(s) && FreshHappening(s, h) && k < |s.jobs| && LostDevice(s.jobs[k].path) in Sent(s, h)
    ensures Happen(s, h).Ok? && k < |Happen(s, h).value.jobs|
    ensures var before, after := s.jobs[k].task, Happen(s, h).value.jobs[k].task;
            && Told(Happen(s, h).value.jobs[k])
            && (before.answers != [] ==> after.answers == before.answers)
            && (before.phase == T.Waiting ==>
                  && after.phase == T.Deleted
                  && (before.answers == [] ==> after.answers == [T.Refusal(T.DIED)]))
            && (before.phase == T.Running ==>
                  && after.phase == T.Running && after.idles == 1 && after.remote == T.NoRemote
                  && (before.answers == [] ==> after.answers == [T.Refusal(T.CANCELLED)]))
  {
    hide Good, FreshReplies, Step, NewSignals, JobOk, Happen, ProxyGoes, T.Run;
    HappenDelivers(s, h, k);
    JobMatches(s, k);
    HappenOk(s, h, k);
    JobMatches(Happen(s, h).value, k);
    var i, j := s.jobs[k], Happen(s, h).value.jobs[k];
    var events := Delivered(s, h, k);
    LostLife(i.life, i.task.synchronous, i.task.hasFormat, events, i.task.phase);
    T.RunRefines(i.task, i.life, events);
    SeenOf(i.task, i.life);
    SeenOf(j.task, j.life);
  }

  /** What the record shows of the client's view. */
  lemma SeenOf(t: T.Task, l: T.Life)
    requires T.Matches(t, l)
    ensures t.answers == if l.answer.Some? then [l.answer.value] else []
    ensures t.phase == T.Waiting <==> l.stage == T.Queued
    ensures t.phase == T.Running <==> l.stage.Open? || l.stage == T.Lost || l.stage.Decided?
    ensures t.phase == T.Deleted <==> l.stage == T.Gone
    ensures l.stage.Decided? ==> t.idles == 1 && t.remote == T.NoRemote
    ensures l.stage == T.Gone || l.stage == T.Over ==> l.answer.Some?
    ensures t.phase == T.Finished ==> l.stage == T.Over
  {}

  lemma LostLife(l: T.Life, synchronous: bool, hasFormat: bool, events: seq<T.Event>, phase: T.Phase)
    requires phase == T.Waiting <==> l.stage == T.Queued
    requires phase == T.Running <==> l.stage.Open? || l.stage == T.Lost || l.stage.Decided?
    requires events == [T.ProxyGone] + LostEvents(phase) || events == [] + LostEvents(phase)
    ensures var m := T.LiveAll(l, synchronous, hasFormat, events);
            && (l.stage == T.Queued ==> m == T.Life(T.Gone, T.First(l.answer, T.Refusal(T.DIED))))
            && (phase == T.Running ==> m.stage.Decided? && m.answer == T.First(l.answer, T.Refusal(T.CANCELLED)))
            && (l.stage == T.Over || l.stage == T.Gone ==> m == l)
  {
    var rest := LostEvents(phase);
    var m := if events == [] + rest then l else T.Live(l, synchronous, hasFormat, T.ProxyGone);
    if events != [] + rest { assert events[0] == T.ProxyGone && events[1..] == rest; }
    assert T.LiveAll(l, synchronous, hasFormat, events) == T.LiveAll(m, synchronous, hasFormat, rest);
    if rest != [] {
      assert rest[1..] == [];
      assert T.LiveAll(m, synchronous, hasFormat, rest) == T.Live(m, synchronous, hasFormat, rest[0]);
    }
  }

  /** Answers are final, and a started or deleted task does not wait again. */
  lemma ToldStays(i: Job, j: Job, events: seq<T.Event>)
    requires T.Matches(i.task, i.life) && T.Matches(j.task, j.life) && Follows(i, j, events) && Told(i)
    ensures Told(j)
  {
    hide T.Matches, T.Run, T.LiveAll;
    SeenOf(i.task, i.life);
    SeenOf(j.task, j.life);
    T.FirstAnswerStands(i.life, i.task.synchronous, i.task.hasFormat, events);
    T.WaitsExactly(i.life, i.task.synchronous, i.task.hasFormat, events);
  }

  lemma FollowsPath(i: Job, j: Job, events: seq<T.Event>)
    requires Follows(i, j, events)
    ensures j.path == i.path
  {}

  lemma SignalsGrow(s: Service, h: Happening)
    requires Safe(s) && FreshHappening(s, h)
    ensures Happen(s, h).Ok? && s.registry.signals + Sent(s, h) == Happen(s, h).value.registry.signals
  {
    hide Inv, HistoryOk, FreshReplies, Step, Happen, JobOk;
    HappenOk(s, h, 0);
    HappenOutside(s, h);
    if h.Network? {
      StepGood(s.registry, h.event);
      StepLogs(s.registry, h.event);
      var t := Step(s.registry, h.event).value;
      var more := t.log[|s.registry.log|..];
      assert t.log == s.registry.log + more;
      SignalsConcat(s.registry.log, more);
    }
  }

  /** Over every run: once the path of a job has been announced lost, its client has been answered and the
      job does not wait, whatever else happened before or since. */
  lemma {:induction false} LostIsAnswered(s: Service, hs: seq<Happening>, k: nat)
    requires Safe(s) && FreshHappenings(s, hs) && k < |s.jobs|
    ensures HappenAll(s, hs).Ok? && k < |HappenAll(s, hs).value.jobs|
    ensures s.registry.signals <= HappenAll(s, hs).value.registry.signals
    ensures var t := HappenAll(s, hs).value;
            LostDevice(s.jobs[k].path) in NewSignals(s.registry, t.registry) ==> Told(t.jobs[k])
    decreases |hs|
  {
    hide Safe, Happen, FreshHappening, Sent, Follows, Told, T.Matches, JobOk;
    if hs != [] {
      var h := hs[0];
      HappenOk(s, h, k);
      var t := Happen(s, h).value;
      SignalsGrow(s, h);
      HappenDelivers(s, h, k);
      LostIsAnswered(t, hs[1..], k);
      var u := HappenAll(s, hs).value;
      FollowsPath(s.jobs[k], t.jobs[k], Delivered(s, h, k));
      if LostDevice(s.jobs[k].path) in Sent(s, h) {
        LostAnswers(s, h, k);
        RunDelivers(t, hs[1..], k);
        RunOk(t, hs[1..]);
        JobMatches(t, k);
        JobMatches(u, k);
        ToldStays(t.jobs[k], u.jobs[k], DeliveredAll(t, hs[1..], k));
      }
    }
  }
}
