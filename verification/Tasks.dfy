/** One client invocation: the task record, the asynchronous operation behind it and the callbacks
    that finish it. A callback that reaches a freed record, frees one twice, or completes a task
    that is not running is a `Fault`. */
module Tasks {
  import opened Wrappers

  datatype Error = CANCELLED | DIED | Other(code: nat)

  /** What the invoking client receives. */
  datatype Answer = Response(result: Option<string>) | Refusal(error: Error)

  /** Where the task is in its queue. */
  datatype Phase = Waiting | Running | Finished | Deleted

  /** The handler connected to the task's cancellable. */
  datatype Handler = NoHandler | ActionHandler | DownloadHandler

  /** The remote operation that may still call back. */
  datatype Remote = NoRemote | Action | Message

  datatype Download = NoDownload | Allocated | Freed

  /** `invocation` is cleared once the client has its answer; `weak` says that the service proxy
      will clear `proxy` when it goes away; `idles` counts the idle sources that name this task,
      and `callbacks` the runs of its completion callback. */
  datatype Task = Task(
    synchronous: bool,
    hasFormat: bool,
    phase: Phase,
    invocation: bool,
    result: Option<string>,
    error: Option<Error>,
    cancellable: bool,
    cancelled: bool,
    handler: Handler,
    remote: Remote,
    proxy: bool,
    weak: bool,
    download: Download,
    idles: nat,
    callbacks: nat,
    answers: seq<Answer>)

  function New(synchronous: bool, hasFormat: bool): Task {
    Task(synchronous, hasFormat, Waiting, true, None, None, false, false, NoHandler, NoRemote, false, false,
         NoDownload, 0, 0, [])
  }

  // ----- answering the client -----

  function Answered(t: Task, a: Answer): Task {
    if t.invocation then t.(invocation := false, answers := t.answers + [a]) else t
  }

  function Complete(t: Task): Task {
    Answered(t, Response(if t.hasFormat then t.result else None))
  }

  function Fail(t: Task, e: Error): Task {
    Answered(t, Refusal(e))
  }

  // ----- cancelling -----

  function OnCancelled(t: Task): Task {
    t.(remote := if t.proxy then NoRemote else t.remote,
       error := if t.error.None? then Some(CANCELLED) else t.error,
       idles := t.idles + 1)
  }

  function FreeDownload(t: Task): Outcome<Task> {
    if t.download != Allocated then Fault else Ok(t.(download := Freed))
  }

  datatype Status = StatusCancelled | Success(body: string) | Failure(code: nat)

  /** The download callback. */
  function OnSession(t: Task, status: Status): Outcome<Task> {
    var u := t.(remote := NoRemote);
    match status
    case StatusCancelled => FreeDownload(u)
    case Success(body) =>
      if t.download != Allocated then Fault
      else FreeDownload(u.(result := Some(body), idles := u.idles + 1, handler := NoHandler))
    case Failure(code) =>
      if t.download != Allocated then Fault
      else FreeDownload(u.(error := Some(Other(code)), idles := u.idles + 1, handler := NoHandler))
  }

  /** Cancelling a queued message calls the download callback before it returns. */
  function OnIconCancelled(t: Task): Outcome<Task> {
    if t.download != Allocated then Fault
    else
      var u := OnCancelled(t);
      if u.remote == Message then OnSession(u, StatusCancelled) else Ok(u)
  }

  /** A cancellable calls its handlers the first time it is cancelled. */
  function FireCancellable(t: Task): Outcome<Task> {
    if t.cancelled then Ok(t)
    else
      var u := t.(cancelled := true);
      match u.handler
      case NoHandler => Ok(u)
      case ActionHandler => Ok(OnCancelled(u))
      case DownloadHandler => OnIconCancelled(u)
  }

  function Cancel(t: Task): Outcome<Task> {
    var u := Answered(t, Refusal(CANCELLED));
    if !u.synchronous && u.cancellable then FireCancellable(u) else Ok(u)
  }

  // ----- starting -----

  /** How an operation ends: with its result or its error. */
  datatype Ending = Result(value: string) | Failed(code: nat)

  /** How an operation begins: answered from what is at hand (or refused), as a service action, as
      an icon download, or as a download whose URL turns out to be invalid. */
  datatype Begin =
    | Locally(ending: Ending)
    | Remotely
    | Downloading
    | InvalidUrl(code: nat)

  function Settled(t: Task, o: Ending): Task {
    match o
    case Result(value) => t.(result := Some(value))
    case Failed(code) => t.(error := Some(Other(code)))
  }

  function Start(t: Task, value: string, begin: Begin): Task {
    if t.synchronous then Complete(t.(result := Some(value))).(phase := Finished)
    else
      var u := t.(cancellable := true, phase := Running);
      match begin
      case Locally(o) => Settled(u, o).(idles := u.idles + 1)
      case Remotely => u.(handler := ActionHandler, proxy := true, weak := true, remote := Action)
      case Downloading => u.(handler := DownloadHandler, download := Allocated, remote := Message)
      case InvalidUrl(code) => u.(download := Freed, error := Some(Other(code)), idles := u.idles + 1)
  }

  // ----- finishing -----

  function OnAction(t: Task, o: Ending): Task {
    Settled(t, o).(remote := NoRemote, idles := t.idles + 1, handler := NoHandler)
  }

  /** The completion callback answers the client and tells the queue. */
  function OnComplete(t: Task): Task {
    (if t.error.Some? then Fail(t, t.error.value) else Complete(t)).(phase := Finished)
  }

  /** The idle callback. */
  function OnIdle(t: Task): Outcome<Task>
    requires t.idles > 0
  {
    if t.phase != Running then Fault
    else Ok(OnComplete(t.(idles := t.idles - 1, weak := t.weak && !t.proxy, callbacks := t.callbacks + 1)))
  }

  function Delete(t: Task): Outcome<Task> {
    if t.phase == Deleted then Fault
    else Ok((if t.invocation then t.(answers := t.answers + [Refusal(DIED)]) else t).(phase := Deleted))
  }

  /** The service proxy goes away, taking its outstanding action with it. */
  function OnProxyGone(t: Task): Outcome<Task> {
    if !t.weak then Ok(t)
    else if t.phase == Deleted then Fault
    else Ok(t.(proxy := false, weak := false, remote := if t.remote == Action then NoRemote else t.remote))
  }

  // ----- the transition system -----

  datatype Event =
    | Started(value: string, begin: Begin)
    | ActionReply(ending: Ending)
    | DownloadReply(ending: Ending)
    | ProxyGone
    | Cancelled
    | IdleTurn
    | Dropped

  /** An event that cannot occur in a state does nothing: the queue starts a task once, cancels no
      deleted task and deletes none that is running; only an outstanding operation replies, and
      only a scheduled idle source runs. */
  function Step(t: Task, e: Event): Outcome<Task> {
    match e
    case Started(value, begin) => if t.phase == Waiting then Ok(Start(t, value, begin)) else Ok(t)
    case ActionReply(o) => if t.remote == Action then Ok(OnAction(t, o)) else Ok(t)
    case DownloadReply(o) =>
      if t.remote == Message then
        OnSession(t, match o case Result(body) => Success(body) case Failed(code) => Failure(code))
      else Ok(t)
    case ProxyGone => OnProxyGone(t)
    case Cancelled => if t.phase == Deleted then Ok(t) else Cancel(t)
    case IdleTurn => if t.idles > 0 then OnIdle(t) else Ok(t)
    case Dropped => if t.phase == Waiting || t.phase == Finished then Delete(t) else Ok(t)
  }

  function Run(t: Task, events: seq<Event>): Outcome<Task>
    decreases |events|
  {
    if events == [] then Ok(t)
    else
      var u :- Step(t, events[0]);
      Run(u, events[1..])
  }

  // ----- the reference -----

  /** The life of an invocation as its client sees it: `Open` while the operation may still reply,
      `Lost` once it no longer can, `Decided` once the outcome is fixed. */
  datatype Stage =
    | Queued
    | Open(download: bool)
    | Lost
    | Decided(outcome: Answer)
    | Over
    | Gone

  datatype Life = Life(stage: Stage, answer: Option<Answer>)

  function First(a: Option<Answer>, b: Answer): Option<Answer> {
    if a.Some? then a else Some(b)
  }

  function AnswerOf(hasFormat: bool, o: Ending): Answer {
    match o
    case Result(value) => Response(if hasFormat then Some(value) else None)
    case Failed(code) => Refusal(Other(code))
  }

  function Live(l: Life, synchronous: bool, hasFormat: bool, e: Event): Life {
    match e
    case Started(value, begin) =>
      if l.stage != Queued then l
      else if synchronous then Life(Over, First(l.answer, AnswerOf(hasFormat, Result(value))))
      else
        l.(stage := match begin
                    case Locally(o) => Decided(AnswerOf(hasFormat, o))
                    case Remotely => Open(false)
                    case Downloading => Open(true)
                    case InvalidUrl(code) => Decided(Refusal(Other(code))))
    case ActionReply(o) => if l.stage == Open(false) then l.(stage := Decided(AnswerOf(hasFormat, o))) else l
    case DownloadReply(o) => if l.stage == Open(true) then l.(stage := Decided(AnswerOf(hasFormat, o))) else l
    case ProxyGone => if l.stage == Open(false) then l.(stage := Lost) else l
    case Cancelled =>
      if l.stage == Gone then l
      else
        Life(if l.stage.Open? || l.stage == Lost then Decided(Refusal(CANCELLED)) else l.stage,
             First(l.answer, Refusal(CANCELLED)))
    case IdleTurn => if l.stage.Decided? then Life(Over, First(l.answer, l.stage.outcome)) else l
    case Dropped => if l.stage == Queued || l.stage == Over then Life(Gone, First(l.answer, Refusal(DIED))) else l
  }

  function LiveAll(l: Life, synchronous: bool, hasFormat: bool, events: seq<Event>): Life
    decreases |events|
  {
    if events == [] then l
    else LiveAll(Live(l, synchronous, hasFormat, events[0]), synchronous, hasFormat, events[1..])
  }

  // ----- the refinement -----

  /** What the client will be told when the completion callback runs now. */
  function Verdict(t: Task): Answer {
    if t.error.Some? then Refusal(t.error.value) else Response(if t.hasFormat then t.result else None)
  }

  /** Nothing is outstanding and no handler can fire any more. */
  predicate Quiet(t: Task) {
    t.remote == NoRemote && t.download != Allocated && (t.cancelled || t.handler == NoHandler)
  }

  predicate Matches(t: Task, l: Life) {
    && t.answers == (if l.answer.Some? then [l.answer.value] else [])
    && (t.phase != Deleted ==> (t.invocation <==> l.answer.None?))
    && (t.weak ==> t.proxy)
    && match l.stage
       case Queued =>
         t == New(t.synchronous, t.hasFormat).(invocation := t.invocation, answers := t.answers)
       case Open(download) =>
         && t.phase == Running && !t.synchronous && t.cancellable && !t.cancelled
         && t.error.None? && t.result.None? && t.idles == 0 && t.callbacks == 0
         && t.proxy == t.weak == !download
         && (if download then t.handler == DownloadHandler && t.remote == Message && t.download == Allocated
             else t.handler == ActionHandler && t.remote == Action && t.download == NoDownload)
       case Lost =>
         && t.phase == Running && !t.synchronous && t.cancellable && !t.cancelled
         && t.error.None? && t.result.None? && t.idles == 0 && t.callbacks == 0
         && !t.proxy && t.handler == ActionHandler && t.remote == NoRemote && t.download == NoDownload
       case Decided(outcome) =>
         && t.phase == Running && !t.synchronous && t.cancellable && Quiet(t)
         && t.idles == 1 && t.callbacks == 0 && outcome == Verdict(t)
       case Over =>
         && t.phase == Finished && Quiet(t) && t.idles == 0 && !t.weak && l.answer.Some?
         && t.callbacks == (if t.synchronous then 0 else 1)
       case Gone =>
         && t.phase == Deleted && Quiet(t) && t.idles == 0 && !t.weak && t.callbacks <= 1 && l.answer.Some?
  }

  function NewLife(): Life {
    Life(Queued, None)
  }

  /** Whether an event fixes the outcome. */
  predicate Decides(l: Life, synchronous: bool, hasFormat: bool, e: Event) {
    !l.stage.Decided? && Live(l, synchronous, hasFormat, e).stage.Decided?
  }

  /** One event: no fault, the reference keeps up, and the completion callback is scheduled exactly
      when the outcome is fixed. */
  predicate Refines(t: Task, l: Life, e: Event) {
    && Step(t, e).Ok?
    && var u := Step(t, e).value;
       && Matches(u, Live(l, t.synchronous, t.hasFormat, e))
       && u.synchronous == t.synchronous && u.hasFormat == t.hasFormat
       && u.callbacks + u.idles == t.callbacks + t.idles + if Decides(l, t.synchronous, t.hasFormat, e) then 1 else 0
  }

  lemma StartSyncRefines(t: Task, l: Life, value: string, begin: Begin)
    requires Matches(t, l) && (t.synchronous || t.phase != Waiting)
    ensures Refines(t, l, Started(value, begin))
  {
    hide Cancel, OnSession, OnAction, OnComplete, OnIdle, Delete, OnProxyGone;
  }

  lemma StartRemoteRefines(t: Task, l: Life, value: string, begin: Begin)
    requires Matches(t, l) && !t.synchronous && t.phase == Waiting && (begin.Remotely? || begin.Downloading?)
    ensures Refines(t, l, Started(value, begin))
  {
    hide Complete, Settled, AnswerOf, Cancel, OnSession, OnAction, OnComplete, OnIdle, Delete, OnProxyGone;
  }

  lemma StartLocalRefines(t: Task, l: Life, value: string, begin: Begin)
    requires Matches(t, l) && !t.synchronous && t.phase == Waiting && (begin.Locally? || begin.InvalidUrl?)
    ensures Refines(t, l, Started(value, begin))
  {
    hide Complete, Cancel, OnSession, OnAction, OnComplete, OnIdle, Delete, OnProxyGone;
  }

  lemma ActionRefines(t: Task, l: Life, ending: Ending)
    requires Matches(t, l)
    ensures Refines(t, l, ActionReply(ending))
  {}

  lemma DownloadRefines(t: Task, l: Life, ending: Ending)
    requires Matches(t, l)
    ensures Refines(t, l, DownloadReply(ending))
  {}

  /** Including the download callback that runs inside the cancellation. */
  lemma CancelDownloadRefines(t: Task, l: Life)
    requires Matches(t, l) && l.stage == Open(true)
    ensures Refines(t, l, Cancelled)
  {
    hide Start, OnAction, OnComplete, OnIdle, Delete, OnProxyGone, AnswerOf;
  }

  lemma CancelActionRefines(t: Task, l: Life)
    requires Matches(t, l) && (l.stage == Open(false) || l.stage == Lost)
    ensures Refines(t, l, Cancelled)
  {
    hide Start, OnAction, OnComplete, OnIdle, Delete, OnProxyGone, AnswerOf, OnSession;
  }

  /** No handler fires any more. */
  lemma CancelQuietRefines(t: Task, l: Life)
    requires Matches(t, l) && !l.stage.Open? && l.stage != Lost
    ensures Refines(t, l, Cancelled)
  {
    hide Start, OnAction, OnComplete, OnIdle, Delete, OnProxyGone, AnswerOf, OnSession, OnCancelled;
  }

  lemma ProxyRefines(t: Task, l: Life)
    requires Matches(t, l)
    ensures Refines(t, l, ProxyGone)
  {}

  lemma IdleRefines(t: Task, l: Life)
    requires Matches(t, l)
    ensures Refines(t, l, IdleTurn)
  {
    hide Start, Cancel, OnSession, OnAction, Delete, OnProxyGone, AnswerOf;
  }

  lemma DropRefines(t: Task, l: Life)
    requires Matches(t, l)
    ensures Refines(t, l, Dropped)
  {}

  lemma StepRefines(t: Task, l: Life, e: Event)
    requires Matches(t, l)
    ensures Refines(t, l, e)
  {
    hide Matches, Step, Live;
    match e
    case Started(value, begin) =>
      if t.synchronous || t.phase != Waiting { StartSyncRefines(t, l, value, begin); }
      else if begin.Remotely? || begin.Downloading? { StartRemoteRefines(t, l, value, begin); }
      else { StartLocalRefines(t, l, value, begin); }
    case ActionReply(ending) => ActionRefines(t, l, ending);
    case DownloadReply(ending) => DownloadRefines(t, l, ending);
    case Cancelled =>
      if l.stage == Open(true) { CancelDownloadRefines(t, l); }
      else if l.stage.Open? || l.stage == Lost { CancelActionRefines(t, l); }
      else { CancelQuietRefines(t, l); }
    case ProxyGone => ProxyRefines(t, l);
    case IdleTurn => IdleRefines(t, l);
    case Dropped => DropRefines(t, l);
  }

  /** How often the outcome is fixed over a run. */
  function Decisions(l: Life, synchronous: bool, hasFormat: bool, events: seq<Event>): nat
    decreases |events|
  {
    if events == [] then 0
    else
      (if Decides(l, synchronous, hasFormat, events[0]) then 1 else 0)
      + Decisions(Live(l, synchronous, hasFormat, events[0]), synchronous, hasFormat, events[1..])
  }

  /** For every sequence of events: no fault, the client has been told exactly what the reference
      says, and the completion callback has been scheduled once for each time the outcome was
      fixed. */
  lemma {:induction false} RunRefines(t: Task, l: Life, events: seq<Event>)
    requires Matches(t, l)
    ensures Run(t, events).Ok?
    ensures var u := Run(t, events).value;
            && Matches(u, LiveAll(l, t.synchronous, t.hasFormat, events))
            && u.synchronous == t.synchronous && u.hasFormat == t.hasFormat
            && u.callbacks + u.idles == t.callbacks + t.idles + Decisions(l, t.synchronous, t.hasFormat, events)
    decreases |events|
  {
    hide Matches, Step, Live, Decides;
    if events != [] {
      StepRefines(t, l, events[0]);
      RunRefines(Step(t, events[0]).value, Live(l, t.synchronous, t.hasFormat, events[0]), events[1..]);
    }
  }

  // ----- the main results -----

  lemma {:induction false} RunConcat(t: Task, es: seq<Event>, fs: seq<Event>)
    requires Run(t, es).Ok?
    ensures Run(t, es + fs) == Run(Run(t, es).value, fs)
    decreases |es|
  {
    if es == [] {
      assert es + fs == fs;
    } else {
      assert (es + fs)[1..] == es[1..] + fs;
      RunConcat(Step(t, es[0]).value, es[1..], fs);
    }
  }

  /** Nothing fixes the outcome again. */
  lemma {:induction false} NeverAgain(l: Life, synchronous: bool, hasFormat: bool, events: seq<Event>)
    requires l.stage.Decided? || l.stage == Over || l.stage == Gone
    ensures Decisions(l, synchronous, hasFormat, events) == 0
    decreases |events|
  {
    if events != [] {
      NeverAgain(Live(l, synchronous, hasFormat, events[0]), synchronous, hasFormat, events[1..]);
    }
  }

  lemma {:induction false} DecidedOnce(l: Life, synchronous: bool, hasFormat: bool, events: seq<Event>)
    ensures Decisions(l, synchronous, hasFormat, events) <= 1
    decreases |events|
  {
    if events != [] {
      var m := Live(l, synchronous, hasFormat, events[0]);
      if Decides(l, synchronous, hasFormat, events[0]) {
        NeverAgain(m, synchronous, hasFormat, events[1..]);
      } else {
        DecidedOnce(m, synchronous, hasFormat, events[1..]);
      }
    }
  }

  /** For every interleaving of replies, cancels, proxy losses, idle turns and deletions: the
      completion callback is scheduled or has run at most once altogether, and exactly once from
      the moment the outcome is fixed; a finished operation has run it and holds no download. */
  lemma CompletedExactlyOnce(synchronous: bool, hasFormat: bool, events: seq<Event>)
    ensures Run(New(synchronous, hasFormat), events).Ok?
    ensures var t := Run(New(synchronous, hasFormat), events).value;
            var stage := LiveAll(NewLife(), synchronous, hasFormat, events).stage;
            && t.callbacks + t.idles == Decisions(NewLife(), synchronous, hasFormat, events) <= 1
            && (t.phase == Running ==> t.idles == if stage.Decided? then 1 else 0)
            && (t.phase == Finished && !synchronous ==> t.callbacks == 1)
            && (t.download == Allocated <==> stage == Open(true))
  {
    RunRefines(New(synchronous, hasFormat), NewLife(), events);
    DecidedOnce(NewLife(), synchronous, hasFormat, events);
  }

  /** The client hears at most once, exactly once by the time the task is deleted, and what it
      hears is what the reference recorded first. */
  lemma AnsweredExactlyOnce(synchronous: bool, hasFormat: bool, events: seq<Event>)
    ensures Run(New(synchronous, hasFormat), events).Ok?
    ensures var t := Run(New(synchronous, hasFormat), events).value;
            var answer := LiveAll(NewLife(), synchronous, hasFormat, events).answer;
            && |t.answers| <= 1
            && (t.answers == [] <==> answer.None?)
            && (t.answers != [] ==> t.answers == [answer.value])
            && (t.phase == Deleted ==> |t.answers| == 1)
            && (t.phase == Finished ==> |t.answers| == 1)
  {
    RunRefines(New(synchronous, hasFormat), NewLife(), events);
  }

  /** The first answer stands. */
  lemma {:induction false} FirstAnswerStands(l: Life, synchronous: bool, hasFormat: bool, events: seq<Event>)
    requires l.answer.Some?
    ensures LiveAll(l, synchronous, hasFormat, events).answer == l.answer
    decreases |events|
  {
    if events != [] {
      FirstAnswerStands(Live(l, synchronous, hasFormat, events[0]), synchronous, hasFormat, events[1..]);
    }
  }

  /** A task waits exactly until its queue starts or deletes it. */
  lemma {:induction false} WaitsExactly(l: Life, synchronous: bool, hasFormat: bool, events: seq<Event>)
    ensures LiveAll(l, synchronous, hasFormat, events).stage == Queued <==>
            l.stage == Queued && forall e :: e in events ==> !e.Started? && !e.Dropped?
    decreases |events|
  {
    if events != [] {
      WaitsExactly(Live(l, synchronous, hasFormat, events[0]), synchronous, hasFormat, events[1..]);
      assert forall e :: e in events <==> e == events[0] || e in events[1..];
    }
  }

  lemma {:induction false} LiveAllConcat(l: Life, synchronous: bool, hasFormat: bool, es: seq<Event>, fs: seq<Event>)
    ensures LiveAll(l, synchronous, hasFormat, es + fs)
         == LiveAll(LiveAll(l, synchronous, hasFormat, es), synchronous, hasFormat, fs)
    decreases |es|
  {
    if es == [] {
      assert es + fs == fs;
    } else {
      assert (es + fs)[1..] == es[1..] + fs;
      LiveAllConcat(Live(l, synchronous, hasFormat, es[0]), synchronous, hasFormat, es[1..], fs);
    }
  }

  /** A task cancelled before it was answered is refused as cancelled, whatever happens next: a
      completion that is still scheduled sends nothing. */
  lemma CancelledFirst(synchronous: bool, hasFormat: bool, before: seq<Event>, after: seq<Event>)
    requires Run(New(synchronous, hasFormat), before).Ok?
    requires Run(New(synchronous, hasFormat), before).value.answers == []
    ensures Run(New(synchronous, hasFormat), before + [Cancelled] + after).Ok?
    ensures Run(New(synchronous, hasFormat), before + [Cancelled] + after).value.answers == [Refusal(CANCELLED)]
  {
    var t, l := New(synchronous, hasFormat), LiveAll(NewLife(), synchronous, hasFormat, before);
    AnsweredExactlyOnce(synchronous, hasFormat, before);
    RunRefines(t, NewLife(), before);
    var m := Live(l, synchronous, hasFormat, Cancelled);
    assert m.answer == Some(Refusal(CANCELLED));
    FirstAnswerStands(m, synchronous, hasFormat, after);
    LiveAllConcat(NewLife(), synchronous, hasFormat, before, [Cancelled] + after);
    assert ([Cancelled] + after)[1..] == after;
    assert before + [Cancelled] + after == before + ([Cancelled] + after);
    AnsweredExactlyOnce(synchronous, hasFormat, before + [Cancelled] + after);
  }

  // ----- a reply reaches the client -----

  lemma {:induction false} StaysQueued(l: Life, synchronous: bool, hasFormat: bool, events: seq<Event>)
    requires l.stage == Queued && forall e :: e in events ==> !e.Started? && !e.Dropped? && !e.Cancelled?
    ensures LiveAll(l, synchronous, hasFormat, events) == l
    decreases |events|
  {
    if events != [] {
      assert events[0] in events;
      StaysQueued(l, synchronous, hasFormat, events[1..]);
    }
  }

  lemma {:induction false} StaysOpen(l: Life, hasFormat: bool, download: bool, events: seq<Event>)
    requires l.stage == Open(download)
    requires forall e :: e in events ==>
               !e.Cancelled? && (if download then !e.DownloadReply? else !e.ActionReply? && !e.ProxyGone?)
    ensures LiveAll(l, false, hasFormat, events) == l
    decreases |events|
  {
    if events != [] {
      assert events[0] in events;
      StaysOpen(l, hasFormat, download, events[1..]);
    }
  }

  lemma {:induction false} DecidedIsTold(l: Life, hasFormat: bool, events: seq<Event>)
    requires l.stage.Decided? && l.answer.None? && IdleTurn in events && Cancelled !in events
    ensures LiveAll(l, false, hasFormat, events).answer == Some(l.stage.outcome)
    decreases |events|
  {
    var m := Live(l, false, hasFormat, events[0]);
    if events[0] == IdleTurn {
      FirstAnswerStands(m, false, hasFormat, events[1..]);
    } else {
      assert m == l;
      DecidedIsTold(m, hasFormat, events[1..]);
    }
  }

  /** An operation that begins remotely, gets its reply before anything else ends it, and then its idle
      turn, tells the client just what the reply says, unless it is cancelled: whatever else happens. */
  lemma ReplyReaches(hasFormat: bool, download: bool, ending: Ending, value: string, before: seq<Event>,
                     between: seq<Event>, after: seq<Event>)
    requires forall e :: e in before ==> !e.Started? && !e.Dropped? && !e.Cancelled?
    requires forall e :: e in between ==>
               !e.Cancelled? && (if download then !e.DownloadReply? else !e.ActionReply? && !e.ProxyGone?)
    requires IdleTurn in after && Cancelled !in after
    ensures var start := Started(value, if download then Downloading else Remotely);
            var reply := if download then DownloadReply(ending) else ActionReply(ending);
            var r := Run(New(false, hasFormat), before + ([start] + (between + ([reply] + after))));
            && r.Ok?
            && r.value.answers == match ending
                                  case Failed(code) => [Refusal(Other(code))]
                                  case Result(text) => [Response(if hasFormat then Some(text) else None)]
  {
    hide Matches, Run;
    var start := Started(value, if download then Downloading else Remotely);
    var reply := if download then DownloadReply(ending) else ActionReply(ending);
    var events := before + ([start] + (between + ([reply] + after)));
    var l0 := NewLife();
    StaysQueued(l0, false, hasFormat, before);
    LiveAllConcat(l0, false, hasFormat, before, [start] + (between + ([reply] + after)));
    var l1 := Live(l0, false, hasFormat, start);
    assert ([start] + (between + ([reply] + after)))[1..] == between + ([reply] + after);
    StaysOpen(l1, hasFormat, download, between);
    LiveAllConcat(l1, false, hasFormat, between, [reply] + after);
    var l2 := Live(l1, false, hasFormat, reply);
    assert ([reply] + after)[1..] == after;
    DecidedIsTold(l2, hasFormat, after);
    assert LiveAll(l0, false, hasFormat, events) == LiveAll(l2, false, hasFormat, after);
    AnsweredExactlyOnce(false, hasFormat, events);
  }

  /** So does one that ends where it begins, and one with an invalid URL. */
  lemma LocalReaches(hasFormat: bool, begin: Begin, value: string, before: seq<Event>, after: seq<Event>)
    requires begin.Locally? || begin.InvalidUrl?
    requires forall e :: e in before ==> !e.Started? && !e.Dropped? && !e.Cancelled?
    requires IdleTurn in after && Cancelled !in after
    ensures var r := Run(New(false, hasFormat), before + ([Started(value, begin)] + after));
            && r.Ok?
            && r.value.answers == match begin
                                  case InvalidUrl(code) => [Refusal(Other(code))]
                                  case Locally(Failed(code)) => [Refusal(Other(code))]
                                  case Locally(Result(text)) => [Response(if hasFormat then Some(text) else None)]
  {
    hide Matches, Run;
    var start := Started(value, begin);
    var l0 := NewLife();
    StaysQueued(l0, false, hasFormat, before);
    LiveAllConcat(l0, false, hasFormat, before, [start] + after);
    assert ([start] + after)[1..] == after;
    DecidedIsTold(Live(l0, false, hasFormat, start), hasFormat, after);
    AnsweredExactlyOnce(false, hasFormat, before + ([start] + after));
  }

  /** A synchronous task answers where it starts. */
  lemma SyncReaches(hasFormat: bool, begin: Begin, value: string, before: seq<Event>, after: seq<Event>)
    requires forall e :: e in before ==> !e.Started? && !e.Dropped? && !e.Cancelled?
    ensures var r := Run(New(true, hasFormat), before + ([Started(value, begin)] + after));
            r.Ok? && r.value.answers == [Response(if hasFormat then Some(value) else None)]
  {
    hide Matches, Run;
    var start := Started(value, begin);
    var l0 := NewLife();
    StaysQueued(l0, true, hasFormat, before);
    LiveAllConcat(l0, true, hasFormat, before, [start] + after);
    assert ([start] + after)[1..] == after;
    FirstAnswerStands(Live(l0, true, hasFormat, start), true, hasFormat, after);
    AnsweredExactlyOnce(true, hasFormat, before + ([start] + after));
  }

  // ----- operations that never finish -----

  /** An operation whose service proxy has gone away is finished by a cancel and by nothing else. */
  lemma {:induction false} LostUntilCancelled(l: Life, synchronous: bool, hasFormat: bool, events: seq<Event>)
    requires l.stage == Lost
    ensures LiveAll(l, synchronous, hasFormat, events).stage == Lost <==> Cancelled !in events
    ensures Live(l, synchronous, hasFormat, Cancelled).stage == Decided(Refusal(CANCELLED))
    decreases |events|
  {
    if events != [] {
      var m := Live(l, synchronous, hasFormat, events[0]);
      if events[0] == Cancelled {
        LostNeverAgain(m, synchronous, hasFormat, events[1..]);
      } else {
        LostUntilCancelled(m, synchronous, hasFormat, events[1..]);
      }
    }
  }

  lemma {:induction false} LostNeverAgain(l: Life, synchronous: bool, hasFormat: bool, events: seq<Event>)
    requires l.stage.Decided? || l.stage == Over || l.stage == Gone || l.stage == Open(true)
    ensures LiveAll(l, synchronous, hasFormat, events).stage != Lost
    decreases |events|
  {
    if events != [] {
      LostNeverAgain(Live(l, synchronous, hasFormat, events[0]), synchronous, hasFormat, events[1..]);
    }
  }

  /** The events that leave a service action without an end. Once it has begun: the proxy goes before
      the action replies or is cancelled, and no cancel follows. */
  predicate HangsOpen(events: seq<Event>) {
    events != [] &&
    match events[0]
    case ProxyGone => Cancelled !in events[1..]
    case ActionReply(_) => false
    case Cancelled => false
    case _ => HangsOpen(events[1..])
  }

  /** From the request on: the queue starts it as a service action before deleting it, and then that. */
  predicate Hangs(events: seq<Event>) {
    events != [] &&
    match events[0]
    case Started(_, begin) => begin.Remotely? && HangsOpen(events[1..])
    case Dropped => false
    case _ => Hangs(events[1..])
  }

  lemma {:induction false} OpenHangsExactly(l: Life, hasFormat: bool, events: seq<Event>)
    requires l.stage == Open(false)
    ensures LiveAll(l, false, hasFormat, events).stage == Lost <==> HangsOpen(events)
    ensures HangsOpen(events) ==> LiveAll(l, false, hasFormat, events).answer == l.answer
    decreases |events|
  {
    if events != [] {
      var m := Live(l, false, hasFormat, events[0]);
      match events[0]
      case ProxyGone =>
        LostUntilCancelled(m, false, hasFormat, events[1..]);
        if Cancelled !in events[1..] { LostKeepsAnswer(m, hasFormat, events[1..]); }
      case ActionReply(_) => LostNeverAgain(m, false, hasFormat, events[1..]);
      case Cancelled => LostNeverAgain(m, false, hasFormat, events[1..]);
      case _ => OpenHangsExactly(m, hasFormat, events[1..]);
    }
  }

  lemma {:induction false} LostKeepsAnswer(l: Life, hasFormat: bool, events: seq<Event>)
    requires l.stage == Lost && Cancelled !in events
    ensures LiveAll(l, false, hasFormat, events).answer == l.answer
    decreases |events|
  {
    if events != [] { LostKeepsAnswer(Live(l, false, hasFormat, events[0]), hasFormat, events[1..]); }
  }

  lemma {:induction false} LifeHangsExactly(l: Life, hasFormat: bool, events: seq<Event>)
    requires l.stage == Queued
    ensures LiveAll(l, false, hasFormat, events).stage == Lost <==> Hangs(events)
    ensures Hangs(events) && l.answer.None? ==>
              (LiveAll(l, false, hasFormat, events).answer.None? <==> Cancelled !in events)
    decreases |events|
  {
    if events != [] {
      var m := Live(l, false, hasFormat, events[0]);
      match events[0]
      case Started(_, begin) =>
        if begin.Remotely? {
          OpenHangsExactly(m, hasFormat, events[1..]);
          if HangsOpen(events[1..]) { HangsUncancelled(events[1..]); }
        } else {
          LostNeverAgain(m, false, hasFormat, events[1..]);
        }
      case Dropped => LostNeverAgain(m, false, hasFormat, events[1..]);
      case Cancelled =>
        LifeHangsExactly(m, hasFormat, events[1..]);
        FirstAnswerStands(m, false, hasFormat, events[1..]);
      case _ => LifeHangsExactly(m, hasFormat, events[1..]);
    }
  }

  lemma {:induction false} HangsUncancelled(events: seq<Event>)
    requires HangsOpen(events)
    ensures Cancelled !in events
    decreases |events|
  {
    if !events[0].ProxyGone? { HangsUncancelled(events[1..]); }
  }

  lemma {:induction false} NeverLost(l: Life, hasFormat: bool, events: seq<Event>)
    requires l.stage == Queued || l.stage == Over || l.stage == Gone
    ensures LiveAll(l, true, hasFormat, events).stage != Lost
    decreases |events|
  {
    if events != [] { NeverLost(Live(l, true, hasFormat, events[0]), hasFormat, events[1..]); }
  }

  /** The task runs, but nothing is scheduled and nothing outstanding that could end it. */
  predicate Stuck(t: Task) {
    t.phase == Running && t.idles == 0 && t.remote == NoRemote
  }

  lemma StuckIsLost(t: Task, l: Life)
    requires Matches(t, l)
    ensures Stuck(t) <==> l.stage == Lost
    ensures Stuck(t) ==> t.callbacks == 0 && (t.answers == [] <==> l.answer.None?)
  {}

  /** Over every sequence of events a task is stuck exactly after these; its client has then heard
      nothing, unless it cancelled before the start. */
  lemma HangsExactly(synchronous: bool, hasFormat: bool, events: seq<Event>)
    ensures Run(New(synchronous, hasFormat), events).Ok?
    ensures var t := Run(New(synchronous, hasFormat), events).value;
            && (Stuck(t) <==> !synchronous && Hangs(events))
            && (Stuck(t) ==> t.callbacks == 0 && (t.answers == [] <==> Cancelled !in events))
  {
    hide Matches, Stuck;
    NewMatches(synchronous, hasFormat);
    RunRefines(New(synchronous, hasFormat), NewLife(), events);
    StuckIsLost(Run(New(synchronous, hasFormat), events).value, LiveAll(NewLife(), synchronous, hasFormat, events));
    if synchronous {
      NeverLost(NewLife(), hasFormat, events);
    } else {
      LifeHangsExactly(NewLife(), hasFormat, events);
    }
  }

  /** Such a run: the action begins and its proxy goes away. */
  lemma ActionsCanHang(hasFormat: bool, value: string)
    ensures Hangs([Started(value, Remotely), ProxyGone])
    ensures Run(New(false, hasFormat), [Started(value, Remotely), ProxyGone]).Ok?
    ensures var t := Run(New(false, hasFormat), [Started(value, Remotely), ProxyGone]).value;
            t.phase == Running && t.idles == 0 && t.remote == NoRemote && t.callbacks == 0 && t.answers == []
  {
    var events := [Started(value, Remotely), ProxyGone];
    assert events[1..] == [ProxyGone] && [ProxyGone][1..] == [];
    HangsExactly(false, hasFormat, events);
  }

  lemma RunningStage(t: Task, l: Life)
    requires Matches(t, l)
    ensures t.phase == Running <==> l.stage.Open? || l.stage == Lost || l.stage.Decided?
    ensures l.stage.Decided? ==> t.callbacks + t.idles == 1
    ensures l.stage.Open? || l.stage == Lost ==> t.callbacks + t.idles == 0
    ensures l.stage == Gone ==> t.phase == Deleted && |t.answers| == 1 && t.idles == 0
  {}

  /** A cancel always suffices: the idle turn after it completes any task still running, and the
      queue can then delete it, answered once. */
  lemma CancelSuffices(synchronous: bool, hasFormat: bool, events: seq<Event>)
    requires Run(New(synchronous, hasFormat), events).Ok?
    requires Run(New(synchronous, hasFormat), events).value.phase == Running
    ensures var t := Run(New(synchronous, hasFormat), events).value;
            var u := Run(t, [Cancelled, IdleTurn, Dropped]);
            u.Ok? && u.value.phase == Deleted && |u.value.answers| == 1 && u.value.callbacks == 1
  {
    hide Matches, Step;
    var t0 := New(synchronous, hasFormat);
    NewMatches(synchronous, hasFormat);
    RunRefines(t0, NewLife(), events);
    var t, l := Run(t0, events).value, LiveAll(NewLife(), synchronous, hasFormat, events);
    RunningStage(t, l);
    StepRefines(t, l, Cancelled);
    var t1, l1 := Step(t, Cancelled).value, Live(l, synchronous, hasFormat, Cancelled);
    StepRefines(t1, l1, IdleTurn);
    var t2, l2 := Step(t1, IdleTurn).value, Live(l1, synchronous, hasFormat, IdleTurn);
    StepRefines(t2, l2, Dropped);
    var t3 := Step(t2, Dropped).value;
    RunningStage(t3, Live(l2, synchronous, hasFormat, Dropped));
    assert [Cancelled, IdleTurn, Dropped][1..] == [IdleTurn, Dropped] && [IdleTurn, Dropped][1..] == [Dropped];
    assert Run(t2, [Dropped]) == Ok(t3);
  }

  lemma NewMatches(synchronous: bool, hasFormat: bool)
    ensures Matches(New(synchronous, hasFormat), NewLife())
  {}
}
