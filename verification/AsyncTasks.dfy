/** The task record as the callbacks update it. */
module AsyncTasks {
  import opened Wrappers
  import T = Tasks

  class AsyncTask {
    const synchronous: bool
    const hasFormat: bool
    var phase: T.Phase
    var invocation: bool
    var result: Option<string>
    var error: Option<T.Error>
    var cancellable: bool
    var cancelled: bool
    var handler: T.Handler
    var remote: T.Remote
    var proxy: bool
    var weak: bool
    var download: T.Download
    var idles: nat
    var callbacks: nat
    var answers: seq<T.Answer>

    /** The client's view of this task. */
    ghost var life: T.Life

    function Value(): T.Task
      reads this
    {
      T.Task(synchronous, hasFormat, phase, invocation, result, error, cancellable, cancelled, handler, remote,
             proxy, weak, download, idles, callbacks, answers)
    }

    ghost predicate Valid()
      reads this
    {
      T.Matches(Value(), life)
    }

    constructor (synchronous: bool, hasFormat: bool)
      ensures Valid() && Value() == T.New(synchronous, hasFormat) && life == T.NewLife()
    {
      this.synchronous, this.hasFormat := synchronous, hasFormat;
      phase, invocation, result, error := T.Waiting, true, None, None;
      cancellable, cancelled, handler, remote := false, false, T.NoHandler, T.NoRemote;
      proxy, weak, download, idles, callbacks, answers := false, false, T.NoDownload, 0, 0, [];
      life := T.NewLife();
    }

    // ----- answering the client -----

    method Complete()
      modifies `invocation, `answers
      ensures Value() == T.Complete(old(Value()))
    {
      if invocation {
        if hasFormat && result.Some? {
          answers := answers + [T.Response(result)];
        } else {
          answers := answers + [T.Response(None)];
        }
        invocation := false;
      }
    }

    method Fail(e: T.Error)
      modifies `invocation, `answers
      ensures Value() == T.Fail(old(Value()), e)
    {
      if invocation {
        answers := answers + [T.Refusal(e)];
        invocation := false;
      }
    }

    // ----- cancelling -----

    method OnCancelled()
      modifies `remote, `error, `idles
      ensures Value() == T.OnCancelled(old(Value()))
    {
      if proxy { remote := T.NoRemote; }
      if error.None? { error := Some(T.CANCELLED); }
      idles := idles + 1;
    }

    method FreeDownload()
      requires download == T.Allocated
      modifies `download
      ensures T.FreeDownload(old(Value())) == Ok(Value())
    {
      download := T.Freed;
    }

    method OnSession(status: T.Status)
      requires download == T.Allocated
      modifies `remote, `result, `error, `idles, `handler, `download
      ensures T.OnSession(old(Value()), status) == Ok(Value())
    {
      remote := T.NoRemote;
      if status != T.StatusCancelled {
        match status {
          case Success(body) => result := Some(body);
          case Failure(code) => error := Some(T.Other(code));
          case StatusCancelled =>
        }
        idles := idles + 1;
        handler := T.NoHandler;
      }
      FreeDownload();
    }

    method OnIconCancelled()
      requires download == T.Allocated
      modifies this
      ensures T.OnIconCancelled(old(Value())) == Ok(Value()) && life == old(life)
    {
      OnCancelled();
      if remote == T.Message { OnSession(T.StatusCancelled); }
    }

    method CancelOperation()
      requires handler == T.DownloadHandler && !cancelled ==> download == T.Allocated
      modifies this
      ensures life == old(life)
      ensures if old(cancellable) then T.FireCancellable(old(Value())) == Ok(Value()) else Value() == old(Value())
    {
      if cancellable && !cancelled {
        cancelled := true;
        match handler {
          case NoHandler =>
          case ActionHandler => OnCancelled();
          case DownloadHandler => OnIconCancelled();
        }
      }
    }

    /** Tells the client at once, then cancels the operation, if it has one. */
    method Cancel()
      requires handler == T.DownloadHandler && !cancelled ==> download == T.Allocated
      modifies this
      ensures T.Cancel(old(Value())) == Ok(Value()) && life == old(life)
    {
      if invocation {
        answers := answers + [T.Refusal(T.CANCELLED)];
        invocation := false;
      }
      if !synchronous { CancelOperation(); }
    }

    // ----- starting -----

    method StartAction()
      modifies `handler, `proxy, `weak, `remote
      ensures Value() == old(Value()).(handler := T.ActionHandler, proxy := true, weak := true, remote := T.Action)
    {
      handler := T.ActionHandler;
      proxy := true;
      weak := true;
      remote := T.Action;
    }

    /** Queues the download, or gives up when the URL, with error `invalid`, is not one. */
    method GetIcon(invalid: Option<nat>)
      modifies `handler, `download, `remote, `error, `idles
      ensures Value() ==
              if invalid.Some? then
                old(Value()).(download := T.Freed, error := Some(T.Other(invalid.value)), idles := old(idles) + 1)
              else old(Value()).(handler := T.DownloadHandler, download := T.Allocated, remote := T.Message)
    {
      download := T.Allocated;
      if invalid.Some? {
        error := Some(T.Other(invalid.value));
        FreeDownload();
        idles := idles + 1;
      } else {
        handler := T.DownloadHandler;
        remote := T.Message;
      }
    }

    method AnswerLocally(ending: T.Ending)
      modifies `result, `error, `idles
      ensures Value() == T.Settled(old(Value()), ending).(idles := old(idles) + 1)
    {
      match ending {
        case Result(value) => result := Some(value);
        case Failed(code) => error := Some(T.Other(code));
      }
      idles := idles + 1;
    }

    method ProcessSync(value: string)
      requires synchronous
      modifies this
      ensures Value() == T.Complete(old(Value()).(result := Some(value))).(phase := T.Finished) && life == old(life)
    {
      result := Some(value);
      Complete();
      phase := T.Finished;
    }

    method Process(value: string, begin: T.Begin)
      requires phase == T.Waiting
      modifies this
      ensures Value() == T.Start(old(Value()), value, begin) && life == old(life)
    {
      hide T.Complete, T.Settled;
      if synchronous {
        ProcessSync(value);
      } else {
        cancellable, phase := true, T.Running;
        match begin {
          case Locally(ending) => AnswerLocally(ending);
          case Remotely => StartAction();
          case Downloading => GetIcon(None);
          case InvalidUrl(code) => GetIcon(Some(code));
        }
      }
    }

    // ----- finishing -----

    method OnAction(ending: T.Ending)
      modifies `remote, `result, `error, `idles, `handler
      ensures Value() == T.OnAction(old(Value()), ending)
    {
      remote := T.NoRemote;
      match ending {
        case Result(value) => result := Some(value);
        case Failed(code) => error := Some(T.Other(code));
      }
      idles := idles + 1;
      handler := T.NoHandler;
    }

    /** The completion callback: answers the client and tells the queue. */
    method OnComplete()
      modifies `invocation, `answers, `phase
      ensures Value() == T.OnComplete(old(Value()))
    {
      if error.Some? { Fail(error.value); } else { Complete(); }
      phase := T.Finished;
    }

    method OnIdle()
      requires idles > 0 && phase == T.Running
      modifies this
      ensures T.OnIdle(old(Value())) == Ok(Value()) && life == old(life)
    {
      hide T.OnComplete;
      idles := idles - 1;
      if proxy { weak := false; }
      callbacks := callbacks + 1;
      OnComplete();
    }

    method OnProxyGone()
      requires weak && phase != T.Deleted
      modifies this
      ensures T.OnProxyGone(old(Value())) == Ok(Value()) && life == old(life)
    {
      proxy, weak := false, false;
      if remote == T.Action { remote := T.NoRemote; }
    }

    method Delete()
      requires phase != T.Deleted
      modifies this
      ensures T.Delete(old(Value())) == Ok(Value()) && life == old(life)
    {
      if invocation { answers := answers + [T.Refusal(T.DIED)]; }
      phase := T.Deleted;
    }

    // ----- the main loop -----

    lemma Safe()
      requires Valid()
      ensures handler == T.DownloadHandler && !cancelled && phase != T.Deleted ==> download == T.Allocated
      ensures remote == T.Message ==> download == T.Allocated
      ensures idles > 0 ==> phase == T.Running
      ensures weak ==> phase != T.Deleted
    {}

    /** Delivers one event. In the state reached the client's view has moved along with the record. */
    method Deliver(e: T.Event)
      requires Valid()
      modifies this
      ensures Valid() && T.Step(old(Value()), e) == Ok(Value())
      ensures life == T.Live(old(life), synchronous, hasFormat, e)
    {
      hide T.Matches, T.Live, T.Start, T.OnSession, T.Cancel, T.OnAction, T.OnIdle, T.Delete;
      Safe();
      T.StepRefines(Value(), life, e);
      match e {
        case Started(value, begin) => if phase == T.Waiting { Process(value, begin); }
        case ActionReply(ending) => if remote == T.Action { OnAction(ending); }
        case DownloadReply(ending) =>
          if remote == T.Message {
            OnSession(match ending case Result(body) => T.Success(body) case Failed(code) => T.Failure(code));
          }
        case ProxyGone => if weak { OnProxyGone(); }
        case Cancelled => if phase != T.Deleted { Cancel(); }
        case IdleTurn => if idles > 0 { OnIdle(); }
        case Dropped => if phase == T.Waiting || phase == T.Finished { Delete(); }
      }
      life := T.Live(life, synchronous, hasFormat, e);
    }
  }
}
