/** What every schedule of the pool keeps, and that every schedule ends. */
module PoolInvariant {
  import opened Text
  import opened Disk
  import opened Execution
  import opened Pool

  /** Channels, phases and the hook mutex. */
  ghost predicate Control(c: Config, s: State) {
    && Shaped(c, s) && !s.panicked
    && s.closes == (if s.queueClosed then 1 else 0)
    && (s.main.Building? ==> s.producer.Off? && !s.queueClosed && !s.refused)
    && (s.refused ==> s.producer.Off? && s.queueClosed)
    && (s.producer.Off? ==> s.next == 0 && s.queue == [])
    && (!s.main.Building? && !s.refused ==> !s.producer.Off?)
    && (s.producer.On? ==> !s.queueClosed)
    && (s.producer.Ended? ==> s.queueClosed && s.next == |c.reqs|)
    && |s.queue| <= c.workers
    && (c.workers == 0 ==> s.next == 0 && s.finished == [])
    && (forall w | 0 <= w < c.workers && s.workers[w].Exited? :: s.queueClosed && s.queue == [])
    && (s.errorsClosed ==> AllExited(s))
    && (s.main.Closed? || s.main.Returned? ==> s.errorsClosed)
    && (s.main.Building? || s.main.Enqueued? || s.main.Waiting? ==> !s.errorsClosed)
    && (s.main.Returned? ==> s.main.errors == s.collected)
    && (s.main.Building? || s.refused == c.buildFails)
    && (s.main.Gone? ==> s.refused || s.errorsClosed)
    && s.sharedRuns == (if s.main.Gone? && c.sharedHook && !s.refused && s.collected == 0 then 1 else 0)
    && (s.main.Gone? ==> (s.main.ok <==> !s.refused && s.collected == 0 && (c.sharedHook ==> c.sharedHookOk)))
  }

  /** At most one worker is in its hook: the one holding the mutex. */
  ghost predicate HookMutex(c: Config, s: State)
    requires Shaped(c, s)
  {
    && (s.mutex.Some? ==> s.mutex.value < c.workers)
    && forall w | 0 <= w < c.workers ::
         (s.workers[w].Running? && s.workers[w].local.pc.Hook?) <==> s.mutex == Some(w)
  }

  /** Every request is in exactly one place, and nothing else is anywhere:
      unsent, queued, in flight or finished. */
  ghost predicate Conserved(c: Config, s: State) {
    forall r: nat :: Place(c, s, r) == if r < |c.reqs| then 1 else 0
  }

  ghost function Place(c: Config, s: State, r: nat): nat {
    Unsent(c, s, r) + multiset(s.queue)[r] + Holders(s.workers, r) + multiset(s.finished)[r]
  }

  /** Failures so far are those counted and those about to be reported. */
  ghost predicate ErrorsConserved(s: State) {
    && |s.failed| == s.collected + Reports(s.workers)
    && multiset(s.failed) <= multiset(s.finished)
  }

  ghost predicate PoolInv(c: Config, s: State) {
    Control(c, s) && HookMutex(c, s) && Conserved(c, s) && ErrorsConserved(s)
  }

  lemma PoolInvStart(c: Config)
    requires Valid(c)
    ensures PoolInv(c, Start(c))
  {
    var s := Start(c);
    NoReports(s.workers);
    forall r: nat
      ensures Place(c, s, r) == if r < |c.reqs| then 1 else 0
    {
      NoHolders(s.workers, r);
    }
  }

  lemma BuildControlKept(c: Config, s: State)
    requires Control(c, s) && Enabled(c, s, Build)
    ensures Control(c, Apply(c, s, Build))
  {
  }

  lemma ProduceControlKept(c: Config, s: State)
    requires Control(c, s) && Enabled(c, s, Produce)
    ensures Control(c, Apply(c, s, Produce))
  {
  }

  lemma CloseQueueControlKept(c: Config, s: State)
    requires Control(c, s) && Enabled(c, s, CloseQueue)
    ensures Control(c, Apply(c, s, CloseQueue))
  {
  }

  lemma TakeControlKept(c: Config, s: State, w: nat)
    requires Control(c, s) && Enabled(c, s, Take(w))
    ensures Control(c, Apply(c, s, Take(w)))
  {
  }

  lemma StepOfControlKept(c: Config, s: State, w: nat)
    requires Control(c, s) && Enabled(c, s, StepOf(w))
    ensures Control(c, Apply(c, s, StepOf(w)))
  {
  }

  lemma ReturnControlKept(c: Config, s: State, w: nat)
    requires Control(c, s) && Enabled(c, s, Return(w))
    ensures Control(c, Apply(c, s, Return(w)))
  {
  }

  lemma ReportControlKept(c: Config, s: State, w: nat)
    requires Control(c, s) && Enabled(c, s, Report(w))
    ensures Control(c, Apply(c, s, Report(w)))
  {
  }

  lemma LeaveControlKept(c: Config, s: State, w: nat)
    requires Control(c, s) && Enabled(c, s, Leave(w))
    ensures Control(c, Apply(c, s, Leave(w)))
  {
  }

  lemma DriverControlKept(c: Config, s: State, act: Label)
    requires Control(c, s) && Enabled(c, s, act)
    requires act.CallWait? || act.CloseErrors? || act.Collect? || act.RunShared? || act.Exit?
    ensures Control(c, Apply(c, s, act))
  {
  }

  lemma ControlKept(c: Config, s: State, act: Label)
    requires Control(c, s) && Enabled(c, s, act)
    ensures Control(c, Apply(c, s, act))
  {
    match act {
      case Build => BuildControlKept(c, s);
      case Produce => ProduceControlKept(c, s);
      case CloseQueue => CloseQueueControlKept(c, s);
      case Take(w) => TakeControlKept(c, s, w);
      case StepOf(w) => StepOfControlKept(c, s, w);
      case Return(w) => ReturnControlKept(c, s, w);
      case Report(w) => ReportControlKept(c, s, w);
      case Leave(w) => LeaveControlKept(c, s, w);
      case _ => DriverControlKept(c, s, act);
    }
  }

  lemma StepMutexKept(c: Config, s: State, w: nat)
    requires Control(c, s) && HookMutex(c, s) && Enabled(c, s, StepOf(w))
    ensures HookMutex(c, Apply(c, s, StepOf(w)))
  {
    var Running(r, l) := s.workers[w];
    var l' := Step(c.reqs[r], c.envs[r], l, s.tree).0;
    HookEntered(c.reqs[r], c.envs[r], l, s.tree);
    assert s.workers[w].local.pc.Hook? <==> s.mutex == Some(w);
    assert Apply(c, s, StepOf(w)).workers == s.workers[w := Running(r, l')];
  }

  /** Only the step from Lock enters the hook, and a hook's step leaves it. */
  lemma HookEntered(r: Request, e: Env, l: Local, t: Tree)
    requires WellFormed(r) && Sane(r, e, l)
    ensures Step(r, e, l, t).0.pc.Hook? <==> l.pc.Lock?
  {
  }

  /** A worker that neither was nor is in its hook changes nothing for the mutex. */
  lemma MutexFrame(c: Config, s: State, s': State, w: nat, x: Worker)
    requires Shaped(c, s) && Shaped(c, s') && HookMutex(c, s) && w < c.workers
    requires s'.mutex == s.mutex && s'.workers == s.workers[w := x]
    requires !(s.workers[w].Running? && s.workers[w].local.pc.Hook?) && !(x.Running? && x.local.pc.Hook?)
    ensures HookMutex(c, s')
  {
  }

  lemma TakeMutexKept(c: Config, s: State, w: nat)
    requires Shaped(c, s) && HookMutex(c, s) && Enabled(c, s, Take(w))
    ensures HookMutex(c, Apply(c, s, Take(w)))
  {
    MutexFrame(c, s, Apply(c, s, Take(w)), w, Running(s.queue[0], Init(c.reqs[s.queue[0]])));
  }

  lemma ReturnMutexKept(c: Config, s: State, w: nat)
    requires Shaped(c, s) && HookMutex(c, s) && Enabled(c, s, Return(w))
    ensures HookMutex(c, Apply(c, s, Return(w)))
  {
    MutexFrame(c, s, Apply(c, s, Return(w)), w, if s.workers[w].local.pc.ok then Idle else Reporting(s.workers[w].req));
  }

  lemma LeaveMutexKept(c: Config, s: State, w: nat)
    requires Shaped(c, s) && HookMutex(c, s) && Enabled(c, s, Leave(w))
    ensures HookMutex(c, Apply(c, s, Leave(w)))
  {
    MutexFrame(c, s, Apply(c, s, Leave(w)), w, Exited);
  }

  lemma ReportMutexKept(c: Config, s: State, w: nat)
    requires Shaped(c, s) && HookMutex(c, s) && Enabled(c, s, Report(w))
    ensures HookMutex(c, Apply(c, s, Report(w)))
  {
    if !s.errorsClosed {
      MutexFrame(c, s, Apply(c, s, Report(w)), w, Idle);
    }
  }

  lemma DriverMutexKept(c: Config, s: State, act: Label)
    requires Shaped(c, s) && HookMutex(c, s) && Enabled(c, s, act)
    requires !act.StepOf? && !act.Take? && !act.Return? && !act.Report? && !act.Leave?
    ensures HookMutex(c, Apply(c, s, act))
  {
    assert Apply(c, s, act).workers == s.workers && Apply(c, s, act).mutex == s.mutex;
  }

  lemma MutexKept(c: Config, s: State, act: Label)
    requires Control(c, s) && HookMutex(c, s) && Enabled(c, s, act)
    ensures HookMutex(c, Apply(c, s, act))
  {
    match act {
      case StepOf(w) => StepMutexKept(c, s, w);
      case Take(w) => TakeMutexKept(c, s, w);
      case Return(w) => ReturnMutexKept(c, s, w);
      case Report(w) => ReportMutexKept(c, s, w);
      case Leave(w) => LeaveMutexKept(c, s, w);
      case _ => DriverMutexKept(c, s, act);
    }
  }

  lemma TakePlace(c: Config, s: State, w: nat, r: nat)
    requires Control(c, s) && Enabled(c, s, Take(w))
    ensures Place(c, Apply(c, s, Take(w)), r) == Place(c, s, r)
  {
    assert s.queue == [s.queue[0]] + s.queue[1..];
    HoldersUpdate(s.workers, w, Running(s.queue[0], Init(c.reqs[s.queue[0]])), r);
  }

  lemma StepPlace(c: Config, s: State, w: nat, r: nat)
    requires Control(c, s) && Enabled(c, s, StepOf(w))
    ensures Place(c, Apply(c, s, StepOf(w)), r) == Place(c, s, r)
  {
    var Running(q, l) := s.workers[w];
    var l' := Step(c.reqs[q], c.envs[q], l, s.tree).0;
    HoldersUpdate(s.workers, w, Running(q, l'), r);
  }

  lemma ReturnPlace(c: Config, s: State, w: nat, r: nat)
    requires Control(c, s) && Enabled(c, s, Return(w))
    ensures Place(c, Apply(c, s, Return(w)), r) == Place(c, s, r)
  {
    var q := s.workers[w].req;
    HoldersUpdate(s.workers, w, if s.workers[w].local.pc.ok then Idle else Reporting(q), r);
  }

  lemma ReportPlace(c: Config, s: State, w: nat, r: nat)
    requires Control(c, s) && Enabled(c, s, Report(w))
    ensures Place(c, Apply(c, s, Report(w)), r) == Place(c, s, r)
  {
    HoldersUpdate(s.workers, w, Idle, r);
  }

  lemma LeavePlace(c: Config, s: State, w: nat, r: nat)
    requires Control(c, s) && Enabled(c, s, Leave(w))
    ensures Place(c, Apply(c, s, Leave(w)), r) == Place(c, s, r)
  {
    HoldersUpdate(s.workers, w, Exited, r);
  }

  lemma DriverPlace(c: Config, s: State, act: Label, r: nat)
    requires Control(c, s) && Enabled(c, s, act)
    requires !act.StepOf? && !act.Take? && !act.Return? && !act.Report? && !act.Leave?
    ensures Place(c, Apply(c, s, act), r) == Place(c, s, r)
  {
  }

  lemma PlaceKept(c: Config, s: State, act: Label, r: nat)
    requires Control(c, s) && Enabled(c, s, act)
    ensures Place(c, Apply(c, s, act), r) == Place(c, s, r)
  {
    match act {
      case Take(w) => TakePlace(c, s, w, r);
      case StepOf(w) => StepPlace(c, s, w, r);
      case Return(w) => ReturnPlace(c, s, w, r);
      case Report(w) => ReportPlace(c, s, w, r);
      case Leave(w) => LeavePlace(c, s, w, r);
      case _ => DriverPlace(c, s, act, r);
    }
  }

  lemma ConservedKept(c: Config, s: State, act: Label)
    requires Control(c, s) && Conserved(c, s) && Enabled(c, s, act)
    ensures Conserved(c, Apply(c, s, act))
  {
    forall r: nat
      ensures Place(c, Apply(c, s, act), r) == if r < |c.reqs| then 1 else 0
    {
      PlaceKept(c, s, act, r);
    }
  }

  lemma WorkerErrorsKept(c: Config, s: State, act: Label)
    requires Shaped(c, s) && ErrorsConserved(s) && Enabled(c, s, act)
    requires act.Take? || act.StepOf? || act.Leave?
    ensures ErrorsConserved(Apply(c, s, act))
  {
    ReportsUpdate(s.workers, act.w, Apply(c, s, act).workers[act.w]);
  }

  lemma ReturnErrorsKept(c: Config, s: State, w: nat)
    requires Shaped(c, s) && ErrorsConserved(s) && Enabled(c, s, Return(w))
    ensures ErrorsConserved(Apply(c, s, Return(w)))
  {
    var r := s.workers[w].req;
    ReportsUpdate(s.workers, w, if s.workers[w].local.pc.ok then Idle else Reporting(r));
    assert multiset(s.failed + [r]) == multiset(s.failed) + multiset{r};
    assert multiset(s.finished + [r]) == multiset(s.finished) + multiset{r};
  }

  lemma ReportErrorsKept(c: Config, s: State, w: nat)
    requires Shaped(c, s) && ErrorsConserved(s) && Enabled(c, s, Report(w))
    requires !s.errorsClosed
    ensures ErrorsConserved(Apply(c, s, Report(w)))
  {
    ReportsUpdate(s.workers, w, Idle);
  }

  lemma ErrorsKept(c: Config, s: State, act: Label)
    requires Control(c, s) && ErrorsConserved(s) && Enabled(c, s, act)
    ensures ErrorsConserved(Apply(c, s, act))
  {
    if act.Return? {
      ReturnErrorsKept(c, s, act.w);
    } else if act.Report? && !s.errorsClosed {
      ReportErrorsKept(c, s, act.w);
    } else if act.Take? || act.StepOf? || act.Leave? {
      WorkerErrorsKept(c, s, act);
    }
  }

  lemma PoolInvKept(c: Config, s: State, act: Label)
    requires PoolInv(c, s) && Enabled(c, s, act)
    ensures PoolInv(c, Apply(c, s, act))
  {
    ControlKept(c, s, act);
    MutexKept(c, s, act);
    ConservedKept(c, s, act);
    ErrorsKept(c, s, act);
  }

  lemma {:induction false} PoolInvAlways(c: Config, s: State, schedule: seq<Label>)
    requires PoolInv(c, s) && Legal(c, s, schedule)
    ensures PoolInv(c, After(c, s, schedule))
    decreases |schedule|
  {
    if schedule != [] {
      PoolInvKept(c, s, schedule[0]);
      PoolInvAlways(c, Apply(c, s, schedule[0]), schedule[1..]);
    }
  }

  // ---- what Wait returns ----

  /** Once all workers are gone every request has been executed exactly once, if and
      only if there was a worker to begin with. */
  lemma DrainedIsFinished(c: Config, s: State, r: nat)
    requires PoolInv(c, s) && AllExited(s) && !s.refused && !s.main.Building? && r < |c.reqs|
    ensures multiset(s.finished)[r] == if c.workers > 0 then 1 else 0
  {
    assert Place(c, s, r) == 1;
    NoHolders(s.workers, r);
    if c.workers > 0 {
      assert s.workers[0].Exited?;
    }
  }

  /** A failed EnqueueTasks executes no request. */
  lemma RefusedRunsNothing(c: Config, s: State)
    requires PoolInv(c, s) && s.refused
    ensures s.finished == [] && (forall w | 0 <= w < c.workers :: !s.workers[w].Running?)
  {
    forall r: nat
      ensures multiset(s.finished)[r] == 0
    {
      assert Place(c, s, r) == if r < |c.reqs| then 1 else 0;
    }
    assert |multiset(s.finished)| == 0;
    forall w | 0 <= w < c.workers
      ensures !s.workers[w].Running?
    {
      if s.workers[w].Running? {
        var r := s.workers[w].req;
        assert Place(c, s, r) == 1;
        HoldersSum(s.workers, w, w, r);
        assert false;
      }
    }
  }

  /** The count Wait returns is the number of failing requests; all requests are
      finished, each once, exactly when the pool has a worker or there is no request.
      With -jobs 0 it returns nil although nothing was executed. */
  lemma WaitResult(c: Config, schedule: seq<Label>)
    requires Valid(c) && Legal(c, Start(c), schedule)
    ensures var s := After(c, Start(c), schedule);
      s.main.Returned? && !s.refused ==>
        && s.main.errors == |s.failed| && multiset(s.failed) <= multiset(s.finished)
        && ((forall r: nat | r < |c.reqs| :: multiset(s.finished)[r] == 1) <==> c.workers > 0 || |c.reqs| == 0)
        && (c.workers == 0 ==> s.main.errors == 0 && s.finished == [])
  {
    PoolInvStart(c);
    PoolInvAlways(c, Start(c), schedule);
    var s := After(c, Start(c), schedule);
    if s.main.Returned? && !s.refused {
      NoReports(s.workers);
      forall r: nat | r < |c.reqs|
        ensures multiset(s.finished)[r] == if c.workers > 0 then 1 else 0
      {
        DrainedIsFinished(c, s, r);
      }
      assert c.workers == 0 && |c.reqs| > 0 ==> multiset(s.finished)[0] == 0;
    }
  }

  /** The shared hook runs at most once, after every worker has gone and no Execute
      has failed. */
  lemma SharedHookLast(c: Config, schedule: seq<Label>)
    requires Valid(c) && Legal(c, Start(c), schedule)
    ensures var s := After(c, Start(c), schedule);
      s.sharedRuns > 0 ==>
        && s.sharedRuns == 1 && AllExited(s) && s.failed == [] && !s.refused
        && (c.workers > 0 ==> forall r: nat | r < |c.reqs| :: multiset(s.finished)[r] == 1)
  {
    PoolInvStart(c);
    PoolInvAlways(c, Start(c), schedule);
    var s := After(c, Start(c), schedule);
    if s.sharedRuns > 0 {
      NoReports(s.workers);
      forall r: nat | r < |c.reqs|
        ensures c.workers > 0 ==> multiset(s.finished)[r] == 1
      {
        DrainedIsFinished(c, s, r);
      }
    }
  }

  /** When the program has ended, by whatever schedule, the shared hook has been run, and
      then once, if and only if there is one, every request could be built and no request
      failed; and the program reports success if and only if the last two hold and the
      hook, if run, succeeded. */
  lemma SharedHookIff(c: Config, schedule: seq<Label>)
    requires Valid(c) && Legal(c, Start(c), schedule)
    ensures var s := After(c, Start(c), schedule);
      s.main.Gone? ==>
        && s.sharedRuns == (if c.sharedHook && !c.buildFails && s.failed == [] then 1 else 0)
        && (s.main.ok <==> !c.buildFails && s.failed == [] && (c.sharedHook ==> c.sharedHookOk))
  {
    PoolInvStart(c);
    PoolInvAlways(c, Start(c), schedule);
    var s := After(c, Start(c), schedule);
    if s.main.Gone? && !s.refused {
      NoReports(s.workers);
    }
  }

  /** The queue is closed at most once, never sent to afterwards, and the error
      channel is closed only when no worker is left to send on it. */
  lemma ChannelSafety(c: Config, schedule: seq<Label>)
    requires Valid(c) && Legal(c, Start(c), schedule)
    ensures var s := After(c, Start(c), schedule);
      && !s.panicked && s.closes <= 1 && (s.errorsClosed ==> AllExited(s))
      && (s.main.Returned? && (c.workers > 0 || s.refused) ==> s.closes == 1)
  {
    PoolInvStart(c);
    PoolInvAlways(c, Start(c), schedule);
    var s := After(c, Start(c), schedule);
    if s.main.Returned? && c.workers > 0 {
      assert s.workers[0].Exited?;
    }
  }

  // ---- progress ----

  /** An action some part of the program can take. */
  lemma Progress(c: Config, s: State) returns (act: Label)
    requires PoolInv(c, s) && !s.main.Gone?
    ensures Enabled(c, s, act)
  {
    match s.main {
      case Building => act := Build;
      case Enqueued => act := CallWait;
      case Closed => act := Collect;
      case Returned(_) => act := if Enabled(c, s, RunShared) then RunShared else Exit;
      case Waiting =>
        if AllExited(s) {
          act := CloseErrors;
        } else {
          var w :| 0 <= w < c.workers && !s.workers[w].Exited?;
          act := WorkerProgress(c, s, w);
        }
    }
  }

  lemma WorkerProgress(c: Config, s: State, w: nat) returns (act: Label)
    requires PoolInv(c, s) && s.main.Waiting? && w < c.workers && !s.workers[w].Exited?
    ensures Enabled(c, s, act)
  {
    match s.workers[w] {
      case Reporting(_) => act := Report(w);
      case Running(_, l) =>
        if l.pc.Done? {
          act := Return(w);
        } else if l.pc.Lock? && s.mutex.Some? {
          act := HolderProgress(c, s);
        } else {
          act := StepOf(w);
        }
      case Idle =>
        if s.queue != [] {
          act := Take(w);
        } else if s.queueClosed {
          act := Leave(w);
        } else if s.next < |c.reqs| {
          act := Produce;
        } else {
          act := CloseQueue;
        }
    }
  }

  /** Whoever holds the hook mutex is running its hook and can finish it. */
  lemma HolderProgress(c: Config, s: State) returns (act: Label)
    requires PoolInv(c, s) && s.main.Waiting? && s.mutex.Some?
    ensures Enabled(c, s, act)
  {
    act := StepOf(s.mutex.value);
  }

  // ---- termination ----

  function UnsentCost(c: Config, from: nat): nat
    decreases |c.reqs| - from
  {
    if from >= |c.reqs| then 0 else Bound(c.reqs[from]) + 5 + UnsentCost(c, from + 1)
  }

  function QueuedCost(c: Config, queue: seq<nat>): nat
    requires forall k | 0 <= k < |queue| :: queue[k] < |c.reqs|
  {
    if queue == [] then 0 else Bound(c.reqs[queue[0]]) + 4 + QueuedCost(c, queue[1..])
  }

  function WorkerCost(c: Config, w: Worker): nat
    requires Valid(c) && WorkerShaped(c, w)
  {
    match w
    case Running(r, l) => Rank(c.reqs[r], l.pc) + 3
    case Reporting(_) => 2
    case Idle => 1
    case Exited => 0
  }

  function WorkersCost(c: Config, ws: seq<Worker>): nat
    requires Valid(c) && forall w | 0 <= w < |ws| :: WorkerShaped(c, ws[w])
  {
    if ws == [] then 0 else WorkerCost(c, ws[0]) + WorkersCost(c, ws[1..])
  }

  function MainCost(main: Main): nat {
    match main
    case Building => 6
    case Enqueued => 4
    case Waiting => 3
    case Closed => 2
    case Returned(_) => 1
    case Gone(_) => 0
  }

  /** Work left in the whole pool: pending, queued, in flight, reporting, driver. */
  function Measure(c: Config, s: State): nat
    requires Shaped(c, s)
  {
    UnsentCost(c, s.next) + QueuedCost(c, s.queue) + WorkersCost(c, s.workers)
      + MainCost(s.main) + if s.producer.On? then 1 else 0
  }

  lemma {:induction false} WorkersCostUpdate(c: Config, ws: seq<Worker>, w: nat, x: Worker)
    requires Valid(c) && w < |ws| && WorkerShaped(c, x)
    requires forall v | 0 <= v < |ws| :: WorkerShaped(c, ws[v])
    ensures WorkersCost(c, ws[w := x]) + WorkerCost(c, ws[w]) == WorkersCost(c, ws) + WorkerCost(c, x)
  {
    if w > 0 {
      WorkersCostUpdate(c, ws[1..], w - 1, x);
      assert ws[w := x][1..] == ws[1..][w - 1 := x];
    } else {
      assert ws[0 := x][1..] == ws[1..];
    }
  }

  lemma {:induction false} QueuedCostAppend(c: Config, queue: seq<nat>, r: nat)
    requires r < |c.reqs| && forall k | 0 <= k < |queue| :: queue[k] < |c.reqs|
    ensures QueuedCost(c, queue + [r]) == QueuedCost(c, queue) + Bound(c.reqs[r]) + 4
  {
    if queue == [] {
      assert [r][1..] == [];
    } else {
      QueuedCostAppend(c, queue[1..], r);
      assert (queue + [r])[1..] == queue[1..] + [r];
    }
  }

  lemma TakeDecreases(c: Config, s: State, w: nat)
    requires PoolInv(c, s) && Enabled(c, s, Take(w))
    ensures Measure(c, Apply(c, s, Take(w))) < Measure(c, s)
  {
    WorkersCostUpdate(c, s.workers, w, Running(s.queue[0], Init(c.reqs[s.queue[0]])));
  }

  lemma ReturnDecreases(c: Config, s: State, w: nat)
    requires PoolInv(c, s) && Enabled(c, s, Return(w))
    ensures Measure(c, Apply(c, s, Return(w))) < Measure(c, s)
  {
    WorkersCostUpdate(c, s.workers, w, if s.workers[w].local.pc.ok then Idle else Reporting(s.workers[w].req));
  }

  lemma ReportDecreases(c: Config, s: State, w: nat)
    requires PoolInv(c, s) && Enabled(c, s, Report(w))
    ensures Measure(c, Apply(c, s, Report(w))) < Measure(c, s)
  {
    WorkersCostUpdate(c, s.workers, w, Idle);
  }

  lemma LeaveDecreases(c: Config, s: State, w: nat)
    requires PoolInv(c, s) && Enabled(c, s, Leave(w))
    ensures Measure(c, Apply(c, s, Leave(w))) < Measure(c, s)
  {
    WorkersCostUpdate(c, s.workers, w, Exited);
  }

  lemma StepActDecreases(c: Config, s: State, w: nat)
    requires PoolInv(c, s) && Enabled(c, s, StepOf(w))
    ensures Measure(c, Apply(c, s, StepOf(w))) < Measure(c, s)
  {
    var Running(r, l) := s.workers[w];
    var l' := Step(c.reqs[r], c.envs[r], l, s.tree).0;
    StepDecreases(c.reqs[r], c.envs[r], l, s.tree);
    WorkersCostUpdate(c, s.workers, w, Running(r, l'));
  }

  lemma ProduceDecreases(c: Config, s: State)
    requires PoolInv(c, s) && Enabled(c, s, Produce)
    ensures Measure(c, Apply(c, s, Produce)) < Measure(c, s)
  {
    QueuedCostAppend(c, s.queue, s.next);
  }

  lemma DriverActDecreases(c: Config, s: State, act: Label)
    requires PoolInv(c, s) && Enabled(c, s, act)
    requires !act.StepOf? && !act.Take? && !act.Return? && !act.Report? && !act.Leave? && !act.Produce?
    ensures Measure(c, Apply(c, s, act)) < Measure(c, s)
  {
  }

  /** Every action of every part strictly reduces the measure. */
  lemma ActDecreases(c: Config, s: State, act: Label)
    requires PoolInv(c, s) && Enabled(c, s, act)
    ensures Measure(c, Apply(c, s, act)) < Measure(c, s)
  {
    match act {
      case StepOf(w) => StepActDecreases(c, s, w);
      case Take(w) => TakeDecreases(c, s, w);
      case Return(w) => ReturnDecreases(c, s, w);
      case Report(w) => ReportDecreases(c, s, w);
      case Leave(w) => LeaveDecreases(c, s, w);
      case Produce => ProduceDecreases(c, s);
      case _ => DriverActDecreases(c, s, act);
    }
  }

  /** No schedule is longer than the initial measure. */
  lemma {:induction false} SchedulesEnd(c: Config, s: State, schedule: seq<Label>)
    requires PoolInv(c, s) && Legal(c, s, schedule)
    ensures |schedule| + Measure(c, After(c, s, schedule)) <= Measure(c, s)
    decreases |schedule|
  {
    if schedule != [] {
      ActDecreases(c, s, schedule[0]);
      PoolInvKept(c, s, schedule[0]);
      SchedulesEnd(c, Apply(c, s, schedule[0]), schedule[1..]);
    }
  }

  /** So every schedule that cannot be extended has let the driver finish: no deadlock
      and no livelock, for any pool size, even none. */
  lemma AlwaysFinishes(c: Config, schedule: seq<Label>)
    requires Valid(c) && Legal(c, Start(c), schedule)
    ensures |schedule| <= Measure(c, Start(c))
    ensures var s := After(c, Start(c), schedule);
      (forall act :: !Enabled(c, s, act)) ==> s.main.Gone?
  {
    PoolInvStart(c);
    PoolInvAlways(c, Start(c), schedule);
    SchedulesEnd(c, Start(c), schedule);
    var s := After(c, Start(c), schedule);
    if !s.main.Gone? {
      var act := Progress(c, s);
    }
  }

  // ---- working at once ----

  function BusyWorkers(c: Config, k: nat): seq<Worker>
    requires Valid(c) && k <= |c.reqs|
  {
    seq(c.workers, w requires 0 <= w < c.workers => if w < k then Running(w, Init(c.reqs[w])) else Idle)
  }

  /** The first k workers have begun with a request each, and nothing else has happened. */
  function Busy(c: Config, k: nat): State
    requires Valid(c) && k <= |c.reqs|
  {
    Start(c).(main := Enqueued, producer := On, next := k, workers := BusyWorkers(c, k))
  }

  lemma BusyMore(c: Config, k: nat)
    requires Valid(c) && k < c.workers && k < |c.reqs|
    ensures var s := Busy(c, k);
      && Shaped(c, s) && Enabled(c, s, Produce) && Enabled(c, Apply(c, s, Produce), Take(k))
      && Apply(c, Apply(c, s, Produce), Take(k)) == Busy(c, k + 1)
  {
    var t := Apply(c, Busy(c, k), Produce);
    assert t.queue == [k] && t.queue[1..] == [];
    assert BusyWorkers(c, k)[k := Running(k, Init(c.reqs[k]))] == BusyWorkers(c, k + 1);
  }

  lemma BusyFrom(c: Config, m: nat, k: nat) returns (schedule: seq<Label>)
    requires Valid(c) && m <= k <= c.workers && k <= |c.reqs|
    ensures Shaped(c, Busy(c, m)) && Legal(c, Busy(c, m), schedule) && After(c, Busy(c, m), schedule) == Busy(c, k)
    decreases k - m
  {
    schedule := [];
    if m < k {
      BusyMore(c, m);
      var rest := BusyFrom(c, m + 1, k);
      schedule := [Produce, Take(m)] + rest;
      assert schedule[1..] == [Take(m)] + rest && schedule[1..][1..] == rest;
    }
  }

  /** As many requests as there are workers can be under way at the same time, whatever
      else: nothing but the hook mutex makes one wait for another. */
  lemma AllAtOnce(c: Config, k: nat) returns (schedule: seq<Label>)
    requires Valid(c) && !c.buildFails && k <= c.workers && k <= |c.reqs|
    ensures Legal(c, Start(c), schedule)
    ensures var s := After(c, Start(c), schedule);
      forall w | 0 <= w < k :: s.workers[w].Running? && s.workers[w].req == w
    ensures var s := After(c, Start(c), schedule);
      forall w: nat | w < k && !s.workers[w].local.pc.Done? :: Enabled(c, s, StepOf(w))
  {
    var rest := BusyFrom(c, 0, k);
    schedule := [Build] + rest;
    assert BusyWorkers(c, 0) == Start(c).workers;
    assert Apply(c, Start(c), Build) == Busy(c, 0);
    assert schedule[1..] == rest;
  }
}
