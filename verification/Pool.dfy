/** The worker pool and its driver: producer, W workers, a bounded queue, an
    unbuffered error channel with its collector, a wait group and one hook mutex,
    as a labelled transition system whose worker steps are the steps of Execute. */
module Pool {
  import opened Text
  import opened Disk
  import opened Execution

  datatype Config = Config(
    reqs: seq<Request>,     // what EnqueueTasks builds, in the order of its map
    envs: seq<Env>,
    workers: nat,
    buildFails: bool,       // NewReq fails for some domain
    sharedHook: bool,
    sharedHookOk: bool,     // what the shared hook returns, if it is run
    tree: Tree)

  datatype Worker = Idle | Running(req: nat, local: Local) | Reporting(req: nat) | Exited

  datatype Producer = Off | On | Ended

  /** Where the driver is: building, between EnqueueTasks and Wait, in Wait, after
      closing the error channel, with Wait's count, gone with success or failure. */
  datatype Main = Building | Enqueued | Waiting | Closed | Returned(errors: nat) | Gone(ok: bool)

  datatype State = State(
    main: Main,
    refused: bool,          // EnqueueTasks returned an error
    producer: Producer,
    next: nat,              // requests the producer has sent
    queue: seq<nat>,
    queueClosed: bool,
    closes: nat,            // how often close(queue) was executed
    errorsClosed: bool,
    workers: seq<Worker>,
    mutex: Option<nat>,
    tree: Tree,
    steps: seq<nat>,        // steps of Execute taken for each request
    finished: seq<nat>,     // requests whose Execute has returned
    failed: seq<nat>,       // those of them that returned an error
    collected: nat,         // the collector's sum
    sharedRuns: nat,
    panicked: bool)         // send on, or close of, a closed channel

  datatype Label =
    | Build | Produce | CloseQueue
    | Take(w: nat) | StepOf(w: nat) | Return(w: nat) | Report(w: nat) | Leave(w: nat)
    | CallWait | CloseErrors | Collect | RunShared | Exit

  /** Requests on distinct sibling directories. */
  predicate Valid(c: Config) {
    && |c.envs| == |c.reqs|
    && (forall i | 0 <= i < |c.reqs| :: WellFormed(c.reqs[i]) && Permutes(c.envs[i].order, |c.reqs[i].items|))
    && (forall i, j | 0 <= i < |c.reqs| && 0 <= j < |c.reqs| :: |c.reqs[i].dir| == |c.reqs[j].dir|)
    && (forall i, j | 0 <= i < j < |c.reqs| :: c.reqs[i].dir != c.reqs[j].dir)
  }

  function Start(c: Config): State {
    State(Building, false, Off, 0, [], false, 0, false, seq(c.workers, _ => Idle), None, c.tree,
          seq(|c.reqs|, _ => 0), [], [], 0, 0, false)
  }

  /** What typing alone guarantees. */
  predicate Shaped(c: Config, s: State) {
    && Valid(c) && |s.workers| == c.workers && |s.steps| == |c.reqs| && s.next <= |c.reqs|
    && (forall k | 0 <= k < |s.queue| :: s.queue[k] < |c.reqs|)
    && (forall w | 0 <= w < |s.workers| :: WorkerShaped(c, s.workers[w]))
  }

  predicate WorkerShaped(c: Config, w: Worker)
    requires Valid(c)
  {
    match w
    case Running(r, l) => r < |c.reqs| && Sane(c.reqs[r], c.envs[r], l)
    case Reporting(r) => r < |c.reqs|
    case _ => true
  }

  predicate AllExited(s: State) { forall w | 0 <= w < |s.workers| :: s.workers[w].Exited? }

  predicate Enabled(c: Config, s: State, act: Label)
    requires Shaped(c, s)
  {
    && !s.main.Gone? && !s.panicked
    && match act
       case Build => s.main.Building?
       case Produce => s.producer.On? && s.next < |c.reqs| && (s.queueClosed || |s.queue| < c.workers)
       case CloseQueue => s.producer.On? && s.next == |c.reqs|
       case Take(w) => w < c.workers && s.workers[w].Idle? && s.queue != []
       case StepOf(w) => w < c.workers && s.workers[w].Running? && !s.workers[w].local.pc.Done?
         && (s.workers[w].local.pc.Lock? ==> s.mutex.None?)
       case Return(w) => w < c.workers && s.workers[w].Running? && s.workers[w].local.pc.Done?
       case Report(w) => w < c.workers && s.workers[w].Reporting? && (s.errorsClosed || s.main.Waiting?)
       case Leave(w) => w < c.workers && s.workers[w].Idle? && s.queue == [] && s.queueClosed
       case CallWait => s.main.Enqueued?
       case CloseErrors => s.main.Waiting? && AllExited(s)
       case Collect => s.main.Closed?
       case RunShared => s.main == Returned(0) && !s.refused && c.sharedHook
       case Exit => if s.main.Enqueued? then s.refused
         else s.main.Returned? && !(s.main == Returned(0) && !s.refused && c.sharedHook)
  }

  function Close(s: State): State {
    s.(queueClosed := true, closes := s.closes + 1, panicked := s.panicked || s.queueClosed)
  }

  function Apply(c: Config, s: State, act: Label): (s': State)
    requires Shaped(c, s) && Enabled(c, s, act)
    ensures Shaped(c, s')
  {
    match act
    case Build =>
      if c.buildFails then Close(s).(main := Enqueued, refused := true)
      else s.(main := Enqueued, producer := On)
    case Produce =>
      if s.queueClosed then s.(panicked := true)
      else s.(next := s.next + 1, queue := s.queue + [s.next])
    case CloseQueue => Close(s).(producer := Ended)
    case Take(w) => ApplyTake(c, s, w)
    case StepOf(w) => ApplyStep(c, s, w)
    case Return(w) => ApplyReturn(c, s, w)
    case Report(w) =>
      if s.errorsClosed then s.(panicked := true)
      else s.(workers := s.workers[w := Idle], collected := s.collected + 1)
    case Leave(w) => s.(workers := s.workers[w := Exited])
    case CallWait => s.(main := Waiting)
    case CloseErrors => s.(main := Closed, errorsClosed := true)
    case Collect => s.(main := Returned(s.collected))
    case RunShared => s.(main := Gone(c.sharedHookOk), sharedRuns := s.sharedRuns + 1)
    case Exit => s.(main := Gone(s.main == Returned(0) && !s.refused))
  }

  function ApplyTake(c: Config, s: State, w: nat): (s': State)
    requires Shaped(c, s) && w < c.workers && s.queue != []
    ensures Shaped(c, s')
  {
    var r := s.queue[0];
    s.(queue := s.queue[1..], workers := s.workers[w := Running(r, Init(c.reqs[r]))])
  }

  function ApplyReturn(c: Config, s: State, w: nat): (s': State)
    requires Shaped(c, s) && w < c.workers && s.workers[w].Running? && s.workers[w].local.pc.Done?
    ensures Shaped(c, s')
  {
    var r := s.workers[w].req;
    if s.workers[w].local.pc.ok then s.(workers := s.workers[w := Idle], finished := s.finished + [r])
    else s.(workers := s.workers[w := Reporting(r)], finished := s.finished + [r], failed := s.failed + [r])
  }

  function ApplyStep(c: Config, s: State, w: nat): (s': State)
    requires Shaped(c, s) && w < c.workers && s.workers[w].Running?
    ensures Shaped(c, s')
  {
    var Running(r, l) := s.workers[w];
    var (l', t) := Step(c.reqs[r], c.envs[r], l, s.tree);
    s.(workers := s.workers[w := Running(r, l')], tree := t, steps := s.steps[r := s.steps[r] + 1],
       mutex := if l.pc.Lock? then Some(w) else if l.pc.Hook? then None else s.mutex)
  }

  // ---- schedules ----

  predicate Legal(c: Config, s: State, schedule: seq<Label>)
    requires Shaped(c, s)
    decreases |schedule|
  {
    schedule == [] || (Enabled(c, s, schedule[0]) && Legal(c, Apply(c, s, schedule[0]), schedule[1..]))
  }

  function After(c: Config, s: State, schedule: seq<Label>): (s': State)
    requires Shaped(c, s) && Legal(c, s, schedule)
    ensures Shaped(c, s')
    decreases |schedule|
  {
    if schedule == [] then s else After(c, Apply(c, s, schedule[0]), schedule[1..])
  }

  // ---- where the requests are ----

  /** How many workers are executing request r. */
  function Holders(ws: seq<Worker>, r: nat): nat {
    if ws == [] then 0 else Holds(ws[0], r) + Holders(ws[1..], r)
  }

  function Holds(w: Worker, r: nat): nat { if w.Running? && w.req == r then 1 else 0 }

  function Unsent(c: Config, s: State, r: nat): nat { if s.next <= r < |c.reqs| then 1 else 0 }

  function Reports(ws: seq<Worker>): nat {
    if ws == [] then 0 else (if ws[0].Reporting? then 1 else 0) + Reports(ws[1..])
  }

  lemma {:induction false} HoldersUpdate(ws: seq<Worker>, w: nat, x: Worker, r: nat)
    requires w < |ws|
    ensures Holders(ws[w := x], r) + Holds(ws[w], r) == Holders(ws, r) + Holds(x, r)
  {
    if w > 0 {
      HoldersUpdate(ws[1..], w - 1, x, r);
      assert ws[w := x][1..] == ws[1..][w - 1 := x];
    } else {
      assert ws[0 := x][1..] == ws[1..];
    }
  }

  /** Two workers on one request would be counted twice. */
  lemma {:induction false} HoldersSum(ws: seq<Worker>, w: nat, v: nat, r: nat)
    requires w < |ws| && v < |ws|
    ensures Holds(ws[w], r) <= Holders(ws, r)
    ensures w != v ==> Holds(ws[w], r) + Holds(ws[v], r) <= Holders(ws, r)
  {
    if w > 0 && v > 0 {
      HoldersSum(ws[1..], w - 1, v - 1, r);
    } else if w > 0 {
      HoldersSum(ws[1..], w - 1, w - 1, r);
    } else if v > 0 {
      HoldersSum(ws[1..], v - 1, v - 1, r);
    }
  }

  lemma {:induction false} NoHolders(ws: seq<Worker>, r: nat)
    requires forall w | 0 <= w < |ws| :: Holds(ws[w], r) == 0
    ensures Holders(ws, r) == 0
  {
    if ws != [] {
      NoHolders(ws[1..], r);
    }
  }

  lemma {:induction false} NoReports(ws: seq<Worker>)
    requires forall w | 0 <= w < |ws| :: !ws[w].Reporting?
    ensures Reports(ws) == 0
  {
    if ws != [] {
      NoReports(ws[1..]);
    }
  }

  lemma {:induction false} ReportsUpdate(ws: seq<Worker>, w: nat, x: Worker)
    requires w < |ws|
    ensures Reports(ws[w := x]) + (if ws[w].Reporting? then 1 else 0) == Reports(ws) + if x.Reporting? then 1 else 0
  {
    if w > 0 {
      ReportsUpdate(ws[1..], w - 1, x);
      assert ws[w := x][1..] == ws[1..][w - 1 := x];
    } else {
      assert ws[0 := x][1..] == ws[1..];
    }
  }
}
