/** The timing premise of coherence cannot be dropped: an update in the window of any
    successful refresh leaves a copy that every later plain run keeps. */
module Staleness {
  import opened Text
  import opened Disk
  import opened Execution
  import opened Invariant
  import opened Publication
  import opened Store
  import opened Cache
  import opened Coherence

  // ---- a stale copy stays ----

  predicate PlainEnv(e: Env, j: nat) { !e.force && !e.statFails(j) }

  /** No update, and no forced run. */
  predicate PlainEvent(ev: Event, j: nat) {
    !ev.Update? && (ev.Begin? ==> PlainEnv(ev.env, j))
  }

  ghost predicate Stuck(r: Request, j: nat, w: World) {
    && Traced(r, j, w) && Stale(r, j, w)
    && match w.run
       case None => true
       case Some(a) => PlainEnv(a.env, j) && (a.fetch.Some? ==> !Fetched(r, a.env, a.from, j).Body?)
  }

  lemma StuckFetch(r: Request, j: nat, w: World, at: nat)
    requires Stuck(r, j, w) && Possible(r, j, w, Tick(at)) && w.run.value.local.pc == PC.Fetch(j)
    ensures !Fetched(r, w.run.value.env, w.run.value.from, j).Body?
  {
    FetchingTree(r, j, w);
    var v := Seen(r, w.tree, j);
    assert v.Some? && v.value.File?;
    assert Since(r, w.run.value.env, w.tree, j) == Some(Sec(v.value.mtime));
  }

  lemma StuckTick(r: Request, j: nat, w: World, at: nat)
    requires Stuck(r, j, w) && Possible(r, j, w, Tick(at))
    ensures var w' := Ticked(r, j, w, at);
      Seen(r, w'.tree, j) == Seen(r, w.tree, j) && w'.deliveries == w.deliveries && w'.log == w.log
  {
    TickSeen(r, j, w);
    var a := w.run.value;
    var l := Stepped(r, a, w.tree).0;
    if j in l.published && j !in a.local.published {
      PublishedIsBody(r, j, w);
    }
  }

  lemma TickStuck(r: Request, j: nat, w: World, at: nat)
    requires Stuck(r, j, w) && Possible(r, j, w, Tick(at))
    ensures var w' := Ticked(r, j, w, at);
      Stuck(r, j, w') && Seen(r, w'.tree, j) == Seen(r, w.tree, j) && w'.log == w.log
  {
    EventTraced(r, j, w, Tick(at));
    StuckTick(r, j, w, at);
    if w.run.value.local.pc == PC.Fetch(j) {
      StuckFetch(r, j, w, at);
    }
  }

  lemma EventStuck(r: Request, j: nat, w: World, ev: Event)
    requires Stuck(r, j, w) && Possible(r, j, w, ev) && PlainEvent(ev, j)
    ensures var w' := Happen(r, j, w, ev);
      Stuck(r, j, w') && Seen(r, w'.tree, j) == Seen(r, w.tree, j) && w'.log == w.log
  {
    if ev.Tick? {
      TickStuck(r, j, w, ev.at);
    } else {
      EventTraced(r, j, w, ev);
    }
  }

  lemma {:induction false} StuckForever(r: Request, j: nat, w: World, events: seq<Event>)
    requires Stuck(r, j, w) && Chronicle(r, j, w, events) && forall ev | ev in events :: PlainEvent(ev, j)
    ensures var w' := Finally(r, j, w, events);
      Stuck(r, j, w') && Seen(r, w'.tree, j) == Seen(r, w.tree, j) && w'.log == w.log
    decreases |events|
  {
    if events != [] {
      assert events[0] in events;
      EventStuck(r, j, w, events[0]);
      StuckForever(r, j, Happen(r, j, w, events[0]), events[1..]);
    }
  }

  /** Whatever plain runs follow, a stale copy is never sent again: it stays visible, and
      stays different from the server's content. */
  lemma StaleForever(r: Request, j: nat, w: World, events: seq<Event>)
    requires Traced(r, j, w) && Stale(r, j, w) && w.run.None?
    requires Chronicle(r, j, w, events) && forall ev | ev in events :: PlainEvent(ev, j)
    ensures var w' := Finally(r, j, w, events);
      && Seen(r, w'.tree, j) == Seen(r, w.tree, j) && w'.log == w.log
      && Seen(r, w'.tree, j).Some? && Seen(r, w'.tree, j).value.File?
      && Seen(r, w'.tree, j).value.content != Latest(w').content
  {
    StuckForever(r, j, w, events);
  }

  /** Whatever came before, a forced run that succeeds with no update since its fetch
      ends a stale copy: what is visible is the server's content. */
  lemma StaleEnded(r: Request, j: nat, w: World, events: seq<Event>)
    requires Traced(r, j, w) && w.run.None? && Chronicle(r, j, w, events)
    requires var w' := Finally(r, j, w, events);
      && Succeeded(w') && Unconditional(w'.run.value.env, j) && Latest(w').content != ""
      && (w'.run.value.fetch.Some? ==> w'.run.value.fetch.value.version == |w'.log| - 1)
    ensures var w' := Finally(r, j, w, events); Current(r, j, Latest(w'), w'.tree) && !Stale(r, j, w')
  {
    TracedAlways(r, j, w, events);
    ForcedShowsFetched(r, j, w, events);
  }

  // ---- how a copy gets stale ----

  function Ticks(at: nat, m: nat): seq<Event> { seq(m, _ => Tick(at)) }

  lemma {:induction false} ChronicleAppend(r: Request, j: nat, w: World, a: seq<Event>, b: seq<Event>)
    requires Sound(r, w) && j < |r.items| && Chronicle(r, j, w, a) && Chronicle(r, j, Finally(r, j, w, a), b)
    ensures Chronicle(r, j, w, a + b) && Finally(r, j, w, a + b) == Finally(r, j, Finally(r, j, w, a), b)
    decreases |a|
  {
    if a == [] {
      assert a + b == b;
    } else {
      ChronicleAppend(r, j, Happen(r, j, w, a[0]), a[1..], b);
      assert (a + b)[1..] == a[1..] + b;
    }
  }

  predicate BeforeFetch(p: (Local, Tree), d: Tree, k: nat) { p.0.pc == PC.Fetch(k) && p.1 == d }

  lemma FetchGood(r: Request, e: Env, p: (Local, Tree), d: Tree, k: nat)
    requires WellFormed(r) && Sane(r, e, p.0) && k < |r.items| && BeforeFetch(p, d, k) && FetchOk(r, e, d, k)
    ensures BeforeFetch(Step(r, e, p.0, p.1), d, k + 1)
  {
  }

  /** While the fetches succeed step k is the fetch of item k. */
  lemma {:induction false} FetchPhase(r: Request, e: Env, d: Tree, k: nat)
    requires Startable(r, e) && k <= |r.items| && forall i | 0 <= i < |r.items| :: FetchOk(r, e, d, i)
    ensures BeforeFetch(At(r, e, d, k), d, k)
  {
    if k > 0 {
      FetchPhase(r, e, d, k - 1);
      FetchGood(r, e, At(r, e, d, k - 1), d, k - 1);
    }
  }

  lemma FetchOnward(r: Request, e: Env, l: Local, t: Tree)
    requires WellFormed(r) && Sane(r, e, l)
    ensures var l' := Step(r, e, l, t).0; l'.pc.Fetch? ==> l.pc.Fetch? && l'.pc.i == l.pc.i + 1
  {
  }

  lemma {:induction false} FetchIndex(r: Request, e: Env, d: Tree, k: nat)
    requires WellFormed(r) && Permutes(e.order, |r.items|)
    ensures At(r, e, d, k).0.pc.Fetch? ==> At(r, e, d, k).0.pc.i == k
  {
    if k > 0 {
      FetchIndex(r, e, d, k - 1);
      var (l, t) := At(r, e, d, k - 1);
      FetchOnward(r, e, l, t);
      Advance(r, e, d, k - 1, l, t, Step(r, e, l, t).0, Step(r, e, l, t).1);
    }
  }

  /** None of these steps fetches item j, or writes it at another moment. */
  ghost predicate Uneventful(r: Request, j: nat, e: Env, d: Tree, from: nat, to: nat, at: nat)
    requires WellFormed(r) && Permutes(e.order, |r.items|)
  {
    forall k: nat | from <= k < to ::
      At(r, e, d, k).0.pc != PC.Fetch(j) && (At(r, e, d, k).0.pc == WriteAll(j) ==> e.wrote(j) == at)
  }

  /** The same run some steps later, on the same server. */
  ghost predicate Later(w: World, w': World, steps: nat) {
    && w.run.Some? && w'.run.Some? && w'.log == w.log && w'.last == w.last
    && w'.run.value.env == w.run.value.env && w'.run.value.from == w.run.value.from
    && w'.run.value.steps == w.run.value.steps + steps
  }

  lemma OneTick(r: Request, j: nat, w: World, at: nat)
    requires Sound(r, w) && j < |r.items| && w.run.Some? && Possible(r, j, w, Tick(at))
    ensures var w', a := Happen(r, j, w, Tick(at)), w.run.value;
      && Later(w, w', 1) && w'.clock == at
      && w'.run.value.fetch == if a.local.pc == PC.Fetch(j) then Some(Reading(|w.log| - 1, at)) else a.fetch
  {
  }

  lemma ChronicleCons(r: Request, j: nat, w: World, ev: Event, rest: seq<Event>)
    requires Sound(r, w) && j < |r.items| && Possible(r, j, w, ev)
    requires Chronicle(r, j, Happen(r, j, w, ev), rest)
    ensures Chronicle(r, j, w, [ev] + rest) && Finally(r, j, w, [ev] + rest) == Finally(r, j, Happen(r, j, w, ev), rest)
  {
    assert ([ev] + rest)[1..] == rest;
  }

  lemma OneEvent(r: Request, j: nat, w: World, ev: Event)
    requires Sound(r, w) && j < |r.items| && Possible(r, j, w, ev)
    ensures Chronicle(r, j, w, [ev]) && Finally(r, j, w, [ev]) == Happen(r, j, w, ev)
  {
    ChronicleCons(r, j, w, ev, []);
    assert [ev] + [] == [ev];
  }

  /** So many uneventful steps of the run in progress, all at one moment. */
  lemma {:induction false} RunTicks(r: Request, j: nat, w: World, at: nat, m: nat)
    requires Sound(r, w) && j < |r.items| && w.run.Some? && at >= w.clock
    requires var a := w.run.value; Uneventful(r, j, a.env, a.from, a.steps, a.steps + m, at)
    ensures Chronicle(r, j, w, Ticks(at, m))
    ensures var w' := Finally(r, j, w, Ticks(at, m));
      Later(w, w', m) && w'.clock <= at && w'.run.value.fetch == w.run.value.fetch
    decreases m
  {
    if m > 0 {
      var a := w.run.value;
      UneventfulHere(r, j, w, at, m);
      OneTick(r, j, w, at);
      var w1 := Happen(r, j, w, Tick(at));
      RunTicks(r, j, w1, at, m - 1);
      assert Ticks(at, m) == [Tick(at)] + Ticks(at, m - 1);
      ChronicleCons(r, j, w, Tick(at), Ticks(at, m - 1));
    }
  }

  lemma UneventfulHere(r: Request, j: nat, w: World, at: nat, m: nat)
    requires Sound(r, w) && j < |r.items| && w.run.Some? && m > 0
    requires var a := w.run.value; Uneventful(r, j, a.env, a.from, a.steps, a.steps + m, at)
    ensures var a := w.run.value;
      a.local.pc != PC.Fetch(j) && (a.local.pc == WriteAll(j) ==> a.env.wrote(j) == at)
    ensures var a := w.run.value; Uneventful(r, j, a.env, a.from, a.steps + 1, a.steps + m, at)
  {
    var a := w.run.value;
    assert At(r, a.env, a.from, a.steps) == (a.local, w.tree);
  }

  /** A run that will succeed and publish item j, answered by the server as it is. */
  ghost predicate Refreshes(r: Request, j: nat, w: World, e: Env, n: nat)
    requires Sound(r, w) && j < |r.items|
  {
    && Traced(r, j, w) && w.run.None? && Startable(r, e) && e.second > w.last
    && Answered(Latest(w), Since(r, e, w.tree, j), Fetched(r, e, w.tree, j))
    && Fresh(r, e, w.tree, j) != "" && At(r, e, w.tree, n).0.pc == Done(true)
  }

  lemma SuccessFetches(r: Request, j: nat, w: World, e: Env, n: nat)
    requires Sound(r, w) && j < |r.items| && Refreshes(r, j, w, e, n)
    ensures n > j && At(r, e, w.tree, j).0.pc == PC.Fetch(j) && At(r, e, w.tree, j).1 == w.tree
  {
    StoreReady(r, e, w.tree, w.last);
    InvAt(r, e, w.tree, n);
    FetchPhase(r, e, w.tree, j);
    if n <= j {
      Settled(r, e, w.tree, n, j);
    }
  }

  /** Before the fetch of item j there are only other fetches. */
  lemma UneventfulBefore(r: Request, j: nat, w: World, e: Env, n: nat, at: nat)
    requires Sound(r, w) && j < |r.items| && Refreshes(r, j, w, e, n)
    ensures Uneventful(r, j, e, w.tree, 0, j, at)
  {
    StoreReady(r, e, w.tree, w.last);
    InvAt(r, e, w.tree, n);
    forall k: nat | k < j
      ensures At(r, e, w.tree, k).0.pc == PC.Fetch(k)
    {
      FetchPhase(r, e, w.tree, k);
    }
  }

  /** After it item j is never fetched again. */
  lemma UneventfulAfter(r: Request, j: nat, e: Env, d: Tree, n: nat)
    requires WellFormed(r) && Permutes(e.order, |r.items|)
    ensures Uneventful(r, j, e, d, j + 1, n, e.wrote(j))
  {
    forall k: nat
      ensures At(r, e, d, k).0.pc == PC.Fetch(j) ==> k == j
    {
      FetchIndex(r, e, d, k);
    }
  }

  /** The run begins and takes its first steps, up to and with the fetch of item j. */
  function UpToFetch(e: Env, j: nat, at: nat): seq<Event> { [Begin(e, at)] + (Ticks(at, j) + [Tick(at)]) }

  lemma BeginWorld(r: Request, j: nat, w: World, e: Env, n: nat, at: nat)
    requires Sound(r, w) && j < |r.items| && Refreshes(r, j, w, e, n) && at >= w.clock
    ensures Possible(r, j, w, Begin(e, at))
    ensures var v := Happen(r, j, w, Begin(e, at));
      v.clock == at && v.log == w.log && v.run == Some(Active(e, w.tree, 0, Init(r), None))
  {
  }

  /** The moment before item j is fetched. */
  lemma FetchMoment(r: Request, j: nat, w: World, e: Env, n: nat, v: World)
    requires Sound(r, w) && j < |r.items| && Refreshes(r, j, w, e, n)
    requires Sound(r, v) && v.run.Some? && v.run.value.env == e && v.run.value.from == w.tree && v.run.value.steps == j
    ensures v.run.value.local.pc == PC.Fetch(j) && v.tree == w.tree
  {
    SuccessFetches(r, j, w, e, n);
    assert At(r, e, w.tree, j) == (v.run.value.local, v.tree);
  }

  lemma UpToUpdate(r: Request, j: nat, w: World, e: Env, n: nat, at: nat)
    requires Sound(r, w) && j < |r.items| && Refreshes(r, j, w, e, n) && at >= w.clock
    ensures Chronicle(r, j, w, UpToFetch(e, j, at))
    ensures var v := Finally(r, j, w, UpToFetch(e, j, at));
      && v.run.Some? && v.clock <= at && v.log == w.log
      && v.run.value.env == e && v.run.value.from == w.tree && v.run.value.steps == j + 1
      && v.run.value.fetch == Some(Reading(|w.log| - 1, at))
  {
    UneventfulBefore(r, j, w, e, n, at);
    BeginWorld(r, j, w, e, n, at);
    var w1 := Happen(r, j, w, Begin(e, at));
    RunTicks(r, j, w1, at, j);
    FetchMoment(r, j, w, e, n, Finally(r, j, w1, Ticks(at, j)));
    FetchTick(r, j, Finally(r, j, w1, Ticks(at, j)), at);
    ChronicleAppend(r, j, w1, Ticks(at, j), [Tick(at)]);
    ChronicleCons(r, j, w, Begin(e, at), Ticks(at, j) + [Tick(at)]);
  }

  lemma FetchTick(r: Request, j: nat, w: World, at: nat)
    requires Sound(r, w) && j < |r.items| && w.run.Some? && at >= w.clock && w.run.value.local.pc == PC.Fetch(j)
    requires Answered(Latest(w), Since(r, w.run.value.env, w.tree, j), Fetched(r, w.run.value.env, w.tree, j))
    ensures Chronicle(r, j, w, [Tick(at)])
    ensures var v := Finally(r, j, w, [Tick(at)]);
      Later(w, v, 1) && v.clock == at && v.run.value.fetch == Some(Reading(|w.log| - 1, at))
  {
    OneTick(r, j, w, at);
    OneEvent(r, j, w, Tick(at));
  }

  /** The file is replaced, and later the run takes the rest of its steps. */
  function FromUpdate(content: string, updated: nat, at: nat, m: nat): seq<Event> {
    [Update(content, updated)] + Ticks(at, m)
  }

  lemma UpToEnd(r: Request, j: nat, w: World, m: nat, content: string, updated: nat, at: nat)
    requires Sound(r, w) && j < |r.items| && w.run.Some? && w.clock <= updated <= at
    requires var a := w.run.value; Uneventful(r, j, a.env, a.from, a.steps, a.steps + m, at)
    ensures Chronicle(r, j, w, FromUpdate(content, updated, at, m))
    ensures var v, a := Finally(r, j, w, FromUpdate(content, updated, at, m)), w.run.value;
      && v.run.Some? && v.clock <= at && v.log == w.log + [Source(content, updated)]
      && v.run.value.env == a.env && v.run.value.from == a.from
      && v.run.value.steps == a.steps + m && v.run.value.fetch == a.fetch
  {
    var w1 := Happen(r, j, w, Update(content, updated));
    RunTicks(r, j, w1, at, m);
    ChronicleCons(r, j, w, Update(content, updated), Ticks(at, m));
  }

  /** A run in progress that has published a copy made stale by the latest update. */
  lemma SuccessIsStale(r: Request, j: nat, w: World, fetched: nat)
    requires Traced(r, j, w) && w.run.Some? && w.run.value.local.pc == Done(true)
    requires var a := w.run.value;
      && Fresh(r, a.env, a.from, j) != "" && |w.log| >= 2
      && a.fetch == Some(Reading(|w.log| - 2, fetched))
      && fetched <= Latest(w).mtime <= a.env.wrote(j) && Latest(w).content != Fresh(r, a.env, a.from, j)
    ensures Stale(r, j, w)
  {
    var a := w.run.value;
    RunInv(r, j, w);
    PublishedIffFresh(r, a.env, a.from, a.local, w.tree, j);
    ViewNew(r, a.env, a.from, a.local, w.tree, j);
    SecMonotone(fetched, Latest(w).mtime);
    SecMonotone(Latest(w).mtime, a.env.wrote(j));
  }

  lemma StaleStopped(r: Request, j: nat, w: World, at: nat)
    requires Traced(r, j, w) && w.run.Some? && at >= w.clock && Stale(r, j, w)
    ensures var v := Happen(r, j, w, Stop(at)); v.run.None? && Stale(r, j, v) && v.log == w.log
  {
  }

  lemma StopStale(r: Request, j: nat, w: World, events: seq<Event>, at: nat)
    requires Traced(r, j, w) && Chronicle(r, j, w, events)
    requires var v := Finally(r, j, w, events); v.run.Some? && at >= v.clock && Stale(r, j, v)
    ensures Chronicle(r, j, w, events + [Stop(at)])
    ensures var v := Finally(r, j, w, events + [Stop(at)]);
      v.run.None? && Stale(r, j, v) && v.log == Finally(r, j, w, events).log
  {
    var v := Finally(r, j, w, events);
    TracedAlways(r, j, w, events);
    StaleStopped(r, j, v, at);
    OneEvent(r, j, v, Stop(at));
    ChronicleAppend(r, j, w, events, [Stop(at)]);
  }

  /** The run has fetched item j at this moment, and will have succeeded after n steps. */
  ghost predicate Midway(r: Request, j: nat, w: World, n: nat, fetched: nat) {
    && Traced(r, j, w) && w.run.Some? && w.clock <= fetched
    && var a := w.run.value;
       && a.steps <= n && a.fetch == Some(Reading(|w.log| - 1, fetched))
       && Uneventful(r, j, a.env, a.from, a.steps, n, a.env.wrote(j))
       && At(r, a.env, a.from, n).0.pc == Done(true) && Fresh(r, a.env, a.from, j) != ""
  }

  /** v is where the run from w has just fetched item j. */
  lemma FetchedIsMidway(r: Request, j: nat, w: World, v: World, e: Env, n: nat, fetched: nat)
    requires Sound(r, w) && j < |r.items| && Refreshes(r, j, w, e, n) && n > j
    requires Traced(r, j, v) && v.run.Some? && v.clock <= fetched && v.log == w.log
    requires v.run.value.env == e && v.run.value.from == w.tree && v.run.value.steps == j + 1
    requires v.run.value.fetch == Some(Reading(|w.log| - 1, fetched))
    ensures Midway(r, j, v, n, fetched)
  {
    UneventfulAfter(r, j, e, w.tree, n);
  }

  lemma LongerThanFetches(r: Request, j: nat, w: World, e: Env, n: nat)
    requires Sound(r, w) && j < |r.items| && Refreshes(r, j, w, e, n)
    ensures n > j
  {
    SuccessFetches(r, j, w, e, n);
  }

  lemma MidwayReached(r: Request, j: nat, w: World, e: Env, n: nat, fetched: nat)
    requires Sound(r, w) && j < |r.items| && Refreshes(r, j, w, e, n) && fetched >= w.clock
    ensures n > j && Chronicle(r, j, w, UpToFetch(e, j, fetched))
    ensures var v := Finally(r, j, w, UpToFetch(e, j, fetched));
      && Midway(r, j, v, n, fetched)
      && v.run.value.env == e && v.run.value.steps == j + 1 && v.run.value.from == w.tree
  {
    LongerThanFetches(r, j, w, e, n);
    UpToUpdate(r, j, w, e, n, fetched);
    TracedAlways(r, j, w, UpToFetch(e, j, fetched));
    FetchedIsMidway(r, j, w, Finally(r, j, w, UpToFetch(e, j, fetched)), e, n, fetched);
  }

  lemma EndReached(r: Request, v: World, n: nat)
    requires Sound(r, v) && v.run.Some? && v.run.value.steps == n
    ensures At(r, v.run.value.env, v.run.value.from, n) == (v.run.value.local, v.tree)
  {
  }

  predicate EndsStale(r: Request, j: nat, v: World, src: Source)
    requires WellFormed(r) && j < |r.items|
  {
    v.run.Some? && v.log != [] && Latest(v) == src && Stale(r, j, v)
  }

  /** v is the end of the run midway in w, the server's file replaced in between. */
  lemma EndIsStale(r: Request, j: nat, w: World, v: World, n: nat, content: string, fetched: nat, updated: nat)
    requires Midway(r, j, w, n, fetched) && fetched <= updated <= w.run.value.env.wrote(j)
    requires content != Fresh(r, w.run.value.env, w.run.value.from, j)
    requires Traced(r, j, v) && v.run.Some? && v.log == w.log + [Source(content, updated)]
    requires v.run.value.env == w.run.value.env && v.run.value.from == w.run.value.from
    requires v.run.value.steps == n && v.run.value.fetch == w.run.value.fetch
    ensures EndsStale(r, j, v, Source(content, updated))
  {
    EndReached(r, v, n);
    SuccessIsStale(r, j, v, fetched);
  }

  lemma MidwayEnds(r: Request, j: nat, w: World, n: nat, m: nat, content: string, fetched: nat, updated: nat)
    requires Midway(r, j, w, n, fetched) && fetched <= updated <= w.run.value.env.wrote(j)
    requires content != Fresh(r, w.run.value.env, w.run.value.from, j) && n == w.run.value.steps + m
    ensures var events := FromUpdate(content, updated, w.run.value.env.wrote(j), m);
      && Chronicle(r, j, w, events) && EndsStale(r, j, Finally(r, j, w, events), Source(content, updated))
      && Finally(r, j, w, events).clock <= w.run.value.env.wrote(j)
  {
    var at := w.run.value.env.wrote(j);
    UpToEnd(r, j, w, m, content, updated, at);
    TracedAlways(r, j, w, FromUpdate(content, updated, at, m));
    EndIsStale(r, j, w, Finally(r, j, w, FromUpdate(content, updated, at, m)), n, content, fetched, updated);
  }

  lemma StaleAppended(r: Request, j: nat, w: World, one: seq<Event>, two: seq<Event>, src: Source, at: nat)
    requires Traced(r, j, w) && Chronicle(r, j, w, one) && Chronicle(r, j, Finally(r, j, w, one), two)
    requires var v := Finally(r, j, Finally(r, j, w, one), two); EndsStale(r, j, v, src) && v.clock <= at
    ensures Chronicle(r, j, w, one + two + [Stop(at)])
    ensures var v := Finally(r, j, w, one + two + [Stop(at)]);
      Traced(r, j, v) && v.run.None? && Stale(r, j, v) && Latest(v) == src
  {
    ChronicleAppend(r, j, w, one, two);
    StopStale(r, j, w, one + two, at);
    TracedAlways(r, j, w, one + two + [Stop(at)]);
  }

  /** The run begins and fetches item j at one moment, the server's file is replaced at
      another, and the run goes on to its end at the moment of its write. */
  function Disturbed(e: Env, j: nat, n: nat, content: string, fetched: nat, updated: nat): seq<Event>
    requires n > j
  {
    UpToFetch(e, j, fetched) + FromUpdate(content, updated, e.wrote(j), n - (j + 1)) + [Stop(e.wrote(j))]
  }

  /** The history can go on with these events; it then ends with no run under way, src on
      the server and a stale copy on the client. */
  ghost predicate LeavesStale(r: Request, j: nat, w: World, events: seq<Event>, src: Source)
    requires Sound(r, w) && j < |r.items|
  {
    && Chronicle(r, j, w, events)
    && var v := Finally(r, j, w, events);
       Traced(r, j, v) && v.run.None? && Stale(r, j, v) && Latest(v) == src
  }

  /** After any history, any run that would refresh the copy leaves a stale one if the
      server's file is replaced at any moment between its fetch and its write, both
      inclusive, whatever those moments are. */
  lemma WindowIsNeeded(
      r: Request, j: nat, w: World, e: Env, n: nat, content: string, fetched: nat, updated: nat)
    requires Sound(r, w) && j < |r.items| && Refreshes(r, j, w, e, n)
    requires w.clock <= fetched <= updated <= e.wrote(j) && content != Fresh(r, e, w.tree, j)
    ensures n > j && LeavesStale(r, j, w, Disturbed(e, j, n, content, fetched, updated), Source(content, updated))
  {
    MidwayReached(r, j, w, e, n, fetched);
    MidwayDisturbed(r, j, w, UpToFetch(e, j, fetched), e, n, n - (j + 1), content, fetched, updated);
  }

  lemma MidwayDisturbed(
      r: Request, j: nat, w: World, one: seq<Event>, e: Env, n: nat, m: nat,
      content: string, fetched: nat, updated: nat)
    requires Traced(r, j, w) && Chronicle(r, j, w, one) && fetched <= updated <= e.wrote(j)
    requires var v := Finally(r, j, w, one);
      && Midway(r, j, v, n, fetched) && v.run.value.env == e && n == v.run.value.steps + m
      && content != Fresh(r, e, v.run.value.from, j)
    ensures LeavesStale(
      r, j, w, one + FromUpdate(content, updated, e.wrote(j), m) + [Stop(e.wrote(j))], Source(content, updated))
  {
    MidwayEnds(r, j, Finally(r, j, w, one), n, m, content, fetched, updated);
    StaleAppended(r, j, w, one, FromUpdate(content, updated, e.wrote(j), m), Source(content, updated), e.wrote(j));
  }

  /** Once a copy is visible, an update makes it stale if and only if it falls into the
      copy's window, after the write too, and makes a difference. */
  lemma UpdateStaleIffInWindow(r: Request, j: nat, w: World, content: string, at: nat)
    requires Traced(r, j, w) && at >= w.clock && Seen(r, w.tree, j).Some? && Seen(r, w.tree, j).value.File?
    ensures w.deliveries != []
    ensures Stale(r, j, Happen(r, j, w, Update(content, at))) <==>
      InWindow(w.deliveries[|w.deliveries| - 1], at) && content != Seen(r, w.tree, j).value.content
  {
  }
}
