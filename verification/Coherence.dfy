/** The client's copy of one file over whole histories on a common clock: updates of
    the server's file between any two steps of the client's runs. */
module Coherence {
  import opened Text
  import opened Disk
  import opened Execution
  import opened Invariant
  import opened Publication
  import opened Store
  import opened Cache

  // ---- histories ----

  /** The version of the server's file a fetch was answered by, and the clock then. */
  datatype Reading = Reading(version: nat, at: nat)

  /** A run of Execute in progress. */
  datatype Active = Active(env: Env, from: Tree, steps: nat, local: Local, fetch: Option<Reading>)

  /** A copy that was published: its fetch, and the clock at its local write. */
  datatype Delivery = Delivery(fetch: Reading, wrote: nat)

  datatype World = World(
    clock: nat,                  // in ticks
    log: seq<Source>,            // the versions of the server's file, the latest last
    tree: Tree,
    last: nat,                   // the infix second of the last run
    run: Option<Active>,
    deliveries: seq<Delivery>)

  datatype Event =
    | Update(content: string, at: nat)   // the server's file is replaced; its mtime is the clock
    | Begin(env: Env, at: nat)           // Execute is called
    | Tick(at: nat)                      // and takes one step
    | Stop(at: nat)                      // it has returned, or the process has died

  /** The run is where so many steps from its first tree lead. */
  ghost predicate OnTrack(r: Request, a: Active, t: Tree) {
    Startable(r, a.env) && At(r, a.env, a.from, a.steps) == (a.local, t)
  }

  ghost predicate Sound(r: Request, w: World) {
    && WellFormed(r) && w.log != []
    && match w.run
       case None => true
       case Some(a) => OnTrack(r, a, w.tree)
  }

  function Latest(w: World): Source
    requires w.log != []
  {
    w.log[|w.log| - 1]
  }

  /** The server's answer, unless the request fails. */
  predicate Answered(src: Source, since: Option<nat>, a: Answer) {
    a == Reply(src, since) || a.Refused? || a.Broken?
  }

  /** The clock never goes back, item j is answered by the latest version, and the file
      written for it carries the clock of its write. No other premise. */
  ghost predicate Possible(r: Request, j: nat, w: World, ev: Event)
    requires Sound(r, w) && j < |r.items|
  {
    && ev.at >= w.clock
    && match ev
       case Update(_, _) => true
       case Begin(e, _) => w.run.None? && Startable(r, e) && e.second > w.last
       case Tick(at) => w.run.Some? && TickPossible(r, j, w, at)
       case Stop(_) => w.run.Some?
  }

  ghost predicate TickPossible(r: Request, j: nat, w: World, at: nat)
    requires Sound(r, w) && j < |r.items| && w.run.Some?
  {
    var Active(e, _, _, l, _) := w.run.value;
    && (l.pc == PC.Fetch(j) ==> Answered(Latest(w), Since(r, e, w.tree, j), Fetched(r, e, w.tree, j)))
    && (l.pc == WriteAll(j) ==> e.wrote(j) == at)
  }

  ghost function Happen(r: Request, j: nat, w: World, ev: Event): (w': World)
    requires Sound(r, w) && j < |r.items| && Possible(r, j, w, ev)
    ensures Sound(r, w')
  {
    match ev
    case Update(content, at) => w.(clock := at, log := w.log + [Source(content, at)])
    case Begin(e, at) => w.(clock := at, run := Some(Active(e, w.tree, 0, Init(r), None)))
    case Tick(at) => Ticked(r, j, w, at)
    case Stop(at) => w.(clock := at, run := None, last := w.run.value.env.second)
  }

  ghost function Stepped(r: Request, a: Active, t: Tree): (s: (Local, Tree))
    requires OnTrack(r, a, t)
    ensures s == Step(r, a.env, a.local, t)
    ensures OnTrack(r, a.(steps := a.steps + 1, local := s.0), s.1)
  {
    var s := Step(r, a.env, a.local, t);
    Advance(r, a.env, a.from, a.steps, a.local, t, s.0, s.1);
    s
  }

  ghost function Ticked(r: Request, j: nat, w: World, at: nat): (w': World)
    requires Sound(r, w) && j < |r.items| && w.run.Some?
    ensures Sound(r, w')
  {
    var a := w.run.value;
    var (l, t) := Stepped(r, a, w.tree);
    var fetch := if a.local.pc == PC.Fetch(j) then Some(Reading(|w.log| - 1, at)) else a.fetch;
    var published := j in l.published && j !in a.local.published && fetch.Some?;
    var a' := a.(steps := a.steps + 1, local := l, fetch := fetch);
    assert OnTrack(r, a'.(fetch := a.fetch), t);
    w.(clock := at, tree := t, run := Some(a'),
       deliveries := if published then w.deliveries + [Delivery(fetch.value, a.env.wrote(j))] else w.deliveries)
  }

  ghost predicate Chronicle(r: Request, j: nat, w: World, events: seq<Event>)
    requires Sound(r, w) && j < |r.items|
    decreases |events|
  {
    events == []
    || (Possible(r, j, w, events[0]) && Chronicle(r, j, Happen(r, j, w, events[0]), events[1..]))
  }

  ghost function Finally(r: Request, j: nat, w: World, events: seq<Event>): (w': World)
    requires Sound(r, w) && j < |r.items| && Chronicle(r, j, w, events)
    ensures Sound(r, w')
    decreases |events|
  {
    if events == [] then w else Finally(r, j, Happen(r, j, w, events[0]), events[1..])
  }

  // ---- where a copy comes from ----

  /** What the clock says of a fetch: its version was the latest then. */
  predicate Timely(w: World, f: Reading) {
    && f.version < |w.log| && w.log[f.version].mtime <= f.at <= w.clock
    && forall k | f.version < k < |w.log| :: w.log[k].mtime >= f.at
  }

  predicate Clocked(w: World) {
    && (forall k | 0 <= k < |w.log| :: w.log[k].mtime <= w.clock)
    && (forall i | 0 <= i < |w.deliveries| :: Timely(w, w.deliveries[i].fetch))
    && (w.run.Some? && w.run.value.fetch.Some? ==> Timely(w, w.run.value.fetch.value))
  }

  /** The copy a reader sees is the one delivered last, with the content the server had
      at its fetch and the time of its write. */
  predicate Original(r: Request, j: nat, w: World)
    requires WellFormed(r) && j < |r.items|
  {
    var v := Seen(r, w.tree, j);
    v.Some? && v.value.File? ==>
      && w.deliveries != []
      && var d := w.deliveries[|w.deliveries| - 1];
         d.fetch.version < |w.log| && v.value.content == w.log[d.fetch.version].content && v.value.mtime == d.wrote
  }

  /** Without a fetch of item j nothing has been published. */
  predicate Unfetched(j: nat, a: Active) {
    a.fetch.None? ==>
      a.local.published == {} && (a.local.pc == Done(false) || (a.local.pc.Fetch? && a.local.pc.i <= j))
  }

  /** A body the run fetched is that of the version it was answered by. */
  ghost predicate FetchedVersion(r: Request, j: nat, a: Active, log: seq<Source>)
    requires WellFormed(r) && j < |r.items|
  {
    a.fetch.Some? && Fetched(r, a.env, a.from, j).Body? ==>
      a.fetch.value.version < |log| && Fetched(r, a.env, a.from, j).content == log[a.fetch.value.version].content
  }

  /** What the run has published of item j is delivered last. */
  predicate DeliveredLast(j: nat, a: Active, deliveries: seq<Delivery>) {
    j in a.local.published ==>
      a.fetch.Some? && deliveries != []
      && deliveries[|deliveries| - 1] == Delivery(a.fetch.value, a.env.wrote(j))
  }

  /** Where the run in progress is with item j. */
  ghost predicate Underway(r: Request, j: nat, w: World)
    requires Sound(r, w) && j < |r.items|
  {
    match w.run
    case None => StoreOk(r.dir, w.tree, w.last)
    case Some(a) =>
      && StoreOk(r.dir, a.from, w.last) && a.env.second > w.last
      && Unfetched(j, a) && FetchedVersion(r, j, a, w.log) && DeliveredLast(j, a, w.deliveries)
  }

  ghost predicate Traced(r: Request, j: nat, w: World) {
    Sound(r, w) && j < |r.items| && Clocked(w) && Original(r, j, w) && Underway(r, j, w)
  }

  /** A world to start from: no copy yet, and one version of the server's file. */
  lemma FirstWorld(r: Request, j: nat, src: Source, tree: Tree, last: nat, clock: nat)
    requires WellFormed(r) && j < |r.items| && StoreOk(r.dir, tree, last)
    requires Seen(r, tree, j).None? && src.mtime <= clock
    ensures Traced(r, j, World(clock, [src], tree, last, None, []))
  {
  }

  // ---- one event ----

  lemma RunInv(r: Request, j: nat, w: World)
    requires Traced(r, j, w) && w.run.Some?
    ensures var a := w.run.value;
      Ready(r, a.env, a.from) && Inv(r, a.env, a.from, a.local, w.tree)
  {
    var a := w.run.value;
    StoreReady(r, a.env, a.from, w.last);
    InvAt(r, a.env, a.from, a.steps);
  }

  lemma PublishedGrows(r: Request, e: Env, l: Local, t: Tree)
    requires WellFormed(r) && Sane(r, e, l)
    ensures var l' := Step(r, e, l, t).0;
      && l.published <= l'.published
      && (l'.published != l.published ==> l.pc.RenameAt?)
  {
  }

  /** A reader sees a change exactly when item j gets published: then the whole body. */
  lemma TickSeen(r: Request, j: nat, w: World)
    requires Traced(r, j, w) && w.run.Some?
    ensures var a := w.run.value;
      var (l, t) := Stepped(r, a, w.tree);
      Seen(r, t, j) ==
        if j in l.published && j !in a.local.published then Some(Finished(r, a.env, j, Fresh(r, a.env, a.from, j)))
        else Seen(r, w.tree, j)
  {
    var a := w.run.value;
    var (l, t) := Stepped(r, a, w.tree);
    RunInv(r, j, w);
    InvStep(r, a.env, a.from, a.local, w.tree);
    PublishedGrows(r, a.env, a.local, w.tree);
    if j in l.published {
      ViewNew(r, a.env, a.from, l, t, j);
    } else {
      ViewOld(r, a.env, a.from, l, t, j);
    }
    if j in a.local.published {
      ViewNew(r, a.env, a.from, a.local, w.tree, j);
    } else {
      ViewOld(r, a.env, a.from, a.local, w.tree, j);
    }
  }

  /** During the fetches the disk is the one the run started from. */
  lemma FetchingTree(r: Request, j: nat, w: World)
    requires Traced(r, j, w) && w.run.Some? && w.run.value.local.pc.Fetch?
    ensures w.tree == w.run.value.from && w.run.value.local.published == {}
  {
    RunInv(r, j, w);
  }

  lemma PublishedIsBody(r: Request, j: nat, w: World)
    requires Traced(r, j, w) && w.run.Some?
    requires var a := w.run.value;
      var l := Stepped(r, a, w.tree).0;
      j in l.published && j !in a.local.published
    ensures var a := w.run.value;
      && a.fetch.Some? && !a.local.pc.Fetch? && Fetched(r, a.env, a.from, j).Body?
      && Fetched(r, a.env, a.from, j).content == Fresh(r, a.env, a.from, j)
  {
    var a := w.run.value;
    RunInv(r, j, w);
    InvStep(r, a.env, a.from, a.local, w.tree);
    PublishedGrows(r, a.env, a.local, w.tree);
  }

  lemma TickClocked(r: Request, j: nat, w: World, at: nat)
    requires Traced(r, j, w) && w.run.Some? && at >= w.clock
    ensures Clocked(Ticked(r, j, w, at))
  {
    var w' := Ticked(r, j, w, at);
    var f := w'.run.value.fetch;
    assert f.Some? ==> Timely(w', f.value);
    forall i | 0 <= i < |w'.deliveries|
      ensures Timely(w', w'.deliveries[i].fetch)
    {
      if i < |w.deliveries| {
        assert Timely(w, w.deliveries[i].fetch);
      }
    }
  }

  lemma TickOriginal(r: Request, j: nat, w: World, at: nat)
    requires Traced(r, j, w) && w.run.Some?
    ensures Original(r, j, Ticked(r, j, w, at))
  {
    var a := w.run.value;
    var l := Stepped(r, a, w.tree).0;
    TickSeen(r, j, w);
    if j in l.published && j !in a.local.published {
      PublishedIsBody(r, j, w);
    }
  }

  lemma TickUnfetched(r: Request, j: nat, w: World, at: nat)
    requires Traced(r, j, w) && w.run.Some?
    ensures Unfetched(j, Ticked(r, j, w, at).run.value)
  {
    var a := w.run.value;
    PublishedGrows(r, a.env, a.local, w.tree);
  }

  lemma TickFetched(r: Request, j: nat, w: World, at: nat)
    requires Traced(r, j, w) && Possible(r, j, w, Tick(at))
    ensures var w' := Ticked(r, j, w, at); FetchedVersion(r, j, w'.run.value, w'.log)
  {
    if w.run.value.local.pc.Fetch? {
      FetchingTree(r, j, w);
    }
  }

  lemma TickDelivered(r: Request, j: nat, w: World, at: nat)
    requires Traced(r, j, w) && w.run.Some?
    ensures var w' := Ticked(r, j, w, at); DeliveredLast(j, w'.run.value, w'.deliveries)
  {
    var a := w.run.value;
    var l := Stepped(r, a, w.tree).0;
    PublishedGrows(r, a.env, a.local, w.tree);
    if j in l.published && j !in a.local.published {
      PublishedIsBody(r, j, w);
    }
    if a.local.pc.Fetch? {
      FetchingTree(r, j, w);
    }
  }

  lemma TickUnderway(r: Request, j: nat, w: World, at: nat)
    requires Traced(r, j, w) && Possible(r, j, w, Tick(at))
    ensures Underway(r, j, Ticked(r, j, w, at))
  {
    TickUnfetched(r, j, w, at);
    TickFetched(r, j, w, at);
    TickDelivered(r, j, w, at);
  }

  lemma UpdateTraced(r: Request, j: nat, w: World, content: string, at: nat)
    requires Traced(r, j, w) && at >= w.clock
    ensures Traced(r, j, w.(clock := at, log := w.log + [Source(content, at)]))
  {
    var w' := w.(clock := at, log := w.log + [Source(content, at)]);
    forall i | 0 <= i < |w'.deliveries|
      ensures Timely(w', w'.deliveries[i].fetch)
    {
      assert Timely(w, w.deliveries[i].fetch);
    }
  }

  lemma StopTraced(r: Request, j: nat, w: World, at: nat)
    requires Traced(r, j, w) && Possible(r, j, w, Stop(at))
    ensures Traced(r, j, Happen(r, j, w, Stop(at)))
  {
    var a := w.run.value;
    StoreKept(r, a.env, a.from, w.last, a.steps);
    assert Clocked(Happen(r, j, w, Stop(at))) by {
      forall i | 0 <= i < |w.deliveries|
        ensures Timely(Happen(r, j, w, Stop(at)), w.deliveries[i].fetch)
      {
        assert Timely(w, w.deliveries[i].fetch);
      }
    }
  }

  lemma BeginTraced(r: Request, j: nat, w: World, e: Env, at: nat)
    requires Traced(r, j, w) && Possible(r, j, w, Begin(e, at))
    ensures Traced(r, j, Happen(r, j, w, Begin(e, at)))
  {
    forall i | 0 <= i < |w.deliveries|
      ensures Timely(Happen(r, j, w, Begin(e, at)), w.deliveries[i].fetch)
    {
      assert Timely(w, w.deliveries[i].fetch);
    }
  }

  lemma EventTraced(r: Request, j: nat, w: World, ev: Event)
    requires Traced(r, j, w) && Possible(r, j, w, ev)
    ensures Traced(r, j, Happen(r, j, w, ev))
  {
    match ev {
      case Update(content, at) => UpdateTraced(r, j, w, content, at);
      case Begin(e, at) => BeginTraced(r, j, w, e, at);
      case Tick(at) =>
        TickClocked(r, j, w, at);
        TickOriginal(r, j, w, at);
        TickUnderway(r, j, w, at);
      case Stop(at) => StopTraced(r, j, w, at);
    }
  }

  /** Through every history, without any premise on when updates happen, the visible
      copy is what the server had at its fetch. */
  lemma {:induction false} TracedAlways(r: Request, j: nat, w: World, events: seq<Event>)
    requires Traced(r, j, w) && Chronicle(r, j, w, events)
    ensures Traced(r, j, Finally(r, j, w, events))
    decreases |events|
  {
    if events != [] {
      EventTraced(r, j, w, events[0]);
      TracedAlways(r, j, Happen(r, j, w, events[0]), events[1..]);
    }
  }

  // ---- the window ----

  /** From the second of the fetch to the second of the local write, inclusive. */
  predicate InWindow(d: Delivery, at: nat) { Sec(d.fetch.at) <= Sec(at) <= Sec(d.wrote) }

  /** No update after the fetch of a published copy fell into its window. */
  predicate Undisturbed(w: World) {
    forall i, k | 0 <= i < |w.deliveries| && w.deliveries[i].fetch.version < k < |w.log| ::
      !InWindow(w.deliveries[i], w.log[k].mtime)
  }

  /** The latest update fell into the window of the copy that is visible, and made a
      difference. */
  predicate Stale(r: Request, j: nat, w: World)
    requires WellFormed(r) && j < |r.items|
  {
    && Seen(r, w.tree, j).Some? && Seen(r, w.tree, j).value.File?
    && w.log != [] && w.deliveries != []
    && var d := w.deliveries[|w.deliveries| - 1];
       && d.fetch.version < |w.log| - 1 && InWindow(d, Latest(w).mtime)
       && Latest(w).content != w.log[d.fetch.version].content
  }

  /** The exact condition, after every history: a differing copy is older, in seconds,
      than the server's file unless the latest update fell into its window. */
  lemma CoherentIffNotStale(r: Request, j: nat, w: World)
    requires Traced(r, j, w)
    ensures Coherent(r, j, Latest(w), w.tree) <==> !Stale(r, j, w)
  {
    var v := Seen(r, w.tree, j);
    if v.Some? && v.value.File? {
      var d := w.deliveries[|w.deliveries| - 1];
      assert Timely(w, d.fetch);
      assert w.log[d.fetch.version].content == v.value.content && v.value.mtime == d.wrote;
      if d.fetch.version < |w.log| - 1 {
        SecMonotone(d.fetch.at, Latest(w).mtime);
      }
    }
  }

  lemma SecMonotone(a: nat, b: nat)
    requires a <= b
    ensures Sec(a) <= Sec(b)
  {
  }

  lemma UndisturbedIsNotStale(r: Request, j: nat, w: World)
    requires WellFormed(r) && j < |r.items| && Undisturbed(w)
    ensures !Stale(r, j, w)
  {
  }

  /** Coherence over every history of updates, runs, failures and crashes on a common
      clock in which no update falls between the fetch and the local write of a
      published copy, by the seconds, both inclusive. */
  lemma CoherentAlways(r: Request, j: nat, w: World, events: seq<Event>)
    requires Traced(r, j, w) && Chronicle(r, j, w, events) && Undisturbed(Finally(r, j, w, events))
    ensures var w' := Finally(r, j, w, events); Coherent(r, j, Latest(w'), w'.tree)
  {
    TracedAlways(r, j, w, events);
    var w' := Finally(r, j, w, events);
    UndisturbedIsNotStale(r, j, w');
    CoherentIffNotStale(r, j, w');
  }

  /** A 304 is only ever given for an identical copy. */
  lemma FetchNotModified(r: Request, j: nat, w: World, events: seq<Event>, at: nat)
    requires Traced(r, j, w) && Chronicle(r, j, w, events) && Undisturbed(Finally(r, j, w, events))
    requires var w' := Finally(r, j, w, events);
      && Possible(r, j, w', Tick(at)) && w'.run.value.local.pc == PC.Fetch(j)
      && Fetched(r, w'.run.value.env, w'.tree, j).NotModified?
    ensures var w' := Finally(r, j, w, events); Current(r, j, Latest(w'), w'.tree)
  {
    CoherentAlways(r, j, w, events);
  }

  // ---- what a run that succeeds leaves ----

  /** A fetch answered 304 in an undisturbed history was of the content already seen. */
  ghost predicate Identical(r: Request, j: nat, w: World)
    requires Sound(r, w) && j < |r.items|
  {
    Undisturbed(w) ==>
      match w.run
      case None => true
      case Some(a) =>
        a.fetch.Some? && Fetched(r, a.env, a.from, j).NotModified? ==>
          a.fetch.value.version < |w.log| && Current(r, j, w.log[a.fetch.value.version], a.from)
  }

  /** Histories only add to what can disturb. */
  lemma UndisturbedBefore(r: Request, j: nat, w: World, ev: Event)
    requires Sound(r, w) && j < |r.items| && Possible(r, j, w, ev) && Undisturbed(Happen(r, j, w, ev))
    ensures Undisturbed(w)
  {
    var w' := Happen(r, j, w, ev);
    forall i, k | 0 <= i < |w.deliveries| && w.deliveries[i].fetch.version < k < |w.log|
      ensures !InWindow(w.deliveries[i], w.log[k].mtime)
    {
      assert w'.deliveries[i] == w.deliveries[i] && w'.log[k] == w.log[k];
    }
  }

  lemma EventIdentical(r: Request, j: nat, w: World, ev: Event)
    requires Traced(r, j, w) && Identical(r, j, w) && Possible(r, j, w, ev)
    ensures Identical(r, j, Happen(r, j, w, ev))
  {
    if Undisturbed(Happen(r, j, w, ev)) {
      UndisturbedBefore(r, j, w, ev);
      if ev.Tick? && w.run.value.local.pc == PC.Fetch(j) {
        FetchingTree(r, j, w);
        UndisturbedIsNotStale(r, j, w);
        CoherentIffNotStale(r, j, w);
      }
    }
  }

  lemma {:induction false} IdenticalAlways(r: Request, j: nat, w: World, events: seq<Event>)
    requires Traced(r, j, w) && Identical(r, j, w) && Chronicle(r, j, w, events)
    ensures Identical(r, j, Finally(r, j, w, events))
    decreases |events|
  {
    if events != [] {
      EventTraced(r, j, w, events[0]);
      EventIdentical(r, j, w, events[0]);
      IdenticalAlways(r, j, Happen(r, j, w, events[0]), events[1..]);
    }
  }

  /** The run in progress has succeeded, or waits for or runs its hook. */
  predicate Succeeded(w: World) { w.run.Some? && w.run.value.local.pc in {Lock, Hook, Done(true)} }

  /** The content the server had when the run in progress fetched item j. */
  function FetchedContent(w: World): string
    requires w.run.Some? && w.run.value.fetch.Some? && w.run.value.fetch.value.version < |w.log|
  {
    w.log[w.run.value.fetch.value.version].content
  }

  /** After any undisturbed history a run that succeeds shows what the server had at its
      fetch, whether that was sent or answered 304; only an empty body is not stored. */
  lemma SuccessShowsFetched(r: Request, j: nat, w: World, events: seq<Event>)
    requires Traced(r, j, w) && w.run.None? && Chronicle(r, j, w, events)
    requires var w' := Finally(r, j, w, events); Undisturbed(w') && Succeeded(w')
    ensures var w' := Finally(r, j, w, events);
      && w'.run.value.fetch.Some? && w'.run.value.fetch.value.version < |w'.log|
      && (FetchedContent(w') != "" ==>
            var v := Seen(r, w'.tree, j);
            v.Some? && v.value.File? && v.value.content == FetchedContent(w'))
  {
    var w' := Finally(r, j, w, events);
    TracedAlways(r, j, w, events);
    IdenticalAlways(r, j, w, events);
    SuccessOfRun(r, j, w');
  }

  lemma SuccessOfRun(r: Request, j: nat, w: World)
    requires Traced(r, j, w) && Identical(r, j, w) && Undisturbed(w) && Succeeded(w)
    ensures w.run.value.fetch.Some? && w.run.value.fetch.value.version < |w.log|
    ensures FetchedContent(w) != "" ==>
      var v := Seen(r, w.tree, j);
      v.Some? && v.value.File? && v.value.content == FetchedContent(w)
  {
    var a := w.run.value;
    RunInv(r, j, w);
    assert FetchOk(r, a.env, a.from, j);
    SuccessIsOverlay(r, a.env, a.from, a.steps, j);
  }

  /** A run that sends no date for item j is never answered 304. */
  ghost predicate Sent(r: Request, j: nat, w: World)
    requires Sound(r, w) && j < |r.items|
  {
    match w.run
    case None => true
    case Some(a) => a.fetch.Some? && Unconditional(a.env, j) ==> !Fetched(r, a.env, a.from, j).NotModified?
  }

  lemma EventSent(r: Request, j: nat, w: World, ev: Event)
    requires Traced(r, j, w) && Sent(r, j, w) && Possible(r, j, w, ev)
    ensures Sent(r, j, Happen(r, j, w, ev))
  {
    if ev.Tick? && w.run.value.local.pc == PC.Fetch(j) {
      FetchingTree(r, j, w);
    }
  }

  lemma {:induction false} SentAlways(r: Request, j: nat, w: World, events: seq<Event>)
    requires Traced(r, j, w) && Sent(r, j, w) && Chronicle(r, j, w, events)
    ensures Sent(r, j, Finally(r, j, w, events))
    decreases |events|
  {
    if events != [] {
      EventTraced(r, j, w, events[0]);
      EventSent(r, j, w, events[0]);
      SentAlways(r, j, Happen(r, j, w, events[0]), events[1..]);
    }
  }

  /** A forced run that succeeds shows what the server had at its fetch after every
      history, disturbed or not. */
  lemma ForcedShowsFetched(r: Request, j: nat, w: World, events: seq<Event>)
    requires Traced(r, j, w) && w.run.None? && Chronicle(r, j, w, events)
    requires var w' := Finally(r, j, w, events); Succeeded(w') && Unconditional(w'.run.value.env, j)
    ensures var w' := Finally(r, j, w, events);
      && w'.run.value.fetch.Some? && w'.run.value.fetch.value.version < |w'.log|
      && (FetchedContent(w') != "" ==>
            var v := Seen(r, w'.tree, j);
            v.Some? && v.value.File? && v.value.content == FetchedContent(w'))
  {
    var w' := Finally(r, j, w, events);
    TracedAlways(r, j, w, events);
    SentAlways(r, j, w, events);
    SuccessOfForced(r, j, w');
  }

  lemma SuccessOfForced(r: Request, j: nat, w: World)
    requires Traced(r, j, w) && Sent(r, j, w) && Succeeded(w) && Unconditional(w.run.value.env, j)
    ensures w.run.value.fetch.Some? && w.run.value.fetch.value.version < |w.log|
    ensures FetchedContent(w) != "" ==>
      var v := Seen(r, w.tree, j);
      v.Some? && v.value.File? && v.value.content == FetchedContent(w)
  {
    var a := w.run.value;
    RunInv(r, j, w);
    assert FetchOk(r, a.env, a.from, j);
    SuccessIsOverlay(r, a.env, a.from, a.steps, j);
  }

  /** A plain run in an undisturbed history ends in the same contents as a forced one in
      any: two histories from one world, whose runs fetched the same content. */
  lemma PlainEqualsForced(r: Request, j: nat, w: World, plain: seq<Event>, forced: seq<Event>)
    requires Traced(r, j, w) && w.run.None? && Chronicle(r, j, w, plain) && Chronicle(r, j, w, forced)
    requires var p, f := Finally(r, j, w, plain), Finally(r, j, w, forced);
      && Undisturbed(p) && Succeeded(p) && Succeeded(f)
      && !p.run.value.env.force && f.run.value.env.force
      && p.run.value.fetch.Some? && f.run.value.fetch.Some?
      && p.run.value.fetch.value.version < |p.log| && f.run.value.fetch.value.version < |f.log|
      && FetchedContent(p) == FetchedContent(f) != ""
    ensures var p, f := Finally(r, j, w, plain), Finally(r, j, w, forced);
      var u, v := Seen(r, p.tree, j), Seen(r, f.tree, j);
      && u.Some? && v.Some? && u.value.File? && v.value.File?
      && u.value.content == v.value.content == FetchedContent(f)
  {
    SuccessShowsFetched(r, j, w, plain);
    ForcedShowsFetched(r, j, w, forced);
  }

  // ---- a copy is no older than what it was made from ----

  predicate FetchBeforeWrite(j: nat, a: Active) {
    j in a.local.written ==> a.fetch.Some? && a.fetch.value.at <= a.env.wrote(j)
  }

  /** Copies are written after they are fetched. */
  predicate InOrder(j: nat, w: World) {
    && (forall i | 0 <= i < |w.deliveries| :: w.deliveries[i].fetch.at <= w.deliveries[i].wrote)
    && (w.run.Some? ==> FetchBeforeWrite(j, w.run.value))
  }

  lemma WrittenGrows(r: Request, e: Env, l: Local, t: Tree)
    requires WellFormed(r) && Sane(r, e, l)
    ensures var l' := Step(r, e, l, t).0;
      l'.written == l.written || (l.pc.WriteAll? && l'.written == l.written + {l.pc.i})
  {
  }

  lemma TickWritten(r: Request, j: nat, w: World, at: nat)
    requires Traced(r, j, w) && InOrder(j, w) && Possible(r, j, w, Tick(at))
    ensures FetchBeforeWrite(j, Ticked(r, j, w, at).run.value)
  {
    var a := w.run.value;
    WrittenGrows(r, a.env, a.local, w.tree);
    RunInv(r, j, w);
    if a.local.pc == WriteAll(j) {
      assert a.fetch.Some? && Timely(w, a.fetch.value);
    }
  }

  lemma EventInOrder(r: Request, j: nat, w: World, ev: Event)
    requires Traced(r, j, w) && InOrder(j, w) && Possible(r, j, w, ev)
    ensures InOrder(j, Happen(r, j, w, ev))
  {
    if ev.Tick? {
      var a := w.run.value;
      TickWritten(r, j, w, ev.at);
      PublishedWasWritten(r, j, w);
    }
  }

  lemma PublishedWasWritten(r: Request, j: nat, w: World)
    requires Traced(r, j, w) && w.run.Some?
    ensures var a := w.run.value;
      j in Stepped(r, a, w.tree).0.published && j !in a.local.published ==> j in a.local.written && !a.local.pc.Fetch?
  {
    var a := w.run.value;
    RunInv(r, j, w);
    InvStep(r, a.env, a.from, a.local, w.tree);
    PublishedGrows(r, a.env, a.local, w.tree);
    WrittenGrows(r, a.env, a.local, w.tree);
  }

  lemma {:induction false} InOrderAlways(r: Request, j: nat, w: World, events: seq<Event>)
    requires Traced(r, j, w) && InOrder(j, w) && Chronicle(r, j, w, events)
    ensures InOrder(j, Finally(r, j, w, events))
    decreases |events|
  {
    if events != [] {
      EventTraced(r, j, w, events[0]);
      EventInOrder(r, j, w, events[0]);
      InOrderAlways(r, j, Happen(r, j, w, events[0]), events[1..]);
    }
  }

  /** The visible copy is never older, in seconds, than the version it was made from. */
  lemma CopyNotOlder(r: Request, j: nat, w: World, events: seq<Event>)
    requires Traced(r, j, w) && InOrder(j, w) && Chronicle(r, j, w, events)
    ensures var w' := Finally(r, j, w, events);
      var v := Seen(r, w'.tree, j);
      v.Some? && v.value.File? ==>
        && w'.deliveries != []
        && var d := w'.deliveries[|w'.deliveries| - 1];
           d.fetch.version < |w'.log| && Sec(w'.log[d.fetch.version].mtime) <= Sec(v.value.mtime)
  {
    TracedAlways(r, j, w, events);
    InOrderAlways(r, j, w, events);
    var w' := Finally(r, j, w, events);
    var v := Seen(r, w'.tree, j);
    if v.Some? && v.value.File? {
      var d := w'.deliveries[|w'.deliveries| - 1];
      assert Timely(w', d.fetch);
      SecMonotone(w'.log[d.fetch.version].mtime, d.wrote);
    }
  }
}
