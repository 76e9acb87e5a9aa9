/** The whole program: what a client run that reports no error has put on disk. */
module WholeRun {
  import opened Text
  import opened Requests
  import opened Disk
  import opened Execution
  import opened Server
  import opened EndToEnd
  import opened Pool
  import Locality
  import PoolInvariant
  import Serial
  import ClientRuns
  import Driver
  import Invariant
  import Success

  /** A pool that reports no error has executed every request to its successful end. */
  lemma NoErrorsAllSucceeded(c: Config, schedule: seq<Label>, r: nat)
    requires Valid(c) && Legal(c, Start(c), schedule) && c.workers > 0 && r < |c.reqs|
    requires var s := After(c, Start(c), schedule); s.main == Returned(0) && !s.refused
    ensures Serial.Solo(c, After(c, Start(c), schedule), r).0.pc == Done(true)
  {
    var s := After(c, Start(c), schedule);
    Serial.SerialStart(c);
    Serial.SerialAlways(c, Start(c), schedule);
    Serial.AllFinished(c, schedule);
    PoolInvariant.WaitResult(c, schedule);
    assert s.failed == [];
    assert Serial.Outcome(Serial.Solo(c, s, r).0.pc, r !in s.failed);
  }

  // ---- how the program ends ----

  /** Execute of request r, run alone from the initial tree, returns no error. */
  predicate Succeeds(c: Config, r: nat)
    requires Valid(c) && r < |c.reqs|
  {
    Serial.Ran(c, r, c.tree).0.pc == Done(true)
  }

  lemma FinishedSucceeds(c: Config, s: State, r: nat)
    requires Serial.SerialInv(c, s) && r in s.finished
    ensures r < |c.reqs| && (Succeeds(c, r) <==> r !in s.failed)
  {
    Serial.FinishedIsRan(c, s, r);
  }

  lemma AllGoneFinished(c: Config, s: State, r: nat)
    requires Serial.SerialInv(c, s) && s.main.Gone? && !s.refused && c.workers > 0 && r < |c.reqs|
    ensures r in s.finished
  {
    PoolInvariant.DrainedIsFinished(c, s, r);
    assert r in multiset(s.finished);
  }

  /** A program that has ended has a failed request exactly if one of them fails alone. */
  lemma FailedIff(c: Config, s: State)
    requires Serial.SerialInv(c, s) && s.main.Gone? && !s.refused
    ensures s.failed == [] <==> c.workers == 0 || forall r: nat | r < |c.reqs| :: Succeeds(c, r)
  {
    if c.workers == 0 {
      assert s.finished == [];
      assert |multiset(s.failed)| <= |multiset(s.finished)| == 0;
    } else {
      forall r: nat | r < |c.reqs|
        ensures Succeeds(c, r) <==> r !in s.failed
      {
        AllGoneFinished(c, s, r);
        FinishedSucceeds(c, s, r);
      }
      if s.failed != [] {
        assert s.failed[0] in multiset(s.failed) && s.failed[0] in multiset(s.finished);
        FinishedSucceeds(c, s, s.failed[0]);
      }
    }
  }

  /** Every request could be built, and none fails; without a worker none is executed. */
  predicate AllSucceed(c: Config)
    requires Valid(c)
  {
    !c.buildFails && (c.workers == 0 || forall r: nat | r < |c.reqs| :: Succeeds(c, r))
  }

  /** However its workers were scheduled, a program that has ended has run the shared hook
      if and only if there is one and all requests succeed, each for itself; and it reports
      success if and only if they do and the hook, if there is one, does too. */
  lemma EndsAsRequestsDo(c: Config, schedule: seq<Label>)
    requires Valid(c) && Legal(c, Start(c), schedule)
    ensures var s := After(c, Start(c), schedule);
      s.main.Gone? ==>
        && s.sharedRuns == (if c.sharedHook && AllSucceed(c) then 1 else 0)
        && (s.main.ok <==> AllSucceed(c) && (c.sharedHook ==> c.sharedHookOk))
  {
    var s := After(c, Start(c), schedule);
    Serial.SerialStart(c);
    Serial.SerialAlways(c, Start(c), schedule);
    PoolInvariant.SharedHookIff(c, schedule);
    if s.main.Gone? && !s.refused {
      FailedIff(c, s);
    }
  }

  /** The premises under which a request's outcome is decided by its answers, the disk and
      its hook. */
  ghost predicate Undisturbed(c: Config)
    requires Valid(c)
  {
    forall r: nat | r < |c.reqs| ::
      Invariant.Ready(c.reqs[r], c.envs[r], c.tree) && Success.Faultless(c.envs[r])
  }

  lemma SucceedsAsStated(c: Config, r: nat)
    requires Valid(c) && Undisturbed(c) && r < |c.reqs|
    ensures Succeeds(c, r) <==> Success.Succeeding(c.reqs[r], c.envs[r], c.tree)
  {
    Success.SucceedsIff(c.reqs[r], c.envs[r], c.tree, Bound(c.reqs[r]) + 1);
  }

  /** With workers, buildable requests and no failure from outside the program reports
      success if and only if for every domain every item is answered 304 or 200 in full,
      nothing on the disk is in the way, and its hook and the shared hook succeed. */
  lemma ReportsSuccessIff(c: Config, schedule: seq<Label>)
    requires Valid(c) && Undisturbed(c) && c.workers > 0 && !c.buildFails && Legal(c, Start(c), schedule)
    requires After(c, Start(c), schedule).main.Gone?
    ensures After(c, Start(c), schedule).main.ok <==>
      && (forall r: nat | r < |c.reqs| :: Success.Succeeding(c.reqs[r], c.envs[r], c.tree))
      && (c.sharedHook ==> c.sharedHookOk)
  {
    EndsAsRequestsDo(c, schedule);
    forall r: nat | r < |c.reqs|
      ensures Succeeds(c, r) <==> Success.Succeeding(c.reqs[r], c.envs[r], c.tree)
    {
      SucceedsAsStated(c, r);
    }
  }

  /** When Wait returns without an error, every domain asked for has, under base/domain,
      the server's files of that domain; whatever the number of workers and however they
      were interleaved. */
  lemma RunMirrorsServer(
      site: Site, c: Config, built: seq<Built>, opt: Driver.Options, CNs: set<string>, peer: Option<string>,
      last: nat -> nat, schedule: seq<Label>, d: string)
    requires InBytes(opt.terms) && Driver.Prepared(c, built, opt, CNs) && !c.buildFails && opt.jobs > 0
    requires forall i: nat | i < |built| ::
      i < |c.envs| && Supplied(site, built[i], opt.terms, peer, c.envs[i], c.tree, last(i))
    requires Legal(c, Start(c), schedule)
    requires var s := After(c, Start(c), schedule); s.main == Returned(0) && !s.refused
    requires d in CNs
    ensures Mirrors(site, opt.terms, d, After(c, Start(c), schedule).tree)
  {
    var s := After(c, Start(c), schedule);
    var r := Driver.RequestFor(c, built, opt, CNs, d);
    var b := built[r];
    assert Supplied(site, b, opt.terms, peer, c.envs[r], c.tree, last(r));
    NoErrorsAllSucceeded(c, schedule, r);
    ClientRuns.ScheduleAgreesWithSolo(c, schedule, r);
    forall j | 0 <= j < |Roles(opt.terms.format)|
      ensures Shows(Seen(b.req, s.tree, j), ItemSource(site, b, Roles(opt.terms.format), j))
    {
      SuccessfulItem(site, b, opt.terms, peer, c.envs[r], c.tree, last(r), s.steps[r], j);
      Locality.SeenLocal(b.req, s.tree, Serial.Solo(c, s, r).1, j);
    }
    ShownMirrors(site, b, opt.terms, s.tree);
  }
}
