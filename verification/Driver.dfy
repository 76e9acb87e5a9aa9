/** The client's main: from the domain file and the server's list to a pool of workers. */
module Driver {
  import opened Text
  import opened Validate
  import opened DomainList
  import opened Requests
  import opened Disk
  import opened Execution
  import opened Pool
  import PoolInvariant

  datatype DomainFile = Unnamed | Unreadable | Lines(text: string)

  datatype Options = Options(auto: bool, jobs: nat, terms: Terms, sharedHook: bool)

  predicate FileOk(f: DomainFile) {
    match f
    case Unnamed => true
    case Unreadable => false
    case Lines(text) => Fits(text) && forall d | d in Parsed(text) :: ValidDomain(d)
  }

  function Static(f: DomainFile): set<string> { if f.Lines? then Parsed(f.text) else {} }

  /** The domains the server pushes: None when there is no body or it is refused. */
  function Pushed(opt: Options, listBody: Option<string>): Option<seq<string>> {
    if !opt.auto then Some([])
    else if listBody.None? then None
    else DomainList.DomainsOf(listBody.value)
  }

  /** Up to the call of Wait. None when main gives up before there is a pool; the
      configuration otherwise has as many workers as jobs, but no more than domains. */
  method Prepare(
      file: DomainFile, opt: Options, listBody: Option<string>, envFor: Request -> Env, sharedHookOk: bool, tree: Tree)
    returns (c: Option<Config>, built: seq<Built>)
    requires InBytes(opt.terms) && forall r :: Permutes(envFor(r).order, |r.items|)
    ensures c.None? <==> !FileOk(file) || Pushed(opt, listBody).None?
    ensures c.Some? ==>
      && Prepared(c.value, built, opt, Static(file) + Members(Pushed(opt, listBody).value))
      && c.value.tree == tree && c.value.sharedHookOk == sharedHookOk
  {
    var CNs, ok := CollectNames(file, opt, listBody);
    if !ok { return None, []; }
    var config;
    config, built := NewPool(CNs, opt, envFor, sharedHookOk, tree);
    c := Some(config);
  }

  function Members(items: seq<string>): set<string> { set d | d in items }

  /** A domain is asked for if and only if a line of the domain file names it, or, with
      -auto, a line of the server's list does. */
  lemma AskedIff(file: DomainFile, opt: Options, listBody: Option<string>, d: string)
    requires FileOk(file) && Pushed(opt, listBody).Some?
    ensures d in Static(file) + Members(Pushed(opt, listBody).value) <==>
      || (file.Lines? && exists line | line in Split(file.text, '\n') :: LineNames(line, d))
      || (opt.auto && listBody.Some? && d != "" && exists line | line in Pieces(listBody.value) :: Bears(line, d))
  {
    if file.Lines? {
      ParsedIff(file.text, d);
    }
    if opt.auto {
      FetchedIff(listBody.value);
      assert d in Members(Pushed(opt, listBody).value) <==> d != "" && Borne(Pieces(listBody.value), d);
    }
  }

  /** main gives up if and only if the domain file cannot be read, has a line too long or
      names something that is no domain, or, with -auto, there is no list or a line of it
      is too long or neither blank nor one domain. */
  lemma GivesUpIff(file: DomainFile, opt: Options, listBody: Option<string>)
    ensures !FileOk(file) || Pushed(opt, listBody).None? <==>
      || file.Unreadable?
      || (file.Lines? && (!Fits(file.text) || exists line, d ::
           line in Split(file.text, '\n') && LineNames(line, d) && !ValidDomain(d)))
      || (opt.auto && (listBody.None? || !Fits(listBody.value) || exists line ::
           line in Pieces(listBody.value) && !LineOk(line)))
  {
    if file.Lines? && Fits(file.text) {
      forall d
        ensures d in Parsed(file.text) <==> exists line | line in Split(file.text, '\n') :: LineNames(line, d)
      {
        ParsedIff(file.text, d);
      }
    }
    if opt.auto && listBody.Some? {
      FetchedIff(listBody.value);
    }
  }

  method CollectNames(file: DomainFile, opt: Options, listBody: Option<string>) returns (CNs: set<string>, ok: bool)
    ensures ok <==> FileOk(file) && Pushed(opt, listBody).Some?
    ensures ok ==> CNs == Static(file) + Members(Pushed(opt, listBody).value) && forall d | d in CNs :: ValidDomain(d)
  {
    var names := new UniqStrings();
    match file {
      case Unnamed =>
      case Unreadable => return {}, false;
      case Lines(text) =>
        var read := AddItemsFromReader(names, text);
        if !read { return {}, false; }
    }
    if exists d | d in names.keys :: !ValidDomain(d) { return {}, false; }
    if opt.auto {
      if listBody.None? { return {}, false; }
      var pushed := FetchCNs(listBody.value);
      if pushed.None? { return {}, false; }
      FetchedValid(listBody.value);
      names.Add(pushed.value);
    }
    return names.keys, true;
  }

  method NewPool(CNs: set<string>, opt: Options, envFor: Request -> Env, sharedHookOk: bool, tree: Tree)
    returns (c: Config, built: seq<Built>)
    requires InBytes(opt.terms) && forall r :: Permutes(envFor(r).order, |r.items|)
    requires forall d | d in CNs :: ValidDomain(d)
    ensures Prepared(c, built, opt, CNs) && c.tree == tree && c.sharedHookOk == sharedHookOk
  {
    var workers := if opt.jobs < |CNs| then opt.jobs else |CNs|;
    var reqs := BuildRequests(CNs, opt.terms);
    if reqs.None? {
      return Config([], [], workers, true, opt.sharedHook, sharedHookOk, tree), [];
    }
    built := reqs.value;
    var envs := seq(|built|, i requires 0 <= i < |built| => envFor(RequestsOf(built)[i]));
    c := Config(RequestsOf(built), envs, workers, false, opt.sharedHook, sharedHookOk, tree);
    forall i | 0 <= i < |c.envs|
      ensures Permutes(c.envs[i].order, |Roles(opt.terms.format)|)
    {
      CompleteIsWellFormed(built[i], opt.terms);
    }
    BuiltIsValid(c, built, CNs, opt.terms);
  }

  lemma FetchedValid(body: string)
    requires DomainList.DomainsOf(body).Some?
    ensures forall d | d in DomainList.DomainsOf(body).value :: ValidDomain(d)
  {
    FetchLinesValid(Scan(Pieces(body)).0);
  }

  /** The pool for these domains: as many workers as jobs, but no more than domains, and
      a complete request for each domain, or none if one of them cannot be built. */
  ghost predicate Prepared(c: Config, built: seq<Built>, opt: Options, CNs: set<string>)
    requires InBytes(opt.terms)
  {
    && Valid(c) && (forall d | d in CNs :: ValidDomain(d))
    && c.workers == (if opt.jobs < |CNs| then opt.jobs else |CNs|)
    && (c.buildFails <==> !AllBuildable(CNs, opt.terms))
    && (!c.buildFails ==> BuiltFor(built, CNs, opt.terms) && c.reqs == RequestsOf(built) && |c.reqs| == |CNs|)
    && (c.buildFails ==> c.reqs == [])
    && c.sharedHook == opt.sharedHook
  }

  lemma RequestFor(c: Config, built: seq<Built>, opt: Options, CNs: set<string>, d: string) returns (r: nat)
    requires InBytes(opt.terms) && Prepared(c, built, opt, CNs) && !c.buildFails && d in CNs
    ensures r < |c.reqs| == |built| && Complete(built[r], opt.terms)
    ensures c.reqs[r] == built[r].req && built[r].req.domain == d
  {
    assert d in DomainSet(built);
    var i :| 0 <= i < |built| && built[i].Ok? && built[i].req.domain == d;
    r := i;
  }

  /** When Wait returns in a run whose requests could be built, every domain asked for
      has been executed exactly once, if and only if -jobs was not 0 or there was no
      domain; and the program succeeds with -jobs 0 having done nothing. */
  lemma EveryDomainExecuted(c: Config, built: seq<Built>, opt: Options, CNs: set<string>, schedule: seq<Label>)
    requires InBytes(opt.terms) && Prepared(c, built, opt, CNs) && Legal(c, Start(c), schedule)
    requires var s := After(c, Start(c), schedule); s.main.Returned? && !s.refused && !c.buildFails
    ensures var s := After(c, Start(c), schedule);
      (forall d | d in CNs :: exists r: nat | r < |c.reqs| :: c.reqs[r].domain == d && multiset(s.finished)[r] == 1)
        <==> opt.jobs > 0 || CNs == {}
    ensures opt.jobs == 0 ==> After(c, Start(c), schedule).main == Returned(0)
  {
    PoolInvariant.WaitResult(c, schedule);
    var s := After(c, Start(c), schedule);
    if opt.jobs > 0 || CNs == {} {
      forall d | d in CNs
        ensures exists r: nat | r < |c.reqs| :: c.reqs[r].domain == d && multiset(s.finished)[r] == 1
      {
        var r := RequestFor(c, built, opt, CNs, d);
        assert multiset(s.finished)[r] == 1;
      }
    } else {
      var d :| d in CNs;
      assert c.workers == 0 && s.finished == [];
    }
  }
}
