/** The text of Execute, writeFile and replaceSymlink, proved to be a run of the
    step relation whose disk states are all accounted for. */
module Execute {
  import opened Text
  import opened Disk
  import opened Execution
  import opened Invariant
  import opened Publication
  import opened Success

  type Trail = nat -> (Local, Tree)

  /** Consecutive points of the trail are one step apart. */
  ghost predicate IsTrail(r: Request, e: Env, at: Trail) {
    && WellFormed(r) && Permutes(e.order, |r.items|)
    && forall m: nat, n: nat | n == m + 1 :: Sane(r, e, at(m).0) && at(n) == Step(r, e, at(m).0, at(m).1)
  }

  /** Every disk state since `from` is one of the first n points. */
  ghost predicate Recorded(at: Trail, n: nat, history: seq<Tree>, from: nat) {
    from <= |history| && forall h | from <= h < |history| :: exists k: nat :: k <= n && history[h] == at(k).1
  }

  /** The file system is at point n of the trail, the program in local state l. */
  ghost predicate InSync(fs: FileSystem, r: Request, e: Env, at: Trail, n: nat, l: Local, from: nat)
    reads fs
  {
    && IsTrail(r, e, at) && at(n) == (l, fs.tree) && Sane(r, e, l)
    && fs.calls == l.calls && fs.fault == e.fault
    && Recorded(at, n, fs.history, from)
  }

  lemma SilentStep(fs: FileSystem, r: Request, e: Env, at: Trail, n: nat, l: Local, from: nat) returns (l': Local)
    requires InSync(fs, r, e, at, n, l, from) && !Calling(l.pc)
    ensures l' == Step(r, e, l, fs.tree).0 && InSync(fs, r, e, at, n + 1, l', from)
  {
    l' := at(n + 1).0;
  }

  /** One system call of the program, with the step it makes. */
  method MakeCall(fs: FileSystem, r: Request, e: Env, c: Disk.Call,
      ghost at: Trail, ghost n: nat, ghost l: Local, ghost from: nat)
    returns (err: Errno, ghost l': Local)
    requires InSync(fs, r, e, at, n, l, from) && Calling(l.pc) && c == CallAt(r, e, l)
    modifies fs
    ensures InSync(fs, r, e, at, n + 1, l', from) && l' == React(r, e, l, err)
    ensures (fs.tree, err) == Syscall(old(fs.tree), c, e.fault(l.calls))
  {
    err := fs.Invoke(c);
    l' := at(n + 1).0;
    assert fs.tree == at(n + 1).1;
  }

  /** shared.Mkdir: the directory may exist already. */
  method EnsureDir(fs: FileSystem, r: Request, e: Env, i: nat,
      ghost at: Trail, ghost n: nat, ghost l: Local, ghost from: nat)
    returns (err: Errno, ghost n': nat, ghost l': Local)
    requires InSync(fs, r, e, at, n, l, from) && l.pc == MkdirAt(i)
    modifies fs
    ensures InSync(fs, r, e, at, n', l', from)
    ensures l'.data == l.data && l'.pc == if err == OK then OpenAt(i) else Cleanup(i)
    ensures fs.tree == if err == OK then old(fs.tree)[r.dir := Dir] else old(fs.tree)
    ensures Faultless(e) ==> (err == OK <==> Creatable(old(fs.tree), r.dir))
  {
    err, l' := MakeCall(fs, r, e, Mkdir(r.dir), at, n, l, from);
    n' := n + 1;
    if err == EEXIST {
      err, l' := MakeCall(fs, r, e, LstatDir(r.dir), at, n', l', from);
      n' := n' + 1;
    }
  }

  /** The file that a write which goes well leaves, in a directory made where needed. */
  function Stored(r: Request, e: Env, t: Tree, i: nat, data: string): Tree
    requires WellFormed(r) && i < |r.items|
  {
    t[r.dir := Dir][WrittenPath(r, e, i) := Finished(r, e, i, data)]
  }

  method WriteFile(fs: FileSystem, r: Request, e: Env, i: nat, data: string,
      ghost at: Trail, ghost n: nat, ghost l: Local, ghost from: nat)
    returns (err: Errno, ghost n': nat, ghost l': Local)
    requires InSync(fs, r, e, at, n, l, from)
    requires i < |r.items| && l.pc == MkdirAt(i) && data == l.data[i]
    modifies fs
    ensures InSync(fs, r, e, at, n', l', from)
    ensures l'.data == l.data && l'.pc == if err == OK then Next(i + 1) else Cleanup(i)
    ensures err == OK ==> fs.tree == Stored(r, e, old(fs.tree), i, data)
    ensures Faultless(e) ==>
      (err == OK <==> Creatable(old(fs.tree), r.dir) && WrittenPath(r, e, i) !in old(fs.tree))
  {
    LayoutAt(r, e, i);
    err, n', l' := EnsureDir(fs, r, e, i, at, n, l, from);
    if err != OK { return; }
    err, n', l' := CreateFile(fs, r, e, i, at, n', l', from);
    if err != OK { return; }
    err, n', l' := WriteAll(fs, r, e, i, data, at, n', l', from);
  }

  /** os.OpenFile and file.Chmod. */
  method CreateFile(fs: FileSystem, r: Request, e: Env, i: nat,
      ghost at: Trail, ghost n: nat, ghost l: Local, ghost from: nat)
    returns (err: Errno, ghost n': nat, ghost l': Local)
    requires InSync(fs, r, e, at, n, l, from)
    requires i < |r.items| && l.pc == OpenAt(i)
    modifies fs
    ensures InSync(fs, r, e, at, n', l', from)
    ensures l'.data == l.data && l'.pc == if err == OK then WriteSome(i) else Cleanup(i)
    ensures err == OK ==> fs.tree == old(fs.tree)[WrittenPath(r, e, i) := Finished(r, e, i, "")]
    ensures Faultless(e) ==>
      (err == OK <==> HasParent(old(fs.tree), WrittenPath(r, e, i)) && WrittenPath(r, e, i) !in old(fs.tree))
  {
    var name, mode := WrittenPath(r, e, i), if r.items[i].private then PRIVATE_MODE else PUBLIC_MODE;
    err, l' := MakeCall(fs, r, e, OpenExcl(name, mode, e.wrote(i)), at, n, l, from);
    n' := n + 1;
    if err != OK { return; }
    err, l' := MakeCall(fs, r, e, Chmod(name, mode), at, n', l', from);
    n' := n' + 1;
  }

  /** file.Write, which may have stored only a part before it fails or the process stops. */
  method WriteAll(fs: FileSystem, r: Request, e: Env, i: nat, data: string,
      ghost at: Trail, ghost n: nat, ghost l: Local, ghost from: nat)
    returns (err: Errno, ghost n': nat, ghost l': Local)
    requires InSync(fs, r, e, at, n, l, from)
    requires i < |r.items| && l.pc == WriteSome(i) && data == l.data[i]
    requires WrittenPath(r, e, i) in fs.tree && fs.tree[WrittenPath(r, e, i)].File?
    modifies fs
    ensures InSync(fs, r, e, at, n', l', from)
    ensures l'.data == l.data && l'.pc == if err == OK then Next(i + 1) else Cleanup(i)
    ensures var x, t := WrittenPath(r, e, i), old(fs.tree);
      err == OK ==> fs.tree == t[x := File(data, t[x].mode, e.wrote(i))]
    ensures Faultless(e) ==> err == OK
  {
    var name := WrittenPath(r, e, i);
    err, l' := MakeCall(fs, r, e, Write(name, Prefix(data, e.cut(i)), e.wrote(i)), at, n, l, from);
    n' := n + 1;
    if err != OK { return; }
    err, l' := MakeCall(fs, r, e, Write(name, data, e.wrote(i)), at, n', l', from);
    n' := n' + 1;
  }

  /** The published name is a link to the timestamped file, and no temporary one is left. */
  function Linked(r: Request, e: Env, t: Tree, j: nat): Tree
    requires WellFormed(r) && j < |r.items|
  {
    t[PublishedPath(r, j) := Link(Base(WrittenPath(r, e, j)))] - {LinkPath(r, j)}
  }

  predicate Linkable(r: Request, t: Tree, j: nat)
    requires WellFormed(r) && j < |r.items|
  {
    && IsDir(t, r.dir) && !Blocked(t, LinkPath(r, j))
    && (PublishedPath(r, j) in t ==> !t[PublishedPath(r, j)].Dir?)
  }

  method ReplaceSymlink(fs: FileSystem, r: Request, e: Env, k: nat,
      ghost at: Trail, ghost n: nat, ghost l: Local, ghost from: nat)
    returns (err: Errno, ghost n': nat, ghost l': Local)
    requires InSync(fs, r, e, at, n, l, from)
    requires k < |r.items| && l.pc == RemoveTmp(k) && e.symlink
    modifies fs
    ensures InSync(fs, r, e, at, n', l', from)
    ensures l'.data == l.data && l'.pc == if err == OK then Publish(k + 1) else Done(false)
    ensures err == OK ==> fs.tree == Linked(r, e, old(fs.tree), e.order[k])
    ensures Faultless(e) ==> (err == OK <==> Linkable(r, old(fs.tree), e.order[k]))
  {
    var j := e.order[k];
    LayoutAt(r, e, j);
    var tmp := LinkPath(r, j);
    var _, l1 := MakeCall(fs, r, e, Remove(tmp), at, n, l, from);
    err, n', l' := LinkAndRename(fs, r, e, k, tmp, at, n + 1, l1, from);
  }

  /** Link and rename, as calls on a tree. */
  lemma LinkThenRename(r: Request, e: Env, t: Tree, j: nat, linkFault: bool, renameFault: bool)
    requires WellFormed(r) && j < |r.items|
    ensures var (t1, one) := Syscall(t, Symlink(Base(WrittenPath(r, e, j)), LinkPath(r, j)), linkFault);
      var (t2, two) := Syscall(t1, Rename(LinkPath(r, j), PublishedPath(r, j)), renameFault);
      && (one == OK && two == OK ==> LinkPath(r, j) !in t && t2 == Linked(r, e, t, j))
      && (!linkFault && !renameFault ==>
           (one == OK && two == OK <==> LinkPath(r, j) !in t && Linkable(r, t, j)))
  {
    LayoutAt(r, e, j);
  }

  /** replaceSymlink once the temporary name is free. */
  method LinkAndRename(fs: FileSystem, r: Request, e: Env, k: nat, tmp: Path,
      ghost at: Trail, ghost n: nat, ghost l: Local, ghost from: nat)
    returns (err: Errno, ghost n': nat, ghost l': Local)
    requires InSync(fs, r, e, at, n, l, from)
    requires k < |r.items| && l.pc == SymlinkAt(k) && e.symlink && tmp == LinkPath(r, e.order[k])
    modifies fs
    ensures InSync(fs, r, e, at, n', l', from)
    ensures l'.data == l.data && l'.pc == if err == OK then Publish(k + 1) else Done(false)
    ensures err == OK ==> tmp !in old(fs.tree) && fs.tree == Linked(r, e, old(fs.tree), e.order[k])
    ensures Faultless(e) ==> (err == OK <==> tmp !in old(fs.tree) && Linkable(r, old(fs.tree), e.order[k]))
  {
    var j := e.order[k];
    LinkThenRename(r, e, fs.tree, j, e.fault(l.calls), e.fault(l.calls + 1));
    err, l' := MakeCall(fs, r, e, Symlink(Base(WrittenPath(r, e, j)), tmp), at, n, l, from);
    n' := n + 1;
    if err != OK { return; }
    err, l' := MakeCall(fs, r, e, Rename(tmp, PublishedPath(r, j)), at, n', l', from);
    n' := n' + 1;
  }

  method FetchItems(fs: FileSystem, r: Request, e: Env, ghost at: Trail, ghost from: nat)
    returns (ok: bool, data: seq<string>, ghost n: nat, ghost l: Local)
    requires InSync(fs, r, e, at, 0, Init(r), from)
    ensures InSync(fs, r, e, at, n, l, from)
    ensures ok <==> forall j | 0 <= j < |r.items| :: FetchOk(r, e, fs.tree, j)
    ensures ok ==> |data| == |r.items| && forall j | 0 <= j < |r.items| ::
      data[j] == if Fetched(r, e, fs.tree, j).Body? then Fetched(r, e, fs.tree, j).content else r.items[j].data
    ensures ok ==> l.pc == Next(0) && data == l.data
    ensures !ok ==> l.pc == Done(false)
  {
    data := seq(|r.items|, j requires 0 <= j < |r.items| => r.items[j].data);
    n, l := 0, Init(r);
    for i := 0 to |r.items|
      invariant InSync(fs, r, e, at, n, l, from) && l.pc == Fetch(i) && l.data == data
      invariant forall j | 0 <= j < i :: FetchOk(r, e, fs.tree, j)
      invariant forall j | 0 <= j < |r.items| ::
        var a := Fetched(r, e, fs.tree, j);
        data[j] == if j < i && a.Body? then a.content else r.items[j].data
    {
      var since := None;
      if !e.force && !e.statFails(i) {
        var seen := Seen(r, fs.tree, i);
        if seen.Some? && seen.value.File? {
          since := Some(Sec(seen.value.mtime));
        }
      }
      l := SilentStep(fs, r, e, at, n, l, from);
      n := n + 1;
      assert Fetched(r, e, fs.tree, i) == e.answer(i, since);
      assert FetchOk(r, e, fs.tree, i) <==> e.answer(i, since).Body? || e.answer(i, since).NotModified?;
      match e.answer(i, since) {
        case Body(c) => data := data[i := c];
        case NotModified =>
        case Refused => return false, data, n, l;
        case Broken(c) => return false, data[i := c], n, l;
      }
    }
    l := SilentStep(fs, r, e, at, n, l, from);
    n := n + 1;
    ok := true;
  }

  predicate Runnable(r: Request, e: Env) {
    WellFormed(r) && Permutes(e.order, |r.items|)
  }

  method Execute(fs: FileSystem, r: Request, e: Env) returns (ok: bool, ghost n: nat)
    requires Runnable(r, e) && fs.calls == 0 && fs.fault == e.fault
    modifies fs
    ensures var (l, t) := At(r, e, old(fs.tree), n); l.pc == Done(ok) && t == fs.tree
    ensures RunStates(r, e, old(fs.tree), n, fs.history, |old(fs.history)|)
    ensures Ready(r, e, old(fs.tree)) ==>
      Promised(r, e, old(fs.tree), ok, fs.tree, fs.history[|old(fs.history)|..])
    ensures Ready(r, e, old(fs.tree)) && Faultless(e) ==> (ok <==> Succeeding(r, e, old(fs.tree)))
    ensures Ready(r, e, old(fs.tree)) && ok ==> HookRuns(r, e, old(fs.tree), n) == if r.hook then 1 else 0
  {
    ghost var d, from := fs.tree, |fs.history|;
    ghost var at := (k: nat) => At(r, e, d, k);
    ghost var l;
    ok, n, l := Run(fs, r, e, at, from);
    RecordedIsRunStates(r, e, d, at, n, fs.history, from);
    if Ready(r, e, d) {
      PromiseKept(r, e, d, n, ok, fs.history, from);
      HookRunsOnce(r, e, d, n);
      if Faultless(e) {
        EndedAsStated(r, e, d, n);
      }
    }
  }

  /** However many steps the run has taken when it ends. */
  lemma EndedAsStated(r: Request, e: Env, d: Tree, n: nat)
    requires Ready(r, e, d) && Faultless(e) && At(r, e, d, n).0.pc.Done?
    ensures At(r, e, d, n).0.pc == Done(Succeeding(r, e, d))
  {
    var m := n + Bound(r);
    Settled(r, e, d, n, m);
    SucceedsIff(r, e, d, m);
  }

  /** Every state on the way is atomic for every name; success shows the overlay;
      a failed fetch has changed nothing. */
  ghost predicate Promised(r: Request, e: Env, d: Tree, ok: bool, t: Tree, states: seq<Tree>)
    requires WellFormed(r)
  {
    && (forall j, s | 0 <= j < |r.items| && s in states :: Atomic(r, e, d, s, j))
    && (ok ==> forall j | 0 <= j < |r.items| :: Seen(r, t, j) == Overlay(r, e, d, j))
    && ((exists j :: 0 <= j < |r.items| && !FetchOk(r, e, d, j)) ==> t == d)
  }

  lemma PromiseKept(r: Request, e: Env, d: Tree, n: nat, ok: bool, history: seq<Tree>, from: nat)
    requires Ready(r, e, d) && RunStates(r, e, d, n, history, from)
    requires At(r, e, d, n).0.pc == Done(ok)
    ensures Promised(r, e, d, ok, At(r, e, d, n).1, history[from..])
  {
    forall j, s | 0 <= j < |r.items| && s in history[from..]
      ensures Atomic(r, e, d, s, j)
    {
      assert RunState(r, e, d, n, s);
      var k: nat :| k <= n && s == At(r, e, d, k).1;
      CrashAtomicity(r, e, d, k, j);
    }
    forall j | 0 <= j < |r.items|
      ensures ok ==> Seen(r, At(r, e, d, n).1, j) == Overlay(r, e, d, j)
      ensures !FetchOk(r, e, d, j) ==> At(r, e, d, n).1 == d
    {
      if ok {
        SuccessIsOverlay(r, e, d, n, j);
      }
      if !FetchOk(r, e, d, j) {
        FetchFailureIsSilent(r, e, d, n, j);
      }
    }
  }

  /** The disk states since `from` are states the run from tree d goes through. */
  ghost predicate RunStates(r: Request, e: Env, d: Tree, n: nat, history: seq<Tree>, from: nat)
    requires Runnable(r, e)
  {
    from <= |history| && forall h | from <= h < |history| :: RunState(r, e, d, n, history[h])
  }

  ghost predicate RunState(r: Request, e: Env, d: Tree, n: nat, t: Tree)
    requires Runnable(r, e)
  {
    exists k: nat :: k <= n && t == At(r, e, d, k).1
  }

  lemma RecordedIsRunStates(r: Request, e: Env, d: Tree, at: Trail, n: nat, history: seq<Tree>, from: nat)
    requires Runnable(r, e) && Recorded(at, n, history, from)
    requires forall k: nat :: at(k) == At(r, e, d, k)
    ensures RunStates(r, e, d, n, history, from)
  {
    forall h | from <= h < |history|
      ensures RunState(r, e, d, n, history[h])
    {
      var k: nat :| k <= n && history[h] == at(k).1;
      assert history[h] == At(r, e, d, k).1;
    }
  }

  method Run(fs: FileSystem, r: Request, e: Env, ghost at: Trail, ghost from: nat)
    returns (ok: bool, ghost n: nat, ghost l: Local)
    requires InSync(fs, r, e, at, 0, Init(r), from)
    modifies fs
    ensures InSync(fs, r, e, at, n, l, from) && l.pc == Done(ok)
  {
    var data, infixed;
    ok, data, n, l := FetchItems(fs, r, e, at, from);
    if !ok { return; }
    ok, infixed, n, l := WriteItems(fs, r, e, data, at, n, l, from);
    if !ok { return; }
    ok, n, l := PublishItems(fs, r, e, infixed, at, n, l, from);
    if !ok { return; }
    ok, n, l := RunHook(fs, r, e, at, n, l, from);
  }

  method RunHook(fs: FileSystem, r: Request, e: Env, ghost at: Trail, ghost n0: nat, ghost l0: Local, ghost from: nat)
    returns (ok: bool, ghost n: nat, ghost l: Local)
    requires InSync(fs, r, e, at, n0, l0, from) && l0.pc == Publish(|r.items|)
    ensures InSync(fs, r, e, at, n, l, from) && l.pc == Done(ok) && (ok <==> !r.hook || e.hookOk)
  {
    l := SilentStep(fs, r, e, at, n0, l0, from);
    n := n0 + 1;
    if !r.hook { return true, n, l; }
    l := SilentStep(fs, r, e, at, n, l, from);  // mtx.Lock
    l := SilentStep(fs, r, e, at, n + 1, l, from);
    return e.hookOk, n + 2, l;
  }

  /** The map from published to infixed names holds exactly the items with data. */
  ghost predicate InfixedUpTo(r: Request, e: Env, data: seq<string>, infixed: map<Path, Path>, i: nat)
    requires WellFormed(r) && i <= |r.items| == |data|
  {
    && (forall j | 0 <= j < |r.items| :: PublishedPath(r, j) in infixed <==> j < i && data[j] != "")
    && (forall j | 0 <= j < |r.items| && PublishedPath(r, j) in infixed ::
         infixed[PublishedPath(r, j)] == WrittenPath(r, e, j))
  }

  lemma InfixedMore(r: Request, e: Env, data: seq<string>, infixed: map<Path, Path>, i: nat)
    requires WellFormed(r) && i < |r.items| == |data| && data[i] != "" && InfixedUpTo(r, e, data, infixed, i)
    ensures InfixedUpTo(r, e, data, infixed[PublishedPath(r, i) := WrittenPath(r, e, i)], i + 1)
  {
  }

  method WriteItems(fs: FileSystem, r: Request, e: Env, data: seq<string>,
      ghost at: Trail, ghost n0: nat, ghost l0: Local, ghost from: nat)
    returns (ok: bool, infixed: map<Path, Path>, ghost n: nat, ghost l: Local)
    requires InSync(fs, r, e, at, n0, l0, from) && l0.pc == Next(0) && data == l0.data
    modifies fs
    ensures InSync(fs, r, e, at, n, l, from) && l.data == data
    ensures ok ==> l.pc == Publish(0) && InfixedUpTo(r, e, data, infixed, |r.items|)
    ensures !ok ==> l.pc == Done(false)
  {
    n, l, infixed := n0, l0, map[];
    for i := 0 to |r.items|
      invariant InSync(fs, r, e, at, n, l, from) && l.pc == Next(i) && l.data == data
      invariant InfixedUpTo(r, e, data, infixed, i)
    {
      l := SilentStep(fs, r, e, at, n, l, from);
      n := n + 1;
      if data[i] == "" { continue; }
      InfixedMore(r, e, data, infixed, i);
      infixed := infixed[PublishedPath(r, i) := WrittenPath(r, e, i)];
      var err;
      err, n, l := WriteFile(fs, r, e, i, data[i], at, n, l, from);
      if err != OK {
        var _, l' := MakeCall(fs, r, e, Remove(infixed[PublishedPath(r, i)]), at, n, l, from);
        return false, infixed, n + 1, l';
      }
    }
    l := SilentStep(fs, r, e, at, n, l, from);
    n := n + 1;
    ok := true;
  }

  method PublishItems(fs: FileSystem, r: Request, e: Env, infixed: map<Path, Path>,
      ghost at: Trail, ghost n0: nat, ghost l0: Local, ghost from: nat)
    returns (ok: bool, ghost n: nat, ghost l: Local)
    requires InSync(fs, r, e, at, n0, l0, from) && l0.pc == Publish(0)
    requires InfixedUpTo(r, e, l0.data, infixed, |r.items|)
    modifies fs
    ensures InSync(fs, r, e, at, n, l, from) && l.pc == if ok then Publish(|r.items|) else Done(false)
  {
    n, l := n0, l0;
    for k := 0 to |e.order|
      invariant InSync(fs, r, e, at, n, l, from) && l.pc == Publish(k) && l.data == l0.data
    {
      var name := PublishedPath(r, e.order[k]);
      l := SilentStep(fs, r, e, at, n, l, from);
      n := n + 1;
      if name !in infixed { continue; }
      var err;
      err, n, l := PublishItem(fs, r, e, k, infixed[name], at, n, l, from);
      if err != OK { return false, n, l; }
    }
    ok := true;
  }

  method PublishItem(fs: FileSystem, r: Request, e: Env, k: nat, infixed: Path,
      ghost at: Trail, ghost n: nat, ghost l: Local, ghost from: nat)
    returns (err: Errno, ghost n': nat, ghost l': Local)
    requires InSync(fs, r, e, at, n, l, from)
    requires k < |r.items| && l.pc == (if e.symlink then RemoveTmp(k) else RenameAt(k))
    requires infixed == WrittenPath(r, e, e.order[k])
    modifies fs
    ensures InSync(fs, r, e, at, n', l', from)
    ensures l'.data == l.data && l'.pc == if err == OK then Publish(k + 1) else Done(false)
  {
    if e.symlink {
      err, n', l' := ReplaceSymlink(fs, r, e, k, at, n, l, from);
    } else {
      err, l' := MakeCall(fs, r, e, Rename(infixed, PublishedPath(r, e.order[k])), at, n, l, from);
      n' := n + 1;
    }
  }
}
