/** cert.Req.Execute: fetch every artifact, write each under a fresh timestamped
    name, publish, run the hook. Step is one atomic step of it; the method
    Execute is the program text and is proved to be a run of such steps. */
module Execution {
  import opened Text
  import opened Names
  import opened Disk

  datatype Role = CRT | KEY | CHAIN | FULLCHAIN | BUNDLE

  datatype Item = Item(role: Role, local: Path, private: bool, data: string)

  datatype Request = Request(domain: string, dir: Path, items: seq<Item>, hook: bool)

  /** What the server answers to one fetch, given the If-Modified-Since second. */
  datatype Answer =
    | Body(content: string)      // 200, body read to the end
    | NotModified                // 304
    | Refused                    // any other status, or no response
    | Broken(prefix: string)     // 200, but reading the body failed

  /** Everything one run does not decide itself. */
  datatype Env = Env(
    force: bool,
    symlink: bool,
    second: nat,                          // time.Now().Unix() for the infix
    answer: (nat, Option<nat>) -> Answer,
    statFails: nat -> bool,
    order: seq<nat>,                      // iteration order of the infixed map
    fault: nat -> bool,                   // does the n-th call fail?
    cut: nat -> nat,                      // how far a write got first
    wrote: nat -> nat,                    // mtime given to each item's file
    hookOk: bool)

  datatype PC =
    | Fetch(i: nat) | Next(i: nat)
    | MkdirAt(i: nat) | LstatAt(i: nat) | OpenAt(i: nat) | ChmodAt(i: nat)
    | WriteSome(i: nat) | WriteAll(i: nat) | Cleanup(i: nat)
    | Publish(k: nat) | RemoveTmp(k: nat) | SymlinkAt(k: nat) | RenameAt(k: nat)
    | Lock | Hook | Done(ok: bool)

  datatype Local = Local(pc: PC, calls: nat, data: seq<string>, written: set<nat>, published: set<nat>)

  // ---- requests ----

  predicate WellFormed(r: Request) {
    && r.dir != []
    && (forall j | 0 <= j < |r.items| :: ItemOk(r, j))
    && (forall i, j | 0 <= i < j < |r.items| :: r.items[i].local != r.items[j].local)
  }

  predicate ItemOk(r: Request, j: nat)
    requires r.dir != [] && j < |r.items|
  {
    var it := r.items[j];
    && |it.local| == |r.dir| + 1 && Parent(it.local) == r.dir && Plain(Base(it.local))
    && (it.private <==> it.role in {KEY, BUNDLE})
  }

  /** The items carry no data from an earlier run. */
  predicate Empty(r: Request) { forall j | 0 <= j < |r.items| :: r.items[j].data == "" }

  predicate Permutes(order: seq<nat>, n: nat) {
    && |order| == n
    && (forall k | 0 <= k < n :: order[k] < n)
    && (forall k, l | 0 <= k < l < n :: order[k] != order[l])
    && (forall j | 0 <= j < n :: j in order)
  }

  function PublishedPath(r: Request, j: nat): Path
    requires j < |r.items|
  {
    r.items[j].local
  }

  function WrittenPath(r: Request, e: Env, j: nat): Path
    requires WellFormed(r) && j < |r.items|
  {
    assert ItemOk(r, j);
    InfixedPath(r.items[j].local, e.second)
  }

  function LinkPath(r: Request, j: nat): Path
    requires WellFormed(r) && j < |r.items|
  {
    assert ItemOk(r, j);
    TmpPath(r.items[j].local)
  }

  /** What a reader of item j's name sees. */
  function Seen(r: Request, t: Tree, j: nat): Option<Node>
    requires WellFormed(r) && j < |r.items|
  {
    assert ItemOk(r, j);
    View(t, PublishedPath(r, j))
  }

  function InfixedPath(p: Path, second: nat): Path
    requires p != [] && '.' in Base(p)
  {
    Parent(p) + [Infix(Base(p), second)]
  }

  function TmpPath(p: Path): Path
    requires p != []
  {
    Parent(p) + [Tmp(Base(p))]
  }

  function Mode(it: Item): nat { if it.private then PRIVATE_MODE else PUBLIC_MODE }

  /** The file an item is published as. */
  function Finished(r: Request, e: Env, j: nat, content: string): Node
    requires j < |r.items|
  {
    File(content, Mode(r.items[j]), e.wrote(j))
  }

  // ---- one step ----

  function Init(r: Request): Local {
    Local(Fetch(0), 0, seq(|r.items|, j requires 0 <= j < |r.items| => r.items[j].data), {}, {})
  }

  predicate Sane(r: Request, e: Env, l: Local) {
    && |l.data| == |r.items| && Permutes(e.order, |r.items|)
    && match l.pc
       case Fetch(i) => i <= |r.items|
       case Next(i) => i <= |r.items|
       case Publish(k) => k <= |r.items|
       case MkdirAt(i) => i < |r.items|
       case LstatAt(i) => i < |r.items|
       case OpenAt(i) => i < |r.items|
       case ChmodAt(i) => i < |r.items|
       case WriteSome(i) => i < |r.items|
       case WriteAll(i) => i < |r.items|
       case Cleanup(i) => i < |r.items|
       case RemoveTmp(k) => k < |r.items|
       case SymlinkAt(k) => k < |r.items|
       case RenameAt(k) => k < |r.items|
       case _ => true
  }

  /** The If-Modified-Since second sent for item i. */
  function Since(r: Request, e: Env, t: Tree, i: nat): Option<nat>
    requires WellFormed(r) && i < |r.items|
  {
    if e.force || e.statFails(i) then None
    else match Seen(r, t, i)
      case Some(f) => if f.File? then Some(Sec(f.mtime)) else None
      case None => None
  }

  function Fetched(r: Request, e: Env, t: Tree, i: nat): Answer
    requires WellFormed(r) && i < |r.items|
  {
    e.answer(i, Since(r, e, t, i))
  }

  function FetchStep(r: Request, e: Env, l: Local, t: Tree): (l': Local)
    requires WellFormed(r) && Sane(r, e, l) && l.pc.Fetch?
    ensures Sane(r, e, l')
  {
    var i := l.pc.i;
    if i == |r.items| then l.(pc := Next(0))
    else match Fetched(r, e, t, i)
      case Body(c) => l.(pc := Fetch(i + 1), data := l.data[i := c])
      case NotModified => l.(pc := Fetch(i + 1))
      case Refused => l.(pc := Done(false))
      case Broken(c) => l.(pc := Done(false), data := l.data[i := c])
  }

  /** Steps that touch no file: loop heads, the hook mutex, the hook. */
  function Silent(r: Request, e: Env, l: Local): (l': Local)
    requires Sane(r, e, l)
    ensures Sane(r, e, l')
  {
    match l.pc
    case Next(i) =>
      l.(pc := if i == |r.items| then Publish(0) else if l.data[i] == "" then Next(i + 1) else MkdirAt(i))
    case Publish(k) =>
      l.(pc := if k == |r.items| then (if r.hook then Lock else Done(true))
               else if l.data[e.order[k]] == "" then Publish(k + 1)
               else if e.symlink then RemoveTmp(k) else RenameAt(k))
    case Lock => l.(pc := Hook)
    case Hook => l.(pc := Done(e.hookOk))
    case _ => l
  }

  predicate Calling(pc: PC) {
    pc.MkdirAt? || pc.LstatAt? || pc.OpenAt? || pc.ChmodAt? || pc.WriteSome? || pc.WriteAll? || pc.Cleanup?
    || pc.RemoveTmp? || pc.SymlinkAt? || pc.RenameAt?
  }

  function CallAt(r: Request, e: Env, l: Local): Call
    requires WellFormed(r) && Sane(r, e, l) && Calling(l.pc)
  {
    match l.pc
    case MkdirAt(i) => Mkdir(r.dir)
    case LstatAt(i) => LstatDir(r.dir)
    case OpenAt(i) => OpenExcl(WrittenPath(r, e, i), Mode(r.items[i]), e.wrote(i))
    case ChmodAt(i) => Chmod(WrittenPath(r, e, i), Mode(r.items[i]))
    case WriteSome(i) => Write(WrittenPath(r, e, i), Prefix(l.data[i], e.cut(i)), e.wrote(i))
    case WriteAll(i) => Write(WrittenPath(r, e, i), l.data[i], e.wrote(i))
    case Cleanup(i) => Remove(WrittenPath(r, e, i))
    case RemoveTmp(k) => Remove(LinkPath(r, e.order[k]))
    case SymlinkAt(k) => Symlink(Base(WrittenPath(r, e, e.order[k])), LinkPath(r, e.order[k]))
    case RenameAt(k) =>
      Rename(if e.symlink then LinkPath(r, e.order[k]) else WrittenPath(r, e, e.order[k]), PublishedPath(r, e.order[k]))
  }

  function Prefix(s: string, n: nat): string { if n < |s| then s[..n] else s }

  function React(r: Request, e: Env, l: Local, err: Errno): (l': Local)
    requires Sane(r, e, l) && Calling(l.pc)
    ensures Sane(r, e, l') && l'.calls == l.calls + 1 && l'.data == l.data
  {
    var l := l.(calls := l.calls + 1);
    match l.pc
    case MkdirAt(i) =>
      l.(pc := if err == OK then OpenAt(i) else if err == EEXIST then LstatAt(i) else Cleanup(i))
    case LstatAt(i) => l.(pc := if err == OK then OpenAt(i) else Cleanup(i))
    case OpenAt(i) => l.(pc := if err == OK then ChmodAt(i) else Cleanup(i))
    case ChmodAt(i) => l.(pc := if err == OK then WriteSome(i) else Cleanup(i))
    case WriteSome(i) => l.(pc := if err == OK then WriteAll(i) else Cleanup(i))
    case WriteAll(i) =>
      if err == OK then l.(pc := Next(i + 1), written := l.written + {i}) else l.(pc := Cleanup(i))
    case Cleanup(i) => l.(pc := Done(false))
    case RemoveTmp(k) => l.(pc := SymlinkAt(k))
    case SymlinkAt(k) => l.(pc := if err == OK then RenameAt(k) else Done(false))
    case RenameAt(k) =>
      if err == OK then l.(pc := Publish(k + 1), published := l.published + {e.order[k]})
      else l.(pc := Done(false))
  }

  function Step(r: Request, e: Env, l: Local, t: Tree): (s: (Local, Tree))
    requires WellFormed(r) && Sane(r, e, l)
    ensures Sane(r, e, s.0)
  {
    if l.pc.Fetch? then (FetchStep(r, e, l, t), t)
    else if Calling(l.pc) then
      var (t', err) := Syscall(t, CallAt(r, e, l), e.fault(l.calls));
      (React(r, e, l, err), t')
    else (Silent(r, e, l), t)
  }

  /** The run after n steps, starting from tree d. */
  function At(r: Request, e: Env, d: Tree, n: nat): (s: (Local, Tree))
    requires WellFormed(r) && Permutes(e.order, |r.items|)
    ensures Sane(r, e, s.0)
  {
    if n == 0 then (Init(r), d)
    else var (l, t) := At(r, e, d, n - 1); Step(r, e, l, t)
  }

  lemma Advance(r: Request, e: Env, d: Tree, n: nat, l: Local, t: Tree, l': Local, t': Tree)
    requires WellFormed(r) && Permutes(e.order, |r.items|) && At(r, e, d, n) == (l, t)
    requires Step(r, e, l, t) == (l', t')
    ensures At(r, e, d, n + 1) == (l', t')
  {
  }

  // ---- termination ----

  function Left(m: nat, i: nat): nat { if i <= m then m - i else 0 }

  /** A bound on the steps still to come. */
  function Rank(r: Request, pc: PC): nat {
    var m := |r.items|;
    match pc
    case Done(_) => 0
    case Hook => 1
    case Lock => 2
    case Publish(k) => 3 + 4 * Left(m, k)
    case RemoveTmp(k) => 2 + 4 * Left(m, k)
    case SymlinkAt(k) => 1 + 4 * Left(m, k)
    case RenameAt(k) => 4 * Left(m, k)
    case Next(i) => 4 + 4 * m + 8 * Left(m, i)
    case MkdirAt(i) => 3 + 4 * m + 8 * Left(m, i)
    case LstatAt(i) => 2 + 4 * m + 8 * Left(m, i)
    case OpenAt(i) => 1 + 4 * m + 8 * Left(m, i)
    case ChmodAt(i) => 4 * m + 8 * Left(m, i)
    case WriteSome(i) => 7 + 4 * m + 8 * Left(m, i + 1)
    case WriteAll(i) => 6 + 4 * m + 8 * Left(m, i + 1)
    case Cleanup(i) => 5 + 4 * m + 8 * Left(m, i + 1)
    case Fetch(i) => 5 + 12 * m + Left(m, i)
  }

  lemma ReactDecreases(r: Request, e: Env, l: Local, err: Errno)
    requires Sane(r, e, l) && Calling(l.pc)
    ensures Rank(r, React(r, e, l, err).pc) < Rank(r, l.pc)
  {
  }

  lemma SilentDecreases(r: Request, e: Env, l: Local)
    requires Sane(r, e, l) && !Calling(l.pc) && !l.pc.Done? && !l.pc.Fetch?
    ensures Rank(r, Silent(r, e, l).pc) < Rank(r, l.pc)
  {
  }

  lemma StepDecreases(r: Request, e: Env, l: Local, t: Tree)
    requires WellFormed(r) && Sane(r, e, l) && !l.pc.Done?
    ensures Rank(r, Step(r, e, l, t).0.pc) < Rank(r, l.pc)
  {
    if Calling(l.pc) {
      ReactDecreases(r, e, l, Syscall(t, CallAt(r, e, l), e.fault(l.calls)).1);
    } else if l.pc.Fetch? {
      assert Rank(r, FetchStep(r, e, l, t).pc) < Rank(r, l.pc);
    } else {
      SilentDecreases(r, e, l);
    }
  }

  /** Enough steps for any run of this request. */
  function Bound(r: Request): nat { Rank(r, Fetch(0)) }

  lemma RankStep(r: Request, e: Env, l: Local, t: Tree, pc': PC, rest: int)
    requires WellFormed(r) && Sane(r, e, l) && pc' == Step(r, e, l, t).0.pc
    requires l.pc.Done? || Rank(r, l.pc) <= rest + 1
    ensures pc'.Done? || Rank(r, pc') <= rest
  {
    if !l.pc.Done? {
      StepDecreases(r, e, l, t);
    }
  }

  lemma {:induction false} RankAt(r: Request, e: Env, d: Tree, n: nat)
    requires WellFormed(r) && Permutes(e.order, |r.items|)
    ensures var pc := At(r, e, d, n).0.pc; pc.Done? || Rank(r, pc) + n <= Bound(r)
  {
    if n > 0 {
      RankAt(r, e, d, n - 1);
      var (l, t) := At(r, e, d, n - 1);
      RankStep(r, e, l, t, At(r, e, d, n).0.pc, Bound(r) - n);
    }
  }

  /** Execute always ends. */
  lemma Terminates(r: Request, e: Env, d: Tree, n: nat)
    requires WellFormed(r) && Permutes(e.order, |r.items|) && n >= Bound(r)
    ensures At(r, e, d, n).0.pc.Done?
  {
    RankAt(r, e, d, n);
    if !At(r, e, d, n).0.pc.Done? {
      RankPositive(r, e, At(r, e, d, n).0);
    }
  }

  lemma RankPositive(r: Request, e: Env, l: Local)
    requires Sane(r, e, l) && !l.pc.Done?
    ensures Rank(r, l.pc) > 0
  {
  }

  /** After n steps the run has ended in this state. */
  predicate EndedIn(r: Request, e: Env, d: Tree, n: nat, s: (Local, Tree))
    requires WellFormed(r) && Permutes(e.order, |r.items|)
  {
    s.0.pc.Done? && At(r, e, d, n) == s
  }

  lemma EndedNext(r: Request, e: Env, d: Tree, n: nat, s: (Local, Tree))
    requires WellFormed(r) && Permutes(e.order, |r.items|) && EndedIn(r, e, d, n, s)
    ensures EndedIn(r, e, d, n + 1, s)
  {
  }

  lemma {:induction false} EndedFrom(r: Request, e: Env, d: Tree, m: nat, n: nat, s: (Local, Tree))
    requires WellFormed(r) && Permutes(e.order, |r.items|) && EndedIn(r, e, d, m, s) && m <= n
    ensures EndedIn(r, e, d, n, s)
  {
    if m < n {
      EndedFrom(r, e, d, m, n - 1, s);
      EndedNext(r, e, d, n - 1, s);
    }
  }

  /** Once it has ended nothing changes any more. */
  lemma Settled(r: Request, e: Env, d: Tree, m: nat, n: nat)
    requires WellFormed(r) && Permutes(e.order, |r.items|)
    requires At(r, e, d, m).0.pc.Done? && m <= n
    ensures At(r, e, d, n) == At(r, e, d, m)
  {
    EndedFrom(r, e, d, m, n, At(r, e, d, m));
  }
}
