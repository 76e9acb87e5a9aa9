/** A local directory tree and the system calls the client makes on it. A path
    is the list of its components; every call is one atomic step. */
module Disk {
  import opened Text

  type Path = seq<string>

  datatype Node = File(content: string, mode: nat, mtime: nat) | Link(target: string) | Dir

  type Tree = map<Path, Node>

  datatype Errno = OK | EEXIST | ENOENT | ENOTDIR | ENOTEMPTY | EISDIR | EIO

  datatype Call =
    | Mkdir(path: Path)
    | LstatDir(path: Path)                              // Lstat and IsDir
    | OpenExcl(path: Path, mode: nat, now: nat)         // O_WRONLY|O_CREATE|O_EXCL
    | Chmod(path: Path, mode: nat)                      // through the open handle
    | Write(path: Path, content: string, now: nat)      // the handle's file then holds content
    | Remove(path: Path)
    | Symlink(target: string, path: Path)
    | Rename(src: Path, dst: Path)

  /** Times are ticks of a clock; HTTP dates keep whole seconds. */
  const TICKS: nat := 1_000_000_000

  function Sec(ticks: nat): nat { ticks / TICKS }

  const PRIVATE_MODE: nat := 0x180 // 0600
  const PUBLIC_MODE: nat := 0x1A4  // 0644

  /** Permission bits left by the hardened umask 0077. */
  function WithUmask(mode: nat): nat { mode / 64 * 64 }

  function Parent(p: Path): Path
    requires p != []
  {
    p[..|p| - 1]
  }

  function Base(p: Path): string
    requires p != []
  {
    p[|p| - 1]
  }

  predicate IsDir(t: Tree, p: Path) { p == [] || (p in t && t[p].Dir?) }

  predicate HasParent(t: Tree, p: Path) { p != [] && IsDir(t, Parent(p)) }

  /** Is some entry stored directly below p? */
  predicate Occupied(t: Tree, p: Path) {
    exists q :: q in t && q != [] && Parent(q) == p
  }

  /** The effect of a call the kernel does not fail for a reason of its own. */
  function Perform(t: Tree, c: Call): (Tree, Errno) {
    match c
    case Mkdir(p) =>
      if p in t then (t, EEXIST)
      else if !HasParent(t, p) then (t, ENOENT)
      else (t[p := Dir], OK)
    case LstatDir(p) =>
      if p !in t then (t, ENOENT)
      else if t[p].Dir? then (t, OK)
      else (t, ENOTDIR)
    case OpenExcl(p, mode, now) =>
      if p in t then (t, EEXIST)
      else if !HasParent(t, p) then (t, ENOENT)
      else (t[p := File("", WithUmask(mode), now)], OK)
    case Chmod(p, mode) =>
      if p in t && t[p].File? then (t[p := t[p].(mode := mode)], OK)
      else (t, ENOENT)
    case Write(p, content, now) =>
      if p in t && t[p].File? then (t[p := File(content, t[p].mode, now)], OK)
      else (t, ENOENT)
    case Remove(p) =>
      if p !in t then (t, ENOENT)
      else if t[p].Dir? && Occupied(t, p) then (t, ENOTEMPTY)
      else (t - {p}, OK)
    case Symlink(target, p) =>
      if p in t then (t, EEXIST)
      else if !HasParent(t, p) then (t, ENOENT)
      else (t[p := Link(target)], OK)
    case Rename(src, dst) =>
      if src !in t || !HasParent(t, dst) then (t, ENOENT)
      else if t[src].Dir? || (dst in t && t[dst].Dir?) then (t, EISDIR)
      else if src == dst then (t, OK)
      else (t[dst := t[src]] - {src}, OK)
  }

  /** Any call may also fail for a reason outside this model, changing nothing. */
  function Syscall(t: Tree, c: Call, fault: bool): (Tree, Errno) {
    if fault then (t, EIO) else Perform(t, c)
  }

  /** The paths a call can change. */
  function Paths(c: Call): set<Path> {
    match c
    case Rename(src, dst) => {src, dst}
    case LstatDir(_) => {}
    case _ => {c.path}
  }

  predicate Same(t: Tree, d: Tree, q: Path) {
    (q in t <==> q in d) && (q in t ==> t[q] == d[q])
  }

  lemma CallFrame(t: Tree, c: Call, fault: bool)
    ensures var t' := Syscall(t, c, fault).0;
      forall q | q !in Paths(c) :: Same(t', t, q)
  {
  }

  /** What a reader of path p sees: the file there, or the one its symbolic link
      names in the same directory. Anything else is no file at all. */
  function View(t: Tree, p: Path): Option<Node>
    requires p != []
  {
    if p !in t then None
    else match t[p]
      case Dir => None
      case File(_, _, _) => Some(t[p])
      case Link(target) =>
        var q := Parent(p) + [target];
        if q in t && t[q].File? then Some(t[q]) else None
  }

  /** A mounted tree that remembers every state it went through. */
  class FileSystem {
    var tree: Tree
    var calls: nat
    ghost var history: seq<Tree>
    const fault: nat -> bool

    constructor (tree: Tree, fault: nat -> bool)
      ensures this.tree == tree && this.fault == fault && calls == 0 && history == [tree]
    {
      this.tree := tree;
      this.fault := fault;
      calls := 0;
      history := [tree];
    }

    method Invoke(c: Call) returns (err: Errno)
      modifies this
      ensures (tree, err) == Syscall(old(tree), c, fault(old(calls)))
      ensures calls == old(calls) + 1
      ensures history == old(history) + [tree]
    {
      if fault(calls) {
        err := EIO;
      } else {
        var (t, e) := Perform(tree, c);
        tree, err := t, e;
      }
      calls := calls + 1;
      history := history + [tree];
    }
  }
}
