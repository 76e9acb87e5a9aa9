/** Slash-separated path strings: cleaning and joining as path/filepath does them,
    and the location on disk a string names. */
module Paths {
  import opened Text
  import opened Names
  import opened Disk

  datatype Location = Location(rooted: bool, parts: Path)

  /** One path segment after those already walked. */
  function Walk1(rooted: bool, at: Path, part: string): Path {
    if part == "" || part == "." then at
    else if part != ".." then at + [part]
    else if at != [] && at[|at| - 1] != ".." then at[..|at| - 1]
    else if rooted then at
    else at + [part]
  }

  function Walk(rooted: bool, at: Path, parts: seq<string>): Path
    decreases |parts|
  {
    if parts == [] then at else Walk(rooted, Walk1(rooted, at, parts[0]), parts[1..])
  }

  function Locate(s: string): Location {
    var rooted := s != "" && s[0] == '/';
    Location(rooted, Walk(rooted, [], Split(s, '/')))
  }

  function PathString(loc: Location): string {
    if loc.rooted then "/" + Join(loc.parts, '/')
    else if loc.parts == [] then "." else Join(loc.parts, '/')
  }

  /** filepath.Clean. */
  function Clean(s: string): string { PathString(Locate(s)) }

  /** filepath.Join of two elements. */
  function JoinPath(a: string, b: string): string {
    if a != "" then Clean(a + "/" + b) else if b != "" then Clean(b) else ""
  }

  /** filepath.Base and filepath.Dir of a path that does not end in a slash. */
  function BaseName(s: string): string { s[LastIndex(s, '/') + 1..] }

  function DirName(s: string): string { Clean(s[..LastIndex(s, '/') + 1]) }

  /** A segment that names a directory entry. */
  predicate Name(part: string) { part != "" && part != "." && part != ".." && '/' !in part }

  /** What walking leaves: names, below leading ".." when not rooted. */
  predicate Normal(loc: Location) {
    forall k | 0 <= k < |loc.parts| ::
      Name(loc.parts[k]) || (loc.parts[k] == ".." && !loc.rooted && forall l | 0 <= l < k :: loc.parts[l] == "..")
  }

  lemma {:induction false} WalkAppend(rooted: bool, at: Path, a: seq<string>, b: seq<string>)
    ensures Walk(rooted, at, a + b) == Walk(rooted, Walk(rooted, at, a), b)
    decreases |a|
  {
    if a == [] {
      assert a + b == b;
    } else {
      WalkAppend(rooted, Walk1(rooted, at, a[0]), a[1..], b);
      assert (a + b)[1..] == a[1..] + b;
    }
  }

  lemma {:induction false} WalkNormal(rooted: bool, at: Path, parts: seq<string>)
    requires Normal(Location(rooted, at)) && forall p | p in parts :: '/' !in p
    ensures Normal(Location(rooted, Walk(rooted, at, parts)))
    decreases |parts|
  {
    if parts != [] {
      var next := Walk1(rooted, at, parts[0]);
      assert parts[0] in parts;
      Walk1Normal(rooted, at, parts[0]);
      WalkNormal(rooted, next, parts[1..]);
    }
  }

  lemma Walk1Normal(rooted: bool, at: Path, part: string)
    requires Normal(Location(rooted, at)) && '/' !in part
    ensures Normal(Location(rooted, Walk1(rooted, at, part)))
  {
    if part == ".." && !rooted && (at == [] || at[|at| - 1] == "..") {
      assert forall l | 0 <= l < |at| :: at[l] == "..";
    }
  }

  /** Walking a normal path changes nothing in it. */
  lemma {:induction false} WalkKeeps(rooted: bool, at: Path, parts: seq<string>)
    requires Normal(Location(rooted, at + parts))
    ensures Walk(rooted, at, parts) == at + parts
    decreases |parts|
  {
    if parts != [] {
      assert (at + parts)[|at|] == parts[0];
      assert forall l | 0 <= l < |at| :: (at + parts)[l] == at[l];
      assert at + [parts[0]] + parts[1..] == at + parts;
      WalkKeeps(rooted, at + [parts[0]], parts[1..]);
    }
  }

  lemma LocateNormal(s: string)
    ensures Normal(Locate(s))
  {
    WalkNormal(Locate(s).rooted, [], Split(s, '/'));
  }

  lemma LocateNothing(rooted: bool)
    ensures Locate(PathString(Location(rooted, []))) == Location(rooted, [])
  {
    if rooted {
      SplitGlued("", "", '/');
      assert "/" == "" + "/" + "";
      assert Split("/", '/') == ["", ""];
      assert ["", ""][1..] == [""];
      assert Walk(true, [], ["", ""]) == Walk(true, [], [""]);
    } else {
      SplitWhole(".", '/');
    }
  }

  lemma SplitRooted(parts: Path)
    requires parts != [] && forall p | p in parts :: '/' !in p
    ensures Split("/" + Join(parts, '/'), '/') == [""] + parts
  {
    var body := Join(parts, '/');
    SplitJoin(parts, '/');
    SplitGlued("", body, '/');
    SplitWhole("", '/');
    assert "/" + body == "" + "/" + body;
  }

  lemma WalkRooted(parts: Path)
    requires Normal(Location(true, parts))
    ensures Walk(true, [], [""] + parts) == parts
  {
    WalkKeeps(true, [], parts);
    assert [] + parts == parts;
    assert ([""] + parts)[1..] == parts;
  }

  lemma WalkRelative(parts: Path)
    requires Normal(Location(false, parts))
    ensures Walk(false, [], parts) == parts
  {
    WalkKeeps(false, [], parts);
    assert [] + parts == parts;
  }

  lemma JoinStart(parts: Path)
    requires parts != [] && parts[0] != ""
    ensures Join(parts, '/') != "" && Join(parts, '/')[0] == parts[0][0]
  {
  }

  /** The printed form names the location it was printed from. */
  lemma LocatePrinted(loc: Location)
    requires Normal(loc)
    ensures Locate(PathString(loc)) == loc
  {
    if loc.parts == [] {
      LocateNothing(loc.rooted);
    } else if loc.rooted {
      SplitRooted(loc.parts);
      WalkRooted(loc.parts);
    } else {
      SplitJoin(loc.parts, '/');
      WalkRelative(loc.parts);
      JoinStart(loc.parts);
    }
  }

  /** Cleaning changes no location, and cleaning twice is cleaning once. */
  lemma CleanKeepsLocation(s: string)
    ensures Locate(Clean(s)) == Locate(s) && Clean(Clean(s)) == Clean(s)
  {
    LocateNormal(s);
    LocatePrinted(Locate(s));
  }

  // ---- what a path string means in a working directory ----

  /** Going one segment on from a directory; the root is its own parent. */
  function Enter(at: Path, part: string): Path {
    if part == "" || part == "." then at
    else if part != ".." then at + [part]
    else if at == [] then [] else at[..|at| - 1]
  }

  function Follow(at: Path, parts: seq<string>): Path
    decreases |parts|
  {
    if parts == [] then at else Follow(Enter(at, parts[0]), parts[1..])
  }

  /** The path a string names for a process in the directory cwd. */
  function Resolve(cwd: Path, s: string): Path {
    Follow(if s != "" && s[0] == '/' then [] else cwd, Split(s, '/'))
  }

  lemma {:induction false} FollowSnoc(at: Path, parts: seq<string>, last: string)
    ensures Follow(at, parts + [last]) == Enter(Follow(at, parts), last)
    decreases |parts|
  {
    if parts == [] {
      assert parts + [last] == [last];
      assert [last][1..] == [];
    } else {
      assert (parts + [last])[1..] == parts[1..] + [last];
      FollowSnoc(Enter(at, parts[0]), parts[1..], last);
    }
  }

  lemma WalkFollows1(rooted: bool, cwd: Path, at: Path, part: string)
    requires Normal(Location(rooted, at)) && (rooted ==> cwd == [])
    ensures Follow(cwd, Walk1(rooted, at, part)) == Enter(Follow(cwd, at), part)
  {
    if Walk1(rooted, at, part) == at + [part] {
      FollowSnoc(cwd, at, part);
    }
    if at != [] {
      FollowSnoc(cwd, at[..|at| - 1], at[|at| - 1]);
      assert at == at[..|at| - 1] + [at[|at| - 1]];
    }
  }

  lemma {:induction false} WalkFollows(rooted: bool, cwd: Path, at: Path, parts: seq<string>)
    requires Normal(Location(rooted, at)) && (forall p | p in parts :: '/' !in p) && (rooted ==> cwd == [])
    ensures Follow(cwd, Walk(rooted, at, parts)) == Follow(Follow(cwd, at), parts)
    decreases |parts|
  {
    if parts != [] {
      assert parts[0] in parts;
      Walk1Normal(rooted, at, parts[0]);
      WalkFollows1(rooted, cwd, at, parts[0]);
      WalkFollows(rooted, cwd, Walk1(rooted, at, parts[0]), parts[1..]);
    }
  }

  /** A string names the directory that its location names, seen from anywhere. */
  lemma LocateResolves(cwd: Path, s: string)
    ensures Resolve(cwd, s) == Follow(if Locate(s).rooted then [] else cwd, Locate(s).parts)
  {
    var from := if Locate(s).rooted then [] else cwd;
    WalkFollows(Locate(s).rooted, from, [], Split(s, '/'));
  }

  /** Cleaning a path changes nothing of what it names, in no working directory. */
  lemma CleanResolves(cwd: Path, s: string)
    ensures Resolve(cwd, Clean(s)) == Resolve(cwd, s)
  {
    CleanKeepsLocation(s);
    LocateResolves(cwd, s);
    LocateResolves(cwd, Clean(s));
  }

  /** Domain and file lie in what the base directory names, in every working directory. */
  lemma JoinedResolves(cwd: Path, base: string, d: string, f: string)
    requires Name(d) && Name(f)
    ensures Resolve(cwd, JoinPath(base, d + "/" + f)) == Resolve(cwd, base) + [d, f]
  {
    var joined, at := JoinPath(base, d + "/" + f), Locate(base).parts;
    var from := if Locate(base).rooted then [] else cwd;
    JoinedLocation(base, d, f);
    LocateResolves(cwd, base);
    LocateResolves(cwd, joined);
    FollowSnoc(from, at, d);
    FollowSnoc(from, at + [d], f);
    assert at + [d] + [f] == at + [d, f];
  }

  /** Two names below a base directory stay the last two segments, whatever the base. */
  lemma JoinedLocation(base: string, d: string, f: string)
    requires Name(d) && Name(f)
    ensures Locate(JoinPath(base, d + "/" + f))
      == Location(Locate(base).rooted, Locate(base).parts + [d, f])
  {
    var below := d + "/" + f;
    SplitGlued(d, f, '/');
    SplitWhole(d, '/');
    SplitWhole(f, '/');
    assert Split(below, '/') == [d, f];
    var rooted := Locate(base).rooted;
    var at := Locate(base).parts;
    WalkTwo(rooted, at, d, f);
    if base == "" {
      CleanKeepsLocation(below);
      assert below[0] == d[0];
      assert Split("", '/') == [""];
      WalkBlank();
    } else {
      var whole := base + "/" + below;
      CleanKeepsLocation(whole);
      SplitGlued(base, below, '/');
      WalkAppend(rooted, [], Split(base, '/'), [d, f]);
      assert whole[0] == base[0];
    }
  }

  lemma WalkTwo(rooted: bool, at: Path, d: string, f: string)
    requires Name(d) && Name(f)
    ensures Walk(rooted, at, [d, f]) == at + [d, f]
  {
    assert [d, f][1..] == [f];
    assert Walk(rooted, at + [d], [f]) == at + [d] + [f];
  }

  lemma WalkBlank()
    ensures Walk(false, [], [""]) == []
  {
    assert [""][1..] == [];
  }

  // ---- siblings ----

  /** The part of a path string up to and with its last slash. */
  function Lead(rooted: bool, dir: Path): string {
    if dir == [] then if rooted then "/" else "" else PathString(Location(rooted, dir)) + "/"
  }

  lemma {:induction false} JoinSnoc(parts: seq<string>, last: string)
    requires parts != []
    ensures Join(parts + [last], '/') == Join(parts, '/') + "/" + last
  {
    if |parts| > 1 {
      JoinSnoc(parts[1..], last);
      assert (parts + [last])[1..] == parts[1..] + [last];
    } else {
      assert (parts + [last])[1..] == [last];
    }
  }

  lemma PrintedSnoc(rooted: bool, dir: Path, f: string)
    ensures PathString(Location(rooted, dir + [f])) == Lead(rooted, dir) + f
  {
    if dir == [] {
      assert dir + [f] == [f];
    } else {
      JoinSnoc(dir, f);
    }
  }

  lemma BaseOfPrinted(rooted: bool, dir: Path, f: string)
    requires Name(f)
    ensures var s := Lead(rooted, dir) + f;
      BaseName(s) == f && s[..LastIndex(s, '/') + 1] == Lead(rooted, dir)
  {
    var lead := Lead(rooted, dir);
    var s := lead + f;
    assert lead != "" ==> lead[|lead| - 1] == '/';
    assert forall k | |lead| <= k < |s| :: s[k] == f[k - |lead|];
    assert lead != "" ==> s[|lead| - 1] == '/';
    assert LastIndex(s, '/') == |lead| - 1;
  }

  lemma LeadLocation(rooted: bool, dir: Path)
    requires Normal(Location(rooted, dir))
    ensures Locate(Lead(rooted, dir)) == Location(rooted, dir)
  {
    LocatePrinted(Location(rooted, dir));
    if dir == [] {
      if !rooted {
        assert Split("", '/') == [""];
        WalkBlank();
      }
    } else {
      var s := PathString(Location(rooted, dir));
      SplitGlued(s, "", '/');
      assert s + "/" == s + "/" + "";
      WalkAppend(rooted, [], Split(s, '/'), [""]);
      assert [""][1..] == [];
    }
  }

  lemma StampedBehind(lead: string, f: string, stamp: string)
    requires '.' in f
    ensures '.' in lead + f && Stamped(lead + f, stamp) == lead + Stamped(f, stamp)
  {
    var s, i := lead + f, LastIndex(f, '.');
    assert s[|lead| + i] == '.';
    assert forall k | |lead| + i < k < |s| :: s[k] == f[k - |lead|];
    assert LastIndex(s, '.') == |lead| + i;
    assert s[..|lead| + i] == lead + f[..i] && s[|lead| + i..] == f[i..];
  }

  lemma SiblingParent(loc: Location, f: string)
    requires Normal(loc) && Name(f)
    ensures var s := Lead(loc.rooted, loc.parts) + f; BaseName(s) == f && Locate(DirName(s)) == loc
  {
    BaseOfPrinted(loc.rooted, loc.parts, f);
    LeadLocation(loc.rooted, loc.parts);
    CleanKeepsLocation(Lead(loc.rooted, loc.parts));
  }

  lemma SiblingNames(loc: Location, f: string, second: nat)
    requires Normal(loc) && Name(f) && Plain(f)
    ensures var s, lead := PathString(Location(loc.rooted, loc.parts + [f])), Lead(loc.rooted, loc.parts);
      '.' in s && s == lead + f && Infix(s, second) == lead + Infix(f, second) && Tmp(s) == lead + Tmp(f)
  {
    SiblingLocation(loc, f);
    StampedBehind(Lead(loc.rooted, loc.parts), f, Dec(second));
  }

  /** The infixed and the temporary name computed on the whole path string are the
      ones computed on the file name, in the same directory: the extension is
      always found, and a dot in a directory name is never taken for it. */
  lemma SiblingStrings(loc: Location, f: string, second: nat)
    requires Normal(loc) && Name(f) && Plain(f)
    ensures var s := PathString(Location(loc.rooted, loc.parts + [f]));
      && '.' in s
      && Locate(s) == Location(loc.rooted, loc.parts + [f])
      && Locate(Infix(s, second)) == Location(loc.rooted, loc.parts + [Infix(f, second)])
      && BaseName(Infix(s, second)) == Infix(f, second)
      && Locate(DirName(Infix(s, second))) == loc
      && Locate(Tmp(s)) == Location(loc.rooted, loc.parts + [Tmp(f)])
  {
    SiblingsAreNames(f, second);
    SiblingNames(loc, f, second);
    SiblingLocation(loc, f);
    SiblingLocation(loc, Infix(f, second));
    SiblingLocation(loc, Tmp(f));
    SiblingParent(loc, Infix(f, second));
  }

  lemma SiblingsAreNames(f: string, second: nat)
    requires Plain(f)
    ensures Name(Infix(f, second)) && Name(Tmp(f))
  {
    InfixRoundTrip(f, second);
    assert |Tmp(f)| > 4;
    assert '/' !in Tmp(f);
  }

  lemma SiblingLocation(loc: Location, f: string)
    requires Normal(loc) && Name(f)
    ensures PathString(Location(loc.rooted, loc.parts + [f])) == Lead(loc.rooted, loc.parts) + f
    ensures Locate(Lead(loc.rooted, loc.parts) + f) == Location(loc.rooted, loc.parts + [f])
  {
    PrintedSnoc(loc.rooted, loc.parts, f);
    LocatePrinted(Location(loc.rooted, loc.parts + [f]));
  }
}
