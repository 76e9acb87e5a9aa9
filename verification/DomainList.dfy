/** The domain-list language: internal/list/list.go on the reading side, the body
    of /v1/list and the client's fetchCNs. */
module DomainList {
  import opened Text
  import opened Validate

  /** bufio.MaxScanTokenSize: a line that does not fit the buffer ends the scan. */
  const LIMIT: nat := 65536

  /** The newline-terminated pieces of a text; nothing after the last newline is no piece. */
  function Pieces(text: string): seq<string> {
    var parts := Split(text, '\n');
    if parts[|parts| - 1] == "" then parts[..|parts| - 1] else parts
  }

  /** ScanLines drops one carriage return from the end of a line. */
  function Unterminated(piece: string): string {
    if piece != "" && piece[|piece| - 1] == '\r' then piece[..|piece| - 1] else piece
  }

  /** The lines bufio.Scanner yields, and whether it reached the end of the text. */
  function Scan(pieces: seq<string>): (seq<string>, bool) {
    if pieces == [] then ([], true)
    else if |pieces[0]| >= LIMIT then ([], false)
    else var (lines, ok) := Scan(pieces[1..]); ([Unterminated(pieces[0])] + lines, ok)
  }

  function TrimLeft(s: string, cut: set<char>): string {
    if s != "" && s[0] in cut then TrimLeft(s[1..], cut) else s
  }

  function TrimRight(s: string, cut: set<char>): string {
    if s != "" && s[|s| - 1] in cut then TrimRight(s[..|s| - 1], cut) else s
  }

  /** strings.Trim(s, cut). */
  function Trim(s: string, cut: set<char>): string { TrimRight(TrimLeft(s, cut), cut) }

  const BLANKS: set<char> := {' ', '\t', '\r'}

  /** What unicode.IsSpace accepts, for strings.TrimSpace. */
  const SPACES: set<char> := {
    '\t', '\n', '\U{0B}', '\U{0C}', '\r', ' ', '\U{85}', '\U{A0}', '\U{1680}',
    '\U{2000}', '\U{2001}', '\U{2002}', '\U{2003}', '\U{2004}', '\U{2005}', '\U{2006}',
    '\U{2007}', '\U{2008}', '\U{2009}', '\U{200A}', '\U{2028}', '\U{2029}', '\U{202F}',
    '\U{205F}', '\U{3000}'
  }

  /** The entry on one line of a domain file, "" for none. */
  function Entry(line: string): string { Trim(line[..Index(line, '#')], BLANKS) }

  /** The declarative meaning of a domain file. */
  function Entries(lines: seq<string>): set<string> {
    (set l | l in lines :: Entry(l)) - {""}
  }

  predicate Fits(text: string) { AllFit(Pieces(text)) }

  /** Every piece fits the scanner's buffer. */
  predicate AllFit(pieces: seq<string>) { forall p | p in pieces :: |p| < LIMIT }

  function Parsed(text: string): set<string> { Entries(Scan(Pieces(text)).0) }

  // ---- the set ----

  /** Some order a Go map of these keys may be ranged over. */
  predicate Lists(items: seq<string>, s: set<string>) {
    && (forall i | 0 <= i < |items| :: items[i] in s)
    && (forall x | x in s :: x in items)
    && (forall i, j | 0 <= i < j < |items| :: items[i] != items[j])
  }

  class UniqStrings {
    var keys: set<string>

    constructor ()
      ensures keys == {}
    {
      keys := {};
    }

    method Add(v: seq<string>)
      modifies this
      ensures keys == old(keys) + set x | x in v
    {
      for i := 0 to |v|
        invariant keys == old(keys) + set x | x in v[..i]
      {
        keys := keys + {v[i]};
        assert v[..i + 1] == v[..i] + [v[i]];
      }
      assert v[..|v|] == v;
    }

    /** The keys once each, in no particular order. */
    method Items() returns (items: seq<string>)
      ensures Lists(items, keys)
    {
      items := [];
      var rest := keys;
      while rest != {}
        invariant Lists(items, keys - rest) && rest <= keys
        decreases rest
      {
        var k :| k in rest;
        items := items + [k];
        rest := rest - {k};
      }
      assert keys - {} == keys;
    }

    /** A clone; changing one does not change the other. */
    method Copy() returns (copy: UniqStrings)
      ensures fresh(copy) && copy.keys == keys
    {
      copy := new UniqStrings();
      var items := Items();
      copy.Add(items);
    }
  }

  /** On a line too long the entries before it have been added all the same. */
  method AddItemsFromReader(items: UniqStrings, text: string) returns (ok: bool)
    modifies items
    ensures items.keys == old(items.keys) + Parsed(text)
    ensures ok <==> Fits(text)
  {
    var (lines, complete) := Scan(Pieces(text));
    AddEntries(items, lines);
    ScanComplete(Pieces(text));
    ok := complete;
  }

  method AddEntries(items: UniqStrings, lines: seq<string>)
    modifies items
    ensures items.keys == old(items.keys) + Entries(lines)
  {
    ghost var done: set<string> := {};
    for i := 0 to |lines|
      invariant done == Entries(lines[..i]) && items.keys == old(items.keys) + done
    {
      EntriesAppend(lines[..i], [lines[i]]);
      EntriesSingle(lines[i]);
      assert lines[..i + 1] == lines[..i] + [lines[i]];
      var l := Entry(lines[i]);
      done := done + ({l} - {""});
      if l == "" { continue; }
      items.Add([l]);
    }
    assert lines[..|lines|] == lines;
  }

  lemma {:induction false} ScanComplete(pieces: seq<string>)
    ensures Scan(pieces).1 <==> AllFit(pieces)
    ensures Scan(pieces).1 ==> |Scan(pieces).0| == |pieces|
    ensures Scan(pieces).1 ==> forall i | 0 <= i < |pieces| :: Scan(pieces).0[i] == Unterminated(pieces[i])
  {
    if pieces != [] {
      ScanComplete(pieces[1..]);
    }
  }

  lemma EntriesAppend(a: seq<string>, b: seq<string>)
    ensures Entries(a + b) == Entries(a) + Entries(b)
  {
    forall x
      ensures x in Entries(a + b) <==> x in Entries(a) + Entries(b)
    {
      if x in Entries(a) {
        var l :| l in a && Entry(l) == x;
        assert l in a + b;
      }
      if x in Entries(b) {
        var l :| l in b && Entry(l) == x;
        assert l in a + b;
      }
    }
  }

  lemma EntriesSingle(l: string)
    ensures Entries([l]) == {Entry(l)} - {""}
  {
    forall x
      ensures x in Entries([l]) <==> x in {Entry(l)} - {""}
    {
      if x == Entry(l) && x != "" {
        assert l in [l];
      }
    }
  }

  // ---- what a domain file means ----

  function EntriesOf(parts: seq<string>): set<string> {
    (set p | p in parts :: Entry(Unterminated(p))) - {""}
  }

  lemma {:induction false} ScanEntries(pieces: seq<string>)
    requires AllFit(pieces)
    ensures Entries(Scan(pieces).0) == EntriesOf(pieces)
  {
    ScanComplete(pieces);
    var lines := Scan(pieces).0;
    forall x
      ensures x in Entries(lines) <==> x in EntriesOf(pieces)
    {
      if x in Entries(lines) {
        var i :| 0 <= i < |lines| && Entry(lines[i]) == x;
        assert pieces[i] in pieces;
      }
      if x in EntriesOf(pieces) {
        var i :| 0 <= i < |pieces| && Entry(Unterminated(pieces[i])) == x;
        assert lines[i] in lines;
      }
    }
  }

  lemma EntriesOfAppend(a: seq<string>, b: seq<string>)
    ensures EntriesOf(a + b) == EntriesOf(a) + EntriesOf(b)
  {
    forall x
      ensures x in EntriesOf(a + b) <==> x in EntriesOf(a) + EntriesOf(b)
    {
      if x in EntriesOf(a) {
        var p :| p in a && Entry(Unterminated(p)) == x;
        assert p in a + b;
      }
      if x in EntriesOf(b) {
        var p :| p in b && Entry(Unterminated(p)) == x;
        assert p in a + b;
      }
    }
  }

  lemma PiecesCases(text: string)
    ensures var parts, pieces := Split(text, '\n'), Pieces(text); parts == pieces || parts == pieces + [""]
  {
    var parts := Split(text, '\n');
    assert parts == parts[..|parts| - 1] + [parts[|parts| - 1]];
  }

  lemma BlankPart()
    ensures EntriesOf([""]) == {}
  {
    assert Entry(Unterminated("")) == "";
  }

  /** Within the scanner's limit a file means the entries of all its lines; whether the
      last line is terminated makes no difference. */
  lemma ParsedIsEntriesOf(text: string)
    requires Fits(text)
    ensures Parsed(text) == EntriesOf(Split(text, '\n'))
  {
    var parts, pieces := Split(text, '\n'), Pieces(text);
    ScanEntries(pieces);
    PiecesCases(text);
    if parts == pieces + [""] {
      EntriesOfAppend(pieces, [""]);
      BlankPart();
    }
  }

  lemma BlankFits(pieces: seq<string>)
    ensures AllFit(pieces + [""]) <==> AllFit(pieces)
  {
    assert forall p | p in pieces :: p in pieces + [""];
  }

  lemma FitsIsSplit(text: string)
    ensures Fits(text) <==> AllFit(Split(text, '\n'))
  {
    PiecesCases(text);
    BlankFits(Pieces(text));
  }

  /** Joining two files with a newline authorises the union. */
  lemma ParseHomomorphism(a: string, b: string)
    requires Fits(a) && Fits(b)
    ensures Fits(a + "\n" + b) && Parsed(a + "\n" + b) == Parsed(a) + Parsed(b)
  {
    SplitGlued(a, b, '\n');
    FitsIsSplit(a);
    FitsIsSplit(b);
    FitsIsSplit(a + "\n" + b);
    ParsedIsEntriesOf(a);
    ParsedIsEntriesOf(b);
    ParsedIsEntriesOf(a + "\n" + b);
    EntriesOfAppend(Split(a, '\n'), Split(b, '\n'));
  }

  lemma {:induction false} TrimLeftShape(s: string, cut: set<char>)
    ensures |TrimLeft(s, cut)| <= |s| && s[|s| - |TrimLeft(s, cut)|..] == TrimLeft(s, cut)
    ensures TrimLeft(s, cut) != "" ==> TrimLeft(s, cut)[0] !in cut
  {
    if s != "" && s[0] in cut {
      TrimLeftShape(s[1..], cut);
    }
  }

  lemma {:induction false} TrimRightShape(s: string, cut: set<char>)
    ensures |TrimRight(s, cut)| <= |s| && s[..|TrimRight(s, cut)|] == TrimRight(s, cut)
    ensures TrimRight(s, cut) != "" ==> TrimRight(s, cut)[|TrimRight(s, cut)| - 1] !in cut
  {
    if s != "" && s[|s| - 1] in cut {
      TrimRightShape(s[..|s| - 1], cut);
    }
  }

  /** Trimming keeps a middle part, with no cut character at either end. */
  lemma TrimShape(s: string, cut: set<char>)
    ensures var t := Trim(s, cut);
      && |t| <= |s| && (forall c | c in t :: c in s)
      && (t != "" ==> t[0] !in cut && t[|t| - 1] !in cut)
  {
    var u := TrimLeft(s, cut);
    TrimLeftShape(s, cut);
    TrimRightShape(u, cut);
  }

  // ---- lines and their entries, character by character ----

  predicate AllBlank(s: string) { forall c | c in s :: c in BLANKS }

  /** A line is blanks, x, blanks and possibly a comment; x has no blank at its ends. */
  predicate Parts(line: string, u: string, x: string, v: string, w: string) {
    && line == u + x + v + w
    && AllBlank(u) && AllBlank(v) && '#' !in u + x + v && (w == "" || w[0] == '#')
    && (x != "" ==> x[0] !in BLANKS && x[|x| - 1] !in BLANKS)
  }

  /** The line names x. */
  ghost predicate LineNames(line: string, x: string) {
    x != "" && exists u, v, w :: Parts(line, u, x, v, w)
  }

  lemma {:induction false} TrimLeftBlank(u: string, s: string, cut: set<char>)
    requires (forall c | c in u :: c in cut) && (s != "" ==> s[0] !in cut)
    ensures TrimLeft(u + s, cut) == s
  {
    if u == "" {
      assert u + s == s;
    } else {
      assert (u + s)[1..] == u[1..] + s;
      TrimLeftBlank(u[1..], s, cut);
    }
  }

  lemma {:induction false} TrimRightBlank(s: string, v: string, cut: set<char>)
    requires (forall c | c in v :: c in cut) && (s != "" ==> s[|s| - 1] !in cut)
    ensures TrimRight(s + v, cut) == s
  {
    if v == "" {
      assert s + v == s;
    } else {
      assert (s + v)[..|s + v| - 1] == s + v[..|v| - 1];
      TrimRightBlank(s, v[..|v| - 1], cut);
    }
  }

  lemma {:induction false} TrimAllBlank(u: string, cut: set<char>)
    requires forall c | c in u :: c in cut
    ensures Trim(u, cut) == ""
  {
    TrimLeftBlank(u, "", cut);
    assert u + "" == u;
  }

  lemma TrimMiddle(u: string, x: string, v: string, cut: set<char>)
    requires (forall c | c in u :: c in cut) && (forall c | c in v :: c in cut)
    requires x != "" ==> x[0] !in cut && x[|x| - 1] !in cut
    ensures Trim(u + x + v, cut) == x
  {
    if x == "" {
      TrimAllBlank(u + v, cut);
      assert u + x + v == u + v;
    } else {
      TrimLeftBlank(u, x + v, cut);
      assert u + x + v == u + (x + v);
      TrimRightBlank(x, v, cut);
    }
  }

  /** Whatever surrounds it, the entry of a line is its middle part. */
  lemma PartsEntry(line: string, u: string, x: string, v: string, w: string)
    requires Parts(line, u, x, v, w)
    ensures Entry(line) == x
  {
    IndexBefore(u + x + v, w, '#');
    assert line[..|u + x + v|] == u + x + v;
    TrimMiddle(u, x, v, BLANKS);
  }

  lemma {:induction false} TrimLeftParts(s: string, cut: set<char>) returns (u: string)
    ensures s == u + TrimLeft(s, cut) && forall c | c in u :: c in cut
  {
    u := "";
    if s != "" && s[0] in cut {
      var rest := TrimLeftParts(s[1..], cut);
      u := [s[0]] + rest;
      assert s == [s[0]] + s[1..];
    }
  }

  lemma {:induction false} TrimRightParts(s: string, cut: set<char>) returns (v: string)
    ensures s == TrimRight(s, cut) + v && forall c | c in v :: c in cut
  {
    v := "";
    if s != "" && s[|s| - 1] in cut {
      var rest := TrimRightParts(s[..|s| - 1], cut);
      v := rest + [s[|s| - 1]];
      assert s == s[..|s| - 1] + [s[|s| - 1]];
    }
  }

  /** Every line has such parts. */
  lemma EntryParts(line: string) returns (u: string, v: string, w: string)
    ensures Parts(line, u, Entry(line), v, w)
  {
    var cut, x := line[..Index(line, '#')], Entry(line);
    w := line[Index(line, '#')..];
    u := TrimLeftParts(cut, BLANKS);
    v := TrimRightParts(TrimLeft(cut, BLANKS), BLANKS);
    TrimShape(cut, BLANKS);
    assert cut == u + x + v && line == cut + w;
  }

  /** The carriage return that ends a line is a blank, or part of the comment. */
  lemma UnterminatedEntry(p: string)
    ensures Entry(Unterminated(p)) == Entry(p)
  {
    var l := Unterminated(p);
    if l != p {
      var u, v, w := EntryParts(l);
      var x := Entry(l);
      assert p == l + "\r";
      if w == "" {
        assert p == u + x + (v + "\r") + "";
        PartsEntry(p, u, x, v + "\r", "");
      } else {
        assert p == u + x + v + (w + "\r");
        PartsEntry(p, u, x, v, w + "\r");
      }
    }
  }

  lemma LineNamesEntry(line: string, x: string)
    ensures LineNames(line, x) <==> x != "" && Entry(line) == x
  {
    if LineNames(line, x) {
      var u, v, w :| Parts(line, u, x, v, w);
      PartsEntry(line, u, x, v, w);
    }
    if x != "" && Entry(line) == x {
      var u, v, w := EntryParts(line);
    }
  }

  lemma NamedEntries(parts: seq<string>, x: string)
    ensures x in EntriesOf(parts) <==> exists p | p in parts :: LineNames(p, x)
  {
    forall p | p in parts
      ensures LineNames(p, x) <==> x != "" && Entry(Unterminated(p)) == x
    {
      UnterminatedEntry(p);
      LineNamesEntry(p, x);
    }
  }

  /** A name is read from a file if and only if one of the file's lines consists of blanks,
      the name, blanks and possibly a comment. */
  lemma ParsedIff(text: string, x: string)
    requires Fits(text)
    ensures x in Parsed(text) <==> exists line | line in Split(text, '\n') :: LineNames(line, x)
  {
    ParsedIsEntriesOf(text);
    NamedEntries(Split(text, '\n'), x);
  }

  /** A line that is a comment names nothing. */
  lemma CommentNamesNothing(line: string, x: string)
    requires line != "" && line[0] == '#'
    ensures !LineNames(line, x)
  {
    PartsEntry(line, "", "", "", line);
    assert line == "" + "" + "" + line;
    LineNamesEntry(line, x);
  }

  /** A comment behind a line changes nothing of what the line names. */
  lemma CommentChangesNothing(line: string, comment: string, x: string)
    ensures LineNames(line + "#" + comment, x) <==> LineNames(line, x)
  {
    var u, v, w := EntryParts(line);
    var e, more := Entry(line), w + "#" + comment;
    assert line + "#" + comment == u + e + v + more;
    PartsEntry(line + "#" + comment, u, e, v, more);
    LineNamesEntry(line, x);
    LineNamesEntry(line + "#" + comment, x);
  }

  /** So a file is none the richer for a commented-out line. */
  lemma CommentedOut(text: string, line: string)
    requires Fits(text) && '\n' !in line && |line| + 1 < LIMIT
    ensures Fits(text + "\n" + ("#" + line)) && Parsed(text + "\n" + ("#" + line)) == Parsed(text)
  {
    LastLine(text, "#" + line);
    forall x
      ensures !LineNames("#" + line, x)
    {
      CommentNamesNothing("#" + line, x);
    }
  }

  lemma LastLine(text: string, line: string)
    requires Fits(text) && '\n' !in line && |line| < LIMIT
    ensures Fits(text + "\n" + line)
    ensures forall x :: x in Parsed(text + "\n" + line) <==> x in Parsed(text) || LineNames(line, x)
  {
    SplitWhole(line, '\n');
    FitsIsSplit(line);
    ParseHomomorphism(text, line);
    forall x
      ensures x in Parsed(text + "\n" + line) <==> x in Parsed(text) || LineNames(line, x)
    {
      ParsedIff(line, x);
    }
  }

  // ---- a line too long ----

  /** The lines in front of the first one that does not fit. */
  function Fitting(pieces: seq<string>): (n: nat)
    ensures n <= |pieces| && AllFit(pieces[..n]) && (n < |pieces| ==> |pieces[n]| >= LIMIT)
  {
    if pieces == [] || |pieces[0]| >= LIMIT then 0
    else
      assert forall n: nat | n <= |pieces[1..]| :: pieces[..n + 1] == [pieces[0]] + pieces[1..][..n];
      Fitting(pieces[1..]) + 1
  }

  lemma {:induction false} ScanStops(pieces: seq<string>)
    ensures Scan(pieces).0 == Scan(pieces[..Fitting(pieces)]).0
  {
    if pieces != [] && |pieces[0]| < LIMIT {
      ScanStops(pieces[1..]);
      assert pieces[..Fitting(pieces)][1..] == pieces[1..][..Fitting(pieces[1..])];
    }
  }

  /** Of a file with a line too long, what is read is what its lines before that name. */
  lemma ParsedBeforeTooLong(text: string, x: string)
    ensures x in Parsed(text) <==> exists p | p in Pieces(text)[..Fitting(Pieces(text))] :: LineNames(p, x)
  {
    var before := Pieces(text)[..Fitting(Pieces(text))];
    ScanStops(Pieces(text));
    ScanEntries(before);
    NamedEntries(before, x);
  }

  /** No entry is empty, holds a comment sign, a newline or a blank at either end. */
  lemma EntriesShape(text: string, x: string)
    requires x in Parsed(text)
    ensures x != "" && '#' !in x && '\n' !in x && |x| < LIMIT
    ensures x[0] !in BLANKS && x[|x| - 1] !in BLANKS
  {
    ParsedBeforeTooLong(text, x);
    var p :| p in Pieces(text)[..Fitting(Pieces(text))] && LineNames(p, x);
    assert p in Split(text, '\n');
    NamedShape(p, x);
  }

  lemma NamedShape(p: string, x: string)
    requires LineNames(p, x)
    ensures |x| <= |p| && '#' !in x && x[0] !in BLANKS && x[|x| - 1] !in BLANKS && forall c | c in x :: c in p
  {
    var u, v, w :| Parts(p, u, x, v, w);
    assert forall c | c in x :: c in u + x + v;
  }

  // ---- printing and parsing back ----

  lemma TrimKeeps(s: string, cut: set<char>)
    requires s != "" ==> s[0] !in cut && s[|s| - 1] !in cut
    ensures Trim(s, cut) == s
  {
  }

  lemma ValidKept(d: string)
    requires ValidDomain(d)
    ensures Unterminated(d) == d && Entry(d) == d && Trim(d, SPACES) == d
  {
    ValidIsOneComponent(d);
    assert Index(d, '#') == |d|;
    assert d[..|d|] == d;
    assert DomainChar(d[0]) && DomainChar(d[|d| - 1]);
    TrimKeeps(d, BLANKS);
    TrimKeeps(d, SPACES);
  }

  lemma EntriesOfSame(domains: seq<string>)
    requires forall d | d in domains :: Entry(Unterminated(d)) == d && d != ""
    ensures EntriesOf(domains) == set d | d in domains
  {
    forall x
      ensures x in EntriesOf(domains) <==> x in domains
    {
      if x in domains {
        assert Entry(Unterminated(x)) == x;
      }
    }
  }

  lemma SplitJoined(domains: seq<string>)
    requires forall d | d in domains :: '\n' !in d
    ensures Split(Join(domains, '\n'), '\n') == if domains == [] then [""] else domains
  {
    if domains != [] {
      SplitJoin(domains, '\n');
    }
  }

  /** A file listing valid domains one per line means exactly those domains. */
  lemma PrintParse(domains: seq<string>)
    requires forall d | d in domains :: ValidDomain(d) && |d| < LIMIT
    ensures var text := Join(domains, '\n'); Fits(text) && Parsed(text) == set d | d in domains
  {
    var text := Join(domains, '\n');
    forall d | d in domains
      ensures '\n' !in d && Entry(Unterminated(d)) == d && d != ""
    {
      ValidIsOneComponent(d);
      ValidKept(d);
    }
    SplitJoined(domains);
    FitsIsSplit(text);
    ParsedIsEntriesOf(text);
    BlankPart();
    EntriesOfSame(domains);
  }

  /** What /v1/list answers for a set listed in some order: fmt.Fprintln of the join. */
  function ListBody(items: seq<string>): string { Join(items, '\n') + "\n" }

  /** The domains on the lines of a list body, None at the first invalid one. */
  function FetchLines(lines: seq<string>): Option<seq<string>> {
    if lines == [] then Some([])
    else
      var l := Trim(lines[0], SPACES);
      if l == "" then FetchLines(lines[1..])
      else if !ValidDomain(l) then None
      else match FetchLines(lines[1..])
        case None => None
        case Some(rest) => Some([l] + rest)
  }

  /** fetchCNs on the response body. */
  function DomainsOf(body: string): Option<seq<string>> {
    var (lines, complete) := Scan(Pieces(body));
    if complete then FetchLines(lines) else None
  }

  function Prepend(found: seq<string>, rest: Option<seq<string>>): Option<seq<string>> {
    if rest.None? then None else Some(found + rest.value)
  }

  method FetchCNs(body: string) returns (domains: Option<seq<string>>)
    ensures domains == DomainsOf(body)
  {
    var (lines, complete) := Scan(Pieces(body));
    domains := CollectDomains(lines);
    if !complete { domains := None; }
  }

  method CollectDomains(lines: seq<string>) returns (domains: Option<seq<string>>)
    ensures domains == FetchLines(lines)
  {
    var found: seq<string> := [];
    assert lines[0..] == lines;
    PrependNothing(FetchLines(lines));
    for i := 0 to |lines|
      invariant FetchLines(lines) == Prepend(found, FetchLines(lines[i..]))
    {
      FetchLinesHead(lines[i..], found);
      assert lines[i..][1..] == lines[i + 1..];
      var line := Trim(lines[i], SPACES);
      if line == "" { continue; }
      if !ValidDomain(line) { return None; }
      found := found + [line];
    }
    assert lines[|lines|..] == [] && found + [] == found;
    domains := Some(found);
  }

  lemma PrependNothing(rest: Option<seq<string>>)
    ensures Prepend([], rest) == rest
  {
    if rest.Some? {
      assert [] + rest.value == rest.value;
    }
  }

  lemma FetchLinesHead(lines: seq<string>, found: seq<string>)
    requires lines != []
    ensures var l := Trim(lines[0], SPACES);
      Prepend(found, FetchLines(lines)) ==
        if l == "" then Prepend(found, FetchLines(lines[1..]))
        else if !ValidDomain(l) then None
        else Prepend(found + [l], FetchLines(lines[1..]))
  {
    var l, rest := Trim(lines[0], SPACES), FetchLines(lines[1..]);
    if rest.Some? {
      assert found + ([l] + rest.value) == found + [l] + rest.value;
    }
  }

  lemma {:induction false} FetchLinesValid(lines: seq<string>)
    requires FetchLines(lines).Some?
    ensures forall d | d in FetchLines(lines).value :: ValidDomain(d)
  {
    if lines != [] {
      var l := Trim(lines[0], SPACES);
      FetchLinesValid(lines[1..]);
    }
  }

  // ---- list lines, character by character ----

  predicate AllSpace(s: string) { forall c | c in s :: c in SPACES }

  predicate Around(line: string, u: string, x: string, v: string) {
    line == u + x + v && AllSpace(u) && AllSpace(v) && (x != "" ==> x[0] !in SPACES && x[|x| - 1] !in SPACES)
  }

  /** The line is x among white space. */
  ghost predicate Bears(line: string, x: string) { exists u, v :: Around(line, u, x, v) }

  lemma BearsTrim(line: string, x: string)
    ensures Bears(line, x) <==> Trim(line, SPACES) == x
  {
    if Bears(line, x) {
      var u, v :| Around(line, u, x, v);
      TrimMiddle(u, x, v, SPACES);
    }
    if Trim(line, SPACES) == x {
      var u := TrimLeftParts(line, SPACES);
      var v := TrimRightParts(TrimLeft(line, SPACES), SPACES);
      TrimShape(line, SPACES);
      assert line == u + x + v;
      assert Around(line, u, x, v);
    }
  }

  lemma UnterminatedBears(p: string, x: string)
    ensures Bears(p, x) <==> Trim(Unterminated(p), SPACES) == x
  {
    var l := Unterminated(p);
    BearsTrim(p, x);
    if l != p {
      var t := Trim(l, SPACES);
      BearsTrim(l, t);
      var u, v :| Around(l, u, t, v);
      assert p == l + "\r" == u + t + (v + "\r");
      assert AllSpace(v + "\r");
      TrimMiddle(u, t, v + "\r", SPACES);
    }
  }

  lemma {:induction false} FetchLinesIff(lines: seq<string>)
    ensures FetchLines(lines).Some? <==>
      forall l | l in lines :: Trim(l, SPACES) == "" || ValidDomain(Trim(l, SPACES))
    ensures FetchLines(lines).Some? ==> forall x ::
      x in FetchLines(lines).value <==> x != "" && Trimmed(lines, x)
  {
    if lines != [] {
      FetchLinesIff(lines[1..]);
      assert forall l :: l in lines <==> l == lines[0] || l in lines[1..];
    }
  }

  /** What a line of a list may be. */
  ghost predicate LineOk(line: string) { forall x | Bears(line, x) :: x == "" || ValidDomain(x) }

  lemma LineOkTrim(p: string)
    ensures LineOk(p) <==> Trim(Unterminated(p), SPACES) == "" || ValidDomain(Trim(Unterminated(p), SPACES))
  {
    forall x
      ensures Bears(p, x) <==> Trim(Unterminated(p), SPACES) == x
    {
      UnterminatedBears(p, x);
    }
  }

  /** A list is accepted if and only if each of its lines fits and is blank or one valid
      domain among white space; and then it means those domains. */
  lemma FetchedIff(body: string)
    ensures DomainsOf(body).Some? <==> Fits(body) && forall line | line in Pieces(body) :: LineOk(line)
    ensures DomainsOf(body).Some? ==> forall x ::
      x in DomainsOf(body).value <==> x != "" && Borne(Pieces(body), x)
  {
    var pieces, lines := Pieces(body), Scan(Pieces(body)).0;
    ScanComplete(pieces);
    if Fits(body) {
      FetchLinesIff(lines);
      forall x
        ensures Trimmed(lines, x) <==> Borne(pieces, x)
      {
        BorneBy(pieces, lines, x);
      }
      AllLinesOk(pieces, lines);
    }
  }

  predicate ReadAs(pieces: seq<string>, lines: seq<string>) {
    |pieces| == |lines| && forall i | 0 <= i < |pieces| :: lines[i] == Unterminated(pieces[i])
  }

  ghost predicate Borne(pieces: seq<string>, x: string) { exists p | p in pieces :: Bears(p, x) }

  predicate Trimmed(lines: seq<string>, x: string) { exists l | l in lines :: Trim(l, SPACES) == x }

  lemma BorneBy(pieces: seq<string>, lines: seq<string>, x: string)
    requires ReadAs(pieces, lines)
    ensures Trimmed(lines, x) <==> Borne(pieces, x)
  {
    forall i | 0 <= i < |pieces|
      ensures Bears(pieces[i], x) <==> Trim(lines[i], SPACES) == x
    {
      UnterminatedBears(pieces[i], x);
    }
  }

  lemma AllLinesOk(pieces: seq<string>, lines: seq<string>)
    requires ReadAs(pieces, lines)
    ensures (forall l | l in lines :: Trim(l, SPACES) == "" || ValidDomain(Trim(l, SPACES)))
      <==> forall p | p in pieces :: LineOk(p)
  {
    forall i | 0 <= i < |pieces|
      ensures LineOk(pieces[i]) <==> Trim(lines[i], SPACES) == "" || ValidDomain(Trim(lines[i], SPACES))
    {
      LineOkTrim(pieces[i]);
    }
    if forall p | p in pieces :: LineOk(p) {
      forall l | l in lines
        ensures Trim(l, SPACES) == "" || ValidDomain(Trim(l, SPACES))
      {
        var i :| 0 <= i < |lines| && lines[i] == l;
        assert LineOk(pieces[i]);
      }
    }
  }

  lemma {:induction false} FetchLinesKeeps(domains: seq<string>)
    requires forall d | d in domains :: ValidDomain(d)
    ensures FetchLines(domains) == Some(domains)
  {
    if domains != [] {
      ValidKept(domains[0]);
      FetchLinesKeeps(domains[1..]);
      assert [domains[0]] + domains[1..] == domains;
    }
  }

  /** An empty set prints as one blank line, which is no domain. */
  lemma BlankBody()
    ensures Scan([""]) == ([""], true) && FetchLines([""]) == Some([])
  {
    var blank: seq<string> := [""];
    assert blank[1..] == [];
    assert Unterminated(blank[0]) == "";
    assert Scan(blank[1..]) == ([], true);
    assert [Unterminated(blank[0])] + Scan(blank[1..]).0 == blank;
    assert Scan(blank) == (blank, true);
    assert Trim(blank[0], SPACES) == "";
    assert FetchLines(blank[1..]) == Some([]);
  }

  lemma FetchOwnBody(items: seq<string>)
    requires forall d | d in items :: ValidDomain(d) && |d| < LIMIT
    ensures DomainsOf(ListBody(items)) == Some(items)
  {
    var body := ListBody(items);
    forall d | d in items
      ensures '\n' !in d && Unterminated(d) == d
    {
      ValidIsOneComponent(d);
      ValidKept(d);
    }
    SplitGlued(Join(items, '\n'), "", '\n');
    assert body == Join(items, '\n') + "\n" + "";
    assert Pieces(body) == Split(Join(items, '\n'), '\n');
    if items == [] {
      assert Pieces(body) == [""];
      BlankBody();
    } else {
      SplitJoin(items, '\n');
      ScanComplete(items);
      assert Scan(items).0 == items;
      FetchLinesKeeps(items);
    }
  }

  /** The client gets back exactly the authorised set, in whatever order the server's
      map was ranged over, if and only if every entry of the client's file is a valid
      domain. */
  lemma ListRoundTrip(text: string, items: seq<string>)
    requires Lists(items, Parsed(text))
    ensures (exists got :: DomainsOf(ListBody(items)) == Some(got) && Lists(got, Parsed(text)))
      <==> forall d | d in Parsed(text) :: ValidDomain(d)
  {
    if forall d | d in Parsed(text) :: ValidDomain(d) {
      forall d | d in items
        ensures ValidDomain(d) && |d| < LIMIT
      {
        EntriesShape(text, d);
      }
      FetchOwnBody(items);
    }
    if got :| DomainsOf(ListBody(items)) == Some(got) && Lists(got, Parsed(text)) {
      FetchLinesValid(Scan(Pieces(ListBody(items))).0);
    }
  }

  lemma OneLine(d: string)
    requires '\n' !in d && d != "" && |d| < LIMIT && Unterminated(d) == d
    ensures Pieces(d) == [d] && Pieces(ListBody([d])) == [d] && Scan([d]) == ([d], true)
  {
    SplitWhole(d, '\n');
    SplitGlued(d, "", '\n');
    assert ListBody([d]) == d + "\n" + "";
    assert Split("", '\n') == [""];
    assert [d][1..] == [];
    assert [Unterminated(d)] + [] == [d];
  }

  /** What becomes of one entry the server authorises: the client asks for it stripped of
      all blanks, or refuses the whole list. */
  lemma OneEntry(d: string)
    requires '\n' !in d && d != "" && |d| < LIMIT && Unterminated(d) == d && Entry(d) == d
    ensures Parsed(d) == {d}
    ensures var l := Trim(d, SPACES);
      DomainsOf(ListBody([d])) == if l == "" then Some([]) else if ValidDomain(l) then Some([l]) else None
  {
    OneLine(d);
    EntriesSingle(d);
    FetchOneLine(d);
  }

  lemma FetchOneLine(d: string)
    ensures var l := Trim(d, SPACES);
      FetchLines([d]) == if l == "" then Some([]) else if ValidDomain(l) then Some([l]) else None
  {
    var lines, l := [d], Trim(d, SPACES);
    assert lines[1..] == [];
    assert FetchLines(lines[1..]) == Some([]);
    assert [l] + [] == [l];
  }

  lemma NoBlanks(d: string)
    requires |d| == 3 && d[0] == 'a' && d[1] == '/' && d[2] == 'b'
    ensures '\n' !in d && Unterminated(d) == d && Entry(d) == d && Trim(d, SPACES) == d && !ValidDomain(d)
  {
    assert Index(d, '#') == |d|;
    assert d[..|d|] == d;
    TrimKeeps(d, BLANKS);
    TrimKeeps(d, SPACES);
    assert !DomainChar(d[1]);
  }

  lemma WideBlank(d: string)
    requires |d| == 2 && d[0] == '\U{A0}' && d[1] == 'a'
    ensures '\n' !in d && Unterminated(d) == d && Entry(d) == d && Trim(d, SPACES) == "a"
  {
    assert Index(d, '#') == |d|;
    assert d[..|d|] == d;
    TrimKeeps(d, BLANKS);
    assert d[1..] == "a" && TrimLeft(d, SPACES) == TrimLeft("a", SPACES) == "a";
  }

  lemma LetterValid()
    ensures ValidDomain("a")
  {
    SplitWhole("a", '.');
  }

  /** A file with one entry that is no domain, and one whose blank only the client strips:
      the client refuses the list, or asks for a name it is not authorised for. */
  lemma InvalidEntries()
    ensures Parsed("a/b") == {"a/b"} && DomainsOf(ListBody(["a/b"])) == None
    ensures Parsed("\U{A0}a") == {"\U{A0}a"} && DomainsOf(ListBody(["\U{A0}a"])) == Some(["a"])
  {
    NoBlanks("a/b");
    OneEntry("a/b");
    WideBlank("\U{A0}a");
    LetterValid();
    OneEntry("\U{A0}a");
  }
}
