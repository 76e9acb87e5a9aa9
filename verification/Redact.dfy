/** internal/shared/redact.go: URLs in log lines, with secret parameters replaced. */
module Redact {
  import opened Text
  import opened Query

  /** Everything before the query, the raw query, and everything after it. */
  datatype URL = URL(head: string, query: string, forceQuery: bool, tail: string)

  /** u.String(). */
  function Printed(u: URL): string {
    u.head + (if u.forceQuery || u.query != "" then "?" + u.query else "") + u.tail
  }

  const REDACTED := "REDACTED"

  function Masked(q: Values, names: set<string>): Values {
    map k | k in q :: if k in names then [REDACTED] else q[k]
  }

  function Params(u: URL): Values { ValuesOf(Parse(u.query).0) }

  predicate Parsable(u: URL) { Parse(u.query).1 }

  lemma MaskedDecent(q: Values, names: set<string>)
    requires Decent(q)
    ensures Decent(Masked(q, names))
  {
  }

  predicate Carries(q: Values, names: set<string>) { exists k :: k in q && k in names }

  /** The query logged in place of one that carries a secret. */
  function Hidden(q: Values, names: set<string>): string
    requires Decent(q)
  {
    MaskedDecent(q, names);
    EncodeValues(Masked(q, names))
  }

  function Redacted(u: Option<URL>, names: set<string>): string
    requires u.Some? ==> Bytes(u.value.query)
  {
    if u.None? then "" else RedactedQuery(u.value, names)
  }

  function RedactedQuery(u: URL, names: set<string>): string
    requires Bytes(u.query)
  {
    if u.query == "" then Printed(u)
    else if !Parsable(u) then u.head + "?" + REDACTED + u.tail
    else if !Carries(Params(u), names) then Printed(u)
    else
      ParsedIsDecent(u.query);
      Printed(u.(query := Hidden(Params(u), names)))
  }

  method RedactedURL(u: Option<URL>, secretNames: seq<string>) returns (line: string)
    requires u.Some? ==> Bytes(u.value.query)
    ensures line == Redacted(u, set n | n in secretNames)
    ensures u.None? ==> line == ""
  {
    if u.None? { return ""; }
    var url := u.value;
    if url.query == "" { return Printed(url); }
    if !Parsable(url) {
      return Printed(url.(query := REDACTED, forceQuery := true));
    }
    ParsedIsDecent(url.query);
    var q, found := MaskEach(Params(url), secretNames);
    if !found { return Printed(url); }
    line := Printed(url.(query := EncodeValues(q)));
  }

  lemma MaskMore(params: Values, done: set<string>, name: string)
    ensures name in Masked(params, done) ==> Masked(params, done)[name := [REDACTED]] == Masked(params, done + {name})
    ensures name !in Masked(params, done) ==> Masked(params, done) == Masked(params, done + {name})
    ensures Carries(params, done + {name}) <==> Carries(params, done) || name in params
  {
    var more := done + {name};
    assert name in params ==> name in more;
    assert forall k | k in done :: k in more;
  }

  method MaskEach(params: Values, secretNames: seq<string>) returns (q: Values, found: bool)
    requires Decent(params)
    ensures q == Masked(params, set n | n in secretNames) && Decent(q)
    ensures found <==> Carries(params, set n | n in secretNames)
  {
    q := params;
    found := false;
    ghost var done: set<string> := {};
    for i := 0 to |secretNames|
      invariant done == set n | n in secretNames[..i]
      invariant q == Masked(params, done)
      invariant found <==> Carries(params, done)
    {
      MaskMore(params, done, secretNames[i]);
      assert secretNames[..i + 1] == secretNames[..i] + [secretNames[i]];
      done := done + {secretNames[i]};
      if secretNames[i] in q {
        q := q[secretNames[i] := [REDACTED]];
        found := true;
      }
    }
    assert secretNames[..|secretNames|] == secretNames;
    MaskedDecent(params, done);
  }

  lemma HiddenText(q: Values, names: set<string>)
    requires Decent(q) && Carries(q, names)
    ensures var raw := Hidden(q, names);
      && raw != "" && Bytes(raw) && Parse(raw).1 && ValuesOf(Parse(raw).0) == Masked(q, names)
  {
    var masked := Masked(q, names);
    MaskedDecent(q, names);
    ValuesRoundTrip(masked);
    EncodedBytes(masked);
    EmptyQuery();
    var k :| k in q && k in names;
    assert k in masked;
  }

  /** A logged query parses back to every parameter the request had, all but the
      secret ones with all their values. */
  lemma RedactionKeeps(u: URL, names: set<string>)
    requires Bytes(u.query) && Parsable(u) && Carries(Params(u), names)
    ensures Decent(Params(u))
    ensures var raw := Hidden(Params(u), names);
      && RedactedQuery(u, names) == u.head + "?" + raw + u.tail
      && Parse(raw).1 && ValuesOf(Parse(raw).0).Keys == Params(u).Keys
      && forall k | k in Params(u) ::
           ValuesOf(Parse(raw).0)[k] == if k in names then ["REDACTED"] else Params(u)[k]
  {
    QueryPresent(u.query, names);
    ParsedIsDecent(u.query);
    var q := Params(u);
    HiddenText(q, names);
    HiddenPrinted(u, Hidden(q, names));
  }

  lemma QueryPresent(raw: string, names: set<string>)
    requires Carries(ValuesOf(Parse(raw).0), names)
    ensures raw != ""
  {
    EmptyQuery();
  }

  lemma HiddenPrinted(u: URL, raw: string)
    requires raw != ""
    ensures Printed(u.(query := raw)) == u.head + "?" + raw + u.tail
  {
    assert u.head + ("?" + raw) + u.tail == u.head + "?" + raw + u.tail;
  }

  lemma EmptyQuery()
    ensures ValuesOf(Parse("").0) == map[]
  {
    assert Split("", '&') == [""];
    var none: seq<string> := [];
    assert [""][1..] == none;
  }

  lemma {:induction false} EscapedBytes(s: string)
    requires Bytes(s)
    ensures Bytes(Escape(s))
  {
    if s != "" {
      EscapedBytes(s[1..]);
    }
  }

  lemma {:induction false} JoinedBytes(parts: seq<string>)
    requires forall p | p in parts :: Bytes(p)
    ensures Bytes(Join(parts, '&'))
  {
    if |parts| > 0 {
      assert parts[0] in parts;
      if |parts| > 1 {
        JoinedBytes(parts[1..]);
      }
    }
  }

  lemma EncodedBytes(q: Values)
    requires Decent(q)
    ensures Bytes(EncodeValues(q))
  {
    var pairs := Flatten(Sorted(q.Keys), q);
    FlattenBytes(Sorted(q.Keys), q);
    PiecesBytes(pairs);
    JoinedBytes(EncodePieces(pairs));
  }

  lemma PiecesBytes(pairs: seq<Pair>)
    requires BytePairs(pairs)
    ensures forall p | p in EncodePieces(pairs) :: Bytes(p)
  {
    forall k | 0 <= k < |pairs|
      ensures Bytes(EncodePair(pairs[k]))
    {
      EscapedBytes(pairs[k].0);
      EscapedBytes(pairs[k].1);
    }
  }

  predicate SamePublic(p: Values, q: Values, names: set<string>) {
    p.Keys == q.Keys && forall k | k in p && k !in names :: p[k] == q[k]
  }

  lemma MaskedSame(p: Values, q: Values, names: set<string>)
    ensures Masked(p, names) == Masked(q, names) <==> SamePublic(p, q, names)
  {
    var a, b := Masked(p, names), Masked(q, names);
    assert a.Keys == p.Keys && b.Keys == q.Keys;
    if a == b {
      forall k | k in p && k !in names
        ensures p[k] == q[k]
      {
        assert a[k] == b[k];
      }
    }
  }

  /** Two requests carrying a secret are logged alike if and only if they agree in
      everything but the values of secrets: the line tells nothing about those, and
      hides nothing else. */
  lemma RedactionIndependence(u: URL, v: URL, names: set<string>)
    requires Bytes(u.query) && Parsable(u) && Carries(Params(u), names)
    requires Bytes(v.query) && Parsable(v) && Carries(Params(v), names)
    requires u.head == v.head && u.tail == v.tail
    ensures RedactedQuery(u, names) == RedactedQuery(v, names) <==> SamePublic(Params(u), Params(v), names)
  {
    RedactionKeeps(u, names);
    RedactionKeeps(v, names);
    MaskedSame(Params(u), Params(v), names);
    var x, y := Hidden(Params(u), names), Hidden(Params(v), names);
    if RedactedQuery(u, names) == RedactedQuery(v, names) {
      Cancel(u.head + "?", x, y, u.tail);
    }
  }

  lemma Cancel(a: string, x: string, y: string, b: string)
    requires a + x + b == a + y + b
    ensures x == y
  {
    assert |x| == |y|;
    assert (a + x + b)[|a|..|a| + |x|] == x;
    assert (a + y + b)[|a|..|a| + |y|] == y;
  }

  /** A URL without a secret is logged as it is. */
  lemma HarmlessKept(u: URL, names: set<string>)
    requires Bytes(u.query) && Parsable(u) && forall k | k in Params(u) :: k !in names
    ensures RedactedQuery(u, names)
      == u.head + (if u.query == "" && !u.forceQuery then "" else "?" + u.query) + u.tail
  {
  }

  /** A query that cannot be parsed is hidden as a whole. */
  lemma MalformedHidden(u: URL, v: URL, names: set<string>)
    requires Bytes(u.query) && !Parsable(u) && Bytes(v.query) && !Parsable(v)
    requires u.head == v.head && u.tail == v.tail
    ensures RedactedQuery(u, names) == RedactedQuery(v, names) == u.head + "?REDACTED" + u.tail
  {
    EmptyQuery();
    assert Split("", '&') == [""];
    assert u.query != "" && v.query != "";
  }
}
