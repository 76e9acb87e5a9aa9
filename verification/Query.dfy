/** Query strings: percent-encoding (section 2.1 of RFC 3986, in Go's query flavour) and
    url.Values. Strings are byte strings. */
module Query {
  import opened Text

  predicate Bytes(s: string) { forall k | 0 <= k < |s| :: s[k] < 256 as char }

  // ---- escaping ----

  predicate Unreserved(c: char) {
    'a' <= c <= 'z' || 'A' <= c <= 'Z' || '0' <= c <= '9' || c == '-' || c == '_' || c == '.' || c == '~'
  }

  function HexDigit(n: nat): char
    requires n < 16
  {
    if n < 10 then '0' + n as char else 'A' + (n - 10) as char
  }

  function HexValue(c: char): Option<nat> {
    if '0' <= c <= '9' then Some((c - '0') as nat)
    else if 'A' <= c <= 'F' then Some((c - 'A') as nat + 10)
    else if 'a' <= c <= 'f' then Some((c - 'a') as nat + 10)
    else None
  }

  function EscapeByte(c: char): string
    requires c < 256 as char
  {
    if Unreserved(c) then [c]
    else if c == ' ' then "+"
    else ['%', HexDigit(c as nat / 16), HexDigit(c as nat % 16)]
  }

  /** url.QueryEscape. */
  function Escape(s: string): string
    requires Bytes(s)
  {
    if s == "" then "" else EscapeByte(s[0]) + Escape(s[1..])
  }

  /** url.QueryUnescape, None for a malformed escape. */
  function Unescape(s: string): Option<string> {
    if s == "" then Some("")
    else if s[0] == '%' then
      if |s| < 3 || HexValue(s[1]).None? || HexValue(s[2]).None? then None
      else match Unescape(s[3..])
        case None => None
        case Some(rest) => Some([(16 * HexValue(s[1]).value + HexValue(s[2]).value) as char] + rest)
    else match Unescape(s[1..])
      case None => None
      case Some(rest) => Some([if s[0] == '+' then ' ' else s[0]] + rest)
  }

  lemma HexRoundTrip(n: nat)
    requires n < 16
    ensures HexValue(HexDigit(n)) == Some(n) && HexDigit(n) != '%'
  {
  }

  lemma {:induction false} EscapeRoundTrip(s: string)
    requires Bytes(s)
    ensures Unescape(Escape(s)) == Some(s)
  {
    if s != "" {
      var c, e, rest := s[0], EscapeByte(s[0]), Escape(s[1..]);
      EscapeRoundTrip(s[1..]);
      assert [c] + s[1..] == s;
      assert (e + rest)[|e|..] == rest;
      if !Unreserved(c) && c != ' ' {
        var n := c as nat;
        HexRoundTrip(n / 16);
        HexRoundTrip(n % 16);
        assert 16 * (n / 16) + n % 16 == n;
      }
    }
  }

  /** Nothing in an escaped string can be taken for query syntax. */
  lemma {:induction false} EscapeIsInert(s: string)
    requires Bytes(s)
    ensures '&' !in Escape(s) && '=' !in Escape(s) && ';' !in Escape(s)
    ensures Escape(s) == "" ==> s == ""
  {
    if s != "" {
      EscapeIsInert(s[1..]);
    }
  }

  lemma {:induction false} UnescapeBytes(s: string)
    requires Bytes(s) && Unescape(s).Some?
    ensures Bytes(Unescape(s).value)
  {
    if s != "" {
      if s[0] == '%' {
        UnescapeBytes(s[3..]);
      } else {
        UnescapeBytes(s[1..]);
      }
    }
  }

  // ---- what an escaped string spells ----

  /** A character as it is, a plus sign, or a percent sign with two hexadecimal digits. */
  datatype Token = Byte(c: char) | Blank | Code(hi: nat, lo: nat, h: char, l: char)

  predicate HexOf(n: nat, c: char) { n < 16 && (c == "0123456789ABCDEF"[n] || c == "0123456789abcdef"[n]) }

  predicate Proper(k: Token) {
    match k
    case Byte(c) => c != '%' && c != '+'
    case Blank => true
    case Code(hi, lo, h, l) => HexOf(hi, h) && HexOf(lo, l)
  }

  predicate AllProper(tokens: seq<Token>) { forall k | k in tokens :: Proper(k) }

  function TokenText(k: Token): string {
    match k
    case Byte(c) => [c]
    case Blank => "+"
    case Code(_, _, h, l) => ['%', h, l]
  }

  function TokenByte(k: Token): char
    requires Proper(k)
  {
    match k
    case Byte(c) => c
    case Blank => ' '
    case Code(hi, lo, _, _) => (16 * hi + lo) as char
  }

  function Spelled(tokens: seq<Token>): string {
    if tokens == [] then "" else TokenText(tokens[0]) + Spelled(tokens[1..])
  }

  function Meant(tokens: seq<Token>): string
    requires AllProper(tokens)
  {
    if tokens == [] then "" else [TokenByte(tokens[0])] + Meant(tokens[1..])
  }

  lemma HexDigits(n: nat, c: char)
    ensures HexOf(n, c) <==> HexValue(c) == Some(n)
  {
  }

  lemma {:induction false} UnescapeSpelled(tokens: seq<Token>)
    requires AllProper(tokens)
    ensures Unescape(Spelled(tokens)) == Some(Meant(tokens))
  {
    if tokens != [] {
      var rest := Spelled(tokens[1..]);
      assert Proper(tokens[0]);
      UnescapeSpelled(tokens[1..]);
      match tokens[0] {
        case Byte(c) => assert ([c] + rest)[1..] == rest;
        case Blank => assert ("+" + rest)[1..] == rest;
        case Code(hi, lo, h, l) =>
          HexDigits(hi, h);
          HexDigits(lo, l);
          assert (['%', h, l] + rest)[3..] == rest;
      }
    }
  }

  lemma {:induction false} TokensOf(s: string) returns (tokens: seq<Token>)
    requires Unescape(s).Some?
    ensures AllProper(tokens) && Spelled(tokens) == s && Meant(tokens) == Unescape(s).value
  {
    if s == "" {
      tokens := [];
    } else {
      var first, size := Byte(s[0]), 1;
      if s[0] == '+' {
        first := Blank;
      } else if s[0] == '%' {
        HexDigits(HexValue(s[1]).value, s[1]);
        HexDigits(HexValue(s[2]).value, s[2]);
        first, size := Code(HexValue(s[1]).value, HexValue(s[2]).value, s[1], s[2]), 3;
      }
      var rest := TokensOf(s[size..]);
      tokens := [first] + rest;
      assert tokens[1..] == rest;
      assert s == s[..size] + s[size..];
    }
  }

  /** Exactly the strings made of such tokens can be decoded, digits in either case, and
      to what the tokens stand for. */
  lemma UnescapeIff(s: string, v: string)
    ensures Unescape(s) == Some(v) <==>
      exists tokens :: AllProper(tokens) && Spelled(tokens) == s && Meant(tokens) == v
  {
    if Unescape(s) == Some(v) {
      var tokens := TokensOf(s);
    }
    if tokens :| AllProper(tokens) && Spelled(tokens) == s && Meant(tokens) == v {
      UnescapeSpelled(tokens);
    }
  }

  // ---- parsing and encoding ----

  type Pair = (string, string)

  /** One "key=value" between ampersands, None when it is an error. */
  function ParsePair(piece: string): Option<Pair> {
    if ';' in piece then None
    else
      var i := Index(piece, '=');
      var key, value := Unescape(piece[..i]), Unescape(if i < |piece| then piece[i + 1..] else "");
      if key.None? || value.None? then None else Some((key.value, value.value))
  }

  /** The pairs of a query in order, and whether it was free of errors. */
  function ParsePieces(pieces: seq<string>): (seq<Pair>, bool) {
    if pieces == [] then ([], true)
    else
      var (rest, ok) := ParsePieces(pieces[1..]);
      if pieces[0] == "" then (rest, ok)
      else match ParsePair(pieces[0])
        case None => (rest, false)
        case Some(p) => ([p] + rest, ok)
  }

  function Parse(raw: string): (seq<Pair>, bool) { ParsePieces(Split(raw, '&')) }

  /** The key is what is in front of the first "=", the value what is behind it, if any. */
  predicate Cut(piece: string, a: string, b: string) {
    '=' !in a && ((piece == a && b == "") || piece == a + ("=" + b))
  }

  lemma PairCut(piece: string, a: string, b: string)
    requires Cut(piece, a, b) && ';' !in piece
    ensures ParsePair(piece) ==
      if Unescape(a).None? || Unescape(b).None? then None else Some((Unescape(a).value, Unescape(b).value))
  {
    CutAt(piece, a, b);
  }

  lemma CutExists(piece: string) returns (a: string, b: string)
    ensures Cut(piece, a, b)
  {
    var i := Index(piece, '=');
    a, b := piece[..i], if i < |piece| then piece[i + 1..] else "";
    assert piece == piece[..i] + piece[i..];
  }

  /** What a piece of a query means. */
  lemma PairIff(piece: string, key: string, value: string)
    ensures ParsePair(piece) == Some((key, value)) <==>
      ';' !in piece && exists a, b :: Cut(piece, a, b) && Unescape(a) == Some(key) && Unescape(b) == Some(value)
  {
    if ';' !in piece {
      var a, b := CutExists(piece);
      PairCut(piece, a, b);
      if a', b' :| Cut(piece, a', b') && Unescape(a') == Some(key) && Unescape(b') == Some(value) {
        PairCut(piece, a', b');
      }
    }
  }

  lemma CutAt(piece: string, a: string, b: string)
    requires Cut(piece, a, b)
    ensures var i := Index(piece, '=');
      a == piece[..i] && b == if i < |piece| then piece[i + 1..] else ""
  {
    if piece == a && b == "" {
      IndexBefore(a, "", '=');
      assert a + "" == a;
    } else {
      IndexBefore(a, "=" + b, '=');
    }
  }

  /** A piece on its own: nothing, one pair or an error. */
  function One(piece: string): (seq<Pair>, bool) {
    if piece == "" then ([], true)
    else match ParsePair(piece)
      case None => ([], false)
      case Some(p) => ([p], true)
  }

  lemma PiecesHead(pieces: seq<string>)
    requires pieces != []
    ensures ParsePieces(pieces).0 == One(pieces[0]).0 + ParsePieces(pieces[1..]).0
    ensures ParsePieces(pieces).1 <==> One(pieces[0]).1 && ParsePieces(pieces[1..]).1
  {
  }

  /** The pieces between ampersands are read one by one and in order; empty ones are
      skipped, and an error in one takes away that one only. */
  lemma ParseGlued(a: string, b: string)
    requires '&' !in a
    ensures Parse(a) == One(a)
    ensures Parse(a + "&" + b) == (One(a).0 + Parse(b).0, One(a).1 && Parse(b).1)
  {
    SplitGlued(a, b, '&');
    SplitWhole(a, '&');
    var pieces := [a] + Split(b, '&');
    assert [a][1..] == [] && pieces[1..] == Split(b, '&');
    PiecesHead([a]);
    PiecesHead(pieces);
    assert One(a).0 + [] == One(a).0;
  }

  predicate BytePairs(pairs: seq<Pair>) {
    forall k | 0 <= k < |pairs| :: Bytes(pairs[k].0) && Bytes(pairs[k].1)
  }

  function EncodePair(p: Pair): string
    requires Bytes(p.0) && Bytes(p.1)
  {
    Escape(p.0) + "=" + Escape(p.1)
  }

  function EncodePieces(pairs: seq<Pair>): seq<string>
    requires BytePairs(pairs)
  {
    seq(|pairs|, k requires 0 <= k < |pairs| => EncodePair(pairs[k]))
  }

  function Encode(pairs: seq<Pair>): string
    requires BytePairs(pairs)
  {
    Join(EncodePieces(pairs), '&')
  }

  lemma PairRoundTrip(p: Pair)
    requires Bytes(p.0) && Bytes(p.1)
    ensures ParsePair(EncodePair(p)) == Some(p) && '&' !in EncodePair(p) && EncodePair(p) != ""
  {
    var k, v := Escape(p.0), Escape(p.1);
    var piece := k + "=" + v;
    EscapeIsInert(p.0);
    EscapeIsInert(p.1);
    EscapeRoundTrip(p.0);
    EscapeRoundTrip(p.1);
    assert piece[|k|] == '=' && Index(piece, '=') == |k|;
    assert piece[..|k|] == k && piece[|k| + 1..] == v;
  }

  lemma {:induction false} PiecesRoundTrip(pairs: seq<Pair>)
    requires BytePairs(pairs)
    ensures ParsePieces(EncodePieces(pairs)) == (pairs, true)
  {
    if pairs != [] {
      PairRoundTrip(pairs[0]);
      PiecesRoundTrip(pairs[1..]);
      assert EncodePieces(pairs)[1..] == EncodePieces(pairs[1..]);
      assert [pairs[0]] + pairs[1..] == pairs;
    }
  }

  /** Parsing an encoded query gives back the pairs, for every byte string. */
  lemma QueryRoundTrip(pairs: seq<Pair>)
    requires BytePairs(pairs)
    ensures Parse(Encode(pairs)) == (pairs, true)
  {
    var pieces := EncodePieces(pairs);
    PiecesRoundTrip(pairs);
    if pairs == [] {
      assert Split("", '&') == [""];
      var none: seq<string> := [];
      assert [""][1..] == none;
    } else {
      forall p | p in pieces
        ensures '&' !in p
      {
        var k :| 0 <= k < |pieces| && pieces[k] == p;
        PairRoundTrip(pairs[k]);
      }
      SplitJoin(pieces, '&');
    }
  }

  // ---- url.Values ----

  /** Every key holds its values in order of appearance, at least one. */
  type Values = map<string, seq<string>>

  function Lookup(pairs: seq<Pair>, key: string): seq<string> {
    if pairs == [] then []
    else (if pairs[0].0 == key then [pairs[0].1] else []) + Lookup(pairs[1..], key)
  }

  function ValuesOf(pairs: seq<Pair>): Values {
    map p | p in pairs :: p.0 := Lookup(pairs, p.0)
  }

  function Get(q: Values, key: string): string {
    if key in q && q[key] != [] then q[key][0] else ""
  }

  ghost predicate Decent(q: Values) {
    forall k | k in q :: Bytes(k) && q[k] != [] && forall v | v in q[k] :: Bytes(v)
  }

  /** The order of Go's < on strings. */
  predicate Less(a: string, b: string) {
    b != "" && (a == "" || a[0] < b[0] || (a[0] == b[0] && Less(a[1..], b[1..])))
  }

  lemma {:induction false} LessTotal(a: string, b: string)
    ensures !(Less(a, b) && Less(b, a))
    ensures a == b || Less(a, b) || Less(b, a)
  {
    if a != "" && b != "" && a[0] == b[0] {
      LessTotal(a[1..], b[1..]);
      assert a == [a[0]] + a[1..] && b == [b[0]] + b[1..];
    }
  }

  lemma {:induction false} LessTransitive(a: string, b: string, c: string)
    requires Less(a, b) && Less(b, c)
    ensures Less(a, c)
  {
    if a != "" && a[0] == b[0] && b[0] == c[0] {
      LessTransitive(a[1..], b[1..], c[1..]);
    }
  }

  predicate First(m: string, s: set<string>) { m in s && forall x | x in s :: x == m || Less(m, x) }

  lemma {:induction false} FirstExists(s: set<string>)
    requires s != {}
    ensures exists m :: First(m, s)
    ensures forall m, n | First(m, s) && First(n, s) :: m == n
  {
    forall m, n | First(m, s) && First(n, s)
      ensures m == n
    {
      LessTotal(m, n);
    }
    var x :| x in s;
    var rest := s - {x};
    if rest == {} {
      assert s == {x};
      assert First(x, s);
    } else {
      FirstExists(rest);
      var m :| First(m, rest);
      LessTotal(x, m);
      if Less(x, m) {
        forall y | y in rest
          ensures Less(x, y)
        {
          if y != m { LessTransitive(x, m, y); }
        }
        assert First(x, s);
      } else {
        assert First(m, s);
      }
    }
  }

  /** The keys as Encode ranges over them. */
  function Sorted(keys: set<string>): (order: seq<string>)
    ensures forall k :: k in order <==> k in keys
    ensures forall i, j | 0 <= i < j < |order| :: Less(order[i], order[j]) && order[i] != order[j]
  {
    if keys == {} then []
    else
      FirstExists(keys);
      var k :| First(k, keys);
      [k] + Sorted(keys - {k})
  }

  function Tagged(key: string, values: seq<string>): seq<Pair> {
    seq(|values|, i requires 0 <= i < |values| => (key, values[i]))
  }

  function Flatten(keys: seq<string>, q: Values): seq<Pair>
    requires forall k | k in keys :: k in q
  {
    if keys == [] then [] else Tagged(keys[0], q[keys[0]]) + Flatten(keys[1..], q)
  }

  lemma {:induction false} FlattenBytes(keys: seq<string>, q: Values)
    requires Decent(q) && forall k | k in keys :: k in q
    ensures BytePairs(Flatten(keys, q))
    ensures forall k | k in keys :: exists p :: p in Flatten(keys, q) && p.0 == k
    ensures forall p | p in Flatten(keys, q) :: p.0 in keys
  {
    if keys != [] {
      FlattenBytes(keys[1..], q);
      var k := keys[0];
      var head := Tagged(k, q[k]);
      assert head[0] in Flatten(keys, q);
      forall k' | k' in keys
        ensures exists p :: p in Flatten(keys, q) && p.0 == k'
      {
        if k' != k {
          assert k' in keys[1..];
          var p :| p in Flatten(keys[1..], q) && p.0 == k';
          assert p in Flatten(keys, q);
        }
      }
    }
  }

  /** q.Encode(). */
  function EncodeValues(q: Values): string
    requires Decent(q)
  {
    FlattenBytes(Sorted(q.Keys), q);
    Encode(Flatten(Sorted(q.Keys), q))
  }

  lemma {:induction false} LookupAppend(a: seq<Pair>, b: seq<Pair>, key: string)
    ensures Lookup(a + b, key) == Lookup(a, key) + Lookup(b, key)
  {
    if a == [] {
      assert a + b == b;
    } else {
      LookupAppend(a[1..], b, key);
      assert (a + b)[1..] == a[1..] + b;
    }
  }

  lemma {:induction false} LookupTagged(k: string, values: seq<string>, key: string)
    ensures Lookup(Tagged(k, values), key) == if k == key then values else []
  {
    if values != [] {
      LookupTagged(k, values[1..], key);
      assert Tagged(k, values)[1..] == Tagged(k, values[1..]);
      assert [values[0]] + values[1..] == values;
    }
  }

  lemma {:induction false} LookupFlatten(keys: seq<string>, q: Values, key: string)
    requires forall k | k in keys :: k in q
    requires forall i, j | 0 <= i < j < |keys| :: keys[i] != keys[j]
    ensures Lookup(Flatten(keys, q), key) == if key in keys then q[key] else []
  {
    if keys != [] {
      var head := Tagged(keys[0], q[keys[0]]);
      assert key in keys <==> key == keys[0] || key in keys[1..];
      assert key == keys[0] ==> key !in keys[1..];
      LookupFlatten(keys[1..], q, key);
      LookupAppend(head, Flatten(keys[1..], q), key);
      LookupTagged(keys[0], q[keys[0]], key);
    }
  }

  /** Parsing what Encode prints gives back every key with all its values. */
  lemma ValuesRoundTrip(q: Values)
    requires Decent(q)
    ensures Parse(EncodeValues(q)).1 && ValuesOf(Parse(EncodeValues(q)).0) == q
  {
    var keys := Sorted(q.Keys);
    var pairs := Flatten(keys, q);
    FlattenBytes(keys, q);
    QueryRoundTrip(pairs);
    forall k
      ensures k in ValuesOf(pairs) <==> k in q
      ensures k in q ==> ValuesOf(pairs)[k] == q[k]
    {
      LookupFlatten(keys, q, k);
    }
  }

  lemma {:induction false} PairsBytes(pieces: seq<string>)
    requires forall p | p in pieces :: Bytes(p)
    ensures BytePairs(ParsePieces(pieces).0)
  {
    if pieces != [] {
      PairsBytes(pieces[1..]);
      var piece := pieces[0];
      assert piece in pieces;
      var i := Index(piece, '=');
      var value := if i < |piece| then piece[i + 1..] else "";
      if Unescape(piece[..i]).Some? { UnescapeBytes(piece[..i]); }
      if Unescape(value).Some? { UnescapeBytes(value); }
    }
  }

  lemma {:induction false} LookupMember(pairs: seq<Pair>, key: string)
    ensures Lookup(pairs, key) != [] <==> exists p :: p in pairs && p.0 == key
    ensures BytePairs(pairs) ==> forall v | v in Lookup(pairs, key) :: Bytes(v)
  {
    if pairs != [] {
      LookupMember(pairs[1..], key);
      assert pairs == [pairs[0]] + pairs[1..];
      assert pairs[0] in pairs;
    }
  }

  /** Get answers with the first value of a key. */
  lemma {:induction false} LookupFirst(pairs: seq<Pair>, i: nat)
    requires i < |pairs| && forall k | 0 <= k < i :: pairs[k].0 != pairs[i].0
    ensures Lookup(pairs, pairs[i].0) != [] && Lookup(pairs, pairs[i].0)[0] == pairs[i].1
  {
    if i > 0 {
      LookupFirst(pairs[1..], i - 1);
    }
  }

  lemma GetIsFirst(pairs: seq<Pair>, key: string)
    ensures (forall p | p in pairs :: p.0 != key) ==> Get(ValuesOf(pairs), key) == ""
    ensures forall i | 0 <= i < |pairs| && pairs[i].0 == key && (forall k | 0 <= k < i :: pairs[k].0 != key) ::
      Get(ValuesOf(pairs), key) == pairs[i].1
  {
    forall i | 0 <= i < |pairs| && pairs[i].0 == key && (forall k | 0 <= k < i :: pairs[k].0 != key)
      ensures Get(ValuesOf(pairs), key) == pairs[i].1
    {
      LookupFirst(pairs, i);
      assert pairs[i] in pairs;
    }
  }

  lemma {:induction false} PartsBytes(raw: string)
    requires Bytes(raw)
    ensures forall p | p in Split(raw, '&') :: Bytes(p)
  {
    if raw != "" {
      PartsBytes(raw[1..]);
      var rest := Split(raw[1..], '&');
      assert rest[0] in rest;
      forall p | p in Split(raw, '&')
        ensures Bytes(p)
      {
        assert p in rest || p == "" || p == [raw[0]] + rest[0];
      }
    }
  }

  /** A parsed query can be encoded again. */
  lemma ParsedIsDecent(raw: string)
    requires Bytes(raw)
    ensures Decent(ValuesOf(Parse(raw).0))
  {
    PartsBytes(raw);
    PairsBytes(Split(raw, '&'));
    var pairs := Parse(raw).0;
    forall k | k in ValuesOf(pairs)
      ensures Bytes(k) && Lookup(pairs, k) != [] && forall v | v in Lookup(pairs, k) :: Bytes(v)
    {
      LookupMember(pairs, k);
    }
  }
}
