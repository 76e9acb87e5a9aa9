/** File names of one domain: the published names, the timestamped ("infixed")
    names the data is written under, and the temporary link names. */
module Names {
  import opened Text

  /** strconv.FormatInt(n, 10) for the current second. */
  function Dec(n: nat): (s: string)
    ensures s != "" && forall c :: c in s ==> '0' <= c <= '9'
  {
    if n < 10 then [Digit(n)] else Dec(n / 10) + [Digit(n % 10)]
  }

  function Digit(n: nat): (c: char)
    requires n < 10
    ensures '0' <= c <= '9'
  {
    '0' + n as char
  }

  function Undec(s: string): nat {
    if s == "" then 0
    else
      var c := s[|s| - 1];
      10 * Undec(s[..|s| - 1]) + if '0' <= c <= '9' then (c - '0') as nat else 0
  }

  lemma {:induction false} DecRoundTrip(n: nat)
    ensures Undec(Dec(n)) == n
  {
    if n >= 10 {
      DecRoundTrip(n / 10);
      assert Dec(n)[..|Dec(n)| - 1] == Dec(n / 10);
    } else {
      assert Undec("") == 0;
      assert Dec(n)[..0] == "";
    }
  }

  /** The usual decimal: no leading zero. */
  lemma {:induction false} DecCanonical(n: nat)
    ensures Dec(n)[0] == '0' <==> n == 0
    ensures n < 10 <==> |Dec(n)| == 1
  {
    if n >= 10 {
      DecCanonical(n / 10);
    }
  }

  /** Name, second and extension, in plain sight. */
  lemma InfixWritten(stem: string, ext: string, second: nat)
    requires '.' !in ext
    ensures var f := stem + "." + ext;
      '.' in f && Infix(f, second) == stem + "-" + Dec(second) + "." + ext
  {
    var f := stem + "." + ext;
    assert f[|stem|] == '.';
    assert forall k | |stem| < k < |f| :: f[k] == ext[k - |stem| - 1];
    assert LastIndex(f, '.') == |stem|;
    assert f[..|stem|] == stem && f[|stem|..] == "." + ext;
  }

  /** What every local file template expands to below the domain directory:
      one extension, no '-' and no '/'. */
  predicate Plain(f: string) {
    && '-' !in f && '/' !in f
    && '.' in f && Index(f, '.') == LastIndex(f, '.')
  }

  /** cert.pem at second 12 becomes cert-12.pem; the source panics without a dot. */
  function Infix(f: string, second: nat): string
    requires '.' in f
  {
    Stamped(f, Dec(second))
  }

  function Stamped(f: string, stamp: string): string
    requires '.' in f
  {
    var i := LastIndex(f, '.');
    f[..i] + "-" + stamp + f[i..]
  }

  function Tmp(f: string): string { f + ".tmp" }

  /** Recovers name and second from an infixed name. */
  function Uninfix(x: string): (string, nat)
    requires '-' in x && '.' in x && Index(x, '-') < LastIndex(x, '.')
  {
    var i, j := Index(x, '-'), LastIndex(x, '.');
    (x[..i] + x[j..], Undec(x[i + 1..j]))
  }

  lemma StampedShape(f: string, d: string)
    requires Plain(f) && '.' !in d && '/' !in d
    ensures var x, i := Stamped(f, d), LastIndex(f, '.');
      && |x| == |f| + 1 + |d|
      && x[..i] == f[..i] && x[i + 1..i + 1 + |d|] == d && x[i + 1 + |d|..] == f[i..]
    ensures var x, i := Stamped(f, d), LastIndex(f, '.');
      && '-' in x && Index(x, '-') == i
      && '.' in x && LastIndex(x, '.') == i + 1 + |d|
    ensures '/' !in Stamped(f, d)
  {
    var x, i := Stamped(f, d), LastIndex(f, '.');
    assert x[i] == '-';
    assert forall k :: 0 <= k < i ==> x[k] == f[k];
    assert forall k :: i < k <= i + |d| ==> x[k] == d[k - i - 1];
    assert forall k :: i + |d| < k < |x| ==> x[k] == f[k - 1 - |d|];
    assert x[i + 1 + |d|] == '.';
  }

  lemma UnstampStamped(f: string, d: string)
    requires Plain(f) && '.' !in d && '/' !in d
    ensures var x := Stamped(f, d);
      && '-' in x && '.' in x && Index(x, '-') < LastIndex(x, '.') && Uninfix(x) == (f, Undec(d))
  {
    StampedShape(f, d);
    var x, i := Stamped(f, d), LastIndex(f, '.');
    var j := i + 1 + |d|;
    assert x[..i] + x[j..] == f[..i] + f[i..] == f;
  }

  /** Infixing is invertible on plain names, for all seconds at once. */
  lemma InfixRoundTrip(f: string, second: nat)
    requires Plain(f)
    ensures var x := Infix(f, second);
      && '-' in x && '.' in x && '/' !in x && Index(x, '-') < LastIndex(x, '.')
      && Uninfix(x) == (f, second)
  {
    StampedShape(f, Dec(second));
    UnstampStamped(f, Dec(second));
    DecRoundTrip(second);
  }

  /** A temporary name carries two dots. */
  lemma TmpShape(f: string)
    requires Plain(f)
    ensures var x := Tmp(f);
      && '-' !in x && '.' in x && Index(x, '.') == LastIndex(f, '.') && LastIndex(x, '.') == |f|
  {
    var x, i := Tmp(f), LastIndex(f, '.');
    assert x[i] == '.' && x[..i] == f[..i];
    assert x[|f|] == '.' && x[|f| + 1..] == "tmp";
  }

  lemma TmpInjective(f: string, g: string)
    requires Tmp(f) == Tmp(g)
    ensures f == g
  {
    assert Tmp(f)[..|f|] == f && Tmp(g)[..|g|] == g;
  }

  /** Infixed names are pairwise different across names and across seconds, and
      meet neither a published name nor a temporary one. */
  lemma NamesApart(f: string, g: string, m: nat, n: nat)
    requires Plain(f) && Plain(g)
    ensures Infix(f, m) == Infix(g, n) <==> f == g && m == n
    ensures Infix(f, m) != g && Infix(f, m) != Tmp(g) && Tmp(f) != g
    ensures Tmp(f) == Tmp(g) <==> f == g
  {
    InfixRoundTrip(f, m);
    InfixRoundTrip(g, n);
    TmpShape(f);
    TmpShape(g);
    if Tmp(f) == Tmp(g) {
      TmpInjective(f, g);
    }
  }
}
