/** internal/list/validate.go: which names may become a path component. */
module Validate {
  import opened Text

  predicate DomainChar(c: char) {
    'a' <= c <= 'z' || 'A' <= c <= 'Z' || '0' <= c <= '9' || c == '*' || c == '.' || c == '_' || c == '-'
  }

  /** ValidateDomain returns no error. */
  predicate ValidDomain(domain: string) {
    && domain != ""
    && (forall k | 0 <= k < |domain| :: DomainChar(domain[k]))
    && (forall part | part in Split(domain, '.') :: part != "")
  }

  const RESERVED: set<string> := {
    "CON", "PRN", "AUX", "NUL",
    "COM0", "COM1", "COM2", "COM3", "COM4", "COM5", "COM6", "COM7", "COM8", "COM9",
    "LPT0", "LPT1", "LPT2", "LPT3", "LPT4", "LPT5", "LPT6", "LPT7", "LPT8", "LPT9"
  }

  function Upper(s: string): string {
    seq(|s|, i requires 0 <= i < |s| =>
      if 'a' <= s[i] <= 'z' then 'A' + (s[i] - 'a') else s[i])
  }

  /** ValidateClientName returns no error. */
  predicate ValidClientName(name: string) {
    ValidDomain(name) && '*' !in name && Upper(name[..Index(name, '.')]) !in RESERVED
  }

  /** No dot leads, trails or meets another dot. */
  predicate DotsApart(s: string) {
    s != "" && forall k | 0 <= k < |s| && s[k] == '.' :: 0 < k < |s| - 1 && s[k + 1] != '.'
  }

  lemma DotsApartGlued(a: string, b: string)
    requires '.' !in a
    ensures DotsApart(a + "." + b) <==> a != "" && DotsApart(b)
  {
    var s := a + "." + b;
    assert s[|a|] == '.';
    assert s[|a| + 1..] == b;
    if DotsApart(s) {
      forall k | 0 <= k < |b| && b[k] == '.'
        ensures 0 < k < |b| - 1 && b[k + 1] != '.'
      {
        assert s[|a| + 1 + k] == '.';
      }
    }
    if a != "" && DotsApart(b) {
      forall k | 0 <= k < |s| && s[k] == '.'
        ensures 0 < k < |s| - 1 && s[k + 1] != '.'
      {
        if k > |a| {
          assert b[k - |a| - 1] == '.';
        } else {
          assert k == |a|;
        }
      }
    }
  }

  /** No label is empty exactly when the dots are apart. */
  lemma {:induction false} LabelsNonEmpty(s: string)
    ensures (forall part | part in Split(s, '.') :: part != "") <==> DotsApart(s)
  {
    var i := Index(s, '.');
    if i == |s| {
      SplitWhole(s, '.');
      assert s in Split(s, '.');
    } else {
      var a, b := s[..i], s[i + 1..];
      assert s == a + "." + b;
      SplitGlued(a, b, '.');
      SplitWhole(a, '.');
      DotsApartGlued(a, b);
      LabelsNonEmpty(b);
      var parts := Split(s, '.');
      assert parts == [a] + Split(b, '.');
      assert a in parts && forall part :: part in Split(b, '.') ==> part in parts;
      assert DotsApart(s) == (a != "" && DotsApart(b));
    }
  }

  /** A valid domain is one path component that cleaning keeps, and one list line
      that neither trimming nor comment stripping changes. */
  lemma ValidIsOneComponent(d: string)
    requires ValidDomain(d)
    ensures '/' !in d && d != "" && d != "." && d != ".."
    ensures '\n' !in d && '#' !in d && '\r' !in d && ' ' !in d && '\t' !in d
  {
    LabelsNonEmpty(d);
    assert DotsApart(d);
    assert d[0] != '.';
  }

  // ---- the names accepted, label by label ----

  /** A label of a domain name. */
  predicate Label(s: string) {
    s != "" && forall c | c in s :: 'a' <= c <= 'z' || 'A' <= c <= 'Z' || '0' <= c <= '9' || c in {'*', '_', '-'}
  }

  predicate Labels(labels: seq<string>) { labels != [] && forall l | l in labels :: Label(l) }

  lemma {:induction false} JoinedChars(parts: seq<string>, sep: char, c: char)
    requires c != sep
    ensures c in Join(parts, sep) <==> exists p | p in parts :: c in p
  {
    if |parts| == 1 {
      assert parts[0] in parts;
    } else if |parts| > 1 {
      JoinedChars(parts[1..], sep, c);
      assert forall p :: p in parts <==> p == parts[0] || p in parts[1..];
    }
  }

  lemma LabelsValid(s: string, labels: seq<string>)
    requires s == Join(labels, '.') && Labels(labels)
    ensures ValidDomain(s) && Split(s, '.') == labels
  {
    forall l | l in labels
      ensures '.' !in l
    {
      assert Label(l);
    }
    SplitJoin(labels, '.');
    forall k | 0 <= k < |s|
      ensures DomainChar(s[k])
    {
      if s[k] != '.' {
        JoinedChars(labels, '.', s[k]);
        var l :| l in labels && s[k] in l;
      }
    }
    assert Label(labels[0]);
  }

  lemma ValidLabels(s: string)
    requires ValidDomain(s)
    ensures Labels(Split(s, '.'))
  {
    forall l, c | l in Split(s, '.') && c in l
      ensures c in s
    {
      JoinedChars(Split(s, '.'), '.', c);
    }
  }

  /** The valid domains are the labels joined by single dots. */
  lemma ValidDomainIff(s: string)
    ensures ValidDomain(s) <==> exists labels :: Labels(labels) && s == Join(labels, '.')
  {
    if ValidDomain(s) {
      ValidLabels(s);
    }
    if labels :| Labels(labels) && s == Join(labels, '.') {
      LabelsValid(s, labels);
    }
  }

  /** s spells a word in capitals, in letters of either case. */
  predicate Spells(s: string, word: string) {
    |s| == |word| && forall k | 0 <= k < |s| ::
      s[k] == word[k] || ('A' <= word[k] <= 'Z' && s[k] as int == word[k] as int + 32)
  }

  lemma UpperSpells(s: string, word: string)
    requires forall k | 0 <= k < |word| :: !('a' <= word[k] <= 'z')
    ensures Upper(s) == word <==> Spells(s, word)
  {
    if |s| == |word| {
      forall k | 0 <= k < |s|
        ensures Upper(s)[k] == word[k]
          <==> s[k] == word[k] || ('A' <= word[k] <= 'Z' && s[k] as int == word[k] as int + 32)
      {
        UpperChar(s, k);
      }
    }
  }

  lemma UpperChar(s: string, k: nat)
    requires k < |s|
    ensures Upper(s)[k] as int == s[k] as int - if 'a' <= s[k] <= 'z' then 32 else 0
  {
  }

  /** A label under which a device hides: CON, PRN, AUX, NUL, COM or LPT with a digit. */
  predicate Device(l: string) {
    || Spells(l, "CON") || Spells(l, "PRN") || Spells(l, "AUX") || Spells(l, "NUL")
    || (|l| == 4 && (Spells(l[..3], "COM") || Spells(l[..3], "LPT")) && '0' <= l[3] <= '9')
  }

  predicate Numbered(w: string, stem: string) { |w| == 4 && w[..3] == stem && '0' <= w[3] <= '9' }

  lemma NumberedWords(w: string)
    ensures Numbered(w, "COM") <==>
      || w == "COM0" || w == "COM1" || w == "COM2" || w == "COM3" || w == "COM4"
      || w == "COM5" || w == "COM6" || w == "COM7" || w == "COM8" || w == "COM9"
    ensures Numbered(w, "LPT") <==>
      || w == "LPT0" || w == "LPT1" || w == "LPT2" || w == "LPT3" || w == "LPT4"
      || w == "LPT5" || w == "LPT6" || w == "LPT7" || w == "LPT8" || w == "LPT9"
  {
    if |w| == 4 {
      assert w[..3] == "COM" <==> w[0] == 'C' && w[1] == 'O' && w[2] == 'M';
      assert w[..3] == "LPT" <==> w[0] == 'L' && w[1] == 'P' && w[2] == 'T';
    }
  }

  lemma ReservedShape(w: string)
    ensures w in RESERVED <==>
      || w == "CON" || w == "PRN" || w == "AUX" || w == "NUL"
      || (|w| == 4 && (w[..3] == "COM" || w[..3] == "LPT") && '0' <= w[3] <= '9')
  {
    NumberedWords(w);
    assert w in RESERVED <==> w in {"CON", "PRN", "AUX", "NUL"} || Numbered(w, "COM") || Numbered(w, "LPT");
  }

  lemma ReservedIsDevice(l: string)
    ensures Upper(l) in RESERVED <==> Device(l)
  {
    ReservedShape(Upper(l));
    UpperSpells(l, "CON");
    UpperSpells(l, "PRN");
    UpperSpells(l, "AUX");
    UpperSpells(l, "NUL");
    if |l| == 4 {
      assert Upper(l)[..3] == Upper(l[..3]);
      UpperSpells(l[..3], "COM");
      UpperSpells(l[..3], "LPT");
      UpperChar(l, 3);
    }
  }

  lemma FirstLabel(labels: seq<string>)
    requires Labels(labels)
    ensures var s := Join(labels, '.'); s[..Index(s, '.')] == labels[0]
  {
    assert Label(labels[0]);
    var w := if |labels| == 1 then "" else "." + Join(labels[1..], '.');
    IndexBefore(labels[0], w, '.');
    assert Join(labels, '.') == labels[0] + w;
  }

  /** The client names are the labels joined by single dots, none with an asterisk and the
      first not a device's in any spelling. */
  lemma ValidClientNameIff(s: string)
    ensures ValidClientName(s) <==>
      exists labels :: Labels(labels) && s == Join(labels, '.') && '*' !in s && !Device(labels[0])
  {
    if ValidDomain(s) {
      ValidLabels(s);
      FirstLabel(Split(s, '.'));
      ReservedIsDevice(Split(s, '.')[0]);
    }
    if labels :| Labels(labels) && s == Join(labels, '.') && '*' !in s && !Device(labels[0]) {
      LabelsValid(s, labels);
    }
  }
}
