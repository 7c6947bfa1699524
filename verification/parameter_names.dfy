/** Parameter names: how a name is split into components and put together again. */
module ParameterNames {
  type Path = seq<string>

  /** The name without its leading slashes. */
  function Skip(s: string): (r: string)
    ensures |r| <= |s| && (r == "" || r[0] != '/')
  {
    if s == "" || s[0] != '/' then s else Skip(s[1..])
  }

  /** Splitting, with the component read so far; a run of slashes ends one component. */
  function Scan(part: string, rest: string): (parts: seq<string>)
    ensures parts != []
    decreases |rest|
  {
    if rest == "" then [part]
    else if rest[0] == '/' then [part] + Scan("", Skip(rest))
    else Scan(part + [rest[0]], rest[1..])
  }

  function Parse(name: string): (parts: Path)
    ensures parts != []
  {
    Scan("", Skip(name))
  }

  function Join(p: Path): string {
    if p == [] then "" else if |p| == 1 then p[0] else p[0] + "/" + Join(p[1..])
  }

  /** The name a node gives itself. */
  function FullName(p: Path): string {
    "/" + Join(p)
  }

  predicate SlashFree(s: string) {
    forall i | 0 <= i < |s| :: s[i] != '/'
  }

  /** At least one component, none with a slash, only the last may be empty. */
  predicate Canonical(p: Path) {
    && p != []
    && (forall i | 0 <= i < |p| :: SlashFree(p[i]))
    && (forall i | 0 <= i < |p| - 1 :: p[i] != "")
  }

  /** The loop over the characters of a name computes exactly the split. */
  method ParseParameterName(name: string) returns (parts: seq<string>)
    ensures parts == Parse(name)
  {
    var s := name;
    while s != "" && s[0] == '/'
      invariant Skip(s) == Skip(name)
      decreases |s|
    {
      s := s[1..];
    }
    parts := [];
    var part := "";
    var i := 0;
    while i < |s|
      invariant 0 <= i <= |s|
      invariant parts + Scan(part, s[i..]) == Parse(name)
      decreases |s| - i
    {
      if s[i] == '/' {
        ghost var from := i;
        assert s[from..][0] == '/';
        i := i + 1;
        assert Skip(s[from..]) == Skip(s[i..]) by { assert s[from..][1..] == s[i..]; }
        while i < |s| && s[i] == '/'
          invariant from < i <= |s|
          invariant Skip(s[i..]) == Skip(s[from..])
          decreases |s| - i
        {
          assert s[i..][1..] == s[i+1..];
          i := i + 1;
        }
        assert Skip(s[i..]) == s[i..];
        assert Scan(part, s[from..]) == [part] + Scan("", s[i..]);
        parts := parts + [part];
        part := "";
      } else {
        assert s[i..][1..] == s[i+1..];
        part := part + [s[i]];
        i := i + 1;
      }
    }
    parts := parts + [part];
  }

  // ---------------------------------------------------------------- canonical form

  lemma {:induction false} ScanCanonical(part: string, rest: string)
    requires SlashFree(part) && (part != "" || rest == "" || rest[0] != '/')
    ensures Canonical(Scan(part, rest))
    decreases |rest|
  {
    if rest != "" {
      if rest[0] == '/' {
        ScanCanonical("", Skip(rest));
      } else {
        ScanCanonical(part + [rest[0]], rest[1..]);
      }
    }
  }

  /** Whatever the name, its components are canonical. */
  lemma ParseCanonical(name: string)
    ensures Canonical(Parse(name))
  {
    ScanCanonical("", Skip(name));
  }

  /** Reading a slash-free text just extends the current component. */
  lemma {:induction false} ScanText(part: string, text: string, rest: string)
    requires SlashFree(text)
    ensures Scan(part, text + rest) == Scan(part + text, rest)
    decreases |text|
  {
    if text == "" {
      assert part + text == part && text + rest == rest;
    } else {
      assert (text + rest)[1..] == text[1..] + rest;
      ScanText(part + [text[0]], text[1..], rest);
      assert part + [text[0]] + text[1..] == part + text;
    }
  }

  lemma {:induction false} ScanJoin(p: Path)
    requires Canonical(p)
    ensures Scan("", Join(p)) == p && Skip(Join(p)) == Join(p)
    decreases |p|
  {
    if |p| == 1 {
      ScanText("", p[0], "");
      assert p[0] + "" == p[0] && "" + p[0] == p[0];
    } else {
      var rest := "/" + Join(p[1..]);
      assert Canonical(p[1..]);
      ScanJoin(p[1..]);
      ScanText("", p[0], rest);
      assert "" + p[0] == p[0];
      assert Join(p) == p[0] + rest;
      assert rest[1..] == Join(p[1..]);
      assert Scan(p[0], rest) == [p[0]] + Scan("", Skip(rest));
      assert p == [p[0]] + p[1..];
    }
  }

  // ---------------------------------------------------------------- how a name spells a path

  predicate Slashes(s: string) {
    forall i | 0 <= i < |s| :: s[i] == '/'
  }

  predicate SlashesTo(s: string, a: int, b: int) {
    0 <= a < b <= |s| && Slashes(s[a..b])
  }

  /** The components in order, with at least one slash after each but the last. */
  ghost predicate SpelledOut(s: string, p: Path) {
    if |p| == 1 then s == p[0]
    else
      && |p| > 1 && p[0] <= s
      && exists b :: SlashesTo(s, |p[0]|, b) && SpelledOut(s[b..], p[1..])
  }

  predicate Leads(s: string, a: int) {
    0 <= a <= |s| && Slashes(s[..a])
  }

  /** Any number of slashes may come first. */
  ghost predicate Spells(name: string, p: Path) {
    Canonical(p) && exists a :: Leads(name, a) && SpelledOut(name[a..], p)
  }

  lemma {:induction false} SkipSlashes(s: string, a: nat)
    requires a <= |s| && Slashes(s[..a]) && (a == |s| || s[a] != '/')
    ensures Skip(s) == s[a..]
  {
    if a > 0 {
      assert s[..a][0] == '/';
      assert s[1..][..a-1] == s[..a][1..];
      SkipSlashes(s[1..], a - 1);
    }
  }

  lemma {:induction false} SkipIs(s: string) returns (a: nat)
    ensures a <= |s| && Slashes(s[..a]) && Skip(s) == s[a..]
  {
    if s == "" || s[0] != '/' {
      a := 0;
    } else {
      var b := SkipIs(s[1..]);
      a := b + 1;
      assert s[..a] == [s[0]] + s[1..][..b];
    }
  }

  lemma SkipTo(s: string, n: nat, b: nat)
    requires SlashesTo(s, n, b) && (b == |s| || s[b] != '/')
    ensures s[n] == '/' && Skip(s[n..]) == s[b..]
  {
    assert s[n..][..b-n] == s[n..b] && s[n..][b-n..] == s[b..];
    SkipSlashes(s[n..], b - n);
    assert s[n..b][0] == '/';
  }

  /** A component and the slashes after it. */
  lemma ScanComponent(s: string, part: string, b: nat)
    requires SlashFree(part) && part <= s && SlashesTo(s, |part|, b) && (b == |s| || s[b] != '/')
    ensures Scan("", s) == [part] + Scan("", s[b..])
  {
    var rest := s[|part|..];
    SkipTo(s, |part|, b);
    assert s == part + rest && "" + part == part;
    ScanText("", part, rest);
  }

  lemma {:induction false} SpelledScans(s: string, p: Path)
    requires Canonical(p) && SpelledOut(s, p)
    ensures Scan("", s) == p && (s == "" || s[0] != '/')
    decreases |p|
  {
    if |p| == 1 {
      ScanText("", s, "");
      assert s + "" == s && "" + s == s;
    } else {
      var b :| SlashesTo(s, |p[0]|, b) && SpelledOut(s[b..], p[1..]);
      assert Canonical(p[1..]);
      SpelledScans(s[b..], p[1..]);
      ScanComponent(s, p[0], b);
      assert p == [p[0]] + p[1..];
    }
  }

  lemma {:induction false} ScanSpells(part: string, rest: string)
    requires SlashFree(part) && (part != "" || rest == "" || rest[0] != '/')
    ensures SpelledOut(part + rest, Scan(part, rest))
    decreases |rest|
  {
    if rest == "" {
      assert part + rest == part;
    } else if rest[0] == '/' {
      var a := SkipIs(rest);
      ScanSpells("", Skip(rest));
      var s, n := part + rest, |part|;
      assert rest[..1] == "/" && a > 0;
      assert s[n..n+a] == rest[..a] && SlashesTo(s, n, n + a) && s[n+a..] == rest[a..] && "" + rest[a..] == rest[a..];
    } else {
      ScanSpells(part + [rest[0]], rest[1..]);
      assert part + [rest[0]] + rest[1..] == part + rest;
    }
  }

  /** A name parses to a path exactly when it spells it: extra slashes do not matter, except at the very end. */
  lemma ParseExactly(name: string, p: Path)
    ensures Parse(name) == p <==> Spells(name, p)
  {
    if Spells(name, p) {
      var a :| Leads(name, a) && SpelledOut(name[a..], p);
      SpelledScans(name[a..], p);
      SkipSlashes(name, a);
    }
    var a := SkipIs(name);
    ParseCanonical(name);
    ScanSpells("", Skip(name));
    assert "" + Skip(name) == Skip(name) && Leads(name, a);
  }

  /** A path is what its full name parses to exactly when it is canonical. */
  lemma FullNameRoundTrip(p: Path)
    ensures Parse(FullName(p)) == p <==> Canonical(p)
    ensures Parse(Join(p)) == p <==> Canonical(p)
  {
    if Canonical(p) {
      ScanJoin(p);
      assert FullName(p)[1..] == Join(p);
    }
    ParseCanonical(FullName(p));
    ParseCanonical(Join(p));
  }

  /** Parsing is idempotent: joining the components of any name gives a name for the same path. */
  lemma ParseIdempotent(name: string)
    ensures Parse(Join(Parse(name))) == Parse(name)
  {
    ParseCanonical(name);
    FullNameRoundTrip(Parse(name));
  }

  /** The full name of a longer path is the full name of its parent, a slash and the last component. */
  lemma {:induction false} FullNameExtends(p: Path, k: string)
    requires p != []
    ensures FullName(p + [k]) == FullName(p) + "/" + k
    decreases |p|
  {
    if |p| == 1 {
      assert (p + [k])[1..] == [k];
    } else {
      assert (p + [k])[1..] == p[1..] + [k];
      FullNameExtends(p[1..], k);
      assert "/" + Join(p[1..] + [k]) == "/" + Join(p[1..]) + "/" + k;
      assert Join(p[1..] + [k]) == Join(p[1..]) + "/" + k by {
        assert ("/" + Join(p[1..] + [k]))[1..] == Join(p[1..] + [k]);
        assert ("/" + Join(p[1..]) + "/" + k)[1..] == Join(p[1..]) + "/" + k;
      }
      assert Join(p + [k]) == Join(p) + "/" + k;
    }
  }
}
