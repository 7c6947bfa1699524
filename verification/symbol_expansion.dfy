/** Variable references in a string: splitting the string into tokens, and putting in the values. */
module SymbolExpansion {
  import opened SymbolCodec

  datatype Token = Plain(c: Octet) | Ref(name: Text)

  predicate IsAlpha(c: char) {
    'a' <= c <= 'z' || 'A' <= c <= 'Z'
  }

  predicate Starts(c: char) {
    IsAlpha(c) || c == '_'
  }

  predicate Continues(c: char) {
    Starts(c) || '0' <= c <= '9'
  }

  /** The string ends where its zero byte is. */
  predicate AtEnd(s: Text) {
    s == [] || s[0] == '\0'
  }

  /** How many characters an unbraced name has. */
  function NameLength(s: Text): (n: nat)
    ensures n <= |s|
    ensures forall i | 0 <= i < n :: Continues(s[i])
    ensures n < |s| ==> !Continues(s[n])
  {
    if AtEnd(s) || !Continues(s[0]) then 0 else 1 + NameLength(s[1..])
  }

  /** How many characters there are up to the closing brace, or up to the end when there is none. */
  function BracedLength(s: Text): (n: nat)
    ensures n <= |s|
    ensures forall i | 0 <= i < n :: s[i] != '}' && s[i] != '\0'
    ensures n < |s| ==> s[n] == '}' || s[n] == '\0'
  {
    if AtEnd(s) || s[0] == '}' then 0 else 1 + BracedLength(s[1..])
  }

  function AfterBrace(s: Text): (r: Text)
    ensures |r| <= |s|
  {
    if s != [] && s[0] == '}' then s[1..] else s
  }

  /** A dollar sign not followed by a name refers to the empty name. */
  function Tokens(s: Text): seq<Token>
    decreases |s|
  {
    if AtEnd(s) then []
    else if s[0] != '$' then [Plain(s[0])] + Tokens(s[1..])
    else if |s| > 1 && s[1] == '{' then
      var n := BracedLength(s[2..]);
      [Ref(s[2..2+n])] + Tokens(AfterBrace(s[2+n..]))
    else if |s| > 1 && Starts(s[1]) then
      var n := NameLength(s[1..]);
      [Ref(s[1..1+n])] + Tokens(s[1+n..])
    else [Ref([])] + Tokens(s[1..])
  }

  // ---------------------------------------------------------------- scopes

  /** The symbols of the nested scopes, the innermost first. */
  type Scopes = seq<map<Text, Symbol>>

  datatype Option<T> = None | Some(value: T)

  /** The innermost scope that has the name decides. */
  function Lookup(scopes: Scopes, name: Text): Option<Symbol> {
    if scopes == [] then None
    else if name in scopes[0] then Some(scopes[0][name])
    else Lookup(scopes[1..], name)
  }

  /** A name no scope has stands for itself. */
  function ValueOf(scopes: Scopes, name: Text): Text {
    match Lookup(scopes, name)
    case None => name
    case Some(symbol) => symbol.value
  }

  function Expansion(scopes: Scopes, t: Token): Text {
    match t
    case Plain(c) => [c]
    case Ref(name) => ValueOf(scopes, name)
  }

  /** Each token is expanded once, and what was put in is not looked at again. */
  function Expand(scopes: Scopes, ts: seq<Token>): Text {
    if ts == [] then [] else Expansion(scopes, ts[0]) + Expand(scopes, ts[1..])
  }

  function Replace(scopes: Scopes, s: Text): Text {
    Expand(scopes, Tokens(s))
  }

  // ---------------------------------------------------------------- what a name finds

  /** Scope d has the name, and no scope further in does. */
  predicate Innermost(scopes: Scopes, name: Text, d: nat) {
    d < |scopes| && name in scopes[d] && forall e | 0 <= e < d :: name !in scopes[e]
  }

  /** Some scope has the name. */
  predicate Known(scopes: Scopes, name: Text) {
    exists d :: 0 <= d < |scopes| && name in scopes[d]
  }

  lemma {:induction false} LookupInnermost(scopes: Scopes, name: Text, d: nat)
    requires Innermost(scopes, name, d)
    ensures Lookup(scopes, name) == Some(scopes[d][name])
    decreases |scopes|
  {
    if d > 0 {
      assert name !in scopes[0];
      assert forall e | 0 <= e < d - 1 :: scopes[1..][e] == scopes[e + 1];
      LookupInnermost(scopes[1..], name, d - 1);
    }
  }

  lemma {:induction false} LookupUnknown(scopes: Scopes, name: Text)
    requires !Known(scopes, name)
    ensures Lookup(scopes, name) == None
    decreases |scopes|
  {
    if scopes != [] {
      assert name !in scopes[0];
      assert forall e | 0 <= e < |scopes| - 1 :: scopes[1..][e] == scopes[e + 1];
      LookupUnknown(scopes[1..], name);
    }
  }

  lemma {:induction false} InnermostExists(scopes: Scopes, name: Text, d: nat) returns (first: nat)
    requires d < |scopes| && name in scopes[d]
    ensures Innermost(scopes, name, first)
    decreases d
  {
    if e: nat :| e < d && name in scopes[e] {
      first := InnermostExists(scopes, name, e);
    } else {
      first := d;
    }
  }

  lemma InnermostOnce(scopes: Scopes, name: Text, d: nat, e: nat)
    requires Innermost(scopes, name, d) && Innermost(scopes, name, e)
    ensures d == e
  {
  }

  /** A symbol is found exactly when it is the one of the innermost scope that has the name. */
  lemma LookupExactly(scopes: Scopes, name: Text, v: Symbol)
    ensures Lookup(scopes, name) == Some(v) <==> exists d: nat :: Innermost(scopes, name, d) && scopes[d][name] == v
    ensures Lookup(scopes, name) == None <==> !Known(scopes, name)
  {
    if Known(scopes, name) {
      var d: nat :| d < |scopes| && name in scopes[d];
      var first := InnermostExists(scopes, name, d);
      LookupInnermost(scopes, name, first);
      forall e: nat | Innermost(scopes, name, e) ensures e == first {
        InnermostOnce(scopes, name, e, first);
      }
    } else {
      LookupUnknown(scopes, name);
    }
  }

  lemma LookupIs(scopes: Scopes, name: Text)
    ensures Lookup(scopes, name).Some? <==> Known(scopes, name)
    ensures forall d: nat :: Innermost(scopes, name, d) ==> Lookup(scopes, name) == Some(scopes[d][name])
  {
    if Known(scopes, name) {
      var d: nat :| d < |scopes| && name in scopes[d];
      var first := InnermostExists(scopes, name, d);
      LookupInnermost(scopes, name, first);
    } else {
      LookupUnknown(scopes, name);
    }
    forall d: nat | Innermost(scopes, name, d) ensures Lookup(scopes, name) == Some(scopes[d][name]) {
      LookupInnermost(scopes, name, d);
    }
  }

  // ---------------------------------------------------------------- expanding

  lemma {:induction false} ExpandAppend(scopes: Scopes, a: seq<Token>, b: seq<Token>)
    ensures Expand(scopes, a + b) == Expand(scopes, a) + Expand(scopes, b)
    decreases |a|
  {
    if a == [] {
      assert a + b == b;
    } else {
      assert (a + b)[1..] == a[1..] + b;
      ExpandAppend(scopes, a[1..], b);
    }
  }

  // ---------------------------------------------------------------- token boundaries

  /** What the scan is in the middle of when the string ends. */
  datatype Pending = Nothing | Stopped | Dollar | Braced | Named

  function Left(s: Text): Pending
    decreases |s|
  {
    if s == [] then Nothing
    else if s[0] == '\0' then Stopped
    else if s[0] != '$' then Left(s[1..])
    else if |s| == 1 then Dollar
    else if s[1] == '{' then
      var n := BracedLength(s[2..]);
      if 2 + n == |s| then Braced else Left(AfterBrace(s[2+n..]))
    else if Starts(s[1]) then
      var n := NameLength(s[1..]);
      if 1 + n == |s| then Named else Left(s[1+n..])
    else Left(s[1..])
  }

  /** The second string does not continue the last token of the first. */
  predicate Boundary(a: Text, b: Text) {
    AtEnd(b) ||
    match Left(a)
    case Nothing => true
    case Stopped => false
    case Dollar => b[0] != '{' && !Starts(b[0])
    case Braced => false
    case Named => !Continues(b[0])
  }

  lemma {:induction false} NameLengthAppend(a: Text, b: Text)
    ensures NameLength(a + b) == if NameLength(a) < |a| then NameLength(a) else |a| + NameLength(b)
    decreases |a|
  {
    if a == [] {
      assert a + b == b;
    } else {
      assert (a + b)[1..] == a[1..] + b;
      NameLengthAppend(a[1..], b);
    }
  }

  lemma {:induction false} BracedLengthAppend(a: Text, b: Text)
    ensures BracedLength(a + b) == if BracedLength(a) < |a| then BracedLength(a) else |a| + BracedLength(b)
    decreases |a|
  {
    if a == [] {
      assert a + b == b;
    } else {
      assert (a + b)[1..] == a[1..] + b;
      BracedLengthAppend(a[1..], b);
    }
  }

  lemma SameHead(t: Token, x: seq<Token>, y: seq<Token>, z: seq<Token>)
    ensures [t] + x == ([t] + y) + z <==> x == y + z
  {
    assert ([t] + y) + z == [t] + (y + z);
    assert ([t] + x)[1..] == x && ([t] + (y + z))[1..] == y + z;
  }

  lemma TokensOfEnd(b: Text)
    ensures Tokens(b) == [] <==> AtEnd(b)
  {
  }

  lemma {:induction false} BracedLengthSkip(s: Text, k: nat)
    requires k <= BracedLength(s)
    ensures BracedLength(s[k..]) == BracedLength(s) - k
    decreases k
  {
    if k > 0 {
      BracedLengthSkip(s[1..], k - 1);
      assert s[1..][k-1..] == s[k..];
    } else {
      assert s[0..] == s;
    }
  }

  lemma FewerAfterName(s: Text, m: nat)
    requires |s| > 1 && s[0] == '$' && Starts(s[1]) && m == NameLength(s[1..])
    ensures |Tokens(s[1+m..])| <= |Tokens(s)|
    ensures 1 + m <= BracedLength(s)
    ensures BracedLength(s[1+m..]) == BracedLength(s) - 1 - m
    ensures s[1+m..][BracedLength(s)-1-m..] == s[BracedLength(s)..]
  {
    TokensNamed(s, m);
    assert 1 + m <= BracedLength(s) by {
      var n := BracedLength(s);
      assert n < |s| ==> !Continues(s[n]) && s[n] != '$';
    }
    BracedLengthSkip(s, 1 + m);
  }

  lemma FewerAfterBrace(s: Text)
    requires |s| > 1 && s[0] == '$' && s[1] == '{'
    ensures |Tokens(AfterBrace(s[BracedLength(s)..]))| <= |Tokens(s)|
  {
    var n := BracedLength(s);
    BracedLengthSkip(s, 2);
    TokensBraced(s, n - 2);
  }

  lemma FewerAfterOne(s: Text)
    requires !AtEnd(s) && s[0] != '}' && (s[0] == '$' ==> |s| == 1 || (s[1] != '{' && !Starts(s[1])))
    ensures |Tokens(s[1..])| <= |Tokens(s)|
    ensures BracedLength(s[1..]) == BracedLength(s) - 1 && s[1..][BracedLength(s)-1..] == s[BracedLength(s)..]
  {
    BracedLengthSkip(s, 1);
  }

  /** No token goes across a closing brace. */
  lemma {:induction false} NoFewerTokens(s: Text)
    ensures |Tokens(AfterBrace(s[BracedLength(s)..]))| <= |Tokens(s)|
    decreases |s|
  {
    if AtEnd(s) || s[0] == '}' {
      assert s[0..] == s;
    } else if s[0] == '$' && |s| > 1 && s[1] == '{' {
      FewerAfterBrace(s);
    } else if s[0] == '$' && |s| > 1 && Starts(s[1]) {
      var m := NameLength(s[1..]);
      FewerAfterName(s, m);
      NoFewerTokens(s[1+m..]);
    } else {
      FewerAfterOne(s);
      NoFewerTokens(s[1..]);
    }
  }

  /** What follows an opening brace has fewer tokens than the brace and all after it. */
  lemma AfterBraceShorter(b: Text, n: nat)
    requires b != [] && b[0] == '{' && n == BracedLength(b[1..])
    ensures |Tokens(AfterBrace(b[1+n..]))| < |Tokens(b)|
  {
    NoFewerTokens(b[1..]);
    assert b[1..][n..] == b[1+n..];
    assert Tokens(b) == [Plain(b[0])] + Tokens(b[1..]);
  }

  lemma TokensBraced(s: Text, n: nat)
    requires |s| > 1 && s[0] == '$' && s[1] == '{' && n == BracedLength(s[2..])
    ensures Tokens(s) == [Ref(s[2..2+n])] + Tokens(AfterBrace(s[2+n..]))
  {
  }

  lemma TokensNamed(s: Text, n: nat)
    requires |s| > 1 && s[0] == '$' && Starts(s[1]) && n == NameLength(s[1..])
    ensures Tokens(s) == [Ref(s[1..1+n])] + Tokens(s[1+n..])
  {
  }

  lemma BracedAs(s: Text, name: Text, tail: Text)
    requires |s| >= 2 && s[0] == '$' && s[1] == '{' && s[2..] == name + tail
    requires BracedLength(name + tail) == |name|
    ensures Tokens(s) == [Ref(name)] + Tokens(AfterBrace(tail))
  {
    assert s[2..2+|name|] == name;
    assert s[2+|name|..] == tail;
  }

  lemma NamedAs(s: Text, name: Text, tail: Text)
    requires |s| >= 2 && s[0] == '$' && Starts(s[1]) && s[1..] == name + tail
    requires NameLength(name + tail) == |name|
    ensures Tokens(s) == [Ref(name)] + Tokens(tail)
  {
    assert s[1..1+|name|] == name;
    assert s[1+|name|..] == tail;
  }

  lemma SplitAfter(x: Text, b: Text, m: nat)
    requires m <= |b|
    ensures x + b == (x + b[..m]) + b[m..] && |x + b[..m]| == |x| + m
  {
  }

  lemma TokensDollar(s: Text)
    requires s != [] && s[0] == '$' && (|s| == 1 || (s[1] != '{' && !Starts(s[1])))
    ensures Tokens(s) == [Ref([])] + Tokens(s[1..])
  {
  }

  /** Two references with a longer and a shorter name. */
  lemma NameGrows(x: Text, y: Text, rest: seq<Token>, others: seq<Token>)
    ensures [Ref(x + y)] + rest == [Ref(x)] + others <==> y == [] && rest == others
  {
    var l, r := [Ref(x + y)] + rest, [Ref(x)] + others;
    assert l[0] == Ref(x + y) && r[0] == Ref(x) && l[1..] == rest && r[1..] == others;
    assert y == [] ==> x + y == x;
    assert |x + y| == |x| + |y|;
  }

  lemma DollarThen(b: Text)
    ensures Tokens(['$']) == [Ref([])]
    ensures AtEnd(b) ==> Tokens(['$'] + b) == [Ref([])]
    ensures !AtEnd(b) && b[0] != '{' && !Starts(b[0]) ==> Tokens(['$'] + b) == [Ref([])] + Tokens(b)
    ensures !AtEnd(b) && b[0] == '{' ==> |Tokens(['$'] + b)| <= |Tokens(b)|
    ensures !AtEnd(b) && Starts(b[0]) ==> Tokens(['$'] + b) != [Ref([])] + Tokens(b)
  {
    var s: Text := ['$'] + b;
    assert s[1..] == b;
    var d: Text := ['$'];
    TokensDollar(d);
    assert d[1..] == [] && Tokens([]) == [];
    if AtEnd(b) || (b[0] != '{' && !Starts(b[0])) {
      TokensDollar(s);
    } else if b[0] == '{' {
      var n := BracedLength(b[1..]);
      assert s[2..] == b[1..] && s[2+n..] == b[1+n..];
      TokensBraced(s, n);
      AfterBraceShorter(b, n);
    } else {
      var n := NameLength(b);
      TokensNamed(s, n);
      assert s[1..1+n] == [] + b[..n];
      NameGrows([], b[..n], Tokens(s[1+n..]), Tokens(b));
    }
  }

  lemma JoinsAfterDollar(a: Text, b: Text)
    requires a == ['$']
    ensures Tokens(a + b) == Tokens(a) + Tokens(b) <==> Boundary(a, b)
  {
    TokensOfEnd(b);
    DollarThen(b);
    assert Left(a) == Dollar;
    assert |Tokens(a) + Tokens(b)| == 1 + |Tokens(b)|;
  }

  lemma NameThen(a: Text, x: Text, b: Text)
    requires |a| > 1 && a[0] == '$' && Starts(a[1]) && x == a[1..] && NameLength(x) == |x|
    ensures Tokens(a) == [Ref(x)]
    ensures Tokens(a + b) == [Ref(x + b[..NameLength(b)])] + Tokens(b[NameLength(b)..])
  {
    var m := NameLength(b);
    assert x + [] == x;
    NamedAs(a, x, []);
    assert (a + b)[1..] == x + b;
    NameLengthAppend(x, b);
    SplitAfter(x, b, m);
    NamedAs(a + b, x + b[..m], b[m..]);
  }

  /** A name cut by the end of the string. */
  lemma JoinsAfterName(a: Text, b: Text)
    requires |a| > 1 && a[0] == '$' && Starts(a[1]) && NameLength(a[1..]) == |a| - 1
    ensures Tokens(a + b) == Tokens(a) + Tokens(b) <==> Boundary(a, b)
  {
    var m := NameLength(b);
    NameThen(a, a[1..], b);
    NameGrows(a[1..], b[..m], Tokens(b[m..]), Tokens(b));
    assert Left(a) == Named;
    assert m == 0 ==> b[m..] == b;
    assert m == 0 <==> AtEnd(b) || !Continues(b[0]);
  }

  lemma BracesEnd(a: Text, x: Text)
    requires |a| > 1 && a[0] == '$' && a[1] == '{' && x == a[2..] && BracedLength(x) == |x|
    ensures Tokens(a) == [Ref(x)]
  {
    assert x + [] == x;
    BracedAs(a, x, []);
  }

  lemma BracesGoOn(a: Text, x: Text, b: Text, m: nat)
    requires |a| > 1 && a[0] == '$' && a[1] == '{' && x == a[2..] && BracedLength(x) == |x| && m == BracedLength(b)
    ensures Tokens(a + b) == [Ref(x + b[..m])] + Tokens(AfterBrace(b[m..]))
  {
    assert (a + b)[2..] == x + b;
    BracedLengthAppend(x, b);
    SplitAfter(x, b, m);
    BracedAs(a + b, x + b[..m], b[m..]);
  }

  lemma BracesThen(a: Text, x: Text, b: Text)
    requires |a| > 1 && a[0] == '$' && a[1] == '{' && x == a[2..] && BracedLength(x) == |x|
    ensures Tokens(a) == [Ref(x)]
    ensures Tokens(a + b) == [Ref(x + b[..BracedLength(b)])] + Tokens(AfterBrace(b[BracedLength(b)..]))
  {
    BracesEnd(a, x);
    BracesGoOn(a, x, b, BracedLength(b));
  }

  lemma BraceCounts(b: Text)
    requires b != [] && b[0] == '}'
    ensures |Tokens(AfterBrace(b))| < |Tokens(b)|
  {
    assert Tokens(b) == [Plain(b[0])] + Tokens(b[1..]);
  }

  /** A braced name cut by the end of the string. */
  lemma JoinsInBraces(a: Text, b: Text)
    requires |a| > 1 && a[0] == '$' && a[1] == '{' && BracedLength(a[2..]) == |a| - 2
    ensures Tokens(a + b) == Tokens(a) + Tokens(b) <==> Boundary(a, b)
  {
    var m := BracedLength(b);
    BracesThen(a, a[2..], b);
    NameGrows(a[2..], b[..m], Tokens(AfterBrace(b[m..])), Tokens(b));
    TokensOfEnd(b);
    assert Left(a) == Braced;
    assert m == 0 ==> b[m..] == b;
    assert m == 0 <==> AtEnd(b) || b[0] == '}';
    if b != [] && b[0] == '}' {
      BraceCounts(b);
    }
  }

  /** The first token of a string, when the string does not end within it, and where it ends. */
  function FirstLength(s: Text): (k: nat)
    requires !AtEnd(s)
    ensures 1 <= k <= |s|
  {
    if s[0] == '$' && |s| > 1 && s[1] == '{' then
      var n := BracedLength(s[2..]);
      if 2 + n < |s| && s[2+n] == '}' then 3 + n else 2 + n
    else if s[0] == '$' && |s| > 1 && Starts(s[1]) then 1 + NameLength(s[1..])
    else 1
  }

  /** The string ends within its first token, so that more could follow. */
  predicate Cut(s: Text)
    requires !AtEnd(s)
  {
    s[0] == '$' &&
    if |s| == 1 then true
    else if s[1] == '{' then BracedLength(s[2..]) == |s| - 2
    else Starts(s[1]) && NameLength(s[1..]) == |s| - 1
  }

  lemma BraceThen(tail: Text, b: Text)
    requires tail != []
    ensures AfterBrace(tail + b) == AfterBrace(tail) + b
  {
  }

  lemma StepPastBraces(a: Text, b: Text, name: Text, tail: Text)
    requires |a| > 1 && a[0] == '$' && a[1] == '{' && a[2..] == name + tail && tail != []
    requires BracedLength(name + tail) == |name|
    ensures Tokens(a) == [Ref(name)] + Tokens(AfterBrace(tail))
    ensures Tokens(a + b) == [Ref(name)] + Tokens(AfterBrace(tail) + b)
  {
    BracedAs(a, name, tail);
    BracedLengthAppend(name + tail, b);
    assert (a + b)[2..] == name + tail + b;
    Assoc(name, tail, b);
    BracedAs(a + b, name, tail + b);
    BraceThen(tail, b);
  }

  lemma FirstEnds(a: Text, x: Text)
    requires |a| > 1 && a[0] == '$' && a[1] == '{' && x == a[2..] && BracedLength(x) < |x|
    ensures a[FirstLength(a)..] == AfterBrace(x[BracedLength(x)..])
    ensures Left(a) == Left(a[FirstLength(a)..])
  {
    assert x[BracedLength(x)..] == a[2+BracedLength(x)..];
  }

  lemma StepPastName(a: Text, b: Text, n: nat)
    requires |a| > 1 && a[0] == '$' && Starts(a[1]) && n == NameLength(a[1..]) && n < |a| - 1
    ensures Tokens(a) == [Ref(a[1..1+n])] + Tokens(a[1+n..])
    ensures Tokens(a + b) == [Ref(a[1..1+n])] + Tokens(a[1+n..] + b)
  {
    var s := a + b;
    TokensNamed(a, n);
    assert s[1..] == a[1..] + b;
    NameLengthAppend(a[1..], b);
    TokensNamed(s, n);
    assert s[1..1+n] == a[1..1+n];
    assert s[1+n..] == a[1+n..] + b;
  }

  lemma StepPast(a: Text, b: Text) returns (t: Token)
    requires !AtEnd(a) && !Cut(a)
    ensures var k := FirstLength(a);
      && Tokens(a) == [t] + Tokens(a[k..])
      && Tokens(a + b) == [t] + Tokens(a[k..] + b)
      && Left(a) == Left(a[k..])
  {
    if a[0] == '$' && a[1] == '{' {
      var n := BracedLength(a[2..]);
      var x := a[2..];
      assert x == x[..n] + x[n..];
      StepPastBraces(a, b, x[..n], x[n..]);
      FirstEnds(a, x);
      t := Ref(x[..n]);
    } else if a[0] == '$' && Starts(a[1]) {
      var n := NameLength(a[1..]);
      StepPastName(a, b, n);
      t := Ref(a[1..1+n]);
    } else {
      assert (a + b)[1..] == a[1..] + b;
      t := if a[0] == '$' then Ref([]) else Plain(a[0]);
    }
  }

  /**
   * Tokens of a concatenation are the tokens of its parts exactly when the second part does not
   * continue the last token of the first.
   */
  lemma {:induction false} TokensJoin(a: Text, b: Text)
    ensures Tokens(a + b) == Tokens(a) + Tokens(b) <==> Boundary(a, b)
    decreases |a|
  {
    TokensOfEnd(b);
    if AtEnd(a) {
      assert a == [] ==> a + b == b;
    } else if Cut(a) {
      if |a| == 1 {
        JoinsAfterDollar(a, b);
      } else if a[1] == '{' {
        JoinsInBraces(a, b);
      } else {
        JoinsAfterName(a, b);
      }
    } else {
      var k := FirstLength(a);
      var t := StepPast(a, b);
      TokensJoin(a[k..], b);
      SameHead(t, Tokens(a[k..] + b), Tokens(a[k..]), Tokens(b));
    }
  }

  /** At a token boundary the parts of a string can be expanded separately. */
  lemma ReplaceJoins(scopes: Scopes, a: Text, b: Text)
    requires Boundary(a, b)
    ensures Replace(scopes, a + b) == Replace(scopes, a) + Replace(scopes, b)
  {
    TokensJoin(a, b);
    ExpandAppend(scopes, Tokens(a), Tokens(b));
  }

  /** A text with neither dollar sign nor zero byte expands to itself. */
  lemma {:induction false} PlainUnchanged(scopes: Scopes, s: Text)
    requires forall i | 0 <= i < |s| :: s[i] != '$' && s[i] != '\0'
    ensures Replace(scopes, s) == s
    decreases |s|
  {
    if s != [] {
      PlainUnchanged(scopes, s[1..]);
      assert Tokens(s) == [Plain(s[0])] + Tokens(s[1..]);
      assert s == [s[0]] + s[1..];
    }
  }
}
