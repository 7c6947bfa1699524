/**
 * What a symbol name finds, which texts refer to one, and what the bytes of a symbol are: the rules a
 * user of symbols relies on.
 */
module SymbolLaws {
  import opened SymbolCodec
  import opened SymbolExpansion
  import opened SymbolTables

  // ---------------------------------------------------------------- references

  /** Letters and the underscore, by their codes. */
  predicate Letter(c: char) {
    65 <= c as int <= 90 || 97 <= c as int <= 122 || c as int == 95
  }

  predicate Digit(c: char) {
    48 <= c as int <= 57
  }

  predicate IsName(s: Text) {
    s != [] && Letter(s[0]) && forall i | 0 <= i < |s| :: Letter(s[i]) || Digit(s[i])
  }

  /** The value a name stands for: that of the innermost scope, or the name itself. */
  lemma ValueIs(scopes: Scopes, name: Text)
    ensures forall d: nat :: Innermost(scopes, name, d) ==> ValueOf(scopes, name) == scopes[d][name].value
    ensures !Known(scopes, name) ==> ValueOf(scopes, name) == name
  {
    forall d: nat | Innermost(scopes, name, d) ensures ValueOf(scopes, name) == scopes[d][name].value {
      LookupInnermost(scopes, name, d);
    }
    if !Known(scopes, name) {
      LookupUnknown(scopes, name);
    }
  }

  lemma {:induction false} NameEnds(name: Text, rest: Text)
    requires forall i | 0 <= i < |name| :: Letter(name[i]) || Digit(name[i])
    requires rest == [] || (!Letter(rest[0]) && !Digit(rest[0]))
    ensures NameLength(name + rest) == |name|
    decreases |name|
  {
    if name == [] {
      assert name + rest == rest;
    } else {
      assert (name + rest)[1..] == name[1..] + rest;
      NameEnds(name[1..], rest);
    }
  }

  lemma {:induction false} BraceEnds(name: Text, rest: Text)
    requires forall i | 0 <= i < |name| :: name[i] != '}' && name[i] != '\0'
    requires rest == [] || rest[0] == '}' || rest[0] == '\0'
    ensures BracedLength(name + rest) == |name|
    decreases |name|
  {
    if name == [] {
      assert name + rest == rest;
    } else {
      assert (name + rest)[1..] == name[1..] + rest;
      BraceEnds(name[1..], rest);
    }
  }

  lemma ReplaceStep(scopes: Scopes, s: Text, t: Token, rest: Text)
    requires Tokens(s) == [t] + Tokens(rest)
    ensures Replace(scopes, s) == Expansion(scopes, t) + Replace(scopes, rest)
  {
    assert ([t] + Tokens(rest))[1..] == Tokens(rest);
  }

  /** A name in braces, of any characters but the closing brace and zero. */
  lemma BracedExpands(scopes: Scopes, name: Text, rest: Text)
    requires forall i | 0 <= i < |name| :: name[i] != '}' && name[i] != '\0'
    ensures Replace(scopes, ['$', '{'] + name + ['}'] + rest) == ValueOf(scopes, name) + Replace(scopes, rest)
  {
    var s := ['$', '{'] + name + ['}'] + rest;
    var tail: Text := ['}'] + rest;
    assert s[2..] == name + tail;
    BraceEnds(name, tail);
    BracedAs(s, name, tail);
    assert AfterBrace(tail) == rest;
    ReplaceStep(scopes, s, Ref(name), rest);
  }

  /** A bare name: a letter or underscore, then letters, underscores and digits, as many as there are. */
  lemma NameExpands(scopes: Scopes, name: Text, rest: Text)
    requires IsName(name) && (rest == [] || (!Letter(rest[0]) && !Digit(rest[0])))
    ensures Replace(scopes, ['$'] + name + rest) == ValueOf(scopes, name) + Replace(scopes, rest)
  {
    var s := ['$'] + name + rest;
    assert s[1..] == name + rest;
    NameEnds(name, rest);
    NamedAs(s, name, rest);
    ReplaceStep(scopes, s, Ref(name), rest);
  }

  /** A dollar sign before anything else stands for the empty name, and what follows is left as it is. */
  lemma DollarExpands(scopes: Scopes, rest: Text)
    requires rest == [] || (rest[0] != '{' && !Letter(rest[0]))
    ensures Replace(scopes, ['$'] + rest) == ValueOf(scopes, []) + Replace(scopes, rest)
  {
    var s := ['$'] + rest;
    assert s[1..] == rest;
    TokensDollar(s);
    ReplaceStep(scopes, s, Ref([]), rest);
  }

  /** Any other character stands for itself, and a zero byte ends the text. */
  lemma PlainExpands(scopes: Scopes, c: Octet, rest: Text)
    requires c != '$'
    ensures Replace(scopes, [c] + rest) == if c == '\0' then [] else [c] + Replace(scopes, rest)
  {
    var s := [c] + rest;
    assert s[1..] == rest;
    if c != '\0' {
      ReplaceStep(scopes, s, Plain(c), rest);
    }
  }

  /** An inner symbol overrides an outer one. */
  lemma InnerOverrides(outer: Scopes, own: map<Text, Symbol>, name: Text)
    requires name in own && forall i | 0 <= i < |name| :: name[i] != '}' && name[i] != '\0'
    ensures Replace([own] + outer, ['$', '{'] + name + ['}']) == own[name].value
  {
    BracedExpands([own] + outer, name, []);
    assert ['$', '{'] + name + ['}'] + [] == ['$', '{'] + name + ['}'];
    ValueIs([own] + outer, name);
    assert Innermost([own] + outer, name, 0);
    assert own[name].value + [] == own[name].value;
  }

  // ---------------------------------------------------------------- environments

  /** The last symbol of that name that the scope exports, and no scope further in exports the name. */
  predicate Exported(exports: seq<seq<Symbol>>, d: nat, i: nat) {
    && d < |exports| && i < |exports[d]| && IsLast(exports[d], i)
    && forall e, j | 0 <= e < d && 0 <= j < |exports[e]| :: exports[e][j].name != exports[d][i].name
  }

  /** What a process gets for a name: the last export of the innermost scope that exports it. */
  lemma {:induction false} EnvironmentIs(exports: seq<seq<Symbol>>, d: nat, i: nat)
    requires Exported(exports, d, i)
    ensures exports[d][i].name in Environment(exports) && Environment(exports)[exports[d][i].name] == exports[d][i]
    decreases |exports|
  {
    if d == 0 {
      LastPut(Environment(exports[1..]), exports[0], i);
    } else {
      var outer := exports[1..];
      assert forall e, j | 0 <= e < d - 1 && 0 <= j < |outer[e]| :: outer[e][j] == exports[e + 1][j];
      assert outer[d-1] == exports[d];
      EnvironmentIs(outer, d - 1, i);
      NotPut(Environment(outer), exports[0], exports[d][i].name);
    }
  }

  // ---------------------------------------------------------------- bytes

  /** Byte k of a number. */
  function Byte(n: nat, k: nat): nat {
    if k == 0 then n % 256 else Byte(n / 256, k - 1)
  }

  /** A length is four bytes, the lowest first. */
  lemma LengthBytes(n: nat)
    ensures |IntBytes(n)| == 4 && forall k | 0 <= k < 4 :: IntBytes(n)[k] as int == Byte(n, k)
  {
    assert Byte(n, 0) == n % 256 && Byte(n, 1) == Byte(n / 256, 0);
    assert Byte(n, 2) == Byte(n / 256, 1) == Byte(n / 256 / 256, 0);
    assert Byte(n, 3) == Byte(n / 256, 2) == Byte(n / 256 / 256, 1) == Byte(n / 256 / 256 / 256, 0);
    assert n / 256 / 256 == n / 0x1_0000 && n / 256 / 256 / 256 == n / 0x100_0000;
  }

  lemma Joined(a: Text, b: Text, c: Text, d: Text, e: Text)
    ensures (a + b) + (c + d) + e == a + b + c + d + e
  {
  }

  lemma TextIs(s: Text)
    requires |s| < WIDTH
    ensures TextBytes(s) == IntBytes(|s|) + s
  {
  }

  lemma FlagIs(s: Symbol, flag: Octet)
    requires flag as int == if s.exported then 1 else 0
    ensures SymbolBytes(s) == TextBytes(s.name) + TextBytes(s.value) + [flag]
  {
  }

  /** A symbol is its name, its value and one byte, each string after its length. */
  lemma SymbolIs(s: Symbol, flag: Octet, nameLength: Text, valueLength: Text)
    requires Short(s) && flag as int == if s.exported then 1 else 0
    requires nameLength == IntBytes(|s.name|) && valueLength == IntBytes(|s.value|)
    ensures SymbolBytes(s) == nameLength + s.name + valueLength + s.value + [flag]
  {
    TextIs(s.name);
    TextIs(s.value);
    FlagIs(s, flag);
    Joined(nameLength, s.name, valueLength, s.value, [flag]);
  }

  /** At the end of the input numbers are zero, strings empty and flags true. */
  lemma EndOfInput(s: Text)
    ensures |s| < 4 ==> ReadInt(s) == Got(0, []) && ReadText(s) == Got([], [])
    ensures ReadSymbol([]) == Got(Symbol([], [], true), [])
  {
  }

  /** A string whose length promises more than there is reads as empty, and nothing is left to read. */
  lemma CutShort(n: nat, s: Text)
    requires |s| < n < WIDTH
    ensures ReadText(IntBytes(n) + s) == Got([], [])
  {
    IntRoundTrip(n, s);
  }
}
