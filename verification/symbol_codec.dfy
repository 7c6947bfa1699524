/** Symbols as bytes: what is sent to a zygote, and what it reads back. */
module SymbolCodec {
  /** One byte of a string or of a stream. */
  type Octet = c: char | c as int < 256

  type Text = seq<Octet>

  datatype Symbol = Symbol(name: Text, value: Text, exported: bool)

  const WIDTH := 0x1_0000_0000

  // ---------------------------------------------------------------- writing

  function Low(n: nat): Octet {
    (n % 256) as char
  }

  /** Four bytes, the lowest first; a length of 32 bits or more is cut. */
  function IntBytes(n: nat): Text {
    [Low(n), Low(n / 256), Low(n / 0x1_0000), Low(n / 0x100_0000)]
  }

  function TextBytes(s: Text): Text {
    IntBytes(|s| % WIDTH) + s
  }

  function SymbolBytes(s: Symbol): Text {
    TextBytes(s.name) + TextBytes(s.value) + [if s.exported then 1 as char else 0 as char]
  }

  function SymbolsBytes(symbols: map<Text, Symbol>, order: seq<Text>): Text
    requires forall k | k in order :: k in symbols
  {
    if order == [] then [] else SymbolBytes(symbols[order[0]]) + SymbolsBytes(symbols, order[1..])
  }

  function TableBytes(symbols: map<Text, Symbol>, order: seq<Text>): Text
    requires forall k | k in order :: k in symbols
  {
    IntBytes(|order| % WIDTH) + SymbolsBytes(symbols, order)
  }

  // ---------------------------------------------------------------- reading

  datatype Got<T> = Got(value: T, rest: Text)

  /** The end of the input gives zero. */
  function ReadInt(s: Text): (r: Got<nat>)
    ensures |r.rest| <= |s| && r.value < WIDTH
  {
    if |s| < 4 then Got(0, [])
    else Got(s[0] as int + 256 * (s[1] as int) + 0x1_0000 * (s[2] as int) + 0x100_0000 * (s[3] as int), s[4..])
  }

  /** A string cut short by the end of the input is empty. */
  function ReadText(s: Text): (r: Got<Text>)
    ensures |r.rest| <= |s| && |r.value| < WIDTH
  {
    var n := ReadInt(s);
    if |n.rest| < n.value then Got([], []) else Got(n.rest[..n.value], n.rest[n.value..])
  }

  /** The flag is true for any byte but zero, and at the end of the input. */
  function ReadFlag(s: Text): (r: Got<bool>)
    ensures |r.rest| <= |s|
  {
    if s == [] then Got(true, []) else Got(s[0] != 0 as char, s[1..])
  }

  function ReadSymbol(s: Text): (r: Got<Symbol>)
    ensures |r.rest| <= |s|
  {
    var name := ReadText(s);
    var value := ReadText(name.rest);
    var flag := ReadFlag(value.rest);
    Got(Symbol(name.value, value.value, flag.value), flag.rest)
  }

  /** A symbol that is there already is kept. */
  function With(into: map<Text, Symbol>, s: Symbol): map<Text, Symbol> {
    if s.name in into then into else into[s.name := s]
  }

  /** One more symbol is read. */
  function ReadNext(got: Got<map<Text, Symbol>>): Got<map<Text, Symbol>> {
    var next := ReadSymbol(got.rest);
    Got(With(got.value, next.value), next.rest)
  }

  /** A function applied so many times. */
  function Repeated<T(!new)>(f: T -> T, n: nat, x: T): T {
    if n == 0 then x else f(Repeated(f, n - 1, x))
  }

  lemma {:induction false} RepeatedFrom<T(!new)>(f: T -> T, n: nat, x: T)
    ensures Repeated(f, n + 1, x) == Repeated(f, n, f(x))
    decreases n
  {
    if n > 0 {
      RepeatedFrom(f, n - 1, x);
    }
  }

  lemma RepeatedStep<T(!new)>(f: T -> T, n: nat, x: T, y: T)
    requires n > 0 && f(x) == y
    ensures Repeated(f, n, x) == Repeated(f, n - 1, y)
  {
    RepeatedFrom(f, n - 1, x);
  }

  function ReadSymbols(into: map<Text, Symbol>, count: nat, s: Text): Got<map<Text, Symbol>> {
    Repeated(ReadNext, count, Got(into, s))
  }

  function ReadTable(into: map<Text, Symbol>, s: Text): Got<map<Text, Symbol>> {
    var n := ReadInt(s);
    ReadSymbols(into, n.value, n.rest)
  }

  // ---------------------------------------------------------------- round trip

  lemma IntRoundTrip(n: nat, rest: Text)
    requires n < WIDTH
    ensures ReadInt(IntBytes(n) + rest) == Got(n, rest)
  {
    var s := IntBytes(n) + rest;
    var a, b, c := n / 256, n / 0x1_0000, n / 0x100_0000;
    assert n == 256 * a + n % 256;
    assert b == a / 256 && a == 256 * b + a % 256;
    assert c == b / 256 && b == 256 * c + b % 256;
    assert c < 256;
    assert s[4..] == rest;
  }

  lemma Assoc(a: Text, b: Text, c: Text)
    ensures (a + b) + c == a + (b + c)
  {
  }

  lemma Halves(a: Text, b: Text)
    ensures (a + b)[..|a|] == a && (a + b)[|a|..] == b
  {
  }

  lemma Fits(n: nat)
    requires n < WIDTH
    ensures n % WIDTH == n
  {
  }

  lemma TextRoundTrip(t: Text, rest: Text)
    requires |t| < WIDTH
    ensures ReadText(TextBytes(t) + rest) == Got(t, rest)
  {
    Fits(|t|);
    Assoc(IntBytes(|t|), t, rest);
    IntRoundTrip(|t|, t + rest);
    Halves(t, rest);
    ReadSized(TextBytes(t) + rest, t, rest);
  }

  lemma ReadSized(s: Text, t: Text, rest: Text)
    requires ReadInt(s) == Got(|t|, t + rest) && (t + rest)[..|t|] == t && (t + rest)[|t|..] == rest
    ensures ReadText(s) == Got(t, rest)
  {
  }

  /** A string survives exactly when its length fits in 32 bits. */
  lemma TextSurvives(t: Text, rest: Text)
    ensures ReadText(TextBytes(t) + rest) == Got(t, rest) <==> |t| < WIDTH
  {
    if |t| < WIDTH {
      TextRoundTrip(t, rest);
    }
  }

  predicate Short(s: Symbol) {
    |s.name| < WIDTH && |s.value| < WIDTH
  }

  lemma SymbolRoundTrip(s: Symbol, rest: Text)
    requires Short(s)
    ensures ReadSymbol(SymbolBytes(s) + rest) == Got(s, rest)
  {
    var flag: Text := [if s.exported then 1 as char else 0 as char];
    var afterName := TextBytes(s.value) + (flag + rest);
    assert SymbolBytes(s) + rest == TextBytes(s.name) + afterName;
    TextRoundTrip(s.name, afterName);
    TextRoundTrip(s.value, flag + rest);
    assert (flag + rest)[1..] == rest;
  }

  /** Each key is in the list once. */
  ghost predicate Order(symbols: map<Text, Symbol>, order: seq<Text>) {
    && (forall k :: k in order <==> k in symbols)
    && (forall i, j | 0 <= i < j < |order| :: order[i] != order[j])
  }

  /** What is there already wins. */
  function Kept(into: map<Text, Symbol>, symbols: map<Text, Symbol>): map<Text, Symbol> {
    map k | k in into.Keys + symbols.Keys :: if k in into then into[k] else symbols[k]
  }

  function Only(symbols: map<Text, Symbol>, order: seq<Text>): map<Text, Symbol> {
    map k | k in symbols && k in order :: symbols[k]
  }

  lemma KeptOneMore(into: map<Text, Symbol>, symbols: map<Text, Symbol>, order: seq<Text>)
    requires order != [] && order[0] in symbols && symbols[order[0]].name == order[0]
    ensures Kept(With(into, symbols[order[0]]), Only(symbols, order[1..])) == Kept(into, Only(symbols, order))
  {
    forall k ensures k in order <==> k == order[0] || k in order[1..] {
    }
  }

  lemma NextIs(into: map<Text, Symbol>, s: Symbol, more: Text)
    requires Short(s)
    ensures ReadNext(Got(into, SymbolBytes(s) + more)) == Got(With(into, s), more)
  {
    SymbolRoundTrip(s, more);
  }

  lemma ReadOneMore(into: map<Text, Symbol>, s: Symbol, count: nat, more: Text)
    requires count > 0 && Short(s)
    ensures ReadSymbols(into, count, SymbolBytes(s) + more) == ReadSymbols(With(into, s), count - 1, more)
  {
    NextIs(into, s, more);
    RepeatedStep(ReadNext, count, Got(into, SymbolBytes(s) + more), Got(With(into, s), more));
  }

  lemma {:induction false} SymbolsRoundTrip(into: map<Text, Symbol>, symbols: map<Text, Symbol>, order: seq<Text>,
                                            rest: Text)
    requires forall k | k in order :: k in symbols && symbols[k].name == k && Short(symbols[k])
    ensures ReadSymbols(into, |order|, SymbolsBytes(symbols, order) + rest)
         == Got(Kept(into, Only(symbols, order)), rest)
    decreases |order|
  {
    if order == [] {
      assert SymbolsBytes(symbols, order) + rest == rest;
      assert Kept(into, Only(symbols, order)) == into;
    } else {
      var sym := symbols[order[0]];
      assert order[0] in order;
      Assoc(SymbolBytes(sym), SymbolsBytes(symbols, order[1..]), rest);
      var more := SymbolsBytes(symbols, order[1..]) + rest;
      ReadOneMore(into, sym, |order|, more);
      SymbolsRoundTrip(With(into, sym), symbols, order[1..], rest);
      KeptOneMore(into, symbols, order);
    }
  }

  lemma ReadCounted(into: map<Text, Symbol>, s: Text, n: nat, body: Text)
    requires ReadInt(s) == Got(n, body)
    ensures ReadTable(into, s) == ReadSymbols(into, n, body)
  {
  }

  lemma TableRead(into: map<Text, Symbol>, symbols: map<Text, Symbol>, order: seq<Text>, rest: Text)
    requires |order| < WIDTH
    requires forall k | k in order :: k in symbols && symbols[k].name == k && Short(symbols[k])
    ensures ReadTable(into, TableBytes(symbols, order) + rest) == Got(Kept(into, Only(symbols, order)), rest)
  {
    var body := SymbolsBytes(symbols, order);
    Fits(|order|);
    Assoc(IntBytes(|order|), body, rest);
    IntRoundTrip(|order|, body + rest);
    ReadCounted(into, TableBytes(symbols, order) + rest, |order|, body + rest);
    SymbolsRoundTrip(into, symbols, order, rest);
  }

  /**
   * Whatever the order the table was written in, reading gives back every symbol that was not there
   * already and consumes exactly the bytes written.
   */
  lemma TableRoundTrip(into: map<Text, Symbol>, symbols: map<Text, Symbol>, order: seq<Text>, rest: Text)
    requires Order(symbols, order) && |order| < WIDTH
    requires forall k | k in symbols :: symbols[k].name == k && Short(symbols[k])
    ensures ReadTable(into, TableBytes(symbols, order) + rest) == Got(Kept(into, symbols), rest)
    ensures ReadTable(map[], TableBytes(symbols, order) + rest) == Got(symbols, rest)
  {
    TableRead(into, symbols, order, rest);
    TableRead(map[], symbols, order, rest);
    AllKept(symbols, order);
  }

  lemma AllKept(symbols: map<Text, Symbol>, order: seq<Text>)
    requires forall k :: k in order <==> k in symbols
    ensures Only(symbols, order) == symbols && Kept(map[], symbols) == symbols
  {
  }

  lemma TableCopied(symbols: map<Text, Symbol>, order: seq<Text>)
    requires Order(symbols, order) && |order| < WIDTH
    requires forall k | k in symbols :: symbols[k].name == k && Short(symbols[k])
    ensures ReadTable(map[], TableBytes(symbols, order)) == Got(symbols, [])
  {
    TableRoundTrip(map[], symbols, order, []);
    assert TableBytes(symbols, order) + [] == TableBytes(symbols, order);
  }
}
