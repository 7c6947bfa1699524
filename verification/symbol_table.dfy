/** Symbol tables, nested by their parent pointers, and the streams they are written to. */
module SymbolTables {
  import opened SymbolCodec
  import opened SymbolExpansion

  // ---------------------------------------------------------------- streams

  class ByteStream {
    var data: Text

    method Put(s: Text)
      modifies this
      ensures data == old(data) + s
    {
      data := data + s;
    }

    /** The next byte, or -1 at the end. */
    method Next() returns (c: int)
      modifies this
      ensures if old(data) == [] then c == -1 && data == [] else c == old(data)[0] as int && data == old(data)[1..]
    {
      if data == [] {
        return -1;
      }
      c := data[0] as int;
      data := data[1..];
    }

    method WriteInt(n: nat)
      modifies this
      ensures data == old(data) + IntBytes(n)
    {
      var length := n;
      var i := 0;
      while i < 4
        invariant 0 <= i <= 4
        invariant data == old(data) + IntBytes(n)[..i]
        invariant length == Shifted(n, i)
      {
        ShiftedIs(n);
        Put([Low(length)]);
        length := length / 256;
        i := i + 1;
      }
    }

    method ReadNumber() returns (n: nat)
      modifies this
      ensures Got(n, data) == ReadInt(old(data))
    {
      n := 0;
      var scale := 1;
      var i := 0;
      while i < 4
        invariant 0 <= i <= 4 && i <= |old(data)| && data == old(data)[i..]
        invariant scale == Place(i)
        invariant n == LowBytes(old(data), i)
      {
        var c := Next();
        if c == -1 {
          return 0;
        }
        n := n + scale * c;
        scale := scale * 256;
        i := i + 1;
      }
      FourBytes(old(data));
    }

    method ReadString() returns (s: Text)
      modifies this
      ensures Got(s, data) == ReadText(old(data))
    {
      var n := ReadNumber();
      ghost var body := data;
      s := [];
      var i := 0;
      while i < n
        invariant 0 <= i <= n && i <= |body|
        invariant s == body[..i] && data == body[i..]
      {
        var c := Next();
        if c == -1 {
          return [];
        }
        s := s + [c as char];
        i := i + 1;
      }
    }

    method WriteString(s: Text)
      modifies this
      ensures data == old(data) + TextBytes(s)
    {
      WriteInt(|s| % WIDTH);
      Put(s);
    }

    method WriteSymbol(s: Symbol)
      modifies this
      ensures data == old(data) + SymbolBytes(s)
    {
      WriteString(s.name);
      WriteString(s.value);
      Put([if s.exported then 1 as char else 0 as char]);
    }

    method ReadOne() returns (s: Symbol)
      modifies this
      ensures Got(s, data) == ReadSymbol(old(data))
    {
      var name := ReadString();
      var value := ReadString();
      var flag := Next();
      s := Symbol(name, value, flag != 0);
    }
  }

  function Shifted(n: nat, i: nat): nat {
    if i == 0 then n else Shifted(n, i - 1) / 256
  }

  lemma ShiftedIs(n: nat)
    ensures Shifted(n, 0) == n && Shifted(n, 1) == n / 256
    ensures Shifted(n, 2) == n / 0x1_0000 && Shifted(n, 3) == n / 0x100_0000
  {
    assert Shifted(n, 1) == Shifted(n, 0) / 256;
    assert Shifted(n, 2) == Shifted(n, 1) / 256;
    assert Shifted(n, 3) == Shifted(n, 2) / 256;
  }

  function Place(i: nat): nat {
    if i == 0 then 1 else 256 * Place(i - 1)
  }

  function LowBytes(s: Text, i: nat): nat
    requires i <= |s|
  {
    if i == 0 then 0 else LowBytes(s, i - 1) + Place(i - 1) * (s[i-1] as int)
  }

  lemma FourBytes(s: Text)
    requires |s| >= 4
    ensures Got(LowBytes(s, 4), s[4..]) == ReadInt(s)
  {
    assert Place(0) == 1 && Place(1) == 256 * Place(0) && Place(2) == 256 * Place(1) && Place(3) == 256 * Place(2);
    assert LowBytes(s, 1) == LowBytes(s, 0) + Place(0) * (s[0] as int);
    assert LowBytes(s, 2) == LowBytes(s, 1) + Place(1) * (s[1] as int);
    assert LowBytes(s, 3) == LowBytes(s, 2) + Place(2) * (s[2] as int);
    assert LowBytes(s, 4) == LowBytes(s, 3) + Place(3) * (s[3] as int);
  }

  // ---------------------------------------------------------------- environments

  function PutAll(symbols: map<Text, Symbol>, exported: seq<Symbol>): map<Text, Symbol> {
    if exported == [] then symbols
    else PutAll(symbols, exported[..|exported|-1])[exported[|exported|-1].name := exported[|exported|-1]]
  }

  /** What a process gets: the exported symbols, those of inner scopes in place of outer ones. */
  function Environment(exports: seq<seq<Symbol>>): map<Text, Symbol> {
    if exports == [] then map[] else PutAll(Environment(exports[1..]), exports[0])
  }

  lemma {:induction false} PutAllHas(symbols: map<Text, Symbol>, exported: seq<Symbol>, name: Text)
    ensures name in PutAll(symbols, exported) <==> name in symbols || exists i :: 0 <= i < |exported| && exported[i].name == name
    decreases |exported|
  {
    if exported != [] {
      var before := exported[..|exported|-1];
      PutAllHas(symbols, before, name);
      if exists i :: 0 <= i < |exported| && exported[i].name == name {
        var i :| 0 <= i < |exported| && exported[i].name == name;
        assert i < |before| ==> before[i].name == name;
      }
      if exists i :: 0 <= i < |before| && before[i].name == name {
        var i :| 0 <= i < |before| && before[i].name == name;
        assert exported[i].name == name;
      }
    }
  }

  /** A name is in the environment exactly when some scope exports it. */
  lemma {:induction false} EnvironmentHas(exports: seq<seq<Symbol>>, name: Text)
    ensures name in Environment(exports)
       <==> exists d, i :: 0 <= d < |exports| && 0 <= i < |exports[d]| && exports[d][i].name == name
    decreases |exports|
  {
    if exports != [] {
      EnvironmentHas(exports[1..], name);
      PutAllHas(Environment(exports[1..]), exports[0], name);
      if d, i :| 0 <= d < |exports| && 0 <= i < |exports[d]| && exports[d][i].name == name {
        assert d > 0 ==> exports[1..][d-1][i].name == name;
      }
      if d, i :| 0 <= d < |exports[1..]| && 0 <= i < |exports[1..][d]| && exports[1..][d][i].name == name {
        assert exports[d+1][i].name == name;
      }
    }
  }

  // ---------------------------------------------------------------- tables

  class SymbolTable {
    var symbols: map<Text, Symbol>
    var exportedSymbols: seq<Symbol>
    var parent: SymbolTable?
    ghost var Repr: set<object>

    /** The parents form a chain. */
    ghost predicate Valid()
      reads this, Repr
      decreases Repr
    {
      && this in Repr
      && (parent != null ==> parent in Repr && parent.Repr < Repr && this !in parent.Repr && parent.Valid())
    }

    ghost function AllScopes(): Scopes
      requires Valid()
      reads this, Repr
      decreases Repr
    {
      [symbols] + if parent == null then [] else parent.AllScopes()
    }

    ghost function AllExports(): seq<seq<Symbol>>
      requires Valid()
      reads this, Repr
      decreases Repr
    {
      [exportedSymbols] + if parent == null then [] else parent.AllExports()
    }

    constructor (parent: SymbolTable?)
      requires parent != null ==> parent.Valid()
      ensures Valid() && this.parent == parent
      ensures symbols == map[] && exportedSymbols == []
      ensures AllScopes() == [map[]] + if parent == null then [] else parent.AllScopes()
      ensures AllExports() == [[]] + if parent == null then [] else parent.AllExports()
    {
      symbols := map[];
      exportedSymbols := [];
      this.parent := parent;
      Repr := {this} + if parent == null then {} else parent.Repr;
    }

    /** A name that is taken keeps its symbol, and exporting it again exports that one. */
    method AddSymbol(name: Text, value: Text, exported: bool)
      requires Valid()
      modifies this
      ensures Valid() && parent == old(parent)
      ensures name in symbols && symbols == old(symbols)[name := symbols[name]]
      ensures symbols[name] == if name in old(symbols) then old(symbols)[name] else Symbol(name, value, exported)
      ensures exportedSymbols == old(exportedSymbols) + if exported then [symbols[name]] else []
    {
      if name !in symbols {
        symbols := symbols[name := Symbol(name, value, exported)];
      }
      if exported {
        exportedSymbols := exportedSymbols + [symbols[name]];
      }
    }

    /** The size and then every symbol, in the order the table happens to have. */
    method Encode(stream: ByteStream) returns (ghost order: seq<Text>)
      requires forall k | k in symbols :: symbols[k].name == k
      modifies stream
      ensures Order(symbols, order) && |order| == |symbols|
      ensures stream.data == old(stream.data) + TableBytes(symbols, order)
    {
      stream.WriteInt(|symbols| % WIDTH);
      ghost var head := stream.data;
      order := [];
      var rest := symbols.Keys;
      while rest != {}
        invariant rest <= symbols.Keys && |rest| + |order| == |symbols|
        invariant forall k :: k in order <==> k in symbols && k !in rest
        invariant forall i, j :: 0 <= i < j < |order| ==> order[i] != order[j]
        invariant stream.data == head + SymbolsBytes(symbols, order)
        decreases |rest|
      {
        var k :| k in rest;
        stream.WriteSymbol(symbols[k]);
        OneMoreSymbol(symbols, order, k);
        Assoc(head, SymbolsBytes(symbols, order), SymbolBytes(symbols[k]));
        order := order + [k];
        rest := rest - {k};
      }
      Assoc(old(stream.data), IntBytes(|symbols| % WIDTH), SymbolsBytes(symbols, order));
    }

    method DecodeOne(stream: ByteStream)
      modifies this, stream
      ensures Got(symbols, stream.data) == ReadNext(Got(old(symbols), old(stream.data)))
      ensures exportedSymbols == old(exportedSymbols) && parent == old(parent) && Repr == old(Repr)
    {
      var sym := stream.ReadOne();
      if sym.name !in symbols {
        symbols := symbols[sym.name := sym];
      }
    }

    /** Symbols are read into the table; none of them counts as exported. */
    method Decode(stream: ByteStream)
      modifies this, stream
      ensures Got(symbols, stream.data) == ReadTable(old(symbols), old(stream.data))
      ensures exportedSymbols == old(exportedSymbols) && parent == old(parent) && Repr == old(Repr)
    {
      var number := stream.ReadNumber();
      ReadCounted(symbols, old(stream.data), number, stream.data);
      DecodeSymbols(stream, number);
    }

    method DecodeSymbols(stream: ByteStream, number: nat)
      modifies this, stream
      ensures Got(symbols, stream.data) == ReadSymbols(old(symbols), number, old(stream.data))
      ensures exportedSymbols == old(exportedSymbols) && parent == old(parent) && Repr == old(Repr)
    {
      var i := 0;
      while i < number
        invariant 0 <= i <= number
        invariant Got(symbols, stream.data) == ReadSymbols(old(symbols), i, old(stream.data))
        invariant exportedSymbols == old(exportedSymbols) && parent == old(parent) && Repr == old(Repr)
      {
        DecodeOne(stream);
        i := i + 1;
      }
    }

    /** The symbol of the innermost scope that has the name, if any has. */
    method FindSymbol(name: Text) returns (r: Option<Symbol>)
      requires Valid()
      ensures r == Lookup(AllScopes(), name)
      ensures r.Some? <==> Known(AllScopes(), name)
      ensures forall d: nat :: Innermost(AllScopes(), name, d) ==> r == Some(AllScopes()[d][name])
      decreases Repr
    {
      LookupIs(AllScopes(), name);
      assert parent != null ==> AllScopes()[1..] == parent.AllScopes();
      if name in symbols {
        r := Some(symbols[name]);
      } else if parent == null {
        r := None;
      } else {
        r := parent.FindSymbol(name);
      }
    }

    method GetEnvironmentSymbols() returns (env: map<Text, Symbol>)
      requires Valid()
      ensures env == Environment(AllExports())
      decreases Repr
    {
      env := map[];
      assert parent != null ==> AllExports()[1..] == parent.AllExports();
      if parent != null {
        env := parent.GetEnvironmentSymbols();
      }
      ghost var outer := env;
      assert outer == Environment(AllExports()[1..]);
      var i := 0;
      while i < |exportedSymbols|
        invariant 0 <= i <= |exportedSymbols|
        invariant env == PutAll(outer, exportedSymbols[..i])
      {
        env := env[exportedSymbols[i].name := exportedSymbols[i]];
        assert exportedSymbols[..i+1][..i] == exportedSymbols[..i];
        i := i + 1;
      }
      assert exportedSymbols[..i] == exportedSymbols;
    }

    /** The expansion of the token at a position, and where the next one starts. */
    method ExpandAt(str: Text, p: nat) returns (piece: Text, q: nat, ghost t: Token)
      requires Valid() && p < |str| && str[p] != '\0'
      ensures p < q <= |str| && piece == Expansion(AllScopes(), t)
      ensures Tokens(str[p..]) == [t] + Tokens(str[q..])
    {
      if str[p] == '$' {
        var name;
        name, q := ReferenceAt(str, p);
        t := Ref(name);
        var symbol := FindSymbol(name);
        piece := if symbol == None then name else symbol.value.value;
      } else {
        assert str[p..][1..] == str[p+1..];
        piece, q, t := [str[p]], p + 1, Plain(str[p]);
      }
    }

    /** One pass over the string, which equals expanding its tokens. */
    method ReplaceSymbols(str: Text) returns (result: Text)
      requires Valid()
      ensures result == Replace(AllScopes(), str)
    {
      result := [];
      var p := 0;
      ghost var all := Tokens(str);
      ghost var done: seq<Token> := [];
      assert str[0..] == str && [] + all == all;
      while p < |str| && str[p] != '\0'
        invariant 0 <= p <= |str|
        invariant all == done + Tokens(str[p..])
        invariant result == Expand(AllScopes(), done)
        decreases |str| - p
      {
        var piece, q;
        ghost var t;
        piece, q, t := ExpandAt(str, p);
        TokenDone(AllScopes(), done, t, Tokens(str[q..]));
        done := done + [t];
        result := result + piece;
        p := q;
      }
      TokensEnd(str[p..]);
      assert done + [] == done;
    }
  }

  lemma TokensEnd(s: Text)
    requires AtEnd(s)
    ensures Tokens(s) == []
  {
  }

  lemma TokenDone(scopes: Scopes, done: seq<Token>, t: Token, rest: seq<Token>)
    ensures done + ([t] + rest) == (done + [t]) + rest
    ensures Expand(scopes, done + [t]) == Expand(scopes, done) + Expansion(scopes, t)
  {
    ExpandAppend(scopes, done, [t]);
    assert [t][1..] == [];
    assert Expand(scopes, [t]) == Expansion(scopes, t) + [];
  }

  lemma {:induction false} OneMoreSymbol(symbols: map<Text, Symbol>, order: seq<Text>, k: Text)
    requires k in symbols && forall j | j in order :: j in symbols
    ensures SymbolsBytes(symbols, order + [k]) == SymbolsBytes(symbols, order) + SymbolBytes(symbols[k])
    decreases |order|
  {
    if order != [] {
      assert (order + [k])[1..] == order[1..] + [k];
      OneMoreSymbol(symbols, order[1..], k);
      Assoc(SymbolBytes(symbols[order[0]]), SymbolsBytes(symbols, order[1..]), SymbolBytes(symbols[k]));
    } else {
      assert order + [k] == [k] && [k][1..] == [];
      assert SymbolsBytes(symbols, [k]) == SymbolBytes(symbols[k]) + [];
    }
  }

  /** Writing a table and reading it into a new one. */
  method Transfer(source: SymbolTable, stream: ByteStream) returns (copy: SymbolTable)
    requires source.Valid() && |source.symbols| < WIDTH && stream.data == []
    requires forall k | k in source.symbols :: source.symbols[k].name == k && Short(source.symbols[k])
    modifies stream
    ensures copy.symbols == source.symbols && stream.data == []
    ensures copy.exportedSymbols == [] && copy.parent == null
  {
    var order := source.Encode(stream);
    ghost var bytes := stream.data;
    assert bytes == TableBytes(source.symbols, order) by { assert [] + TableBytes(source.symbols, order) == TableBytes(source.symbols, order); }
    TableCopied(source.symbols, order);
    copy := new SymbolTable(null);
    copy.Decode(stream);
  }

  /** No later symbol of the list has the same name. */
  predicate IsLast(exported: seq<Symbol>, i: nat)
    requires i < |exported|
  {
    forall j | i < j < |exported| :: exported[j].name != exported[i].name
  }

  /** The environment has the symbols of the list already, for a name listed repeatedly the last one. */
  predicate AlreadyThere(env: map<Text, Symbol>, exported: seq<Symbol>) {
    forall i | 0 <= i < |exported| && IsLast(exported, i) ::
      exported[i].name in env && env[exported[i].name] == exported[i]
  }

  lemma {:induction false} LastPut(env: map<Text, Symbol>, exported: seq<Symbol>, i: nat)
    requires i < |exported| && IsLast(exported, i)
    ensures exported[i].name in PutAll(env, exported) && PutAll(env, exported)[exported[i].name] == exported[i]
    decreases |exported|
  {
    if i < |exported| - 1 {
      var before := exported[..|exported|-1];
      assert IsLast(before, i);
      LastPut(env, before, i);
    }
  }

  lemma {:induction false} NotPut(env: map<Text, Symbol>, exported: seq<Symbol>, name: Text)
    requires forall i | 0 <= i < |exported| :: exported[i].name != name
    ensures name in PutAll(env, exported) <==> name in env
    ensures name in env ==> PutAll(env, exported)[name] == env[name]
    decreases |exported|
  {
    if exported != [] {
      NotPut(env, exported[..|exported|-1], name);
    }
  }

  lemma {:induction false} FindLast(exported: seq<Symbol>, i: nat) returns (j: nat)
    requires i < |exported|
    ensures j < |exported| && IsLast(exported, j) && exported[j].name == exported[i].name
    decreases |exported| - i
  {
    if IsLast(exported, i) {
      j := i;
    } else {
      var k :| i < k < |exported| && exported[k].name == exported[i].name;
      j := FindLast(exported, k);
    }
  }

  lemma PutsNothingNew(env: map<Text, Symbol>, exported: seq<Symbol>)
    ensures PutAll(env, exported) == env <==> AlreadyThere(env, exported)
  {
    var all := PutAll(env, exported);
    forall i | 0 <= i < |exported| && IsLast(exported, i)
      ensures exported[i].name in all && all[exported[i].name] == exported[i]
    {
      LastPut(env, exported, i);
    }
    if AlreadyThere(env, exported) {
      forall name ensures name in all <==> name in env
      ensures name in env ==> all[name] == env[name] {
        if i :| 0 <= i < |exported| && exported[i].name == name {
          var j := FindLast(exported, i);
        } else {
          NotPut(env, exported, name);
        }
      }
      assert all == env;
    }
  }

  /**
   * A copied table gives a process the same environment as the original, below the same scopes, exactly
   * when those scopes already export what the original exported; on its own, when that was nothing.
   */
  lemma CopyExportsNothing(exported: seq<Symbol>, outer: seq<seq<Symbol>>)
    ensures Environment([[]] + outer) == Environment([exported] + outer) <==> AlreadyThere(Environment(outer), exported)
    ensures outer == [] ==> (Environment([[]] + outer) == Environment([exported] + outer) <==> exported == [])
  {
    assert ([[]] + outer)[1..] == outer && ([exported] + outer)[1..] == outer;
    assert Environment([exported] + outer) == PutAll(Environment(outer), exported);
    assert Environment([[]] + outer) == PutAll(Environment(outer), []) == Environment(outer);
    PutsNothingNew(Environment(outer), exported);
    if exported != [] {
      var j := FindLast(exported, 0);
    }
  }

  method ScanBraced(str: Text, from: nat) returns (name: Text, q: nat)
    requires from <= |str|
    ensures q == from + |name| <= |str| && name == str[from..q]
    ensures |name| == BracedLength(str[from..])
  {
    name, q := [], from;
    while q < |str| && str[q] != '\0' && str[q] != '}'
      invariant from <= q <= |str| && name == str[from..q]
      invariant BracedLength(str[from..]) == |name| + BracedLength(str[q..])
      decreases |str| - q
    {
      assert str[q..][1..] == str[q+1..];
      name := name + [str[q]];
      q := q + 1;
    }
  }

  method ScanName(str: Text, from: nat) returns (name: Text, q: nat)
    requires from <= |str|
    ensures q == from + |name| <= |str| && name == str[from..q]
    ensures |name| == NameLength(str[from..])
  {
    name, q := [], from;
    while q < |str| && Continues(str[q])
      invariant from <= q <= |str| && name == str[from..q]
      invariant NameLength(str[from..]) == |name| + NameLength(str[q..])
      decreases |str| - q
    {
      assert str[q..][1..] == str[q+1..];
      name := name + [str[q]];
      q := q + 1;
    }
  }

  lemma Slices(str: Text, at: nat, from: nat, q: nat)
    requires at <= from <= q <= |str|
    ensures str[at..][from-at..] == str[from..] == str[from..q] + str[q..]
  {
  }

  method BracedReference(str: Text, at: nat) returns (name: Text, q: nat)
    requires at + 1 < |str| && str[at] == '$' && str[at+1] == '{'
    ensures at < q <= |str|
    ensures Tokens(str[at..]) == [Ref(name)] + Tokens(str[q..])
  {
    var end;
    name, end := ScanBraced(str, at + 2);
    Slices(str, at, at + 2, end);
    BracedAs(str[at..], name, str[end..]);
    q := if end < |str| && str[end] == '}' then end + 1 else end;
    BraceSkipped(str, end, q);
  }

  lemma BraceSkipped(str: Text, end: nat, q: nat)
    requires end <= |str| && q == if end < |str| && str[end] == '}' then end + 1 else end
    ensures AfterBrace(str[end..]) == str[q..]
  {
  }

  method NamedReference(str: Text, at: nat) returns (name: Text, q: nat)
    requires at + 1 < |str| && str[at] == '$' && Starts(str[at+1])
    ensures at < q <= |str|
    ensures Tokens(str[at..]) == [Ref(name)] + Tokens(str[q..])
  {
    name, q := ScanName(str, at + 1);
    Slices(str, at, at + 1, q);
    NamedAs(str[at..], name, str[q..]);
  }

  /** The name after a dollar sign, and where the reference ends. */
  method ReferenceAt(str: Text, at: nat) returns (name: Text, q: nat)
    requires at < |str| && str[at] == '$'
    ensures at < q <= |str|
    ensures Tokens(str[at..]) == [Ref(name)] + Tokens(str[q..])
  {
    if at + 1 < |str| && str[at+1] == '{' {
      name, q := BracedReference(str, at);
    } else if at + 1 < |str| && Starts(str[at+1]) {
      name, q := NamedReference(str, at);
    } else {
      name, q := [], at + 1;
      Slices(str, at, q, q);
      TokensDollar(str[at..]);
    }
  }
}
