/** The bit set of client ids: 64-bit words changed in place, against the set they stand for. */
module BitSets {
  import opened ClientBits

  type Word = bv64

  // ---------------------------------------------------------------- one word

  /** One shifted left k times. */
  function Mask(k: nat): Word {
    if k == 0 then 1 else Mask(k - 1) << 1
  }

  predicate Has(w: Word, m: Word) {
    w & m != 0
  }

  predicate Bit(w: Word, k: nat) {
    Has(w, Mask(k))
  }

  lemma {:induction false} MasksApart(i: nat, j: nat)
    requires i < j
    ensures Mask(i) & Mask(j) == 0
    decreases i
  {
    if i == 0 {
      var x := Mask(j - 1);
      assert (1 as Word) & (x << 1) == 0;
    } else {
      MasksApart(i - 1, j - 1);
      var x, y := Mask(i - 1), Mask(j - 1);
      assert (x << 1) & (y << 1) == (x & y) << 1;
    }
  }

  lemma ShiftTwice(m: Word)
    ensures (m << 1) << 1 == m << 2 && (m << 2) << 2 == m << 4 && (m << 4) << 4 == m << 8
  {
  }

  lemma MaskEight(k: nat)
    ensures Mask(k + 8) == Mask(k) << 8
  {
    MaskFour(k);
    MaskFour(k + 4);
    ShiftTwice(Mask(k));
  }

  lemma MaskFour(k: nat)
    ensures Mask(k + 4) == Mask(k) << 4
  {
    MaskTwo(k);
    MaskTwo(k + 2);
    ShiftTwice(Mask(k));
  }

  lemma MaskTwo(k: nat)
    ensures Mask(k + 2) == Mask(k) << 2
  {
    assert Mask(k + 2) == Mask(k + 1) << 1;
    ShiftTwice(Mask(k));
  }

  lemma {:induction false} MaskNonZero(k: nat)
    requires k < 64
    ensures Mask(k) != 0
    decreases 64 - k
  {
    if k < 56 {
      MaskNonZero(k + 8);
      MaskEight(k);
      assert (0 as Word) << 8 == 0;
    } else {
      TopMasks();
    }
  }

  lemma TopMasks()
    ensures forall k | 56 <= k < 64 :: Mask(k) != 0
  {
    assert Mask(0) == 1;
    MaskEight(0); MaskEight(8); MaskEight(16); MaskEight(24); MaskEight(32); MaskEight(40); MaskEight(48);
    assert Mask(56) == 0x0100_0000_0000_0000;
    assert Mask(57) == 0x0200_0000_0000_0000;
    assert Mask(58) == 0x0400_0000_0000_0000;
    assert Mask(59) == 0x0800_0000_0000_0000;
    assert Mask(60) == 0x1000_0000_0000_0000;
    assert Mask(61) == 0x2000_0000_0000_0000;
    assert Mask(62) == 0x4000_0000_0000_0000;
    assert Mask(63) == 0x8000_0000_0000_0000;
  }

  lemma {:induction false} MaskSingle(k: nat)
    ensures Mask(k) & (Mask(k) - 1) == 0
    decreases k
  {
    if k > 0 {
      MaskSingle(k - 1);
      ShiftSingle(Mask(k - 1));
    }
  }

  lemma ShiftSingle(m: Word)
    requires m & (m - 1) == 0
    ensures (m << 1) & ((m << 1) - 1) == 0
  {
  }

  lemma OrSame(w: Word, m: Word)
    requires m != 0
    ensures Has(w | m, m)
  {
  }

  lemma OrApart(w: Word, m: Word, n: Word)
    requires m & n == 0
    ensures Has(w | m, n) == Has(w, n)
  {
  }

  lemma AndNotSame(w: Word, m: Word)
    ensures !Has(w & !m, m)
  {
  }

  lemma AndNotApart(w: Word, m: Word, n: Word)
    requires m & n == 0
    ensures Has(w & !m, n) == Has(w, n)
  {
  }

  lemma NotMask(w: Word, m: Word)
    requires m != 0 && m & (m - 1) == 0
    ensures Has(!w, m) <==> !Has(w, m)
  {
  }

  lemma AndCommutes(m: Word, n: Word)
    ensures m & n == n & m
  {
  }

  lemma MasksDisjoint(m: Word, n: Word, b: nat, k: nat)
    requires b != k && m == Mask(b) && n == Mask(k)
    ensures m & n == 0
  {
    if k < b {
      MasksApart(k, b);
      AndCommutes(m, n);
    } else {
      MasksApart(b, k);
    }
  }

  lemma OrOther(w: Word, m: Word, n: Word, b: nat, k: nat)
    requires b != k && m == Mask(b) && n == Mask(k)
    ensures Bit(w | m, k) == Bit(w, k)
  {
    MasksDisjoint(m, n, b, k);
    OrApart(w, m, n);
  }

  lemma AndNotOther(w: Word, m: Word, n: Word, b: nat, k: nat)
    requires b != k && m == Mask(b) && n == Mask(k)
    ensures Bit(w & !m, k) == Bit(w, k)
  {
    MasksDisjoint(m, n, b, k);
    AndNotApart(w, m, n);
  }

  /** Or-ing a mask in sets its bit and no other. */
  lemma WordSet(w: Word, m: Word, b: nat, k: nat)
    requires b < 64 && m == Mask(b)
    ensures Bit(w | m, k) <==> k == b || Bit(w, k)
  {
    if k == b {
      MaskNonZero(b);
      OrSame(w, m);
    } else {
      OrOther(w, m, Mask(k), b, k);
    }
  }

  /** And-ing the complement of a mask clears its bit and no other. */
  lemma WordClear(w: Word, m: Word, b: nat, k: nat)
    requires b < 64 && m == Mask(b)
    ensures Bit(w & !m, k) <==> k != b && Bit(w, k)
  {
    if k == b {
      AndNotSame(w, m);
    } else {
      AndNotOther(w, m, Mask(k), b, k);
    }
  }

  lemma WordNot(w: Word, k: nat)
    requires k < 64
    ensures Bit(!w, k) <==> !Bit(w, k)
  {
    MaskNonZero(k);
    MaskSingle(k);
    NotMask(w, Mask(k));
  }

  /** The k lowest bits. */
  function Low(k: nat): Word {
    if k == 0 then 0 else Low(k - 1) | Mask(k - 1)
  }

  lemma {:induction false} LowShifts(k: nat)
    ensures Low(k + 1) == (Low(k) << 1) | 1
    decreases k
  {
    if k == 0 {
      assert Low(1) == Low(0) | Mask(0);
    } else {
      LowShifts(k - 1);
      assert Low(k + 1) == Low(k) | Mask(k);
      OrShift(Low(k - 1), Mask(k - 1));
    }
  }

  lemma OrShift(a: Word, m: Word)
    ensures ((a << 1) | 1) | (m << 1) == ((a | m) << 1) | 1
  {
  }

  lemma LowEight(k: nat)
    ensures Low(k + 8) == (Low(k) << 8) | 0xFF
  {
    LowShifts(k); LowShifts(k + 1); LowShifts(k + 2); LowShifts(k + 3);
    LowShifts(k + 4); LowShifts(k + 5); LowShifts(k + 6); LowShifts(k + 7);
    var a := Low(k);
    ShiftIn(a);
  }

  function In(a: Word): Word {
    (a << 1) | 1
  }

  lemma ShiftIn(a: Word)
    ensures In(In(In(In(In(In(In(In(a)))))))) == (a << 8) | 0xFF
  {
  }

  lemma LowAll()
    ensures Low(64) == 0xFFFF_FFFF_FFFF_FFFF
  {
    LowEight(0); LowEight(8); LowEight(16); LowEight(24);
    LowEight(32); LowEight(40); LowEight(48); LowEight(56);
  }

  lemma OrZero(w: Word, a: Word, m: Word)
    requires w & a == 0 && w & m == 0
    ensures w & (a | m) == 0
  {
  }

  lemma NotHas(w: Word, m: Word, k: nat)
    requires m == Mask(k) && !Bit(w, k)
    ensures w & m == 0
  {
  }

  lemma {:induction false} NoLowBits(w: Word, k: nat)
    requires forall j :: 0 <= j < k ==> !Bit(w, j)
    ensures w & Low(k) == 0
    decreases k
  {
    if k > 0 {
      NoLowBits(w, k - 1);
      NotHas(w, Mask(k - 1), k - 1);
      OrZero(w, Low(k - 1), Mask(k - 1));
    }
  }

  lemma AllOnes(w: Word)
    ensures w & 0xFFFF_FFFF_FFFF_FFFF == w
  {
  }

  /** A word is zero exactly when none of its 64 bits is set. */
  lemma ZeroWord(w: Word)
    ensures w == 0 <==> forall k :: 0 <= k < 64 ==> !Bit(w, k)
  {
    if forall k :: 0 <= k < 64 ==> !Bit(w, k) {
      NoLowBits(w, 64);
      LowAll();
      AllOnes(w);
    }
    if w == 0 {
      forall k | 0 <= k < 64 ensures !Bit(w, k) {
        ZeroAnd(Mask(k));
      }
    }
  }

  lemma ZeroAnd(m: Word)
    ensures (0 as Word) & m == 0
  {
  }

  // ---------------------------------------------------------------- finding a bit

  /** The position of the lowest bit set at or above one, counted from 1; zero when there is none. */
  function FindFirstSet(w: Word, from: nat): (r: nat)
    decreases 64 - from
  {
    if from >= 64 then 0 else if Bit(w, from) then from + 1 else FindFirstSet(w, from + 1)
  }

  lemma {:induction false} FirstSetIs(w: Word, from: nat)
    requires from <= 64
    ensures FindFirstSet(w, from) == 0 <==> forall k :: from <= k < 64 ==> !Bit(w, k)
    ensures FindFirstSet(w, from) != 0 ==>
      var k := FindFirstSet(w, from) - 1; from <= k < 64 && Bit(w, k) && forall j :: from <= j < k ==> !Bit(w, j)
    decreases 64 - from
  {
    if from < 64 && !Bit(w, from) {
      FirstSetIs(w, from + 1);
    }
  }

  /** The lowest bit that is not set, counted from 1: the lowest one of the complement. */
  function FirstUnset(w: Word): nat {
    FindFirstSet(!w, 0)
  }

  lemma NotBits(w: Word, v: Word)
    requires v == !w
    ensures forall k: nat {:trigger Bit(w, k)} {:trigger Bit(v, k)} :: k < 64 ==> (Bit(v, k) <==> !Bit(w, k))
  {
    forall k: nat | k < 64 ensures Bit(v, k) <==> !Bit(w, k) {
      WordNot(w, k);
    }
  }

  lemma FirstClear(w: Word)
    ensures FirstUnset(w) == 0 ==> forall k :: 0 <= k < 64 ==> Bit(w, k)
    ensures FirstUnset(w) != 0 ==>
      var k := FirstUnset(w) - 1; 0 <= k < 64 && !Bit(w, k) && forall j :: 0 <= j < k ==> Bit(w, j)
  {
    FirstSetIs(!w, 0);
    NotBits(w, !w);
  }

  // ---------------------------------------------------------------- all words

  /** Bit k of word w stands for the number 64w + k. */
  ghost predicate Agree(words: seq<Word>, model: Bits) {
    && |words| == model.words
    && model.Valid()
    && forall w: nat, k: nat {:trigger Bit(words[w], k)} ::
      w < |words| && k < 64 ==> (Bit(words[w], k) <==> 64 * w + k in model.members)
  }

  lemma NumberOf(w: nat, k: nat)
    requires k < 64
    ensures (64 * w + k) / 64 == w && (64 * w + k) % 64 == k
  {
  }

  lemma AgreeGrows(words: seq<Word>, model: Bits)
    requires Agree(words, model)
    ensures Agree(words + [0], Bits(model.words + 1, model.members))
  {
    var more := words + [0];
    ZeroWord(0);
    forall w: nat, k: nat | w < |more| && k < 64 ensures Bit(more[w], k) <==> 64 * w + k in model.members {
      NumberOf(w, k);
      if w < |words| {
        assert more[w] == words[w];
      }
    }
  }

  lemma AgreeUpdate(words: seq<Word>, model: Bits, i: nat, v: Word, members: set<nat>)
    requires Agree(words, model) && i < |words|
    requires Bits(model.words, members).Valid()
    requires forall k: nat {:trigger Bit(v, k)} :: k < 64 ==> (Bit(v, k) <==> 64 * i + k in members)
    requires forall n: nat :: n / 64 != i ==> (n in members <==> n in model.members)
    ensures Agree(words[i := v], Bits(model.words, members))
  {
    var u := words[i := v];
    forall w: nat, k: nat | w < |u| && k < 64 ensures Bit(u[w], k) <==> 64 * w + k in members {
      NumberOf(w, k);
      if w != i {
        assert u[w] == words[w];
      }
    }
  }

  lemma AgreeSet(words: seq<Word>, model: Bits, i: nat, b: nat, m: Word, w: Word, v: Word)
    requires Agree(words, model) && i < |words| && b < 64 && m == Mask(b) && w == words[i] && v == w | m
    ensures Agree(words[i := v], Bits(model.words, model.members + {64 * i + b}))
  {
    NumberOf(i, b);
    var members := model.members + {64 * i + b};
    forall k: nat {:trigger Bit(v, k)} | k < 64 ensures Bit(v, k) <==> 64 * i + k in members {
      WordSet(w, m, b, k);
    }
    AgreeUpdate(words, model, i, v, members);
  }

  lemma AgreeClear(words: seq<Word>, model: Bits, i: nat, b: nat, m: Word, w: Word, v: Word)
    requires Agree(words, model) && i < |words| && b < 64 && m == Mask(b) && w == words[i] && v == w & !m
    ensures Agree(words[i := v], Bits(model.words, model.members - {64 * i + b}))
  {
    NumberOf(i, b);
    var members := model.members - {64 * i + b};
    forall k: nat {:trigger Bit(v, k)} | k < 64 ensures Bit(v, k) <==> 64 * i + k in members {
      WordClear(w, m, b, k);
    }
    AgreeUpdate(words, model, i, v, members);
  }

  lemma AllZero(words: seq<Word>, model: Bits, n: nat)
    requires Agree(words, model) && forall j :: 0 <= j < |words| ==> words[j] == 0
    ensures n !in model.members
  {
    ZeroWord(0);
    assert 64 * (n / 64) + n % 64 == n;
    assert n / 64 < |words| ==> (Bit(words[n / 64], n % 64) <==> n in model.members);
  }

  /** The least number that is not a member. */
  ghost predicate LeastAbsent(members: set<nat>, id: nat) {
    id !in members && forall j: nat :: j < id ==> j in members
  }

  /** The words before this one are full. */
  ghost predicate FullBelow(members: set<nat>, i: nat) {
    forall j: nat :: j < 64 * i ==> j in members
  }

  lemma FullWord(words: seq<Word>, model: Bits, i: nat)
    requires Agree(words, model) && i < |words| && FullBelow(model.members, i)
    requires forall k :: 0 <= k < 64 ==> Bit(words[i], k)
    ensures FullBelow(model.members, i + 1)
  {
    forall j: nat | j < 64 * (i + 1) ensures j in model.members {
      if j >= 64 * i {
        assert Bit(words[i], j - 64 * i);
      }
    }
  }

  lemma FirstClearIsLeast(words: seq<Word>, model: Bits, i: nat, k: nat)
    requires Agree(words, model) && i < |words| && FullBelow(model.members, i)
    requires k < 64 && !Bit(words[i], k) && forall j :: 0 <= j < k ==> Bit(words[i], j)
    ensures LeastAbsent(model.members, 64 * i + k)
  {
    forall j: nat | j < 64 * i + k ensures j in model.members {
      if j >= 64 * i {
        assert Bit(words[i], j - 64 * i);
      }
    }
  }

  class BitSet {
    var bits: seq<Word>
    ghost var model: Bits

    ghost predicate Valid()
      reads this
    {
      Agree(bits, model)
    }

    constructor ()
      ensures Valid() && model == EMPTY_BITS
    {
      bits := [];
      model := EMPTY_BITS;
    }

    /** The least number not in the set is added and returned; the set grows by a word when it is full. */
    method Allocate() returns (id: nat)
      requires Valid()
      modifies this
      ensures Valid()
      ensures LeastAbsent(old(model).members, id)
      ensures model == old(model).Set(id)
    {
      var i := 0;
      while i < |bits|
        invariant 0 <= i <= |bits|
        invariant bits == old(bits) && model == old(model)
        invariant FullBelow(model.members, i)
      {
        var bit := FirstUnset(bits[i]);
        FirstClear(bits[i]);
        if bit != 0 {
          FirstClearIsLeast(bits, model, i, bit - 1);
          id := 64 * i + (bit - 1);
          Put(i, bit - 1, Mask(bit - 1));
          NumberOf(i, bit - 1);
          return;
        }
        FullWord(bits, model, i);
        i := i + 1;
      }
      AgreeGrows(bits, model);
      bits := bits + [0];
      model := Bits(model.words + 1, model.members);
      ZeroBits();
      var bit := FirstUnset(bits[i]);
      FirstClear(bits[i]);
      FirstClearIsLeast(bits, model, i, bit - 1);
      id := 64 * i + (bit - 1);
      Put(i, bit - 1, Mask(bit - 1));
      NumberOf(i, bit - 1);
    }

    method Put(i: nat, b: nat, mask: Word)
      requires Valid() && i < |bits| && b < 64 && mask == Mask(b)
      modifies this
      ensures Valid() && model == Bits(old(model).words, old(model).members + {64 * i + b})
    {
      var word := bits[i];
      var v := word | mask;
      AgreeSet(bits, model, i, b, mask, word, v);
      model := Bits(model.words, model.members + {64 * i + b});
      bits := bits[i := v];
    }

    method Remove(i: nat, b: nat, mask: Word)
      requires Valid() && i < |bits| && b < 64 && mask == Mask(b)
      modifies this
      ensures Valid() && model == Bits(old(model).words, old(model).members - {64 * i + b})
    {
      var word := bits[i];
      var v := word & !mask;
      AgreeClear(bits, model, i, b, mask, word, v);
      model := Bits(model.words, model.members - {64 * i + b});
      bits := bits[i := v];
    }

    method Set(bit: nat)
      requires Valid()
      modifies this
      ensures Valid() && model == old(model).Set(bit)
    {
      var word := bit / 64;
      if word > |bits| {
        return;
      }
      if word == |bits| {
        AgreeGrows(bits, model);
        bits := bits + [0];
        model := Bits(model.words + 1, model.members);
      }
      Put(word, bit % 64, Mask(bit % 64));
    }

    method Clear(bit: nat)
      requires Valid()
      modifies this
      ensures Valid() && model == old(model).Clear(bit)
    {
      var word := bit / 64;
      if word > |bits| {
        return;
      }
      if word == |bits| {
        AgreeGrows(bits, model);
        bits := bits + [0];
        model := Bits(model.words + 1, model.members);
      }
      Remove(word, bit % 64, Mask(bit % 64));
    }

    method ClearAll()
      requires Valid()
      modifies this
      ensures Valid() && model == old(model).ClearAll()
    {
      ghost var before := bits;
      var i := 0;
      while i < |bits|
        invariant 0 <= i <= |bits| == |before|
        invariant model == old(model)
        invariant forall j :: 0 <= j < i ==> bits[j] == 0
      {
        bits := bits[i := 0];
        i := i + 1;
      }
      model := model.ClearAll();
      ZeroWord(0);
    }

    method IsEmpty() returns (empty: bool)
      requires Valid()
      ensures empty <==> model.IsEmpty()
    {
      var i := 0;
      while i < |bits|
        invariant 0 <= i <= |bits|
        invariant forall j :: 0 <= j < i ==> bits[j] == 0
      {
        if bits[i] != 0 {
          ZeroWord(bits[i]);
          return false;
        }
        i := i + 1;
      }
      forall n: nat ensures n !in model.members {
        AllZero(bits, model, n);
      }
      return true;
    }

    method Contains(bit: nat) returns (found: bool)
      requires Valid()
      ensures found <==> model.Contains(bit)
    {
      var word := bit / 64;
      if word >= |bits| {
        return false;
      }
      found := Bit(bits[word], bit % 64);
    }

    lemma ZeroBits()
      requires Valid() && bits != [] && bits[|bits|-1] == 0
      ensures FirstUnset(bits[|bits|-1]) != 0
    {
      FirstClear(bits[|bits|-1]);
      ZeroWord(bits[|bits|-1]);
      assert !Bit(bits[|bits|-1], 0);
    }
  }
}
