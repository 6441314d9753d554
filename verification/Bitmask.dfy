// The allocator of tag descriptors: a first-fit bitmask over 64-bit machine words.
//
// The class works on the words with the source's shift-and-mask macros. The lemmas about the macros say
// what they do to the single bits of a word; nothing else in the proofs looks into a word.

module Bitmasks {

  const BITS: nat := 64
  const FULL: bv64 := 0xFFFF_FFFF_FFFF_FFFF

  // 1ULL << pos
  function One(pos: nat): bv64
    requires pos < BITS
  {
    (1 as bv64) << (pos as bv6)
  }

  predicate Meets(w: bv64, a: bv64) { w & a != 0 }
  function With(w: bv64, a: bv64): bv64 { w | a }
  function Without(w: bv64, a: bv64): bv64 { w & !a }

  // CHECK_BIT, SET_BIT and CLEAR_BIT
  predicate CheckBit(mask: bv64, pos: nat)
    requires pos < BITS
  {
    Meets(mask, One(pos))
  }

  function SetBit(mask: bv64, pos: nat): bv64
    requires pos < BITS
  {
    With(mask, One(pos))
  }

  function ClearBit(mask: bv64, pos: nat): bv64
    requires pos < BITS
  {
    Without(mask, One(pos))
  }

  // Machine words

  lemma ShiftBack(p: nat)
    requires p < BITS
    ensures (p as bv6) as int == p
  {
  }

  lemma Shifted(p: bv6, q: bv6)
    ensures Meets((1 as bv64) << p, (1 as bv64) << q) <==> p == q
  {
  }

  // Two numbers below 64 name the same bit only if they are equal.
  lemma Ones(p: nat, q: nat)
    requires p < BITS && q < BITS
    ensures Meets(One(p), One(q)) <==> p == q
  {
    hide Meets;
    ShiftBack(p);
    ShiftBack(q);
    Shifted(p as bv6, q as bv6);
  }

  // A test is blind to a change of bits it does not meet, and sees the change of its own.
  lemma WithApart(w: bv64, a: bv64, b: bv64)
    requires !Meets(a, b)
    ensures Same(With(w, a), w, b)
  {
  }

  lemma WithoutApart(w: bv64, a: bv64, b: bv64)
    requires !Meets(a, b)
    ensures Same(Without(w, a), w, b)
  {
  }

  predicate Same(v: bv64, w: bv64, b: bv64) { v & b == w & b }

  lemma SameMeets(v: bv64, w: bv64, b: bv64)
    requires Same(v, w, b)
    ensures Meets(v, b) <==> Meets(w, b)
  {
  }

  lemma Named(w: bv64, a: bv64)
    requires Meets(a, a)
    ensures Meets(With(w, a), a) && !Meets(Without(w, a), a)
  {
  }

  // Setting and clearing a bit change that bit and no other.
  lemma Updated(w: bv64, p: nat, q: nat)
    requires p < BITS && q < BITS
    ensures CheckBit(SetBit(w, p), q) <==> p == q || CheckBit(w, q)
    ensures CheckBit(ClearBit(w, p), q) <==> p != q && CheckBit(w, q)
  {
    hide Meets, Same, With, Without, One;
    Ones(p, q);
    if p == q {
      Named(w, One(p));
    } else {
      WithApart(w, One(p), One(q));
      WithoutApart(w, One(p), One(q));
      SameMeets(SetBit(w, p), w, One(q));
      SameMeets(ClearBit(w, p), w, One(q));
    }
  }

  // The kzalloc'ed word has no bit set, and the word that is compared with 0xFFFFFFFFFFFFFFFF all.
  lemma Cleared(q: nat)
    requires q < BITS
    ensures !CheckBit(0, q)
  {
    hide One;
  }

  lemma Filled(q: nat)
    requires q < BITS
    ensures CheckBit(FULL, q)
  {
    hide Meets, One;
    Ones(q, q);
    AllOnes(One(q));
  }

  lemma AllOnes(a: bv64)
    requires Meets(a, a)
    ensures Meets(FULL, a)
  {
  }

  // The words record exactly the numbers of s, and the padding bits at n and above are clear:
  // number x is bit x % 64 of word x / 64.
  ghost predicate Records(words: seq<bv64>, s: set<int>, n: int) {
    && n <= BITS * |words|
    && (forall x :: x in s ==> 0 <= x < n)
    && (forall i, p :: 0 <= i < |words| && 0 <= p < BITS ==> (CheckBit(words[i], p) <==> BITS * i + p in s))
  }

  // A word updated at one bit records one number more, or one fewer.
  lemma RecordsSet(words: seq<bv64>, s: set<int>, n: int, i: nat, p: nat)
    requires Records(words, s, n) && i < |words| && p < BITS && BITS * i + p < n
    ensures Records(words[i := SetBit(words[i], p)], s + {BITS * i + p}, n)
  {
    hide CheckBit, SetBit;
    var words', s' := words[i := SetBit(words[i], p)], s + {BITS * i + p};
    forall j, q | 0 <= j < |words'| && 0 <= q < BITS ensures CheckBit(words'[j], q) <==> BITS * j + q in s' {
      assert CheckBit(words[j], q) <==> BITS * j + q in s;
      Updated(words[i], p, q);
    }
  }

  lemma RecordsCleared(words: seq<bv64>, s: set<int>, n: int, i: nat, p: nat)
    requires Records(words, s, n) && i < |words| && p < BITS
    ensures Records(words[i := ClearBit(words[i], p)], s - {BITS * i + p}, n)
  {
    hide CheckBit, ClearBit;
    var words', s' := words[i := ClearBit(words[i], p)], s - {BITS * i + p};
    forall j, q | 0 <= j < |words'| && 0 <= q < BITS ensures CheckBit(words'[j], q) <==> BITS * j + q in s' {
      assert CheckBit(words[j], q) <==> BITS * j + q in s;
      Updated(words[i], p, q);
    }
  }

  // The first clear bit of a word, or -1.
  method GetFreeBit(mask: bv64, bitsPerSlot: nat) returns (bit: int)
    requires bitsPerSlot <= BITS
    ensures -1 <= bit < bitsPerSlot
    ensures bit >= 0 ==> !CheckBit(mask, bit) && forall b :: 0 <= b < bit ==> CheckBit(mask, b)
    ensures bit == -1 ==> forall b :: 0 <= b < bitsPerSlot ==> CheckBit(mask, b)
  {
    hide CheckBit;
    bit := 0;
    while bit < bitsPerSlot
      invariant 0 <= bit <= bitsPerSlot
      invariant forall b :: 0 <= b < bit ==> CheckBit(mask, b)
    {
      if !CheckBit(mask, bit) { return; }
      bit := bit + 1;
    }
    bit := -1;
  }

  class Bitmask {
    var mask: array<bv64>
    var nBits: int
    var slots: int
    var slotSize: int
    var bitsPerSlot: int
    ghost var Taken: set<int>  // the numbers handed out and not yet given back

    ghost predicate Valid()
      reads this, mask
    {
      && slotSize == 8 && bitsPerSlot == BITS
      && nBits >= 1
      && slots == nBits / BITS + (if nBits % BITS != 0 then 1 else 0)
      && mask.Length == slots
      && Records(mask[..], Taken, nBits)
    }

    // The successful path of initialize_bitmask.
    constructor (numberBits: int)
      requires numberBits >= 1
      ensures Valid() && fresh(mask)
      ensures nBits == numberBits && Taken == {}
    {
      slotSize := 8;
      bitsPerSlot := 8 * 8;
      nBits := numberBits;
      var number := numberBits / (8 * 8) + (if numberBits % (8 * 8) != 0 then 1 else 0);
      slots := number;
      mask := new bv64[number](_ => 0);
      Taken := {};
      new;
      hide CheckBit;
      forall i, p | 0 <= i < number && 0 <= p < BITS ensures !CheckBit(mask[..][i], p) {
        Cleared(p);
      }
    }

    // initialize_bitmask: null for a size below one or when either allocation fails.
    static method Initialize(numberBits: int, allocOk: bool) returns (b: Bitmask?)
      ensures b == null <==> numberBits < 1 || !allocOk
      ensures b != null ==> fresh(b) && fresh(b.mask) && b.Valid() && b.nBits == numberBits && b.Taken == {}
    {
      if numberBits < 1 { return null; }
      if !allocOk { return null; }
      b := new Bitmask(numberBits);
    }

    // Reserves and returns the least free number; -1, and no change, exactly when all are taken.
    method GetAvailNumber() returns (number: int)
      requires Valid()
      modifies mask, this`Taken
      ensures Valid()
      ensures number == -1 <==> forall x :: 0 <= x < nBits ==> x in old(Taken)
      ensures number == -1 ==> Taken == old(Taken)
      ensures number != -1 ==>
                && 0 <= number < nBits && number !in old(Taken)
                && (forall x :: 0 <= x < number ==> x in old(Taken))
                && Taken == old(Taken) + {number}
    {
      hide CheckBit, SetBit, Records;
      var i := 0;
      while i < slots
        invariant 0 <= i <= slots
        invariant Valid() && Taken == old(Taken)
        invariant forall x :: 0 <= x < BITS * i ==> x in Taken
      {
        var slotMask := mask[i];
        if slotMask == FULL {
          forall b | 0 <= b < BITS ensures CheckBit(slotMask, b) { Filled(b); }
          TakenSoFar(mask[..], Taken, nBits, i, BITS);
          i := i + 1;
          continue;
        }
        var freeBit := GetFreeBit(slotMask, bitsPerSlot);
        if freeBit != -1 {
          number := freeBit + i * bitsPerSlot;
          TakenSoFar(mask[..], Taken, nBits, i, freeBit);
          if number >= nBits { return -1; }
          BitOf(mask[..], Taken, nBits, i, freeBit);
          RecordsSet(mask[..], Taken, nBits, i, freeBit);
          ghost var words := mask[..];
          mask[i] := SetBit(mask[i], freeBit);
          assert mask[..] == words[i := SetBit(slotMask, freeBit)];
          Taken := Taken + {number};
          return;
        }
        TakenSoFar(mask[..], Taken, nBits, i, BITS);
        i := i + 1;
      }
      number := -1;
    }

    // Gives a number back: 1 if it was taken, 0 if it was free already, -1 if it is out of range.
    method ClearNumber(number: int) returns (r: int)
      requires Valid() && number >= 0
      modifies mask, this`Taken
      ensures Valid()
      ensures r == (if number in old(Taken) then 1 else if number >= nBits then -1 else 0)
      ensures Taken == old(Taken) - {number}
    {
      var slot := number / (8 * 8);
      if number >= nBits { return -1; }
      var bit := number % bitsPerSlot;
      var slotMask := mask[slot];
      BitOf(mask[..], Taken, nBits, slot, bit);
      hide CheckBit, ClearBit, Records;
      if !CheckBit(slotMask, bit) { return 0; }
      RecordsCleared(mask[..], Taken, nBits, slot, bit);
      ghost var words := mask[..];
      mask[slot] := ClearBit(mask[slot], bit);
      assert mask[..] == words[slot := ClearBit(slotMask, bit)];
      Taken := Taken - {number};
      r := 1;
    }
  }

  lemma BitOf(words: seq<bv64>, s: set<int>, n: int, i: nat, p: nat)
    requires Records(words, s, n) && i < |words| && p < BITS
    ensures CheckBit(words[i], p) <==> BITS * i + p in s
  {
    hide CheckBit;
  }

  // If the words below i and the low p bits of word i are all ones, every number below 64 * i + p is taken.
  lemma TakenSoFar(words: seq<bv64>, s: set<int>, n: int, i: nat, p: nat)
    requires Records(words, s, n) && i < |words| && p <= BITS
    requires forall x :: 0 <= x < BITS * i ==> x in s
    requires forall b :: 0 <= b < p ==> CheckBit(words[i], b)
    ensures forall x :: 0 <= x < BITS * i + p ==> x in s
  {
    hide CheckBit;
    forall x | BITS * i <= x < BITS * i + p ensures x in s {
      assert CheckBit(words[i], x - BITS * i);
    }
  }
}
