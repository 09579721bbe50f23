/** The checker's bitset: a slice of 64-bit words, bit pos in word pos / 64 at position
    pos % 64.  A word is given by its 64 bits, lowest first. */
module Bitset {

  // ---------- Words ----------

  type Word = w: seq<bool> | |w| == 64 witness seq(64, i => false)

  const ZERO: Word := seq(64, i => false)

  function Xor(v: Word, w: Word): (r: Word)
    ensures forall i :: 0 <= i < 64 ==> r[i] == (v[i] != w[i])
  {
    seq(64, i requires 0 <= i < 64 => v[i] != w[i])
  }

  function Pow2(i: nat): (r: nat)
    ensures r > 0
  {
    if i == 0 then 1 else 2 * Pow2(i - 1)
  }

  /** The lowest k bits of a number, lowest first. */
  function Bits(n: nat, k: nat): (r: seq<bool>)
    ensures |r| == k
  {
    if k == 0 then [] else [n % 2 == 1] + Bits(n / 2, k - 1)
  }

  /** The conversion of a count to 64 bits; higher bits are lost. */
  function ToWord(n: nat): (r: Word)
  {
    Bits(n, 64)
  }

  /** The number that the bits stand for. */
  function NumberOf(w: seq<bool>): (n: nat)
  {
    if w == [] then 0 else (if w[0] then 1 else 0) + 2 * NumberOf(w[1..])
  }

  /** Nothing is lost of a number that fits. */
  lemma {:induction false} BitsStandFor(n: nat, k: nat)
    requires n < Pow2(k)
    ensures NumberOf(Bits(n, k)) == n
    decreases k
  {
    if k > 0 {
      BitsStandFor(n / 2, k - 1);
    }
  }

  /** The number of ones among bits i.. of the word. */
  function Ones(w: seq<bool>): (r: nat)
  {
    if w == [] then 0 else (if w[0] then 1 else 0) + Ones(w[1..])
  }

  // ---------- Bitsets ----------

  /** The numbers in the set. */
  ghost function Members(b: seq<Word>): (r: set<nat>)
    ensures forall pos :: pos in r <==> 0 <= pos < 64 * |b| && b[pos / 64][pos % 64]
  {
    set pos: nat | pos < 64 * |b| && b[pos / 64][pos % 64]
  }

  method NewBitset(bits: nat) returns (b: array<Word>)
    ensures fresh(b) && b.Length == (bits + 63) / 64
    ensures Members(b[..]) == {}
  {
    var extra := 0;
    if bits % 64 != 0 {
      extra := 1;
    }
    b := new Word[bits / 64 + extra](_ => ZERO);
  }

  method Clone(b: array<Word>) returns (c: array<Word>)
    ensures fresh(c) && c[..] == b[..]
  {
    c := new Word[b.Length](_ => ZERO);
    for i := 0 to b.Length
      invariant c[..i] == b[..i]
    {
      c[i] := b[i];
    }
    assert c[..] == c[..b.Length] && b[..] == b[..b.Length];
  }

  method Set(b: array<Word>, pos: nat)
    requires pos < 64 * b.Length
    modifies b
    ensures Members(b[..]) == old(Members(b[..])) + {pos}
  {
    var major, minor := pos / 64, pos % 64;
    b[major] := b[major][minor := true];
  }

  method Clear(b: array<Word>, pos: nat)
    requires pos < 64 * b.Length
    modifies b
    ensures Members(b[..]) == old(Members(b[..])) - {pos}
  {
    var major, minor := pos / 64, pos % 64;
    b[major] := b[major][minor := false];
  }

  method Get(b: array<Word>, pos: nat) returns (r: bool)
    requires pos < 64 * b.Length
    ensures r <==> pos in Members(b[..])
  {
    r := b[pos / 64][pos % 64];
  }

  // ---------- Counting ----------

  function CountAll(b: seq<Word>): (r: nat)
  {
    if b == [] then 0 else CountAll(b[..|b| - 1]) + Ones(b[|b| - 1])
  }

  ghost function BitsOf(w: seq<bool>, base: nat): (r: set<nat>)
    ensures forall pos :: pos in r <==> base <= pos < base + |w| && w[pos - base]
    decreases |w|
  {
    if w == [] then {}
    else (if w[0] then {base} else {}) + BitsOf(w[1..], base + 1)
  }

  lemma {:induction false} OnesCounts(w: seq<bool>, base: nat)
    ensures |BitsOf(w, base)| == Ones(w)
    decreases |w|
  {
    if w != [] {
      OnesCounts(w[1..], base + 1);
      assert base !in BitsOf(w[1..], base + 1);
    }
  }

  lemma MembersSplit(b: seq<Word>)
    requires b != []
    ensures var k := |b| - 1;
            && Members(b) == Members(b[..k]) + BitsOf(b[k], 64 * k)
            && Members(b[..k]) !! BitsOf(b[k], 64 * k)
  {
    var k := |b| - 1;
    forall pos: nat
      ensures pos in Members(b) <==> pos in Members(b[..k]) || pos in BitsOf(b[k], 64 * k)
      ensures !(pos in Members(b[..k]) && pos in BitsOf(b[k], 64 * k))
    {
      if pos < 64 * k {
        assert pos / 64 < k;
      } else if pos < 64 * |b| {
        assert pos / 64 == k && pos % 64 == pos - 64 * k;
      }
    }
  }

  /** The population count is the size of the set. */
  lemma {:induction false} CountAllCounts(b: seq<Word>)
    ensures CountAll(b) == |Members(b)|
  {
    if b == [] {
      assert Members(b) == {};
    } else {
      var k := |b| - 1;
      CountAllCounts(b[..k]);
      OnesCounts(b[k], 64 * k);
      MembersSplit(b);
    }
  }

  method PopCnt(b: array<Word>) returns (total: nat)
    ensures total == |Members(b[..])|
  {
    total := 0;
    for i := 0 to b.Length
      invariant total == CountAll(b[..i])
    {
      assert b[..i + 1][..i] == b[..i];
      total := total + Ones(b[i]);
    }
    assert b[..b.Length] == b[..];
    CountAllCounts(b[..]);
  }

  // ---------- Hashing and comparing ----------

  function Fold(h: Word, b: seq<Word>): (r: Word)
  {
    if b == [] then h else Xor(Fold(h, b[..|b| - 1]), b[|b| - 1])
  }

  ghost function HashOf(b: seq<Word>): (r: Word)
  {
    Fold(ToWord(|Members(b)|), b)
  }

  method Hash(b: array<Word>) returns (h: Word)
    ensures h == HashOf(b[..])
  {
    var count := PopCnt(b);
    h := ToWord(count);
    for i := 0 to b.Length
      invariant h == Fold(ToWord(count), b[..i])
    {
      assert b[..i + 1][..i] == b[..i];
      h := Xor(h, b[i]);
    }
    assert b[..b.Length] == b[..];
  }

  /** The places of the words that have bit i. */
  ghost function WordsWith(b: seq<Word>, i: nat): (r: set<nat>)
    requires i < 64
  {
    set k: nat | k < |b| && b[k][i]
  }

  /** What one more word adds to them. */
  lemma WordsWithMore(front: seq<Word>, w: Word, i: nat)
    requires i < 64
    ensures WordsWith(front + [w], i) == if w[i] then WordsWith(front, i) + {|front|} else WordsWith(front, i)
    ensures |WordsWith(front + [w], i)| == |WordsWith(front, i)| + if w[i] then 1 else 0
  {
  }

  lemma FoldMore(h: Word, front: seq<Word>, w: Word, i: nat)
    requires i < 64
    ensures Fold(h, front + [w])[i] == (Fold(h, front)[i] != w[i])
  {
    assert (front + [w])[..|front|] == front;
  }

  predicate Odd(n: nat)
  {
    n % 2 == 1
  }

  /** Each word flips the bits that it has. */
  lemma {:induction false} FoldBit(h: Word, b: seq<Word>, i: nat)
    requires i < 64
    ensures Fold(h, b)[i] == (h[i] != Odd(|WordsWith(b, i)|))
    decreases |b|
  {
    if b == [] {
      assert WordsWith(b, i) == {};
    } else {
      var front, w := b[..|b| - 1], b[|b| - 1];
      assert b == front + [w];
      FoldBit(h, front, i);
      FoldMore(h, front, w, i);
      WordsWithMore(front, w, i);
    }
  }

  /** Bit i of the hash is bit i of the number of members, flipped if an odd number of words have
      bit i. */
  lemma HashBit(b: seq<Word>, i: nat)
    requires i < 64 && |Members(b)| < Pow2(64)
    ensures NumberOf(Bits(|Members(b)|, 64)) == |Members(b)|
    ensures HashOf(b)[i] == (Bits(|Members(b)|, 64)[i] != Odd(|WordsWith(b, i)|))
  {
    BitsStandFor(|Members(b)|, 64);
    FoldBit(ToWord(|Members(b)|), b, i);
  }

  /** Bitsets of one length are equal exactly when they hold the same numbers. */
  lemma SameMembers(b: seq<Word>, c: seq<Word>)
    requires |b| == |c|
    ensures b == c <==> Members(b) == Members(c)
  {
    if Members(b) == Members(c) {
      forall k | 0 <= k < |b| ensures b[k] == c[k] {
        forall i | 0 <= i < 64 ensures b[k][i] == c[k][i] {
          var pos := 64 * k + i;
          assert pos / 64 == k && pos % 64 == i;
          assert pos in Members(b) <==> pos in Members(c);
        }
      }
    }
  }

  method Equals(b: array<Word>, c: seq<Word>) returns (r: bool)
    ensures r <==> b[..] == c
    ensures b.Length == |c| ==> (r <==> Members(b[..]) == Members(c))
  {
    if b.Length == |c| {
      SameMembers(b[..], c);
    }
    if b.Length != |c| {
      return false;
    }
    for i := 0 to b.Length
      invariant b[..i] == c[..i]
    {
      if b[i] != c[i] {
        return false;
      }
    }
    assert b[..] == b[..b.Length] && c == c[..|c|];
    return true;
  }
}
