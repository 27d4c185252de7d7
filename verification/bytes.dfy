/** Bytes, 32-byte blocks with their XOR, and the byte order std::string uses. */
module Bytes {

  type Byte = x: int | 0 <= x < 256
  type Bytes = seq<Byte>

  const HASH_LENGTH := 32

  /** A HashBlock: key shares, digests and curve points are all this long. */
  type Block = b: Bytes | |b| == HASH_LENGTH witness seq(HASH_LENGTH, _ => 0)

  const ZERO: Block := Zeros()

  function Zeros(): Block {
    seq(HASH_LENGTH, _ => 0)
  }

  datatype Option<+T> = None | Some(value: T)

  // ---------- XOR of bytes, through their binary digits ----------

  function Pow2(k: nat): (p: nat)
    ensures p > 0
  {
    if k == 0 then 1 else 2 * Pow2(k - 1)
  }

  /** The k low binary digits of a, least significant first. */
  function ToBits(k: nat, a: nat): (s: seq<bool>)
    ensures |s| == k
  {
    if k == 0 then [] else [a % 2 == 1] + ToBits(k - 1, a / 2)
  }

  function FromBits(s: seq<bool>): (a: nat)
    ensures a < Pow2(|s|)
  {
    if |s| == 0 then 0 else (if s[0] then 1 else 0) + 2 * FromBits(s[1..])
  }

  function XorBits(s: seq<bool>, t: seq<bool>): (r: seq<bool>)
    requires |s| == |t|
    ensures |r| == |s|
  {
    seq(|s|, i requires 0 <= i < |s| => s[i] != t[i])
  }

  lemma {:induction false} BitsRoundTrip(s: seq<bool>)
    ensures ToBits(|s|, FromBits(s)) == s
  {
    if |s| > 0 {
      BitsRoundTrip(s[1..]);
    }
  }

  lemma {:induction false} ValueRoundTrip(k: nat, a: nat)
    requires a < Pow2(k)
    ensures FromBits(ToBits(k, a)) == a
  {
    if k > 0 {
      ValueRoundTrip(k - 1, a / 2);
      assert ToBits(k, a)[1..] == ToBits(k - 1, a / 2);
    }
  }

  lemma {:induction false} ZeroBits(k: nat)
    ensures ToBits(k, 0) == seq(k, _ => false)
  {
    if k > 0 {
      ZeroBits(k - 1);
    }
  }

  lemma Pow2Of8()
    ensures Pow2(8) == 256
  {}

  /** The `^` of two unsigned bytes. */
  function Xor(a: Byte, b: Byte): Byte {
    Pow2Of8();
    FromBits(XorBits(ToBits(8, a), ToBits(8, b)))
  }

  lemma XorCommutes(a: Byte, b: Byte)
    ensures Xor(a, b) == Xor(b, a)
  {
    assert XorBits(ToBits(8, a), ToBits(8, b)) == XorBits(ToBits(8, b), ToBits(8, a));
  }

  lemma XorAssociates(a: Byte, b: Byte, c: Byte)
    ensures Xor(Xor(a, b), c) == Xor(a, Xor(b, c))
  {
    var x, y, z := ToBits(8, a), ToBits(8, b), ToBits(8, c);
    BitsRoundTrip(XorBits(x, y));
    BitsRoundTrip(XorBits(y, z));
    assert XorBits(XorBits(x, y), z) == XorBits(x, XorBits(y, z));
  }

  lemma XorSelf(a: Byte)
    ensures Xor(a, a) == 0
  {
    ZeroBits(8);
    assert XorBits(ToBits(8, a), ToBits(8, a)) == ToBits(8, 0);
    Pow2Of8();
    ValueRoundTrip(8, 0);
  }

  lemma XorZero(a: Byte)
    ensures Xor(a, 0) == a
  {
    Pow2Of8();
    ZeroBits(8);
    ValueRoundTrip(8, a);
    assert XorBits(ToBits(8, a), ToBits(8, 0)) == ToBits(8, a);
  }

  // ---------- XOR of blocks: a commutative group in which everything is its own inverse ----------

  function XorBlock(a: Block, b: Block): Block {
    seq(HASH_LENGTH, i requires 0 <= i < HASH_LENGTH => Xor(a[i], b[i]))
  }

  lemma BlockCommutes(a: Block, b: Block)
    ensures XorBlock(a, b) == XorBlock(b, a)
  {
    forall i | 0 <= i < HASH_LENGTH ensures XorBlock(a, b)[i] == XorBlock(b, a)[i] {
      XorCommutes(a[i], b[i]);
    }
  }

  lemma BlockAssociates(a: Block, b: Block, c: Block)
    ensures XorBlock(XorBlock(a, b), c) == XorBlock(a, XorBlock(b, c))
  {
    var l, r := XorBlock(XorBlock(a, b), c), XorBlock(a, XorBlock(b, c));
    forall i | 0 <= i < HASH_LENGTH ensures l[i] == r[i] {
      XorAssociates(a[i], b[i], c[i]);
    }
  }

  lemma BlockSelf(a: Block)
    ensures XorBlock(a, a) == ZERO
  {
    forall i | 0 <= i < HASH_LENGTH ensures XorBlock(a, a)[i] == 0 {
      XorSelf(a[i]);
    }
  }

  lemma BlockZero(a: Block)
    ensures XorBlock(a, ZERO) == a && XorBlock(ZERO, a) == a
  {
    forall i | 0 <= i < HASH_LENGTH ensures XorBlock(a, ZERO)[i] == a[i] {
      XorZero(a[i]);
    }
    BlockCommutes(a, ZERO);
  }

  lemma BlockCancel(a: Block, b: Block)
    ensures XorBlock(a, XorBlock(a, b)) == b
    ensures XorBlock(XorBlock(b, a), a) == b
  {
    BlockAssociates(a, a, b);
    BlockAssociates(b, a, a);
    BlockSelf(a);
    BlockZero(b);
  }

  lemma BlockInjective(a: Block, b: Block, c: Block)
    requires XorBlock(a, b) == XorBlock(a, c)
    ensures b == c
  {
    BlockCancel(a, b);
    BlockCancel(a, c);
  }

  /** XORs b into the buffer, byte by byte. */
  method XorInto(buffer: array<Byte>, b: Block)
    requires buffer.Length == HASH_LENGTH
    modifies buffer
    ensures buffer[..] == XorBlock(old(buffer[..]), b)
  {
    for i := 0 to HASH_LENGTH
      invariant forall k :: 0 <= k < i ==> buffer[k] == Xor(old(buffer[k]), b[k])
      invariant forall k :: i <= k < HASH_LENGTH ==> buffer[k] == old(buffer[k])
    {
      buffer[i] := Xor(buffer[i], b[i]);
    }
  }

  /** memcpy into a buffer. */
  method CopyInto(buffer: array<Byte>, offset: nat, s: Bytes)
    requires offset + |s| <= buffer.Length
    modifies buffer
    ensures buffer[..offset + |s|] == old(buffer[..offset]) + s
    ensures buffer[offset + |s|..] == old(buffer[offset + |s|..])
  {
    for i := 0 to |s|
      invariant buffer[..offset] == old(buffer[..offset])
      invariant buffer[offset..offset + i] == s[..i]
      invariant buffer[offset + |s|..] == old(buffer[offset + |s|..])
    {
      buffer[offset + i] := s[i];
      assert buffer[offset..offset + i + 1] == buffer[offset..offset + i] + [s[i]];
    }
    assert s[..|s|] == s;
    assert buffer[..offset + |s|] == buffer[..offset] + buffer[offset..offset + |s|];
  }

  // ---------- the order of std::string, and the keys of a std::map in order ----------

  /** operator< of std::string: bytewise, unsigned, a proper prefix comes first. */
  predicate Less(a: Bytes, b: Bytes) {
    if |b| == 0 then false
    else if |a| == 0 then true
    else a[0] < b[0] || (a[0] == b[0] && Less(a[1..], b[1..]))
  }

  lemma {:induction false} LessTrichotomy(a: Bytes, b: Bytes)
    ensures Less(a, b) || a == b || Less(b, a)
    ensures !(Less(a, b) && Less(b, a))
    ensures !Less(a, a)
  {
    if |a| > 0 {
      LessTrichotomy(a[1..], if |b| > 0 then b[1..] else []);
      if |b| > 0 && a[0] == b[0] && a[1..] == b[1..] {
        assert a == [a[0]] + a[1..] && b == [b[0]] + b[1..];
      }
    }
  }

  lemma {:induction false} LessTransitive(a: Bytes, b: Bytes, c: Bytes)
    requires Less(a, b) && Less(b, c)
    ensures Less(a, c)
  {
    if |a| > 0 && a[0] == b[0] == c[0] {
      LessTransitive(a[1..], b[1..], c[1..]);
    }
  }

  ghost predicate Ascending(s: seq<Bytes>) {
    forall i, j :: 0 <= i < j < |s| ==> Less(s[i], s[j])
  }

  predicate IsFirst(m: Bytes, s: set<Bytes>) {
    m in s && forall x :: x in s ==> x == m || Less(m, x)
  }

  lemma {:induction false} FirstExists(s: set<Bytes>)
    requires s != {}
    ensures exists m :: IsFirst(m, s)
    decreases s
  {
    var x :| x in s;
    if s - {x} == {} {
      assert IsFirst(x, s) by {
        forall y | y in s ensures y == x {
          assert y !in s - {x};
        }
      }
    } else {
      FirstExists(s - {x});
      var m :| IsFirst(m, s - {x});
      LessTrichotomy(m, x);
      if Less(m, x) {
        assert IsFirst(m, s);
      } else {
        forall y | y in s && y != x ensures Less(x, y) {
          assert y in s - {x};
          if y != m {
            LessTransitive(x, m, y);
          }
        }
        assert IsFirst(x, s);
      }
    }
  }

  lemma FirstUnique(a: Bytes, b: Bytes, s: set<Bytes>)
    requires IsFirst(a, s) && IsFirst(b, s)
    ensures a == b
  {
    LessTrichotomy(a, b);
  }

  function First(s: set<Bytes>): (m: Bytes)
    requires s != {}
    ensures IsFirst(m, s)
  {
    FirstExists(s);
    assert forall a, b | IsFirst(a, s) && IsFirst(b, s) :: a == b by {
      forall a, b | IsFirst(a, s) && IsFirst(b, s) ensures a == b {
        FirstUnique(a, b, s);
      }
    }
    var m :| IsFirst(m, s);
    m
  }

  /** The keys of a std::map in iteration order. */
  function Sorted(s: set<Bytes>): (q: seq<Bytes>)
    ensures forall x :: x in q <==> x in s
    ensures |q| == |s|
    decreases s
  {
    if s == {} then [] else [First(s)] + Sorted(s - {First(s)})
  }

  lemma {:induction false} SortedAscending(s: set<Bytes>)
    ensures Ascending(Sorted(s))
    decreases s
  {
    if s != {} {
      var rest := Sorted(s - {First(s)});
      SortedAscending(s - {First(s)});
      assert forall j :: 0 <= j < |rest| ==> rest[j] in rest;
    }
  }

  lemma HasFirst(q: seq<Bytes>)
    ensures |q| > 0 ==> q[0] in q
  {}

  lemma {:induction false} AscendingUnique(p: seq<Bytes>, q: seq<Bytes>)
    requires Ascending(p) && Ascending(q)
    requires forall x :: x in p <==> x in q
    ensures p == q
  {
    if |p| == 0 {
      HasFirst(q);
    } else {
      assert p[0] in q && q != [] && q[0] in p;
      var i :| 0 <= i < |q| && q[i] == p[0];
      var j :| 0 <= j < |p| && p[j] == q[0];
      LessTrichotomy(p[0], q[0]);
      assert p[0] == q[0];
      forall x ensures x in p[1..] <==> x in q[1..] {
        if x in p[1..] {
          var k :| 1 <= k < |p| && p[k] == x;
          LessTrichotomy(x, p[0]);
          assert x in q;
        }
        if x in q[1..] {
          var k :| 1 <= k < |q| && q[k] == x;
          LessTrichotomy(x, q[0]);
          assert x in p;
        }
      }
      AscendingUnique(p[1..], q[1..]);
      assert p == [p[0]] + p[1..] && q == [q[0]] + q[1..];
    }
  }

  lemma SortedDistinct(s: set<Bytes>, i: nat, j: nat)
    requires i < j < |s|
    ensures Sorted(s)[i] != Sorted(s)[j]
  {
    SortedAscending(s);
    LessTrichotomy(Sorted(s)[i], Sorted(s)[j]);
  }

  /** Where x stands in s. */
  function IndexOf(s: seq<Bytes>, x: Bytes): (i: nat)
    requires x in s
    ensures i < |s| && s[i] == x
  {
    if s[0] == x then 0 else 1 + IndexOf(s[1..], x)
  }

  lemma SortedIndex(s: set<Bytes>, i: nat)
    requires i < |s|
    ensures IndexOf(Sorted(s), Sorted(s)[i]) == i
  {
    var k := IndexOf(Sorted(s), Sorted(s)[i]);
    if k != i {
      SortedDistinct(s, if k < i then k else i, if k < i then i else k);
    }
  }

  // ---------- little-endian integers ----------

  /** An integer truncated to `width` bytes, as its memory image on a little-endian machine. */
  function LittleEndian(width: nat, n: nat): (s: Bytes)
    ensures |s| == width
  {
    if width == 0 then [] else [n % 256] + LittleEndian(width - 1, n / 256)
  }

  function FromLittleEndian(s: Bytes): (n: nat) {
    if |s| == 0 then 0 else s[0] + 256 * FromLittleEndian(s[1..])
  }

  function Pow256(k: nat): (p: nat)
    ensures p > 0
  {
    if k == 0 then 1 else 256 * Pow256(k - 1)
  }

  lemma {:induction false} LittleEndianRoundTrip(width: nat, n: nat)
    requires n < Pow256(width)
    ensures FromLittleEndian(LittleEndian(width, n)) == n
  {
    if width > 0 {
      LittleEndianRoundTrip(width - 1, n / 256);
      assert LittleEndian(width, n)[1..] == LittleEndian(width - 1, n / 256);
    }
  }

  lemma Pow256Values()
    ensures Pow256(1) == 256 && Pow256(2) == 0x1_0000 && Pow256(4) == 0x1_0000_0000
  {}

  lemma {:induction false} FromLittleEndianBound(s: Bytes)
    ensures FromLittleEndian(s) < Pow256(|s|)
  {
    if s != [] {
      FromLittleEndianBound(s[1..]);
    }
  }

  /** The bytes of a number are the only ones of their length that read as it. */
  lemma LittleEndianOf(s: Bytes)
    ensures LittleEndian(|s|, FromLittleEndian(s)) == s
  {
    FromLittleEndianBound(s);
    LittleEndianRoundTrip(|s|, FromLittleEndian(s));
    FromLittleEndianInjective(LittleEndian(|s|, FromLittleEndian(s)), s);
  }

  lemma {:induction false} FromLittleEndianInjective(s: Bytes, t: Bytes)
    requires |s| == |t| && FromLittleEndian(s) == FromLittleEndian(t)
    ensures s == t
  {
    if s != [] {
      assert s[0] == FromLittleEndian(s) % 256 && t[0] == FromLittleEndian(t) % 256;
      FromLittleEndianInjective(s[1..], t[1..]);
      assert s == [s[0]] + s[1..] && t == [t[0]] + t[1..];
    }
  }

  function Elements(q: seq<nat>): set<nat> {
    set x | x in q
  }

  function Below(n: nat): (s: set<nat>)
    ensures forall k: nat :: k in s <==> k < n
  {
    if n == 0 then {} else Below(n - 1) + {n - 1}
  }

  /** More numbers below n than n: two of them are the same. */
  lemma Pigeonhole(q: seq<nat>, n: nat) returns (i: nat, j: nat)
    requires |q| > n && forall k :: 0 <= k < |q| ==> q[k] < n
    ensures i < j < |q| && q[i] == q[j]
  {
    if forall k, l :: 0 <= k < l < |q| ==> q[k] != q[l] {
      DistinctMany(q);
      var all := Below(n);
      BelowMany(n);
      assert Elements(q) <= all;
      FewerElements(Elements(q), all);
      assert false;
    }
    i, j :| 0 <= i < j < |q| && q[i] == q[j];
  }

  lemma {:induction false} DistinctMany(q: seq<nat>)
    requires forall k, l :: 0 <= k < l < |q| ==> q[k] != q[l]
    ensures |Elements(q)| == |q|
  {
    if q != [] {
      var front, last := q[..|q| - 1], q[|q| - 1];
      DistinctMany(front);
      assert Elements(q) == Elements(front) + {last};
    }
  }

  lemma {:induction false} BelowMany(n: nat)
    ensures |Below(n)| == n
  {
    if n > 0 {
      BelowMany(n - 1);
    }
  }

  lemma FewerElements<T>(a: set<T>, b: set<T>)
    requires a <= b
    ensures |a| <= |b|
  {
    assert b == a + (b - a);
  }
}
