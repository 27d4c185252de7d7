/** The primitives np1sec takes from libgcrypt, as parameters, and the triple Diffie-Hellman built on them. */
module Crypto {
  import opened Bytes

  const SIGNATURE_LENGTH := 64
  const POINT_LENGTH := 65

  /** A key pair is named by its public half: `dh(a, b)` is the point made from the secret half of `a`
      and the public half of `b`; `sign(a, m)` uses the secret half of `a`; `encrypt(k, m)` and
      `decrypt(k, c)` use the symmetric key `k`. */
  datatype Primitives = Primitives(
    hash: Bytes -> Bytes,
    dh: (Bytes, Bytes) -> Bytes,
    sign: (Bytes, Bytes) -> Bytes,
    encrypt: (Bytes, Bytes) -> Bytes,
    decrypt: (Bytes, Bytes) -> Bytes)

  /** What the code relies on: digest, point and signature lengths, a commutative Diffie-Hellman,
      and decryption undoing encryption. */
  ghost predicate Sound(p: Primitives) {
    && (forall m :: |p.hash(m)| == HASH_LENGTH)
    && (forall a, b :: |p.dh(a, b)| == POINT_LENGTH && p.dh(a, b) == p.dh(b, a))
    && (forall a, m :: |p.sign(a, m)| == SIGNATURE_LENGTH)
    && (forall k, m :: p.decrypt(k, p.encrypt(k, m)) == m)
  }

  ghost const EXAMPLE: Primitives := Primitives(
    m => ZERO,
    (a, b) => seq(POINT_LENGTH, _ => 0),
    (a, m) => seq(SIGNATURE_LENGTH, _ => 0),
    (k, m) => m,
    (k, c) => c)

  type Suite = p: Primitives | Sound(p) ghost witness EXAMPLE

  function Hash(su: Suite, m: Bytes): (h: Block) {
    su.hash(m)
  }

  // ---------- triple Diffie-Hellman ----------

  /** The three points in the order they are hashed. `peerFirst` says whose long-term key sorts first. */
  function Slots(su: Suite, myLongTerm: Bytes, myEphemeral: Bytes, peerLongTerm: Bytes, peerEphemeral: Bytes,
                 peerFirst: bool): (slots: (Bytes, Bytes, Bytes))
    ensures |slots.0| == |slots.1| == |slots.2| == POINT_LENGTH
  {
    var mineToTheirIdentity := su.dh(myEphemeral, peerLongTerm);
    var identityToTheirs := su.dh(myLongTerm, peerEphemeral);
    var ephemerals := su.dh(myEphemeral, peerEphemeral);
    if peerFirst then (mineToTheirIdentity, identityToTheirs, ephemerals)
    else (identityToTheirs, mineToTheirIdentity, ephemerals)
  }

  /** The slots as compute_p2p_private asks for them. */
  function PairSlots(su: Suite, myLongTerm: Bytes, myEphemeral: Bytes, peerLongTerm: Bytes, peerEphemeral: Bytes)
    : (Bytes, Bytes, Bytes)
  {
    Slots(su, myLongTerm, myEphemeral, peerLongTerm, peerEphemeral, Less(peerLongTerm, myLongTerm))
  }

  /** The pairwise key one end computes. */
  function PairKey(su: Suite, myLongTerm: Bytes, myEphemeral: Bytes, peerLongTerm: Bytes, peerEphemeral: Bytes): Block {
    var slots := PairSlots(su, myLongTerm, myEphemeral, peerLongTerm, peerEphemeral);
    Hash(su, slots.0 + slots.1 + slots.2)
  }

  /** `triple_ed_dh` as a loop over slot and byte buffers: writes the three points at their places. */
  method TripleDh(su: Suite, myLongTerm: Bytes, myEphemeral: Bytes, peerLongTerm: Bytes, peerEphemeral: Bytes,
                  peerFirst: bool) returns (token: Block)
    ensures var s := Slots(su, myLongTerm, myEphemeral, peerLongTerm, peerEphemeral, peerFirst);
            token == Hash(su, s.0 + s.1 + s.2)
  {
    var points := new Bytes[3](_ => []);
    points[if peerFirst then 0 else 1] := su.dh(myEphemeral, peerLongTerm);
    points[if peerFirst then 1 else 0] := su.dh(myLongTerm, peerEphemeral);
    points[2] := su.dh(myEphemeral, peerEphemeral);
    ghost var s := Slots(su, myLongTerm, myEphemeral, peerLongTerm, peerEphemeral, peerFirst);
    ghost var prefixes := [[], s.0, s.0 + s.1, s.0 + s.1 + s.2];
    var buffer: array<Byte> := new Byte[3 * POINT_LENGTH](_ => 0);
    for i := 0 to 3
      invariant points[0] == s.0 && points[1] == s.1 && points[2] == s.2
      invariant buffer[..i * POINT_LENGTH] == prefixes[i]
    {
      CopyInto(buffer, i * POINT_LENGTH, points[i]);
      assert buffer[..(i + 1) * POINT_LENGTH] == prefixes[i] + points[i];
    }
    assert buffer[..] == buffer[..3 * POINT_LENGTH];
    token := Hash(su, buffer[..]);
  }

  /** The two ends hash the same ordered triple unless they share a long-term key. */
  lemma PairSlotsSymmetric(su: Suite, longTerm1: Bytes, ephemeral1: Bytes, longTerm2: Bytes, ephemeral2: Bytes)
    requires longTerm1 != longTerm2 || ephemeral1 == ephemeral2
    ensures PairSlots(su, longTerm1, ephemeral1, longTerm2, ephemeral2)
         == PairSlots(su, longTerm2, ephemeral2, longTerm1, ephemeral1)
    ensures PairKey(su, longTerm1, ephemeral1, longTerm2, ephemeral2)
         == PairKey(su, longTerm2, ephemeral2, longTerm1, ephemeral1)
  {
    LessTrichotomy(longTerm1, longTerm2);
  }

  /** What both ends hash: first the point of the smaller long-term key with the other end's ephemeral key, next the
      point of the greater one with the ephemeral key of the smaller one's owner, last that of the ephemeral keys. */
  lemma PairKeyMeans(su: Suite, low: Bytes, lowEphemeral: Bytes, high: Bytes, highEphemeral: Bytes)
    requires Less(low, high)
    ensures PairKey(su, low, lowEphemeral, high, highEphemeral)
         == PairKey(su, high, highEphemeral, low, lowEphemeral)
         == Hash(su, su.dh(low, highEphemeral) + su.dh(high, lowEphemeral) + su.dh(lowEphemeral, highEphemeral))
  {
    LessTrichotomy(low, high);
  }

  /** The exact condition, whatever the Diffie-Hellman: the triples agree if and only if the long-term keys differ
      or the common long-term key makes one point with both ephemeral keys. */
  lemma PairSlotsSymmetricIff(su: Suite, longTerm1: Bytes, ephemeral1: Bytes, longTerm2: Bytes, ephemeral2: Bytes)
    ensures PairSlots(su, longTerm1, ephemeral1, longTerm2, ephemeral2)
         == PairSlots(su, longTerm2, ephemeral2, longTerm1, ephemeral1)
       <==> longTerm1 != longTerm2 || su.dh(longTerm1, ephemeral1) == su.dh(longTerm1, ephemeral2)
  {
    LessTrichotomy(longTerm1, longTerm2);
    var there := PairSlots(su, longTerm1, ephemeral1, longTerm2, ephemeral2);
    var back := PairSlots(su, longTerm2, ephemeral2, longTerm1, ephemeral1);
    assert there.2 == back.2;
    if longTerm1 != longTerm2 {
      PairSlotsSymmetric(su, longTerm1, ephemeral1, longTerm2, ephemeral2);
    } else {
      assert there.0 == su.dh(longTerm1, ephemeral2) && back.0 == su.dh(longTerm1, ephemeral1);
      assert there.1 == su.dh(ephemeral1, longTerm1) && back.1 == su.dh(ephemeral2, longTerm1);
    }
  }

  /** One secret half makes different points with different public halves, as in a group of prime order. */
  ghost predicate Cancels(su: Suite) {
    forall a: Block, b: Block, c: Block :: su.dh(a, b) == su.dh(a, c) ==> b == c
  }

  /** Where it does, two ends sharing a long-term key agree only if they share the ephemeral key as well. */
  lemma SharedLongTermKey(su: Suite, longTerm: Block, ephemeral1: Block, ephemeral2: Block)
    requires Cancels(su)
    ensures PairSlots(su, longTerm, ephemeral1, longTerm, ephemeral2)
         == PairSlots(su, longTerm, ephemeral2, longTerm, ephemeral1)
       <==> ephemeral1 == ephemeral2
  {
    hide PairSlots;
    PairSlotsSymmetricIff(su, longTerm, ephemeral1, longTerm, ephemeral2);
  }

  /** The XOR of two keys in place of their product: commutative, and it cancels. */
  function XorDh(a: Bytes, b: Bytes): (p: Bytes)
    ensures |p| == POINT_LENGTH
  {
    (if |a| == HASH_LENGTH && |b| == HASH_LENGTH then XorBlock(a, b) else ZERO)
    + seq(POINT_LENGTH - HASH_LENGTH, _ => 0)
  }

  lemma XorDhCommutes(a: Bytes, b: Bytes)
    ensures XorDh(a, b) == XorDh(b, a)
  {
    if |a| == HASH_LENGTH && |b| == HASH_LENGTH {
      BlockCommutes(a, b);
    }
  }

  /** The assumption can be met. */
  lemma CancellationCanHold()
    ensures exists su: Suite :: Cancels(su)
  {
    hide XorBlock;
    var p: Primitives := EXAMPLE.(dh := XorDh);
    forall a, b ensures |p.dh(a, b)| == POINT_LENGTH && p.dh(a, b) == p.dh(b, a) {
      XorDhCommutes(a, b);
    }
    var su: Suite := p;
    forall a: Block, b: Block, c: Block | su.dh(a, b) == su.dh(a, c) ensures b == c {
      assert XorDh(a, b)[..HASH_LENGTH] == XorBlock(a, b) && XorDh(a, c)[..HASH_LENGTH] == XorBlock(a, c);
      BlockInjective(a, b, c);
    }
    assert Cancels(su);
  }
}
