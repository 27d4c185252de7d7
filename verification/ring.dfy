/** The group key on the ring of peers: every member publishes the XOR of its right and left pairwise
    secrets, and rebuilds all pairwise secrets by walking the ring from its own right secret.
    `secrets[i]` is the pairwise secret of peers i and i+1, `shares[i]` what peer i published. */
module Ring {
  import opened Bytes

  /** i modulo n, for positions at most once around. */
  function Wrap(i: nat, n: nat): (w: nat)
    requires 0 < n && i < 2 * n
    ensures w < n && (w == i || w == i - n)
  {
    if i < n then i else i - n
  }

  lemma WrapIsModulo(i: nat, n: nat)
    requires 0 < n && i < 2 * n
    ensures Wrap(i, n) == i % n
  {}

  function Next(i: nat, n: nat): nat
    requires i < n
  {
    Wrap(i + 1, n)
  }

  function Previous(i: nat, n: nat): nat
    requires i < n
  {
    Wrap(i + n - 1, n)
  }

  /** How many steps to the right lead from `from` to `to`. */
  function Distance(from: nat, to: nat, n: nat): (d: nat)
    requires from < n && to < n
    ensures d < n && Wrap(from + d, n) == to
  {
    if to >= from then to - from else to + n - from
  }

  /** The XOR of `count` consecutive shares, from `start` to the right. */
  function Sum(shares: seq<Block>, start: nat, count: nat): Block
    requires start < |shares| && count <= |shares|
  {
    if count == 0 then ZERO
    else XorBlock(Sum(shares, start, count - 1), shares[Wrap(start + count - 1, |shares|)])
  }

  /** What member `me` holds for the secret at `position` after walking from its right secret. */
  function Reached(first: Block, shares: seq<Block>, me: nat, position: nat): Block
    requires me < |shares| && position < |shares|
  {
    XorBlock(first, Sum(shares, Next(me, |shares|), Distance(me, position, |shares|)))
  }

  /** The array `all_r` of member `me`, before the session id is appended. */
  function Walk(first: Block, shares: seq<Block>, me: nat): (all: seq<Block>)
    requires me < |shares|
    ensures |all| == |shares|
    ensures forall p :: 0 <= p < |shares| ==> all[p] == Reached(first, shares, me, p)
  {
    seq(|shares|, p requires 0 <= p < |shares| => Reached(first, shares, me, p))
  }

  /** The share a truthful peer i publishes. */
  function TrueShare(secrets: seq<Block>, i: nat): Block
    requires i < |secrets|
  {
    XorBlock(secrets[i], secrets[Previous(i, |secrets|)])
  }

  function TrueShares(secrets: seq<Block>): (shares: seq<Block>)
    ensures |shares| == |secrets|
    ensures forall i :: 0 <= i < |secrets| ==> shares[i] == TrueShare(secrets, i)
  {
    seq(|secrets|, i requires 0 <= i < |secrets| => TrueShare(secrets, i))
  }

  /** The XOR of every published share. */
  function Total(shares: seq<Block>): Block
    requires |shares| > 0
  {
    Sum(shares, 0, |shares|)
  }

  /** `group_enc`: the right secret XORed in place with the left one. */
  method GroupEnc(right: Block, left: Block) returns (share: Block)
    ensures share == XorBlock(right, left)
  {
    var hbr := new Byte[HASH_LENGTH](i requires 0 <= i < HASH_LENGTH => right[i]);
    assert hbr[..] == right;
    XorInto(hbr, left);
    share := hbr[..];
  }

  /** The loop of `group_dec`: fills the array of secrets, XORing one share per step into `hbr`. */
  method GroupDec(right: Block, shares: seq<Block>, me: nat) returns (all: seq<Block>)
    requires me < |shares|
    ensures all == Walk(right, shares, me)
  {
    hide XorBlock;
    var n := |shares|;
    var hbr := new Byte[HASH_LENGTH](i requires 0 <= i < HASH_LENGTH => right[i]);
    assert hbr[..] == right;
    BlockZero(right);
    var allR := new Block[n](_ => ZERO);
    for counter := 0 to n
      invariant hbr[..] == XorBlock(right, Sum(shares, Next(me, n), counter))
      invariant forall p :: 0 <= p < n && Distance(me, p, n) < counter ==> Filled(allR[..], right, shares, me, p)
    {
      WrapIsModulo(me + counter, n);
      var current := (me + counter) % n;
      WrapIsModulo(current + 1, n);
      var onTheRight := (current + 1) % n;
      allR[current] := hbr[..];
      assert Distance(me, current, n) == counter;
      BlockAssociates(right, Sum(shares, Next(me, n), counter), shares[onTheRight]);
      XorInto(hbr, shares[onTheRight]);
      assert onTheRight == Wrap(Next(me, n) + counter, n);
      assert Sum(shares, Next(me, n), counter + 1) == XorBlock(Sum(shares, Next(me, n), counter), shares[onTheRight]);
    }
    all := allR[..];
    forall p | 0 <= p < n ensures all[p] == Walk(right, shares, me)[p] {
      assert Filled(all, right, shares, me, p);
    }
  }

  ghost predicate Filled(all: seq<Block>, right: Block, shares: seq<Block>, me: nat, p: nat)
    requires me < |shares|
  {
    p < |shares| == |all| && all[p] == Reached(right, shares, me, p)
  }

  // ---------- agreement ----------

  lemma {:induction false} Telescopes(secrets: seq<Block>, shares: seq<Block>, me: nat, steps: nat)
    requires me < |secrets| == |shares| && steps < |secrets|
    requires forall i :: 0 <= i < |shares| && i != me ==> shares[i] == TrueShare(secrets, i)
    ensures XorBlock(secrets[me], Sum(shares, Next(me, |shares|), steps)) == secrets[Wrap(me + steps, |shares|)]
  {
    hide XorBlock;
    var n := |shares|;
    BlockZero(secrets[me]);
    if steps > 0 {
      Telescopes(secrets, shares, me, steps - 1);
      var before, here := Wrap(me + steps - 1, n), Wrap(me + steps, n);
      assert here == Wrap(Next(me, n) + steps - 1, n) && here != me && Previous(here, n) == before;
      BlockAssociates(secrets[me], Sum(shares, Next(me, n), steps - 1), shares[here]);
      BlockCommutes(secrets[here], secrets[before]);
      BlockCancel(secrets[before], secrets[here]);
    }
  }

  /** Ring agreement: with truthful shares of the others, the walk rebuilds every pairwise secret. */
  lemma RingAgreement(secrets: seq<Block>, shares: seq<Block>, me: nat)
    requires me < |secrets| == |shares|
    requires forall i :: 0 <= i < |shares| && i != me ==> shares[i] == TrueShare(secrets, i)
    ensures Walk(secrets[me], shares, me) == secrets
  {
    hide XorBlock, Sum;
    var n := |shares|;
    forall p | 0 <= p < n ensures Walk(secrets[me], shares, me)[p] == secrets[p] {
      Telescopes(secrets, shares, me, Distance(me, p, n));
    }
  }

  /** One step of the walk to the right adds exactly the share found there. */
  lemma WalkStep(first: Block, shares: seq<Block>, me: nat, p: nat)
    requires me < |shares| && p < |shares| && p != me
    ensures Reached(first, shares, me, p)
         == XorBlock(Reached(first, shares, me, Previous(p, |shares|)), shares[p])
  {
    hide XorBlock;
    var n := |shares|;
    var d := Distance(me, p, n);
    assert Distance(me, Previous(p, n), n) == d - 1;
    assert Wrap(Next(me, n) + d - 1, n) == p;
    BlockAssociates(first, Sum(shares, Next(me, n), d - 1), shares[p]);
  }

  /** The walk is right if and only if every other member's recorded share was truthful: one stale or
      wrong share is enough to spoil the key, and the member's own share never matters. */
  lemma WalkExactIff(secrets: seq<Block>, shares: seq<Block>, me: nat)
    requires me < |secrets| == |shares|
    ensures Walk(secrets[me], shares, me) == secrets
       <==> forall i :: 0 <= i < |shares| && i != me ==> shares[i] == TrueShare(secrets, i)
  {
    hide XorBlock, Sum;
    var n := |shares|;
    var all := Walk(secrets[me], shares, me);
    if all == secrets {
      forall i | 0 <= i < n && i != me ensures shares[i] == TrueShare(secrets, i) {
        WalkStep(secrets[me], shares, me, i);
        var before := Previous(i, n);
        assert all[i] == XorBlock(all[before], shares[i]);
        BlockCancel(secrets[before], shares[i]);
        BlockCommutes(secrets[i], secrets[before]);
      }
    } else if forall i :: 0 <= i < n && i != me ==> shares[i] == TrueShare(secrets, i) {
      RingAgreement(secrets, shares, me);
    }
  }

  // ---------- what any two equal walks say about the shares ----------

  lemma {:induction false} SumSplits(shares: seq<Block>, start: nat, a: nat, b: nat)
    requires start < |shares| && a + b <= |shares|
    ensures Sum(shares, start, a + b)
         == XorBlock(Sum(shares, start, a), Sum(shares, Wrap(start + a, |shares|), b))
  {
    hide XorBlock;
    var n := |shares|;
    var middle := Wrap(start + a, n);
    if b == 0 {
      BlockZero(Sum(shares, start, a));
    } else {
      SumSplits(shares, start, a, b - 1);
      assert Wrap(start + (a + b) - 1, n) == Wrap(middle + b - 1, n);
      BlockAssociates(Sum(shares, start, a), Sum(shares, middle, b - 1), shares[Wrap(middle + b - 1, n)]);
    }
  }

  /** A full turn gives the total, wherever it starts. */
  lemma FullTurn(shares: seq<Block>, start: nat)
    requires start < |shares|
    ensures Sum(shares, start, |shares|) == Total(shares)
  {
    hide XorBlock;
    var n := |shares|;
    SumSplits(shares, start, n - start, start);
    SumSplits(shares, 0, start, n - start);
    BlockCommutes(Sum(shares, start, n - start), Sum(shares, 0, start));
  }

  /** The arc from one member to another and the arc back make a full turn. */
  lemma ArcsMakeTotal(shares: seq<Block>, i: nat, j: nat)
    requires i < |shares| && j < |shares| && i != j
    ensures XorBlock(Sum(shares, Next(i, |shares|), Distance(i, j, |shares|)),
                     Sum(shares, Next(j, |shares|), Distance(j, i, |shares|))) == Total(shares)
  {
    hide XorBlock, Sum;
    var n := |shares|;
    assert Distance(i, j, n) + Distance(j, i, n) == n;
    assert Wrap(Next(i, n) + Distance(i, j, n), n) == Next(j, n);
    SumSplits(shares, Next(i, n), Distance(i, j, n), Distance(j, i, n));
    FullTurn(shares, Next(i, n));
  }

  /** When the two walks meet in both starting points they agree everywhere. */
  lemma WalksMeet(first1: Block, i: nat, first2: Block, j: nat, shares: seq<Block>, p: nat)
    requires i < |shares| && j < |shares| && p < |shares| && i != j
    requires Reached(first1, shares, i, j) == first2
    requires Reached(first2, shares, j, i) == first1
    ensures Reached(first1, shares, i, p) == Reached(first2, shares, j, p)
  {
    hide XorBlock, Sum;
    var n := |shares|;
    var ij, ji, ip, jp := Distance(i, j, n), Distance(j, i, n), Distance(i, p, n), Distance(j, p, n);
    if ip >= ij {
      assert ip == ij + jp && Wrap(Next(i, n) + ij, n) == Next(j, n);
      SumSplits(shares, Next(i, n), ij, jp);
      BlockAssociates(first1, Sum(shares, Next(i, n), ij), Sum(shares, Next(j, n), jp));
    } else {
      assert jp == ji + ip && Wrap(Next(j, n) + ji, n) == Next(i, n);
      SumSplits(shares, Next(j, n), ji, ip);
      BlockAssociates(first2, Sum(shares, Next(j, n), ji), Sum(shares, Next(i, n), ip));
    }
  }

  /** Two members, whatever secrets they start from and whatever was published, hold the same array if
      and only if the published shares XOR to zero and the first member's walk meets the second's start. */
  lemma ArraysAgreeIff(first1: Block, i: nat, first2: Block, j: nat, shares: seq<Block>)
    requires i < |shares| && j < |shares| && i != j
    ensures Walk(first1, shares, i) == Walk(first2, shares, j)
       <==> Total(shares) == ZERO && Reached(first1, shares, i, j) == first2
  {
    hide XorBlock;
    var n := |shares|;
    var there := Sum(shares, Next(i, n), Distance(i, j, n));
    var back := Sum(shares, Next(j, n), Distance(j, i, n));
    var w1, w2 := Walk(first1, shares, i), Walk(first2, shares, j);
    BlockZero(first1);
    BlockZero(first2);
    ArcsMakeTotal(shares, i, j);
    BlockAssociates(first1, there, back);
    if w1 == w2 {
      assert w1[i] == first1 && w2[j] == first2 && w1[j] == w2[j] && w1[i] == w2[i];
      assert XorBlock(first1, Total(shares)) == first1;
      BlockInjective(first1, Total(shares), ZERO);
    } else if Total(shares) == ZERO && Reached(first1, shares, i, j) == first2 {
      assert Reached(first2, shares, j, i) == first1;
      forall p | 0 <= p < n ensures w1[p] == w2[p] {
        WalksMeet(first1, i, first2, j, shares, p);
      }
    }
  }

  /** Truthful shares cancel out. */
  lemma TrueSharesCancel(secrets: seq<Block>)
    requires |secrets| > 0
    ensures Total(TrueShares(secrets)) == ZERO
  {
    hide XorBlock;
    var shares := TrueShares(secrets);
    if |secrets| == 1 {
      BlockSelf(secrets[0]);
      BlockZero(ZERO);
      assert Sum(shares, 0, 0) == ZERO;
    } else {
      RingAgreement(secrets, shares, 0);
      RingAgreement(secrets, shares, 1);
      ArraysAgreeIff(secrets[0], 0, secrets[1], 1, shares);
    }
  }

  // ---------- one corrupt share ----------

  /** Position p lies on the arc that starts at `culprit` and ends just before `me`. */
  predicate OnArc(culprit: nat, me: nat, p: nat, n: nat)
    requires culprit < n && me < n && p < n
  {
    Distance(culprit, p, n) < Distance(culprit, me, n)
  }

  /** The same shares with one of them off by `error`. */
  function Corrupted(shares: seq<Block>, culprit: nat, error: Block): (corrupt: seq<Block>)
    requires culprit < |shares|
    ensures |corrupt| == |shares|
  {
    shares[culprit := XorBlock(shares[culprit], error)]
  }

  lemma {:induction false} CorruptSum(shares: seq<Block>, culprit: nat, error: Block, start: nat, count: nat)
    requires culprit < |shares| && start < |shares| && count <= |shares|
    ensures Sum(Corrupted(shares, culprit, error), start, count)
         == if Distance(start, culprit, |shares|) < count then XorBlock(Sum(shares, start, count), error)
            else Sum(shares, start, count)
  {
    hide XorBlock;
    var n := |shares|;
    if count > 0 {
      CorruptSum(shares, culprit, error, start, count - 1);
      var last := Wrap(start + count - 1, n);
      var before := Sum(shares, start, count - 1);
      if last == culprit {
        assert Distance(start, culprit, n) == count - 1;
        BlockAssociates(before, shares[last], error);
      } else {
        assert Distance(start, culprit, n) != count - 1;
        BlockAssociates(before, error, shares[last]);
        BlockCommutes(error, shares[last]);
        BlockAssociates(before, shares[last], error);
      }
    }
  }

  /** One share off by a nonzero error: member i goes wrong exactly on the arc from the culprit to i-1,
      by exactly that error. */
  lemma CorruptWalk(secrets: seq<Block>, culprit: nat, error: Block, me: nat, p: nat)
    requires culprit < |secrets| && me < |secrets| && p < |secrets|
    ensures Walk(secrets[me], Corrupted(TrueShares(secrets), culprit, error), me)[p]
         == if OnArc(culprit, me, p, |secrets|) then XorBlock(secrets[p], error) else secrets[p]
  {
    hide XorBlock, Sum;
    var n := |secrets|;
    var shares := TrueShares(secrets);
    var d := Distance(me, p, n);
    RingAgreement(secrets, shares, me);
    assert Walk(secrets[me], shares, me)[p] == secrets[p];
    CorruptSum(shares, culprit, error, Next(me, n), d);
    BlockAssociates(secrets[me], Sum(shares, Next(me, n), d), error);
  }

  /** Corrupt-share divergence: no two members end up with the same array. */
  lemma CorruptShareDiverges(secrets: seq<Block>, culprit: nat, error: Block, i: nat, j: nat)
    requires culprit < |secrets| && i < |secrets| && j < |secrets| && i != j
    requires error != ZERO
    ensures Walk(secrets[i], Corrupted(TrueShares(secrets), culprit, error), i)
         != Walk(secrets[j], Corrupted(TrueShares(secrets), culprit, error), j)
  {
    hide XorBlock, Sum;
    var n := |secrets|;
    // the nearer of the two, seen from the culprit, is still right where the farther is already wrong
    var nearer, farther := if Distance(culprit, i, n) < Distance(culprit, j, n) then i else j,
                           if Distance(culprit, i, n) < Distance(culprit, j, n) then j else i;
    CorruptWalk(secrets, culprit, error, nearer, nearer);
    CorruptWalk(secrets, culprit, error, farther, nearer);
    assert !OnArc(culprit, nearer, nearer, n) && OnArc(culprit, farther, nearer, n);
    BlockZero(secrets[nearer]);
    if XorBlock(secrets[nearer], error) == secrets[nearer] {
      BlockInjective(secrets[nearer], error, ZERO);
    }
  }
}
