/** How a session of two that lets a third member join makes a wrong key: when it is wrong, and a whole run in which
    it is. */
module StaleShares {
  import opened Bytes
  import opened Crypto
  import opened Participants
  import opened Sessions
  import opened SessionSteps
  import opened SessionInvariants
  import opened SessionBirths
  import opened SessionActions
  import opened SessionRuns
  import opened SessionKeys
  import opened Completeness
  import opened Inheritance
  import opened TwoMembers
  import Ring

  // ---------- two members ----------

  /** Between two members both pairwise secrets are the same, so that the truthful shares are zero. */
  lemma SharesOfTwoAreZero(su: Suite, id: Identity, i: nat)
    requires |id| == 2 && i < 2 && DistinctLongTerm(id)
    ensures Ring.TrueShare(Secrets(su, id), i) == ZERO
  {
    var peers := Sorted(id.Keys);
    assert |id.Keys| == |id|;
    SortedDistinct(id.Keys, 0, 1);
    assert peers[0] in peers && peers[1] in peers;
    var a, b := id[peers[0]], id[peers[1]];
    PairSlotsSymmetric(su, a.fingerprint, a.ephemeral, b.fingerprint, b.ephemeral);
    hide PairKey, Sorted, SidBytes, XorBlock;
    assert Secret(su, id, 0) == Secret(su, id, 1);
    BlockSelf(Secret(su, id, 0));
  }

  lemma XorIsZero(a: Block, b: Block)
    ensures XorBlock(a, b) == ZERO <==> a == b
  {
    hide XorBlock;
    BlockSelf(a);
    if XorBlock(a, b) == ZERO {
      BlockInjective(a, b, a);
    }
  }

  /** Both pairwise secrets of the member are the same. */
  ghost predicate SameSecrets(su: Suite, s: Sess, k: Nick)
    requires k in s.roster && |s.sid| == |s.roster|
  {
    var i := IndexIn(s, k);
    Secret(su, s.sid, i) == Secret(su, s.sid, Ring.Previous(i, |s.roster|))
  }

  /** When a session of two answers a join request and the joiner's message is the first to reach the new session, the
      array is right exactly when the other old member's two new pairwise secrets are the same. */
  lemma JoinToTwo(su: Suite, s: Sess, d: Delivery, u: UnauthenticatedParticipant, child: Sess, auth: Delivery,
                  other: Nick, world: Surroundings)
    requires Answers(su, s, d, u, child, world) && Renewable(s) && Ready(s) && Truthful(su, child, auth)
    requires WellFormed(child) && auth.sender == u.id.nickname && Proves(child, auth)
    requires Owned(s) && |s.roster| == 2 && DistinctLongTerm(s.sid) && FutureRoster(s).Keys == {s.me.nickname, other}
    requires other in s.roster && other != s.me.nickname && TrueFor(su, s, other, s.roster[other].share)
    ensures other in child.roster && |child.sid| == |child.roster|
    ensures Generates(su, child, After(child, Handle(su, child, auth, world)), true, SameSecrets(su, child, other))
  {
    hide *;
    AnsweredSize(su, s, d, u, child, world);
    JoinerAuthFirst(su, s, d, u, child, auth, world);
    assert other in FutureRoster(s);
    OldShareOfTwo(su, s, other);
    OtherShareTrue(su, s, child, other);
  }

  lemma AnsweredSize(su: Suite, s: Sess, d: Delivery, u: UnauthenticatedParticipant, child: Sess, world: Surroundings)
    requires Answers(su, s, d, u, child, world) && Renewable(s)
    ensures |child.sid| == |child.roster|
  {
    hide *;
    AnswerInherits(su, s, d, u, child, world);
    InheritsNewborn(child, s.me, WithJoiner(FutureRoster(s), u));
  }

  /** Of the two old members only the other one's old share counts, and that is zero. */
  lemma OtherShareTrue(su: Suite, s: Sess, child: Sess, other: Nick)
    requires FutureRoster(s).Keys == {s.me.nickname, other} && other != s.me.nickname && s.roster.Keys >= {other}
    requires other in child.roster && s.me.nickname in child.roster && |child.sid| == |child.roster|
    requires s.roster[other].share == ZERO
    ensures FutureRoster(s).Keys <= child.roster.Keys
    ensures OldSharesTrue(su, s, child) <==> SameSecrets(su, child, other)
  {
    hide TrueFor, SameSecrets;
    ZeroIsTrue(su, child, other);
  }

  lemma OldShareOfTwo(su: Suite, s: Sess, k: Nick)
    requires Owned(s) && |s.roster| == 2 && DistinctLongTerm(s.sid)
    requires k in s.roster && TrueFor(su, s, k, s.roster[k].share)
    ensures s.roster[k].share == ZERO
  {
    hide Secret, Sorted, DistinctLongTerm, Owned;
    SharesOfTwoAreZero(su, s.sid, IndexIn(s, k));
  }

  lemma ZeroIsTrue(su: Suite, s: Sess, k: Nick)
    requires k in s.roster && |s.sid| == |s.roster|
    ensures TrueFor(su, s, k, ZERO) <==> SameSecrets(su, s, k)
  {
    hide Secret, Sorted, XorBlock;
    var i := IndexIn(s, k);
    XorIsZero(Secret(su, s.sid, i), Secret(su, s.sid, Ring.Previous(i, |s.roster|)));
  }

  // ---------- primitives under which they differ ----------

  /** A digest that keeps enough of what it digests: of three points the one of both ephemeral keys, of two blocks the
      first, and of short strings everything. */
  function PointHash(m: Bytes): (h: Bytes)
    ensures |h| == HASH_LENGTH
  {
    if |m| == 3 * POINT_LENGTH then m[2 * POINT_LENGTH..2 * POINT_LENGTH + HASH_LENGTH]
    else if |m| == 2 * HASH_LENGTH then m[..HASH_LENGTH]
    else if |m| <= HASH_LENGTH then m + seq(HASH_LENGTH - |m|, _ => 0)
    else ZERO
  }

  ghost const POINTS: Primitives := EXAMPLE.(hash := PointHash, dh := XorDh)

  lemma PointsSound()
    ensures Sound(POINTS)
    ensures forall m :: POINTS.hash(m) == PointHash(m)
    ensures forall a, b :: POINTS.dh(a, b) == XorDh(a, b)
  {
    forall m: Bytes ensures POINTS.hash(m) == PointHash(m) && |POINTS.hash(m)| == HASH_LENGTH {}
    forall a: Bytes, b: Bytes
      ensures POINTS.dh(a, b) == XorDh(a, b) && |POINTS.dh(a, b)| == POINT_LENGTH && POINTS.dh(a, b) == POINTS.dh(b, a)
    {
      XorDhCommutes(a, b);
    }
  }

  lemma PointPairKey(su: Suite, longTerm1: Block, ephemeral1: Block, longTerm2: Block, ephemeral2: Block)
    requires su == POINTS
    ensures PairKey(su, longTerm1, ephemeral1, longTerm2, ephemeral2) == XorBlock(ephemeral1, ephemeral2)
  {
    hide XorBlock, Less;
    PointsSound();
    var slots := PairSlots(su, longTerm1, ephemeral1, longTerm2, ephemeral2);
    var m := slots.0 + slots.1 + slots.2;
    assert slots.2 == XorDh(ephemeral1, ephemeral2);
    assert m[2 * POINT_LENGTH..2 * POINT_LENGTH + HASH_LENGTH] == slots.2[..HASH_LENGTH];
    assert slots.2[..HASH_LENGTH] == XorBlock(ephemeral1, ephemeral2);
    assert PairKey(su, longTerm1, ephemeral1, longTerm2, ephemeral2) == PointHash(m);
  }

  lemma PointSecret(su: Suite, id: Identity, i: nat)
    requires su == POINTS && i < |id|
    ensures |Sorted(id.Keys)| == |id| && Sorted(id.Keys)[i] in id && Sorted(id.Keys)[Ring.Next(i, |id|)] in id
    ensures Secret(su, id, i)
         == XorBlock(id[Sorted(id.Keys)[i]].ephemeral, id[Sorted(id.Keys)[Ring.Next(i, |id|)]].ephemeral)
  {
    hide XorBlock, Sorted, PairKey, SidBytes;
    PointsSound();
    var peers := Sorted(id.Keys);
    assert |id.Keys| == |id|;
    assert peers[i] in peers && peers[Ring.Next(i, |id|)] in peers;
    var left, right := id[peers[i]], id[peers[Ring.Next(i, |id|)]];
    PointPairKey(su, left.fingerprint, left.ephemeral, right.fingerprint, right.ephemeral);
    var key := PairKey(su, left.fingerprint, left.ephemeral, right.fingerprint, right.ephemeral);
    assert (key + SidBytes(su, id))[..HASH_LENGTH] == key;
  }

  // ---------- the run ----------

  const JOINER: Nick := [99]

  /** The session of two in session, its owner the guest, both announcing `next`. */
  ghost predicate SessionOfTwo(su: Suite, s: Sess, next: Block) {
    && Owned(s) && s.phase == InSession && Ready(s) && Renewable(s) && s.future == Some(next) && s.me == GUEST
    && s.roster.Keys == {HOST.nickname, GUEST.nickname} && |s.roster| == 2 && DistinctLongTerm(s.sid)
    && TrueFor(su, s, HOST.nickname, s.roster[HOST.nickname].share) && s.roster.Keys == FutureRoster(s).Keys
    && IdentityOf(FutureRoster(s)) == FacesUnder(next)
  }

  lemma ConfirmedSession(su: Suite, guest: Sess, s: Sess, next: Block)
    requires Keyed(su, guest, GUEST, GUEST_KEY, next)
    requires WellFormed(s) && s.phase == InSession && SameKeyed(guest, s) && s.future == guest.future
    requires s.zombies == guest.zombies && s.roster.Keys == {HOST.nickname, GUEST.nickname}
    requires s.roster[HOST.nickname] == guest.roster[HOST.nickname].(future := next)
    requires s.roster[GUEST.nickname] == guest.roster[GUEST.nickname].(future := next)
    ensures SessionOfTwo(su, s, next)
  {
    hide Filled, Secret, Sorted, AllSecrets, DistinctLongTerm, IdentityOf, FutureRoster, TrueFor, WellFormed, KeyOf,
      Secrets, TwoFaces, Keyed, SameKeyed, RightConfirmation, IndexIn, SameSession;
    TwoDistinct();
    KeyedParts(su, guest, GUEST, GUEST_KEY, next);
    SharesRight(su, guest, s);
    FutureOfTwo(guest, s, next);
    OwnedWellFormed(s);
    assert Ready(s) by { ReadyLater(guest, s, next); }
  }

  lemma ReadyLater(s: Sess, t: Sess, next: Block)
    requires Ready(s) && s.roster.Keys == t.roster.Keys == {HOST.nickname, GUEST.nickname}
    requires t.roster[HOST.nickname] == s.roster[HOST.nickname].(future := next)
    requires t.roster[GUEST.nickname] == s.roster[GUEST.nickname].(future := next)
    ensures Ready(t)
  {
    forall k | k in t.roster ensures t.roster[k].authenticated && t.roster[k].contributed {
      assert k == HOST.nickname || k == GUEST.nickname;
    }
  }

  /** A session with the right array, later: still its owner's, and every other member's share is the truthful one. */
  lemma SharesRight(su: Suite, s: Sess, t: Sess)
    requires Owned(s) && SameKeyed(s, t) && AllSecrets(su, s) == Secrets(su, s.sid) && s.key == AgreedKey(su, s.sid)
    ensures Owned(t) && t.sid == s.sid && t.me == s.me && WellFormed(t) && t.ephemeral == s.ephemeral
    ensures forall k :: k in t.roster && k != t.me.nickname ==> TrueFor(su, t, k, t.roster[k].share)
  {
    hide Owned, AllSecrets, Secrets, KeyOf, SameKeyed, WellFormed, Sorted, TrueFor, RightConfirmation, IndexIn,
      TakesUp;
    WaitsNot(s);
    KeyedSession(su, s, s, t);
    WaitsNot(t);
    StandingIsRight(su, t, [], t);
    assert forall k :: !Took(t, [], k);
  }

  lemma WaitsNot(s: Sess)
    requires Owned(s)
    ensures SameSession(s, s) && WellFormed(s)
    ensures forall su :: Stands(su, s, [], s)
  {
    hide Sorted, TrueFor, TakesUp, Proves;
  }

  lemma FutureOfTwo(guest: Sess, s: Sess, next: Block)
    requires guest.sid == TwoFaces() && Owned(guest) && s.zombies == map[]
    requires s.roster.Keys == guest.roster.Keys == {HOST.nickname, GUEST.nickname}
    requires s.roster[HOST.nickname] == guest.roster[HOST.nickname].(future := next)
    requires s.roster[GUEST.nickname] == guest.roster[GUEST.nickname].(future := next)
    ensures FutureRoster(s).Keys == {HOST.nickname, GUEST.nickname}
    ensures FutureRoster(s)[GUEST.nickname].ephemeral == next
    ensures FutureRoster(s)[GUEST.nickname].id.fingerprint == GUEST.fingerprint
    ensures IdentityOf(FutureRoster(s)) == FacesUnder(next)
  {
    hide Filled, WellFormed, TwoFaces, IdentityOf;
    TwoDistinct();
    SidFaces(guest);
    var live := FutureRoster(s);
    assert Minus(s.roster, s.zombies).Keys == s.roster.Keys;
    FacesOf(live, next);
  }

  lemma SidFaces(s: Sess)
    requires Owned(s)
    ensures forall k :: k in s.roster ==>
      k in s.sid && s.sid[k] == Face(s.roster[k].id.fingerprint, s.roster[k].ephemeral)
  {}

  function FacesUnder(next: Block): Identity {
    map[HOST.nickname := Face(HOST.fingerprint, next), GUEST.nickname := Face(GUEST.fingerprint, next)]
  }

  lemma FacesOf(live: Roster, next: Block)
    requires live.Keys == {HOST.nickname, GUEST.nickname}
    requires live[HOST.nickname].id.fingerprint == HOST.fingerprint && live[HOST.nickname].ephemeral == next
    requires live[GUEST.nickname].id.fingerprint == GUEST.fingerprint && live[GUEST.nickname].ephemeral == next
    ensures IdentityOf(live) == FacesUnder(next)
  {
    hide Filled;
  }

  /** The owner of the middle place, with the left neighbour's share still zero, holds for the first secret the last. */
  lemma MiddleWalk(su: Suite, t: Sess)
    requires Owned(t) && |t.roster| == |t.sid| == 3 && MyIndex(t) == 1
    requires Shares(t)[0] == ZERO && Shares(t)[2] == Ring.TrueShare(Secrets(su, t.sid), 2)
    ensures WellFormed(t) && AllSecrets(su, t)[0] == Secret(su, t.sid, 2)
  {
    RightSecret(su, t);
    OwnedWellFormed(t);
    hide Secret, XorBlock, Sorted, ShareOn, MyIndex, WellFormed, Owned;
    var a, b, shares := Secret(su, t.sid, 1), Secret(su, t.sid, 2), Shares(t);
    assert Ring.Sum(shares, 2, 0) == ZERO;
    assert Ring.Sum(shares, 2, 1) == XorBlock(ZERO, shares[2]);
    assert Ring.Sum(shares, 2, 2) == XorBlock(XorBlock(ZERO, shares[2]), shares[0]);
    BlockZero(shares[2]);
    BlockCommutes(b, a);
    BlockCancel(a, b);
  }

  lemma ThreeInOrder(id: Identity)
    requires id.Keys == {HOST.nickname, GUEST.nickname, JOINER}
    ensures |id| == 3 && Sorted(id.Keys) == [HOST.nickname, GUEST.nickname, JOINER]
  {
    SortedAscending(id.Keys);
    AscendingUnique(Sorted(id.Keys), [HOST.nickname, GUEST.nickname, JOINER]);
    hide Sorted;
    assert |id| == |id.Keys|;
  }

  lemma ThreeSecrets(su: Suite, id: Identity, next: Block)
    requires su == POINTS && |id| == 3 && id.Keys == {HOST.nickname, GUEST.nickname, JOINER}
    requires id[HOST.nickname].ephemeral == next && id[GUEST.nickname].ephemeral == next
    requires id[JOINER].ephemeral == XorBlock(next, Filled(1))
    ensures Secret(su, id, 0) == ZERO && Secret(su, id, 1) == Secret(su, id, 2) == Filled(1)
  {
    hide XorBlock, Sorted, Secret, Filled;
    ThreeInOrder(id);
    PointSecret(su, id, 0);
    PointSecret(su, id, 1);
    PointSecret(su, id, 2);
    BlockSelf(next);
    BlockCancel(next, Filled(1));
    BlockCommutes(XorBlock(next, Filled(1)), next);
  }

  /** Under the primitives of the run the keys differ in their first byte. */
  lemma KeysDiffer(su: Suite, all: seq<Block>, id: Identity)
    requires su == POINTS && |all| == |id| == 3
    requires Secret(su, id, 0) == ZERO && all[0] == Filled(1)
    ensures KeyOf(su, all, id) != AgreedKey(su, id)
  {
    hide Secret, KeyInput, XorBlock;
    KeyInputIs(su, all, id);
    KeyInputIs(su, Secrets(su, id), id);
    var wrong, right := KeyInput(su, all, id), KeyInput(su, Secrets(su, id), id);
    assert wrong[0] == ByteAt(all, 0) == 1 && right[0] == ByteAt(Secrets(su, id), 0) == 0;
    PointsSound();
    assert PointHash(wrong)[0] == 1 && PointHash(right)[0] == 0;
  }

  /** The joiner's message with the owner's token and a truthful share. */
  function AuthFor(su: Suite, child: Sess): (d: Delivery)
    requires WellFormed(child) && |child.sid| == |child.roster| && JOINER in child.roster
    ensures d.packet.Signed? && d.packet.content.JoinerAuth?
  {
    var joiner := child.roster[JOINER];
    var key := PairKey(su, child.me.fingerprint, child.ephemeral, joiner.id.fingerprint, joiner.ephemeral);
    var share := Ring.TrueShare(Secrets(su, child.sid), IndexIn(child, JOINER));
    Delivery(JOINER, Signed(joiner.ephemeral, child.sid,
                            JoinerAuth(map[MyIndex(child) := AuthToken(su, key, child.me)], share)))
  }

  lemma AuthForTruthful(su: Suite, child: Sess)
    requires Waits(child) && child.phase == ReShared && JOINER in child.roster
    ensures WellFormed(child) && |child.sid| == |child.roster|
    ensures Truthful(su, child, AuthFor(su, child)) && Proves(child, AuthFor(su, child))
  {
    hide PairKey, Secret, Sorted, AuthToken;
    OwnedWellFormed(child);
    hide MyIndex, WellFormed;
    AuthTruthful(su, child, AuthFor(su, child));
  }

  function JoinerOf(next: Block): UnauthenticatedParticipant {
    UnauthenticatedParticipant(ParticipantId(JOINER, Filled(3)), XorBlock(next, Filled(1)), false)
  }

  function RequestOf(next: Block): (d: Delivery)
    ensures d.packet.JoinRequest?
  {
    Delivery(JOINER, JoinRequest(ParticipantString(JoinerOf(next))))
  }

  /** The three of the new session. */
  ghost predicate Three(child: Sess, next: Block) {
    && Waits(child) && child.phase == ReShared && child.me == GUEST
    && child.roster.Keys == child.sid.Keys == {HOST.nickname, GUEST.nickname, JOINER}
    && |child.sid| == |child.roster| == 3 && child.roster[HOST.nickname].share == ZERO
    && child.sid[HOST.nickname].ephemeral == next && child.sid[GUEST.nickname].ephemeral == next
    && child.sid[JOINER].ephemeral == XorBlock(next, Filled(1))
  }

  lemma TwoParts(su: Suite, s: Sess, next: Block)
    requires SessionOfTwo(su, s, next)
    ensures Owned(s) && WellFormed(s) && s.phase == InSession && Ready(s) && Renewable(s) && s.future.Some?
    ensures s.me == GUEST && |s.roster| == 2 && DistinctLongTerm(s.sid) && HOST.nickname in s.roster
    ensures TrueFor(su, s, HOST.nickname, s.roster[HOST.nickname].share)
    ensures FutureRoster(s).Keys == {HOST.nickname, GUEST.nickname} && HOST.nickname in FutureRoster(s)
    ensures FutureRoster(s)[HOST.nickname].share == s.roster[HOST.nickname].share
    ensures s.me.nickname in FutureRoster(s) && JOINER !in FutureRoster(s)
    ensures IdentityOf(FutureRoster(s)) == FacesUnder(next)
  {
    hide Owned, Ready, Renewable, DistinctLongTerm, TrueFor, IdentityOf, FacesUnder, WellFormed, FutureRoster,
      Filled, Sorted, Counted, TwoFaces;
    OwnedWellFormed(s);
    TwoDistinct();
    LiveCounted(s);
  }

  lemma RequestReads(next: Block)
    ensures ParseParticipant(RequestOf(next).packet.joinerInfo) == Some(JoinerOf(next))
    ensures JoinerOf(next).id.nickname == JOINER
  {
    hide ParticipantString, ParseParticipant, Filled, XorBlock;
    ParticipantRoundTrip(JoinerOf(next));
  }

  /** The session of two answers the request, and three are in the new session, its owner in the middle. */
  lemma AnsweredByTwo(su: Suite, s: Sess, next: Block, world: Surroundings) returns (child: Sess)
    requires SessionOfTwo(su, s, next)
    ensures Answers(su, s, RequestOf(next), JoinerOf(next), child, world) && Three(child, next)
  {
    hide *;
    TwoParts(su, s, next);
    RequestReads(next);
    child := RequestAnswered(su, s, RequestOf(next), JoinerOf(next), world);
    AnswerInherits(su, s, RequestOf(next), JoinerOf(next), child, world);
    InheritsNewborn(child, s.me, WithJoiner(FutureRoster(s), JoinerOf(next)));
    WithJoinerIdentity(FutureRoster(s), JoinerOf(next));
    WithJoinerFacts(FutureRoster(s), JoinerOf(next));
    OldShareOfTwo(su, s, HOST.nickname);
    TwoDistinct();
    ThreeMade(child, next);
  }

  lemma ThreeMade(child: Sess, next: Block)
    requires Waits(child) && child.phase == ReShared && child.me == GUEST && |child.sid| == |child.roster|
    requires child.sid == FacesUnder(next)[JOINER := Face(JoinerOf(next).id.fingerprint, JoinerOf(next).ephemeral)]
    requires child.roster.Keys == {HOST.nickname, GUEST.nickname} + {JOINER}
    requires child.roster[HOST.nickname].share == ZERO
    ensures Three(child, next)
  {
    hide Waits, Filled, XorBlock, Sorted;
    TwoDistinct();
    ThreeInOrder(child.sid);
  }

  /** What the new session holds once it has heard the joiner. */
  lemma HeardJoiner(su: Suite, child: Sess, next: Block, world: Surroundings)
    requires Three(child, next) && WellFormed(child)
    ensures var t := After(child, Handle(su, child, AuthFor(su, child), world));
      SameSession(child, t) ==> WellFormed(t) && AllSecrets(su, t)[0] == Secret(su, child.sid, 2)
  {
    hide Handle, Truthful, Proves, TakesUp, Taken, Finish, Secret, XorBlock, Sorted, AllSecrets, WellFormed, Ready,
      MyIndex, PairKey, AuthToken, Waits, FromMember;
    AuthForTruthful(su, child);
    WaitsWellFormed(child);
    var d := AuthFor(su, child);
    var t := After(child, Handle(su, child, d, world));
    ProvesTakesUp(child, d);
    TruthfulToken(su, child, d);
    TakenUp(su, child, d, world);
    var u := Taken(child, JOINER, ShareIn(d.packet.content), Proves(child, d));
    TakenOwned(child, JOINER, ShareIn(d.packet.content), Proves(child, d));
    OwnedWellFormed(u);
    FinishKeepsRoster(su, u, world);
    assert t.roster == u.roster;
    if SameSession(child, t) {
      SharesInOrder(su, child, t);
      MiddleWalk(su, t);
    }
  }

  lemma ProvesTakesUp(s: Sess, d: Delivery)
    requires WellFormed(s) && Proves(s, d)
    ensures TakesUp(s, d)
  {}

  lemma SharesInOrder(su: Suite, s: Sess, t: Sess)
    requires SameSession(s, t) && s.me == GUEST && s.roster.Keys == {HOST.nickname, GUEST.nickname, JOINER}
    requires |s.sid| == |s.roster| && s.sid.Keys == {HOST.nickname, GUEST.nickname, JOINER}
    requires t.roster[HOST.nickname].share == ZERO
    requires t.roster[JOINER].share == Ring.TrueShare(Secrets(su, s.sid), IndexIn(s, JOINER))
    ensures Owned(t) && |t.roster| == |t.sid| == 3 && MyIndex(t) == 1
    ensures Shares(t)[0] == ZERO && Shares(t)[2] == Ring.TrueShare(Secrets(su, t.sid), 2)
  {
    ThreeInOrder(t.sid);
    OwnedWellFormed(t);
    SameIndices(s, t);
    hide Sorted, Secret;
    assert IndexOf([HOST.nickname, GUEST.nickname, JOINER], GUEST.nickname) == 1;
    assert IndexOf([HOST.nickname, GUEST.nickname, JOINER], JOINER) == 2;
  }

  /** A whole run in which the owner of a session makes a wrong key although nobody has sent anything wrong. The guest
      joins a session of two, whose array and key are right; both members confirm; in session it answers a join
      request; the joiner's truthful message is the first to reach the new session; and the key it then confirms is
      not the one agreed for that session. The primitives are made up for it, a truncating hash and exclusive or for
      the Diffie-Hellman, and the two announce one next key. */
  lemma JoinedKeyGoesWrong(world: Surroundings)
    returns (su: Suite, host: Sess, guest: Sess, s: Sess, request: Delivery, u: UnauthenticatedParticipant, child: Sess)
    ensures Hosting(host) && Invites(su, host) && host.outbox != [] && IsInfo(LastSaid(host))
    ensures Join(su, GUEST, GUEST_KEY, LastSaid(host), world) == Born(guest) && WellFormed(guest)
    ensures guest.phase == GroupKeyGenerated && guest.roster.Keys == {HOST.nickname, GUEST.nickname}
    ensures AllSecrets(su, guest) == Secrets(su, guest.sid) && guest.key == AgreedKey(su, guest.sid)
    ensures s == HandleAll(su, guest, [Confirmation(su, guest, HOST.nickname, world.freshKey),
                                       Confirmation(su, guest, GUEST.nickname, world.freshKey)], world)
    ensures s.phase == InSession && s.key == guest.key && Answers(su, s, request, u, child, world)
    ensures Waits(child) && WellFormed(child) && JOINER in child.roster && |child.sid| == |child.roster|
    ensures Truthful(su, child, AuthFor(su, child))
    ensures var t := After(child, Handle(su, child, AuthFor(su, child), world));
      WithKey(t) && t.sid == child.sid && t.key != AgreedKey(su, t.sid)
  {
    hide *;
    PointsSound();
    su := POINTS;
    host := HostBorn(su, world);
    InvitesParts(su, host);
    guest := GuestBorn(su, host, world);
    KeyedParts(su, guest, GUEST, GUEST_KEY, world.freshKey);
    TwoDistinct();
    s := BothConfirm(su, guest, HOST.nickname, world.freshKey, GUEST.nickname, world.freshKey, world);
    KeyedAlike(su, guest, s);
    ConfirmedSession(su, guest, s, world.freshKey);
    request, u := RequestOf(world.freshKey), JoinerOf(world.freshKey);
    child := AnsweredByTwo(su, s, world.freshKey, world);
    ThreeParts(child, world.freshKey);
    AuthForTruthful(su, child);
    ChildGoesWrong(su, s, child, world.freshKey, world);
  }

  lemma ThreeParts(child: Sess, next: Block)
    requires Three(child, next)
    ensures Waits(child) && Owned(child) && WellFormed(child) && JOINER in child.roster && child.phase == ReShared
    ensures HOST.nickname in child.roster && |child.sid| == |child.roster|
  {
    hide Filled, XorBlock;
  }

  /** From the answer to the wrong key. */
  lemma ChildGoesWrong(su: Suite, s: Sess, child: Sess, next: Block, world: Surroundings)
    requires su == POINTS && SessionOfTwo(su, s, next) && Three(child, next)
    requires Answers(su, s, RequestOf(next), JoinerOf(next), child, world)
    ensures WellFormed(child) && JOINER in child.roster && |child.sid| == |child.roster|
    ensures var t := After(child, Handle(su, child, AuthFor(su, child), world));
      WithKey(t) && t.sid == child.sid && t.key != AgreedKey(su, t.sid)
  {
    hide Owned, AllSecrets, AgreedKey, Answers, Waits, Truthful, Filled, FutureRoster, XorBlock, Renewable, Ready,
      Handle, IdentityOf, DistinctLongTerm, TrueFor, WellFormed, KeyOf, RequestOf, Secret, Sorted, SameSecrets,
      Proves, Secrets, SameSession, ParticipantString, Accepts, PairKey, MyIndex, AuthToken, IndexIn;
    ThreeParts(child, next);
    AuthForTruthful(su, child);
    TwoDistinct();
    JoinToTwo(su, s, RequestOf(next), JoinerOf(next), child, AuthFor(su, child), HOST.nickname, world);
    HeardJoiner(su, child, next, world);
    var t := After(child, Handle(su, child, AuthFor(su, child), world));
    SameRoster(child, t);
    ThreeSecrets(su, child.sid, next);
    KeysDiffer(su, AllSecrets(su, t), child.sid);
  }
}
