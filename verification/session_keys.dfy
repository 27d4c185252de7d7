/** What the members of one session compute: equal secrets, equal keys, accepted tokens; and what goes wrong. */
module SessionKeys {
  import opened Bytes
  import opened Crypto
  import opened Participants
  import opened Sessions
  import opened SessionSteps
  import opened SessionInvariants
  import opened SessionBirths
  import Ring

  /** The pairwise secret of the members at a position and to its right, as the left one computes it. */
  function Secret(su: Suite, id: Identity, i: nat): Block
    requires i < |id|
  {
    var peers := Sorted(id.Keys);
    var left, right := id[peers[i]], id[peers[Ring.Next(i, |id|)]];
    Hash(su, PairKey(su, left.fingerprint, left.ephemeral, right.fingerprint, right.ephemeral) + SidBytes(su, id))
  }

  function Secrets(su: Suite, id: Identity): (secrets: seq<Block>)
    ensures |secrets| == |id|
    ensures forall i :: 0 <= i < |id| ==> secrets[i] == Secret(su, id, i)
  {
    seq(|id|, i requires 0 <= i < |id| => Secret(su, id, i))
  }

  /** No two members share a long-term key. */
  ghost predicate DistinctLongTerm(id: Identity) {
    forall k, l :: k in id && l in id && k != l ==> id[k].fingerprint != id[l].fingerprint
  }

  /** The id of the session is made of its members, and its owner is in it with its own keys. */
  ghost predicate Owned(s: Sess) {
    && WellFormed(s) && s.sid == IdentityOf(s.roster)
    && s.sid[s.me.nickname] == Face(s.me.fingerprint, s.ephemeral)
  }

  lemma SidShape(s: Sess)
    requires s.sid == IdentityOf(s.roster)
    ensures |s.sid| == |s.roster| && Sorted(s.sid.Keys) == Peers(s)
  {
    hide Sorted;
    assert |s.sid| == |s.sid.Keys| == |s.roster.Keys| == |s.roster|;
  }

  lemma PeerAt(s: Sess, i: nat)
    requires Owned(s) && i < |s.roster|
    ensures |s.sid| == |s.roster| && Sorted(s.sid.Keys) == Peers(s)
    ensures Peers(s)[i] in s.roster && s.roster[Peers(s)[i]].id.nickname == Peers(s)[i]
    ensures s.sid[Peers(s)[i]] == Face(s.roster[Peers(s)[i]].id.fingerprint, s.roster[Peers(s)[i]].ephemeral)
  {
    hide Sorted;
    SidShape(s);
    assert Peers(s)[i] in Peers(s);
  }

  lemma MyPlace(s: Sess)
    requires WellFormed(s)
    ensures Peers(s)[MyIndex(s)] == s.me.nickname
  {
    hide Sorted;
  }

  /** What `secret_share_on` makes with the right neighbour. */
  lemma RightSecret(su: Suite, s: Sess)
    requires Owned(s)
    ensures |s.sid| == |s.roster|
    ensures ShareOn(su, s, Ring.Next(MyIndex(s), |s.roster|)) == Secret(su, s.sid, MyIndex(s))
  {
    var i := MyIndex(s);
    PeerAt(s, i);
    PeerAt(s, Ring.Next(i, |s.roster|));
    MyPlace(s);
    hide PairKey, Sorted, SidBytes, WellFormed, MyIndex;
  }

  /** What it makes with the left neighbour is the left neighbour's right secret. */
  lemma LeftSecret(su: Suite, s: Sess)
    requires Owned(s) && DistinctLongTerm(s.sid)
    ensures |s.sid| == |s.roster|
    ensures ShareOn(su, s, Ring.Previous(MyIndex(s), |s.roster|))
         == Secret(su, s.sid, Ring.Previous(MyIndex(s), |s.roster|))
  {
    var i := MyIndex(s);
    var n := |s.roster|;
    var left := Ring.Previous(i, n);
    PeerAt(s, i);
    PeerAt(s, left);
    MyPlace(s);
    assert Ring.Next(left, n) == i;
    var mine, theirs := s.sid[Peers(s)[i]], s.sid[Peers(s)[left]];
    assert mine.fingerprint != theirs.fingerprint || mine.ephemeral == theirs.ephemeral;
    PairSlotsSymmetric(su, mine.fingerprint, mine.ephemeral, theirs.fingerprint, theirs.ephemeral);
    hide PairKey, Sorted, SidBytes, WellFormed, MyIndex, DistinctLongTerm;
  }

  /** What a member publishes is the truthful share of its place on the ring. */
  lemma OwnShareIsTrue(su: Suite, s: Sess)
    requires Owned(s) && DistinctLongTerm(s.sid)
    ensures |s.sid| == |s.roster| && OwnShare(su, s) == Ring.TrueShare(Secrets(su, s.sid), MyIndex(s))
  {
    hide ShareOn, Secret, XorBlock, Owned, DistinctLongTerm, MyIndex;
    RightSecret(su, s);
    LeftSecret(su, s);
    assert WellFormed(s) by { OwnedWellFormed(s); }
  }

  lemma OwnedWellFormed(s: Sess)
    requires Owned(s)
    ensures WellFormed(s) && |s.sid| == |s.roster| && Sorted(s.sid.Keys) == Peers(s)
  {
    SidShape(s);
  }

  /** The member k's stored share is the one k truthfully publishes in this session. */
  ghost predicate TrueAt(su: Suite, s: Sess, i: nat)
    requires i < |s.roster| == |s.sid|
  {
    s.roster[Peers(s)[i]].share == Ring.TrueShare(Secrets(su, s.sid), i)
  }

  /** Ring agreement for a session: a member rebuilds all pairwise secrets exactly when the share it holds of
      every other member is the truthful one. */
  lemma SecretsRebuiltIff(su: Suite, s: Sess)
    requires Owned(s)
    ensures |s.sid| == |s.roster|
    ensures AllSecrets(su, s) == Secrets(su, s.sid)
       <==> forall i :: 0 <= i < |s.roster| && i != MyIndex(s) ==> TrueAt(su, s, i)
  {
    hide Owned, ShareOn, Secret, Sorted, MyIndex, WellFormed;
    OwnedWellFormed(s);
    RightSecret(su, s);
    var secrets := Secrets(su, s.sid);
    Ring.WalkExactIff(secrets, Shares(s), MyIndex(s));
    forall i | 0 <= i < |s.roster| ensures TrueAt(su, s, i) <==> Shares(s)[i] == Ring.TrueShare(secrets, i) {}
  }

  /** Any two members of a session who hold the truthful shares of the others agree on the whole array and on
      the key made of it. */
  lemma MembersAgree(su: Suite, s: Sess, t: Sess)
    requires Owned(s) && Owned(t) && s.sid == t.sid
    requires |s.sid| == |s.roster| == |t.roster|
    requires forall i :: 0 <= i < |s.roster| && i != MyIndex(s) ==> TrueAt(su, s, i)
    requires forall i :: 0 <= i < |t.roster| && i != MyIndex(t) ==> TrueAt(su, t, i)
    ensures AllSecrets(su, s) == AllSecrets(su, t) && SessionKey(su, s) == SessionKey(su, t)
  {
    hide AllSecrets, KeyOf, Secret, TrueAt, MyIndex, Owned;
    OwnedWellFormed(s);
    OwnedWellFormed(t);
    SecretsRebuiltIff(su, s);
    SecretsRebuiltIff(su, t);
  }

  // ---------- what the hash call leaves out ----------

  lemma {:induction false} FlattenAt(blocks: seq<Block>, b: nat)
    requires b < HASH_LENGTH * |blocks|
    ensures Flatten(blocks)[b] == blocks[b / HASH_LENGTH][b % HASH_LENGTH]
  {
    if b >= HASH_LENGTH {
      FlattenAt(blocks[1..], b - HASH_LENGTH);
      assert b / HASH_LENGTH == (b - HASH_LENGTH) / HASH_LENGTH + 1;
    }
  }

  /** The array holds this byte at this position, counting through its blocks. */
  function ByteAt(all: seq<Block>, b: nat): Byte
    requires b < HASH_LENGTH * |all|
  {
    all[b / HASH_LENGTH][b % HASH_LENGTH]
  }

  /** For any number of members, what is hashed is one byte of the array per member and one more, and never the
      session id. */
  lemma KeyInputIs(su: Suite, all: seq<Block>, sid: Identity)
    requires all != []
    ensures |KeyInput(su, all, sid)| == |all| + 1 <= HASH_LENGTH * |all|
    ensures forall b :: 0 <= b <= |all| ==> KeyInput(su, all, sid)[b] == ByteAt(all, b)
  {
    var blocks := all + [SidBytes(su, sid)];
    forall b | 0 <= b <= |all| ensures KeyInput(su, all, sid)[b] == ByteAt(all, b) {
      FlattenAt(blocks, b);
    }
  }

  /** Two arrays under any two session ids make one hash input exactly when they have the same number of blocks, say
      n, and agree in their first n + 1 bytes: all that a member's secrets contribute to the key. */
  lemma KeyInputsAgreeIff(su: Suite, all: seq<Block>, others: seq<Block>, sid: Identity, otherSid: Identity)
    requires all != [] && others != []
    ensures KeyInput(su, all, sid) == KeyInput(su, others, otherSid)
       <==> |all| == |others| && forall b :: 0 <= b <= |all| ==> ByteAt(all, b) == ByteAt(others, b)
  {
    hide KeyInput, ByteAt;
    KeyInputIs(su, all, sid);
    KeyInputIs(su, others, otherSid);
    var a, o := KeyInput(su, all, sid), KeyInput(su, others, otherSid);
    if a == o {
      assert |all| + 1 == |a| == |o| == |others| + 1;
      forall b | 0 <= b <= |all| ensures ByteAt(all, b) == ByteAt(others, b) {
        assert a[b] == o[b];
      }
    }
  }

  /** Up to 31 members: the key depends on the first n + 1 bytes of the first pairwise secret, three of them between
      two members, and on nothing else. */
  lemma KeyIgnoresAllButFirstSecret(su: Suite, all: seq<Block>, others: seq<Block>, sid: Identity, otherSid: Identity)
    requires 0 < |all| == |others| <= 31
    ensures KeyInput(su, all, sid) == KeyInput(su, others, otherSid)
       <==> all[0][..|all| + 1] == others[0][..|all| + 1]
    ensures all[0][..|all| + 1] == others[0][..|all| + 1] ==> KeyOf(su, all, sid) == KeyOf(su, others, otherSid)
  {
    hide KeyInput;
    KeyInputsAgreeIff(su, all, others, sid, otherSid);
    var n := |all| + 1;
    assert forall b :: 0 <= b < n ==> ByteAt(all, b) == all[0][..n][b] && ByteAt(others, b) == others[0][..n][b];
    if KeyInput(su, all, sid) == KeyInput(su, others, otherSid) {
      forall b | 0 <= b < n ensures all[0][..n][b] == others[0][..n][b] {
        assert ByteAt(all, b) == ByteAt(others, b);
      }
    }
  }

  /** So no array is determined by its key: for every one there is another that makes the same key. */
  lemma OtherArrayOneKey(su: Suite, all: seq<Block>, sid: Identity) returns (others: seq<Block>)
    requires all != []
    ensures others != all && |others| == |all| && KeyOf(su, others, sid) == KeyOf(su, all, sid)
  {
    hide KeyInput;
    var last := all[|all| - 1];
    var changed: Block := last[HASH_LENGTH - 1 := if last[HASH_LENGTH - 1] == 0 then 1 else 0];
    others := all[|all| - 1 := changed];
    assert others[|all| - 1][HASH_LENGTH - 1] != all[|all| - 1][HASH_LENGTH - 1];
    forall b | 0 <= b <= |all| ensures ByteAt(all, b) == ByteAt(others, b) {
      assert b == HASH_LENGTH * (b / HASH_LENGTH) + b % HASH_LENGTH;
    }
    KeyInputsAgreeIff(su, all, others, sid, sid);
  }

  // ---------- authentication, end to end ----------

  /** A member's index is the same in every session object of that id. */
  lemma SameIndexForAll(s: Sess, t: Sess, k: Nick)
    requires s.roster.Keys == t.roster.Keys && k in s.roster
    ensures IndexIn(s, k) == IndexIn(t, k)
  {
    SameIndices(s, t);
  }

  lemma SidGivesKeys(s: Sess, t: Sess)
    requires Owned(s) && Owned(t) && s.sid == t.sid
    ensures s.roster.Keys == t.roster.Keys
    ensures t.me.nickname in s.roster
         && s.roster[t.me.nickname].id == t.me && s.roster[t.me.nickname].ephemeral == t.ephemeral
  {
    hide Sorted;
    assert s.roster.Keys == s.sid.Keys == t.roster.Keys;
    assert s.sid[t.me.nickname] == Face(t.me.fingerprint, t.ephemeral);
  }

  /** What one member makes for another is accepted there, and nothing else is. */
  lemma TokenCrosses(su: Suite, prover: Sess, verifier: Sess)
    requires Owned(prover) && Owned(verifier) && prover.sid == verifier.sid
    requires prover.me.fingerprint != verifier.me.fingerprint
    ensures verifier.me.nickname in prover.roster && prover.me.nickname in verifier.roster
    ensures var made := TokenFor(su, prover.me, prover.ephemeral, prover.roster[verifier.me.nickname]);
      forall token: Block ::
        Accepts(su, verifier.me, verifier.ephemeral, verifier.roster[prover.me.nickname], token) <==> token == made
  {
    hide PairKey, Accepts, Owned;
    SidGivesKeys(prover, verifier);
    SidGivesKeys(verifier, prover);
    TokenAccepted(su, prover.me, prover.ephemeral, verifier.me, verifier.ephemeral,
                  prover.roster[verifier.me.nickname], verifier.roster[prover.me.nickname]);
  }

  /** Authentication completeness: the batch a joiner packs holds, at the index the verifier looks at, a token
      the verifier accepts, unless the joiner took the verifier for someone already authenticated to. */
  lemma JoinerBatchAccepted(su: Suite, joiner: Sess, verifier: Sess)
    requires Owned(joiner) && Owned(verifier) && joiner.sid == verifier.sid
    requires joiner.me.fingerprint != verifier.me.fingerprint
    ensures verifier.me.nickname in joiner.roster && joiner.me.nickname in verifier.roster && WellFormed(verifier)
    ensures var table := BatchTable(su, joiner, |joiner.roster|);
            && (MyIndex(verifier) in table <==> !joiner.roster[verifier.me.nickname].authedTo)
            && (MyIndex(verifier) in table ==>
                  Accepts(su, verifier.me, verifier.ephemeral, verifier.roster[joiner.me.nickname],
                          table[MyIndex(verifier)]))
  {
    hide BatchTable, Accepts, TokenFor, Owned, Sorted;
    TokenCrosses(su, joiner, verifier);
    SidGivesKeys(joiner, verifier);
    SidGivesKeys(verifier, joiner);
    OwnedWellFormed(verifier);
    SameIndexForAll(joiner, verifier, verifier.me.nickname);
    BatchTableAt(su, joiner, |joiner.roster|, MyIndex(verifier));
    SameIndices(joiner, verifier);
    PeerOfIndex(joiner, verifier.me.nickname);
  }

  lemma PeerOfIndex(s: Sess, k: Nick)
    requires k in s.roster
    ensures Peers(s)[IndexIn(s, k)] == k
  {
    hide Sorted;
  }

  /** What the joiner sent, as the others receive it. */
  function JoinerDelivery(su: Suite, joiner: Sess): (d: Delivery)
    requires WellFormed(joiner)
    ensures d.packet.Signed? && d.packet.content.JoinerAuth?
  {
    var shared := WithOwnShare(su, joiner);
    var share := shared.roster[joiner.me.nickname].share;
    Delivery(joiner.me.nickname,
             Signed(joiner.ephemeral, joiner.sid, JoinerAuth(BatchTable(su, shared, |joiner.roster|), share)))
  }

  lemma JoinerDeliverySent(su: Suite, joiner: Sess)
    requires WellFormed(joiner)
    ensures JoinerSends(su, joiner).outbox == joiner.outbox + [JoinerDelivery(su, joiner).packet]
    ensures JoinerSends(su, joiner).me == joiner.me
  {
    hide OwnShare, BatchTable;
  }

  lemma SharedFacts(su: Suite, s: Sess)
    requires Owned(s)
    ensures var t := WithOwnShare(su, s);
            && Owned(t) && t.sid == s.sid && t.me == s.me && t.ephemeral == s.ephemeral && |t.roster| == |s.roster|
            && s.me.nickname in t.roster && t.roster[s.me.nickname].share == OwnShare(su, s)
            && t.roster.Keys == s.roster.Keys
            && forall k :: k in s.roster ==> t.roster[k].authedTo == s.roster[k].authedTo
  {
    hide OwnShare, Sorted, WithOwnShare;
    SharedIs(su, s);
    var t := WithOwnShare(su, s);
    assert IdentityOf(t.roster) == IdentityOf(s.roster);
    SameIndices(s, t);
  }

  lemma SharedIs(su: Suite, s: Sess)
    requires WellFormed(s)
    ensures var mine := s.roster[s.me.nickname].(share := OwnShare(su, s), contributed := true);
      WithOwnShare(su, s) == s.(roster := s.roster[s.me.nickname := mine])
  {
    hide OwnShare;
  }

  /** The last thing a session has said, as the others receive it. */
  function LastSaid(s: Sess): Delivery
    requires s.outbox != []
  {
    Delivery(s.me.nickname, s.outbox[|s.outbox| - 1])
  }

  /** End to end: what a joiner sends after its first view makes a waiting member of the same session mark it
      authenticated and store its truthful share. */
  lemma JoinerWelcomed(su: Suite, joiner: Sess, verifier: Sess, world: Surroundings)
    requires Owned(joiner) && Owned(verifier) && joiner.sid == verifier.sid && verifier.phase == ReShared
    requires joiner.me.fingerprint != verifier.me.fingerprint
    requires verifier.me.nickname in joiner.roster && !joiner.roster[verifier.me.nickname].authedTo
    ensures WellFormed(joiner) && JoinerSends(su, joiner).outbox != []
    ensures var outcome := Handle(su, verifier, LastSaid(JoinerSends(su, joiner)), world);
            var t := After(verifier, outcome);
            && outcome.Done?
            && joiner.me.nickname in t.roster && t.roster[joiner.me.nickname].authenticated
            && t.roster[joiner.me.nickname].contributed
            && t.roster[joiner.me.nickname].share == OwnShare(su, joiner)
  {
    hide Accepts, Owned, BatchTable, OwnShare, WithOwnShare, MyIndex, Taken, Finish, Handle, WellFormed, JoinerSends;
    OwnedWellFormed(joiner);
    OwnedWellFormed(verifier);
    SharedFacts(su, joiner);
    var shared := WithOwnShare(su, joiner);
    var d := JoinerDelivery(su, joiner);
    JoinerDeliverySent(su, joiner);
    assert LastSaid(JoinerSends(su, joiner)) == d;
    JoinerBatchAccepted(su, shared, verifier);
    SidGivesKeys(verifier, joiner);
    VouchedHandled(su, verifier, d, world);
    TakenOne(verifier, d.sender, ShareIn(d.packet.content), true);
    FinishKeepsRoster(su, Taken(verifier, d.sender, ShareIn(d.packet.content), true), world);
  }

  lemma VouchedHandled(su: Suite, s: Sess, d: Delivery, world: Surroundings)
    requires WellFormed(s) && s.phase == ReShared && FromMember(s, d) && d.packet.content.JoinerAuth?
    requires MyIndex(s) in d.packet.content.table
    requires Accepts(su, s.me, s.ephemeral, s.roster[d.sender], d.packet.content.table[MyIndex(s)])
    ensures Handle(su, s, d, world) == Finish(su, Taken(s, d.sender, ShareIn(d.packet.content), true), world)
  {
    hide Accepts, MyIndex, Authenticate, WithShare, Taken, Finish, WellFormed;
    VouchedIsTaken(su, s, d.sender, d.packet.content.table[MyIndex(s)], ShareIn(d.packet.content));
  }

  lemma TakenOne(s: Sess, k: Nick, share: Block, vouched: bool)
    requires k in s.roster
    ensures k in Taken(s, k, share, vouched).roster
    ensures var p := Taken(s, k, share, vouched).roster[k];
            p.share == share && p.contributed && p.authenticated == (vouched || s.roster[k].authenticated)
  {}

  lemma FinishKeepsRoster(su: Suite, s: Sess, world: Surroundings)
    requires WellFormed(s)
    ensures Finish(su, s, world).Done? && Finish(su, s, world).sess.roster == s.roster
  {
    hide Ready, SessionKey, ConfirmationOf;
  }

  // ---------- and the other way round ----------

  lemma ViewSent(su: Suite, member: Sess, joiner: Nick)
    requires WellFormed(member) && joiner in member.roster
    ensures var birth := SendView(su, member, joiner);
      var view := SessionView(WithOwnShare(su, member).roster);
      var token := if joiner == [] then ZERO else TokenFor(su, member.me, member.ephemeral, member.roster[joiner]);
      var packet := Signed(member.ephemeral, member.sid, ParticipantsInfo(view, token, OwnShare(su, member)));
      && birth.Born? && birth.child.outbox != [] && birth.child.me == member.me
      && LastSaid(birth.child) == Delivery(member.me.nickname, packet)
  {
    hide OwnShare, TokenFor, SessionView;
  }

  /** End to end in the other direction: the view a member sends makes a waiting joiner of the same session mark it
      authenticated and store its truthful share. Only a joiner without a nickname is not made a token. */
  lemma MemberWelcomed(su: Suite, member: Sess, joiner: Sess, world: Surroundings)
    requires Owned(member) && Owned(joiner) && member.sid == joiner.sid && joiner.phase == JoinRequested
    requires member.me.fingerprint != joiner.me.fingerprint
    ensures WellFormed(member) && WellFormed(joiner)
    ensures SendView(su, member, joiner.me.nickname).Born?
    ensures SendView(su, member, joiner.me.nickname).child.outbox != []
    ensures var (d, k) := (LastSaid(SendView(su, member, joiner.me.nickname).child), member.me.nickname);
            var outcome := Handle(su, joiner, d, world);
            && IsInfo(d)
            && (joiner.me.nickname != [] ==>
                  && outcome.Done? && k in outcome.sess.roster && outcome.sess.roster[k].authenticated
                  && outcome.sess.roster[k].contributed && outcome.sess.roster[k].share == OwnShare(su, member))
            && (joiner.me.nickname == [] ==> d.packet.content.token == ZERO)
  {
    hide Accepts, Owned, OwnShare, WithOwnShare, MyIndex, Taken, Finish, Handle, WellFormed, TokenFor, SessionView,
      SendView;
    OwnedWellFormed(member);
    OwnedWellFormed(joiner);
    SidGivesKeys(member, joiner);
    SidGivesKeys(joiner, member);
    TokenCrosses(su, member, joiner);
    ViewSent(su, member, joiner.me.nickname);
    if joiner.me.nickname != [] {
      var d := LastSaid(SendView(su, member, joiner.me.nickname).child);
      ViewHandled(su, joiner, d, world);
      TakenOne(joiner, d.sender, d.packet.content.infoShare, true);
      FinishKeepsRoster(su, Taken(joiner, d.sender, d.packet.content.infoShare, true), world);
    }
  }

  lemma ViewHandled(su: Suite, s: Sess, d: Delivery, world: Surroundings)
    requires WellFormed(s) && s.phase == JoinRequested && IsInfo(d) && FromMember(s, d)
    requires Accepts(su, s.me, s.ephemeral, s.roster[d.sender], d.packet.content.token)
    ensures Handle(su, s, d, world) == Finish(su, Taken(s, d.sender, d.packet.content.infoShare, true), world)
  {
    hide Accepts, Authenticate, WithShare, Taken, Finish, WellFormed;
    VouchedIsTaken(su, s, d.sender, d.packet.content.token, d.packet.content.infoShare);
  }

  // ---------- children that carry their parent's shares ----------

  lemma FutureRosterCopies(s: Sess)
    requires WellFormed(s)
    ensures Consistent(FutureRoster(s))
    ensures forall k :: k in FutureRoster(s) ==>
      k in s.roster && FutureRoster(s)[k].share == s.roster[k].share
      && FutureRoster(s)[k].authenticated == s.roster[k].authenticated
      && FutureRoster(s)[k].contributed == s.roster[k].contributed
  {}

  lemma FutureShares(s: Sess)
    ensures forall k :: k in FutureRoster(s) ==> k in s.roster && FutureRoster(s)[k].share == s.roster[k].share
  {}

  /** Populating and publishing the own share leaves every other member's share and flags as they came. */
  lemma PeerBirthCopies(su: Suite, me: ParticipantId, ephemeral: Option<Block>, roster: Roster, world: Surroundings)
    requires Consistent(roster)
    ensures var birth := Conceive(su, Peer, me, ephemeral, roster, map[], None, world);
            birth.Born? ==>
              && birth.child.phase == ReShared && birth.child.roster.Keys == roster.Keys && me.nickname in roster
              && birth.child.roster[me.nickname].authenticated && birth.child.roster[me.nickname].contributed
              && forall k :: k in roster && k != me.nickname ==> birth.child.roster[k] == roster[k]
  {
    hide OwnShare, Sorted, WellFormed, IdentityOf;
    var birth := Conceive(su, Peer, me, ephemeral, roster, map[], None, world);
    if birth.Born? {
      var seed := Populate(me, ephemeral.value, roster, map[], ReShared);
      assert birth.child.roster == WithOwnShare(su, seed).roster;
    }
  }

  /** A session bred by a leave or by the session timer out of a session with everybody's share is born with
      every share counted: the copies of its members keep their flags. */
  lemma PeerChildBornReady(su: Suite, s: Sess, world: Surroundings)
    requires WellFormed(s) && Ready(s)
    ensures Consistent(FutureRoster(s))
    ensures var birth := Conceive(su, Peer, s.me, s.future, FutureRoster(s), map[], None, world);
            birth.Born? ==>
              && Ready(birth.child) && birth.child.phase == ReShared
              && forall k :: k in birth.child.roster && k != s.me.nickname ==>
                   k in s.roster && birth.child.roster[k].share == s.roster[k].share
  {
    hide FutureRoster, Conceive, WellFormed;
    FutureRosterCopies(s);
    PeerBirthCopies(su, s.me, s.future, FutureRoster(s), world);
  }

  lemma ConfirmAuthOnShare(su: Suite, s: Sess, d: Delivery, world: Surroundings)
    requires WellFormed(s) && s.phase == ReShared && FromMember(s, d) && d.packet.content.GroupShare?
    ensures Handle(su, s, d, world) == Finish(su, WithShare(s, d.sender, d.packet.content.share), world)
  {
    hide Finish, WithShare, MyIndex, Authenticate;
  }

  lemma StoredOwned(s: Sess, k: Nick, share: Block)
    requires Owned(s) && k in s.roster
    ensures var t := WithShare(s, k, share);
            && Owned(t) && t.sid == s.sid && t.me == s.me && t.roster.Keys == s.roster.Keys && t.phase == s.phase
            && (Ready(s) ==> Ready(t)) && t.roster[k].share == share
            && forall l :: l in s.roster && l != k ==> t.roster[l].share == s.roster[l].share
  {
    assert IdentityOf(WithShare(s, k, share).roster) == IdentityOf(s.roster);
  }

  /** A ready session generates its key and asks to be the heir; identity, members and shares stay. */
  lemma ReadyFinishes(su: Suite, s: Sess, world: Surroundings)
    requires Owned(s) && Ready(s)
    ensures var outcome := Finish(su, s, world);
            && outcome.Done? && outcome.action == PresumeHeir && Owned(outcome.sess)
            && outcome.sess.phase == GroupKeyGenerated && outcome.sess.roster == s.roster
            && outcome.sess.sid == s.sid && outcome.sess.me == s.me
  {
    hide SessionKey, ConfirmationOf, Ready;
  }

  /** In such a session the first share that arrives, from whomever, generates the key. The array under it is
      right only if that share is truthful and every other old share happens to be the new truthful one. */
  lemma FirstShareGeneratesKey(su: Suite, s: Sess, d: Delivery, world: Surroundings)
    requires Owned(s) && Ready(s) && s.phase == ReShared && |s.sid| == |s.roster|
    requires FromMember(s, d) && d.packet.content.GroupShare?
    ensures var (outcome, i) := (Handle(su, s, d, world), IndexIn(s, d.sender));
            && outcome.Done? && outcome.action == PresumeHeir && WellFormed(outcome.sess)
            && outcome.sess.phase == GroupKeyGenerated
            && (AllSecrets(su, outcome.sess) == Secrets(su, s.sid) <==>
                  && (i != MyIndex(s) ==> d.packet.content.share == Ring.TrueShare(Secrets(su, s.sid), i))
                  && forall j :: 0 <= j < |s.roster| && j != i && j != MyIndex(s) ==> TrueAt(su, s, j))
  {
    hide Handle, SessionKey, ConfirmationOf, Secret, MyIndex, Owned, WithShare, Sorted, AllSecrets, Finish, Ready;
    var share := d.packet.content.share;
    OwnedWellFormed(s);
    ConfirmAuthOnShare(su, s, d, world);
    StoredOwned(s, d.sender, share);
    ReadyFinishes(su, WithShare(s, d.sender, share), world);
    var t := Handle(su, s, d, world).sess;
    OwnedWellFormed(t);
    SecretsRebuiltIff(su, t);
    SameIndices(s, t);
    PeerOfIndex(s, d.sender);
    SameIndexForAll(s, t, s.me.nickname);
    var i := IndexIn(s, d.sender);
    forall j | 0 <= j < |s.roster| && j != i ensures TrueAt(su, t, j) <==> TrueAt(su, s, j) {
      PlacesDiffer(s, i, j);
    }
    assert TrueAt(su, t, i) <==> share == Ring.TrueShare(Secrets(su, s.sid), i);
    assert MyIndex(t) == MyIndex(s) by { MyIndexIs(s); MyIndexIs(t); }
  }

  lemma MyIndexIs(s: Sess)
    requires WellFormed(s)
    ensures MyIndex(s) == IndexIn(s, s.me.nickname)
  {}

  lemma PlacesDiffer(s: Sess, i: nat, j: nat)
    requires i < |s.roster| && j < |s.roster| && i != j
    ensures Peers(s)[i] != Peers(s)[j] && Peers(s)[j] in s.roster
  {
    hide Sorted, Less;
    assert |s.roster.Keys| == |s.roster|;
    if i < j { SortedDistinct(s.roster.Keys, i, j); } else { SortedDistinct(s.roster.Keys, j, i); }
  }
}
