/** What each kind of message does to a session, told by what its sender holds and what happens at the other end. */
module SessionLaws {
  import opened Bytes
  import opened Crypto
  import opened Participants
  import opened Sessions
  import opened SessionSteps
  import opened SessionInvariants
  import opened SessionBirths
  import opened SessionActions
  import opened SessionRuns
  import opened SessionKeys
  import opened Completeness
  import opened Inheritance
  import Wire

  // ---------- authentication ----------

  /** The member's share is stored and counted and the member is authenticated. */
  ghost predicate Admitted(t: Sess, k: Nick, share: Block) {
    k in t.roster && t.roster[k].authenticated && t.roster[k].contributed && t.roster[k].share == share
  }

  /** A joiner takes a member for authenticated by its view exactly when the token is the one the member makes for the
      joiner under the keys both have in this session; any other token is an authentication error that changes
      nothing. */
  lemma ViewTokenIff(su: Suite, member: Sess, joiner: Sess, d: Delivery, world: Surroundings)
    requires Owned(member) && Owned(joiner) && member.sid == joiner.sid && joiner.phase == JoinRequested
    requires member.me.fingerprint != joiner.me.fingerprint
    requires IsInfo(d) && FromMember(joiner, d) && d.sender == member.me.nickname
    ensures joiner.me.nickname in member.roster && WellFormed(joiner)
    ensures var outcome := Handle(su, joiner, d, world);
      if d.packet.content.token == TokenFor(su, member.me, member.ephemeral, member.roster[joiner.me.nickname])
      then outcome.Done? && Admitted(outcome.sess, d.sender, d.packet.content.infoShare)
      else outcome == Threw(joiner, AuthenticationFailed)
  {
    hide Accepts, Owned, Taken, Finish, Handle, WellFormed, TokenFor;
    OwnedWellFormed(joiner);
    TokenCrosses(su, member, joiner);
    if Accepts(su, joiner.me, joiner.ephemeral, joiner.roster[d.sender], d.packet.content.token) {
      ViewHandled(su, joiner, d, world);
      TakenOne(joiner, d.sender, d.packet.content.infoShare, true);
      FinishKeepsRoster(su, Taken(joiner, d.sender, d.packet.content.infoShare, true), world);
    } else {
      ViewRefused(su, joiner, d, world);
    }
  }

  lemma ViewRefused(su: Suite, s: Sess, d: Delivery, world: Surroundings)
    requires WellFormed(s) && s.phase == JoinRequested && IsInfo(d) && FromMember(s, d)
    requires !Accepts(su, s.me, s.ephemeral, s.roster[d.sender], d.packet.content.token)
    ensures Handle(su, s, d, world) == Threw(s, AuthenticationFailed)
  {
    hide Accepts, Finish, WithShare, WellFormed;
  }

  /** And so does a waiting member with the entry a joiner's batch has for it. */
  lemma BatchTokenIff(su: Suite, joiner: Sess, member: Sess, d: Delivery, world: Surroundings)
    requires Owned(member) && Owned(joiner) && member.sid == joiner.sid && member.phase == ReShared
    requires member.me.fingerprint != joiner.me.fingerprint
    requires FromMember(member, d) && d.sender == joiner.me.nickname && d.packet.content.JoinerAuth?
    requires MyIndex(member) in d.packet.content.table
    ensures member.me.nickname in joiner.roster && WellFormed(member)
    ensures var outcome := Handle(su, member, d, world);
      if d.packet.content.table[MyIndex(member)]
         == TokenFor(su, joiner.me, joiner.ephemeral, joiner.roster[member.me.nickname])
      then outcome.Done? && Admitted(outcome.sess, d.sender, d.packet.content.authShare)
      else outcome == Threw(member, AuthenticationFailed)
  {
    hide Accepts, Owned, Taken, Finish, Handle, WellFormed, TokenFor, MyIndex;
    OwnedWellFormed(member);
    TokenCrosses(su, joiner, member);
    var token := d.packet.content.table[MyIndex(member)];
    if Accepts(su, member.me, member.ephemeral, member.roster[d.sender], token) {
      VouchedHandled(su, member, d, world);
      TakenOne(member, d.sender, d.packet.content.authShare, true);
      FinishKeepsRoster(su, Taken(member, d.sender, d.packet.content.authShare, true), world);
    } else {
      BatchRefused(su, member, d, world);
    }
  }

  lemma BatchRefused(su: Suite, s: Sess, d: Delivery, world: Surroundings)
    requires WellFormed(s) && s.phase == ReShared && FromMember(s, d) && d.packet.content.JoinerAuth?
    requires MyIndex(s) in d.packet.content.table
    requires !Accepts(su, s.me, s.ephemeral, s.roster[d.sender], d.packet.content.table[MyIndex(s)])
    ensures Handle(su, s, d, world) == Threw(s, AuthenticationFailed)
  {
    hide Accepts, Finish, WithShare, MyIndex, WellFormed;
  }

  /** The joiner's constructor refuses the view of a member that does not prove itself in the same way. */
  lemma JoinTokenIff(su: Suite, member: Sess, me: ParticipantId, key: Block, d: Delivery, world: Surroundings)
    requires Owned(member) && IsInfo(d) && OwnFace(me, key, ListToMap(d.packet.content.view))
    requires IdentityOf(ListToMap(d.packet.content.view)) == member.sid
    requires d.sender == member.me.nickname && d.packet.signer == member.ephemeral
    requires member.me.fingerprint != me.fingerprint
    ensures me.nickname in member.roster
    ensures if d.packet.content.token == TokenFor(su, member.me, member.ephemeral, member.roster[me.nickname])
            then Join(su, me, key, d, world).Born?
            else Join(su, me, key, d, world) == Failed(AuthenticationFailed)
  {
    hide Accepts, Owned, Finish, WithShare, WellFormed, TokenFor, JoinSeed, ListToMap, JoinerSends, IdentityOf, Join,
      Silent, Waits, Evolves, AuthAndReshare;
    var view := d.packet.content.view;
    JoinerReadsFacts(su, me, key, view);
    var seed, s := JoinSeed(me, key, view), JoinerReads(su, me, key, view);
    WaitsOwned(s);
    TokenCrosses(su, member, s);
    SidGivesKeys(s, member);
    assert FromMember(s, d);
    SenderKeyBefore(seed, s, d);
    if Accepts(su, s.me, s.ephemeral, s.roster[d.sender], d.packet.content.token) {
      AcceptedReads(su, s, d, world);
      JoinFrom(su, me, key, d, world);
    } else {
      JoinRefused(su, me, key, d, world);
    }
  }

  lemma WaitsOwned(s: Sess)
    requires Waits(s)
    ensures Owned(s) && WellFormed(s)
  {}

  lemma JoinRefused(su: Suite, me: ParticipantId, key: Block, d: Delivery, world: Surroundings)
    requires IsInfo(d) && me.nickname in ListToMap(d.packet.content.view)
    requires FromMember(JoinSeed(me, key, d.packet.content.view), d)
    requires var s := JoinerReads(su, me, key, d.packet.content.view);
      d.sender in s.roster && !Accepts(su, s.me, s.ephemeral, s.roster[d.sender], d.packet.content.token)
    ensures Join(su, me, key, d, world) == Failed(AuthenticationFailed)
  {
    hide Accepts, JoinerSends, Populate, WellFormed, Finish, WithShare;
    ListToMapKeys(d.packet.content.view);
    assert d.packet.content.view != [];
    hide ListToMap;
  }

  // ---------- in session ----------

  /** What an in-session message does, by who can be read to have sent it. */
  lemma ReceiveByMember(su: Suite, s: Sess, d: Delivery, k: Nick, world: Surroundings)
    requires WellFormed(s) && s.phase in {InSession, Dead, LeaveRequested} && Readable(s, d, k)
    ensures Handle(su, s, d, world)
         == if s.phase == LeaveRequested then Done(if world.farewelled then s.(phase := Dead) else s, NoAction)
            else if s.phase == InSession && d.packet.content.subType == Wire.LeaveMessage && k != s.me.nickname
              then Shrink(su, s, k, world)
            else Done(s, NoAction)
  {
    hide Shrink, WellFormed, Sorted;
  }

  lemma UnreadableIgnored(su: Suite, s: Sess, d: Delivery, world: Surroundings)
    requires WellFormed(s) && d.packet.Signed? && d.packet.content.InSessionMessage?
    requires forall k :: !Readable(s, d, k)
    ensures Handle(su, s, d, world) in {Done(s, NoAction), Threw(s, CryptoFailed)}
  {
    hide Shrink, WellFormed, Peers, IndexIn;
    if d.packet.content.index < |s.roster| {
      IndexNames(s, d.packet.content.index);
      assert !Readable(s, d, Peers(s)[d.packet.content.index]);
    }
  }

  /** The moves that touch no leavers. */
  lemma MoveKeepsLeavers(su: Suite, s: Sess, d: Delivery, world: Surroundings, m: Move)
    requires WellFormed(s) && Legal(su, s, d, m) && !m.Shed?
    ensures Apply(su, s, d, world, m).zombies == s.zombies
  {
    hide Legal, WellFormed, ConfirmIfReady, Taken, MarkConfirmed;
    if m.Take? {
      TakePhase(su, s, d, m);
      TakenZombies(s, d.sender, m.share, m.vouched);
      ConfirmIfReadyZombies(su, Taken(s, d.sender, m.share, m.vouched), world);
    } else if m.Mark? {
      MarkMove(su, s, d);
      MarkShape(su, s, d);
    }
  }

  /** A member becomes a leaver by a message exactly when the message is its own leave under the session key; then
      nothing else changes, and the session breeds its successor without it as soon as its owner has a next key and is
      not leaving. */
  lemma LeavesIff(su: Suite, s: Sess, d: Delivery, world: Surroundings, k: Nick)
    requires Fit(s)
    ensures WellFormed(s)
    ensures var (t, action) := (After(s, Handle(su, s, d, world)), ActionOf(Handle(su, s, d, world)));
      && (k !in s.zombies ==> (k in t.zombies <==> Leaves(s, d, k)))
      && (Leaves(s, d, k) ==>
            && t == s.(zombies := s.zombies[k := s.roster[k]])
            && (action.NewPrioritySession? <==> s.future.Some? && s.me.nickname in FutureRoster(t))
            && (action.NewPrioritySession? ==> Succeeds(action.heir, s, k)))
      && ((forall l :: !Leaves(s, d, l)) ==> t.zombies == s.zombies && !action.NewPrioritySession?)
  {
    hide Shrink, WellFormed, FutureRoster, Leaves, Readable, Handle, Succeeds, Fit;
    FitWellFormed(s);
    if exists l :: Leaves(s, d, l) {
      var l :| Leaves(s, d, l);
      OneLeaver(s, d, l, k);
      LeaveHandled(su, s, d, world, l);
      ShrinkSucceeds(su, s, l, world);
    } else {
      NobodyLeaves(su, s, d, world);
    }
  }

  function ActionOf(outcome: Outcome): Action {
    if outcome.Done? then outcome.action else NoAction
  }

  /** The session without the leaver: bred of the future members but for it, under their next keys. */
  ghost predicate Succeeds(heir: Sess, s: Sess, leaver: Nick) {
    && Bred(heir) && heir.me == s.me && heir.parental == map[] && heir.zombies == map[]
    && heir.sid == IdentityOf(FutureRoster(s)) - {leaver} && heir.roster.Keys == FutureRoster(s).Keys - {leaver}
  }

  lemma OneLeaver(s: Sess, d: Delivery, k: Nick, l: Nick)
    requires Leaves(s, d, k)
    ensures Leaves(s, d, l) <==> k == l
    ensures k in s.roster && k !in s.zombies
  {
    hide IndexIn;
    if Leaves(s, d, l) {
      IndexDistinct(s, k, l);
    }
  }

  lemma LeaveHandled(su: Suite, s: Sess, d: Delivery, world: Surroundings, k: Nick)
    requires WellFormed(s) && Leaves(s, d, k)
    ensures Handle(su, s, d, world) == Shrink(su, s, k, world)
  {
    hide Shrink, WellFormed, Readable, Handle;
    assert Readable(s, d, k);
    ReadableIs(s, d, k);
    ReceiveByMember(su, s, d, k, world);
  }

  lemma NobodyLeaves(su: Suite, s: Sess, d: Delivery, world: Surroundings)
    requires Fit(s) && WellFormed(s) && forall l :: !Leaves(s, d, l)
    ensures After(s, Handle(su, s, d, world)).zombies == s.zombies
    ensures !ActionOf(Handle(su, s, d, world)).NewPrioritySession?
  {
    hide Handle, WellFormed, Leaves, Fit, FutureRoster, Bred, Apply;
    var m := HandleMoves(su, s, d, world);
    assert !m.Shed?;
    hide Legal;
    MoveKeepsLeavers(su, s, d, world, m);
    HandlePhases(su, s, d, world);
    if s.phase == InSession {
      NothingNew(su, s, d, world);
    }
  }

  lemma NothingNew(su: Suite, s: Sess, d: Delivery, world: Surroundings)
    requires WellFormed(s) && s.phase == InSession && forall l :: !Leaves(s, d, l)
    ensures !ActionOf(Handle(su, s, d, world)).NewPrioritySession?
  {
    hide WellFormed, Readable, Shrink, Conceive, ParseParticipant, FutureRoster, Receive;
    if d.packet.Signed? && d.packet.content.InSessionMessage? {
      hide Handle;
      if k :| Readable(s, d, k) {
        assert !Leaves(s, d, k);
        ReadableIs(s, d, k);
        ReceiveByMember(su, s, d, k, world);
        ShrinkAfter(su, s, k, world);
      } else {
        UnreadableIgnored(su, s, d, world);
      }
    }
  }

  lemma ShrinkSucceeds(su: Suite, s: Sess, leaver: Nick, world: Surroundings)
    requires Fit(s) && leaver in s.roster && leaver !in s.zombies
    ensures WellFormed(s)
    ensures var (outcome, t) := (Shrink(su, s, leaver, world), s.(zombies := s.zombies[leaver := s.roster[leaver]]));
      && After(s, outcome) == t
      && (ActionOf(outcome).NewPrioritySession? <==> s.future.Some? && s.me.nickname in FutureRoster(t))
      && (ActionOf(outcome).NewPrioritySession? ==> Succeeds(outcome.action.heir, s, leaver))
  {
    hide FutureRoster, WellFormed, Conceive, Bred, IdentityOf, Fit;
    FitWellFormed(s);
    var t := s.(zombies := s.zombies[leaver := s.roster[leaver]]);
    ShedMembers(s, leaver);
    FutureRosterConsistent(s);
    var live := FutureRoster(t);
    PeerNeverFatal(su, s.me, s.future, live, map[], world);
    PeerBornIff(su, s.me, s.future, live, world);
    if Conceive(su, Peer, s.me, s.future, live, map[], None, world).Born? {
      ConceiveBreeds(su, Peer, s.me, s.future, live, map[], None, world);
      IdentityWithout(FutureRoster(s), leaver);
    }
  }

  lemma IdentityWithout(r: Roster, k: Nick)
    ensures IdentityOf(r - {k}) == IdentityOf(r) - {k} && (r - {k}).Keys == r.Keys - {k}
  {}

  /** A session that is leaving ends by a message exactly when it can read the message and everybody has farewelled; an
      in-session message never ends any other. */
  lemma ExpiresIff(su: Suite, s: Sess, d: Delivery, world: Surroundings)
    requires WellFormed(s) && s.phase in {InSession, LeaveRequested}
    ensures After(s, Handle(su, s, d, world)).phase == Dead
       <==> s.phase == LeaveRequested && world.farewelled && exists k :: Readable(s, d, k)
    ensures s.phase == LeaveRequested ==> Handle(su, s, d, world) in {Done(s, NoAction), Threw(s, CryptoFailed),
                                                                     Done(s.(phase := Dead), NoAction)}
  {
    hide WellFormed, Readable, Shrink, Conceive, ParseParticipant, FutureRoster, Peers;
    if exists k :: Readable(s, d, k) {
      var k :| Readable(s, d, k);
      ReadableIs(s, d, k);
      ReceiveByMember(su, s, d, k, world);
      ShrinkAfter(su, s, k, world);
    } else if d.packet.Signed? && d.packet.content.InSessionMessage? {
      UnreadableIgnored(su, s, d, world);
    }
  }

  // ---------- confirmations ----------

  lemma KeyThenName(k: Block, m: Nick, l: Block, n: Nick)
    ensures k + m == l + n <==> k == l && m == n
  {
    assert (k + m)[..HASH_LENGTH] == k && (l + n)[..HASH_LENGTH] == l;
    assert (k + m)[HASH_LENGTH..] == m && (l + n)[HASH_LENGTH..] == n;
  }

  /** A session that has its key marks the sender of a confirmation, whoever that confirmation was made for and under
      whatever key, exactly when it was made for this sender and under this key: as far as the two strings that are
      hashed do not collide. Nobody else is marked by it. */
  lemma ConfirmationMarksIff(su: Suite, s: Sess, d: Delivery, key: Block, maker: Nick, world: Surroundings)
    requires WellFormed(s) && s.phase == GroupKeyGenerated && FromMember(s, d) && IsConfirmation(d.packet)
    requires d.packet.content.confirmation == ConfirmationOf(su, key, maker)
    requires Hash(su, key + maker) == Hash(su, s.key + d.sender) ==> key + maker == s.key + d.sender
    ensures var t := After(s, Handle(su, s, d, world));
      && |t.confirmed| == |s.confirmed|
      && forall k :: k in s.roster ==>
           (t.confirmed[IndexIn(s, k)] <==>
              s.confirmed[IndexIn(s, k)] || (k == d.sender && key == s.key && maker == d.sender))
  {
    hide MarkConfirmed, IndexIn, Handle, EverybodyConfirmed;
    KeyThenName(key, maker, s.key, d.sender);
    MarkHandled(su, s, d, world);
    MarkShape(su, s, d);
    forall k | k in s.roster && k != d.sender ensures IndexIn(s, k) != IndexIn(s, d.sender) {
      IndexDistinct(s, k, d.sender);
    }
  }

  /** Under one key the confirmations of members with nicknames of less than 32 bytes are all different. */
  ghost predicate ConfirmationsName(su: Suite) {
    forall k: Block, m: Nick, n: Nick :: |m| < HASH_LENGTH && |n| < HASH_LENGTH ==>
      (ConfirmationOf(su, k, m) == ConfirmationOf(su, k, n) ==> m == n)
  }

  /** More cannot be asked: there are more nicknames than digests, so that under any key two members somewhere have one
      confirmation, whatever the suite. */
  lemma SomeConfirmationsCollide(su: Suite, key: Block)
    ensures exists m: Nick, n: Nick :: m != n && ConfirmationOf(su, key, m) == ConfirmationOf(su, key, n)
  {
    hide ConfirmationOf;
    var count := Pow256(HASH_LENGTH);
    var codes := seq(count + 1, i requires 0 <= i <= count => CodeOf(ConfirmationOf(su, key, LongNick(i))));
    var i, j := Pigeonhole(codes, count);
    SameCode(ConfirmationOf(su, key, LongNick(i)), ConfirmationOf(su, key, LongNick(j)));
    assert |LongNick(i)| != |LongNick(j)|;
  }

  function LongNick(i: nat): (n: Nick)
    ensures |n| == i
  {
    seq(i, _ => 0)
  }

  /** A digest as a number. */
  function CodeOf(b: Block): (n: nat)
    ensures n < Pow256(HASH_LENGTH)
  {
    FromLittleEndianBound(b);
    FromLittleEndian(b)
  }

  lemma SameCode(a: Block, b: Block)
    ensures CodeOf(a) == CodeOf(b) ==> a == b
  {
    if CodeOf(a) == CodeOf(b) {
      FromLittleEndianInjective(a, b);
    }
  }

  // ---------- views ----------

  /** The view a member sends tells a joiner of everybody in the session, under which keys, and whom the member takes
      for authenticated. */
  lemma ViewTells(su: Suite, member: Sess, joiner: Nick)
    requires Owned(member) && joiner in member.roster
    ensures WellFormed(member)
    ensures var birth := SendView(su, member, joiner);
      && birth.Born? && birth.child.outbox != [] && IsInfo(LastSaid(birth.child))
      && var (d, listed) := (LastSaid(birth.child), ListToMap(LastSaid(birth.child).packet.content.view));
         && d.sender == member.me.nickname && d.packet.signer == member.ephemeral && d.packet.sid == member.sid
         && IdentityOf(listed) == member.sid && listed.Keys == member.roster.Keys
         && (joiner != [] ==>
               d.packet.content.token == TokenFor(su, member.me, member.ephemeral, member.roster[joiner]))
         && forall k :: k in listed ==> (listed[k].authenticated <==> member.roster[k].authenticated)
  {
    hide OwnShare, TokenFor, SessionView, ListToMap, SendView, Owned, Consistent, WithOwnShare, IdentityOf;
    OwnedWellFormed(member);
    ViewSent(su, member, joiner);
    var shared := WithOwnShare(su, member);
    SharedFlags(su, member);
    ViewCarries(shared.roster);
    hide WellFormed;
    SameFaces(ListToMap(SessionView(shared.roster)), shared.roster);
  }

  lemma SameFaces(a: Roster, b: Roster)
    requires a.Keys == b.Keys && forall k :: k in a ==> a[k].id == b[k].id && a[k].ephemeral == b[k].ephemeral
    ensures IdentityOf(a) == IdentityOf(b)
  {}

  lemma SharedFlags(su: Suite, s: Sess)
    requires Owned(s)
    ensures WellFormed(s)
    ensures var t := WithOwnShare(su, s);
      && WellFormed(t) && Consistent(t.roster) && t.roster.Keys == s.roster.Keys && IdentityOf(t.roster) == s.sid
      && forall k :: k in s.roster ==> t.roster[k].authenticated == s.roster[k].authenticated
  {
    hide OwnShare, Sorted, WithOwnShare;
    SharedIs(su, s);
    var t := WithOwnShare(su, s);
    assert IdentityOf(t.roster) == IdentityOf(s.roster);
  }

  /** Of everybody but its owner and the sender a joiner's session thinks what the view says: flags are taken over from
      it, and only its sender has proved itself. */
  lemma JoinerBelieves(su: Suite, me: ParticipantId, key: Block, d: Delivery, world: Surroundings)
    requires IsInfo(d) && Join(su, me, key, d, world).Born?
    ensures var (t, listed) := (Join(su, me, key, d, world).child, ListToMap(d.packet.content.view));
      && t.roster.Keys == listed.Keys && d.sender in listed && me.nickname in listed
      && t.roster[d.sender].share == d.packet.content.infoShare
      && forall k :: k in listed ==>
           && (t.roster[k].authenticated <==> listed[k].authenticated || k in {me.nickname, d.sender})
           && (t.roster[k].contributed <==> k in {me.nickname, d.sender})
  {
    hide ListToMap, JoinSeed, JoinerSends, Join, WellFormed, Evolves, Spoke, Silent, IdentityOf, AuthAndReshare;
    var view := d.packet.content.view;
    JoinIsMove(su, me, key, d, world);
    var seed := JoinSeed(me, key, view);
    JoinSeedFacts(me, key, view);
    JoinSeedFlags(me, key, view);
    JoinerSendsFacts(su, seed);
    SpokeEvolves(seed, JoinerSends(su, seed));
    SenderKeyKept(seed, JoinerSends(su, seed), d);
    AuthStores(su, JoinerSends(su, seed), d, world);
  }

  lemma JoinSeedFlags(me: ParticipantId, key: Block, view: seq<UnauthenticatedParticipant>)
    requires me.nickname in ListToMap(view)
    ensures var (s, listed) := (JoinSeed(me, key, view), ListToMap(view));
      && s.roster.Keys == listed.Keys
      && forall k :: k in listed ==>
           && (s.roster[k].authenticated <==> listed[k].authenticated || k == me.nickname)
           && (k != me.nickname ==> s.roster[k].authedTo == listed[k].authedTo)
  {
    hide ListToMap;
  }

  lemma AuthStores(su: Suite, s: Sess, d: Delivery, world: Surroundings)
    requires WellFormed(s) && IsInfo(d) && d.sender in s.roster && AuthAndReshare(su, s, d, world).Done?
    ensures AuthAndReshare(su, s, d, world).sess.roster
         == Taken(s, d.sender, d.packet.content.infoShare, true).roster
  {
    hide Accepts, WithShare, Taken, Finish, WellFormed;
    VouchedIsTaken(su, s, d.sender, d.packet.content.token, d.packet.content.infoShare);
    FinishKeepsRoster(su, Taken(s, d.sender, d.packet.content.infoShare, true), world);
  }

  // ---------- the handshake of a join ----------

  /** The host has filled its new session, in which the joiner has the keys of its request, and has sent it its view. */
  ghost predicate Hosts(su: Suite, seed: Sess, host: Sess, u: UnauthenticatedParticipant) {
    && Owned(seed) && Owned(host) && seed.sid == host.sid && seed.me == host.me && host.phase == ReShared
    && u.id.nickname in seed.roster && seed.sid[u.id.nickname] == Face(u.id.fingerprint, u.ephemeral)
    && WellFormed(seed) && SendView(su, seed, u.id.nickname) == Born(host)
    && host.roster.Keys == seed.roster.Keys
    && forall k :: k in seed.roster ==> host.roster[k].authenticated == seed.roster[k].authenticated
  }

  /** The joiner's session has the host's members, its host is admitted, and everybody else is trusted as far as the
      host trusts them. */
  ghost predicate Joined(t: Sess, host: Sess, joiner: Nick, share: Block) {
    && t.sid == host.sid && t.roster.Keys == host.roster.Keys && Admitted(t, host.me.nickname, share)
    && forall k :: k in host.roster && k != joiner ==>
         (t.roster[k].authenticated <==> host.roster[k].authenticated || k == host.me.nickname)
  }

  /** End to end, for any session in session and any joiner with a nickname and a long-term key of its own: what the
      session answers the request with invites the joiner. Its view makes the joiner's session, and what the joiner
      sends back makes the host's new session admit the joiner. */
  lemma Handshake(su: Suite, s: Sess, request: Delivery, u: UnauthenticatedParticipant, host: Sess,
                  world: Surroundings, elsewhere: Surroundings)
    requires Answers(su, s, request, u, host, world) && Renewable(s)
    requires u.id.nickname != [] && u.id.fingerprint != s.me.fingerprint
    ensures WellFormed(host) && host.outbox != [] && IsInfo(LastSaid(host))
    ensures var d := LastSaid(host);
      && Join(su, u.id, u.ephemeral, d, elsewhere).Born?
      && Joined(Join(su, u.id, u.ephemeral, d, elsewhere).child, host, u.id.nickname, d.packet.content.infoShare)
    ensures u.id.nickname in ListToMap(LastSaid(host).packet.content.view)
    ensures var joiner := JoinerReads(su, u.id, u.ephemeral, LastSaid(host).packet.content.view);
      && joiner.outbox != [] && Handle(su, host, LastSaid(joiner), world).Done?
      && Admitted(Handle(su, host, LastSaid(joiner), world).sess, u.id.nickname,
                  OwnShare(su, JoinSeed(u.id, u.ephemeral, LastSaid(host).packet.content.view)))
  {
    hide Hosts, Joined, Admitted, Answers, Renewable, ListToMap, WellFormed, Join, Handle, JoinerReads, JoinSeed,
      OwnShare, IdentityOf, Owned;
    var seed := HostSpeaks(su, s, request, u, host, world);
    Invited(su, seed, host, u, elsewhere);
    JoinerAnswers(su, u, LastSaid(host).packet.content.view, host, world);
  }

  lemma Invited(su: Suite, seed: Sess, host: Sess, u: UnauthenticatedParticipant, world: Surroundings)
    requires Hosts(su, seed, host, u) && u.id.nickname != [] && u.id.fingerprint != seed.me.fingerprint
    ensures Owned(host) && WellFormed(host) && host.phase == ReShared && host.me == seed.me
    ensures host.outbox != [] && IsInfo(LastSaid(host))
    ensures var d := LastSaid(host);
      && OwnFace(u.id, u.ephemeral, ListToMap(d.packet.content.view))
      && IdentityOf(ListToMap(d.packet.content.view)) == host.sid
      && Join(su, u.id, u.ephemeral, d, world).Born?
      && Joined(Join(su, u.id, u.ephemeral, d, world).child, host, u.id.nickname, d.packet.content.infoShare)
  {
    hide WellFormed, TokenFor, ListToMap, IdentityOf, Join, SendView, Owned, OwnFace, Joined;
    OwnedWellFormed(host);
    ViewTells(su, seed, u.id.nickname);
    var d := LastSaid(host);
    ListedFace(ListToMap(d.packet.content.view), seed, u);
    JoinTokenIff(su, seed, u.id, u.ephemeral, d, world);
    InvitedJoins(su, host, u, d, world);
  }

  lemma InvitedJoins(su: Suite, host: Sess, u: UnauthenticatedParticipant, d: Delivery, world: Surroundings)
    requires IsInfo(d) && Join(su, u.id, u.ephemeral, d, world).Born? && d.sender == host.me.nickname
    requires var listed := ListToMap(d.packet.content.view);
      && IdentityOf(listed) == host.sid && listed.Keys == host.roster.Keys
      && forall k :: k in listed ==> (listed[k].authenticated <==> host.roster[k].authenticated)
    ensures Joined(Join(su, u.id, u.ephemeral, d, world).child, host, u.id.nickname, d.packet.content.infoShare)
  {
    hide WellFormed, ListToMap, IdentityOf, Join, JoinSeed, Silent, Evolves, Genuine, Invariant;
    JoinerBelieves(su, u.id, u.ephemeral, d, world);
    JoinFacts(su, u.id, u.ephemeral, d, world);
    JoinSeedFacts(u.id, u.ephemeral, d.packet.content.view);
    EvolvesSameOwner(JoinSeed(u.id, u.ephemeral, d.packet.content.view), Join(su, u.id, u.ephemeral, d, world).child);
  }

  lemma HostSpeaks(su: Suite, s: Sess, request: Delivery, u: UnauthenticatedParticipant, host: Sess,
                   world: Surroundings) returns (seed: Sess)
    requires Answers(su, s, request, u, host, world) && Renewable(s)
    ensures Hosts(su, seed, host, u) && seed.me == s.me
  {
    hide FutureRoster, Conceive, ParseParticipant, WithJoiner, TokenFor, SendView, Silent, Evolves, IdentityOf, Seed,
      InitWithNewUser, Handle, Owned, WellFormed, Answers, Inherits, Spoke, Renewable, NobodyConfirmed, Consistent;
    RenewableParts(s);
    AnsweredByJoin(su, s, request, u, host, world);
    AnswerInherits(su, s, request, u, host, world);
    JoinShape(su, s, request, world);
    var live := FutureRoster(s);
    var roster := WithJoiner(live, u);
    WithJoinerFacts(live, u);
    WithJoinerIdentity(live, u);
    seed := Seed(s.me, s.future, roster, live);
    SeedRoster(s.me, s.future.value, roster, live);
    JoinConceived(su, s.me, s.future, roster, live, request, u, world);
    SendViewFacts(su, seed, u.id.nickname);
    SpokeFlags(seed, host);
    InheritsParts(host, s.me, roster);
  }

  lemma RenewableParts(s: Sess)
    requires Renewable(s)
    ensures s.future.Some? && OwnFace(s.me, s.future.value, FutureRoster(s))
  {}

  lemma SpokeFlags(s: Sess, t: Sess)
    requires Spoke(s, t)
    ensures t.roster.Keys == s.roster.Keys
    ensures forall k :: k in s.roster ==> t.roster[k].authenticated == s.roster[k].authenticated
  {
    hide Silent;
  }

  lemma InheritsParts(child: Sess, me: ParticipantId, roster: Roster)
    requires Inherits(child, me, roster)
    ensures Owned(child) && child.sid == IdentityOf(roster) && child.me == me && child.phase == ReShared
  {}

  lemma AnsweredByJoin(su: Suite, s: Sess, d: Delivery, u: UnauthenticatedParticipant, child: Sess,
                       world: Surroundings)
    requires Answers(su, s, d, u, child, world)
    ensures WellFormed(s) && d.packet.JoinRequest? && ParseParticipant(d.packet.joinerInfo) == Some(u)
    ensures InitWithNewUser(su, s, d, world) == Done(s, NewSession(child))
  {
    hide InitWithNewUser, WellFormed, ParseParticipant;
  }

  lemma ListedFace(listed: Roster, member: Sess, u: UnauthenticatedParticipant)
    requires IdentityOf(listed) == member.sid && u.id.nickname in listed
    requires u.id.nickname in member.sid && member.sid[u.id.nickname] == Face(u.id.fingerprint, u.ephemeral)
    ensures OwnFace(u.id, u.ephemeral, listed)
  {
    assert IdentityOf(listed)[u.id.nickname] == Face(u.id.fingerprint, u.ephemeral);
  }

  /** The joiner's first word is taken by any waiting member of the session. */
  lemma JoinerAnswers(su: Suite, u: UnauthenticatedParticipant, view: seq<UnauthenticatedParticipant>, member: Sess,
                      world: Surroundings)
    requires OwnFace(u.id, u.ephemeral, ListToMap(view)) && Owned(member) && member.phase == ReShared
    requires member.sid == IdentityOf(ListToMap(view)) && u.id.fingerprint != member.me.fingerprint
    ensures WellFormed(member) && JoinerReads(su, u.id, u.ephemeral, view).outbox != []
    ensures var outcome := Handle(su, member, LastSaid(JoinerReads(su, u.id, u.ephemeral, view)), world);
      outcome.Done? && Admitted(outcome.sess, u.id.nickname, OwnShare(su, JoinSeed(u.id, u.ephemeral, view)))
  {
    hide WellFormed, ListToMap, IdentityOf, Owned, OwnShare, JoinSeed, JoinerSends, Handle, Silent;
    OwnedWellFormed(member);
    JoinSeedOwner(u.id, u.ephemeral, view);
    JoinSeedFacts(u.id, u.ephemeral, view);
    JoinSeedFlags(u.id, u.ephemeral, view);
    ListToMapKeys(view);
    var joiner := JoinSeed(u.id, u.ephemeral, view);
    SidGivesKeys(joiner, member);
    SidGivesKeys(joiner, joiner);
    JoinerWelcomed(su, joiner, member, world);
  }

  // ---------- join requests ----------

  /** A new session, waiting for shares, of the future members and the joiner, each under its next key. */
  ghost predicate Expects(child: Sess, s: Sess, u: UnauthenticatedParticipant) {
    && Bred(child) && child.me == s.me && child.parental == FutureRoster(s) && child.zombies == map[]
    && child.sid == IdentityOf(FutureRoster(s))[u.id.nickname := Face(u.id.fingerprint, u.ephemeral)]
    && child.roster.Keys == FutureRoster(s).Keys + {u.id.nickname}
  }

  /** What a join request does to a session, in every case. */
  lemma RequestIff(su: Suite, s: Sess, d: Delivery, world: Surroundings)
    requires WellFormed(s) && d.packet.JoinRequest?
    ensures var (outcome, parsed, live) := (Handle(su, s, d, world), ParseParticipant(d.packet.joinerInfo),
                                            FutureRoster(s));
      if s.phase != InSession then outcome == Done(s, NoAction)
      else if parsed == None then outcome == Threw(s, BadFormat)
      else if parsed.value.id.nickname in live then outcome == Threw(s, DoubleJoin)
      else if s.me.nickname !in live && s.me.nickname != parsed.value.id.nickname then outcome == Threw(s, InvalidRoom)
      else if s.future == None then outcome == Threw(s, CryptoFailed)
      else outcome.Done? && outcome.sess == s && outcome.action.NewSession?
           && Expects(outcome.action.child, s, parsed.value)
  {
    hide WellFormed, FutureRoster, ParseParticipant, Conceive, WithJoiner, IdentityOf, InitWithNewUser, Expects;
    var parsed, live := ParseParticipant(d.packet.joinerInfo), FutureRoster(s);
    RequestRefused(su, s, d, world);
    if parsed.Some? && parsed.value.id.nickname !in live && s.phase == InSession {
      JoinShape(su, s, d, world);
      RequestConceives(su, s, d, parsed.value, world);
    }
  }

  lemma RequestRefused(su: Suite, s: Sess, d: Delivery, world: Surroundings)
    requires WellFormed(s) && d.packet.JoinRequest?
    ensures var (outcome, parsed) := (InitWithNewUser(su, s, d, world), ParseParticipant(d.packet.joinerInfo));
      && (parsed == None ==> outcome == Threw(s, BadFormat))
      && (parsed.Some? && parsed.value.id.nickname in FutureRoster(s) ==> outcome == Threw(s, DoubleJoin))
  {
    hide Conceive, ParseParticipant, FutureRoster;
  }

  lemma RequestConceives(su: Suite, s: Sess, d: Delivery, u: UnauthenticatedParticipant, world: Surroundings)
    requires WellFormed(s) && d.packet.JoinRequest? && ParseParticipant(d.packet.joinerInfo) == Some(u)
    requires u.id.nickname !in FutureRoster(s)
    ensures Consistent(FutureRoster(s)) && Consistent(WithJoiner(FutureRoster(s), u))
    ensures var birth := Conceive(su, Acceptor, s.me, s.future, WithJoiner(FutureRoster(s), u), FutureRoster(s),
                                  Some(d), world);
      if s.me.nickname !in FutureRoster(s) && s.me.nickname != u.id.nickname then birth == Failed(InvalidRoom)
      else if s.future == None then birth == Failed(CryptoFailed)
      else birth.Born? && Expects(birth.child, s, u)
  {
    hide FutureRoster, Conceive, ParseParticipant, IdentityOf, WithJoiner, WellFormed, Bred, Minus;
    FutureRosterConsistent(s);
    var live := FutureRoster(s);
    var roster := WithJoiner(live, u);
    WithJoinerFacts(live, u);
    WithJoinerAdds(live, u);
    WithJoinerIdentity(live, u);
    if s.me.nickname !in roster {
      ConceiveRefused(su, s.me, s.future, roster, live, d, u, world);
    } else if s.future == None {
      ConceiveRefused(su, s.me, s.future, roster, live, d, u, world);
    } else {
      JoinConceived(su, s.me, s.future, roster, live, d, u, world);
      ConceiveBreeds(su, Acceptor, s.me, s.future, roster, live, Some(d), world);
    }
  }

  lemma ConceiveRefused(su: Suite, me: ParticipantId, ephemeral: Option<Block>, roster: Roster, parental: Roster,
                        d: Delivery, u: UnauthenticatedParticipant, world: Surroundings)
    requires Consistent(roster) && Consistent(parental)
    requires d.packet.JoinRequest? && ParseParticipant(d.packet.joinerInfo) == Some(u)
    ensures var birth := Conceive(su, Acceptor, me, ephemeral, roster, parental, Some(d), world);
      && (me.nickname !in roster ==> birth == Failed(InvalidRoom))
      && (me.nickname in roster && ephemeral == None ==> birth == Failed(CryptoFailed))
  {
    hide ParseParticipant, WellFormed, Populate;
  }

  // ---------- strangers ----------

  /** A message of the key exchange is read only under the key the session has for its sender: from nobody in the
      session it is a stranger's, under any other key it is an authentication error, and either changes nothing. */
  lemma StrangersRefused(su: Suite, s: Sess, d: Delivery, world: Surroundings)
    requires WellFormed(s) && d.packet.Signed?
    requires EdgeOf(s.phase, d.packet) in {ToAuthAndReshare, ToConfirmAuth, ToMarkConfirmed}
    ensures d.sender !in s.roster ==> Handle(su, s, d, world) == Threw(s, InvalidParticipant)
    ensures d.sender in s.roster && d.packet.signer != s.roster[d.sender].ephemeral ==>
      Handle(su, s, d, world) == Threw(s, AuthenticationFailed)
  {
    hide WellFormed, AuthAndReshare, ConfirmAuth, MarkConfirmed;
  }

  /** And the joiner's constructor reads its view only if it lists the joiner, and under the key it lists for its
      sender. */
  lemma ViewRefusals(su: Suite, me: ParticipantId, key: Block, d: Delivery, world: Surroundings)
    requires IsInfo(d)
    ensures var (birth, listed) := (Join(su, me, key, d, world), ListToMap(d.packet.content.view));
      && (d.packet.content.view == [] ==> birth == Failed(BadFormat))
      && (d.packet.content.view != [] && me.nickname !in listed ==> birth == Failed(InvalidRoom))
      && (me.nickname in listed && d.sender !in listed ==> birth == Failed(InvalidParticipant))
      && (me.nickname in listed && d.sender in listed && d.packet.signer != listed[d.sender].ephemeral ==>
            birth == Failed(AuthenticationFailed))
  {
    hide AuthAndReshare, JoinerSends, ListToMap, WellFormed;
    var view := d.packet.content.view;
    if view == [] {
      assert ListToMap(view).Keys == {} by { ListToMapKeys(view); }
    } else {
      ListToMapKeys(view);
    }
  }

  // ---------- whom a new session invites ----------

  /** The joiner's batch has a token for everybody but itself. */
  lemma JoinerBatchNames(su: Suite, me: ParticipantId, key: Block, view: seq<UnauthenticatedParticipant>, i: nat)
    requires me.nickname in ListToMap(view)
    ensures var s := JoinSeed(me, key, view);
      i in BatchTable(su, s, |s.roster|) <==> i < |s.roster| && Peers(s)[i] != me.nickname
  {
    hide ListToMap, BatchTable, Sorted, JoinSeed;
    var s := JoinSeed(me, key, view);
    ListToMapKeys(view);
    JoinSeedFlags(me, key, view);
    JoinSeedOwnFlags(me, key, view);
    BatchTableAt(su, s, |s.roster|, i);
    if i < |s.roster| {
      assert Peers(s)[i] in Peers(s);
    }
  }

  lemma JoinSeedOwnFlags(me: ParticipantId, key: Block, view: seq<UnauthenticatedParticipant>)
    requires me.nickname in ListToMap(view)
    ensures me.nickname in JoinSeed(me, key, view).roster && JoinSeed(me, key, view).roster[me.nickname].authedTo
  {
    hide ListToMap;
  }

  /** A session that adds one member to its parent, without a request of its own, begins with a view that carries the
      token made for that member, and the session's list. */
  lemma AddedIsInvited(su: Suite, me: ParticipantId, ephemeral: Block, roster: Roster, parental: Roster,
                       conceiving: Option<Delivery>, added: Nick, world: Surroundings)
    requires Consistent(roster) && Consistent(parental) && OwnFace(me, ephemeral, roster)
    requires conceiving.Some? ==> IsInfo(conceiving.value)
    requires Minus(roster, parental).Keys == {added} && added != []
    requires Conceive(su, Acceptor, me, Some(ephemeral), roster, parental, conceiving, world).Born?
    ensures added in roster
    ensures var child := Conceive(su, Acceptor, me, Some(ephemeral), roster, parental, conceiving, world).child;
      && child.outbox != [] && IsInfo(LastSaid(child)) && LastSaid(child).sender == me.nickname
      && LastSaid(child).packet.signer == ephemeral && LastSaid(child).packet.sid == IdentityOf(roster)
      && LastSaid(child).packet.content.token == TokenFor(su, me, ephemeral, roster[added])
      && IdentityOf(ListToMap(LastSaid(child).packet.content.view)) == IdentityOf(roster)
  {
    hide Minus, ListToMap, IdentityOf, Conceive, Seed, SendView, TokenFor, WellFormed, Owned, AbsorbConceiving,
      Evolves, Complete, Absorbed, Consistent;
    assert added in roster by { assert added in Minus(roster, parental); }
    var seed := Seed(me, Some(ephemeral), roster, parental);
    SeedRoster(me, ephemeral, roster, parental);
    SeedWaits(me, ephemeral, roster, parental);
    DeltaOfSeed(me, Some(ephemeral), roster, parental);
    AcceptedBySpeaking(su, me, ephemeral, roster, parental, conceiving, added, world);
    AbsorbFacts(su, seed, conceiving, world);
    var absorbed := AbsorbConceiving(su, seed, conceiving, world);
    OwnedStill(seed, absorbed);
    EvolvesSameOwner(seed, absorbed);
    EvolvedToken(su, seed, absorbed, added);
    SeedToken(su, me, ephemeral, roster, parental, added);
    ViewTells(su, absorbed, added);
  }

  lemma SeedWaits(me: ParticipantId, ephemeral: Block, roster: Roster, parental: Roster)
    requires OwnFace(me, ephemeral, roster) && Consistent(roster) && Consistent(parental)
    ensures Seed(me, Some(ephemeral), roster, parental).phase == ReShared
    ensures WellFormed(Seed(me, Some(ephemeral), roster, parental))
  {}

  lemma SeedToken(su: Suite, me: ParticipantId, ephemeral: Block, roster: Roster, parental: Roster, k: Nick)
    requires OwnFace(me, ephemeral, roster) && Consistent(roster) && Consistent(parental) && k in roster
    ensures var seed := Seed(me, Some(ephemeral), roster, parental);
      && k in seed.roster
      && TokenFor(su, seed.me, seed.ephemeral, seed.roster[k]) == TokenFor(su, me, ephemeral, roster[k])
  {
    hide PairKey;
  }

  lemma EvolvedToken(su: Suite, s: Sess, t: Sess, k: Nick)
    requires Evolves(s, t) && k in s.roster
    ensures k in t.roster
    ensures TokenFor(su, t.me, t.ephemeral, t.roster[k]) == TokenFor(su, s.me, s.ephemeral, s.roster[k])
  {
    hide PairKey;
    assert SameMember(s.roster[k], t.roster[k]);
  }

  lemma AcceptedBySpeaking(su: Suite, me: ParticipantId, ephemeral: Block, roster: Roster, parental: Roster,
                           conceiving: Option<Delivery>, added: Nick, world: Surroundings)
    requires Consistent(roster) && Consistent(parental) && me.nickname in roster
    requires conceiving.Some? ==> IsInfo(conceiving.value)
    requires Delta(Seed(me, Some(ephemeral), roster, parental)).Keys == {added}
    requires Conceive(su, Acceptor, me, Some(ephemeral), roster, parental, conceiving, world).Born?
    ensures var seed := Seed(me, Some(ephemeral), roster, parental);
      && (conceiving.Some? ==> conceiving.value.sender in seed.roster)
      && WellFormed(AbsorbConceiving(su, seed, conceiving, world))
      && SendView(su, AbsorbConceiving(su, seed, conceiving, world), added)
         == Conceive(su, Acceptor, me, Some(ephemeral), roster, parental, conceiving, world)
  {
    hide Delta, SendView, AbsorbConceiving, WellFormed, Populate;
    OneAdded(Seed(me, Some(ephemeral), roster, parental), added);
  }

  lemma OneAdded(s: Sess, added: Nick)
    requires Delta(s).Keys == {added}
    ensures |Delta(s)| == 1 && Delta(s) != map[] && Sorted(Delta(s).Keys)[0] == added
  {
    hide Delta;
    assert |Delta(s).Keys| == |Delta(s)|;
    assert Sorted(Delta(s).Keys)[0] in Sorted(Delta(s).Keys);
  }
}
