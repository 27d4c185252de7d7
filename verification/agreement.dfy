/** What members in session may conclude about each other, over every run of the network. */
module Agreement {
  import opened Bytes
  import opened Crypto
  import opened Participants
  import opened Sessions
  import opened SessionSteps
  import opened SessionInvariants
  import opened SessionBirths
  import opened SessionActions
  import opened SessionRuns
  import opened Network
  import opened SessionLaws

  /** The hash tells 32-byte keys apart, for every nickname they are hashed with. */
  ghost predicate ConfirmationsBind(su: Suite) {
    forall k: Block, l: Block, n: Nick :: ConfirmationOf(su, k, n) == ConfirmationOf(su, l, n) ==> k == l
  }

  /** The nickname as a block of its own: its bytes, zeros, and its length. */
  function Tag(n: Nick): Block {
    if |n| < HASH_LENGTH then n + seq(HASH_LENGTH - 1 - |n|, _ => 0) + [|n|] else ZERO
  }

  lemma TagNames(m: Nick, n: Nick)
    requires |m| < HASH_LENGTH && |n| < HASH_LENGTH && Tag(m) == Tag(n)
    ensures m == n
  {
    assert Tag(m)[HASH_LENGTH - 1] == |m| && Tag(n)[HASH_LENGTH - 1] == |n|;
    assert Tag(m)[..|m|] == m && Tag(n)[..|n|] == n;
  }

  /** The key with the nickname mixed in. */
  function Mixed(s: Bytes): Block {
    if |s| >= HASH_LENGTH then XorBlock(Tag(s[HASH_LENGTH..]), s[..HASH_LENGTH]) else ZERO
  }

  lemma MixedOf(k: Block, n: Nick)
    ensures Mixed(k + n) == XorBlock(Tag(n), k)
  {
    assert (k + n)[HASH_LENGTH..] == n && (k + n)[..HASH_LENGTH] == k;
  }

  /** The assumption can be met, together with confirmations that name their senders: nothing below is vacuous. */
  lemma ConfirmationsCanBind()
    ensures exists su: Suite :: ConfirmationsBind(su) && ConfirmationsName(su)
  {
    hide Mixed, XorBlock, Tag;
    var p: Primitives := EXAMPLE.(hash := m => Mixed(m));
    forall m ensures |p.hash(m)| == HASH_LENGTH {
      assert p.hash(m) == Mixed(m);
    }
    assert Sound(p);
    var su: Suite := p;
    assert forall k: Block, n: Nick :: ConfirmationOf(su, k, n) == Mixed(k + n);
    forall k: Block, l: Block, n: Nick | ConfirmationOf(su, k, n) == ConfirmationOf(su, l, n) ensures k == l {
      MixedOf(k, n);
      MixedOf(l, n);
      BlockInjective(Tag(n), k, l);
    }
    forall k: Block, m: Nick, n: Nick | |m| < HASH_LENGTH && |n| < HASH_LENGTH
      ensures ConfirmationOf(su, k, m) == ConfirmationOf(su, k, n) ==> m == n
    {
      if ConfirmationOf(su, k, m) == ConfirmationOf(su, k, n) {
        MixedOf(k, m);
        MixedOf(k, n);
        BlockCommutes(Tag(m), k);
        BlockCommutes(Tag(n), k);
        BlockInjective(k, Tag(m), Tag(n));
        TagNames(m, n);
      }
    }
    assert ConfirmationsBind(su) && ConfirmationsName(su);
  }

  /** The member k of the session is known by a key that only the honest k holds. */
  ghost predicate Honest(owners: Owners, s: Sess, k: Nick) {
    k in s.roster && s.roster[k].ephemeral in owners && owners[s.roster[k].ephemeral] == k
  }

  /** Node n is a session object of the member k of s, has generated a key and has sent its confirmation. */
  ghost predicate Speaker(n: Node, s: Sess, sid: Identity, k: Nick) {
    && k in s.roster && n.sess.me.nickname == k && n.sess.ephemeral == s.roster[k].ephemeral && n.sess.sid == sid
    && Rank(n.sess.phase) >= Rank(GroupKeyGenerated) && Spoken(n.sess)
  }

  /** A heard confirmation under an honest key leads back to the object that sent it. */
  lemma Traced(su: Suite, owners: Owners, net: Net, i: nat, d: Delivery, k: Nick) returns (j: nat)
    requires NetInvariant(su, owners, net) && i < |net| && Honest(owners, net[i].sess, k)
    requires d in net[i].heard && FromMember(net[i].sess, d) && d.sender == k && IsConfirmation(d.packet)
    ensures j < |net| && Speaker(net[j], net[i].sess, net[i].route, k) && SpeaksFor(su, net[j].sess, d.packet)
    ensures net[j].sess.me.nickname == k
  {
    assert NodeInvariant(su, owners, net, net[i]);
    var h :| 0 <= h < |net[i].heard| && net[i].heard[h] == d;
    assert HeardProperly(owners, net, net[i], net[i].heard[h]);
    j :| 0 <= j < |net| && d.packet in net[j].sess.outbox;
    assert NodeInvariant(su, owners, net, net[j]);
    VoicedAt(su, net[j].sess, net[j].heard, d.packet);
    assert OwnKey(owners, net[j].sess);
  }

  lemma VoicedAt(su: Suite, s: Sess, heard: seq<Delivery>, p: Packet)
    requires Invariant(su, s, heard) && p in s.outbox && IsConfirmation(p)
    ensures p.signer == s.ephemeral && p.sid == s.sid && SpeaksFor(su, s, p) && Spoken(s)
  {
    hide Established, Accountable, WellFormed;
    var i :| 0 <= i < |s.outbox| && s.outbox[i] == p;
    assert IsConfirmation(s.outbox[i]);
  }

  lemma InSessionBacked(su: Suite, s: Sess, heard: seq<Delivery>, k: Nick)
    requires Invariant(su, s, heard) && s.phase == InSession && k in s.roster
    ensures Backed(su, s, heard, k)
  {
    assert s.confirmed[IndexIn(s, k)];
  }

  /** Same-key safety: in any run, when a session object is in session, every honest member of it has at some
      time generated this very key in a session object of the id under which it is routed. */
  lemma SameKey(su: Suite, owners: Owners, events: seq<NetEvent>, net: Net, i: nat, k: Nick) returns (j: nat)
    requires ConfirmationsBind(su) && Reaches(su, owners, events, net)
    requires i < |net| && net[i].sess.phase == InSession && Honest(owners, net[i].sess, k)
    ensures j < |net| && Speaker(net[j], net[i].sess, net[i].route, k) && net[j].sess.key == net[i].sess.key
  {
    hide Invariant, ConfirmationOf, Speaker;
    ReachesInvariant(su, owners, events, net);
    var s, heard := net[i].sess, net[i].heard;
    assert NodeInvariant(su, owners, net, net[i]);
    InSessionBacked(su, s, heard, k);
    var h :| 0 <= h < |heard| && Confirms(su, s, heard[h], k);
    j := Traced(su, owners, net, i, heard[h], k);
    assert net[j].sess.me.nickname == k;
  }

  ghost predicate SameKeyFor(s: Sess, t: Sess, k: Nick) {
    k in s.roster && k in t.roster && s.roster[k].ephemeral == t.roster[k].ephemeral
  }

  /** Any two members in session under one id hold the same key, as soon as they have one honest member in common. */
  lemma InSessionAgree(su: Suite, owners: Owners, events: seq<NetEvent>, net: Net, i: nat, j: nat, k: Nick)
    requires ConfirmationsBind(su) && FreshlyReaches(su, owners, events, net)
    requires i < |net| && net[i].sess.phase == InSession && j < |net| && net[j].sess.phase == InSession
    requires net[i].route == net[j].route && SameKeyFor(net[i].sess, net[j].sess, k) && Honest(owners, net[i].sess, k)
    ensures net[i].sess.key == net[j].sess.key
  {
    hide Reaches, FreshlyReaches, ConfirmationsBind;
    FreshFacts(su, owners, events, net);
    var a := SameKey(su, owners, events, net, i, k);
    var b := SameKey(su, owners, events, net, j, k);
  }

  lemma Announcer(su: Suite, owners: Owners, events: seq<NetEvent>, net: Net, i: nat, k: Nick) returns (j: nat)
    requires Reaches(su, owners, events, net)
    requires i < |net| && net[i].sess.phase == InSession && Honest(owners, net[i].sess, k)
    ensures j < |net| && Speaker(net[j], net[i].sess, net[i].route, k)
    ensures net[j].sess.future == Some(net[i].sess.roster[k].future)
  {
    hide Invariant, ConfirmationOf, Speaker;
    ReachesInvariant(su, owners, events, net);
    var s, heard := net[i].sess, net[i].heard;
    assert NodeInvariant(su, owners, net, net[i]);
    InSessionBacked(su, s, heard, k);
    var h :| 0 <= h < |heard| && Announces(s, heard[h], k);
    j := Traced(su, owners, net, i, heard[h], k);
  }

  /** They also hold the same next key for that member. */
  lemma AnnouncedAgree(su: Suite, owners: Owners, events: seq<NetEvent>, net: Net, i: nat, j: nat, k: Nick)
    requires FreshlyReaches(su, owners, events, net)
    requires i < |net| && net[i].sess.phase == InSession && j < |net| && net[j].sess.phase == InSession
    requires net[i].route == net[j].route && SameKeyFor(net[i].sess, net[j].sess, k) && Honest(owners, net[i].sess, k)
    ensures net[i].sess.roster[k].future == net[j].sess.roster[k].future
  {
    hide Reaches, FreshlyReaches;
    FreshFacts(su, owners, events, net);
    var a := Announcer(su, owners, events, net, i, k);
    var b := Announcer(su, owners, events, net, j, k);
  }

  // ---------- successors ----------

  ghost predicate AllHonest(owners: Owners, s: Sess) {
    forall k :: k in s.roster ==> Honest(owners, s, k)
  }

  ghost predicate SameLeavers(s: Sess, t: Sess) {
    forall k :: k in Minus(s.roster, s.zombies) <==> k in Minus(t.roster, t.zombies)
  }

  /** Two members in session under one id, made of the same members, all of them honest, with the same leavers. */
  ghost predicate InStep(owners: Owners, net: Net, i: nat, j: nat) {
    && i < |net| && net[i].sess.phase == InSession && j < |net| && net[j].sess.phase == InSession
    && net[i].route == net[j].route && IdentityOf(net[i].sess.roster) == IdentityOf(net[j].sess.roster)
    && AllHonest(owners, net[i].sess) && SameLeavers(net[i].sess, net[j].sess)
  }

  /** Successor agreement: such members compute the same future members with the same keys, so that whatever they breed
      from them has the same session id. */
  lemma SuccessorsAgree(su: Suite, owners: Owners, events: seq<NetEvent>, net: Net, i: nat, j: nat)
    requires FreshlyReaches(su, owners, events, net) && InStep(owners, net, i, j)
    ensures IdentityOf(FutureRoster(net[i].sess)) == IdentityOf(FutureRoster(net[j].sess))
  {
    hide FreshlyReaches, Honest, IdentityOf, FutureRoster, SameLeavers;
    var s, t := net[i].sess, net[j].sess;
    forall k | k in s.roster && SameKeyFor(s, t, k) ensures s.roster[k].future == t.roster[k].future {
      AnnouncedAgree(su, owners, events, net, i, j, k);
    }
    OneSuccessor(s, t);
  }

  /** What a member expects is fixed by whom it expects and by their next keys. */
  lemma OneSuccessor(s: Sess, t: Sess)
    requires IdentityOf(s.roster) == IdentityOf(t.roster) && SameLeavers(s, t)
    requires forall k :: k in s.roster && SameKeyFor(s, t, k) ==> s.roster[k].future == t.roster[k].future
    ensures IdentityOf(FutureRoster(s)) == IdentityOf(FutureRoster(t))
  {
    hide Minus;
    forall k | k in FutureRoster(s)
      ensures k in FutureRoster(t) && IdentityOf(FutureRoster(s))[k] == IdentityOf(FutureRoster(t))[k]
    {
      assert k in Minus(s.roster, s.zombies);
      assert IdentityOf(s.roster)[k] == IdentityOf(t.roster)[k];
    }
  }

  lemma ConceivedSid(su: Suite, conceiver: Conceiver, me: ParticipantId, ephemeral: Option<Block>, roster: Roster,
                     parental: Roster, conceiving: Option<Delivery>, world: Surroundings)
    requires Consistent(roster) && Consistent(parental)
    requires Conceive(su, conceiver, me, ephemeral, roster, parental, conceiving, world).Born?
    ensures Conceive(su, conceiver, me, ephemeral, roster, parental, conceiving, world).child.sid == IdentityOf(roster)
  {
    hide Conceive, Populate, IdentityOf, Complete, Silent;
    ConceiveFacts(su, conceiver, me, ephemeral, roster, parental, conceiving, world);
    SeedFacts(me, ephemeral, roster, parental);
  }

  /** What a join request breeds is made of the future members and the joiner. */
  lemma JoinBreeds(su: Suite, s: Sess, d: Delivery, world: Surroundings)
    requires WellFormed(s) && d.packet.JoinRequest?
    requires Handle(su, s, d, world).Done? && Handle(su, s, d, world).action.NewSession?
    ensures ParseParticipant(d.packet.joinerInfo).Some?
    ensures var u := ParseParticipant(d.packet.joinerInfo).value;
            && u.id.nickname !in FutureRoster(s)
            && Handle(su, s, d, world).action.child.sid
               == IdentityOf(FutureRoster(s))[u.id.nickname := Face(u.id.fingerprint, u.ephemeral)]
  {
    assert Handle(su, s, d, world) == InitWithNewUser(su, s, d, world) by { OnlyJoinBreeds(su, s, d, world); }
    JoinShape(su, s, d, world);
    hide Conceive, ParseParticipant, FutureRoster, WellFormed, Handle, InitWithNewUser, WithJoiner;
    var live := FutureRoster(s);
    var u := ParseParticipant(d.packet.joinerInfo).value;
    ConceivedSid(su, Acceptor, s.me, s.future, WithJoiner(live, u), live, Some(d), world);
    WithJoinerIdentity(live, u);
  }

  lemma OnlyJoinBreeds(su: Suite, s: Sess, d: Delivery, world: Surroundings)
    requires WellFormed(s) && d.packet.JoinRequest?
    requires Handle(su, s, d, world).Done? && Handle(su, s, d, world).action.NewSession?
    ensures Handle(su, s, d, world) == InitWithNewUser(su, s, d, world)
  {
    hide InitWithNewUser, Receive, AuthAndReshare, ConfirmAuth, MarkConfirmed, WellFormed;
  }

  /** What a leave breeds is made of the future members without the leaver. */
  lemma LeaveBreeds(su: Suite, s: Sess, leaver: Nick, world: Surroundings)
    requires WellFormed(s)
    requires Shrink(su, s, leaver, world).Done? && Shrink(su, s, leaver, world).action.NewPrioritySession?
    ensures leaver in s.roster && leaver !in s.zombies
    ensures Shrink(su, s, leaver, world).action.heir.sid
         == IdentityOf(FutureRoster(Shrink(su, s, leaver, world).sess))
  {
    hide Conceive, Minus;
    var t := s.(zombies := s.zombies[leaver := s.roster[leaver]]);
    ConceivedSid(su, Peer, s.me, s.future, FutureRoster(t), map[], None, world);
  }

  /** Such members answer one join request with sessions of one id. */
  lemma JoinsAgree(su: Suite, owners: Owners, events: seq<NetEvent>, net: Net, i: nat, j: nat, d: Delivery,
                   world: Surroundings, otherWorld: Surroundings)
    requires FreshlyReaches(su, owners, events, net) && InStep(owners, net, i, j) && d.packet.JoinRequest?
    requires WellFormed(net[i].sess) && WellFormed(net[j].sess)
    ensures var a, b := Handle(su, net[i].sess, d, world), Handle(su, net[j].sess, d, otherWorld);
            a.Done? && a.action.NewSession? && b.Done? && b.action.NewSession? ==>
              a.action.child.sid == b.action.child.sid
  {
    hide FreshlyReaches, Handle, FutureRoster, AllHonest, SameLeavers, IdentityOf, WellFormed, ParseParticipant;
    SuccessorsAgree(su, owners, events, net, i, j);
    var a, b := Handle(su, net[i].sess, d, world), Handle(su, net[j].sess, d, otherWorld);
    if a.Done? && a.action.NewSession? && b.Done? && b.action.NewSession? {
      JoinBreeds(su, net[i].sess, d, world);
      JoinBreeds(su, net[j].sess, d, otherWorld);
    }
  }

  /** And so they do a leave both of them notice. */
  lemma LeavesAgree(su: Suite, owners: Owners, events: seq<NetEvent>, net: Net, i: nat, j: nat, leaver: Nick,
                    world: Surroundings, otherWorld: Surroundings)
    requires FreshlyReaches(su, owners, events, net) && InStep(owners, net, i, j)
    requires WellFormed(net[i].sess) && WellFormed(net[j].sess)
    ensures var a, b := Shrink(su, net[i].sess, leaver, world), Shrink(su, net[j].sess, leaver, otherWorld);
            a.Done? && a.action.NewPrioritySession? && b.Done? && b.action.NewPrioritySession? ==>
              a.action.heir.sid == b.action.heir.sid
  {
    hide FreshlyReaches, Shrink, AllHonest, SameLeavers, IdentityOf, WellFormed, FutureRoster, Minus;
    var s, t := net[i].sess, net[j].sess;
    var a, b := Shrink(su, s, leaver, world), Shrink(su, t, leaver, otherWorld);
    if a.Done? && a.action.NewPrioritySession? && b.Done? && b.action.NewPrioritySession? {
      LeaveBreeds(su, s, leaver, world);
      LeaveBreeds(su, t, leaver, otherWorld);
      ShrinkAfter(su, s, leaver, world);
      ShrinkAfter(su, t, leaver, otherWorld);
      SuccessorsAgree(su, owners, events, net, i, j);
      ShedIdentity(s, leaver);
      ShedIdentity(t, leaver);
    }
  }

  /** One more leaver takes exactly that member out of the future. */
  lemma ShedIdentity(s: Sess, leaver: Nick)
    requires leaver in s.roster
    ensures IdentityOf(FutureRoster(s.(zombies := s.zombies[leaver := s.roster[leaver]])))
         == IdentityOf(FutureRoster(s)) - {leaver}
  {
    ShedMembers(s, leaver);
    hide FutureRoster;
    var t := s.(zombies := s.zombies[leaver := s.roster[leaver]]);
    assert IdentityOf(FutureRoster(t)) == IdentityOf(FutureRoster(s)) - {leaver};
  }

  // ---------- the one excluded birth ----------

  /** A view can complete the session it conceives only if nobody's share is inherited and the sole member sent
      it to itself. */
  lemma OnlySoloViewCompletes(me: ParticipantId, ephemeral: Option<Block>, roster: Roster, parental: Roster,
                              conceiving: Option<Delivery>)
    requires me.nickname in roster && Consistent(roster) && Consistent(parental)
    requires forall k :: k in roster ==> !roster[k].contributed
    ensures Complete(Seed(me, ephemeral, roster, parental), conceiving)
       <==> && conceiving.Some? && IsInfo(conceiving.value) && conceiving.value.sender == me.nickname
            && roster.Keys == {me.nickname}
  {
    var seed := Seed(me, ephemeral, roster, parental);
    hide IdentityOf;
    if conceiving.Some? && IsInfo(conceiving.value) && conceiving.value.sender in roster {
      var stored := WithShare(seed, conceiving.value.sender, conceiving.value.packet.content.infoShare);
      if Ready(stored) {
        forall k | k in roster ensures k == conceiving.value.sender {
          assert stored.roster[k].contributed;
        }
      } else if conceiving.value.sender == me.nickname && roster.Keys == {me.nickname} {
        forall k | k in stored.roster ensures stored.roster[k].authenticated && stored.roster[k].contributed {
          assert k in roster.Keys;
        }
      }
    }
  }
}
