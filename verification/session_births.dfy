/** How sessions are born, and the invariant they start with. */
module SessionBirths {
  import opened Bytes
  import opened Crypto
  import opened Participants
  import opened Sessions
  import opened SessionSteps
  import opened SessionInvariants

  /** Waiting for shares, nobody confirmed, nothing said but views and shares. */
  ghost predicate Silent(s: Sess) {
    && s.phase in {JoinRequested, ReShared} && NobodyConfirmed(s)
    && (forall i :: 0 <= i < |s.outbox| ==>
          s.outbox[i].Signed? && s.outbox[i].signer == s.ephemeral && s.outbox[i].sid == s.sid
          && !IsConfirmation(s.outbox[i]))
  }

  lemma SilentInvariant(su: Suite, s: Sess)
    requires WellFormed(s) && Silent(s)
    ensures Invariant(su, s, [])
  {
    EstablishedWaiting(su, s);
    NothingToAccount(su, s, []);
  }

  /** The session the constructor fills before it speaks. */
  function Seed(me: ParticipantId, ephemeral: Option<Block>, roster: Roster, parental: Roster): (s: Sess)
    requires me.nickname in roster && Consistent(roster) && Consistent(parental)
    ensures WellFormed(s)
  {
    Populate(me, match ephemeral case Some(e) => e case None => ZERO, roster, parental, ReShared)
  }

  lemma PopulateFacts(me: ParticipantId, ephemeral: Block, roster: Roster, parental: Roster, phase: Phase)
    requires me.nickname in roster && Consistent(roster) && Consistent(parental) && phase in {JoinRequested, ReShared}
    ensures var s := Populate(me, ephemeral, roster, parental, phase);
            && WellFormed(s) && Silent(s) && s.me == me && s.ephemeral == ephemeral && s.zombies == map[]
            && s.parental == parental && s.phase == phase
            && s.sid == IdentityOf(roster) && IdentityOf(s.roster) == s.sid
            && s.roster.Keys == roster.Keys
            && forall k :: k in s.roster ==> s.roster[k].contributed == roster[k].contributed
  {}

  lemma SeedFacts(me: ParticipantId, ephemeral: Option<Block>, roster: Roster, parental: Roster)
    requires me.nickname in roster && Consistent(roster) && Consistent(parental)
    ensures var s := Seed(me, ephemeral, roster, parental);
            && Silent(s) && s.me == me && s.zombies == map[] && s.parental == parental && s.phase == ReShared
            && s.outbox == [] && s.sid == IdentityOf(roster) && IdentityOf(s.roster) == s.sid
            && s.roster.Keys == roster.Keys
            && (ephemeral.Some? ==> s.ephemeral == ephemeral.value)
  {}

  /** The owner's share is stored and counted; nothing else on the list has changed. */
  ghost predicate OwnShareAdded(a: Roster, b: Roster, me: Nick) {
    && b.Keys == a.Keys && me in a && b[me].contributed && b[me].authenticated == a[me].authenticated
    && forall k :: k in a && k != me ==> b[k] == a[k]
  }

  /** A session has said its view or share, and nothing else about it has changed but its own share. */
  ghost predicate Spoke(s: Sess, t: Sess) {
    && WellFormed(t) && Evolves(s, t) && (Silent(s) ==> Silent(t))
    && t.phase == s.phase && t.zombies == s.zombies && t.confirmed == s.confirmed
    && OwnShareAdded(s.roster, t.roster, s.me.nickname)
  }

  lemma SpeakFacts(su: Suite, s: Sess, content: Content)
    requires WellFormed(s) && !content.SessionConfirmation?
    ensures var shared := WithOwnShare(su, s);
            Spoke(s, shared.(outbox := shared.outbox + [Signed(s.ephemeral, s.sid, content)]))
  {
    hide OwnShare;
  }

  lemma TakenZombies(s: Sess, k: Nick, share: Block, vouched: bool)
    requires k in s.roster
    ensures Taken(s, k, share, vouched).zombies == s.zombies
  {}

  lemma SendViewFacts(su: Suite, s: Sess, joiner: Nick)
    requires WellFormed(s)
    ensures SendView(su, s, joiner).Born? ==> Spoke(s, SendView(su, s, joiner).child)
  {
    hide WithOwnShare, TokenFor, SessionView, WellFormed, Spoke;
    var shared := WithOwnShare(su, s);
    if joiner == [] || joiner in s.roster {
      var token := if joiner == [] then ZERO else TokenFor(su, s.me, s.ephemeral, s.roster[joiner]);
      SpeakFacts(su, s, ParticipantsInfo(SessionView(shared.roster), token, shared.roster[s.me.nickname].share));
    }
  }

  lemma SendShareFacts(su: Suite, s: Sess)
    requires WellFormed(s)
    ensures Spoke(s, SendShare(su, s))
  {
    hide WithOwnShare, WellFormed, Spoke;
    SpeakFacts(su, s, GroupShare(WithOwnShare(su, s).roster[s.me.nickname].share));
  }

  /** The share in the conceiving view completes the session at birth. */
  ghost predicate Complete(s: Sess, conceiving: Option<Delivery>) {
    && conceiving.Some? && IsInfo(conceiving.value) && conceiving.value.sender in s.roster
    && Ready(WithShare(s, conceiving.value.sender, conceiving.value.packet.content.infoShare))
  }

  /** The members as the constructor has them once it has read the conceiving view, if it has one. */
  function Absorbed(s: Sess, conceiving: Option<Delivery>): Roster {
    if conceiving.Some? && IsInfo(conceiving.value) && conceiving.value.sender in s.roster then
      WithShare(s, conceiving.value.sender, conceiving.value.packet.content.infoShare).roster
    else s.roster
  }

  lemma AbsorbFacts(su: Suite, s: Sess, conceiving: Option<Delivery>, world: Surroundings)
    requires WellFormed(s) && s.phase == ReShared
    requires conceiving.Some? && IsInfo(conceiving.value) ==> conceiving.value.sender in s.roster
    ensures var t := AbsorbConceiving(su, s, conceiving, world);
            && WellFormed(t) && Evolves(s, t) && t.phase == s.phase && t.confirmed == s.confirmed
            && t.zombies == s.zombies && (!Complete(s, conceiving) ==> t.outbox == s.outbox)
            && t.roster == Absorbed(s, conceiving)
  {
    hide WithShare, Taken, Ready, SessionKey, ConfirmationOf, ConfirmIfReady, WellFormed, Evolves;
    EvolvesReflexive(s);
    if conceiving.Some? && IsInfo(conceiving.value) {
      var k, share := conceiving.value.sender, conceiving.value.packet.content.infoShare;
      StoredIsTaken(s, k, share);
      TakenFacts(s, k, share, false);
      TakenZombies(s, k, share, false);
      var taken := Taken(s, k, share, false);
      ConfirmIfReadyFacts(su, taken, world);
      ConfirmIfReadyZombies(su, taken, world);
      EvolvesTransitive(s, taken, ConfirmIfReady(su, taken, world).0);
      PhaseBack(s, ConfirmIfReady(su, taken, world).0);
    }
  }

  lemma ConfirmIfReadyZombies(su: Suite, s: Sess, world: Surroundings)
    requires WellFormed(s)
    ensures ConfirmIfReady(su, s, world).0.zombies == s.zombies
  {
    hide SessionKey, ConfirmationOf, Ready;
  }

  /** The constructor ignores the state the transitor returned. */
  lemma PhaseBack(s: Sess, t: Sess)
    requires WellFormed(t) && Evolves(s, t) && s.phase == ReShared
    ensures WellFormed(t.(phase := s.phase)) && Evolves(s, t.(phase := s.phase))
  {}

  lemma AbsorbedSpoke(seed: Sess, absorbed: Sess, child: Sess)
    requires Evolves(seed, absorbed) && Spoke(absorbed, child) && Silent(seed)
    requires absorbed.phase == seed.phase && absorbed.confirmed == seed.confirmed && absorbed.zombies == seed.zombies
    ensures WellFormed(child) && Evolves(seed, child) && child.phase == seed.phase && child.zombies == seed.zombies
    ensures NobodyConfirmed(child) && OwnShareAdded(absorbed.roster, child.roster, seed.me.nickname)
    ensures absorbed.outbox == seed.outbox ==> Silent(child)
  {
    EvolvesTransitive(seed, absorbed, child);
    EvolvesSameOwner(seed, absorbed);
  }

  /** What the constructors for members keep of the session they fill. */
  ghost predicate BornOf(seed: Sess, child: Sess, conceiving: Option<Delivery>) {
    && WellFormed(child) && Evolves(seed, child) && child.phase == ReShared && child.zombies == map[]
    && NobodyConfirmed(child) && (!Complete(seed, conceiving) ==> Silent(child))
    && (conceiving.Some? && IsInfo(conceiving.value) ==> conceiving.value.sender in seed.roster)
    && OwnShareAdded(Absorbed(seed, conceiving), child.roster, seed.me.nickname)
  }

  lemma AcceptFacts(su: Suite, seed: Sess, keyless: bool, conceiving: Option<Delivery>, world: Surroundings)
    requires WellFormed(seed) && Silent(seed) && seed.phase == ReShared && seed.zombies == map[]
    requires Accept(su, seed, keyless, conceiving, world).Born?
    ensures !keyless && BornOf(seed, Accept(su, seed, keyless, conceiving, world).child, conceiving)
  {
    hide SendView, AbsorbConceiving, JoinerName, WellFormed, Evolves, Complete, Silent, Spoke, NobodyConfirmed,
      Absorbed, OwnShareAdded;
    var joiner := JoinerName(seed, conceiving);
    var absorbed := AbsorbConceiving(su, seed, conceiving, world);
    AbsorbFacts(su, seed, conceiving, world);
    SendViewFacts(su, absorbed, joiner.value);
    AbsorbedSpoke(seed, absorbed, SendView(su, absorbed, joiner.value).child);
  }

  /** A session is born waiting for shares, unconfirmed, with the members and keys it was given, their flags and shares
      but for its owner's, and what the conceiving view says of its sender; unless that completes it, it has said
      nothing but its view or share. */
  lemma ConceiveFacts(su: Suite, conceiver: Conceiver, me: ParticipantId, ephemeral: Option<Block>, roster: Roster,
                      parental: Roster, conceiving: Option<Delivery>, world: Surroundings)
    requires Consistent(roster) && Consistent(parental)
    requires Conceive(su, conceiver, me, ephemeral, roster, parental, conceiving, world).Born?
    ensures me.nickname in roster && ephemeral.Some?
    ensures BornOf(Seed(me, ephemeral, roster, parental),
                   Conceive(su, conceiver, me, ephemeral, roster, parental, conceiving, world).child,
                   if conceiver == Acceptor then conceiving else None)
  {
    hide SendView, Accept, Populate, SendShare, WellFormed, Evolves, Complete, Silent, Spoke, NobodyConfirmed,
      OwnShareAdded;
    var seed := Seed(me, ephemeral, roster, parental);
    SeedFacts(me, ephemeral, roster, parental);
    EvolvesReflexive(seed);
    if conceiver == Acceptor {
      AcceptFacts(su, seed, ephemeral == None, conceiving, world);
    } else if conceiver == Creator {
      SendViewFacts(su, seed, []);
      AbsorbedSpoke(seed, seed, SendView(su, seed, []).child);
    } else {
      SendShareFacts(su, seed);
      AbsorbedSpoke(seed, seed, SendShare(su, seed));
    }
  }
}
