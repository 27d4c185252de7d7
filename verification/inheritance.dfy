/** What the sessions the code builds bring to their exchange of shares: the flags and shares they inherit, when they
    generate their key, and when it is right. */
module Inheritance {
  import opened Bytes
  import opened Crypto
  import opened Participants
  import opened Sessions
  import opened SessionSteps
  import opened SessionInvariants
  import opened SessionBirths
  import opened SessionActions
  import opened SessionRuns
  import opened SessionKeys
  import opened Completeness
  import opened Rooms

  // ---------- who is in a newborn session, and how ----------

  /** The list a session is made from has its owner under its own keys. */
  ghost predicate OwnFace(me: ParticipantId, ephemeral: Block, roster: Roster) {
    me.nickname in roster && roster[me.nickname].id.fingerprint == me.fingerprint
    && roster[me.nickname].ephemeral == ephemeral
  }

  /** A newborn session waits under the id of the list it is made from, with its owner authenticated and counted. */
  ghost predicate Newborn(child: Sess, me: ParticipantId, roster: Roster) {
    && Waits(child) && child.phase == ReShared && child.me == me && child.sid == IdentityOf(roster)
    && NobodyConfirmed(child) && child.roster.Keys == roster.Keys && me.nickname in roster
    && child.roster[me.nickname].authenticated && child.roster[me.nickname].contributed
  }

  /** Everybody but its owner enters it with the flags and the share of the list. */
  ghost predicate Inherits(child: Sess, me: ParticipantId, roster: Roster) {
    Newborn(child, me, roster) && forall k :: k in roster && k != me.nickname ==> child.roster[k] == roster[k]
  }

  lemma NewbornWell(child: Sess, me: ParticipantId, roster: Roster)
    requires Newborn(child, me, roster)
    ensures WellFormed(child) && child.roster.Keys == roster.Keys && |child.sid| == |child.roster|
    ensures Waits(child) && child.me == me && child.phase == ReShared && child.sid == IdentityOf(roster)
  {
    hide Sorted;
    OwnedWellFormed(child);
  }

  lemma SeedRoster(me: ParticipantId, ephemeral: Block, roster: Roster, parental: Roster)
    requires OwnFace(me, ephemeral, roster) && Consistent(roster) && Consistent(parental)
    ensures var seed := Seed(me, Some(ephemeral), roster, parental);
      && Owned(seed) && seed.sid == IdentityOf(roster) && seed.roster.Keys == roster.Keys && seed.me == me
      && seed.ephemeral == ephemeral && seed.roster[me.nickname].authenticated && NobodyConfirmed(seed)
      && (forall k :: k in roster && k != me.nickname ==> seed.roster[k] == roster[k])
  {}

  /** The session a session has become is still its owner's. */
  lemma OwnedStill(s: Sess, t: Sess)
    requires Owned(s) && Evolves(s, t) && WellFormed(t)
    ensures SameSession(s, t)
  {
    hide Sorted;
    EvolvesIdentity(s, t);
  }

  lemma ConceiveNewborn(su: Suite, conceiver: Conceiver, me: ParticipantId, ephemeral: Option<Block>, roster: Roster,
                        parental: Roster, conceiving: Option<Delivery>, world: Surroundings)
    requires Consistent(roster) && Consistent(parental) && ephemeral.Some? && OwnFace(me, ephemeral.value, roster)
    requires Conceive(su, conceiver, me, ephemeral, roster, parental, conceiving, world).Born?
    ensures var (child, seed) := (Conceive(su, conceiver, me, ephemeral, roster, parental, conceiving, world).child,
                                  Seed(me, ephemeral, roster, parental));
      && Newborn(child, me, roster) && child.ephemeral == ephemeral.value
      && BornOf(seed, child, if conceiver == Acceptor then conceiving else None)
  {
    hide Conceive, Silent, Evolves, WellFormed, Seed, Owned, Complete, IdentityOf;
    ConceiveFacts(su, conceiver, me, ephemeral, roster, parental, conceiving, world);
    var child := Conceive(su, conceiver, me, ephemeral, roster, parental, conceiving, world).child;
    var seed := Seed(me, ephemeral, roster, parental);
    SeedRoster(me, ephemeral.value, roster, parental);
    OwnedStill(seed, child);
    assert Absorbed(seed, if conceiver == Acceptor then conceiving else None)[me.nickname].authenticated;
  }

  lemma ConceiveInherits(su: Suite, conceiver: Conceiver, me: ParticipantId, ephemeral: Option<Block>, roster: Roster,
                         parental: Roster, conceiving: Option<Delivery>, world: Surroundings)
    requires Consistent(roster) && Consistent(parental) && ephemeral.Some? && OwnFace(me, ephemeral.value, roster)
    requires Conceive(su, conceiver, me, ephemeral, roster, parental, conceiving, world).Born?
    requires !(conceiving.Some? && IsInfo(conceiving.value))
    ensures Inherits(Conceive(su, conceiver, me, ephemeral, roster, parental, conceiving, world).child, me, roster)
  {
    hide Conceive, Seed, Newborn, WellFormed, Complete, Silent, Evolves, IdentityOf, Owned;
    ConceiveNewborn(su, conceiver, me, ephemeral, roster, parental, conceiving, world);
    SeedRoster(me, ephemeral.value, roster, parental);
  }

  // ---------- sessions that inherit ----------

  /** What has become of a session that waited for shares: it has generated the key of the shares it holds exactly
      under one condition, and then of the right secrets exactly under another. */
  ghost predicate Generates(su: Suite, child: Sess, t: Sess, generated: bool, right: bool) {
    && SameSession(child, t)
    && (if generated then WithKey(t) && t.key == SessionKey(su, t) else t.phase == child.phase)
    && (generated ==> (AllSecrets(su, t) == Secrets(su, child.sid) <==> right))
  }

  /** The exchange of shares in a session that inherits its members' standing, whatever it is bred by: the key is
      generated exactly when a share is taken up and the messages make up for whatever the list lacks; and it is made
      of the right secrets exactly when no inherited share but a truthful one is left by then. */
  lemma InheritedExchange(su: Suite, child: Sess, me: ParticipantId, roster: Roster, ds: seq<Delivery>,
                          world: Surroundings)
    requires Inherits(child, me, roster) && AllTruthful(su, child, ds)
    ensures WellFormed(child) && roster.Keys == child.roster.Keys
    ensures Generates(su, child, HandleAll(su, child, ds, world),
                      TookAny(child, ds) && forall k :: k in roster && k != me.nickname ==> ReadyWith(child, ds, k),
                      forall k :: k in roster && k != me.nickname ==> InTime(su, child, ds, k))
  {
    hide Waits, AllTruthful, HandleAll, AllSecrets, SessionKey, Stands, SameSession, AgreedKey, WellFormed, TookAny,
      Took, Proved, InTime, IdentityOf;
    NewbornWell(child, me, roster);
    SharesGenerateKey(su, child, ds, world);
    assert ReadyWith(child, ds, me.nickname);
  }

  // ---------- bred by a join request ----------

  /** The owner is among the future members, under the next key it holds. */
  ghost predicate Renewable(s: Sess) {
    s.future.Some? && OwnFace(s.me, s.future.value, FutureRoster(s))
  }

  /** What a session in session answers a join request with, if it does. */
  ghost predicate Answers(su: Suite, s: Sess, d: Delivery, u: UnauthenticatedParticipant, child: Sess,
                          world: Surroundings)
  {
    && WellFormed(s) && d.packet.JoinRequest? && ParseParticipant(d.packet.joinerInfo) == Some(u)
    && Handle(su, s, d, world) == Done(s, NewSession(child))
  }

  /** Which it does, in session, when the joiner's nickname is not taken among the future members. */
  lemma RequestAnswered(su: Suite, s: Sess, d: Delivery, u: UnauthenticatedParticipant, world: Surroundings)
    returns (child: Sess)
    requires WellFormed(s) && s.phase == InSession && d.packet.JoinRequest?
    requires ParseParticipant(d.packet.joinerInfo) == Some(u) && u.id.nickname !in FutureRoster(s)
    requires s.future.Some? && s.me.nickname in FutureRoster(s)
    ensures Answers(su, s, d, u, child, world)
  {
    hide FutureRoster, WellFormed, InitWithNewUser, Conceive, ParseParticipant, WithJoiner;
    JoinShape(su, s, d, world);
    var live := FutureRoster(s);
    WithJoinerFacts(live, u);
    JoinConceived(su, s.me, s.future, WithJoiner(live, u), live, d, u, world);
    child := Conceive(su, Acceptor, s.me, s.future, WithJoiner(live, u), live, Some(d), world).child;
  }

  /** The acceptor of a join request is never refused by its constructor, and sends the joiner its view. */
  lemma JoinConceived(su: Suite, me: ParticipantId, ephemeral: Option<Block>, roster: Roster, parental: Roster,
                      d: Delivery, u: UnauthenticatedParticipant, world: Surroundings)
    requires Consistent(roster) && Consistent(parental) && me.nickname in roster && ephemeral.Some?
    requires d.packet.JoinRequest? && ParseParticipant(d.packet.joinerInfo) == Some(u) && u.id.nickname in roster
    ensures Conceive(su, Acceptor, me, ephemeral, roster, parental, Some(d), world).Born?
    ensures Conceive(su, Acceptor, me, ephemeral, roster, parental, Some(d), world)
         == SendView(su, Seed(me, ephemeral, roster, parental), u.id.nickname)
  {
    hide ParseParticipant, WellFormed, WithOwnShare, TokenFor, SessionView;
  }

  lemma AnswerInherits(su: Suite, s: Sess, d: Delivery, u: UnauthenticatedParticipant, child: Sess, world: Surroundings)
    requires Answers(su, s, d, u, child, world) && Renewable(s)
    ensures WellFormed(s) && u.id.nickname !in FutureRoster(s)
    ensures Inherits(child, s.me, WithJoiner(FutureRoster(s), u))
  {
    hide Conceive, ParseParticipant, FutureRoster, WellFormed, InitWithNewUser, Receive, AuthAndReshare, ConfirmAuth,
      MarkConfirmed, Inherits, SignatureError;
    JoinShape(su, s, d, world);
    var live := FutureRoster(s);
    if u.id.nickname !in live
        && Conceive(su, Acceptor, s.me, s.future, WithJoiner(live, u), live, Some(d), world).Born? {
      ConceiveInherits(su, Acceptor, s.me, s.future, WithJoiner(live, u), live, Some(d), world);
    }
  }

  /** Everybody on the list is authenticated and counted. */
  ghost predicate Counted(live: Roster) {
    forall k :: k in live ==> live[k].authenticated && live[k].contributed
  }

  lemma LiveCounted(s: Sess)
    requires WellFormed(s) && Ready(s)
    ensures Counted(FutureRoster(s)) && forall k :: k in FutureRoster(s) ==> k in s.roster
    ensures forall k :: k in FutureRoster(s) ==> FutureRoster(s)[k].share == s.roster[k].share
  {
    hide FutureRoster;
    FutureRosterCopies(s);
  }

  /** Of a list whose members but the joiner are counted, the joiner's token and share are all that lacks. */
  lemma JoinMeans(su: Suite, child: Sess, me: ParticipantId, live: Roster, u: UnauthenticatedParticipant,
                  ds: seq<Delivery>)
    requires Inherits(child, me, WithJoiner(live, u)) && WellFormed(child)
    requires Counted(live) && u.id.nickname !in live && me.nickname in live
    ensures live.Keys <= child.roster.Keys && u.id.nickname in child.roster
    ensures forall k :: k in live && k != me.nickname ==> child.roster[k] == live[k]
    ensures TookAny(child, ds) && ReadyBy(child, ds) <==> Proved(child, ds, u.id.nickname)
    ensures Proved(child, ds, u.id.nickname) ==>
      (RightBy(su, child, ds) <==> forall k :: k in live && k != me.nickname ==> InTime(su, child, ds, k))
  {
    hide WellFormed, Took, Proved, TrueFor, Waits, KeyTime, IdentityOf;
    var joiner := u.id.nickname;
    assert !child.roster[joiner].authenticated && !child.roster[joiner].contributed;
    assert forall k :: k in live && k != me.nickname ==> child.roster[k] == live[k];
    ProvedTook(child, ds, joiner);
    KeyTimeIff(child, ds);
    assert forall k :: k in child.roster <==> k in live || k == joiner;
    hide Inherits, Counted;
    assert forall k :: k in live ==> ReadyWith(child, ds, k);
    if Proved(child, ds, joiner) {
      assert ReadyWith(child, ds[..KeyTime(child, ds)], joiner);
      assert InTime(su, child, ds, joiner);
    }
  }

  lemma ProvedTook(s: Sess, ds: seq<Delivery>, k: Nick)
    requires WellFormed(s)
    ensures Proved(s, ds, k) ==> Took(s, ds, k)
  {
    hide TakesUp, TokenFound, WellFormed;
    if Proved(s, ds, k) {
      var i :| 0 <= i < |ds| && ds[i].sender == k && Proves(s, ds[i]);
      assert TakesUp(s, ds[i]);
    }
  }

  /** The exchange in a session bred by a join request: since its live members are born counted, the key is generated
      exactly when the joiner's token has come, and it is made of the right secrets exactly when by then every other
      live member's new share has come or its old one happens to be the new one. */
  lemma JoinExchange(su: Suite, s: Sess, d: Delivery, u: UnauthenticatedParticipant, child: Sess, ds: seq<Delivery>,
                     world: Surroundings)
    requires Answers(su, s, d, u, child, world) && Renewable(s) && Ready(s) && AllTruthful(su, child, ds)
    ensures WellFormed(child) && FutureRoster(s).Keys <= child.roster.Keys
    ensures forall k :: k in FutureRoster(s) && k != s.me.nickname ==> child.roster[k].share == s.roster[k].share
    ensures Generates(su, child, HandleAll(su, child, ds, world), Proved(child, ds, u.id.nickname),
                      forall k :: k in FutureRoster(s) && k != s.me.nickname ==> InTime(su, child, ds, k))
  {
    hide Answers, FutureRoster, Ready, AllTruthful, HandleAll, AllSecrets, SessionKey, Stands, SameSession,
      AgreedKey, WellFormed, Proved, ReadyBy, RightBy, InTime, TookAny, WithJoiner, Inherits;
    AnswerInherits(su, s, d, u, child, world);
    InheritsNewborn(child, s.me, WithJoiner(FutureRoster(s), u));
    LiveCounted(s);
    JoinMeans(su, child, s.me, FutureRoster(s), u, ds);
    SharesGenerateKey(su, child, ds, world);
  }

  lemma InheritsNewborn(child: Sess, me: ParticipantId, roster: Roster)
    requires Inherits(child, me, roster)
    ensures WellFormed(child) && child.roster.Keys == roster.Keys && |child.sid| == |child.roster|
    ensures Waits(child) && child.me == me && child.phase == ReShared && child.sid == IdentityOf(roster)
    ensures forall k :: k in roster && k != me.nickname ==> child.roster[k] == roster[k]
  {
    hide Newborn, IdentityOf;
    NewbornWell(child, me, roster);
  }

  /** Every other live member's old share happens to be the one it truthfully publishes in the new session. */
  ghost predicate OldSharesTrue(su: Suite, s: Sess, child: Sess)
    requires FutureRoster(s).Keys <= child.roster.Keys
  {
    forall k :: k in FutureRoster(s) && k != s.me.nickname ==> TrueFor(su, child, k, s.roster[k].share)
  }

  /** In particular when nothing has come before the joiner's message, which only takes one other member to be
      quicker: the key is generated at once, of the old shares. */
  lemma JoinerAuthFirst(su: Suite, s: Sess, d: Delivery, u: UnauthenticatedParticipant, child: Sess, auth: Delivery,
                        world: Surroundings)
    requires Answers(su, s, d, u, child, world) && Renewable(s) && Ready(s) && Truthful(su, child, auth)
    requires WellFormed(child) && auth.sender == u.id.nickname && Proves(child, auth)
    ensures FutureRoster(s).Keys <= child.roster.Keys
    ensures Generates(su, child, After(child, Handle(su, child, auth, world)), true, OldSharesTrue(su, s, child))
  {
    hide Answers, Renewable, FutureRoster, Ready, Handle, HandleAll, WellFormed, Proves, TakesUp, TrueFor, Inherits,
      Truthful, KeyTime, AllSecrets, SessionKey, SameSession;
    var ds := [auth];
    HandleSingle(su, child, auth, world);
    assert ds[0] == auth && Proved(child, ds, u.id.nickname);
    JoinExchange(su, s, d, u, child, ds, world);
    AnswerInherits(su, s, d, u, child, world);
    forall k | k in FutureRoster(s) && k != s.me.nickname
      ensures InTime(su, child, ds, k) <==> TrueFor(su, child, k, s.roster[k].share)
    {
      assert forall n :: 0 <= n <= 1 ==> !Took(child, ds[..n], k);
    }
  }

  // ---------- bred by a leave or the session timer ----------

  /** The exchange in a session bred by a leave or by the session timer: the first share taken up generates the key,
      of whatever shares are stored by then. */
  lemma PeerExchange(su: Suite, s: Sess, child: Sess, ds: seq<Delivery>, world: Surroundings)
    requires WellFormed(s) && Ready(s) && Renewable(s) && Consistent(FutureRoster(s)) && AllTruthful(su, child, ds)
    requires Conceive(su, Peer, s.me, s.future, FutureRoster(s), map[], None, world) == Born(child)
    ensures WellFormed(child) && child.roster.Keys == FutureRoster(s).Keys
    ensures forall k :: k in FutureRoster(s) && k != s.me.nickname ==> child.roster[k].share == s.roster[k].share
    ensures Generates(su, child, HandleAll(su, child, ds, world), TookAny(child, ds),
                      forall k :: k in FutureRoster(s) && k != s.me.nickname ==> InTime(su, child, ds, k))
  {
    hide FutureRoster, Ready, AllTruthful, HandleAll, Conceive, WellFormed, Proved, Took, InTime, TookAny, Inherits,
      Generates;
    LiveCounted(s);
    ConceiveInherits(su, Peer, s.me, s.future, FutureRoster(s), map[], None, world);
    InheritsNewborn(child, s.me, FutureRoster(s));
    InheritedExchange(su, child, s.me, FutureRoster(s), ds, world);
  }

  // ---------- bred to replace a session in limbo ----------

  /** The exchange in a session bred for one in limbo under a new parent that has everybody's share: only the members
      it adds can be missed, and they keep the flags and the share they had in limbo, so that it may well be born
      complete; the key is made of the right secrets exactly when no share of limbo or of the parent is left but
      truthful ones. */
  lemma RebornExchange(su: Suite, me: ParticipantId, s: Sess, parent: Sess, child: Sess, ds: seq<Delivery>,
                       world: Surroundings)
    requires WellFormed(s) && WellFormed(parent) && Ready(parent) && AllTruthful(su, child, ds)
    requires Rebirth(su, me, s, parent, world) == Born(child)
    requires parent.future.Some? && OwnFace(me, parent.future.value, Reparented(s, parent))
    ensures WellFormed(child) && child.roster.Keys == Delta(s).Keys + FutureRoster(parent).Keys
    ensures forall k :: k in Delta(s) && k != me.nickname ==> child.roster[k] == s.roster[k]
    ensures forall k :: k in FutureRoster(parent) && k !in Delta(s) && k != me.nickname ==>
      child.roster[k].share == parent.roster[k].share
    ensures Generates(su, child, HandleAll(su, child, ds, world),
                      TookAny(child, ds) && forall k :: k in Delta(s) && k != me.nickname ==> ReadyWith(child, ds, k),
                      forall k :: k in child.roster && k != me.nickname ==> InTime(su, child, ds, k))
  {
    hide FutureRoster, Ready, AllTruthful, HandleAll, Conceive, WellFormed, Proved, Took, InTime, TookAny, Inherits,
      Generates;
    ReparentedConsistent(s, parent);
    LiveCounted(parent);
    ConceiveInherits(su, Acceptor, me, parent.future, Reparented(s, parent), FutureRoster(parent), None, world);
    InheritsNewborn(child, me, Reparented(s, parent));
    InheritedExchange(su, child, me, Reparented(s, parent), ds, world);
    var delta, roster := Delta(s), Reparented(s, parent);
    assert forall k :: k in roster && k !in delta && k != me.nickname ==> ReadyWith(child, ds, k);
    assert forall k :: k in delta ==> k in roster;
  }

  // ---------- bred by a view ----------

  /** What a view makes of a session: its sender's share is stored and counted, the listed members are trusted if their
      keys match announced ones, and nobody else is counted. */
  ghost predicate FromView(child: Sess, s: Sess, d: Delivery)
    requires IsInfo(d)
  {
    var listed := ListToMap(d.packet.content.view);
    && Newborn(child, s.me, listed) && d.sender in listed
    && (d.sender != s.me.nickname ==> child.roster[d.sender].share == d.packet.content.infoShare)
    && forall k :: k in listed && k != s.me.nickname ==>
         && (child.roster[k].authenticated <==> k in s.roster && s.roster[k].future == listed[k].ephemeral)
         && (child.roster[k].contributed <==> k == d.sender)
  }

  lemma VettedEntries(s: Sess, view: seq<UnauthenticatedParticipant>)
    ensures var (listed, vetted) := (ListToMap(view), Vetted(s, ListToMap(view)));
      && vetted.Keys == listed.Keys && Consistent(vetted) && IdentityOf(vetted) == IdentityOf(listed)
      && (forall ephemeral :: OwnFace(s.me, ephemeral, listed) ==> OwnFace(s.me, ephemeral, vetted))
      && forall k :: k in vetted ==>
           && !vetted[k].contributed
           && (vetted[k].authenticated <==> k in s.roster && s.roster[k].future == listed[k].ephemeral)
  {
    hide ListToMap;
    ListToMapKeys(view);
    var listed := ListToMap(view);
    assert IdentityOf(Vetted(s, listed)) == IdentityOf(listed);
  }

  lemma ViewBreeds(su: Suite, s: Sess, d: Delivery, child: Sess, world: Surroundings)
    requires WellFormed(s) && IsInfo(d) && InitWithPlist(su, s, d, world) == Done(s, NewSession(child))
    requires s.future.Some? && OwnFace(s.me, s.future.value, ListToMap(d.packet.content.view))
    ensures FromView(child, s, d)
  {
    hide Conceive, InitWithPlist, ListToMap, Vetted, FutureRoster, WellFormed, Seed, Evolves, Complete, Silent,
      OwnFace, IdentityOf, Waits, PlistConsidered, Absorbed, OwnShareAdded, FromView;
    PlistShape(su, s, d, world);
    VettedEntries(s, d.packet.content.view);
    var vetted, live := Vetted(s, ListToMap(d.packet.content.view)), FutureRoster(s);
    ConceiveNewborn(su, Acceptor, s.me, s.future, vetted, live, Some(d), world);
    SeedRoster(s.me, s.future.value, vetted, live);
    ViewMeans(Seed(s.me, s.future, vetted, live), child, s, d, vetted);
  }

  lemma ViewMeans(seed: Sess, child: Sess, s: Sess, d: Delivery, vetted: Roster)
    requires IsInfo(d) && Newborn(child, s.me, ListToMap(d.packet.content.view)) && seed.roster.Keys == vetted.Keys
    requires s.me.nickname in vetted && child.roster.Keys == vetted.Keys
    requires d.sender in seed.roster && OwnShareAdded(Absorbed(seed, Some(d)), child.roster, s.me.nickname)
    requires forall k :: k in vetted && k != s.me.nickname ==> seed.roster[k] == vetted[k]
    requires var listed := ListToMap(d.packet.content.view);
      && vetted.Keys == listed.Keys
      && forall k :: k in vetted ==>
           && !vetted[k].contributed
           && (vetted[k].authenticated <==> k in s.roster && s.roster[k].future == listed[k].ephemeral)
    ensures FromView(child, s, d)
  {
    hide ListToMap, Newborn;
  }

  /** The exchange in a session bred by a view with its sender's truthful share: nothing is inherited, so that the key
      is right whenever it is generated, and it is generated exactly when every other member's share has come and
      every one not vetted has proved itself. */
  lemma ViewExchange(su: Suite, s: Sess, d: Delivery, child: Sess, ds: seq<Delivery>, world: Surroundings)
    requires WellFormed(s) && IsInfo(d) && InitWithPlist(su, s, d, world) == Done(s, NewSession(child))
    requires s.future.Some? && OwnFace(s.me, s.future.value, ListToMap(d.packet.content.view))
    requires d.sender in child.roster && TrueFor(su, child, d.sender, d.packet.content.infoShare)
    requires AllTruthful(su, child, ds)
    ensures WellFormed(child)
    ensures var (t, listed) := (HandleAll(su, child, ds, world), ListToMap(d.packet.content.view));
      && SameSession(child, t)
      && (WithKey(t) <==>
            TookAny(child, ds) && forall k :: k in listed && k != s.me.nickname ==>
              && ((k in s.roster && s.roster[k].future == listed[k].ephemeral) || Proved(child, ds, k))
              && (k == d.sender || Took(child, ds, k)))
      && (WithKey(t) ==> t.key == AgreedKey(su, child.sid) && AllSecrets(su, t) == Secrets(su, child.sid))
  {
    hide InitWithPlist, AllTruthful, HandleAll, AllSecrets, SessionKey, TrueFor, Took, Proved, KeyTime, Stands,
      SameSession, AgreedKey, WellFormed, ListToMap, RightBy, IdentityOf, TookAny, Waits;
    ViewBreeds(su, s, d, child, world);
    NewbornWell(child, s.me, ListToMap(d.packet.content.view));
    SharesGenerateKey(su, child, ds, world);
    KeyTimeIff(child, ds);
    if KeyTime(child, ds) > 0 {
      UnspoiledRight(su, child, ds);
    }
    forall k | k in child.roster
      ensures k == s.me.nickname ==> ReadyWith(child, ds, k)
      ensures k != s.me.nickname ==>
        (ReadyWith(child, ds, k) <==>
           && ((k in s.roster && s.roster[k].future == ListToMap(d.packet.content.view)[k].ephemeral)
               || Proved(child, ds, k))
           && (k == d.sender || Took(child, ds, k)))
    {}
  }

  // ---------- the joiner's ----------

  /** The joiner's session when it reads its first view: filled from it, its own tokens and share sent. */
  function JoinerReads(su: Suite, me: ParticipantId, key: Block, view: seq<UnauthenticatedParticipant>): (s: Sess)
    requires me.nickname in ListToMap(view)
    ensures WellFormed(s)
  {
    JoinerSends(su, JoinSeed(me, key, view))
  }

  lemma JoinSeedOwner(me: ParticipantId, key: Block, view: seq<UnauthenticatedParticipant>)
    requires OwnFace(me, key, ListToMap(view))
    ensures var s := JoinSeed(me, key, view);
      Owned(s) && s.roster.Keys == ListToMap(view).Keys && s.roster[me.nickname].authenticated
  {
    hide ListToMap, WellFormed, Silent;
    JoinSeedFacts(me, key, view);
  }

  lemma JoinerReadsFacts(su: Suite, me: ParticipantId, key: Block, view: seq<UnauthenticatedParticipant>)
    requires OwnFace(me, key, ListToMap(view))
    ensures var (s, seed) := (JoinerReads(su, me, key, view), JoinSeed(me, key, view));
      && Waits(s) && s.phase == JoinRequested && s.me == me && s.ephemeral == key
      && s.sid == IdentityOf(ListToMap(view)) && s.roster.Keys == ListToMap(view).Keys
      && NobodyConfirmed(s) && s.zombies == map[] && Silent(s)
      && s.roster[me.nickname].authenticated && s.roster[me.nickname].contributed
      && (forall k :: k in s.roster && k != me.nickname ==> !s.roster[k].contributed)
      && s == JoinerSends(su, seed) && Evolves(seed, s)
  {
    hide ListToMap, JoinSeed, IdentityOf, JoinerSends, Owned, WellFormed, Evolves, Spoke;
    JoinSeedFacts(me, key, view);
    JoinSeedOwner(me, key, view);
    var seed := JoinSeed(me, key, view);
    JoinerSendsFacts(su, seed);
    SpokeEvolves(seed, JoinerSends(su, seed));
    OwnedStill(seed, JoinerSends(su, seed));
  }

  /** The constructor reads its view as the session would. */
  lemma JoinReadsView(su: Suite, me: ParticipantId, key: Block, d: Delivery, child: Sess, world: Surroundings)
    requires IsInfo(d) && Join(su, me, key, d, world) == Born(child)
    ensures me.nickname in ListToMap(d.packet.content.view)
    ensures child == HandleAll(su, JoinerReads(su, me, key, d.packet.content.view), [d], world)
  {
    hide ListToMap, JoinSeed, JoinerSends, Join, HandleAll, WellFormed, Evolves, Spoke, Silent, IdentityOf,
      AuthAndReshare, Handle;
    var view := d.packet.content.view;
    JoinIsMove(su, me, key, d, world);
    var seed := JoinSeed(me, key, view);
    JoinSeedFacts(me, key, view);
    JoinerSendsFacts(su, seed);
    SpokeEvolves(seed, JoinerSends(su, seed));
    SenderKeyKept(seed, JoinerSends(su, seed), d);
    HandleSingle(su, JoinerSends(su, seed), d, world);
    ReadsByAuth(su, JoinerSends(su, seed), d, world);
  }

  lemma ReadsByAuth(su: Suite, s: Sess, d: Delivery, world: Surroundings)
    requires WellFormed(s) && s.phase == JoinRequested && IsInfo(d) && FromMember(s, d)
    ensures Handle(su, s, d, world) == AuthAndReshare(su, s, d, world)
    ensures AuthAndReshare(su, s, d, world).Done? ==>
      After(s, Handle(su, s, d, world)) == AuthAndReshare(su, s, d, world).sess
  {
    hide AuthAndReshare, WellFormed;
  }

  /** A truthful first view makes a joiner's session. */
  lemma TruthfulViewJoins(su: Suite, me: ParticipantId, key: Block, d: Delivery, world: Surroundings)
    requires IsInfo(d) && OwnFace(me, key, ListToMap(d.packet.content.view))
    requires Truthful(su, JoinerReads(su, me, key, d.packet.content.view), d)
    ensures Join(su, me, key, d, world).Born?
  {
    hide Silent, IdentityOf, Join, JoinSeed, JoinerSends, ListToMap, TrueFor, Evolves, WellFormed, Owned, Proves,
      AuthAndReshare, Accepts, Truthful;
    var view := d.packet.content.view;
    JoinerReadsFacts(su, me, key, view);
    var seed, s := JoinSeed(me, key, view), JoinerReads(su, me, key, view);
    TruthfulToken(su, s, d);
    SenderKeyBefore(seed, s, d);
    AcceptedReads(su, s, d, world);
    JoinFrom(su, me, key, d, world);
  }

  lemma SenderKeyBefore(s: Sess, t: Sess, d: Delivery)
    requires Evolves(s, t) && FromMember(t, d)
    ensures FromMember(s, d)
  {
    assert SameMember(s.roster[d.sender], t.roster[d.sender]);
  }

  lemma AcceptedReads(su: Suite, s: Sess, d: Delivery, world: Surroundings)
    requires WellFormed(s) && s.phase == JoinRequested && IsInfo(d) && FromMember(s, d)
    requires Proves(s, d) ==> Accepts(su, s.me, s.ephemeral, s.roster[d.sender], TokenFound(s, d.packet.content).value)
    ensures AuthAndReshare(su, s, d, world).Done?
  {
    hide Accepts, WithShare, Finish, WellFormed, MyIndex;
    assert Proves(s, d);
    var r := Authenticate(su, s, d.sender, d.packet.content.token);
    FinishKeepsRoster(su, WithShare(r.value, d.sender, d.packet.content.infoShare), world);
  }

  lemma JoinFrom(su: Suite, me: ParticipantId, key: Block, d: Delivery, world: Surroundings)
    requires IsInfo(d) && me.nickname in ListToMap(d.packet.content.view)
    requires FromMember(JoinSeed(me, key, d.packet.content.view), d)
    requires AuthAndReshare(su, JoinerSends(su, JoinSeed(me, key, d.packet.content.view)), d, world).Done?
    ensures Join(su, me, key, d, world).Born?
  {
    hide AuthAndReshare, JoinerSends, Populate, WellFormed;
    ListToMapKeys(d.packet.content.view);
    assert d.packet.content.view != [];
    hide ListToMap;
  }

  lemma JoinerReady(s: Sess, ds: seq<Delivery>)
    requires WellFormed(s) && s.phase == JoinRequested
    requires s.roster[s.me.nickname].authenticated && s.roster[s.me.nickname].contributed
    requires forall k :: k in s.roster && k != s.me.nickname ==> !s.roster[k].contributed
    ensures ReadyBy(s, ds) <==> forall k :: k in s.roster && k != s.me.nickname ==> Took(s, ds, k)
  {
    hide WellFormed, MyIndex;
    forall k ensures Took(s, ds, k) ==> Proved(s, ds, k) {
      if Took(s, ds, k) {
        var i :| 0 <= i < |ds| && ds[i].sender == k && TakesUp(s, ds[i]);
        assert Proves(s, ds[i]);
      }
    }
    hide Took, Proved;
  }

  /** Every other listed member's view with an accepted token has come. */
  ghost predicate AllViewsIn(s: Sess, ds: seq<Delivery>) {
    forall k :: k in s.roster && k != s.me.nickname ==> Took(s, ds, k)
  }

  /** When a joiner's session, from its first view on, has its key, it is the right one. */
  lemma JoinerMeans(su: Suite, s: Sess, ds: seq<Delivery>)
    requires WellFormed(s) && s.phase == JoinRequested && ds != [] && IsInfo(ds[0])
    requires s.roster[s.me.nickname].authenticated && s.roster[s.me.nickname].contributed
    requires forall k :: k in s.roster && k != s.me.nickname ==> !s.roster[k].contributed
    ensures KeyTime(s, ds) > 0 <==> AllViewsIn(s, ds)
    ensures ReadyBy(s, ds) && TookAny(s, ds) <==> AllViewsIn(s, ds)
    ensures AllViewsIn(s, ds) ==> RightBy(su, s, ds)
  {
    assert Took(s, ds, ds[0].sender);
    hide WellFormed, KeyTime, RightBy, ReadyBy, Took;
    JoinerReady(s, ds);
    KeyTimeIff(s, ds);
    if KeyTime(s, ds) > 0 {
      UnspoiledRight(su, s, ds);
    }
  }

  /** The exchange of shares in a joiner's session: from the view that makes it on, its key is generated exactly when
      every other listed member's view with an accepted token has come, and it is the one key of the session's id. */
  lemma JoinerExchange(su: Suite, me: ParticipantId, key: Block, d: Delivery, child: Sess, ds: seq<Delivery>,
                       world: Surroundings)
    requires IsInfo(d) && Join(su, me, key, d, world) == Born(child)
    requires OwnFace(me, key, ListToMap(d.packet.content.view))
    requires AllTruthful(su, JoinerReads(su, me, key, d.packet.content.view), [d] + ds)
    ensures WellFormed(child)
    ensures var (s, t) := (JoinerReads(su, me, key, d.packet.content.view), HandleAll(su, child, ds, world));
      && SameSession(s, t) && s.sid == IdentityOf(ListToMap(d.packet.content.view))
      && (if AllViewsIn(s, [d] + ds) then WithKey(t) else t.phase == JoinRequested)
      && (WithKey(t) ==> t.key == AgreedKey(su, s.sid) && AllSecrets(su, t) == Secrets(su, s.sid))
  {
    hide HandleAll, Join, JoinerReads, ListToMap, OwnFace, AllTruthful, SameSession, IdentityOf, AllSecrets,
      SessionKey, AgreedKey, Owned, WellFormed, RightBy, ReadyBy, TookAny, KeyTime, AllViewsIn, Stands, Silent,
      Evolves, JoinSeed;
    JoinReadsView(su, me, key, d, child, world);
    JoinerReadsFacts(su, me, key, d.packet.content.view);
    var s := JoinerReads(su, me, key, d.packet.content.view);
    HandleAllInTurn(su, s, [d], ds, world);
    SharesGenerateKey(su, s, [d] + ds, world);
    JoinerMeans(su, s, [d] + ds);
  }

  /** From its first view to the session, exactly: whatever a joiner hears, as long as the views it takes up are
      truthful, it gets into session exactly when every other listed member's view has come and, after the last of
      them, a right confirmation of every member; and the key is the one key of the session's id. */
  lemma JoinerEstablishes(su: Suite, me: ParticipantId, key: Block, d: Delivery, child: Sess, ds: seq<Delivery>,
                          world: Surroundings)
    requires IsInfo(d) && Join(su, me, key, d, world) == Born(child)
    requires OwnFace(me, key, ListToMap(d.packet.content.view))
    requires AllTruthful(su, JoinerReads(su, me, key, d.packet.content.view), [d] + ds)
    ensures WellFormed(child)
    ensures var (s, all) := (JoinerReads(su, me, key, d.packet.content.view), [d] + ds);
      var (n, t) := (KeyTime(s, all), HandleAll(su, child, ds, world));
      && t.sid == s.sid == IdentityOf(ListToMap(d.packet.content.view)) && (n > 0 <==> AllViewsIn(s, all))
      && (t.phase == InSession <==>
            n > 0 && forall k :: k in s.roster ==> HeardRight(su, s, AgreedKey(su, s.sid), all[n..], k))
      && (t.phase == InSession ==> t.key == AgreedKey(su, s.sid))
  {
    hide HandleAll, Join, JoinerReads, ListToMap, OwnFace, AllTruthful, IdentityOf, SessionKey, HeardRight,
      AgreedKey, Owned, WellFormed, RightBy, ReadyBy, TookAny, KeyTime, AllViewsIn, Silent, Evolves, JoinSeed;
    JoinReadsView(su, me, key, d, child, world);
    JoinerReadsFacts(su, me, key, d.packet.content.view);
    var s := JoinerReads(su, me, key, d.packet.content.view);
    HandleAllInTurn(su, s, [d], ds, world);
    ExchangeCompletes(su, s, [d] + ds, world);
    JoinerMeans(su, s, [d] + ds);
  }
}
