/** What the room relies on: the states a session may move to, the actions that come with them, and what it
    breeds. */
module SessionActions {
  import opened Bytes
  import opened Crypto
  import opened Participants
  import opened Sessions
  import opened SessionSteps
  import opened SessionInvariants
  import opened SessionBirths

  /** The creator's, the joiner's and whatever a leave or the session timer breeds record no parent; any other session
      adds at most one member to its parent. */
  ghost predicate Pedigreed(s: Sess) {
    s.parental == map[] || |Delta(s)| <= 1
  }

  /** A well-formed session whose id is made of its members, with a pedigree. */
  ghost predicate Fit(s: Sess) {
    WellFormed(s) && s.sid == IdentityOf(s.roster) && Pedigreed(s)
  }

  lemma SameSize(a: Roster, b: Roster)
    requires a.Keys == b.Keys
    ensures |a| == |b| && (a == map[] <==> b == map[])
  {
    assert |a| == |a.Keys| && |b| == |b.Keys|;
    assert a == map[] <==> a.Keys == {};
    assert b == map[] <==> b.Keys == {};
  }

  lemma EvolvesDelta(s: Sess, t: Sess)
    requires Evolves(s, t)
    ensures t.parental == s.parental && t.roster.Keys == s.roster.Keys && Delta(t).Keys == Delta(s).Keys
    ensures forall k :: k in Delta(t) ==>
      t.roster[k].id == s.roster[k].id && t.roster[k].ephemeral == s.roster[k].ephemeral
  {
    forall k | k in s.roster
      ensures t.roster[k].id == s.roster[k].id && t.roster[k].ephemeral == s.roster[k].ephemeral
    {
      assert SameMember(s.roster[k], t.roster[k]);
    }
  }

  lemma EvolvesFit(s: Sess, t: Sess)
    requires Fit(s) && Evolves(s, t) && WellFormed(t)
    ensures Fit(t) && t.sid == s.sid
  {
    hide Evolves, Delta, WellFormed, IdentityOf;
    EvolvesSameOwner(s, t);
    EvolvesIdentity(s, t);
    EvolvesDelta(s, t);
    SameSize(Delta(s), Delta(t));
  }

  lemma MoveEvolves(su: Suite, s: Sess, d: Delivery, world: Surroundings, m: Move)
    requires WellFormed(s) && Legal(su, s, d, m)
    ensures WellFormed(Apply(su, s, d, world, m)) && Evolves(s, Apply(su, s, d, world, m))
  {
    hide MarkConfirmed, ConfirmIfReady, Taken, Evolves, Ready, SessionKey, Legal;
    var t := Apply(su, s, d, world, m);
    match m
    case Take(share, vouched) =>
      TakePhase(su, s, d, m);
      TakenFacts(s, d.sender, share, vouched);
      ConfirmIfReadyFacts(su, Taken(s, d.sender, share, vouched), world);
      EvolvesTransitive(s, Taken(s, d.sender, share, vouched), t);
    case Mark =>
      MarkMove(su, s, d);
      MarkFacts(su, s, d);
    case Shed(leaver) =>
      ShedMove(su, s, d, leaver);
      AsideEvolves(s, t);
    case Stay => EvolvesReflexive(s);
    case Expire =>
      ExpireMove(su, s, d);
      AsideEvolves(s, t);
  }

  /** Whatever is delivered, the session keeps its id, its members and their keys. */
  lemma HandleEvolves(su: Suite, s: Sess, d: Delivery, world: Surroundings)
    requires WellFormed(s)
    ensures WellFormed(After(s, Handle(su, s, d, world))) && Evolves(s, After(s, Handle(su, s, d, world)))
  {
    hide Handle, Apply, Legal, WellFormed, Evolves;
    var m := HandleMoves(su, s, d, world);
    MoveEvolves(su, s, d, world, m);
  }

  // ---------- states and actions ----------

  /** How the state moves: a key is generated together with the claim to be the heir; in session is entered from
      there, with no claim; only a session that is leaving expires. */
  ghost predicate PhaseStep(s: Sess, t: Sess, action: Action) {
    && (action == PresumeHeir <==> t.phase == GroupKeyGenerated && s.phase in {JoinRequested, ReShared})
    && (t.phase == s.phase
        || (t.phase == GroupKeyGenerated && s.phase in {JoinRequested, ReShared})
        || (t.phase == InSession && s.phase == GroupKeyGenerated)
        || (t.phase == Dead && s.phase == LeaveRequested))
    && (action.NewSession? || action.NewPrioritySession? ==> s.phase == InSession && t.phase == InSession)
  }

  lemma FinishPhases(su: Suite, s: Sess, t: Sess, world: Surroundings)
    requires WellFormed(t) && t.phase == s.phase && s.phase in {JoinRequested, ReShared}
    ensures var outcome := Finish(su, t, world); outcome.Done? && PhaseStep(s, outcome.sess, outcome.action)
  {
    hide SessionKey, ConfirmationOf, Ready;
  }

  lemma AuthAndResharePhases(su: Suite, s: Sess, d: Delivery, world: Surroundings)
    requires WellFormed(s) && IsInfo(d) && d.sender in s.roster && s.phase == JoinRequested
    ensures var outcome := AuthAndReshare(su, s, d, world);
      && !outcome.Died? && (outcome.Threw? ==> outcome.kept == s)
      && (outcome.Done? ==> PhaseStep(s, outcome.sess, outcome.action))
  {
    hide Finish, WithShare, Accepts, PhaseStep;
    if Authenticate(su, s, d.sender, d.packet.content.token).Some? {
      var r := Authenticate(su, s, d.sender, d.packet.content.token).value;
      WithSharePhase(r, d.sender, d.packet.content.infoShare);
      FinishPhases(su, s, WithShare(r, d.sender, d.packet.content.infoShare), world);
    }
  }

  lemma WithSharePhase(s: Sess, k: Nick, share: Block)
    requires k in s.roster
    ensures WithShare(s, k, share).phase == s.phase
  {}

  lemma ConfirmAuthPhases(su: Suite, s: Sess, d: Delivery, world: Surroundings)
    requires WellFormed(s) && d.packet.Signed? && CarriesShare(d.packet.content) && d.sender in s.roster
    requires s.phase == ReShared
    ensures var outcome := ConfirmAuth(su, s, d, world);
      && !outcome.Died? && (outcome.Threw? ==> outcome.kept == s)
      && (outcome.Done? ==> PhaseStep(s, outcome.sess, outcome.action))
  {
    hide Finish, WithShare, Accepts, PhaseStep, MyIndex;
    var c := d.packet.content;
    var checked := if c.JoinerAuth? && MyIndex(s) in c.table
                   then Authenticate(su, s, d.sender, c.table[MyIndex(s)]) else Some(s);
    if checked.Some? {
      WithSharePhase(checked.value, d.sender, ShareIn(c));
      FinishPhases(su, s, WithShare(checked.value, d.sender, ShareIn(c)), world);
    }
  }

  lemma MarkPhases(su: Suite, s: Sess, d: Delivery)
    requires WellFormed(s) && d.packet.Signed? && d.packet.content.SessionConfirmation? && d.sender in s.roster
    requires s.phase == GroupKeyGenerated
    ensures PhaseStep(s, MarkConfirmed(su, s, d), NoAction)
  {
    hide MarkConfirmed, Evolves, WellFormed, EverybodyConfirmed;
    MarkFacts(su, s, d);
  }

  // ---------- what is bred ----------

  /** A bred session: fit, waiting for shares. */
  ghost predicate Bred(child: Sess) {
    Fit(child) && child.phase == ReShared
  }

  /** What a constructor breeds for at most one new member, or for no parent. */
  lemma ConceiveBreeds(su: Suite, conceiver: Conceiver, me: ParticipantId, ephemeral: Option<Block>, roster: Roster,
                       parental: Roster, conceiving: Option<Delivery>, world: Surroundings)
    requires Consistent(roster) && Consistent(parental) && (parental == map[] || |Minus(roster, parental)| <= 1)
    requires Conceive(su, conceiver, me, ephemeral, roster, parental, conceiving, world).Born?
    ensures var child := Conceive(su, conceiver, me, ephemeral, roster, parental, conceiving, world).child;
      && Bred(child) && child.sid == IdentityOf(roster) && child.parental == parental && child.zombies == map[]
      && child.me == me && child.roster.Keys == roster.Keys
  {
    hide Conceive, Populate, IdentityOf, Complete, Silent, Evolves, WellFormed, Minus, OwnShareAdded, Absorbed, Seed,
      Delta, NobodyConfirmed;
    ConceiveFacts(su, conceiver, me, ephemeral, roster, parental, conceiving, world);
    SeedFacts(me, ephemeral, roster, parental);
    var child := Conceive(su, conceiver, me, ephemeral, roster, parental, conceiving, world).child;
    var seed := Seed(me, ephemeral, roster, parental);
    DeltaOfSeed(me, ephemeral, roster, parental);
    SameSize(Delta(seed), Minus(roster, parental));
    EvolvesFit(seed, child);
    EvolvesRosterKeys(seed, child);
  }

  lemma EvolvesRosterKeys(s: Sess, t: Sess)
    requires Evolves(s, t)
    ensures t.roster.Keys == s.roster.Keys && t.parental == s.parental && t.me == s.me
  {}

  lemma FutureRosterConsistent(s: Sess)
    requires WellFormed(s)
    ensures Consistent(FutureRoster(s))
  {}

  /** A leave breeds a session of another id than the parent's, without any zombie; it never dies. */
  lemma ShrinkBreeds(su: Suite, s: Sess, leaver: Nick, world: Surroundings)
    requires Fit(s)
    ensures var outcome := Shrink(su, s, leaver, world);
      && !outcome.Died?
      && (outcome.Threw? ==> outcome.kept.phase == s.phase)
      && (outcome.Done? ==>
            && outcome.sess.phase == s.phase && (outcome.action == NoAction || outcome.action.NewPrioritySession?)
            && (outcome.action.NewPrioritySession? ==>
                  && Bred(outcome.action.heir) && outcome.action.heir.sid != s.sid
                  && outcome.action.heir.sid == IdentityOf(FutureRoster(outcome.sess))
                  && leaver !in outcome.action.heir.sid))
  {
    hide Bred, IdentityOf, FutureRoster;
    if leaver in s.roster && leaver !in s.zombies {
      var t := s.(zombies := s.zombies[leaver := s.roster[leaver]]);
      FutureRosterConsistent(t);
      GoneFromFuture(t, leaver);
      PeerNeverFatal(su, s.me, s.future, FutureRoster(t), map[], world);
      hide Conceive, WellFormed;
      if Conceive(su, Peer, s.me, s.future, FutureRoster(t), map[], None, world).Born? {
        ConceiveBreeds(su, Peer, s.me, s.future, FutureRoster(t), map[], None, world);
      }
    }
  }

  lemma PeerNeverFatal(su: Suite, me: ParticipantId, ephemeral: Option<Block>, roster: Roster, parental: Roster,
                       world: Surroundings)
    requires Consistent(roster) && Consistent(parental)
    ensures !Conceive(su, Peer, me, ephemeral, roster, parental, None, world).Fatal?
  {
    hide Populate, SendShare;
  }

  lemma PeerBornIff(su: Suite, me: ParticipantId, ephemeral: Option<Block>, roster: Roster, world: Surroundings)
    requires Consistent(roster)
    ensures Conceive(su, Peer, me, ephemeral, roster, map[], None, world).Born?
       <==> me.nickname in roster && ephemeral.Some?
  {
    hide Populate, SendShare;
  }

  /** A creator makes a session of one member, which is itself under a key it has, and begins with its view; any other
      number of members stops it. */
  lemma CreatorIff(su: Suite, me: ParticipantId, ephemeral: Option<Block>, roster: Roster, parental: Roster,
                   conceiving: Option<Delivery>, world: Surroundings)
    requires Consistent(roster) && Consistent(parental)
    ensures var birth := Conceive(su, Creator, me, ephemeral, roster, parental, conceiving, world);
      && (birth.Fatal? <==> |roster| != 1)
      && (birth.Born? <==> roster.Keys == {me.nickname} && ephemeral.Some?)
      && (birth.Born? ==>
            |birth.child.outbox| == 1 && birth.child.outbox[0].Signed?
            && birth.child.outbox[0].content.ParticipantsInfo?)
  {
    hide Populate, OwnShare, TokenFor, SessionView, WellFormed;
    assert |roster| == |roster.Keys|;
    if |roster| == 1 && me.nickname in roster {
      assert roster.Keys == {me.nickname} by { OneKey(roster.Keys, me.nickname); }
    }
  }

  lemma OneKey<T>(s: set<T>, x: T)
    requires |s| == 1 && x in s
    ensures s == {x}
  {
    assert |s - {x}| == 0;
  }

  lemma GoneFromFuture(t: Sess, leaver: Nick)
    requires leaver in t.roster && leaver in t.zombies && t.zombies[leaver] == t.roster[leaver]
    ensures leaver !in FutureRoster(t)
  {}

  /** One more leaver takes exactly that member out of the future. */
  lemma ShedMembers(s: Sess, leaver: Nick)
    requires leaver in s.roster
    ensures var t := s.(zombies := s.zombies[leaver := s.roster[leaver]]);
            FutureRoster(t) == FutureRoster(s) - {leaver}
  {
    hide Minus, FutureRoster;
    var t := s.(zombies := s.zombies[leaver := s.roster[leaver]]);
    var after, before := FutureRoster(t), FutureRoster(s);
    MinusOneMore(s.roster, s.zombies, leaver);
    forall k ensures k in after <==> k in before && k != leaver {
      assert k in after <==> k in Minus(t.roster, t.zombies);
      assert k in before <==> k in Minus(s.roster, s.zombies);
    }
    assert after.Keys == (before - {leaver}).Keys;
  }

  lemma MinusOneMore(left: Roster, right: Roster, k: Nick)
    requires k in left
    ensures Minus(left, right[k := left[k]]).Keys == Minus(left, right).Keys - {k}
  {
    hide Minus;
  }

  // ---------- every message ----------

  lemma ReceivePhases(su: Suite, s: Sess, d: Delivery, world: Surroundings)
    requires Fit(s) && d.packet.Signed? && d.packet.content.InSessionMessage?
    requires s.phase in {InSession, Dead, LeaveRequested}
    ensures HandleFits(s, Receive(su, s, d, world))
  {
    hide Shrink, Peers, Bred, Fit, WellFormed;
    FitWellFormed(s);
    var c := d.packet.content;
    if c.index < |s.roster| {
      ShrinkBreeds(su, s, Peers(s)[c.index], world);
    }
  }

  lemma FitWellFormed(s: Sess)
    requires Fit(s)
    ensures WellFormed(s)
  {}

  /** A step of a fit session in terms of states and actions; what is bred is fit and has the id it should. */
  ghost predicate HandleFits(s: Sess, outcome: Outcome) {
    match outcome
    case Died(_) => false
    case Threw(t, _) => t.phase == s.phase
    case Done(t, action) =>
      && PhaseStep(s, t, action)
      && (action.NewSession? ==> Bred(action.child))
      && (action.NewPrioritySession? ==> Bred(action.heir) && action.heir.sid != s.sid)
  }

  lemma AcceptFatal(su: Suite, s: Sess, keyless: bool, conceiving: Option<Delivery>, world: Surroundings)
    requires WellFormed(s)
    ensures Accept(su, s, keyless, conceiving, world).Fatal? <==>
      || JoinerName(s, conceiving) == None
      || (conceiving.Some? && IsInfo(conceiving.value) && conceiving.value.sender !in s.roster)
  {
    hide JoinerName, AbsorbConceiving, WithOwnShare, TokenFor, SessionView;
  }

  lemma JoinerNameMissing(s: Sess, conceiving: Option<Delivery>)
    ensures JoinerName(s, conceiving) == None
       <==> !(conceiving.Some? && conceiving.value.packet.JoinRequest?) && |Delta(s)| > 1
  {
    hide ParseParticipant, Delta, Sorted;
    assert |Delta(s)| == 0 <==> Delta(s) == map[];
  }

  lemma AcceptorNeverFatal(su: Suite, me: ParticipantId, ephemeral: Option<Block>, roster: Roster, parental: Roster,
                           d: Delivery, world: Surroundings)
    requires Consistent(roster) && Consistent(parental) && d.packet.JoinRequest?
    ensures !Conceive(su, Acceptor, me, ephemeral, roster, parental, Some(d), world).Fatal?
  {
    hide Populate, Accept, JoinerName;
    if me.nickname in roster {
      var seed := Seed(me, ephemeral, roster, parental);
      JoinerNameMissing(seed, Some(d));
      AcceptFatal(su, seed, ephemeral == None, Some(d), world);
    }
  }

  /** The members of the session a join request asks for. */
  function WithJoiner(live: Roster, u: UnauthenticatedParticipant): (r: Roster)
    ensures Consistent(live) ==> Consistent(r)
  {
    live[u.id.nickname := FromUnauthenticated(u)]
  }

  lemma WithJoinerFacts(live: Roster, u: UnauthenticatedParticipant)
    ensures var r := WithJoiner(live, u);
      && r.Keys == live.Keys + {u.id.nickname} && r[u.id.nickname] == FromUnauthenticated(u)
      && (forall k :: k in live && k != u.id.nickname ==> r[k] == live[k])
      && r[u.id.nickname].id == u.id && r[u.id.nickname].ephemeral == u.ephemeral
  {}

  /** A request adds its joiner and nobody else. */
  lemma WithJoinerAdds(live: Roster, u: UnauthenticatedParticipant)
    requires u.id.nickname !in live
    ensures |Minus(WithJoiner(live, u), live)| <= 1
  {
    hide WithJoiner, Minus;
    WithJoinerFacts(live, u);
    var added := Minus(WithJoiner(live, u), live);
    assert added.Keys <= {u.id.nickname} by {
      forall k | k in added ensures k == u.id.nickname {}
    }
    FewerElements(added.Keys, {u.id.nickname});
    assert |added| == |added.Keys|;
  }

  lemma WithJoinerIdentity(live: Roster, u: UnauthenticatedParticipant)
    ensures IdentityOf(WithJoiner(live, u)) == IdentityOf(live)[u.id.nickname := Face(u.id.fingerprint, u.ephemeral)]
  {}

  lemma JoinShape(su: Suite, s: Sess, d: Delivery, world: Surroundings)
    requires WellFormed(s) && d.packet.JoinRequest?
    ensures Consistent(FutureRoster(s))
    ensures var (outcome, parsed) := (InitWithNewUser(su, s, d, world), ParseParticipant(d.packet.joinerInfo));
      if parsed == None || parsed.value.id.nickname in FutureRoster(s) then outcome.Threw? && outcome.kept == s
      else outcome == match Conceive(su, Acceptor, s.me, s.future, WithJoiner(FutureRoster(s), parsed.value),
                                     FutureRoster(s), Some(d), world)
                      case Born(child) => Done(s, NewSession(child))
                      case Failed(error) => Threw(s, error)
                      case Fatal(cause) => Died(cause)
  {
    FutureRosterConsistent(s);
    hide Conceive, ParseParticipant, FutureRoster, WellFormed;
  }

  /** A join request: refused, or answered with a session of the future members and the joiner. It never dies. */
  lemma JoinPhases(su: Suite, s: Sess, d: Delivery, world: Surroundings)
    requires Fit(s) && d.packet.JoinRequest? && s.phase == InSession
    ensures WellFormed(s) && HandleFits(s, InitWithNewUser(su, s, d, world))
  {
    hide Conceive, ParseParticipant, FutureRoster, Bred, WellFormed, Fit, InitWithNewUser, WithJoiner, HandleFits,
      Minus;
    FitWellFormed(s);
    JoinShape(su, s, d, world);
    BredFits(s);
    var parsed, live := ParseParticipant(d.packet.joinerInfo), FutureRoster(s);
    if parsed.Some? && parsed.value.id.nickname !in live {
      var roster := WithJoiner(live, parsed.value);
      WithJoinerAdds(live, parsed.value);
      AcceptorNeverFatal(su, s.me, s.future, roster, live, d, world);
      if Conceive(su, Acceptor, s.me, s.future, roster, live, Some(d), world).Born? {
        ConceiveBreeds(su, Acceptor, s.me, s.future, roster, live, Some(d), world);
      }
    }
  }

  lemma BredFits(s: Sess)
    ensures forall error :: HandleFits(s, Threw(s, error))
    ensures s.phase == InSession ==> forall child :: Bred(child) ==> HandleFits(s, Done(s, NewSession(child)))
  {
    hide Bred;
  }

  /** `state_handler` as the room sees it: it never runs into an assertion. */
  lemma HandlePhases(su: Suite, s: Sess, d: Delivery, world: Surroundings)
    requires Fit(s)
    ensures WellFormed(s) && HandleFits(s, Handle(su, s, d, world))
  {
    hide InitWithNewUser, Receive, AuthAndReshare, ConfirmAuth, MarkConfirmed, Fit, WellFormed, Bred;
    FitWellFormed(s);
    var edge := EdgeOf(s.phase, d.packet);
    if edge == ToInitSession {
      JoinPhases(su, s, d, world);
    } else if edge == ToReceive {
      ReceivePhases(su, s, d, world);
    } else if edge != NoEdge && SignatureError(s, d) == None {
      if edge == ToAuthAndReshare {
        AuthAndResharePhases(su, s, d, world);
      } else if edge == ToConfirmAuth {
        ConfirmAuthPhases(su, s, d, world);
      } else {
        MarkPhases(su, s, d);
      }
    }
  }

  // ---------- the assertions inside the constructor ----------

  /** The members the constructor takes for new: nickname and long-term key not in the parent's list. */
  lemma DeltaOfSeed(me: ParticipantId, ephemeral: Option<Block>, roster: Roster, parental: Roster)
    requires me.nickname in roster && Consistent(roster) && Consistent(parental)
    ensures Delta(Seed(me, ephemeral, roster, parental)).Keys == Minus(roster, parental).Keys
  {}

  /** Without a message the constructor runs into its assertion exactly when more than one member is new. */
  lemma AcceptFatalIff(su: Suite, me: ParticipantId, ephemeral: Option<Block>, roster: Roster, parental: Roster,
                       world: Surroundings)
    requires Consistent(roster) && Consistent(parental)
    ensures Conceive(su, Acceptor, me, ephemeral, roster, parental, None, world).Fatal?
       <==> me.nickname in roster && |Minus(roster, parental)| > 1
  {
    hide Minus, Accept, JoinerName, Populate, Delta, WellFormed;
    if me.nickname in roster {
      var seed := Seed(me, ephemeral, roster, parental);
      DeltaOfSeed(me, ephemeral, roster, parental);
      SameSize(Delta(seed), Minus(roster, parental));
      JoinerNameMissing(seed, None);
      AcceptFatal(su, seed, ephemeral == None, None, world);
    }
  }

  /** Short of its assertions the constructor for members fails for want of the owner or of its key only, unless a join
      request names its joiner. */
  lemma AcceptBornIff(su: Suite, me: ParticipantId, ephemeral: Option<Block>, roster: Roster, parental: Roster,
                      conceiving: Option<Delivery>, world: Surroundings)
    requires Consistent(roster) && Consistent(parental) && (conceiving.Some? ==> IsInfo(conceiving.value))
    ensures var birth := Conceive(su, Acceptor, me, ephemeral, roster, parental, conceiving, world);
      birth.Born? <==> me.nickname in roster && ephemeral.Some? && !birth.Fatal?
  {
    hide Accept, Populate, WellFormed;
    if me.nickname in roster {
      AcceptBorn(su, Seed(me, ephemeral, roster, parental), ephemeral == None, conceiving, world);
    }
  }

  lemma AcceptBorn(su: Suite, seed: Sess, keyless: bool, conceiving: Option<Delivery>, world: Surroundings)
    requires WellFormed(seed) && seed.phase == ReShared && (conceiving.Some? ==> IsInfo(conceiving.value))
    ensures var birth := Accept(su, seed, keyless, conceiving, world); birth.Born? <==> !keyless && !birth.Fatal?
  {
    hide JoinerName, WellFormed, WithOwnShare, TokenFor, SessionView, AbsorbConceiving, Evolves, Complete, Absorbed;
    NamesMember(seed, conceiving);
    if !(conceiving.Some? && conceiving.value.sender !in seed.roster) {
      AbsorbFacts(su, seed, conceiving, world);
      EvolvesRosterKeys(seed, AbsorbConceiving(su, seed, conceiving, world));
    }
  }

  lemma NamesMember(s: Sess, conceiving: Option<Delivery>)
    requires conceiving.Some? ==> IsInfo(conceiving.value)
    ensures var name := JoinerName(s, conceiving); name.Some? ==> name.value == [] || name.value in s.roster
  {
    hide Minus;
    if |Delta(s)| == 1 {
      assert |Delta(s).Keys| == |Delta(s)|;
      assert Sorted(Delta(s).Keys)[0] in Sorted(Delta(s).Keys);
    }
  }

  /** Whether a view gets as far as the constructor. */
  ghost predicate PlistConsidered(s: Sess, d: Delivery)
    requires IsInfo(d)
  {
    && d.sender in s.roster && d.packet.signer == s.roster[d.sender].future && d.packet.content.view != []
    && s.me.nickname in ListToMap(d.packet.content.view)
  }

  /** `init_a_session_with_plist` changes nothing but what it breeds. It runs into an assertion exactly when the
      considered view has more than one member the heir does not expect, or not its own sender; any other considered
      view breeds a session under the id of its list, as soon as the heir has a next key. */
  lemma PlistPhases(su: Suite, s: Sess, d: Delivery, world: Surroundings)
    requires Fit(s) && IsInfo(d)
    ensures WellFormed(s)
    ensures var (outcome, listed) := (InitWithPlist(su, s, d, world), ListToMap(d.packet.content.view));
      && (outcome.Died? <==> PlistConsidered(s, d)
                             && (|Minus(listed, FutureRoster(s))| > 1 || d.sender !in listed))
      && (outcome.Threw? ==> outcome.kept == s)
      && (outcome.Done? <==> PlistConsidered(s, d) && !outcome.Died? && s.future.Some?)
      && (outcome.Done? ==>
            && outcome.sess == s && outcome.action.NewSession? && Bred(outcome.action.child)
            && outcome.action.child.sid == IdentityOf(listed) && outcome.action.child.parental == FutureRoster(s)
            && outcome.action.child.me == s.me)
  {
    FitWellFormed(s);
    hide Conceive, FutureRoster, Bred, ListToMap, Named, WellFormed, Fit, Vetted, Minus, InitWithPlist,
      PlistConsidered, IdentityOf;
    var listed := ListToMap(d.packet.content.view);
    PlistShape(su, s, d, world);
    if PlistConsidered(s, d) {
      VettedFacts(s, listed, FutureRoster(s));
      ViewFatalIff(su, s.me, s.future, Vetted(s, listed), FutureRoster(s), d, world);
      AcceptBornIff(su, s.me, s.future, Vetted(s, listed), FutureRoster(s), Some(d), world);
      if Conceive(su, Acceptor, s.me, s.future, Vetted(s, listed), FutureRoster(s), Some(d), world).Born? {
        ConceiveBreeds(su, Acceptor, s.me, s.future, Vetted(s, listed), FutureRoster(s), Some(d), world);
      }
    }
  }

  lemma PlistShape(su: Suite, s: Sess, d: Delivery, world: Surroundings)
    requires WellFormed(s) && IsInfo(d)
    ensures var (outcome, vetted) := (InitWithPlist(su, s, d, world), Vetted(s, ListToMap(d.packet.content.view)));
      && Consistent(vetted) && Consistent(FutureRoster(s)) && Consistent(ListToMap(d.packet.content.view))
      && (PlistConsidered(s, d) ==>
            && s.me.nickname in vetted && s.me.nickname in ListToMap(d.packet.content.view)
            && outcome == match Conceive(su, Acceptor, s.me, s.future, vetted, FutureRoster(s), Some(d), world)
                          case Born(child) => Done(s, NewSession(child))
                          case Failed(error) => Threw(s, error)
                          case Fatal(cause) => Died(cause))
      && (!PlistConsidered(s, d) ==> outcome.Threw? && outcome.kept == s)
  {
    hide Conceive, ListToMap, Named;
    ListToMapKeys(d.packet.content.view);
    FutureRosterConsistent(s);
    hide FutureRoster, WellFormed;
  }

  lemma VettedFacts(s: Sess, listed: Roster, live: Roster)
    requires Consistent(listed)
    ensures Consistent(Vetted(s, listed)) && Vetted(s, listed).Keys == listed.Keys
    ensures IdentityOf(Vetted(s, listed)) == IdentityOf(listed)
    ensures |Minus(Vetted(s, listed), live)| == |Minus(listed, live)|
  {
    assert Minus(Vetted(s, listed), live).Keys == Minus(listed, live).Keys;
    SameSize(Minus(Vetted(s, listed), live), Minus(listed, live));
  }

  lemma ViewFatalIff(su: Suite, me: ParticipantId, ephemeral: Option<Block>, roster: Roster, parental: Roster,
                     d: Delivery, world: Surroundings)
    requires Consistent(roster) && Consistent(parental) && me.nickname in roster && IsInfo(d)
    ensures Conceive(su, Acceptor, me, ephemeral, roster, parental, Some(d), world).Fatal?
       <==> |Minus(roster, parental)| > 1 || d.sender !in roster
  {
    hide Minus, Accept, JoinerName, Populate, Delta, WellFormed, Silent;
    var seed := Seed(me, ephemeral, roster, parental);
    SeedFacts(me, ephemeral, roster, parental);
    DeltaOfSeed(me, ephemeral, roster, parental);
    SameSize(Delta(seed), Minus(roster, parental));
    JoinerNameMissing(seed, Some(d));
    AcceptFatal(su, seed, ephemeral == None, Some(d), world);
  }
}
