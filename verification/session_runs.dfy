/** Whole runs of one session: from its birth through any messages, departures, staling and suicide. */
module SessionRuns {
  import opened Bytes
  import opened Crypto
  import opened Participants
  import opened Sessions
  import opened SessionSteps
  import opened SessionInvariants
  import opened SessionBirths

  /** What the room may do to a session. */
  datatype Event =
    | Deliver(d: Delivery, world: Surroundings)
    | Depart(leaver: Nick, during: Surroundings)
    | StaleMe
    | Suicide

  /** The room stales only sessions that are neither dead nor in session. */
  function Step(su: Suite, s: Sess, e: Event): Sess
    requires WellFormed(s)
  {
    match e
    case Deliver(d, world) => After(s, Handle(su, s, d, world))
    case Depart(leaver, world) => After(s, Shrink(su, s, leaver, world))
    case StaleMe => if s.phase in {InSession, Dead} then s else s.(phase := Stale)
    case Suicide => s.(phase := Dead)
  }

  /** Without a message only the list of leavers and the state change, and the state only to an end. */
  lemma AsideStep(su: Suite, s: Sess, e: Event)
    requires WellFormed(s) && !e.Deliver?
    ensures var t := Step(su, s, e);
            && t == s.(zombies := t.zombies, phase := t.phase) && s.zombies.Keys <= t.zombies.Keys
            && Consistent(t.zombies)
            && (t.phase == s.phase || (t.phase in {Stale, Dead} && Rank(s.phase) <= Rank(t.phase)))
  {
    hide Handle, Shrink;
    if e.Depart? {
      ShrinkAfter(su, s, e.leaver, e.during);
    }
  }

  lemma StepKeeps(su: Suite, s: Sess, heard: seq<Delivery>, e: Event)
    requires Invariant(su, s, heard)
    ensures WellFormed(s)
    ensures var t := Step(su, s, e);
            Evolves(s, t) && Invariant(su, t, if e.Deliver? then heard + [e.d] else heard)
  {
    InvariantWellFormed(su, s, heard);
    if e.Deliver? {
      HandleKeeps(su, s, heard, e.d, e.world);
      assert Step(su, s, e) == After(s, Handle(su, s, e.d, e.world));
    } else {
      AsideStep(su, s, e);
      hide *;
      AsideKeeps(su, s, Step(su, s, e), heard);
    }
  }

  /** The session after the first events, and the messages it was given. */
  ghost function Run(su: Suite, s: Sess, heard: seq<Delivery>, events: seq<Event>): (r: (Sess, seq<Delivery>))
    requires Invariant(su, s, heard)
    ensures Invariant(su, r.0, r.1) && Evolves(s, r.0)
    decreases |events|
  {
    hide Invariant, Evolves, Step;
    EvolvesReflexive(s);
    if events == [] then (s, heard)
    else
      StepKeeps(su, s, heard, events[0]);
      var t := Step(su, s, events[0]);
      var all := if events[0].Deliver? then heard + [events[0].d] else heard;
      var r := Run(su, t, all, events[1..]);
      EvolvesTransitive(s, t, r.0);
      r
  }

  /** In session after any run: every member authenticated, contributed, and heard confirming the very key this
      session made of the shares it holds; and the next key on file is one the member announced. */
  lemma InSessionMeansConfirmed(su: Suite, s: Sess, heard: seq<Delivery>, events: seq<Event>, k: Nick)
    requires Invariant(su, s, heard)
    requires var (t, _) := Run(su, s, heard, events); t.phase == InSession && k in t.roster
    ensures var (t, all) := Run(su, s, heard, events);
            && WellFormed(t) && t.key == SessionKey(su, t)
            && t.roster[k].authenticated && t.roster[k].contributed
            && (exists i :: 0 <= i < |all| && Confirms(su, t, all[i], k))
            && (exists i :: 0 <= i < |all| && Announces(t, all[i], k))
  {
    hide Run, SessionKey, Voiced;
    var (t, all) := Run(su, s, heard, events);
    assert Invariant(su, t, all);
    assert t.confirmed[IndexIn(t, k)];
    assert Backed(su, t, all, k);
  }

  // ---------- the joiner ----------

  /** A view from the member with a token the owner accepts. */
  ghost predicate Vouches(su: Suite, s: Sess, d: Delivery, k: Nick) {
    FromMember(s, d) && d.sender == k && IsInfo(d)
    && Accepts(su, s.me, s.ephemeral, s.roster[k], d.packet.content.token)
  }

  /** A view from the member with the very token that whoever holds its keys makes for the owner. */
  ghost predicate Proven(su: Suite, s: Sess, d: Delivery, k: Nick) {
    && FromMember(s, d) && d.sender == k && IsInfo(d)
    && forall owner: Participant :: owner.id == s.me && owner.ephemeral == s.ephemeral ==>
         d.packet.content.token == TokenFor(su, s.roster[k].id, s.roster[k].ephemeral, owner)
  }

  /** Between members with different long-term keys that is the same. */
  lemma VouchesIff(su: Suite, s: Sess, d: Delivery, k: Nick)
    requires k in s.roster && s.roster[k].id.fingerprint != s.me.fingerprint
    ensures Vouches(su, s, d, k) <==> Proven(su, s, d, k)
  {
    hide Accepts, TokenFor;
    forall owner: Participant | owner.id == s.me && owner.ephemeral == s.ephemeral
      ensures forall token: Block ::
        Accepts(su, s.me, s.ephemeral, s.roster[k], token) <==>
        token == TokenFor(su, s.roster[k].id, s.roster[k].ephemeral, owner)
    {
      TokenAccepted(su, s.roster[k].id, s.roster[k].ephemeral, s.me, s.ephemeral, owner, s.roster[k]);
    }
    var me := FromUnauthenticated(UnauthenticatedParticipant(s.me, s.ephemeral, false));
    assert me.id == s.me && me.ephemeral == s.ephemeral;
  }

  /** Every share counted but one's own came from a member who proved its identity in this session. */
  ghost predicate Genuine(su: Suite, s: Sess, heard: seq<Delivery>) {
    && s.phase != ReShared
    && (forall k :: k in s.roster && k != s.me.nickname && s.roster[k].contributed ==>
          s.roster[k].authenticated && exists i :: 0 <= i < |heard| && Vouches(su, s, heard[i], k))
  }

  lemma VouchesStill(su: Suite, s: Sess, t: Sess, heard: seq<Delivery>, more: seq<Delivery>, k: Nick)
    requires Evolves(s, t) && k in s.roster && exists i :: 0 <= i < |heard| && Vouches(su, s, heard[i], k)
    ensures exists i :: 0 <= i < |heard + more| && Vouches(su, t, (heard + more)[i], k)
  {
    hide PairKey;
    var i :| 0 <= i < |heard| && Vouches(su, s, heard[i], k);
    assert SameMember(s.roster[k], t.roster[k]);
    assert Vouches(su, t, (heard + more)[i], k);
  }

  /** Where no share is taken, no member's standing changes. */
  lemma NoShareTaken(su: Suite, s: Sess, d: Delivery, world: Surroundings, m: Move)
    requires WellFormed(s) && Legal(su, s, d, m) && !m.Take? && s.phase != ReShared
    ensures var t := Apply(su, s, d, world, m);
            && t.phase != ReShared && t.roster.Keys == s.roster.Keys && t.me == s.me
            && forall k :: k in s.roster ==>
                 t.roster[k].contributed == s.roster[k].contributed
                 && t.roster[k].authenticated == s.roster[k].authenticated
  {
    hide ConfirmationOf, IndexIn, EverybodyConfirmed, MarkConfirmed, WellFormed;
    if m == Mark {
      MarkFacts(su, s, d);
    }
  }

  lemma ShareTaken(su: Suite, s: Sess, d: Delivery, world: Surroundings, m: Move)
    requires WellFormed(s) && Legal(su, s, d, m) && m.Take? && s.phase == JoinRequested
    ensures IsInfo(d) && Vouches(su, s, d, d.sender)
    ensures var t := Apply(su, s, d, world, m);
            && t.phase != ReShared && t.me == s.me && t.roster.Keys == s.roster.Keys && t.roster[d.sender].authenticated
            && forall k :: k in s.roster && k != d.sender ==> t.roster[k] == s.roster[k]
  {
    hide SessionKey, ConfirmationOf, Ready, Accepts, MyIndex;
  }

  lemma GenuineMove(su: Suite, s: Sess, heard: seq<Delivery>, d: Delivery, world: Surroundings, m: Move)
    requires Invariant(su, s, heard) && Legal(su, s, d, m) && Genuine(su, s, heard)
    ensures Genuine(su, Apply(su, s, d, world, m), heard + [d])
  {
    hide Invariant, Legal, Apply, Vouches, Evolves, WellFormed;
    MoveKeeps(su, s, heard, d, world, m);
    InvariantWellFormed(su, s, heard);
    var t := Apply(su, s, d, world, m);
    if m.Take? {
      TakePhase(su, s, d, m);
      ShareTaken(su, s, d, world, m);
    } else {
      NoShareTaken(su, s, d, world, m);
    }
    forall k | k in t.roster && k != t.me.nickname && t.roster[k].contributed
      ensures t.roster[k].authenticated
      ensures exists i :: 0 <= i < |heard + [d]| && Vouches(su, t, (heard + [d])[i], k)
    {
      if m.Take? && k == d.sender {
        VouchesNow(su, s, t, heard, d);
      } else {
        VouchesStill(su, s, t, heard, [d], k);
      }
    }
  }

  lemma VouchesNow(su: Suite, s: Sess, t: Sess, heard: seq<Delivery>, d: Delivery)
    requires Evolves(s, t) && Vouches(su, s, d, d.sender)
    ensures exists i :: 0 <= i < |heard + [d]| && Vouches(su, t, (heard + [d])[i], d.sender)
  {
    hide PairKey;
    assert SameMember(s.roster[d.sender], t.roster[d.sender]);
    assert Vouches(su, t, (heard + [d])[|heard|], d.sender);
  }

  lemma GenuineStep(su: Suite, s: Sess, heard: seq<Delivery>, e: Event)
    requires Invariant(su, s, heard) && Genuine(su, s, heard)
    ensures WellFormed(s) && Genuine(su, Step(su, s, e), if e.Deliver? then heard + [e.d] else heard)
  {
    InvariantWellFormed(su, s, heard);
    if e.Deliver? {
      hide Genuine, Legal, Apply, Handle, Invariant;
      var m := HandleMoves(su, s, e.d, e.world);
      GenuineMove(su, s, heard, e.d, e.world, m);
    } else {
      hide Step, Genuine, Invariant;
      AsideStep(su, s, e);
      AsideGenuine(su, s, Step(su, s, e), heard);
    }
  }

  lemma AsideGenuine(su: Suite, s: Sess, t: Sess, heard: seq<Delivery>)
    requires Genuine(su, s, heard) && t == s.(zombies := t.zombies, phase := t.phase)
    requires t.phase == s.phase || t.phase in {Stale, Dead}
    ensures Genuine(su, t, heard)
  {
    hide Accepts;
    forall k | k in t.roster && k != t.me.nickname && t.roster[k].contributed
      ensures exists i :: 0 <= i < |heard| && Vouches(su, t, heard[i], k)
    {
      var i :| 0 <= i < |heard| && Vouches(su, s, heard[i], k);
      assert Vouches(su, t, heard[i], k);
    }
  }

  /** The joiner's session as the constructor fills it: whatever the view claims, nobody has contributed. */
  function JoinSeed(me: ParticipantId, ephemeral: Block, view: seq<UnauthenticatedParticipant>): (s: Sess)
    requires me.nickname in ListToMap(view)
    ensures WellFormed(s)
  {
    ListToMapKeys(view);
    Populate(me, ephemeral, ListToMap(view), map[], JoinRequested)
  }

  lemma JoinSeedFacts(me: ParticipantId, ephemeral: Block, view: seq<UnauthenticatedParticipant>)
    requires me.nickname in ListToMap(view)
    ensures var s := JoinSeed(me, ephemeral, view);
            && Silent(s) && s.me == me && s.ephemeral == ephemeral && s.phase == JoinRequested && s.zombies == map[]
            && s.parental == map[] && s.sid == IdentityOf(ListToMap(view)) && IdentityOf(s.roster) == s.sid
            && forall k :: k in s.roster ==> !s.roster[k].contributed
  {
    hide ListToMap, Populate, Silent, IdentityOf, Named;
    ListToMapKeys(view);
    PopulateFacts(me, ephemeral, ListToMap(view), map[], JoinRequested);
  }

  lemma JoinerSendsFacts(su: Suite, s: Sess)
    requires WellFormed(s)
    ensures Spoke(s, JoinerSends(su, s))
  {
    hide WithOwnShare, BatchTable, Spoke, WellFormed;
    var shared := WithOwnShare(su, s);
    SpeakFacts(su, s, JoinerAuth(BatchTable(su, shared, |s.roster|), shared.roster[s.me.nickname].share));
  }

  lemma JoinIsMove(su: Suite, me: ParticipantId, ephemeral: Block, d: Delivery, world: Surroundings)
    requires IsInfo(d) && Join(su, me, ephemeral, d, world).Born?
    ensures me.nickname in ListToMap(d.packet.content.view)
    ensures var s := JoinSeed(me, ephemeral, d.packet.content.view);
            && FromMember(s, d)
            && AuthAndReshare(su, JoinerSends(su, s), d, world).Done?
            && Join(su, me, ephemeral, d, world).child == AuthAndReshare(su, JoinerSends(su, s), d, world).sess
  {
    hide AuthAndReshare, JoinerSends, Populate, ListToMap, Named, WellFormed;
    ListToMapKeys(d.packet.content.view);
  }

  lemma SenderKeyKept(s: Sess, t: Sess, d: Delivery)
    requires Evolves(s, t) && FromMember(s, d)
    ensures FromMember(t, d)
  {
    assert SameMember(s.roster[d.sender], t.roster[d.sender]);
  }

  lemma SpokeEvolves(s: Sess, t: Sess)
    requires Spoke(s, t)
    ensures WellFormed(t) && Evolves(s, t) && t.phase == s.phase && (Silent(s) ==> Silent(t)) && t.me == s.me
    ensures OwnShareAdded(s.roster, t.roster, s.me.nickname) && t.zombies == s.zombies
  {}

  /** A joiner's session starts with the invariant, and with no share it has not authenticated. */
  lemma JoinFacts(su: Suite, me: ParticipantId, ephemeral: Block, d: Delivery, world: Surroundings)
    requires IsInfo(d) && Join(su, me, ephemeral, d, world).Born?
    ensures me.nickname in ListToMap(d.packet.content.view)
    ensures var child := Join(su, me, ephemeral, d, world).child;
            && Invariant(su, child, [d]) && Genuine(su, child, [d])
            && Evolves(JoinSeed(me, ephemeral, d.packet.content.view), child)
  {
    hide Populate, JoinSeed, JoinerSends, AuthAndReshare, Spoke, Silent, Join, Evolves, Apply, Legal, Invariant,
      Vouches, WellFormed, ListToMap;
    JoinIsMove(su, me, ephemeral, d, world);
    var seed := JoinSeed(me, ephemeral, d.packet.content.view);
    JoinSeedFacts(me, ephemeral, d.packet.content.view);
    JoinerSendsFacts(su, seed);
    var s := JoinerSends(su, seed);
    SpokeEvolves(seed, s);
    SenderKeyKept(seed, s, d);
    hide FromMember;
    SilentInvariant(su, s);
    assert Genuine(su, s, []);
    hide Genuine;
    var m := AuthAndReshareMoves(su, s, d, world);
    MoveKeeps(su, s, [], d, world, m);
    GenuineMove(su, s, [], d, world, m);
    EvolvesTransitive(seed, s, Apply(su, s, d, world, m));
    assert [] + [d] == [d];
  }

  lemma {:induction false} GenuineRun(su: Suite, s: Sess, heard: seq<Delivery>, events: seq<Event>)
    requires Invariant(su, s, heard) && Genuine(su, s, heard)
    ensures var (t, all) := Run(su, s, heard, events); Genuine(su, t, all)
    decreases |events|
  {
    hide Invariant, Genuine, Step, Evolves;
    if events != [] {
      StepKeeps(su, s, heard, events[0]);
      GenuineStep(su, s, heard, events[0]);
      var all := if events[0].Deliver? then heard + [events[0].d] else heard;
      GenuineRun(su, Step(su, s, events[0]), all, events[1..]);
    }
  }

  /** Joiner never counts an unauthenticated share: in every state a joiner's session can reach, a peer with a
      counted share has sent a view whose token the joiner accepted, whatever flags the first view claimed; if the
      two have different long-term keys, that is the token a holder of the peer's keys makes for the joiner. */
  lemma JoinerCountsOnlyVouchedShares(su: Suite, me: ParticipantId, ephemeral: Block, d: Delivery, world: Surroundings,
                                      events: seq<Event>, k: Nick)
    requires IsInfo(d) && Join(su, me, ephemeral, d, world).Born?
    ensures Invariant(su, Join(su, me, ephemeral, d, world).child, [d])
    ensures var (t, all) := Run(su, Join(su, me, ephemeral, d, world).child, [d], events);
            k in t.roster && k != me.nickname && t.roster[k].contributed ==>
              && t.roster[k].authenticated && (exists i :: 0 <= i < |all| && Vouches(su, t, all[i], k))
              && (t.roster[k].id.fingerprint != t.me.fingerprint ==>
                    exists i :: 0 <= i < |all| && Proven(su, t, all[i], k))
  {
    JoinFacts(su, me, ephemeral, d, world);
    var child := Join(su, me, ephemeral, d, world).child;
    var seed := JoinSeed(me, ephemeral, d.packet.content.view);
    hide Invariant, Join, Run, Evolves, Vouches, Proven;
    JoinSeedFacts(me, ephemeral, d.packet.content.view);
    EvolvesSameOwner(seed, child);
    GenuineRun(su, child, [d], events);
    var (t, all) := Run(su, child, [d], events);
    EvolvesSameOwner(child, t);
    if k in t.roster && k != me.nickname && t.roster[k].contributed
       && t.roster[k].id.fingerprint != t.me.fingerprint {
      var i :| 0 <= i < |all| && Vouches(su, t, all[i], k);
      VouchesIff(su, t, all[i], k);
    }
  }
}
