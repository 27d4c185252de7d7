/** Whole runs of a room. */
module RoomRuns {
  import opened Bytes
  import opened Crypto
  import opened Participants
  import opened Sessions
  import opened SessionSteps
  import opened SessionInvariants
  import opened SessionBirths
  import opened SessionRuns
  import opened SessionActions
  import opened Rooms
  import opened RoomInvariants
  import opened RoomActivation

  /** The order in which the room visits its sessions. */
  ghost predicate Enumerates(order: Ordering) {
    && (forall ids: set<Identity>, k :: k in order(ids) <==> k in ids)
    && (forall ids: set<Identity>, i, j :: 0 <= i < j < |order(ids)| ==> order(ids)[i] != order(ids)[j])
  }

  // ---------- every session stays fit ----------

  lemma ActFit(r: RoomState, action: Action, t: Sess)
    requires FitAll(r.universe)
    requires action.NewSession? ==> Bred(action.child)
    requires action.NewPrioritySession? ==> Bred(action.heir)
    ensures FitAll(Act(r, action, t).universe)
  {
    hide Fit, Staled;
    forall s: Sess, heir | Fit(s) ensures Fit(Staled(s, heir)) {
      StaledFits(s, heir);
    }
  }

  lemma DispatchedFit(r: RoomState, k: Identity, outcome: Outcome)
    requires FitAll(r.universe) && k in r.universe && Fit(After(r.universe[k], outcome))
    requires outcome.Done? && outcome.action.NewSession? ==> Bred(outcome.action.child)
    requires outcome.Done? && outcome.action.NewPrioritySession? ==> Bred(outcome.action.heir)
    ensures Dispatched(r, k, outcome).Settled? ==> FitAll(Dispatched(r, k, outcome).room.universe)
  {
    hide Fit, Act;
    if outcome.Done? {
      ActFit(Put(r, k, outcome.sess), outcome.action, outcome.sess);
    }
  }

  lemma HandleCurrentFit(su: Suite, r: RoomState, d: Delivery, world: Surroundings)
    requires FitAll(r.universe)
    ensures var v := HandleCurrent(su, r, d, world); v.Settled? ==> FitAll(v.room.universe)
  {
    hide Fit, Handle, InitWithPlist, Dispatched, WellFormed, ListToMap, FutureRoster, PlistConsidered;
    if d.packet.Signed? && d.packet.sid in r.universe {
      HandleStaysFit(su, r.universe[d.packet.sid], d, world);
      DispatchedFit(r, d.packet.sid, Handle(su, r.universe[d.packet.sid], d, world));
    } else if r.next.Some? && r.next.value in r.universe {
      var heir := r.universe[r.next.value];
      HandleStaysFit(su, heir, d, world);
      if !d.packet.Signed? {
        DispatchedFit(r, r.next.value, Handle(su, heir, d, world));
      } else if IsInfo(d) {
        PlistPhases(su, heir, d, world);
        DispatchedFit(r, r.next.value, InitWithPlist(su, heir, d, world));
      }
    }
  }

  lemma JoinFit(su: Suite, me: ParticipantId, key: Block, d: Delivery, world: Surroundings)
    requires IsInfo(d) && Join(su, me, key, d, world).Born?
    ensures Fit(Join(su, me, key, d, world).child)
  {
    hide Join, JoinSeed, Evolves, Genuine, WellFormed, ListToMap, Silent, IdentityOf;
    JoinFacts(su, me, key, d, world);
    var seed, child := JoinSeed(me, key, d.packet.content.view), Join(su, me, key, d, world).child;
    JoinSeedFacts(me, key, d.packet.content.view);
    InvariantWellFormed(su, child, [d]);
    hide Invariant;
    EvolvesFit(seed, child);
  }

  lemma HandleJoiningFit(su: Suite, r: RoomState, d: Delivery, world: Surroundings)
    requires FitAll(r.universe)
    ensures var v := HandleJoining(su, r, d, world); v.Settled? ==> FitAll(v.room.universe)
  {
    hide Fit, Handle, WellFormed, Join, HandleFits;
    if d.packet.Signed? {
      if d.packet.sid in r.universe && r.universe[d.packet.sid].phase != Dead {
        HandleStaysFit(su, r.universe[d.packet.sid], d, world);
      } else if IsInfo(d) {
        if Join(su, r.me, r.key, d, world).Born? {
          JoinFit(su, r.me, r.key, d, world);
        }
      } else {
        EndedFit(r, d.packet.sid);
      }
    }
  }

  lemma EndedFit(r: RoomState, parent: Identity)
    requires FitAll(r.universe)
    ensures FitAll(Orphaned(r.universe)) && FitAll(AllKilled(r).universe)
    ensures forall bred: Universe :: FitAll(bred) ==> FitAll(bred + Survivors(r.universe, parent))
    ensures forall k :: k in r.universe ==> FitAll(Put(r, k, Killed(r.universe[k])).universe)
  {
    hide Fit, NobodyConfirmed, Killed, InLimbo;
    forall k | k in r.universe ensures Fit(Killed(r.universe[k])) {
      KilledFits(r.universe[k]);
    }
  }

  lemma RefreshedFit(su: Suite, r: RoomState, parent: Identity, ids: seq<Identity>, world: Surroundings)
    requires Listed(r, parent, ids)
    ensures Refreshed(su, r, parent, ids, world).Some? ==> FitAll(Refreshed(su, r, parent, ids, world).value)
  {
    hide Fit, WellFormed, InLimbo, Refreshed, Crowded, Reparented, FutureRoster, IdentityOf;
    RefreshedFacts(su, r, parent, ids, world);
  }

  lemma ActivateFit(su: Suite, r: RoomState, sid: Identity, order: seq<Identity>, world: Surroundings)
    requires FitAll(r.universe) && Orders(order, r.universe)
    ensures var v := Activate(su, r, sid, order, world); v.Settled? ==> FitAll(v.room.universe)
  {
    hide FitAll, Refreshed, Survivors, WellFormed, Killed, Listed;
    EndedFit(r, sid);
    FitMeansWellFormed(r.universe);
    if r.active.Some? && sid in r.universe {
      ListedAll(r, sid, order);
      RefreshedFit(su, r, sid, order, world);
      var bred := Refreshed(su, r, sid, order, world);
      if bred.Some? {
        EndedFit(r.(universe := bred.value + Survivors(r.universe, sid)), sid);
      }
    }
  }

  // ---------- receive_handler ----------

  ghost function Received(su: Suite, r: RoomState, d: Delivery, world: Surroundings): (v: Verdict)
    requires FitAll(r.universe)
    ensures v.Settled? ==> FitAll(v.room.universe)
  {
    HandleJoiningFit(su, r, d, world);
    HandleCurrentFit(su, r, d, world);
    hide HandleJoining, HandleCurrent, FitAll;
    if r.joining then HandleJoining(su, r, d, world) else HandleCurrent(su, r, d, world)
  }

  /** `receive_handler`. */
  ghost function Receive(su: Suite, r: RoomState, d: Delivery, order: Ordering,
                         world: Surroundings): (v: Verdict)
    requires FitAll(r.universe) && Enumerates(order)
    ensures v.Settled? ==> FitAll(v.room.universe)
  {
    hide FitAll, Received, Activate, Enumerates, Orders;
    var v := Received(su, r, d, world);
    if v.Settled? && Confirmed(v.room, d) then
      EnumeratesOrders(order, v.room.universe);
      ActivateFit(su, v.room, d.packet.sid, order(v.room.universe.Keys), world);
      Activate(su, v.room, d.packet.sid, order(v.room.universe.Keys), world)
    else v
  }

  /** The confirmation that was still missing: the heir holds a key, the message is a member's right confirmation of
      it, and everybody else is confirmed. */
  ghost predicate Completes(su: Suite, heir: Sess, d: Delivery) {
    && WellFormed(heir) && heir.phase == GroupKeyGenerated && FromMember(heir, d) && IsConfirmation(d.packet)
    && d.packet.content.confirmation == ConfirmationOf(su, heir.key, d.sender)
    && forall l :: l in heir.roster && l != d.sender ==> heir.confirmed[IndexIn(heir, l)]
  }

  /** A message stops the room exactly when it is a fatal view, or when it is the confirmation that was still missing
      to the heir of a room in which some session in limbo cannot be re-parented one member at a time. */
  ghost predicate Stops(su: Suite, r: RoomState, d: Delivery)
    requires Governed(r)
  {
    GovernedChair(r);
    || FatalView(r, d)
    || (d.packet.Signed? && d.packet.sid == r.next.value && Completes(su, r.universe[r.next.value], d)
        && Overcrowded(r, r.next.value))
  }

  lemma CompletesIff(su: Suite, s: Sess, d: Delivery)
    requires WellFormed(s) && s.phase == GroupKeyGenerated && FromMember(s, d) && IsConfirmation(d.packet)
    ensures d.packet.content.confirmation == ConfirmationOf(su, s.key, d.sender) ==>
      (MarkConfirmed(su, s, d).phase == InSession <==> Completes(su, s, d))
    ensures d.packet.content.confirmation != ConfirmationOf(su, s.key, d.sender) ==>
      MarkConfirmed(su, s, d).phase == GroupKeyGenerated
  {
    hide ConfirmationOf, Sorted;
    MarkShape(su, s, d);
    var t := MarkConfirmed(su, s, d);
    if d.packet.content.confirmation == ConfirmationOf(su, s.key, d.sender) {
      var j := IndexIn(s, d.sender);
      if EverybodyConfirmed(t) {
        forall l | l in s.roster && l != d.sender ensures s.confirmed[IndexIn(s, l)] {
          IndexDistinct(s, l, d.sender);
          assert t.confirmed[IndexIn(s, l)];
        }
      } else if Completes(su, s, d) {
        forall i | 0 <= i < |t.confirmed| ensures t.confirmed[i] {
          IndexNames(s, i);
        }
      }
    }
  }

  /** A session gets into session exactly by the confirmation that was still missing. */
  lemma GetsInSessionIff(su: Suite, s: Sess, d: Delivery, world: Surroundings)
    requires WellFormed(s) && s.phase != InSession
    ensures After(s, Handle(su, s, d, world)).phase == InSession <==> Completes(su, s, d)
    ensures Completes(su, s, d) ==> Handle(su, s, d, world) == Done(MarkConfirmed(su, s, d), NoAction)
  {
    var m := HandleMoves(su, s, d, world);
    hide Handle, ConfirmationOf, WellFormed, SessionKey, Ready, IndexIn, MyIndex, Accepts, MarkConfirmed;
    if s.phase == GroupKeyGenerated && FromMember(s, d) && IsConfirmation(d.packet) {
      MarkHandled(su, s, d, world);
      CompletesIff(su, s, d);
    } else {
      hide Completes;
      NotMarked(su, s, d, world, m);
    }
  }

  lemma NotMarked(su: Suite, s: Sess, d: Delivery, world: Surroundings, m: Move)
    requires WellFormed(s) && Legal(su, s, d, m) && s.phase != InSession
    requires !(s.phase == GroupKeyGenerated && FromMember(s, d) && IsConfirmation(d.packet))
    ensures Apply(su, s, d, world, m).phase != InSession && !Completes(su, s, d)
  {
    hide ConfirmationOf, WellFormed, SessionKey, Ready, IndexIn, MyIndex, Accepts, MarkConfirmed;
  }

  /** Whether a session in limbo crowds a parent depends on who the parent's live members are, not on their keys. */
  lemma CrowdedAlike(me: ParticipantId, s: Sess, p: Sess, q: Sess)
    requires Evolves(p, q) && p.zombies == q.zombies
    ensures Crowded(me, s, p) <==> Crowded(me, s, q)
  {
    FutureAlike(p, q);
    hide FutureRoster, Evolves;
    var a, b := Minus(Delta(s), FutureRoster(p)), Minus(Delta(s), FutureRoster(q));
    assert a.Keys == b.Keys by {
      hide Delta, Minus;
      forall k ensures k in a <==> k in b {}
    }
    SameSize(a, b);
  }

  lemma FutureAlike(p: Sess, q: Sess)
    requires Evolves(p, q) && p.zombies == q.zombies
    ensures FutureRoster(p).Keys == FutureRoster(q).Keys
    ensures forall k :: k in FutureRoster(p) ==>
      FutureRoster(p)[k].id.fingerprint == FutureRoster(q)[k].id.fingerprint
  {
    forall k | k in p.roster ensures q.roster[k].id == p.roster[k].id {
      assert SameMember(p.roster[k], q.roster[k]);
    }
    var a, b := Minus(p.roster, p.zombies), Minus(q.roster, q.zombies);
    assert forall k :: k in a <==> k in b;
    assert FutureRoster(p).Keys == a.Keys && FutureRoster(q).Keys == b.Keys;
  }

  /** So it makes no difference whether the room is looked at before or after the heir's last confirmation. */
  lemma OvercrowdedAlike(r: RoomState, k: Identity, t: Sess)
    requires k in r.universe && r.universe[k].sid == k && t.sid == k
    requires Evolves(r.universe[k], t) && r.universe[k].zombies == t.zombies
    ensures k in Put(r, k, t).universe && (Overcrowded(Put(r, k, t), k) <==> Overcrowded(r, k))
  {
    hide Crowded, Evolves;
    var after := Put(r, k, t);
    forall l | l in r.universe
      ensures InLimbo(after.universe[l], k) && Crowded(r.me, after.universe[l], t)
         <==> InLimbo(r.universe[l], k) && Crowded(r.me, r.universe[l], r.universe[k])
    {
      CrowdedAlike(r.me, r.universe[l], r.universe[k], t);
    }
  }

  lemma MarkZombies(su: Suite, s: Sess, d: Delivery)
    requires WellFormed(s) && d.packet.Signed? && d.packet.content.SessionConfirmation? && d.sender in s.roster
    ensures MarkConfirmed(su, s, d).zombies == s.zombies
  {
    hide ConfirmationOf, IndexIn;
  }

  /** On the room before the message: exactly when it brings the heir into session, and what that leaves. */
  lemma HeirConfirmedIff(su: Suite, r: RoomState, d: Delivery, world: Surroundings)
    requires Governed(r)
    ensures FitAll(r.universe) && r.next.Some? && r.next.value in r.universe
      && r.universe[r.next.value].sid == r.next.value
    ensures var (v, k) := (HandleCurrent(su, r, d, world), r.next.value);
      && (v.Settled? && Confirmed(v.room, d) <==>
            d.packet.Signed? && d.packet.sid == k && Completes(su, r.universe[k], d))
      && (v.Settled? && Confirmed(v.room, d) ==>
            v.room == Put(r, k, MarkConfirmed(su, r.universe[k], d)))
  {
    GovernedFits(r);
    GovernedChair(r);
    SeatedPhase(r, r.next.value);
    FitMeansWellFormed(r.universe);
    HandleCurrentKeeps(su, r, d, world);
    hide Governed, GovernedBut, Fit, FitAll, WellFormed, Handle, InitWithPlist, FatalView, MarkConfirmed, Completes;
    if d.packet.Signed? && d.packet.sid in r.universe {
      OwnSessionConfirmed(su, r, d, world);
    } else if d.packet.Signed? {
      StrangersNeverConfirm(su, r, d, world);
    }
  }

  lemma OwnSessionConfirmed(su: Suite, r: RoomState, d: Delivery, world: Surroundings)
    requires Governed(r) && d.packet.Signed? && d.packet.sid in r.universe
    ensures FitAll(r.universe) && r.next.Some? && r.next.value in r.universe && WellFormed(r.universe[r.next.value])
    ensures var (v, k) := (HandleCurrent(su, r, d, world), r.next.value);
      && (v.Settled? && Confirmed(v.room, d) <==> d.packet.sid == k && Completes(su, r.universe[k], d))
      && (v.Settled? && Confirmed(v.room, d) ==>
            v.room == Put(r, k, MarkConfirmed(su, r.universe[k], d)))
  {
    hide Governed, Fit, FitAll, WellFormed, Handle, MarkConfirmed, HandleFits, Completes, HandleCurrent, Dispatched,
      Put;
    GovernedFits(r);
    GovernedChair(r);
    FitMeansWellFormed(r.universe);
    OwnDispatched(su, r, d, world);
    var k := d.packet.sid;
    var s := r.universe[k];
    SeatedPhase(r, k);
    HandleStaysFit(su, s, d, world);
    CompletesPhase(su, s, d);
    if s.phase != InSession {
      GetsInSessionIff(su, s, d, world);
      DispatchedPhase(r, k, Handle(su, s, d, world));
      if Completes(su, s, d) {
        DispatchedNothing(r, k, MarkConfirmed(su, s, d));
      }
    } else {
      DispatchedActive(r, k, Handle(su, s, d, world));
    }
  }

  lemma OwnDispatched(su: Suite, r: RoomState, d: Delivery, world: Surroundings)
    requires FitAll(r.universe) && d.packet.Signed? && d.packet.sid in r.universe
    requires r.active.Some? && r.active.value in r.universe
    ensures WellFormed(r.universe[d.packet.sid])
    ensures HandleCurrent(su, r, d, world)
         == Dispatched(r, d.packet.sid, Handle(su, r.universe[d.packet.sid], d, world))
  {
    hide FitAll, WellFormed, Handle, Dispatched;
    FitMeansWellFormed(r.universe);
  }

  lemma DispatchedNothing(r: RoomState, k: Identity, t: Sess)
    ensures Dispatched(r, k, Done(t, NoAction)) == Settled(Put(r, k, t))
  {}

  lemma DispatchedActive(r: RoomState, k: Identity, outcome: Outcome)
    requires k in r.universe && HandleFits(r.universe[k], outcome)
    ensures Dispatched(r, k, outcome).Settled? && Dispatched(r, k, outcome).room.active == r.active
  {
    hide Bred, Fit;
  }

  lemma CompletesPhase(su: Suite, s: Sess, d: Delivery)
    ensures Completes(su, s, d) ==>
      && WellFormed(s) && s.phase == GroupKeyGenerated && FromMember(s, d) && IsConfirmation(d.packet)
  {
    hide ConfirmationOf, WellFormed;
  }

  /** Acting on what a session did raises no session into session but, perhaps, that one. */
  lemma DispatchedPhase(r: RoomState, k: Identity, outcome: Outcome)
    requires k in r.universe && r.universe[k].phase != InSession && HandleFits(r.universe[k], outcome)
    ensures var v := Dispatched(r, k, outcome);
      && v.Settled? && k in v.room.universe && v.room.active == r.active
      && (v.room.universe[k].phase == InSession <==> After(r.universe[k], outcome).phase == InSession)
  {
    hide Bred, Fit;
  }

  lemma StrangersNeverConfirm(su: Suite, r: RoomState, d: Delivery, world: Surroundings)
    requires Governed(r) && d.packet.Signed? && d.packet.sid !in r.universe && FitAll(r.universe)
    ensures var v := HandleCurrent(su, r, d, world); !(v.Settled? && Confirmed(v.room, d))
    ensures r.next.Some? && d.packet.sid != r.next.value
  {
    hide Governed, Fit, FitAll, HandleCurrent, FatalView, GovernedBut;
    GovernedChair(r);
    HandleCurrentKeeps(su, r, d, world);
    StrangerNext(su, r, d, world);
    SeatedPhase(r, r.next.value);
  }

  /** A message for an unknown session leaves the heir the heir. */
  lemma StrangerNext(su: Suite, r: RoomState, d: Delivery, world: Surroundings)
    requires FitAll(r.universe) && d.packet.Signed? && d.packet.sid !in r.universe && r.next.Some?
    ensures var v := HandleCurrent(su, r, d, world); v.Settled? ==> v.room.next == r.next
  {
    hide Fit, InitWithPlist, WellFormed, Bred, ListToMap, FutureRoster, PlistConsidered, Dispatched;
    FitMeansWellFormed(r.universe);
    if r.next.value in r.universe && IsInfo(d) {
      PlistPhases(su, r.universe[r.next.value], d, world);
      NextStays(r, r.next.value, InitWithPlist(su, r.universe[r.next.value], d, world));
    }
  }

  lemma NextStays(r: RoomState, k: Identity, outcome: Outcome)
    requires outcome.Done? ==> outcome.action.NewSession?
    ensures Dispatched(r, k, outcome).Settled? ==> Dispatched(r, k, outcome).room.next == r.next
  {}

  /** The room's invariant over `receive_handler`. None of the room's own assertions fires; the only stop is the
      session code's "one addition at a time", under the exact condition above. */
  lemma ReceiveKeeps(su: Suite, r: RoomState, d: Delivery, order: Ordering, world: Surroundings)
    requires Governed(r) && Enumerates(order)
    ensures FitAll(r.universe)
    ensures var v := Receive(su, r, d, order, world);
      && !v.Escaped? && (v.Halted? <==> Stops(su, r, d)) && (v.Halted? ==> v.halt.InSessionCode?)
      && (v.Settled? ==> Governed(v.room))
  {
    hide HandleCurrent, Governed, GovernedBut, FatalView, Overcrowded, Activate, FitAll, Enumerates, Cleaned,
      Completes, MarkConfirmed, Put;
    GovernedChair(r);
    GovernedFits(r);
    HandleCurrentKeeps(su, r, d, world);
    HeirConfirmedIff(su, r, d, world);
    var handled := HandleCurrent(su, r, d, world);
    if handled.Settled? && Confirmed(handled.room, d) {
      var sid := d.packet.sid;
      var ids := order(handled.room.universe.Keys);
      EnumeratesOrders(order, handled.room.universe);
      ConfirmedCrowns(handled.room, d);
      ActivationCleans(su, handled.room, sid, ids, world);
      SameCrowd(su, r, d);
      if Activate(su, handled.room, sid, ids, world).Settled? {
        CleanedGoverned(handled.room, sid, Activate(su, handled.room, sid, ids, world).room);
      }
    }
  }

  lemma SameCrowd(su: Suite, r: RoomState, d: Delivery)
    requires d.packet.Signed? && d.packet.sid in r.universe && r.universe[d.packet.sid].sid == d.packet.sid
    requires Completes(su, r.universe[d.packet.sid], d)
    ensures WellFormed(r.universe[d.packet.sid])
    ensures var after := Put(r, d.packet.sid, MarkConfirmed(su, r.universe[d.packet.sid], d));
      d.packet.sid in after.universe && (Overcrowded(after, d.packet.sid) <==> Overcrowded(r, d.packet.sid))
  {
    hide ConfirmationOf, MarkConfirmed, Overcrowded, Evolves, IndexIn, Put;
    var s := r.universe[d.packet.sid];
    MarkFacts(su, s, d);
    MarkZombies(su, s, d);
    EvolvesSameOwner(s, MarkConfirmed(su, s, d));
    OvercrowdedAlike(r, d.packet.sid, MarkConfirmed(su, s, d));
  }

  lemma ConfirmedCrowns(r: RoomState, d: Delivery)
    requires Confirmed(r, d) && GovernedBut(r, d.packet.sid) && r.next == Some(d.packet.sid)
    ensures Crowned(r, d.packet.sid)
  {}

  lemma EnumeratesOrders(order: Ordering, u: Universe)
    requires Enumerates(order)
    ensures Orders(order(u.Keys), u) && forall k :: k in order(u.Keys) ==> k in u
  {}

  // ---------- the other entrances ----------

  /** A departure never stops the room. */
  lemma ShrinkKeeps(su: Suite, r: RoomState, leaver: Nick, world: Surroundings)
    requires Governed(r)
    ensures FitAll(r.universe)
    ensures ShrinkRoom(su, r, leaver, world).Settled? && Governed(ShrinkRoom(su, r, leaver, world).room)
  {
    hide Fit, FitAll, Governed, Shrink, Presume, Put, Bred, WellFormed, FutureRoster, IdentityOf;
    GovernedFits(r);
    GovernedChair(r);
    var active := r.active.value;
    var s := r.universe[active];
    SeatedPhase(r, active);
    ShrinkBreeds(su, s, leaver, world);
    ShrinkStaysFit(su, s, leaver, world);
    var outcome := Shrink(su, s, leaver, world);
    var t := After(s, outcome);
    PutKeeps(r, active, t);
    if outcome.Done? && outcome.action.NewPrioritySession? {
      var heir := outcome.action.heir;
      PutActive(r, active, t);
      PutBredKeeps(Put(r, active, t), heir);
      GovernedPresume(Put(Put(r, active, t), heir.sid, heir), heir.sid);
    }
  }

  lemma PutActive(r: RoomState, k: Identity, s: Sess)
    ensures Put(r, k, s).active == r.active
  {}

  lemma ShrinkStaysFit(su: Suite, s: Sess, leaver: Nick, world: Surroundings)
    requires Fit(s)
    ensures WellFormed(s) && Fit(After(s, Shrink(su, s, leaver, world)))
    ensures After(s, Shrink(su, s, leaver, world)).sid == s.sid
  {
    hide Shrink, Evolves;
    ShrinkAfter(su, s, leaver, world);
    var t := After(s, Shrink(su, s, leaver, world));
    AsideEvolves(s, t);
    EvolvesFit(s, t);
  }

  /** Inserting a newborn session keeps the room governed exactly when its id is not the active session's: the
      freshness the room takes for granted. */
  lemma InsertKeepsIff(r: RoomState, s: Sess)
    requires Governed(r) && Bred(s)
    ensures InsertSession(r, s).Settled?
    ensures Governed(InsertSession(r, s).room) <==> r.active != Some(s.sid)
  {
    hide Fit;
    if r.active != Some(s.sid) {
      PutBredKeeps(r, s);
    }
  }

  /** Somebody has left the session, or somebody has announced a key other than the one it has. */
  ghost predicate Renewed(s: Sess) {
    || (exists k :: k in s.roster && k in s.zombies && s.zombies[k].id.fingerprint == s.roster[k].id.fingerprint)
    || (exists k :: k in s.roster && s.roster[k].future != s.roster[k].ephemeral)
  }

  /** The successor of a session has another id than the session exactly then. */
  lemma FutureIdentityIff(s: Sess)
    ensures IdentityOf(FutureRoster(s)) != IdentityOf(s.roster) <==> Renewed(s)
  {
    var id, next := IdentityOf(s.roster), IdentityOf(FutureRoster(s));
    if id == next {
      forall k | k in s.roster
        ensures !(k in s.zombies && s.zombies[k].id.fingerprint == s.roster[k].id.fingerprint)
        ensures s.roster[k].future == s.roster[k].ephemeral
      {
        assert k in id.Keys && k in next.Keys && k in Minus(s.roster, s.zombies);
        assert id[k] == next[k];
      }
    }
    if !Renewed(s) {
      forall k | k in s.roster ensures k in FutureRoster(s) && FutureRoster(s)[k].ephemeral == s.roster[k].ephemeral {
        assert k in Minus(s.roster, s.zombies);
      }
      assert id.Keys == next.Keys;
    }
  }

  lemma ResessionShape(su: Suite, r: RoomState, k: Identity, world: Surroundings)
    requires FitAll(r.universe) && k in r.universe
    ensures var (v, s) := (Resession(su, r, k, world), r.universe[k]);
      && (s.future.Some? && s.me.nickname in FutureRoster(s) ==>
            exists child :: Bred(child) && child.sid == IdentityOf(FutureRoster(s)) && v == InsertSession(r, child))
      && (!(s.future.Some? && s.me.nickname in FutureRoster(s)) ==> v == Settled(r))
  {
    var s := r.universe[k];
    FitWellFormed(s);
    FutureRosterConsistent(s);
    PeerNeverFatal(su, s.me, s.future, FutureRoster(s), map[], world);
    PeerBornIff(su, s.me, s.future, FutureRoster(s), world);
    hide Fit, Conceive, FutureRoster, IdentityOf, WellFormed, Bred, InsertSession, FitAll;
    if Conceive(su, Peer, s.me, s.future, FutureRoster(s), map[], None, world).Born? {
      ConceiveBreeds(su, Peer, s.me, s.future, FutureRoster(s), map[], None, world);
    }
  }

  /** The session timer of a session in session keeps the room governed exactly when somebody has left or announced
      a new key, or the session has no next key of its own to breed with. */
  lemma ResessionKeepsIff(su: Suite, r: RoomState, k: Identity, world: Surroundings)
    requires Governed(r) && k in r.universe && r.universe[k].phase == InSession
    ensures FitAll(r.universe)
    ensures var v := Resession(su, r, k, world);
      && v.Settled?
      && (Governed(v.room) <==> Renewed(r.universe[k]) || r.universe[k].future == None)
  {
    hide Fit, FutureRoster, IdentityOf, WellFormed, Bred, InsertSession, Governed, Resession, FitAll, Renewed;
    GovernedFits(r);
    SeatedPhase(r, k);
    var s := r.universe[k];
    FitWellFormed(s);
    ResessionShape(su, r, k, world);
    FutureIdentityIff(s);
    FitIdentity(s);
    if !Renewed(s) {
      StaysFuture(s);
    }
    if s.future.Some? && s.me.nickname in FutureRoster(s) {
      var child :| Bred(child) && child.sid == IdentityOf(FutureRoster(s))
                   && Resession(su, r, k, world) == InsertSession(r, child);
      InsertKeepsIff(r, child);
    }
  }

  lemma FitIdentity(s: Sess)
    requires Fit(s)
    ensures s.sid == IdentityOf(s.roster)
  {}

  lemma StaysFuture(s: Sess)
    requires WellFormed(s) && !Renewed(s)
    ensures s.me.nickname in FutureRoster(s)
  {
    assert s.me.nickname in Minus(s.roster, s.zombies);
  }

  /** The rejoin timer: armed only in sessions that are not in session yet. */
  lemma RejoinKeeps(r: RoomState, k: Identity)
    requires Governed(r) && k in r.universe && r.universe[k].phase != InSession
    ensures Governed(RejoinTimeout(r, k))
  {
    hide Fit, Killed;
    GovernedChair(r);
    SeatedPhase(r, k);
    KilledFits(r.universe[k]);
    var after := RejoinTimeout(r, k);
    forall l | l in after.universe ensures Seated(r.active.value, r.next.value, l, after.universe[l]) {
      SeatedPhase(r, l);
    }
  }

  // ---------- runs ----------

  datatype RoomEvent =
    | Message(d: Delivery, world: Surroundings)
    | Leave(leaver: Nick, during: Surroundings)
    | SessionTimer(ripe: Identity, after: Surroundings)
    | RejoinTimer(waiting: Identity)

  /** What the room's surroundings guarantee: the session timer is set in a session that gets into session and cut
      when it dies, the rejoin timer runs in one that is not in session, and a session timer finds somebody gone or
      some announced key new, if only the owner's own. */
  ghost predicate Timely(r: RoomState, e: RoomEvent) {
    match e
    case SessionTimer(k, _) => k in r.universe && r.universe[k].phase == InSession && Renewed(r.universe[k])
    case RejoinTimer(k) => k in r.universe && r.universe[k].phase != InSession
    case _ => true
  }

  lemma OthersFit(su: Suite, r: RoomState, e: RoomEvent)
    requires FitAll(r.universe)
    ensures e.Leave? ==>
      var v := ShrinkRoom(su, r, e.leaver, e.during); v.Settled? ==> FitAll(v.room.universe)
    ensures e.SessionTimer? && e.ripe in r.universe ==>
      var v := Resession(su, r, e.ripe, e.after); v.Settled? ==> FitAll(v.room.universe)
    ensures e.RejoinTimer? && e.waiting in r.universe ==> FitAll(RejoinTimeout(r, e.waiting).universe)
  {
    hide Fit, Killed, AllKilled, Shrink, WellFormed, Presume, Bred, FutureRoster, IdentityOf, Resession;
    if e.Leave? {
      ShrinkRoomFit(su, r, e.leaver, e.during);
    } else if e.SessionTimer? && e.ripe in r.universe {
      ResessionShape(su, r, e.ripe, e.after);
      hide FutureRoster;
      BredFit();
    } else if e.RejoinTimer? && e.waiting in r.universe {
      EndedFit(r, e.waiting);
      EndedFit(Put(r, e.waiting, Killed(r.universe[e.waiting])), e.waiting);
    }
  }

  lemma BredFit()
    ensures forall s :: Bred(s) ==> Fit(s)
  {}

  lemma ShrinkRoomFit(su: Suite, r: RoomState, leaver: Nick, world: Surroundings)
    requires FitAll(r.universe)
    ensures var v := ShrinkRoom(su, r, leaver, world); v.Settled? ==> FitAll(v.room.universe)
  {
    hide Fit, Shrink, WellFormed, Bred, Act, FutureRoster, IdentityOf, AllKilled;
    FitMeansWellFormed(r.universe);
    EndedFit(r, map[]);
    if !r.joining && r.active.Some? && r.active.value in r.universe {
      var s := r.universe[r.active.value];
      ShrinkStaysFit(su, s, leaver, world);
      ShrinkBreeds(su, s, leaver, world);
      BredFit();
      var outcome := Shrink(su, s, leaver, world);
      if outcome.Done? && outcome.action.NewPrioritySession? {
        var heir := outcome.action.heir;
        PresumeFit(Put(Put(r, r.active.value, outcome.sess), heir.sid, heir), heir.sid);
      }
    }
  }

  lemma PresumeFit(r: RoomState, heir: Identity)
    requires FitAll(r.universe)
    ensures FitAll(Presume(r, heir).universe)
  {
    hide Fit, Staled;
    forall k | k in r.universe ensures Fit(Staled(r.universe[k], heir)) {
      StaledFits(r.universe[k], heir);
    }
  }

  ghost function React(su: Suite, r: RoomState, e: RoomEvent, order: Ordering): (v: Verdict)
    requires FitAll(r.universe) && Enumerates(order) && Timely(r, e)
    ensures v.Settled? ==> FitAll(v.room.universe)
  {
    hide FitAll, Enumerates, Receive, ShrinkRoom, Resession, RejoinTimeout;
    OthersFit(su, r, e);
    match e
    case Message(d, world) => Receive(su, r, d, order, world)
    case Leave(leaver, world) => ShrinkRoom(su, r, leaver, world)
    case SessionTimer(k, world) => Resession(su, r, k, world)
    case RejoinTimer(k) => Settled(RejoinTimeout(r, k))
  }

  /** The events take the room to that verdict, stopping early when one of them does not settle. */
  ghost predicate Runs(su: Suite, r: RoomState, events: seq<RoomEvent>, order: Ordering, v: Verdict)
    requires FitAll(r.universe) && Enumerates(order)
    decreases |events|
  {
    if events == [] then v == Settled(r)
    else
      Timely(r, events[0])
      && var first := React(su, r, events[0], order);
         if first.Settled? then Runs(su, first.room, events[1..], order, v) else v == first
  }

  lemma ReactKeeps(su: Suite, r: RoomState, e: RoomEvent, order: Ordering)
    requires Governed(r) && Enumerates(order) && Timely(r, e)
    ensures FitAll(r.universe)
    ensures var v := React(su, r, e, order);
      !v.Escaped? && (v.Settled? ==> Governed(v.room)) && (v.Halted? ==> e.Message? && v.halt.InSessionCode?)
  {
    hide FitAll, Governed, Receive, ShrinkRoom, Resession, RejoinTimeout, Enumerates, Stops, FutureRoster,
      IdentityOf;
    GovernedFits(r);
    GovernedChair(r);
    match e
    case Message(d, world) => ReceiveKeeps(su, r, d, order, world);
    case Leave(leaver, world) => ShrinkKeeps(su, r, leaver, world);
    case SessionTimer(k, world) => ResessionKeepsIff(su, r, k, world);
    case RejoinTimer(k) => RejoinKeeps(r, k);
  }

  /** Over every run from a governed room on: whenever the room settles it is governed, so that it has exactly one
      session in session, the active one, its heir in the universe, and no key in waiting but the heir's; and
      none of its own assertions ever fires. */
  lemma {:induction false} GovernedForever(su: Suite, r: RoomState, events: seq<RoomEvent>,
                                           order: Ordering, v: Verdict)
    requires Governed(r) && Enumerates(order) && FitAll(r.universe) && Runs(su, r, events, order, v)
    ensures !v.Escaped? && (v.Settled? ==> Governed(v.room)) && (v.Halted? ==> v.halt.InSessionCode?)
    decreases |events|
  {
    hide FitAll, Governed, React, Enumerates, Timely;
    if events != [] {
      ReactKeeps(su, r, events[0], order);
      var first := React(su, r, events[0], order);
      if first.Settled? {
        GovernedForever(su, first.room, events[1..], order, v);
      }
    }
  }

  // ---------- the first activation ----------

  /** A joining room whose map keys are the ids of its sessions. */
  ghost predicate Waiting(r: RoomState) {
    && r.joining && r.active == None
    && forall k :: k in r.universe ==>
         Fit(r.universe[k]) && r.universe[k].sid == k && r.universe[k].phase !in {NoPhase, LeaveRequested}
  }

  /** The first activation makes the room governed exactly when no other session holds a key. */
  lemma FirstActivationIff(su: Suite, r: RoomState, sid: Identity, order: seq<Identity>, world: Surroundings)
    requires Waiting(r) && sid in r.universe && r.universe[sid].phase == InSession && Orders(order, r.universe)
    ensures FitAll(r.universe)
    ensures var v := Activate(su, r, sid, order, world);
      && v == Settled(r.(joining := false, next := Some(sid), active := Some(sid)))
      && (Governed(v.room) <==>
            forall k :: k in r.universe && k != sid ==> r.universe[k].phase !in {GroupKeyGenerated, InSession})
  {
    hide Fit;
    var after := Activate(su, r, sid, order, world).room;
    if forall k :: k in r.universe && k != sid ==> r.universe[k].phase !in {GroupKeyGenerated, InSession} {
      forall k | k in after.universe ensures Seated(sid, sid, k, after.universe[k]) {}
    } else {
      var k :| k in r.universe && k != sid && r.universe[k].phase in {GroupKeyGenerated, InSession};
      assert !Seated(sid, sid, k, after.universe[k]);
    }
  }

  /** The assertion that only the heir is activated. */
  lemma NonHeirActivationHalts(su: Suite, r: RoomState, sid: Identity, order: seq<Identity>, world: Surroundings)
    requires FitAll(r.universe) && Orders(order, r.universe) && r.active.Some?
    requires sid in r.universe && r.universe[sid].phase == InSession
    ensures Activate(su, r, sid, order, world) == Halted(IllegitimateActivation) <==> r.next != Some(sid)
  {
    hide FitAll, Refreshed, Survivors;
    if r.next == Some(sid) {
      FitMeansWellFormed(r.universe);
    }
  }
}
