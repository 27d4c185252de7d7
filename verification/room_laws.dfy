/** What each kind of message does to a room: which sessions enter it, which are put aside, and which stay as they
    were. */
module RoomLaws {
  import opened Bytes
  import opened Crypto
  import opened Participants
  import opened Sessions
  import opened SessionSteps
  import opened SessionInvariants
  import opened SessionBirths
  import opened SessionActions
  import opened SessionRuns
  import opened Inheritance
  import opened SessionLaws
  import opened Rooms
  import opened RoomInvariants
  import opened RoomActivation
  import opened RoomRuns
  import opened RoomStarts

  // ---------- sessions that enter ----------

  /** Nothing has changed but that a session has this id now. */
  ghost predicate HasEntered(r: RoomState, after: RoomState, id: Identity) {
    && after == r.(universe := after.universe) && after.universe.Keys == r.universe.Keys + {id}
    && forall k :: k in r.universe ==> after.universe[k] == r.universe[k]
  }

  /** The heir can answer the request. */
  ghost predicate Answerable(heir: Sess, u: UnauthenticatedParticipant) {
    && heir.phase == InSession && heir.future.Some? && u.id.nickname !in FutureRoster(heir)
    && (heir.me.nickname in FutureRoster(heir) || heir.me.nickname == u.id.nickname)
  }

  /** The identity of the heir's future members and the joiner. */
  function IdentityWith(heir: Sess, u: UnauthenticatedParticipant): Identity {
    IdentityOf(FutureRoster(heir))[u.id.nickname := Face(u.id.fingerprint, u.ephemeral)]
  }

  /** A join request reaches a governed room: a session of the future members and the joiner enters it, unless there is
      one of this identity already; or nothing happens at all, exactly when the heir cannot answer. */
  lemma JoinEnters(su: Suite, r: RoomState, d: Delivery, order: Ordering, world: Surroundings)
    requires Governed(r) && Enumerates(order) && d.packet.JoinRequest?
    ensures FitAll(r.universe) && r.next.Some? && r.next.value in r.universe
    ensures var (v, heir, parsed) := (RoomRuns.Receive(su, r, d, order, world), r.universe[r.next.value],
                                      ParseParticipant(d.packet.joinerInfo));
      if parsed.Some? && Answerable(heir, parsed.value) then
        && v.Settled? && HasEntered(r, v.room, IdentityWith(heir, parsed.value))
        && (IdentityWith(heir, parsed.value) !in r.universe ==>
              Expects(v.room.universe[IdentityWith(heir, parsed.value)], heir, parsed.value))
      else v == Settled(r)
  {
    hide Governed, FitAll, WellFormed, Handle, FutureRoster, ParseParticipant, Dispatched, Expects, Enumerates,
      Activate, IdentityWith, HasEntered, Fit;
    GovernedChair(r);
    GovernedFits(r);
    SeatedPhase(r, r.next.value);
    FitMeansWellFormed(r.universe);
    var heir := r.universe[r.next.value];
    RequestIff(su, heir, d, world);
    var outcome := Handle(su, heir, d, world);
    assert RoomRuns.Receive(su, r, d, order, world) == Dispatched(r, r.next.value, outcome);
    if outcome.Done? && outcome.action.NewSession? {
      DispatchedChild(r, r.next.value, outcome);
      ExpectsId(outcome.action.child, heir, ParseParticipant(d.packet.joinerInfo).value);
    } else {
      DispatchedIdle(r, r.next.value, outcome);
    }
  }

  lemma ExpectsId(child: Sess, s: Sess, u: UnauthenticatedParticipant)
    requires Expects(child, s, u)
    ensures child.sid == IdentityWith(s, u)
  {
    hide Bred;
  }

  /** A session that stays as it is has bred another. */
  lemma DispatchedChild(r: RoomState, k: Identity, outcome: Outcome)
    requires k in r.universe && outcome.Done? && outcome.sess == r.universe[k] && outcome.action.NewSession?
    ensures var (v, child) := (Dispatched(r, k, outcome), outcome.action.child);
      && v.Settled? && HasEntered(r, v.room, child.sid)
      && (child.sid !in r.universe ==> v.room.universe[child.sid] == child)
  {
    assert Put(r, k, r.universe[k]) == r;
  }

  lemma DispatchedIdle(r: RoomState, k: Identity, outcome: Outcome)
    requires k in r.universe
    requires outcome == Done(r.universe[k], NoAction) || (outcome.Threw? && outcome.kept == r.universe[k])
    ensures Dispatched(r, k, outcome) == Settled(r)
  {
    assert Put(r, k, r.universe[k]) == r;
  }

  /** A view of an unknown id reaches a governed room: a session of the listed members enters it exactly when the heir
      considers the view and has a next key; the listed members are trusted in it if the heir has heard them announce
      these keys, and the sender's share is counted. A fatal view stops the room, any other changes nothing. */
  lemma ViewEnters(su: Suite, r: RoomState, d: Delivery, order: Ordering, world: Surroundings)
    requires Governed(r) && Enumerates(order) && IsInfo(d) && d.packet.sid !in r.universe
    ensures FitAll(r.universe) && r.next.Some? && r.next.value in r.universe
    ensures var (v, heir, listed) := (RoomRuns.Receive(su, r, d, order, world), r.universe[r.next.value],
                                      ListToMap(d.packet.content.view));
      if FatalView(r, d) then v.Halted?
      else if PlistConsidered(heir, d) && heir.future.Some? then
        && v.Settled? && HasEntered(r, v.room, IdentityOf(listed))
        && (IdentityOf(listed) !in r.universe ==>
              var child := v.room.universe[IdentityOf(listed)];
              && Bred(child) && child.me == heir.me && child.parental == FutureRoster(heir)
              && (OwnFace(heir.me, heir.future.value, listed) ==> FromView(child, heir, d)))
      else v == Settled(r)
  {
    hide Governed, FitAll, WellFormed, FutureRoster, Dispatched, Enumerates, Activate, ListToMap, InitWithPlist,
      HasEntered, Fit, PlistConsidered, FromView, OwnFace, IdentityOf, Handle, FatalView, Bred;
    GovernedChair(r);
    GovernedFits(r);
    var k := r.next.value;
    SeatedPhase(r, k);
    FitMeansWellFormed(r.universe);
    var heir := r.universe[k];
    HandleCurrentKeeps(su, r, d, world);
    StrangersNeverConfirm(su, r, d, world);
    FatalIff(r, d);
    PlistPhases(su, heir, d, world);
    var outcome := InitWithPlist(su, heir, d, world);
    assert RoomRuns.Receive(su, r, d, order, world) == Dispatched(r, k, outcome);
    if outcome.Done? {
      DispatchedChild(r, k, outcome);
      var child := outcome.action.child;
      if OwnFace(heir.me, heir.future.value, ListToMap(d.packet.content.view)) {
        ViewBreeds(su, heir, d, child, world);
      }
    } else if outcome.Threw? {
      DispatchedIdle(r, k, outcome);
    }
  }

  lemma FatalIff(r: RoomState, d: Delivery)
    requires Governed(r) && IsInfo(d) && d.packet.sid !in r.universe
    ensures r.next.Some? && r.next.value in r.universe
    ensures FatalView(r, d) <==>
      && PlistConsidered(r.universe[r.next.value], d)
      && (|Minus(ListToMap(d.packet.content.view), FutureRoster(r.universe[r.next.value]))| > 1
          || d.sender !in ListToMap(d.packet.content.view))
  {
    hide PlistConsidered, Seated, ListToMap, FutureRoster, Minus;
  }

  /** Whatever is not for one of its sessions, and is no view and no join request, passes a room by; views too, while
      its active session is leaving. */
  lemma StrangersPassBy(su: Suite, r: RoomState, d: Delivery, world: Surroundings)
    requires FitAll(r.universe) && r.active.Some? && r.active.value in r.universe
    requires d.packet.Signed? && d.packet.sid !in r.universe
    requires IsInfo(d) ==> r.universe[r.active.value].phase == LeaveRequested
    ensures HandleCurrent(su, r, d, world) == Settled(r)
  {
    hide Fit;
  }

  // ---------- messages for a session of the room ----------

  /** What a message for one of the room's sessions makes of it. */
  function Changed(su: Suite, r: RoomState, d: Delivery, world: Surroundings): Sess
    requires d.packet.Signed? && d.packet.sid in r.universe && WellFormed(r.universe[d.packet.sid])
  {
    After(r.universe[d.packet.sid], Handle(su, r.universe[d.packet.sid], d, world))
  }

  /** The message goes to its session and to no other, and brings it into session or does not. */
  lemma ReachesItsSession(su: Suite, r: RoomState, d: Delivery, order: Ordering, world: Surroundings)
    requires Governed(r) && Enumerates(order) && d.packet.Signed? && d.packet.sid in r.universe
    ensures FitAll(r.universe) && Fit(r.universe[d.packet.sid]) && WellFormed(r.universe[d.packet.sid])
    ensures r.universe[d.packet.sid].sid == d.packet.sid && !r.joining && r.active.Some?
    ensures r.universe[d.packet.sid].phase == InSession ==> r.active == Some(d.packet.sid)
    ensures var (s, t) := (r.universe[d.packet.sid], Changed(su, r, d, world));
      && HandleFits(s, Handle(su, s, d, world)) && t.sid == s.sid
      && (t.phase == s.phase || t.phase == GroupKeyGenerated ==>
            RoomRuns.Receive(su, r, d, order, world) == Dispatched(r, d.packet.sid, Handle(su, s, d, world)))
  {
    hide Governed, FitAll, WellFormed, Handle, Dispatched, Enumerates, Activate, Fit, HandleFits, Completes,
      MarkConfirmed, HandleCurrent, Put;
    GovernedChair(r);
    GovernedFits(r);
    SeatedPhase(r, d.packet.sid);
    FitMeansWellFormed(r.universe);
    var s := r.universe[d.packet.sid];
    HandleStaysFit(su, s, d, world);
    OwnDispatched(su, r, d, world);
    HeirConfirmedIff(su, r, d, world);
    CompletesPhase(su, s, d);
    if s.phase != InSession {
      GetsInSessionIff(su, s, d, world);
    }
  }

  /** A message that neither makes a key nor ends a member's stay changes its session and nothing else. */
  lemma QuietMessage(su: Suite, r: RoomState, d: Delivery, order: Ordering, world: Surroundings)
    requires Governed(r) && Enumerates(order) && d.packet.Signed? && d.packet.sid in r.universe
    requires forall k :: !Leaves(r.universe[d.packet.sid], d, k)
    ensures FitAll(r.universe) && WellFormed(r.universe[d.packet.sid])
    ensures Changed(su, r, d, world).phase == r.universe[d.packet.sid].phase ==>
      RoomRuns.Receive(su, r, d, order, world)
        == Settled(r.(universe := r.universe[d.packet.sid := Changed(su, r, d, world)]))
  {
    hide Governed, FitAll, WellFormed, Handle, Dispatched, Enumerates, Fit, RoomRuns.Receive, Leaves, FutureRoster,
      Succeeds;
    ReachesItsSession(su, r, d, order, world);
    var s := r.universe[d.packet.sid];
    LeavesIff(su, s, d, world, s.me.nickname);
    SignedBreedsNoChild(su, s, d, world);
    if Changed(su, r, d, world).phase == s.phase {
      DispatchedQuiet(r, d.packet.sid, Handle(su, s, d, world));
    }
  }

  lemma SignedBreedsNoChild(su: Suite, s: Sess, d: Delivery, world: Surroundings)
    requires WellFormed(s) && d.packet.Signed?
    ensures !ActionOf(Handle(su, s, d, world)).NewSession?
  {
    hide WellFormed, Conceive, FutureRoster, ConfirmIfReady, Authenticate, WithShare, MyIndex, MarkConfirmed, Peers;
    FinishBreedsNothing(su, world);
  }

  lemma FinishBreedsNothing(su: Suite, world: Surroundings)
    ensures forall s :: WellFormed(s) ==> Finish(su, s, world).Done? && !Finish(su, s, world).action.NewSession?
  {
    hide WellFormed, SessionKey, ConfirmationOf, Ready;
  }

  lemma DispatchedQuiet(r: RoomState, k: Identity, outcome: Outcome)
    requires k in r.universe && HandleFits(r.universe[k], outcome)
    requires After(r.universe[k], outcome).phase == r.universe[k].phase
    requires !ActionOf(outcome).NewSession? && !ActionOf(outcome).NewPrioritySession?
    ensures Dispatched(r, k, outcome) == Settled(r.(universe := r.universe[k := After(r.universe[k], outcome)]))
  {
    hide Bred;
  }

  /** All sessions but one that are neither in session nor dead are stale; nobody else has changed. */
  ghost predicate PutAside(u: Universe, after: Universe, heir: Identity) {
    && after.Keys == u.Keys
    && forall k :: k in u ==>
         after[k] == if k != heir && u[k].phase !in {InSession, Dead} then u[k].(phase := Stale) else u[k]
  }

  /** The message that makes a session generate its key makes it the heir and puts every other session aside. */
  lemma KeyMakesHeir(su: Suite, r: RoomState, d: Delivery, order: Ordering, world: Surroundings)
    requires Governed(r) && Enumerates(order) && d.packet.Signed? && d.packet.sid in r.universe
    ensures FitAll(r.universe) && WellFormed(r.universe[d.packet.sid])
    ensures var (v, k, t) := (RoomRuns.Receive(su, r, d, order, world), d.packet.sid, Changed(su, r, d, world));
      t.phase == GroupKeyGenerated && r.universe[k].phase != GroupKeyGenerated ==>
        v.Settled? && v.room == r.(next := Some(k), universe := v.room.universe)
        && PutAside(r.universe[k := t], v.room.universe, k)
  {
    hide Governed, FitAll, WellFormed, Handle, Dispatched, Enumerates, Fit, RoomRuns.Receive;
    ReachesItsSession(su, r, d, order, world);
    var s := r.universe[d.packet.sid];
    if Changed(su, r, d, world).phase == GroupKeyGenerated && s.phase != GroupKeyGenerated {
      UniverseKeys(r);
      DispatchedHeir(r, d.packet.sid, Handle(su, s, d, world));
    }
  }

  lemma UniverseKeys(r: RoomState)
    requires Governed(r)
    ensures forall k :: k in r.universe ==> r.universe[k].sid == k
  {
    hide Fit;
  }

  lemma PresumePutsAside(r: RoomState, heir: Identity)
    requires forall k :: k in r.universe ==> r.universe[k].sid == k
    ensures Presume(r, heir) == r.(next := Some(heir), universe := Presume(r, heir).universe)
    ensures PutAside(r.universe, Presume(r, heir).universe, heir)
  {}

  lemma DispatchedHeir(r: RoomState, k: Identity, outcome: Outcome)
    requires k in r.universe && HandleFits(r.universe[k], outcome)
    requires forall l :: l in r.universe ==> r.universe[l].sid == l
    requires var t := After(r.universe[k], outcome);
      t.phase == GroupKeyGenerated && r.universe[k].phase != GroupKeyGenerated && t.sid == k
    ensures var (v, t) := (Dispatched(r, k, outcome), After(r.universe[k], outcome));
      && v.Settled? && v.room == r.(next := Some(k), universe := v.room.universe)
      && PutAside(r.universe[k := t], v.room.universe, k)
  {
    hide Bred, PutAside, Presume;
    PresumePutsAside(Put(r, k, After(r.universe[k], outcome)), k);
  }

  /** A member leaves, by a message to the session in session: the session notes it; its successor without that member,
      where it can breed one, enters the room unless there is one of its identity, becomes the heir, and every other
      session is put aside. */
  lemma LeaveEnters(su: Suite, r: RoomState, d: Delivery, k: Nick, order: Ordering, world: Surroundings)
    requires Governed(r) && Enumerates(order) && d.packet.Signed? && d.packet.sid in r.universe
    requires Leaves(r.universe[d.packet.sid], d, k)
    ensures FitAll(r.universe) && r.active == Some(d.packet.sid) && k in r.universe[d.packet.sid].roster
    ensures var (v, s) := (RoomRuns.Receive(su, r, d, order, world), r.universe[d.packet.sid]);
      var t := s.(zombies := s.zombies[k := s.roster[k]]);
      var noted := r.universe[d.packet.sid := t];
      if s.future.Some? && s.me.nickname in FutureRoster(t) then
        var id := IdentityOf(FutureRoster(s)) - {k};
        && v.Settled? && v.room == r.(next := Some(id), universe := v.room.universe)
        && (id in noted ==> PutAside(noted, v.room.universe, id))
        && (id !in noted ==> exists heir :: Succeeds(heir, s, k) && PutAside(noted[id := heir], v.room.universe, id))
      else v == Settled(r.(universe := noted))
  {
    hide Governed, FitAll, WellFormed, Handle, Dispatched, Enumerates, Fit, RoomRuns.Receive, FutureRoster,
      Succeeds, Readable, PutAside, Bred, IdentityOf;
    assert k in r.universe[d.packet.sid].roster by { ReadableIs(r.universe[d.packet.sid], d, k); }
    ReachesItsSession(su, r, d, order, world);
    var s := r.universe[d.packet.sid];
    LeavesIff(su, s, d, world, k);
    SignedBreedsNoChild(su, s, d, world);
    var outcome := Handle(su, s, d, world);
    UniverseKeys(r);
    if ActionOf(outcome).NewPrioritySession? {
      SuccessorId(outcome.action.heir, s, k);
      DispatchedSuccessor(r, d.packet.sid, outcome);
    } else {
      DispatchedQuiet(r, d.packet.sid, outcome);
    }
  }

  lemma SuccessorId(heir: Sess, s: Sess, k: Nick)
    requires Succeeds(heir, s, k)
    ensures heir.sid == IdentityOf(FutureRoster(s)) - {k} && Bred(heir)
  {
    hide Bred;
  }

  lemma DispatchedSuccessor(r: RoomState, k: Identity, outcome: Outcome)
    requires k in r.universe && outcome.Done? && outcome.action.NewPrioritySession? && outcome.sess.sid == k
    requires forall l :: l in r.universe ==> r.universe[l].sid == l
    ensures var (v, heir, noted) := (Dispatched(r, k, outcome), outcome.action.heir, r.universe[k := outcome.sess]);
      && v.Settled? && v.room == r.(next := Some(heir.sid), universe := v.room.universe)
      && PutAside(if heir.sid in noted then noted else noted[heir.sid := heir], v.room.universe, heir.sid)
  {
    hide PutAside, Presume;
    PresumePutsAside(Insert(Put(r, k, outcome.sess), outcome.action.heir), outcome.action.heir.sid);
  }

  /** The confirmation that was still missing activates the heir: the room is cleaned around it, unless it is
      overcrowded. */
  lemma ConfirmationActivates(su: Suite, r: RoomState, d: Delivery, order: Ordering, world: Surroundings)
    requires Governed(r) && Enumerates(order) && d.packet.Signed? && r.next == Some(d.packet.sid)
    requires d.packet.sid in r.universe && Completes(su, r.universe[d.packet.sid], d)
    ensures FitAll(r.universe) && WellFormed(r.universe[d.packet.sid])
    ensures var (v, k) := (RoomRuns.Receive(su, r, d, order, world), d.packet.sid);
      var marked := Put(r, k, MarkConfirmed(su, r.universe[k], d));
      && marked.universe[k].phase == InSession
      && (v.Halted? <==> Overcrowded(r, k)) && (!Overcrowded(r, k) ==> v.Settled? && Cleaned(marked, k, v.room))
  {
    hide HandleCurrent, Governed, GovernedBut, FatalView, Overcrowded, Activate, FitAll, Enumerates, Cleaned,
      Completes, MarkConfirmed, Put, WellFormed, Fit;
    GovernedChair(r);
    GovernedFits(r);
    FitMeansWellFormed(r.universe);
    SeatedPhase(r, d.packet.sid);
    HandleCurrentKeeps(su, r, d, world);
    HeirConfirmedIff(su, r, d, world);
    var handled := HandleCurrent(su, r, d, world);
    var ids := order(handled.room.universe.Keys);
    EnumeratesOrders(order, handled.room.universe);
    ConfirmedCrowns(handled.room, d);
    ActivationCleans(su, handled.room, d.packet.sid, ids, world);
    SameCrowd(su, r, d);
  }

  // ---------- departures and timers ----------

  /** A member is gone from the channel: in a governed room the active session notes it, and its successor without that
      member takes the place of whatever has its identity, becomes the heir and puts every other session aside. */
  lemma DepartureEnters(su: Suite, r: RoomState, leaver: Nick, world: Surroundings)
    requires Governed(r)
    ensures FitAll(r.universe) && r.active.Some? && r.active.value in r.universe
    ensures var (v, a) := (ShrinkRoom(su, r, leaver, world), r.active.value);
      var s := r.universe[a];
      if leaver !in s.roster || leaver in s.zombies then v == Settled(r)
      else
        var t := s.(zombies := s.zombies[leaver := s.roster[leaver]]);
        if s.future.Some? && s.me.nickname in FutureRoster(t) then
          var id := IdentityOf(FutureRoster(s)) - {leaver};
          && v.Settled? && v.room == r.(next := Some(id), universe := v.room.universe)
          && exists heir :: Succeeds(heir, s, leaver)
                            && PutAside(r.universe[a := t][id := heir], v.room.universe, id)
        else v == Settled(r.(universe := r.universe[a := t]))
  {
    hide Governed, FitAll, WellFormed, Fit, FutureRoster, Succeeds, PutAside, Bred, IdentityOf, Shrink, Presume;
    GovernedChair(r);
    GovernedFits(r);
    FitMeansWellFormed(r.universe);
    var a := r.active.value;
    SeatedPhase(r, a);
    UniverseKeys(r);
    var s := r.universe[a];
    var outcome := Shrink(su, s, leaver, world);
    ShrinkAfter(su, s, leaver, world);
    ShrinkBreeds(su, s, leaver, world);
    if leaver in s.roster && leaver !in s.zombies {
      ShrinkSucceeds(su, s, leaver, world);
      if ActionOf(outcome).NewPrioritySession? {
        SuccessorId(outcome.action.heir, s, leaver);
        PresumePutsAside(Put(Put(r, a, outcome.sess), outcome.action.heir.sid, outcome.action.heir),
                         outcome.action.heir.sid);
      }
    } else {
      assert Put(r, a, s) == r;
    }
  }

  /** The session timer of a session in session: a session of the same live members under their next keys enters the
      room. It takes the place of a live session of its identity, but not of a dead one. */
  lemma TimerEnters(su: Suite, r: RoomState, k: Identity, world: Surroundings)
    requires FitAll(r.universe) && k in r.universe
    ensures var (v, s, id) := (Resession(su, r, k, world), r.universe[k], IdentityOf(FutureRoster(r.universe[k])));
      if s.future.Some? && s.me.nickname in FutureRoster(s) && !(id in r.universe && r.universe[id].phase == Dead) then
        exists child :: Bred(child) && child.sid == id && v == Settled(r.(universe := r.universe[id := child]))
      else v == Settled(r)
  {
    hide FitAll, Fit, FutureRoster, IdentityOf, Resession, Bred;
    ResessionShape(su, r, k, world);
    BredWaits();
  }

  lemma BredWaits()
    ensures forall child :: Bred(child) ==> child.phase != Dead
  {
    hide Fit;
  }

  /** Every session but those that meet the condition is as it was; those are dead. */
  ghost predicate Dies(r: RoomState, after: RoomState, doomed: Sess -> bool) {
    && after == r.(universe := after.universe) && after.universe.Keys == r.universe.Keys
    && forall k :: k in r.universe ==>
         after.universe[k] == if doomed(r.universe[k]) then r.universe[k].(phase := Dead) else r.universe[k]
  }

  /** The rejoin timer ends its session; in a joining room it ends all of them, and so does a departure. */
  lemma RejoiningEnds(su: Suite, r: RoomState, k: Identity, leaver: Nick, world: Surroundings)
    requires k in r.universe
    ensures r.joining ==> Dies(r, RejoinTimeout(r, k), s => true)
    ensures !r.joining ==>
      RejoinTimeout(r, k) == r.(universe := r.universe[k := r.universe[k].(phase := Dead)])
    ensures FitAll(r.universe) && r.joining ==>
      ShrinkRoom(su, r, leaver, world).Settled? && Dies(r, ShrinkRoom(su, r, leaver, world).room, s => true)
  {
    hide Fit, WellFormed, Shrink;
  }

  // ---------- the room's own assertions ----------

  /** A message needs the heir: a request or, unless the active session is leaving, a view of an unknown id. */
  ghost predicate NeedsHeir(r: RoomState, d: Delivery)
    requires r.active.Some? && r.active.value in r.universe
  {
    || d.packet.JoinRequest?
    || (IsInfo(d) && d.packet.sid !in r.universe && r.universe[r.active.value].phase != LeaveRequested)
  }

  /** Exactly when each of them fails, in any room. */
  lemma AssertionsFail(su: Suite, r: RoomState, d: Delivery, parent: Identity, order: seq<Identity>, newcomer: Sess,
                       leaver: Nick, world: Surroundings)
    requires FitAll(r.universe) && Orders(order, r.universe)
    ensures var seated := r.active.Some? && r.active.value in r.universe;
      && (HandleCurrent(su, r, d, world) == Halted(NoActiveSession) <==> !seated)
      && (HandleCurrent(su, r, d, world) == Halted(NoHeir) <==>
            seated && NeedsHeir(r, d) && !(r.next.Some? && r.next.value in r.universe))
      && (ShrinkRoom(su, r, leaver, world) == Halted(NoActiveSession) <==> !r.joining && !seated)
    ensures Refresh(su, r, parent, order, world) == Halted(NoParent) <==> parent !in r.universe
    ensures Refresh(su, r, parent, order, world) == Halted(DeadParent) <==>
      parent in r.universe && r.universe[parent].phase == Dead
    ensures InsertSession(r, newcomer) == Halted(DeadNewcomer) <==> newcomer.phase == Dead
  {
    hide Fit, WellFormed, Handle, InitWithPlist, Shrink, Act, Refreshed;
    FitMeansWellFormed(r.universe);
  }

  // ---------- a joining room ----------

  /** The message is for a session of the room that is alive. */
  predicate ForLive(r: RoomState, d: Delivery) {
    d.packet.Signed? && d.packet.sid in r.universe && r.universe[d.packet.sid].phase != Dead
  }

  /** What a message does to a joining room up to an activation. Its live session handles it, an error escapes, and
      whatever the session asks for is not done. A view for no live session makes a joiner's session under the id it
      carries, unless the constructor refuses it; a confirmation for none ends every session in which nobody is
      confirmed. Nothing else changes anything. */
  lemma JoinerHears(su: Suite, r: RoomState, d: Delivery, world: Surroundings)
    requires FitAll(r.universe)
    ensures ForLive(r, d) ==> WellFormed(r.universe[d.packet.sid])
    ensures var v := HandleJoining(su, r, d, world);
      if ForLive(r, d) then
        var (outcome, k) := (Handle(su, r.universe[d.packet.sid], d, world), d.packet.sid);
        && v.Settled? == outcome.Done? && v.Escaped? == outcome.Threw?
        && (outcome.Done? ==> v.room == r.(universe := r.universe[k := outcome.sess]))
        && (outcome.Threw? ==>
              v.error == outcome.error && v.left == r.(universe := r.universe[k := outcome.kept]))
      else if IsInfo(d) && Join(su, r.me, r.key, d, world).Born? then
        v == Settled(r.(universe := r.universe[d.packet.sid := Join(su, r.me, r.key, d, world).child]))
      else if d.packet.Signed? && d.packet.content.SessionConfirmation? then
        v.Settled? && Dies(r, v.room, s => NobodyConfirmed(s))
      else v == Settled(r)
  {
    hide Join, Handle, WellFormed, Fit, NobodyConfirmed;
    FitMeansWellFormed(r.universe);
    if IsInfo(d) {
      JoinNeverFatal(su, r.me, r.key, d, world);
    }
  }
}
