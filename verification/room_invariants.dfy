/** From its first activation on a room keeps one active session and one heir, whatever arrives, and its own
    assertions never fire. */
module RoomInvariants {
  import opened Bytes
  import opened Crypto
  import opened Participants
  import opened Sessions
  import opened SessionSteps
  import opened SessionInvariants
  import opened SessionActions
  import opened Rooms

  /** A session in its place: only the active one is in session, and only the heir holds an unconfirmed key. */
  ghost predicate Seated(active: Identity, next: Identity, k: Identity, s: Sess) {
    && Fit(s) && s.sid == k && s.phase !in {NoPhase, LeaveRequested}
    && (s.phase == InSession ==> k == active)
    && (s.phase == GroupKeyGenerated ==> k == next)
  }

  ghost predicate Chaired(r: RoomState) {
    && !r.joining && r.active.Some? && r.next.Some?
    && r.active.value in r.universe && r.next.value in r.universe
    && r.universe[r.active.value].phase == InSession
  }

  ghost predicate Governed(r: RoomState) {
    && Chaired(r)
    && forall k :: k in r.universe ==> Seated(r.active.value, r.next.value, k, r.universe[k])
  }

  /** Governed, except that the heir may just have come into session. */
  ghost predicate GovernedBut(r: RoomState, heir: Identity) {
    && Chaired(r)
    && (forall k :: k in r.universe && k != heir ==> Seated(r.active.value, r.next.value, k, r.universe[k]))
    && (heir in r.universe ==>
          || Seated(r.active.value, r.next.value, heir, r.universe[heir])
          || (r.next == Some(heir) && Seated(heir, heir, heir, r.universe[heir])))
  }

  lemma GovernedFits(r: RoomState)
    requires Governed(r)
    ensures FitAll(r.universe)
  {
    hide Fit;
  }

  lemma GovernedChair(r: RoomState)
    requires Governed(r)
    ensures !r.joining && r.active.Some? && r.next.Some?
    ensures r.active.value in r.universe && r.next.value in r.universe && r.universe[r.active.value].phase == InSession
  {
    hide Seated;
  }

  lemma GovernedButFits(r: RoomState, heir: Identity)
    requires GovernedBut(r, heir)
    ensures FitAll(r.universe)
  {
    hide Fit;
  }

  // ---------- the parts of a step ----------

  /** A session replaced by what it has become, in a state that claims nothing new. */
  lemma PutKeeps(r: RoomState, k: Identity, t: Sess)
    requires Governed(r) && k in r.universe && Fit(t) && t.sid == k
    requires t.phase == r.universe[k].phase
    ensures Governed(Put(r, k, t))
  {
    hide Fit;
  }

  /** The heir confirmed. */
  lemma PutConfirmed(r: RoomState, k: Identity, t: Sess)
    requires Governed(r) && k in r.universe && Fit(t) && t.sid == k
    requires t.phase == InSession && r.universe[k].phase == GroupKeyGenerated
    ensures GovernedBut(Put(r, k, t), k)
  {
    hide Fit;
    assert Seated(r.active.value, r.next.value, k, r.universe[k]);
  }

  lemma InsertKeeps(r: RoomState, s: Sess)
    requires Governed(r) && Bred(s)
    ensures Governed(Insert(r, s)) && s.sid in Insert(r, s).universe
  {
    hide Fit;
  }

  lemma PutBredKeeps(r: RoomState, s: Sess)
    requires Governed(r) && Bred(s) && r.active != Some(s.sid)
    ensures Governed(Put(r, s.sid, s)) && s.sid in Put(r, s.sid, s).universe
  {
    hide Fit;
  }

  lemma StaledFits(s: Sess, heir: Identity)
    requires Fit(s)
    ensures Fit(Staled(s, heir)) && Staled(s, heir).sid == s.sid
  {}

  /** Sessions seated but for the old heir's key, once everybody else is stale. */
  lemma PresumeKeeps(r: RoomState, heir: Identity)
    requires Chaired(r) && heir in r.universe
    requires forall k :: k in r.universe ==>
      && Fit(r.universe[k]) && r.universe[k].sid == k && r.universe[k].phase !in {NoPhase, LeaveRequested}
      && (r.universe[k].phase == InSession ==> r.active == Some(k))
    ensures Governed(Presume(r, heir))
  {
    hide Fit;
    var after := Presume(r, heir);
    forall k | k in after.universe ensures Seated(after.active.value, heir, k, after.universe[k]) {
      StaledFits(r.universe[k], heir);
    }
  }

  lemma GovernedPresume(r: RoomState, heir: Identity)
    requires Governed(r) && heir in r.universe
    ensures Governed(Presume(r, heir))
  {
    hide Fit, Presume;
    assert forall k :: k in r.universe ==> Seated(r.active.value, r.next.value, k, r.universe[k]);
    PresumeKeeps(r, heir);
  }

  lemma NewHeirKeeps(r: RoomState, k: Identity, t: Sess)
    requires Governed(r) && k in r.universe && Fit(t) && t.sid == k
    requires t.phase == GroupKeyGenerated && r.universe[k].phase != InSession
    ensures Governed(Presume(Put(r, k, t), k))
  {
    hide Fit, Presume;
    assert forall l :: l in r.universe ==> Seated(r.active.value, r.next.value, l, r.universe[l]);
    PresumeKeeps(Put(r, k, t), k);
  }

  // ---------- handling ----------

  lemma DispatchKeeps(r: RoomState, k: Identity, outcome: Outcome)
    requires Governed(r) && k in r.universe && HandleFits(r.universe[k], outcome)
    requires Fit(After(r.universe[k], outcome)) && After(r.universe[k], outcome).sid == k
    ensures Dispatched(r, k, outcome).Settled? && GovernedBut(Dispatched(r, k, outcome).room, k)
    ensures After(r.universe[k], outcome).phase == r.universe[k].phase ==> Governed(Dispatched(r, k, outcome).room)
  {
    hide Fit, Seated, Presume, Insert, Put;
    var s := r.universe[k];
    var t := After(s, outcome);
    assert s.phase != LeaveRequested by { SeatedPhase(r, k); }
    if outcome.Threw? || t.phase == s.phase {
      PutKeeps(r, k, t);
      if outcome.Done? {
        ActKeeps(Put(r, k, t), outcome.action, t);
      }
      GovernedSome(Dispatched(r, k, outcome).room, k);
    } else if t.phase == GroupKeyGenerated {
      NewHeirKeeps(r, k, t);
      GovernedSome(Dispatched(r, k, outcome).room, k);
    } else {
      PutConfirmed(r, k, t);
    }
  }

  lemma SeatedPhase(r: RoomState, k: Identity)
    requires Governed(r) && k in r.universe
    ensures r.universe[k].phase !in {NoPhase, LeaveRequested} && r.universe[k].sid == k && Fit(r.universe[k])
    ensures r.universe[k].phase == InSession ==> r.active == Some(k)
    ensures r.universe[k].phase == GroupKeyGenerated ==> r.next == Some(k)
  {
    hide Fit;
    assert Seated(r.active.value, r.next.value, k, r.universe[k]);
  }

  lemma GovernedSome(r: RoomState, k: Identity)
    requires Governed(r)
    ensures GovernedBut(r, k)
  {
    hide Fit, Seated;
  }

  /** Actions that come with no change of state. */
  lemma ActKeeps(r: RoomState, action: Action, t: Sess)
    requires Governed(r) && action != PresumeHeir
    requires action.NewSession? ==> Bred(action.child)
    requires action.NewPrioritySession? ==> Bred(action.heir)
    ensures Governed(Act(r, action, t))
  {
    hide Bred, Seated, Presume, Insert, Fit;
    match action
    case NewSession(child) => InsertKeeps(r, child);
    case NewPrioritySession(heir) =>
      InsertKeeps(r, heir);
      GovernedPresume(Insert(r, heir), heir.sid);
    case NoAction =>
  }

  lemma HandleStaysFit(su: Suite, s: Sess, d: Delivery, world: Surroundings)
    requires Fit(s)
    ensures WellFormed(s)
    ensures var t := After(s, Handle(su, s, d, world)); Fit(t) && t.sid == s.sid
    ensures HandleFits(s, Handle(su, s, d, world))
    ensures !d.packet.Signed? && s.phase != LeaveRequested ==> After(s, Handle(su, s, d, world)).phase == s.phase
  {
    hide Handle, Fit, WellFormed, Evolves, HandleFits, FromMember;
    HandlePhases(su, s, d, world);
    HandleEvolves(su, s, d, world);
    EvolvesFit(s, After(s, Handle(su, s, d, world)));
    if !d.packet.Signed? && s.phase != LeaveRequested {
      UnsignedKeepsPhase(su, s, d, world);
    }
  }

  lemma UnsignedKeepsPhase(su: Suite, s: Sess, d: Delivery, world: Surroundings)
    requires WellFormed(s) && !d.packet.Signed? && s.phase != LeaveRequested
    ensures After(s, Handle(su, s, d, world)).phase == s.phase
  {
    hide Handle, WellFormed;
    var m := HandleMoves(su, s, d, world);
  }

  /** The view that makes the heir run into an assertion of the session code. */
  ghost predicate FatalView(r: RoomState, d: Delivery)
    requires Governed(r)
  {
    && d.packet.Signed? && d.packet.sid !in r.universe && IsInfo(d) && PlistConsidered(r.universe[r.next.value], d)
    && var listed := ListToMap(d.packet.content.view);
       |Minus(listed, FutureRoster(r.universe[r.next.value]))| > 1 || d.sender !in listed
  }

  /** Up to the activation the room's assertions hold; the session code's fail for a fatal view only. */
  lemma HandleCurrentKeeps(su: Suite, r: RoomState, d: Delivery, world: Surroundings)
    requires Governed(r)
    ensures FitAll(r.universe)
    ensures var v := HandleCurrent(su, r, d, world);
      && !v.Escaped?
      && (v.Halted? <==> FatalView(r, d)) && (v.Halted? ==> v.halt.InSessionCode?)
      && (v.Settled? ==>
            if Confirmed(v.room, d) then GovernedBut(v.room, d.packet.sid) && v.room.next == Some(d.packet.sid)
            else Governed(v.room))
  {
    hide Fit, Seated, Handle, InitWithPlist, Act, Put, PlistConsidered, FutureRoster, HandleFits, ListToMap,
      WellFormed;
    GovernedFits(r);
    if d.packet.Signed? && d.packet.sid in r.universe {
      var k := d.packet.sid;
      SeatedPhase(r, k);
      HandleStaysFit(su, r.universe[k], d, world);
      DispatchKeeps(r, k, Handle(su, r.universe[k], d, world));
      SettleBut(Dispatched(r, k, Handle(su, r.universe[k], d, world)).room, d, k);
    } else if d.packet.Signed? {
      UnchangedUnconfirmed(r, d);
      SeatedPhase(r, r.active.value);
      if IsInfo(d) {
        var k := r.next.value;
        SeatedPhase(r, k);
        PlistPhases(su, r.universe[k], d, world);
        var outcome := InitWithPlist(su, r.universe[k], d, world);
        if !outcome.Died? {
          PlistDispatched(r, k, outcome);
          NeverConfirmed(Dispatched(r, k, outcome).room, d);
        }
      }
    } else {
      var k := r.next.value;
      SeatedPhase(r, k);
      HandleStaysFit(su, r.universe[k], d, world);
      DispatchKeeps(r, k, Handle(su, r.universe[k], d, world));
    }
  }

  lemma UnchangedUnconfirmed(r: RoomState, d: Delivery)
    requires Governed(r) && d.packet.Signed? && d.packet.sid !in r.universe
    ensures !Confirmed(r, d)
  {}

  lemma NeverConfirmed(r: RoomState, d: Delivery)
    requires Governed(r)
    ensures !Confirmed(r, d)
  {
    if Confirmed(r, d) {
      SeatedPhase(r, d.packet.sid);
    }
  }

  /** Once handled, either the heir has confirmed or the room is governed. */
  lemma SettleBut(r: RoomState, d: Delivery, k: Identity)
    requires GovernedBut(r, k) && d.packet.Signed? && d.packet.sid == k
    ensures if Confirmed(r, d) then r.next == Some(k) else Governed(r)
  {
    hide Fit;
  }

  /** The heir has only bred a session. */
  lemma PlistDispatched(r: RoomState, k: Identity, outcome: Outcome)
    requires Governed(r) && k in r.universe && !outcome.Died?
    requires outcome.Threw? ==> outcome.kept == r.universe[k]
    requires outcome.Done? ==> outcome.sess == r.universe[k] && outcome.action.NewSession? && Bred(outcome.action.child)
    ensures Dispatched(r, k, outcome).Settled? && Governed(Dispatched(r, k, outcome).room)
  {
    hide Fit, Seated, Insert, Bred;
    assert Put(r, k, r.universe[k]) == r;
    if outcome.Done? {
      InsertKeeps(r, outcome.action.child);
    }
  }
}
