/** Runs that stop a room: how its last confirmations lead to the assertions they run into. */
module RoomStops {
  import opened Bytes
  import opened Crypto
  import opened Participants
  import opened Sessions
  import opened SessionSteps
  import opened SessionInvariants
  import opened SessionActions
  import opened SessionKeys
  import opened Completeness
  import opened Rooms
  import opened RoomInvariants
  import opened RoomActivation
  import opened RoomRuns
  import opened RoomJoins

  // ---------- messages in a row ----------

  function Messages(ds: seq<Delivery>, world: Surroundings): (events: seq<RoomEvent>)
    ensures |events| == |ds|
  {
    seq(|ds|, i requires 0 <= i < |ds| => Message(ds[i], world))
  }

  lemma MessagesStart(ds: seq<Delivery>, world: Surroundings)
    requires ds != []
    ensures Messages(ds, world)[0] == Message(ds[0], world) && Messages(ds, world)[1..] == Messages(ds[1..], world)
  {
    var all, rest := Messages(ds, world), Messages(ds[1..], world);
    assert |all[1..]| == |rest|;
    forall i | 0 <= i < |rest| ensures all[1..][i] == rest[i] {}
  }

  lemma {:induction false} RunsOn(su: Suite, r: RoomState, events: seq<RoomEvent>, middle: RoomState,
                                  more: seq<RoomEvent>, order: Ordering, v: Verdict)
    requires FitAll(r.universe) && FitAll(middle.universe) && Enumerates(order)
    requires Runs(su, r, events, order, Settled(middle)) && Runs(su, middle, more, order, v)
    ensures Runs(su, r, events + more, order, v)
    decreases |events|
  {
    hide FitAll, Enumerates, React, Timely;
    if events == [] {
      assert events + more == more;
    } else {
      assert (events + more)[1..] == events[1..] + more;
      RunsOn(su, React(su, r, events[0], order).room, events[1..], middle, more, order, v);
    }
  }

  lemma RunsStep(su: Suite, r: RoomState, events: seq<RoomEvent>, order: Ordering, v: Verdict)
    requires FitAll(r.universe) && Enumerates(order) && events != [] && Timely(r, events[0])
    ensures var first := React(su, r, events[0], order);
      && (!first.Settled? || |events| == 1 ==> Runs(su, r, events, order, first))
      && (first.Settled? && Runs(su, first.room, events[1..], order, v) ==> Runs(su, r, events, order, v))
      && (events[0].Leave? ==> first == ShrinkRoom(su, r, events[0].leaver, events[0].during))
  {
    hide FitAll, Enumerates, Timely, RoomRuns.Receive, ShrinkRoom, Resession, RejoinTimeout;
    assert |events| == 1 ==> events[1..] == [];
  }

  // ---------- the last confirmations ----------

  /** The room of a current user. */
  ghost predicate Current(r: RoomState) {
    FitAll(r.universe) && !r.joining && r.active.Some? && r.active.value in r.universe
  }

  /** A session that holds a key nobody has activated, and messages that confirm it for whoever is not confirmed. */
  ghost predicate Confirmable(su: Suite, r: RoomState, k: Identity, ds: seq<Delivery>) {
    && k in r.universe && r.universe[k].sid == k && r.active != Some(k) && ds != []
    && StillToConfirm(su, r.universe[k], ds)
    && forall i :: 0 <= i < |ds| ==> ds[i].packet.Signed? && ds[i].packet.sid == k
  }

  ghost predicate StillToConfirm(su: Suite, s: Sess, ds: seq<Delivery>) {
    && WellFormed(s) && s.phase == GroupKeyGenerated
    && (forall l :: l in s.roster ==> s.confirmed[IndexIn(s, l)] || exists i :: 0 <= i < |ds| && ds[i].sender == l)
    && forall i :: 0 <= i < |ds| ==> RightConfirmation(su, s, s.key, ds[i])
  }

  /** What a right confirmation leaves of a session: it has evolved, with the same leavers. */
  ghost predicate MarkedOnly(s: Sess, t: Sess) {
    Evolves(s, t) && t.zombies == s.zombies && Fit(t) && t.sid == s.sid
  }

  /** One confirmation less. */
  lemma OneMarked(su: Suite, s: Sess, ds: seq<Delivery>)
    requires Fit(s) && ds != [] && StillToConfirm(su, s, ds)
    ensures FromMember(s, ds[0]) && ds[0].sender in s.roster && IsConfirmation(ds[0].packet) && WellFormed(s)
    ensures ds[0].packet.Signed? && ds[0].packet.content.SessionConfirmation?
    ensures var t := MarkConfirmed(su, s, ds[0]);
      && MarkedOnly(s, t) && t.phase in {GroupKeyGenerated, InSession}
      && (t.phase != InSession ==> StillToConfirm(su, t, ds[1..]) && ds[1..] != [])
  {
    hide IndexIn, MarkConfirmed, WellFormed, Evolves, EverybodyConfirmed, ConfirmationOf, SameKeyed, Fit;
    var d := ds[0];
    assert RightConfirmation(su, s, s.key, d);
    MarkMoves(su, s, d);
    MarkFacts(su, s, d);
    MarkZombies(su, s, d);
    var t := MarkConfirmed(su, s, d);
    EvolvesFit(s, t);
    hide StillToConfirm;
    if t.phase != InSession {
      StillLess(su, s, t, ds);
    }
  }

  lemma StillLess(su: Suite, s: Sess, t: Sess, ds: seq<Delivery>)
    requires ds != [] && StillToConfirm(su, s, ds) && SameKeyed(s, t) && t.phase == GroupKeyGenerated
    requires WellFormed(s) && ds[0].sender in s.roster && !EverybodyConfirmed(t)
    requires t.confirmed == s.confirmed[IndexIn(s, ds[0].sender) := true]
    ensures StillToConfirm(su, t, ds[1..]) && ds[1..] != []
  {
    hide IndexIn, WellFormed, EverybodyConfirmed, SameKeyed, RightConfirmation;
    KeyedAlike(su, s, t);
    assert forall i :: 0 <= i < |ds| - 1 ==> ds[1..][i] == ds[i + 1];
    forall l | l in t.roster
      ensures t.confirmed[IndexIn(t, l)] || exists i :: 0 <= i < |ds[1..]| && ds[1..][i].sender == l
    {
      if i :| 0 < i < |ds| && ds[i].sender == l {
        assert ds[1..][i - 1].sender == l;
      }
    }
    EverybodyMarked(t);
  }

  lemma MessageMarks(su: Suite, r: RoomState, k: Identity, d: Delivery, order: Ordering, world: Surroundings)
    requires Current(r) && Enumerates(order) && k in r.universe && WellFormed(r.universe[k]) && r.active != Some(k)
    requires r.universe[k].phase == GroupKeyGenerated && FromMember(r.universe[k], d) && IsConfirmation(d.packet)
    requires d.packet.sid == k
    ensures var t := MarkConfirmed(su, r.universe[k], d);
      && FitAll(Put(r, k, t).universe)
      && React(su, r, Message(d, world), order)
         == (if t.phase == InSession then Activate(su, Put(r, k, t), k, order(Put(r, k, t).universe.Keys), world)
             else Settled(Put(r, k, t)))
  {
    hide Fit, FitAll, WellFormed, Handle, MarkConfirmed, Activate, Enumerates, HandleCurrent;
    MarkHandled(su, r.universe[k], d, world);
    OwnDispatched(su, r, d, world);
    DispatchedNothing(r, k, MarkConfirmed(su, r.universe[k], d));
    HandleCurrentFit(su, r, d, world);
  }

  lemma PutTwice(r: RoomState, k: Identity, s: Sess, t: Sess)
    ensures Put(Put(r, k, s), k, t) == Put(r, k, t) && Put(r, k, s).universe[k] == s && k in Put(r, k, s).universe
    ensures Current(r) && FitAll(Put(r, k, s).universe) ==> Current(Put(r, k, s))
    ensures Current(r) && k in r.universe ==> FitAll(r.universe) && Fit(r.universe[k])
  {
    hide Fit;
  }

  lemma ConfirmableParts(su: Suite, r: RoomState, k: Identity, ds: seq<Delivery>)
    ensures Confirmable(su, r, k, ds) ==>
      && k in r.universe && r.universe[k].sid == k && r.active != Some(k) && StillToConfirm(su, r.universe[k], ds)
      && ds != [] && ds[0].packet.Signed? && ds[0].packet.sid == k && r.universe[k].phase == GroupKeyGenerated
    ensures Confirmable(su, r, k, ds) ==>
      forall t: Sess :: t.sid == k && ds[1..] != [] && StillToConfirm(su, t, ds[1..]) ==>
        Confirmable(su, Put(r, k, t), k, ds[1..])
  {
    hide IndexIn, RightConfirmation, WellFormed;
    assert ds != [] ==> forall i :: 0 <= i < |ds[1..]| ==> ds[1..][i] == ds[i + 1];
  }

  lemma MarkedThrough(s: Sess, t: Sess, u: Sess)
    requires MarkedOnly(s, t) && MarkedOnly(t, u)
    ensures MarkedOnly(s, u)
  {
    hide Evolves, Fit;
    EvolvesTransitive(s, t, u);
  }

  lemma OrderInside(order: Ordering, u: Universe)
    requires Enumerates(order)
    ensures forall k :: k in order(u.Keys) ==> k in u
    ensures forall r, d, world :: Timely(r, Message(d, world))
  {}

  /** Once a session holds a key, its members' right confirmations lead to its activation, whatever the room thinks of
      it; and where the activation stops, the run ends. */
  lemma {:induction false} ConfirmationsReachActivation(su: Suite, r: RoomState, k: Identity, ds: seq<Delivery>,
                                                        order: Ordering, world: Surroundings) returns (t: Sess)
    requires Current(r) && Enumerates(order) && Confirmable(su, r, k, ds)
    ensures MarkedOnly(r.universe[k], t) && t.phase == InSession && FitAll(Put(r, k, t).universe)
    ensures var v := Activate(su, Put(r, k, t), k, order(Put(r, k, t).universe.Keys), world);
      !v.Settled? ==> Runs(su, r, Messages(ds, world), order, v)
    decreases |ds|
  {
    hide *;
    ConfirmableParts(su, r, k, ds);
    var s, d := r.universe[k], ds[0];
    PutTwice(r, k, s, s);
    OneMarked(su, s, ds);
    MessageMarks(su, r, k, d, order, world);
    MessagesStart(ds, world);
    var u := MarkConfirmed(su, s, d);
    OrderInside(order, Put(r, k, u).universe);
    PutTwice(r, k, u, u);
    MarkedParts(s, u);
    if u.phase == InSession {
      t := u;
      RunsStep(su, r, Messages(ds, world), order, Settled(r));
    } else {
      t := ConfirmationsReachActivation(su, Put(r, k, u), k, ds[1..], order, world);
      PutTwice(r, k, u, t);
      MarkedThrough(s, u, t);
      OrderInside(order, Put(r, k, t).universe);
      RunsStep(su, r, Messages(ds, world), order,
               Activate(su, Put(r, k, t), k, order(Put(r, k, t).universe.Keys), world));
    }
  }

  lemma MarkedParts(s: Sess, t: Sess)
    requires MarkedOnly(s, t)
    ensures Evolves(s, t) && t.zombies == s.zombies && Fit(t) && t.sid == s.sid
  {}

  // ---------- a key left over from the first activation ----------

  /** When another session holds a key at the first activation, the failing case of FirstActivationIff, its own
      confirmations stop the room at the assertion that only the heir is activated. */
  lemma StrandedKeyHalts(su: Suite, r: RoomState, sid: Identity, first: seq<Identity>, k: Identity, ds: seq<Delivery>,
                         order: Ordering, world: Surroundings)
    requires Waiting(r) && sid in r.universe && r.universe[sid].phase == InSession && Orders(first, r.universe)
    requires k != sid && Enumerates(order) && FitAll(r.universe) && Confirmable(su, r, k, ds)
    ensures Activate(su, r, sid, first, world).Settled?
    ensures var activated := Activate(su, r, sid, first, world).room;
      FitAll(activated.universe) && Runs(su, activated, Messages(ds, world), order, Halted(IllegitimateActivation))
  {
    hide Fit, FitAll, Runs, WellFormed, StillToConfirm, Waiting, Orders, Enumerates, Messages, MarkedOnly, Activate;
    var activated := r.(joining := false, next := Some(sid), active := Some(sid));
    FirstActivationIff(su, r, sid, first, world);
    var t := ConfirmationsReachActivation(su, activated, k, ds, order, world);
    EnumeratesOrders(order, Put(activated, k, t).universe);
    OrderInside(order, Put(activated, k, t).universe);
    NonHeirActivationHalts(su, Put(activated, k, t), k, order(Put(activated, k, t).universe.Keys), world);
  }

  // ---------- an overcrowded room ----------

  /** In a governed room that is overcrowded for its heir, the heir's confirmations stop it. */
  lemma OvercrowdedStops(su: Suite, r: RoomState, ds: seq<Delivery>, order: Ordering, world: Surroundings)
    requires Governed(r) && Enumerates(order) && r.next.value in r.universe && Overcrowded(r, r.next.value)
    requires Confirmable(su, r, r.next.value, ds)
    ensures FitAll(r.universe)
    ensures Runs(su, r, Messages(ds, world), order, Halted(InSessionCode(SecondAddition)))
  {
    hide Governed, FitAll, Activate, Runs, Overcrowded, StillToConfirm, Evolves, Fit, Enumerates, Put, MarkedOnly,
      Messages;
    GovernedFits(r);
    GovernedChair(r);
    var k := r.next.value;
    ConfirmableParts(su, r, k, ds);
    var t := ConfirmationsReachActivation(su, r, k, ds, order, world);
    MarkedParts(r.universe[k], t);
    PutConfirmed(r, k, t);
    OvercrowdedAlike(r, k, t);
    PutCrowns(r, k, t);
    EnumeratesOrders(order, Put(r, k, t).universe);
    ActivationCleans(su, Put(r, k, t), k, order(Put(r, k, t).universe.Keys), world);
  }

  lemma PutCrowns(r: RoomState, k: Identity, t: Sess)
    requires GovernedBut(Put(r, k, t), k) && r.next == Some(k) && t.phase == InSession && r.active != Some(k)
    ensures Crowned(Put(r, k, t), k)
  {
    hide GovernedBut;
  }

  // ---------- three leaves ----------

  function Without(s: Sess, leaver: Nick): Sess
    requires leaver in s.roster
  {
    s.(zombies := s.zombies[leaver := s.roster[leaver]])
  }

  /** A member that has not left, other than the owner. */
  ghost predicate MayLeave(s: Sess, k: Nick) {
    k in s.roster && k !in s.zombies && k != s.me.nickname
  }

  /** A session in session out of which a leave breeds: its owner is live and has a next key. */
  ghost predicate Breeds(s: Sess) {
    s.future.Some? && s.me.nickname in FutureRoster(s) && Ready(s)
  }

  lemma WithoutBreeds(s: Sess, leaver: Nick)
    requires Breeds(s) && MayLeave(s, leaver)
    ensures Breeds(Without(s, leaver)) && FutureRoster(Without(s, leaver)) == FutureRoster(s) - {leaver}
    ensures leaver in FutureRoster(s) && s.me.nickname in FutureRoster(s) - {leaver}
    ensures forall k :: MayLeave(s, k) && k != leaver ==>
      MayLeave(Without(s, leaver), k) && k in FutureRoster(s) - {leaver}
  {
    hide FutureRoster;
    ShedMembers(s, leaver);
    LiveMembers(s);
  }

  lemma LiveMembers(s: Sess)
    ensures forall k :: k in s.roster && k !in s.zombies ==> k in FutureRoster(s)
  {
    assert forall k :: k in s.roster && k !in s.zombies ==> k in Minus(s.roster, s.zombies);
  }

  lemma WithoutFit(s: Sess, leaver: Nick)
    requires Fit(s) && MayLeave(s, leaver)
    ensures Fit(Without(s, leaver)) && WellFormed(Without(s, leaver)) && leaver in s.sid
    ensures Without(s, leaver).sid == s.sid && Without(s, leaver).phase == s.phase
  {
    hide Pedigreed, Evolves;
    AsideEvolves(s, Without(s, leaver));
    EvolvesFit(s, Without(s, leaver));
  }

  /** The heir a leave breeds. */
  ghost predicate LeaveBred(s: Sess, heir: Sess) {
    && Bred(heir) && heir.parental == map[] && heir.sid == IdentityOf(FutureRoster(s)) && heir.me == s.me
    && heir.roster.Keys == heir.sid.Keys == FutureRoster(s).Keys && Ready(heir)
  }

  /** The room once a leave has bred an heir. */
  function Vacated(r: RoomState, k: Identity, s: Sess, heir: Sess): RoomState {
    Presume(Put(Put(r, k, s), heir.sid, heir), heir.sid)
  }

  lemma LeaveShape(su: Suite, r: RoomState, leaver: Nick, world: Surroundings) returns (heir: Sess)
    requires FitAll(r.universe) && !r.joining && r.active.Some? && r.active.value in r.universe
    requires MayLeave(r.universe[r.active.value], leaver) && Breeds(r.universe[r.active.value])
    ensures var s := Without(r.universe[r.active.value], leaver);
      LeaveBred(s, heir) && ShrinkRoom(su, r, leaver, world) == Settled(Vacated(r, r.active.value, s, heir))
  {
    hide Fit, Conceive, FutureRoster, Presume, WellFormed, Bred, Ready, IdentityOf;
    FitMeansWellFormed(r.universe);
    var s := Without(r.universe[r.active.value], leaver);
    WithoutBreeds(r.universe[r.active.value], leaver);
    WithoutFit(r.universe[r.active.value], leaver);
    FutureRosterConsistent(s);
    PeerBornIff(su, s.me, s.future, FutureRoster(s), world);
    ConceiveBreeds(su, Peer, s.me, s.future, FutureRoster(s), map[], None, world);
    PeerChildBornReady(su, s, world);
    heir := Conceive(su, Peer, s.me, s.future, FutureRoster(s), map[], None, world).child;
    BredFaces(heir);
  }

  /** What a leave does to the sessions: the active one has one zombie more, the heir is new, and everybody else is
      staled as it may be. */
  lemma VacatedParts(r: RoomState, k: Identity, s: Sess, heir: Sess)
    requires k in r.universe && s.sid == k && s.phase == InSession && heir.sid != k && heir.phase == ReShared
    ensures var after := Vacated(r, k, s, heir);
      && after.active == r.active && after.next == Some(heir.sid) && after.me == r.me
      && k in after.universe && after.universe[k] == s
      && heir.sid in after.universe && after.universe[heir.sid] == heir
      && forall l :: l in r.universe && l != k && l != heir.sid ==>
           l in after.universe && after.universe[l] == Staled(r.universe[l], heir.sid)
  {}

  /** A session bred by a leave with these members, waiting or staled. */
  ghost predicate LeftBehind(r: RoomState, l: Identity, members: set<Nick>) {
    && l in r.universe && r.universe[l].sid == l && r.universe[l].parental == map[]
    && r.universe[l].roster.Keys == members && l.Keys == members && r.universe[l].phase in {ReShared, Stale}
  }

  lemma StaysBehind(r: RoomState, after: RoomState, heir: Identity, l: Identity, members: set<Nick>)
    requires LeftBehind(r, l, members) && l in after.universe && after.universe[l] == Staled(r.universe[l], heir)
    ensures LeftBehind(after, l, members) && l.Keys == members
  {}

  /** One leave: the room is governed by the same active session with one member less, and the heir waits. */
  lemma OneLeave(su: Suite, r: RoomState, leaver: Nick, order: Ordering, world: Surroundings) returns (after: RoomState)
    requires Governed(r) && Enumerates(order)
    requires MayLeave(r.universe[r.active.value], leaver) && Breeds(r.universe[r.active.value])
    ensures FitAll(r.universe) && FitAll(after.universe) && Runs(su, r, [Leave(leaver, world)], order, Settled(after))
    ensures Governed(after) && after.active == r.active && after.me == r.me
    ensures var s := r.universe[r.active.value];
      && after.universe[after.active.value] == Without(s, leaver) && Breeds(Without(s, leaver))
      && LeaveBred(Without(s, leaver), after.universe[after.next.value])
      && LeftBehind(after, after.next.value, FutureRoster(s).Keys - {leaver})
    ensures forall l, members :: LeftBehind(r, l, members) && leaver in members && l != r.active.value ==>
      LeftBehind(after, l, members)
    ensures after.next.value != after.active.value
  {
    hide Governed, Fit, FitAll, Vacated, FutureRoster, Breeds, Enumerates, ShrinkRoom, Runs, LeftBehind, IdentityOf,
      Ready, WellFormed, Without, React, Bred;
    GovernedChair(r);
    GovernedFits(r);
    var k := r.active.value;
    var s := Without(r.universe[k], leaver);
    SeatedPhase(r, k);
    ShrinkKeeps(su, r, leaver, world);
    WithoutBreeds(r.universe[k], leaver);
    var heir := LeaveShape(su, r, leaver, world);
    BredFaces(heir);
    after := Vacated(r, k, s, heir);
    WithoutFit(r.universe[k], leaver);
    VacatedParts(r, k, s, heir);
    GovernedFits(after);
    HeirBehind(after, heir);
    forall l, members | LeftBehind(r, l, members) && leaver in members && l != k ensures LeftBehind(after, l, members) {
      BehindKeys(r, l, members);
      StaysBehind(r, after, heir.sid, l, members);
    }
    RunsStep(su, r, [Leave(leaver, world)], order, Settled(after));
  }

  lemma BehindKeys(r: RoomState, l: Identity, members: set<Nick>)
    requires LeftBehind(r, l, members)
    ensures l.Keys == members && l in r.universe
  {}

  lemma HeirBehind(r: RoomState, heir: Sess)
    requires heir.sid in r.universe && r.universe[heir.sid] == heir && heir.parental == map[] && heir.phase == ReShared
    requires heir.sid.Keys == heir.roster.Keys
    ensures LeftBehind(r, heir.sid, heir.roster.Keys)
  {}

  /** The share that completes the heir: the heir holds a key, and everybody else is as it was. */
  lemma OneShare(su: Suite, r: RoomState, d: Delivery, order: Ordering, world: Surroundings) returns (after: RoomState)
    requires Governed(r) && Enumerates(order) && r.universe[r.next.value].phase == ReShared
    requires Ready(r.universe[r.next.value]) && FromMember(r.universe[r.next.value], d)
    requires d.packet.content.GroupShare? && d.packet.sid == r.next.value
    ensures FitAll(r.universe) && FitAll(after.universe) && Runs(su, r, [Message(d, world)], order, Settled(after))
    ensures Governed(after) && after.next == r.next && after.me == r.me
    ensures after.universe[after.next.value].roster.Keys == r.universe[r.next.value].roster.Keys
    ensures after.universe[after.next.value].phase == GroupKeyGenerated
    ensures forall l, members :: LeftBehind(r, l, members) && l != r.next.value ==> LeftBehind(after, l, members)
  {
    hide Governed, Fit, FitAll, Ready, Enumerates, Presume, Runs, LeftBehind, Handle, HandleCurrent, HandleFits,
      WellFormed, Evolves, React;
    GovernedChair(r);
    GovernedFits(r);
    var k := r.next.value;
    SeatedPhase(r, k);
    FitWellFormed(r.universe[k]);
    HandleStaysFit(su, r.universe[k], d, world);
    ReadyShare(su, r.universe[k], d, world);
    var t := Handle(su, r.universe[k], d, world).sess;
    NewHeirKeeps(r, k, t);
    after := Presume(Put(r, k, t), k);
    OwnDispatched(su, r, d, world);
    PresumedParts(r, k, t);
    GovernedFits(after);
    ReactQuiet(su, r, d, after, order, world);
    OrderInside(order, r.universe);
    RunsStep(su, r, [Message(d, world)], order, Settled(after));
    forall l, members | LeftBehind(r, l, members) && l != k ensures LeftBehind(after, l, members) {
      BehindKeys(r, l, members);
      StaysBehind(r, after, k, l, members);
    }
  }

  lemma ReadyShare(su: Suite, s: Sess, d: Delivery, world: Surroundings)
    requires WellFormed(s) && s.phase == ReShared && Ready(s) && FromMember(s, d) && d.packet.content.GroupShare?
    ensures var outcome := Handle(su, s, d, world);
      && outcome.Done? && outcome.action == PresumeHeir && outcome.sess.phase == GroupKeyGenerated
      && outcome.sess.roster.Keys == s.roster.Keys
  {
    hide Handle, SessionKey, ConfirmationOf, WellFormed, Evolves;
    ConfirmAuthOnShare(su, s, d, world);
    ConfirmIfReadyFacts(su, WithShare(s, d.sender, d.packet.content.share), world);
  }

  lemma PresumedParts(r: RoomState, k: Identity, t: Sess)
    requires k in r.universe && t.sid == k && t.phase == GroupKeyGenerated
    ensures var after := Presume(Put(r, k, t), k);
      && after.active == r.active && after.next == Some(k) && after.me == r.me && k in after.universe
      && after.universe[k] == t
      && (forall l :: l in r.universe && l != k ==>
            l in after.universe && after.universe[l] == Staled(r.universe[l], k))
    ensures Dispatched(r, k, Done(t, PresumeHeir)) == Settled(Presume(Put(r, k, t), k))
  {}

  lemma ReactQuiet(su: Suite, r: RoomState, d: Delivery, after: RoomState, order: Ordering, world: Surroundings)
    requires FitAll(r.universe) && Enumerates(order) && !r.joining && HandleCurrent(su, r, d, world) == Settled(after)
    requires d.packet.Signed? && d.packet.sid in after.universe && after.universe[d.packet.sid].phase != InSession
    ensures React(su, r, Message(d, world), order) == Settled(after)
  {
    hide FitAll, Enumerates, HandleCurrent, Activate;
  }

  /** A session left behind two of whose members are not in the heir crowds it. */
  lemma BehindCrowds(r: RoomState, l: Identity, members: set<Nick>, b: Nick, c: Nick)
    requires Governed(r) && LeftBehind(r, l, members) && l != r.next.value && r.me.nickname in members
    requires b in members && c in members && b != c
    requires b !in r.universe[r.next.value].roster && c !in r.universe[r.next.value].roster
    ensures r.next.value in r.universe && Overcrowded(r, r.next.value)
  {
    hide Governed, FutureRoster, Crowded;
    GovernedChair(r);
    var s, heir := r.universe[l], r.universe[r.next.value];
    ParentlessCrowdedIff(r.me, s, heir);
    FutureShares(heir);
    assert b in Minus(s.roster, FutureRoster(heir)) && c in Minus(s.roster, FutureRoster(heir));
    assert InLimbo(s, r.next.value) && Crowded(r.me, s, heir);
  }

  /** The rooms after one, two and three leaves; the first successor is left behind. */
  lemma ThreeLeft(su: Suite, r: RoomState, a: Nick, b: Nick, c: Nick, order: Ordering, world: Surroundings)
    returns (first: Identity, left: RoomState)
    requires Governed(r) && Enumerates(order) && a != b && a != c && b != c
    requires var s := r.universe[r.active.value]; Breeds(s) && MayLeave(s, a) && MayLeave(s, b) && MayLeave(s, c)
    ensures FitAll(r.universe) && FitAll(left.universe) && Governed(left) && left.me == r.me
    ensures Runs(su, r, [Leave(a, world), Leave(b, world), Leave(c, world)], order, Settled(left))
    ensures var (s, heir) := (r.universe[r.active.value], left.universe[left.next.value]);
      && LeftBehind(left, first, FutureRoster(s).Keys - {a})
      && b in FutureRoster(s).Keys - {a} && c in FutureRoster(s).Keys - {a}
      && s.me.nickname in FutureRoster(s).Keys - {a}
      && Bred(heir) && Ready(heir) && heir.sid == left.next.value == IdentityOf(FutureRoster(s) - {a, b, c})
      && heir.roster.Keys == heir.sid.Keys == FutureRoster(s).Keys - {a, b, c}
  {
    hide Governed, FitAll, Runs, LeftBehind, Enumerates, Breeds, FutureRoster, Without, IdentityOf, Bred, Ready, Fit;
    GovernedChair(r);
    var s := r.universe[r.active.value];
    var members := FutureRoster(s).Keys - {a};
    WithoutBreeds(s, a);
    WithoutBreeds(Without(s, a), b);
    WithoutBreeds(Without(Without(s, a), b), c);
    RemoveThree(FutureRoster(s), a, b, c);
    var r1 := OneLeave(su, r, a, order, world);
    GovernedChair(r1);
    first := r1.next.value;
    var r2 := OneLeave(su, r1, b, order, world);
    GovernedChair(r2);
    left := OneLeave(su, r2, c, order, world);
    GovernedChair(left);
    SeatedPhase(left, left.next.value);
    RunsThrice(su, r, Leave(a, world), r1, Leave(b, world), r2, Leave(c, world), left, order);
  }

  lemma RemoveThree(live: Roster, a: Nick, b: Nick, c: Nick)
    ensures live - {a} - {b} - {c} == live - {a, b, c}
  {}

  lemma RunsThrice(su: Suite, r: RoomState, a: RoomEvent, r1: RoomState, b: RoomEvent, r2: RoomState, c: RoomEvent,
                   r3: RoomState, order: Ordering)
    requires FitAll(r.universe) && FitAll(r1.universe) && FitAll(r2.universe) && Enumerates(order)
    requires Runs(su, r, [a], order, Settled(r1)) && Runs(su, r1, [b], order, Settled(r2))
    requires Runs(su, r2, [c], order, Settled(r3))
    ensures Runs(su, r, [a, b, c], order, Settled(r3))
  {
    hide FitAll, Enumerates, Runs;
    RunsOn(su, r, [a], r1, [b], order, Settled(r2));
    RunsOn(su, r, [a] + [b], r2, [c], order, Settled(r3));
    assert [a] + [b] + [c] == [a, b, c];
  }

  /** Three members who leave one after the other stop a governed room, although nobody has done anything wrong: once
      the third successor has its key, which takes one share, its members' confirmations end the run in the assertion
      "one addition at a time", on behalf of the first successor, which wants the two later leavers back. */
  lemma ThreeLeavesStop(su: Suite, r: RoomState, a: Nick, b: Nick, c: Nick, share: Delivery, order: Ordering,
                        world: Surroundings) returns (keyed: RoomState)
    requires Governed(r) && Enumerates(order) && a != b && a != c && b != c
    requires var s := r.universe[r.active.value];
      && Breeds(s) && s.me.nickname == r.me.nickname && MayLeave(s, a) && MayLeave(s, b) && MayLeave(s, c)
      && share.packet.Signed? && share.packet.content.GroupShare?
      && share.packet.sid == IdentityOf(FutureRoster(s)) - {a, b, c}
      && share.sender in share.packet.sid && share.packet.signer == share.packet.sid[share.sender].ephemeral
    ensures FitAll(r.universe) && FitAll(keyed.universe)
    ensures Governed(keyed) && keyed.next.Some? && keyed.next.value in keyed.universe
    ensures keyed.universe[keyed.next.value].phase == GroupKeyGenerated
    ensures var events := [Leave(a, world), Leave(b, world), Leave(c, world), Message(share, world)];
      && Runs(su, r, events, order, Settled(keyed))
      && forall ds :: Confirmable(su, keyed, keyed.next.value, ds) ==>
           Runs(su, r, events + Messages(ds, world), order, Halted(InSessionCode(SecondAddition)))
  {
    hide Governed, Fit, FitAll, Runs, LeftBehind, Enumerates, Breeds, FutureRoster, Confirmable, Overcrowded, Ready,
      FromMember, Messages, IdentityOf, Bred, MayLeave;
    GovernedChair(r);
    var s := r.universe[r.active.value];
    var members := FutureRoster(s).Keys - {a};
    var first, left := ThreeLeft(su, r, a, b, c, order, world);
    GovernedChair(left);
    SpeaksInHeir(left.universe[left.next.value], FutureRoster(s), {a, b, c}, share);
    keyed := OneShare(su, left, share, order, world);
    GovernedChair(keyed);
    BehindKeys(left, first, members);
    BehindCrowds(keyed, first, members, b, c);
    var leaves := [Leave(a, world), Leave(b, world), Leave(c, world)];
    RunsOn(su, r, leaves, left, [Message(share, world)], order, Settled(keyed));
    var events := [Leave(a, world), Leave(b, world), Leave(c, world), Message(share, world)];
    assert leaves + [Message(share, world)] == events;
    forall ds | Confirmable(su, keyed, keyed.next.value, ds)
      ensures Runs(su, r, events + Messages(ds, world), order, Halted(InSessionCode(SecondAddition)))
    {
      OvercrowdedStops(su, keyed, ds, order, world);
      RunsOn(su, r, events, keyed, Messages(ds, world), order, Halted(InSessionCode(SecondAddition)));
    }
  }

  lemma SpeaksInHeir(heir: Sess, live: Roster, gone: set<Nick>, d: Delivery)
    requires Bred(heir) && d.packet.Signed? && heir.sid == IdentityOf(live - gone)
    requires d.packet.sid == IdentityOf(live) - gone
    requires d.sender in d.packet.sid && d.packet.signer == d.packet.sid[d.sender].ephemeral
    ensures FromMember(heir, d) && heir.phase == ReShared && heir.sid == d.packet.sid
  {
    hide Pedigreed;
    assert IdentityOf(live - gone) == IdentityOf(live) - gone;
    BredFaces(heir);
  }

  // ---------- a room of four ----------

  const OWNER: Nick := [97]
  const FIRST: Nick := [98]
  const SECOND: Nick := [99]
  const THIRD: Nick := [100]

  function Four(): (roster: Roster)
    ensures roster.Keys == {OWNER, FIRST, SECOND, THIRD} && Consistent(roster)
  {
    map[OWNER := Participant(ParticipantId(OWNER, ZERO), ZERO, ZERO, ZERO, true, true, true),
        FIRST := Participant(ParticipantId(FIRST, ZERO), ZERO, ZERO, ZERO, true, true, true),
        SECOND := Participant(ParticipantId(SECOND, ZERO), ZERO, ZERO, ZERO, true, true, true),
        THIRD := Participant(ParticipantId(THIRD, ZERO), ZERO, ZERO, ZERO, true, true, true)]
  }

  function SessionOfFour(): Sess {
    Sess(ParticipantId(OWNER, ZERO), ZERO, Some(ZERO), Four(), map[], map[], [true, true, true, true],
         IdentityOf(Four()), InSession, ZERO, [])
  }

  lemma FourMembers()
    ensures OWNER != FIRST && OWNER != SECOND && OWNER != THIRD && FIRST != SECOND && FIRST != THIRD && SECOND != THIRD
    ensures |Four()| == 4 && Consistent(Four())
    ensures forall k :: k in Four() ==> Four()[k].authenticated && Four()[k].contributed && Four()[k].future == ZERO
  {
    assert OWNER[0] == 97 && FIRST[0] == 98 && SECOND[0] == 99 && THIRD[0] == 100;
    assert |Four()| == |Four().Keys| == 4;
  }

  lemma FourFacts()
    ensures var s := SessionOfFour();
      && Fit(s) && s.sid == IdentityOf(s.roster) && s.phase == InSession && s.me.nickname == OWNER && Breeds(s)
      && MayLeave(s, FIRST) && MayLeave(s, SECOND) && MayLeave(s, THIRD)
      && OWNER in FutureRoster(s) && FutureRoster(s)[OWNER].ephemeral == ZERO
    ensures OWNER != FIRST && OWNER != SECOND && OWNER != THIRD && FIRST != SECOND && FIRST != THIRD && SECOND != THIRD
  {
    hide FutureRoster, Minus, IdentityOf, Delta, Four;
    FourMembers();
    LiveMembers(SessionOfFour());
  }

  /** A session with a key can always be confirmed. */
  lemma ConfirmationsExist(su: Suite, r: RoomState, k: Identity) returns (ds: seq<Delivery>)
    requires k in r.universe && r.universe[k].sid == k && r.active != Some(k) && WellFormed(r.universe[k])
    requires r.universe[k].phase == GroupKeyGenerated
    ensures Confirmable(su, r, k, ds)
  {
    hide ConfirmationOf, Sorted;
    var s := r.universe[k];
    ds := seq(|s.roster|, i requires 0 <= i < |s.roster| =>
                var l := Peers(s)[i];
                Delivery(l, Signed(s.roster[l].ephemeral, k, SessionConfirmation(ConfirmationOf(su, s.key, l), ZERO))));
    forall i | 0 <= i < |ds| ensures RightConfirmation(su, s, s.key, ds[i]) {
      assert Peers(s)[i] in Peers(s);
    }
    forall l | l in s.roster ensures exists i :: 0 <= i < |ds| && ds[i].sender == l {
      PeerOfIndex(s, l);
      assert ds[IndexIn(s, l)].sender == l;
    }
  }

  lemma FaceOf(live: Roster, k: Nick)
    requires k in live
    ensures k in IdentityOf(live) && IdentityOf(live)[k].ephemeral == live[k].ephemeral
  {}

  /** It does happen: with any primitives a room activates its first session, of four members, and is governed; three
      of them leave, the next session gets its share and its confirmation, and the run ends in the assertion. */
  lemma FourMembersStop(su: Suite, order: Ordering, world: Surroundings)
    returns (w: RoomState, r: RoomState, events: seq<RoomEvent>)
    requires Enumerates(order)
    ensures Waiting(w) && FitAll(w.universe) && w.universe.Keys == {SessionOfFour().sid}
    ensures Activate(su, w, SessionOfFour().sid, [SessionOfFour().sid], world) == Settled(r) && Governed(r)
    ensures FitAll(r.universe) && Runs(su, r, events, order, Halted(InSessionCode(SecondAddition)))
  {
    hide Fit, Breeds, MayLeave, FutureRoster, IdentityOf, Runs, Enumerates, Governed, Activate, WellFormed, Messages,
      Four, Confirmable;
    FourFacts();
    var s := SessionOfFour();
    w := RoomState(s.me, ZERO, map[s.sid := s], None, None, true);
    FirstActivationIff(su, w, s.sid, [s.sid], world);
    r := Activate(su, w, s.sid, [s.sid], world).room;
    GovernedFits(r);
    var share := Delivery(OWNER, Signed(ZERO, IdentityOf(FutureRoster(s)) - {FIRST, SECOND, THIRD}, GroupShare(ZERO)));
    assert OWNER in share.packet.sid && share.packet.sid[OWNER].ephemeral == ZERO by { FaceOf(FutureRoster(s), OWNER); }
    var keyed := ThreeLeavesStop(su, r, FIRST, SECOND, THIRD, share, order, world);
    SeatedPhase(keyed, keyed.next.value);
    GovernedChair(keyed);
    FitWellFormed(keyed.universe[keyed.next.value]);
    var ds := ConfirmationsExist(su, keyed, keyed.next.value);
    events := [Leave(FIRST, world), Leave(SECOND, world), Leave(THIRD, world), Message(share, world)]
      + Messages(ds, world);
  }
}
