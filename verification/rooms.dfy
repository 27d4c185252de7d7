/** The room as a scheduler of sessions: the values behind the Room class. A session id stands for the members
    and keys it is computed from. */
module Rooms {
  import opened Bytes
  import opened Crypto
  import opened Participants
  import opened Sessions
  import opened SessionInvariants
  import opened SessionActions

  type Universe = map<Identity, Sess>

  /** The order in which a map of sessions is visited. */
  type Ordering = set<Identity> -> seq<Identity>

  datatype RoomState = RoomState(
    me: ParticipantId,
    key: Block,
    universe: Universe,
    active: Option<Identity>,
    next: Option<Identity>,
    joining: bool)

  /** Failed runtime assertions: the room's own, and those of the session code it calls. */
  datatype Halt =
    | NoActiveSession | NoHeir | IllegitimateActivation | NoParent | DeadParent | DeadNewcomer | OddShrink
    | InSessionCode(cause: Cause)

  datatype Verdict = Settled(room: RoomState) | Escaped(left: RoomState, error: Error) | Halted(halt: Halt)

  ghost predicate FitAll(u: Universe) {
    forall k :: k in u ==> Fit(u[k])
  }

  function Put(r: RoomState, k: Identity, s: Sess): RoomState {
    r.(universe := r.universe[k := s])
  }

  /** Insertion never overwrites. */
  function Insert(r: RoomState, s: Sess): RoomState {
    if s.sid in r.universe then r else Put(r, s.sid, s)
  }

  function Killed(s: Sess): Sess {
    s.(phase := Dead)
  }

  // ---------- the heir ----------

  predicate InLimbo(s: Sess, id: Identity) {
    s.phase != Dead && s.phase != InSession && s.sid != id
  }

  function Staled(s: Sess, heir: Identity): Sess {
    if InLimbo(s, heir) then s.(phase := Stale) else s
  }

  /** `stale_in_limbo_sessions_presume_heir`. */
  function Presume(r: RoomState, heir: Identity): RoomState {
    r.(next := Some(heir), universe := map k | k in r.universe :: Staled(r.universe[k], heir))
  }

  /** What the room does with the action of the session that handled the message. */
  function Act(r: RoomState, action: Action, actor: Sess): RoomState {
    match action
    case NoAction => r
    case NewSession(child) => Insert(r, child)
    case NewPrioritySession(heir) => Presume(Insert(r, heir), heir.sid)
    case PresumeHeir => Presume(r, actor.sid)
  }

  // ---------- activation ----------

  /** The members of the session that replaces a session in limbo. */
  function Reparented(s: Sess, parent: Sess): Roster {
    Plus(Delta(s), FutureRoster(parent))
  }

  lemma ReparentedConsistent(s: Sess, parent: Sess)
    requires WellFormed(s) && WellFormed(parent)
    ensures Consistent(Reparented(s, parent)) && Consistent(FutureRoster(parent))
  {
    hide Minus, Plus;
    FutureRosterConsistent(parent);
  }

  function Rebirth(su: Suite, me: ParticipantId, s: Sess, parent: Sess, world: Surroundings): Birth
    requires WellFormed(s) && WellFormed(parent)
  {
    ReparentedConsistent(s, parent);
    hide WellFormed;
    Conceive(su, Acceptor, me, parent.future, Reparented(s, parent), FutureRoster(parent), None, world)
  }

  /** The sessions bred for the listed ones that are in limbo, the first of each id; nothing if an assertion of the
      session code stops it all. */
  function Refreshed(su: Suite, r: RoomState, parent: Identity, ids: seq<Identity>, world: Surroundings)
    : Option<Universe>
    requires parent in r.universe && WellFormed(r.universe[parent])
    requires forall k :: k in ids ==> k in r.universe && WellFormed(r.universe[k])
  {
    if ids == [] then Some(map[])
    else
      var before := Refreshed(su, r, parent, ids[..|ids| - 1], world);
      var last := ids[|ids| - 1];
      if before == None then None
      else if !InLimbo(r.universe[last], parent) then before
      else Rejoined(su, r.me, r.universe[last], r.universe[parent], before.value, world)
  }

  /** One more session refreshed. */
  function Rejoined(su: Suite, me: ParticipantId, s: Sess, parent: Sess, bred: Universe, world: Surroundings)
    : Option<Universe>
    requires WellFormed(s) && WellFormed(parent)
  {
    var birth := Rebirth(su, me, s, parent, world);
    var id := IdentityOf(Reparented(s, parent));
    if birth.Fatal? then None
    else if birth.Failed? || id in bred then Some(bred)
    else Some(bred[id := birth.child])
  }

  /** Those dead before are gone, those in limbo die. */
  function Survivors(u: Universe, parent: Identity): (v: Universe)
    ensures forall k :: k in v <==> k in u && u[k].phase != Dead
    ensures forall k :: k in v ==> v[k] == if InLimbo(u[k], parent) then Killed(u[k]) else u[k]
  {
    map k | k in u && u[k].phase != Dead :: if InLimbo(u[k], parent) then Killed(u[k]) else u[k]
  }

  /** `refresh_stale_in_limbo_sessions`. */
  function Refresh(su: Suite, r: RoomState, parent: Identity, order: seq<Identity>, world: Surroundings): Verdict
    requires FitAll(r.universe) && forall k :: k in order ==> k in r.universe
  {
    if parent !in r.universe then Halted(NoParent)
    else if r.universe[parent].phase == Dead then Halted(DeadParent)
    else
      hide WellFormed, IdentityOf;
      FitMeansWellFormed(r.universe);
      var bred := Refreshed(su, r, parent, order, world);
      if bred == None then Halted(InSessionCode(SecondAddition))
      else Settled(r.(universe := bred.value + Survivors(r.universe, parent)))
  }

  lemma FitMeansWellFormed(u: Universe)
    requires FitAll(u)
    ensures forall k :: k in u ==> WellFormed(u[k])
  {
    hide WellFormed, IdentityOf;
  }

  /** `activate_session`. */
  function Activate(su: Suite, r: RoomState, sid: Identity, order: seq<Identity>, world: Surroundings): Verdict
    requires FitAll(r.universe) && forall k :: k in order ==> k in r.universe
  {
    if r.active == None then Settled(r.(joining := false, next := Some(sid), active := Some(sid)))
    else if r.next != Some(sid) then Halted(IllegitimateActivation)
    else
      var refreshed := Refresh(su, r, sid, order, world);
      if !refreshed.Settled? then refreshed
      else if r.active.value !in refreshed.room.universe then Halted(NoActiveSession)
      else
        var dying := refreshed.room.universe[r.active.value];
        Settled(Put(refreshed.room, r.active.value, Killed(dying)).(active := Some(sid)))
  }

  // ---------- receiving ----------

  /** The session at k has handled a message. */
  function Dispatched(r: RoomState, k: Identity, outcome: Outcome): Verdict {
    match outcome
    case Died(cause) => Halted(InSessionCode(cause))
    case Threw(t, _) => Settled(Put(r, k, t))
    case Done(t, action) => Settled(Act(Put(r, k, t), action, t))
  }

  /** `receive_handler` of a current user, up to the activation. */
  function HandleCurrent(su: Suite, r: RoomState, d: Delivery, world: Surroundings): Verdict
    requires FitAll(r.universe)
  {
    hide WellFormed, IdentityOf;
    FitMeansWellFormed(r.universe);
    if r.active == None || r.active.value !in r.universe then Halted(NoActiveSession)
    else if d.packet.Signed? && d.packet.sid in r.universe then
      Dispatched(r, d.packet.sid, Handle(su, r.universe[d.packet.sid], d, world))
    else if d.packet.Signed? && !(IsInfo(d) && r.universe[r.active.value].phase != LeaveRequested) then Settled(r)
    else if r.next == None || r.next.value !in r.universe then Halted(NoHeir)
    else if d.packet.Signed? then Dispatched(r, r.next.value, InitWithPlist(su, r.universe[r.next.value], d, world))
    else Dispatched(r, r.next.value, Handle(su, r.universe[r.next.value], d, world))
  }

  /** A confirmation of somebody else's session kills every live session without any confirmation. */
  function Orphaned(u: Universe): Universe {
    map k | k in u :: if u[k].phase != Dead && NobodyConfirmed(u[k]) then Killed(u[k]) else u[k]
  }

  /** `receive_handler` of a joining user, up to the activation: exceptions of the session escape, its actions
      are ignored. */
  function HandleJoining(su: Suite, r: RoomState, d: Delivery, world: Surroundings): Verdict
    requires FitAll(r.universe)
  {
    hide WellFormed, IdentityOf;
    FitMeansWellFormed(r.universe);
    if !d.packet.Signed? then Settled(r)
    else if d.packet.sid in r.universe && r.universe[d.packet.sid].phase != Dead then
      match Handle(su, r.universe[d.packet.sid], d, world)
      case Died(cause) => Halted(InSessionCode(cause))
      case Threw(t, error) => Escaped(Put(r, d.packet.sid, t), error)
      case Done(t, _) => Settled(Put(r, d.packet.sid, t))
    else if IsInfo(d) then
      match Join(su, r.me, r.key, d, world)
      case Born(child) => Settled(Put(r, d.packet.sid, child))
      case Failed(_) => Settled(r)
      case Fatal(cause) => Halted(InSessionCode(cause))
    else if d.packet.content.SessionConfirmation? then Settled(r.(universe := Orphaned(r.universe)))
    else Settled(r)
  }

  /** Whether the message has brought its session, other than the active one, into session. */
  predicate Confirmed(r: RoomState, d: Delivery) {
    && d.packet.Signed? && d.packet.sid in r.universe && r.active != Some(d.packet.sid)
    && r.universe[d.packet.sid].phase == InSession
  }

  // ---------- leaving, timers ----------

  /** `try_rejoin` of a joining user. */
  function AllKilled(r: RoomState): RoomState {
    r.(universe := map k | k in r.universe :: Killed(r.universe[k]))
  }

  /** `shrink`: a successor without the leaver replaces whatever has its id and becomes the heir. */
  function ShrinkRoom(su: Suite, r: RoomState, leaver: Nick, world: Surroundings): Verdict
    requires FitAll(r.universe)
  {
    hide WellFormed, IdentityOf;
    FitMeansWellFormed(r.universe);
    if r.joining then Settled(AllKilled(r))
    else if r.active == None || r.active.value !in r.universe then Halted(NoActiveSession)
    else
      match Shrink(su, r.universe[r.active.value], leaver, world)
      case Died(cause) => Halted(InSessionCode(cause))
      case Threw(t, _) => Settled(Put(r, r.active.value, t))
      case Done(t, action) =>
        var shrunk := Put(r, r.active.value, t);
        if action.NewPrioritySession? then Settled(Presume(Put(shrunk, action.heir.sid, action.heir), action.heir.sid))
        else if action == NoAction then Settled(shrunk)
        else Halted(OddShrink)
  }

  /** `insert_session`: replaces a live session of the same id, but leaves a dead one in its place. */
  function InsertSession(r: RoomState, s: Sess): Verdict {
    if s.phase == Dead then Halted(DeadNewcomer)
    else if s.sid in r.universe && r.universe[s.sid].phase == Dead then Settled(r)
    else Settled(Put(r, s.sid, s))
  }

  /** The session timer of a session: a successor of the same live members with their next keys. */
  function Resession(su: Suite, r: RoomState, k: Identity, world: Surroundings): Verdict
    requires FitAll(r.universe) && k in r.universe
  {
    var s := r.universe[k];
    FutureRosterConsistent(s);
    match Conceive(su, Peer, s.me, s.future, FutureRoster(s), map[], None, world)
    case Born(child) => InsertSession(r, child)
    case Failed(_) => Settled(r)
    case Fatal(cause) => Halted(InSessionCode(cause))
  }

  /** The rejoin timer of a session that never got into session. */
  function RejoinTimeout(r: RoomState, k: Identity): RoomState
    requires k in r.universe
  {
    var r' := Put(r, k, Killed(r.universe[k]));
    if r.joining then AllKilled(r') else r'
  }
}
