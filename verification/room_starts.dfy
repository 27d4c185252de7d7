/** From a joining room to its first activation. */
module RoomStarts {
  import opened Bytes
  import opened Crypto
  import opened Participants
  import opened Sessions
  import opened SessionSteps
  import opened SessionInvariants
  import opened SessionBirths
  import opened SessionRuns
  import opened SessionActions
  import opened Rooms
  import opened RoomInvariants
  import opened RoomActivation
  import opened RoomRuns

  /** A joining room none of whose sessions is in session yet. */
  ghost predicate Joining(r: RoomState) {
    Waiting(r) && forall k :: k in r.universe ==> r.universe[k].phase != InSession
  }

  /** If the message is a view, it carries the id of its own list. */
  ghost predicate OwnList(e: RoomEvent) {
    e.Message? && IsInfo(e.d) ==> e.d.packet.sid == IdentityOf(ListToMap(e.d.packet.content.view))
  }

  /** The room waits, with at most this session in session. */
  ghost predicate WaitingFor(r: RoomState, sid: Identity) {
    Waiting(r) && forall k :: k in r.universe && k != sid ==> r.universe[k].phase != InSession
  }

  lemma PutWaits(r: RoomState, k: Identity, t: Sess)
    requires Joining(r) && Fit(t) && t.sid == k && t.phase !in {NoPhase, LeaveRequested}
    ensures WaitingFor(Put(r, k, t), k)
    ensures t.phase != InSession ==> Joining(Put(r, k, t))
  {
    hide Fit;
  }

  lemma EndedWaits(r: RoomState)
    requires Joining(r)
    ensures Joining(AllKilled(r)) && Joining(r.(universe := Orphaned(r.universe)))
    ensures forall k :: k in r.universe ==> Joining(Put(r, k, Killed(r.universe[k])))
  {
    hide Fit, NobodyConfirmed, Killed;
    forall k | k in r.universe
      ensures Fit(Killed(r.universe[k])) && Killed(r.universe[k]).sid == k && Killed(r.universe[k]).phase == Dead
    {
      KilledFits(r.universe[k]);
    }
  }

  /** A joiner's session waits under the id of its list, or has its key at once. */
  lemma JoinedWaits(su: Suite, me: ParticipantId, key: Block, d: Delivery, world: Surroundings)
    requires IsInfo(d) && Join(su, me, key, d, world).Born?
    ensures var child := Join(su, me, key, d, world).child;
      && Fit(child) && child.sid == IdentityOf(ListToMap(d.packet.content.view))
      && child.phase in {JoinRequested, GroupKeyGenerated}
  {
    hide Join, JoinSeed, Evolves, Genuine, WellFormed, ListToMap, Silent, IdentityOf, Invariant, JoinerSends, Fit,
      AuthAndReshare, Spoke, OwnShareAdded;
    JoinFit(su, me, key, d, world);
    JoinFacts(su, me, key, d, world);
    var seed, child := JoinSeed(me, key, d.packet.content.view), Join(su, me, key, d, world).child;
    JoinSeedFacts(me, key, d.packet.content.view);
    EvolvesSameOwner(seed, child);
    JoinIsMove(su, me, key, d, world);
    JoinerSendsFacts(su, seed);
    SpokeEvolves(seed, JoinerSends(su, seed));
    SenderKeyKept(seed, JoinerSends(su, seed), d);
    AuthAndResharePhases(su, JoinerSends(su, seed), d, world);
  }

  lemma HandleWaits(su: Suite, r: RoomState, d: Delivery, world: Surroundings)
    requires Joining(r) && d.packet.Signed? && d.packet.sid in r.universe
    ensures Fit(r.universe[d.packet.sid]) && WellFormed(r.universe[d.packet.sid])
    ensures var outcome := Handle(su, r.universe[d.packet.sid], d, world);
      && !outcome.Died?
      && WaitingFor(Put(r, d.packet.sid, After(r.universe[d.packet.sid], outcome)), d.packet.sid)
  {
    hide Handle, Fit, WellFormed, Bred;
    var k := d.packet.sid;
    HandleStaysFit(su, r.universe[k], d, world);
    PutWaits(r, k, After(r.universe[k], Handle(su, r.universe[k], d, world)));
  }

  /** What a message does to a joining room before anything is activated: at most the session it is for gets into
      session. */
  lemma HandleJoiningWaits(su: Suite, r: RoomState, d: Delivery, world: Surroundings)
    requires Joining(r) && OwnList(Message(d, world))
    ensures FitAll(r.universe)
    ensures var v := HandleJoining(su, r, d, world);
      && !v.Halted?
      && (v.Settled? ==> Joining(v.room) || (d.packet.Signed? && d.packet.sid in v.room.universe
                                             && WaitingFor(v.room, d.packet.sid)
                                             && v.room.universe[d.packet.sid].phase == InSession))
  {
    hide Handle, Fit, WellFormed, Join, ListToMap, IdentityOf, Orphaned, Put, Waiting;
    WaitingFits(r);
    FitMeansWellFormed(r.universe);
    EndedWaits(r);
    if d.packet.Signed? {
      if d.packet.sid in r.universe && r.universe[d.packet.sid].phase != Dead {
        HandleWaits(su, r, d, world);
        PutAt(r, d.packet.sid, After(r.universe[d.packet.sid], Handle(su, r.universe[d.packet.sid], d, world)));
      } else if IsInfo(d) {
        JoinNeverFatal(su, r.me, r.key, d, world);
        if Join(su, r.me, r.key, d, world).Born? {
          JoinedWaits(su, r.me, r.key, d, world);
          PutWaits(r, d.packet.sid, Join(su, r.me, r.key, d, world).child);
        }
      }
    }
  }

  lemma WaitingFits(r: RoomState)
    requires Waiting(r)
    ensures FitAll(r.universe) && r.joining && r.active == None
  {
    hide Fit;
  }

  lemma PutAt(r: RoomState, k: Identity, t: Sess)
    ensures k in Put(r, k, t).universe && Put(r, k, t).universe[k] == t
    ensures WaitingFor(Put(r, k, t), k) && t.phase != InSession ==> Joining(Put(r, k, t))
  {
    hide Waiting;
  }

  lemma JoinNeverFatal(su: Suite, me: ParticipantId, key: Block, d: Delivery, world: Surroundings)
    requires IsInfo(d)
    ensures !Join(su, me, key, d, world).Fatal?
  {
    hide ListToMap, Populate, JoinerSends, Accepts, ConfirmIfReady, WithShare, WellFormed;
  }

  /** One event in a joining room: it goes on joining, or the event is the message that brings its first session into
      session, and that is activated. */
  lemma JoiningReacts(su: Suite, r: RoomState, e: RoomEvent, order: Ordering) returns (w: RoomState)
    requires Joining(r) && OwnList(e) && Enumerates(order) && Timely(r, e)
    ensures FitAll(r.universe) && Waiting(w) && FitAll(w.universe)
    ensures var v := React(su, r, e, order);
      || v.Escaped?
      || (v.Settled? && Joining(v.room))
      || (&& e.Message? && e.d.packet.Signed? && e.d.packet.sid in w.universe && WaitingFor(w, e.d.packet.sid)
          && w.universe[e.d.packet.sid].phase == InSession && Orders(order(w.universe.Keys), w.universe)
          && v == Activate(su, w, e.d.packet.sid, order(w.universe.Keys), e.world))
  {
    hide HandleJoining, HandleCurrent, Activate, Waiting, Enumerates, Killed, AllKilled, Put, Resession, Orders,
      FitAll, IdentityOf, ListToMap;
    WaitingFits(r);
    EndedWaits(r);
    w := r;
    match e
    case Message(d, world) =>
      HandleJoiningWaits(su, r, d, world);
      var v := HandleJoining(su, r, d, world);
      if v.Settled? && !Joining(v.room) {
        w := v.room;
        WaitingFits(w);
        EnumeratesOrders(order, w.universe);
      } else if v.Settled? {
        NotYet(v.room, d);
      }
    case RejoinTimer(k) => EndedWaits(Put(r, k, Killed(r.universe[k])));
    case _ =>
  }

  lemma NotYet(r: RoomState, d: Delivery)
    requires Joining(r)
    ensures !Confirmed(r, d)
  {
    hide Waiting;
  }

  /** Over every run of a joining room to which only views arrive that carry the id of their own list: it goes on
      joining, or a message makes it activate its first session, in a room that meets what FirstActivationIff asks for;
      and from there the run goes on. */
  lemma {:induction false} JoiningRuns(su: Suite, r: RoomState, events: seq<RoomEvent>, order: Ordering, v: Verdict)
    returns (n: nat, w: RoomState, sid: Identity, world: Surroundings)
    requires Joining(r) && Enumerates(order) && FitAll(r.universe) && Runs(su, r, events, order, v)
    requires forall i :: 0 <= i < |events| ==> OwnList(events[i])
    ensures n <= |events| && Waiting(w) && FitAll(w.universe)
    ensures n == |events| ==> v.Escaped? || (v.Settled? && Joining(v.room))
    ensures n < |events| ==>
      && WaitingFor(w, sid) && sid in w.universe && w.universe[sid].phase == InSession
      && Orders(order(w.universe.Keys), w.universe)
      && var activated := Activate(su, w, sid, order(w.universe.Keys), world);
         activated.Settled? && FitAll(activated.room.universe) && Runs(su, activated.room, events[n + 1..], order, v)
    decreases |events|
  {
    hide React, Joining, Enumerates, Timely, OwnList, FitAll, Activate, Waiting, WaitingFor, Orders, Governed;
    n, w, sid, world := |events|, r, map[], Surroundings(ZERO, false);
    JoiningParts(r);
    if events != [] {
      var after := JoiningReacts(su, r, events[0], order);
      var first := React(su, r, events[0], order);
      if first.Settled? && Joining(first.room) {
        var m;
        m, w, sid, world := JoiningRuns(su, first.room, events[1..], order, v);
        n := m + 1;
        assert m < |events| - 1 ==> events[1..][m + 1..] == events[n + 1..];
      } else if !first.Escaped? {
        n, w, sid, world := 0, after, events[0].d.packet.sid, events[0].world;
        FirstActivationIff(su, w, sid, order(w.universe.Keys), world);
      }
    }
  }

  lemma JoiningParts(r: RoomState)
    requires Joining(r)
    ensures Waiting(r)
  {}
}
