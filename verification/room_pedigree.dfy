/** Over every run of a room a session either records no parent or adds at most one member to it, so that only
    sessions without a parent can stop the room. */
module RoomPedigree {
  import opened Bytes
  import opened Crypto
  import opened Participants
  import opened Sessions
  import opened SessionInvariants
  import opened SessionActions
  import opened Rooms
  import opened RoomInvariants
  import opened RoomActivation
  import opened RoomRuns
  import opened RoomJoins

  /** Over every run of a room, joining or current, from no session at all on: a session that records a parent adds at
      most one member to it. */
  lemma {:induction false} PedigreedForever(su: Suite, r: RoomState, events: seq<RoomEvent>, order: Ordering,
                                            v: Verdict)
    requires FitAll(r.universe) && Enumerates(order) && Runs(su, r, events, order, v) && v.Settled?
    ensures forall k :: k in v.room.universe ==> Fit(v.room.universe[k]) && Pedigreed(v.room.universe[k])
    decreases |events|
  {
    hide React, Enumerates, Timely, WellFormed, IdentityOf, Pedigreed;
    if events != [] {
      PedigreedForever(su, React(su, r, events[0], order).room, events[1..], order, v);
    }
  }

  /** So a message stops a governed room only if it is a fatal view, or if it is the heir's last confirmation while a
      session without a parent, two of whose members the heir does not expect, is in limbo. */
  lemma OnlyParentlessStop(su: Suite, r: RoomState, d: Delivery) returns (l: Identity)
    requires Governed(r) && Stops(su, r, d)
    ensures r.next.Some? && r.next.value in r.universe
    ensures FatalView(r, d) ||
      (&& l in r.universe && InLimbo(r.universe[l], r.next.value) && r.universe[l].parental == map[]
       && exists a, b :: a != b && a in Minus(r.universe[l].roster, FutureRoster(r.universe[r.next.value]))
                         && b in Minus(r.universe[l].roster, FutureRoster(r.universe[r.next.value])))
  {
    hide FatalView, Governed, Completes, InLimbo, FutureRoster, Crowded, Minus, Delta, WellFormed, IdentityOf;
    GovernedChair(r);
    GovernedFits(r);
    l := r.next.value;
    if !FatalView(r, d) {
      l :| l in r.universe && InLimbo(r.universe[l], r.next.value)
           && Crowded(r.me, r.universe[l], r.universe[r.next.value]);
      CrowdedUnexpected(r.me, r.universe[l], r.universe[r.next.value]);
    }
  }

  lemma CrowdedUnexpected(me: ParticipantId, s: Sess, parent: Sess)
    requires Pedigreed(s) && Crowded(me, s, parent)
    ensures s.parental == map[]
    ensures exists a, b ::
      a != b && a in Minus(s.roster, FutureRoster(parent)) && b in Minus(s.roster, FutureRoster(parent))
  {
    hide FutureRoster, Minus, Delta, Crowded;
    if |Delta(s)| <= 1 {
      FewNeverCrowd(me, s, parent);
    }
    ParentlessCrowdedIff(me, s, parent);
  }
}
