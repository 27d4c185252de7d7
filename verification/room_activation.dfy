/** What activating a session does to a room: who dies, who is gone, who is born, and when it stops. */
module RoomActivation {
  import opened Bytes
  import opened Crypto
  import opened Participants
  import opened Sessions
  import opened SessionInvariants
  import opened SessionBirths
  import opened SessionActions
  import opened Rooms
  import opened RoomInvariants

  // ---------- one re-parenting ----------

  /** What the new parent's list takes away from a union with it, it takes away from the other part. */
  lemma MinusOfPlus(delta: Roster, live: Roster)
    ensures Minus(Plus(delta, live), live) == Minus(delta, live)
  {
    hide Plus, Minus;
    var a, b := Minus(Plus(delta, live), live), Minus(delta, live);
    forall k ensures k in a <==> k in b {}
    forall k | k in a ensures a[k] == b[k] {}
  }

  /** Re-parenting a session in limbo would add more than one member at a time. */
  ghost predicate Crowded(me: ParticipantId, s: Sess, parent: Sess) {
    me.nickname in Reparented(s, parent) && |Minus(Delta(s), FutureRoster(parent))| > 1
  }

  lemma RebirthFatalIff(su: Suite, me: ParticipantId, s: Sess, parent: Sess, world: Surroundings)
    requires WellFormed(s) && WellFormed(parent)
    ensures Rebirth(su, me, s, parent, world).Fatal? <==> Crowded(me, s, parent)
  {
    hide Conceive, WellFormed, Minus, Plus, FutureRoster, Delta;
    ReparentedConsistent(s, parent);
    AcceptFatalIff(su, me, parent.future, Reparented(s, parent), FutureRoster(parent), world);
    MinusOfPlus(Delta(s), FutureRoster(parent));
  }

  /** A session bred to replace s under a new parent. */
  ghost predicate Replaces(child: Sess, s: Sess, parent: Sess) {
    && Bred(child) && child.sid == IdentityOf(Reparented(s, parent)) && child.parental == FutureRoster(parent)
    && child.roster.Keys == Reparented(s, parent).Keys && child.zombies == map[]
  }

  lemma RebirthReplaces(su: Suite, me: ParticipantId, s: Sess, parent: Sess, world: Surroundings)
    requires WellFormed(s) && WellFormed(parent)
    ensures var birth := Rebirth(su, me, s, parent, world);
            birth.Born? ==> Replaces(birth.child, s, parent) && birth.child.me == me
  {
    hide Conceive, WellFormed, Reparented, FutureRoster, Bred, IdentityOf, Minus, BornOf;
    ReparentedConsistent(s, parent);
    var roster, live := Reparented(s, parent), FutureRoster(parent);
    if Rebirth(su, me, s, parent, world).Born? {
      AcceptFatalIff(su, me, parent.future, roster, live, world);
      ConceiveFacts(su, Acceptor, me, parent.future, roster, live, None, world);
      ConceiveBreeds(su, Acceptor, me, parent.future, roster, live, None, world);
    }
  }

  // ---------- all of them ----------

  ghost predicate Listed(r: RoomState, parent: Identity, ids: seq<Identity>) {
    && parent in r.universe && WellFormed(r.universe[parent])
    && forall k :: k in ids ==> k in r.universe && WellFormed(r.universe[k])
  }

  /** Each bred session replaces a listed one that was in limbo. */
  ghost predicate BredFrom(r: RoomState, parent: Identity, ids: seq<Identity>, k: Identity, child: Sess)
    requires Listed(r, parent, ids)
  {
    child.sid == k
    && exists l :: l in ids && InLimbo(r.universe[l], parent) && Replaces(child, r.universe[l], r.universe[parent])
  }

  lemma ListedPrefix(r: RoomState, parent: Identity, ids: seq<Identity>)
    requires Listed(r, parent, ids) && ids != []
    ensures Listed(r, parent, ids[..|ids| - 1])
    ensures ids[|ids| - 1] in r.universe && WellFormed(r.universe[ids[|ids| - 1]])
    ensures forall k :: k in ids <==> k in ids[..|ids| - 1] || k == ids[|ids| - 1]
  {
    hide WellFormed;
    assert ids == ids[..|ids| - 1] + [ids[|ids| - 1]];
  }

  lemma {:induction false} RefreshedFacts(su: Suite, r: RoomState, parent: Identity, ids: seq<Identity>,
                                          world: Surroundings)
    requires Listed(r, parent, ids)
    ensures Refreshed(su, r, parent, ids, world) == None
       <==> exists l :: l in ids && InLimbo(r.universe[l], parent) && Crowded(r.me, r.universe[l], r.universe[parent])
    ensures Refreshed(su, r, parent, ids, world).Some? ==>
      var bred := Refreshed(su, r, parent, ids, world).value;
      forall k :: k in bred ==> BredFrom(r, parent, ids, k, bred[k])
    decreases |ids|
  {
    hide WellFormed, Rebirth, Replaces, Crowded, IdentityOf, Reparented;
    if ids != [] {
      ListedPrefix(r, parent, ids);
      var front, last := ids[..|ids| - 1], r.universe[ids[|ids| - 1]];
      RefreshedFacts(su, r, parent, front, world);
      RebirthFatalIff(su, r.me, last, r.universe[parent], world);
      RebirthReplaces(su, r.me, last, r.universe[parent], world);
      ReplacesSid(Rebirth(su, r.me, last, r.universe[parent], world), last, r.universe[parent]);
    }
  }

  lemma ReplacesSid(birth: Birth, s: Sess, parent: Sess)
    ensures birth.Born? && Replaces(birth.child, s, parent) ==> birth.child.sid == IdentityOf(Reparented(s, parent))
  {}

  /** The listed session in limbo is born again under this id. */
  ghost predicate RebornAs(su: Suite, r: RoomState, parent: Identity, l: Identity, k: Identity, world: Surroundings) {
    && parent in r.universe && l in r.universe && WellFormed(r.universe[l]) && WellFormed(r.universe[parent])
    && InLimbo(r.universe[l], parent) && IdentityOf(Reparented(r.universe[l], r.universe[parent])) == k
    && Rebirth(su, r.me, r.universe[l], r.universe[parent], world).Born?
  }

  /** The i-th listed session is the first that is born again under this id, and this is what is born. */
  ghost predicate FirstReborn(su: Suite, r: RoomState, parent: Identity, ids: seq<Identity>, i: nat, k: Identity,
                              child: Sess, world: Surroundings) {
    && i < |ids| && RebornAs(su, r, parent, ids[i], k, world)
    && Rebirth(su, r.me, r.universe[ids[i]], r.universe[parent], world) == Born(child)
    && forall j :: 0 <= j < i ==> !RebornAs(su, r, parent, ids[j], k, world)
  }

  lemma FirstStill(su: Suite, r: RoomState, parent: Identity, ids: seq<Identity>, i: nat, k: Identity, child: Sess,
                   world: Surroundings)
    requires ids != [] && FirstReborn(su, r, parent, ids[..|ids| - 1], i, k, child, world)
    ensures FirstReborn(su, r, parent, ids, i, k, child, world)
  {
    hide RebornAs, Rebirth, WellFormed;
    var front := ids[..|ids| - 1];
    assert forall j :: 0 <= j < |front| ==> front[j] == ids[j];
  }

  /** Of the sessions born again under one id it is the first that stays. */
  lemma {:induction false} FirstOfItsIdStays(su: Suite, r: RoomState, parent: Identity, ids: seq<Identity>, k: Identity,
                                             world: Surroundings)
    requires Listed(r, parent, ids) && Refreshed(su, r, parent, ids, world).Some?
    ensures var bred := Refreshed(su, r, parent, ids, world).value;
      if k in bred then exists i: nat :: FirstReborn(su, r, parent, ids, i, k, bred[k], world)
      else forall i :: 0 <= i < |ids| ==> !RebornAs(su, r, parent, ids[i], k, world)
    decreases |ids|
  {
    hide WellFormed, Rebirth, IdentityOf, Reparented, RebornAs, FirstReborn;
    if ids != [] {
      ListedPrefix(r, parent, ids);
      var front, n := ids[..|ids| - 1], |ids| - 1;
      assert forall i :: 0 <= i < n ==> front[i] == ids[i];
      FirstOfItsIdStays(su, r, parent, front, k, world);
      RebornIs(su, r, parent, ids[n], k, world);
      var before := Refreshed(su, r, parent, front, world).value;
      if k in before {
        var i: nat :| FirstReborn(su, r, parent, front, i, k, before[k], world);
        FirstStill(su, r, parent, ids, i, k, before[k], world);
      } else if RebornAs(su, r, parent, ids[n], k, world) {
        NowReborn(su, r, parent, ids, k, world);
      }
    }
  }

  lemma NowReborn(su: Suite, r: RoomState, parent: Identity, ids: seq<Identity>, k: Identity, world: Surroundings)
    requires Listed(r, parent, ids) && ids != [] && RebornAs(su, r, parent, ids[|ids| - 1], k, world)
    requires forall i :: 0 <= i < |ids| - 1 ==> !RebornAs(su, r, parent, ids[i], k, world)
    ensures Rebirth(su, r.me, r.universe[ids[|ids| - 1]], r.universe[parent], world).Born?
    ensures FirstReborn(su, r, parent, ids, |ids| - 1, k,
                        Rebirth(su, r.me, r.universe[ids[|ids| - 1]], r.universe[parent], world).child, world)
  {
    hide Rebirth, WellFormed, IdentityOf, Reparented;
  }

  lemma RebornIs(su: Suite, r: RoomState, parent: Identity, l: Identity, k: Identity, world: Surroundings)
    requires parent in r.universe && l in r.universe && WellFormed(r.universe[l]) && WellFormed(r.universe[parent])
    ensures RebornAs(su, r, parent, l, k, world) <==>
      && InLimbo(r.universe[l], parent) && IdentityOf(Reparented(r.universe[l], r.universe[parent])) == k
      && Rebirth(su, r.me, r.universe[l], r.universe[parent], world).Born?
  {
    hide WellFormed, Rebirth, IdentityOf, Reparented;
  }

  // ---------- activation ----------

  /** The heir that has just confirmed. */
  ghost predicate Crowned(r: RoomState, sid: Identity) {
    GovernedBut(r, sid) && r.next == Some(sid) && sid in r.universe && r.universe[sid].phase == InSession
    && r.active != Some(sid)
  }

  ghost predicate Orders(order: seq<Identity>, u: Universe) {
    forall k :: k in order <==> k in u
  }

  /** Some session in limbo cannot be re-parented one member at a time. */
  ghost predicate Overcrowded(r: RoomState, sid: Identity)
    requires sid in r.universe
  {
    exists l :: l in r.universe && InLimbo(r.universe[l], sid) && Crowded(r.me, r.universe[l], r.universe[sid])
  }

  /** What is left after the activation of sid: the new active session as it was; everybody else who was alive,
      dead; and sessions bred to replace those in limbo. Whoever was dead before is gone. */
  ghost predicate Cleaned(r: RoomState, sid: Identity, after: RoomState)
    requires sid in r.universe
  {
    && after.active == Some(sid) && after.next == Some(sid) && !after.joining && after.me == r.me && after.key == r.key
    && (forall k :: k in r.universe && r.universe[k].phase != Dead ==>
          && k in after.universe
          && after.universe[k] == if k == sid then r.universe[k] else Killed(r.universe[k]))
    && (forall k :: k in after.universe && (k !in r.universe || r.universe[k].phase == Dead) ==>
          Fresh(r, sid, k, after.universe[k]))
  }

  ghost predicate Fresh(r: RoomState, sid: Identity, k: Identity, child: Sess)
    requires sid in r.universe
  {
    child.sid == k && exists l :: l in r.universe && InLimbo(r.universe[l], sid)
                                  && Replaces(child, r.universe[l], r.universe[sid])
  }

  lemma CrownedFits(r: RoomState, sid: Identity)
    requires Crowned(r, sid)
    ensures FitAll(r.universe) && r.active.Some? && r.active.value in r.universe && sid in r.universe
    ensures r.universe[r.active.value].phase == InSession && r.universe[sid].phase == InSession
    ensures !r.joining && r.next == Some(sid) && r.active != Some(sid)
    ensures forall k :: k in r.universe ==> r.universe[k].sid == k
    ensures forall k :: k in r.universe && r.universe[k].phase == InSession ==> k == sid || r.active == Some(k)
  {
    hide Fit;
    GovernedButFits(r, sid);
  }

  lemma ListedAll(r: RoomState, sid: Identity, order: seq<Identity>)
    requires FitAll(r.universe) && sid in r.universe && Orders(order, r.universe)
    ensures Listed(r, sid, order)
  {
    hide Fit, WellFormed;
    FitMeansWellFormed(r.universe);
  }

  lemma RefreshVerdict(su: Suite, r: RoomState, sid: Identity, order: seq<Identity>, world: Surroundings)
    requires FitAll(r.universe) && sid in r.universe && r.universe[sid].phase == InSession && Orders(order, r.universe)
    ensures Listed(r, sid, order)
    ensures var bred := Refreshed(su, r, sid, order, world);
      Refresh(su, r, sid, order, world)
      == if bred == None then Halted(InSessionCode(SecondAddition))
         else Settled(r.(universe := bred.value + Survivors(r.universe, sid)))
  {
    ListedAll(r, sid, order);
    hide Refreshed, Survivors, FitAll, WellFormed;
  }

  lemma RefreshedAll(su: Suite, r: RoomState, sid: Identity, order: seq<Identity>, world: Surroundings)
    requires sid in r.universe && Orders(order, r.universe)
    requires Listed(r, sid, order)
    ensures var bred := Refreshed(su, r, sid, order, world);
      && (bred == None <==> Overcrowded(r, sid))
      && (bred.Some? ==> forall k :: k in bred.value ==> Fresh(r, sid, k, bred.value[k]))
  {
    RefreshedFacts(su, r, sid, order, world);
    var bred := Refreshed(su, r, sid, order, world);
    hide Crowded, Replaces, WellFormed, Refreshed, InLimbo;
    if bred.Some? {
      forall k | k in bred.value ensures Fresh(r, sid, k, bred.value[k]) {
        assert BredFrom(r, sid, order, k, bred.value[k]);
      }
    }
  }

  lemma SurvivorAt(r: RoomState, sid: Identity, k: Identity)
    requires Crowned(r, sid) && k in r.universe && r.universe[k].phase != Dead
    ensures k in Survivors(r.universe, sid)
    ensures Survivors(r.universe, sid)[k]
         == if k == sid || r.active == Some(k) then r.universe[k] else Killed(r.universe[k])
  {
    CrownedFits(r, sid);
    hide Crowned, FitAll;
  }

  /** Survivors cover what is bred; the old active session is killed among them. */
  lemma OverlayCleans(r: RoomState, sid: Identity, bred: Universe, survivors: Universe)
    requires Crowned(r, sid) && survivors == Survivors(r.universe, sid)
    requires forall k :: k in bred ==> Fresh(r, sid, k, bred[k])
    ensures var refreshed := bred + survivors;
      && r.active.Some? && r.active.value in refreshed
      && Cleaned(r, sid, Put(r.(universe := refreshed), r.active.value, Killed(refreshed[r.active.value]))
                           .(active := Some(sid)))
  {
    hide Crowned, Fresh, FitAll, Survivors, Killed;
    CrownedFits(r, sid);
    var refreshed := bred + survivors;
    var dying := r.active.value;
    SurvivorAt(r, sid, dying);
    var after := refreshed[dying := Killed(refreshed[dying])];
    forall k | k in r.universe && r.universe[k].phase != Dead
      ensures k in after && after[k] == if k == sid then r.universe[k] else Killed(r.universe[k])
    {
      SurvivorAt(r, sid, k);
    }
    forall k | k in after && (k !in r.universe || r.universe[k].phase == Dead) ensures Fresh(r, sid, k, after[k]) {
      assert k !in survivors && k != dying;
    }
  }

  /** Activation cleans the universe, or stops exactly when it is overcrowded. */
  lemma ActivationCleans(su: Suite, r: RoomState, sid: Identity, order: seq<Identity>, world: Surroundings)
    requires Crowned(r, sid) && Orders(order, r.universe)
    ensures FitAll(r.universe)
    ensures var v := Activate(su, r, sid, order, world);
      && (v.Halted? <==> Overcrowded(r, sid)) && (v.Halted? ==> v == Halted(InSessionCode(SecondAddition)))
      && !v.Escaped? && (v.Settled? ==> Cleaned(r, sid, v.room))
  {
    hide Cleaned, Fresh, Overcrowded, FitAll, Refreshed, Survivors, Refresh, WellFormed, Crowned, Orders, Killed,
      Put;
    CrownedFits(r, sid);
    RefreshVerdict(su, r, sid, order, world);
    RefreshedAll(su, r, sid, order, world);
    var bred := Refreshed(su, r, sid, order, world);
    if bred.Some? {
      OverlayCleans(r, sid, bred.value, Survivors(r.universe, sid));
    }
  }

  lemma FreshSeat(r: RoomState, sid: Identity, k: Identity, child: Sess)
    requires sid in r.universe && Fresh(r, sid, k, child)
    ensures Bred(child) && child.sid == k
  {
    hide Bred;
  }

  lemma KilledFits(s: Sess)
    requires Fit(s)
    ensures Fit(Killed(s)) && Killed(s).sid == s.sid && Killed(s).phase == Dead
  {}

  /** And leaves a governed room. */
  lemma CleanedGoverned(r: RoomState, sid: Identity, after: RoomState)
    requires Crowned(r, sid) && Cleaned(r, sid, after)
    ensures Governed(after)
  {
    hide Fit, Fresh;
    CrownedFits(r, sid);
    assert sid in after.universe;
    forall k | k in after.universe ensures Seated(sid, sid, k, after.universe[k]) {
      if k in r.universe && r.universe[k].phase != Dead {
        KilledFits(r.universe[k]);
      } else {
        FreshSeat(r, sid, k, after.universe[k]);
      }
    }
  }
}
