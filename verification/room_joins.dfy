/** Joins that wait while the room moves on under them, and leaves that come back. */
module RoomJoins {
  import opened Bytes
  import opened Crypto
  import opened Participants
  import opened Sessions
  import opened SessionInvariants
  import opened SessionBirths
  import opened SessionActions
  import opened Rooms
  import opened RoomInvariants
  import opened RoomActivation

  /** A session made to let one member join: the parent's live members and that one. */
  ghost predicate Pending(s: Sess, joiner: Nick) {
    && joiner !in s.parental && s.roster.Keys == s.parental.Keys + {joiner}
    && forall k :: k in s.parental ==> s.roster[k].id.fingerprint == s.parental[k].id.fingerprint
  }

  /** The one member it adds, by nickname and long-term key; ephemeral keys play no part. */
  lemma PendingDelta(s: Sess, joiner: Nick)
    requires Pending(s, joiner)
    ensures Delta(s).Keys == {joiner} && |Delta(s)| == 1 && Delta(s)[joiner] == s.roster[joiner]
  {
    assert |Delta(s)| == |Delta(s).Keys|;
  }

  /** A join request starts a pending join. */
  lemma JoinStartsPending(su: Suite, s: Sess, d: Delivery, world: Surroundings)
    requires WellFormed(s) && d.packet.JoinRequest?
    requires InitWithNewUser(su, s, d, world).Done? && InitWithNewUser(su, s, d, world).action.NewSession?
    ensures ParseParticipant(d.packet.joinerInfo).Some?
    ensures var (child, u) := (InitWithNewUser(su, s, d, world).action.child,
                               ParseParticipant(d.packet.joinerInfo).value);
      && Pending(child, u.id.nickname) && child.parental == FutureRoster(s)
      && child.roster[u.id.nickname].id == u.id && child.roster[u.id.nickname].ephemeral == u.ephemeral
  {
    hide InitWithNewUser, FutureRoster, Conceive, WellFormed, ParseParticipant, Pending, Minus, Bred, IdentityOf;
    JoinShape(su, s, d, world);
    var u := ParseParticipant(d.packet.joinerInfo).value;
    var live := FutureRoster(s);
    if Conceive(su, Acceptor, s.me, s.future, WithJoiner(live, u), live, Some(d), world).Born? {
      WithJoinerAdds(live, u);
      ConceiveBreeds(su, Acceptor, s.me, s.future, WithJoiner(live, u), live, Some(d), world);
      BredPending(Conceive(su, Acceptor, s.me, s.future, WithJoiner(live, u), live, Some(d), world).child, live, u);
    }
  }

  lemma BredPending(child: Sess, live: Roster, u: UnauthenticatedParticipant)
    requires Bred(child) && child.sid == IdentityOf(WithJoiner(live, u)) && child.parental == live
    requires u.id.nickname !in live && child.roster.Keys == WithJoiner(live, u).Keys
    ensures Pending(child, u.id.nickname)
    ensures child.roster[u.id.nickname].id == u.id && child.roster[u.id.nickname].ephemeral == u.ephemeral
  {
    hide Bred, WithJoiner, WellFormed;
    BredFaces(child);
    WithJoinerFacts(live, u);
    var roster := WithJoiner(live, u);
    forall k | k in roster ensures child.sid[k] == Face(roster[k].id.fingerprint, roster[k].ephemeral) {}
    hide IdentityOf;
    assert child.roster[u.id.nickname].id.fingerprint == u.id.fingerprint;
  }

  /** Who is in a bred session can be read off its id. */
  lemma BredFaces(child: Sess)
    requires Bred(child)
    ensures child.sid.Keys == child.roster.Keys && WellFormed(child) && child.phase == ReShared
    ensures forall k :: k in child.roster ==>
      && child.roster[k].id.nickname == k
      && child.sid[k] == Face(child.roster[k].id.fingerprint, child.roster[k].ephemeral)
  {
    hide Pedigreed;
  }

  // ---------- one re-parenting ----------

  /** It breeds a session exactly when the owner is among the members, the new parent has a next key, and at most one
      member is unexpected. */
  lemma RebornIff(su: Suite, me: ParticipantId, s: Sess, parent: Sess, world: Surroundings)
    requires WellFormed(s) && WellFormed(parent)
    ensures Rebirth(su, me, s, parent, world).Born?
       <==> me.nickname in Reparented(s, parent) && parent.future.Some? && !Crowded(me, s, parent)
  {
    ReparentedConsistent(s, parent);
    RebirthFatalIff(su, me, s, parent, world);
    hide WellFormed, Reparented, FutureRoster, Crowded;
    AcceptBornIff(su, me, parent.future, Reparented(s, parent), FutureRoster(parent), None, world);
  }

  /** A session that adds no more than one member never crowds, whatever the new parent. */
  lemma FewNeverCrowd(me: ParticipantId, s: Sess, parent: Sess)
    requires |Delta(s)| <= 1
    ensures !Crowded(me, s, parent)
  {
    hide FutureRoster, Delta;
    var rest := Minus(Delta(s), FutureRoster(parent));
    FewerEntries(rest, Delta(s));
  }

  lemma FewerEntries(a: Roster, b: Roster)
    requires a.Keys <= b.Keys
    ensures |a| <= |b|
  {
    assert |a| == |a.Keys| && |b| == |b.Keys|;
    FewerElements(a.Keys, b.Keys);
  }

  /** What a session bred under a new parent still adds: those of the old additions the new parent does not expect,
      under the keys they had. */
  ghost predicate StillAdds(child: Sess, s: Sess, live: Roster) {
    && child.parental == live && Delta(child).Keys == Minus(Delta(s), live).Keys
    && child.roster.Keys == live.Keys + Delta(child).Keys
    && forall k :: k in Delta(child) ==>
         k in s.roster && child.roster[k].id.fingerprint == s.roster[k].id.fingerprint
         && child.roster[k].ephemeral == s.roster[k].ephemeral
  }

  /** The members of such a list are those of the union, under the same keys. */
  lemma UnionAdds(delta: Roster, live: Roster, made: Roster)
    requires made.Keys == Plus(delta, live).Keys
    requires forall k :: k in made ==>
      && made[k].id.fingerprint == Plus(delta, live)[k].id.fingerprint
      && made[k].ephemeral == Plus(delta, live)[k].ephemeral
    ensures Minus(made, live).Keys == Minus(delta, live).Keys && made.Keys == live.Keys + Minus(made, live).Keys
    ensures forall k :: k in Minus(made, live) ==>
      k in delta && made[k].id.fingerprint == delta[k].id.fingerprint && made[k].ephemeral == delta[k].ephemeral
  {
    hide Plus, Minus;
    forall k ensures k in Minus(made, live) <==> k in Minus(delta, live) {}
    forall k ensures k in made <==> k in live || k in Minus(made, live) {}
  }

  lemma DeltaEntries(s: Sess)
    ensures Delta(s) == Minus(s.roster, s.parental)
    ensures forall k :: k in Delta(s) ==> k in s.roster && Delta(s)[k] == s.roster[k]
  {}

  /** A session bred to replace another still adds whom the parent does not expect. */
  lemma ReplacementAdds(child: Sess, s: Sess, parent: Sess)
    requires Replaces(child, s, parent)
    ensures StillAdds(child, s, FutureRoster(parent))
  {
    hide FutureRoster, Minus, Plus, Delta, WellFormed, Bred;
    BredFaces(child);
    var roster, live := Reparented(s, parent), FutureRoster(parent);
    forall k | k in child.roster
      ensures child.roster[k].id.fingerprint == roster[k].id.fingerprint
      ensures child.roster[k].ephemeral == roster[k].ephemeral
    {
      assert child.sid[k] == IdentityOf(roster)[k];
    }
    hide IdentityOf;
    DeltaEntries(s);
    DeltaEntries(child);
    UnionAdds(Delta(s), live, child.roster);
  }

  lemma StillAddsEvolved(child: Sess, t: Sess, s: Sess, live: Roster)
    requires StillAdds(child, s, live) && Evolves(child, t)
    ensures StillAdds(t, s, live)
  {
    hide Evolves, Minus, Delta;
    EvolvesDelta(child, t);
  }

  /** One re-parenting of a session that adds at most one member never stops the room; it breeds a session as soon as
      the owner stays and the new parent has a next key; and that session adds whom the new parent does not expect. */
  lemma PendingReborn(su: Suite, me: ParticipantId, s: Sess, parent: Sess, world: Surroundings)
    requires WellFormed(s) && WellFormed(parent) && |Delta(s)| <= 1
    ensures !Rebirth(su, me, s, parent, world).Fatal?
    ensures Rebirth(su, me, s, parent, world).Born? <==> me.nickname in Reparented(s, parent) && parent.future.Some?
    ensures Rebirth(su, me, s, parent, world).Born? ==>
      var child := Rebirth(su, me, s, parent, world).child;
      StillAdds(child, s, FutureRoster(parent)) && |Delta(child)| <= 1
  {
    hide Rebirth, Crowded, Reparented, FutureRoster, Delta, WellFormed, Replaces;
    FewNeverCrowd(me, s, parent);
    RebornIff(su, me, s, parent, world);
    RebirthFatalIff(su, me, s, parent, world);
    RebirthReplaces(su, me, s, parent, world);
    if Rebirth(su, me, s, parent, world).Born? {
      ReplacementAdds(Rebirth(su, me, s, parent, world).child, s, parent);
      FewerEntries(Delta(Rebirth(su, me, s, parent, world).child), Delta(s));
    }
  }

  // ---------- any number of re-parentings ----------

  /** A session that gets into session with the owner live and a next key. */
  ghost predicate Hosts(me: ParticipantId, parent: Sess) {
    WellFormed(parent) && parent.future.Some? && me.nickname in FutureRoster(parent)
  }

  /** Generations of one session in limbo: each is what is bred for the one before under the next parent, after a life
      of messages and staling of its own. */
  ghost predicate Lineage(su: Suite, me: ParticipantId, generations: seq<Sess>, parents: seq<Sess>,
                          world: Surroundings)
  {
    && |generations| == |parents| + 1
    && (forall i :: 0 <= i < |generations| ==> WellFormed(generations[i]))
    && (forall i :: 0 <= i < |parents| ==> Hosts(me, parents[i]))
    && (forall i :: 0 <= i < |parents| ==> Begets(su, me, generations[i], parents[i], generations[i + 1], world))
  }

  ghost predicate Begets(su: Suite, me: ParticipantId, s: Sess, parent: Sess, t: Sess, world: Surroundings)
    requires WellFormed(s) && WellFormed(parent)
  {
    var birth := Rebirth(su, me, s, parent, world);
    birth.Born? ==> Evolves(birth.child, t)
  }

  /** None of the parents has the member among its live members under this long-term key. */
  ghost predicate NeverIn(k: Nick, fingerprint: Block, parents: seq<Sess>) {
    forall i :: 0 <= i < |parents| ==>
      !(k in FutureRoster(parents[i]) && FutureRoster(parents[i])[k].id.fingerprint == fingerprint)
  }

  lemma NeverInPrefix(k: Nick, fingerprint: Block, parents: seq<Sess>)
    requires parents != []
    ensures var front, last := parents[..|parents| - 1], FutureRoster(parents[|parents| - 1]);
      NeverIn(k, fingerprint, parents)
      <==> NeverIn(k, fingerprint, front) && !(k in last && last[k].id.fingerprint == fingerprint)
  {
    hide FutureRoster;
    var front := parents[..|parents| - 1];
    if NeverIn(k, fingerprint, front) {
      forall i | 0 <= i < |front|
        ensures !(k in FutureRoster(parents[i]) && FutureRoster(parents[i])[k].id.fingerprint == fingerprint)
      {
        assert front[i] == parents[i];
      }
    }
    if NeverIn(k, fingerprint, parents) {
      forall i | 0 <= i < |front|
        ensures !(k in FutureRoster(front[i]) && FutureRoster(front[i])[k].id.fingerprint == fingerprint)
      {
        assert front[i] == parents[i];
      }
    }
  }

  /** The last generation adds exactly those of the first additions that no parent has had among its members, under the
      keys they came with. */
  ghost predicate StillWaits(first: Sess, last: Sess, parents: seq<Sess>) {
    && (forall k :: k in Delta(last) <==> k in Delta(first) && NeverIn(k, first.roster[k].id.fingerprint, parents))
    && (forall k :: k in Delta(last) ==>
          && last.roster[k].id.fingerprint == first.roster[k].id.fingerprint
          && last.roster[k].ephemeral == first.roster[k].ephemeral)
  }

  lemma WaitsOn(first: Sess, s: Sess, t: Sess, parents: seq<Sess>)
    requires parents != [] && StillWaits(first, s, parents[..|parents| - 1])
    requires StillAdds(t, s, FutureRoster(parents[|parents| - 1]))
    ensures StillWaits(first, t, parents)
  {
    hide FutureRoster, Minus, NeverIn;
    DeltaEntries(first);
    DeltaEntries(s);
    DeltaEntries(t);
    hide Delta;
    forall k | k in Delta(first)
      ensures k in Delta(t) <==> NeverIn(k, first.roster[k].id.fingerprint, parents)
    {
      NeverInPrefix(k, first.roster[k].id.fingerprint, parents);
    }
  }

  lemma NextGeneration(su: Suite, me: ParticipantId, first: Sess, s: Sess, t: Sess, parents: seq<Sess>,
                       world: Surroundings)
    requires parents != [] && StillWaits(first, s, parents[..|parents| - 1]) && |Delta(s)| <= 1 && WellFormed(s)
    requires Hosts(me, parents[|parents| - 1]) && WellFormed(parents[|parents| - 1])
    requires Begets(su, me, s, parents[|parents| - 1], t, world)
    ensures var parent := parents[|parents| - 1];
      && Rebirth(su, me, s, parent, world).Born? && StillWaits(first, t, parents) && |Delta(t)| <= 1
      && t.parental == FutureRoster(parent) && t.roster.Keys == FutureRoster(parent).Keys + Delta(t).Keys
  {
    hide Rebirth, FutureRoster, WellFormed, Evolves, Delta, StillWaits, StillAdds, Hosts, Reparented;
    var parent := parents[|parents| - 1];
    HostsKeepOwner(me, s, parent);
    PendingReborn(su, me, s, parent, world);
    StillAddsEvolved(Rebirth(su, me, s, parent, world).child, t, s, FutureRoster(parent));
    WaitsOn(first, s, t, parents);
    AddsFewer(t, s, FutureRoster(parent));
  }

  lemma {:induction false} Survives(su: Suite, me: ParticipantId, generations: seq<Sess>, parents: seq<Sess>,
                                    world: Surroundings, n: nat)
    requires Lineage(su, me, generations, parents, world) && |Delta(generations[0])| <= 1 && n <= |parents|
    ensures StillWaits(generations[0], generations[n], parents[..n]) && |Delta(generations[n])| <= 1
    ensures n > 0 ==>
      && WellFormed(generations[n - 1]) && WellFormed(parents[n - 1])
      && Rebirth(su, me, generations[n - 1], parents[n - 1], world).Born?
      && generations[n].parental == FutureRoster(parents[n - 1])
      && generations[n].roster.Keys == FutureRoster(parents[n - 1]).Keys + Delta(generations[n]).Keys
    decreases n
  {
    hide Rebirth, FutureRoster, WellFormed, Begets, Delta, StillWaits, Hosts;
    if n == 0 {
      WaitsAlready(generations[0]);
    } else {
      Survives(su, me, generations, parents, world, n - 1);
      assert parents[..n][..n - 1] == parents[..n - 1] && parents[..n][n - 1] == parents[n - 1];
      HostsWell(me, parents[n - 1]);
      NextGeneration(su, me, generations[0], generations[n - 1], generations[n], parents[..n], world);
    }
  }

  lemma HostsWell(me: ParticipantId, parent: Sess)
    requires Hosts(me, parent)
    ensures WellFormed(parent)
  {}

  /** A pending join survives any number of re-parentings: at every generation a session is bred for it, without
      stopping the room, and the last one has the last parent's live members and the joiner, under the keys of the
      request, exactly as long as the joiner has not got into any parent by another way. */
  lemma PendingSurvives(su: Suite, me: ParticipantId, generations: seq<Sess>, parents: seq<Sess>, world: Surroundings)
    requires Lineage(su, me, generations, parents, world) && |Delta(generations[0])| <= 1
    ensures forall i :: 0 <= i < |parents| ==> Rebirth(su, me, generations[i], parents[i], world).Born?
    ensures StillWaits(generations[0], generations[|parents|], parents)
    ensures |parents| > 0 ==>
      var (last, live) := (generations[|parents|], FutureRoster(parents[|parents| - 1]));
      last.parental == live && last.roster.Keys == live.Keys + Delta(last).Keys
  {
    hide Rebirth, FutureRoster, WellFormed, Begets, Delta, StillWaits, Hosts;
    forall i | 0 <= i < |parents| ensures WellFormed(parents[i]) {
      HostsWell(me, parents[i]);
    }
    forall i | 0 <= i < |parents| ensures Rebirth(su, me, generations[i], parents[i], world).Born? {
      Survives(su, me, generations, parents, world, i + 1);
    }
    Survives(su, me, generations, parents, world, |parents|);
    assert parents[..|parents|] == parents;
  }

  lemma WaitsAlready(s: Sess)
    ensures StillWaits(s, s, [])
  {
    hide Minus;
  }

  lemma AddsFewer(t: Sess, s: Sess, live: Roster)
    requires StillAdds(t, s, live)
    ensures |Delta(t)| <= |Delta(s)| && t.parental == live && t.roster.Keys == live.Keys + Delta(t).Keys
  {
    hide Delta;
    FewerEntries(Delta(t), Delta(s));
  }

  lemma HostsKeepOwner(me: ParticipantId, s: Sess, parent: Sess)
    requires Hosts(me, parent)
    ensures WellFormed(parent) && parent.future.Some? && me.nickname in Reparented(s, parent)
  {
    hide FutureRoster, WellFormed, Delta;
  }

  // ---------- in the room ----------

  lemma {:induction false} RefreshedCovers(su: Suite, r: RoomState, parent: Identity, ids: seq<Identity>,
                                           world: Surroundings, l: Identity)
    requires Listed(r, parent, ids) && Refreshed(su, r, parent, ids, world).Some?
    requires l in ids && InLimbo(r.universe[l], parent)
    requires Rebirth(su, r.me, r.universe[l], r.universe[parent], world).Born?
    ensures IdentityOf(Reparented(r.universe[l], r.universe[parent])) in Refreshed(su, r, parent, ids, world).value
    decreases |ids|
  {
    hide WellFormed, Rebirth, IdentityOf, Reparented, InLimbo;
    ListedPrefix(r, parent, ids);
    var front := ids[..|ids| - 1];
    if l in front {
      RefreshedCovers(su, r, parent, front, world, l);
    }
  }

  /** After an activation that is not stopped, every session in limbo that adds at most one member, and whose owner
      stays in it, has a session under the id of its old additions and the new live members; and if no live session
      had that id, it is one bred to replace it. */
  lemma LimboReplaced(su: Suite, r: RoomState, sid: Identity, order: seq<Identity>, world: Surroundings, l: Identity)
    requires Crowned(r, sid) && Orders(order, r.universe) && !Overcrowded(r, sid) && r.universe[sid].future.Some?
    requires l in r.universe && InLimbo(r.universe[l], sid) && |Delta(r.universe[l])| <= 1
    requires r.me.nickname in Reparented(r.universe[l], r.universe[sid])
    ensures FitAll(r.universe) && Activate(su, r, sid, order, world).Settled?
    ensures var (after, id) := (Activate(su, r, sid, order, world).room,
                                IdentityOf(Reparented(r.universe[l], r.universe[sid])));
      && id in after.universe
      && (id !in r.universe || r.universe[id].phase == Dead ==>
            Replaces(after.universe[id], r.universe[l], r.universe[sid]))
  {
    hide Cleaned, Overcrowded, FitAll, Refreshed, Survivors, WellFormed, Crowned, Orders, Killed, Put, Activate,
      Delta, Fresh, Replaces, Reparented, IdentityOf, InLimbo, Rebirth;
    CrownedFits(r, sid);
    FitMeansWellFormed(r.universe);
    var s, parent := r.universe[l], r.universe[sid];
    PendingReborn(su, r.me, s, parent, world);
    ActivationCleans(su, r, sid, order, world);
    RefreshVerdict(su, r, sid, order, world);
    RefreshedAll(su, r, sid, order, world);
    InOrder(order, r.universe, l);
    RefreshedCovers(su, r, sid, order, world, l);
    var id := IdentityOf(Reparented(s, parent));
    ActivatedUniverse(su, r, sid, order, world, id);
    if id !in r.universe || r.universe[id].phase == Dead {
      CleanedFresh(r, sid, Activate(su, r, sid, order, world).room, id);
      FreshReplaces(r, sid, id, Activate(su, r, sid, order, world).room.universe[id], l);
    }
  }

  lemma InOrder(order: seq<Identity>, u: Universe, l: Identity)
    requires Orders(order, u) && l in u
    ensures l in order
  {}

  /** Whatever is bred is in the universe afterwards, or something that was there before. */
  lemma ActivatedUniverse(su: Suite, r: RoomState, sid: Identity, order: seq<Identity>, world: Surroundings,
                          id: Identity)
    requires Crowned(r, sid) && Orders(order, r.universe) && Listed(r, sid, order) && FitAll(r.universe)
    requires Refreshed(su, r, sid, order, world).Some? && id in Refreshed(su, r, sid, order, world).value
    requires Activate(su, r, sid, order, world).Settled?
    ensures id in Activate(su, r, sid, order, world).room.universe
  {
    CrownedFits(r, sid);
    RefreshVerdict(su, r, sid, order, world);
    hide Refreshed, Survivors, FitAll, WellFormed, Crowned, Orders, Listed, Refresh;
  }

  lemma CleanedFresh(r: RoomState, sid: Identity, after: RoomState, k: Identity)
    requires sid in r.universe && Cleaned(r, sid, after) && k in after.universe
    requires k !in r.universe || r.universe[k].phase == Dead
    ensures Fresh(r, sid, k, after.universe[k])
  {
    hide Fresh;
  }

  lemma FreshReplaces(r: RoomState, sid: Identity, k: Identity, child: Sess, l: Identity)
    requires sid in r.universe && Fresh(r, sid, k, child) && l in r.universe
    requires k == IdentityOf(Reparented(r.universe[l], r.universe[sid]))
    ensures Replaces(child, r.universe[l], r.universe[sid])
  {
    hide Reparented, IdentityOf, InLimbo, Bred;
    BredFaces(child);
    IdentityKeys(r.universe[l], r.universe[sid]);
  }

  lemma IdentityKeys(s: Sess, parent: Sess)
    ensures IdentityOf(Reparented(s, parent)).Keys == Reparented(s, parent).Keys
  {
    hide Reparented;
  }

  // ---------- sessions bred by a leave or by the timer ----------

  /** They record no parent, so that every member of theirs counts as one to add. */
  lemma ParentlessDelta(s: Sess)
    requires s.parental == map[]
    ensures Delta(s) == s.roster
  {}

  /** Re-parenting one brings all its members back, leavers included, under the keys they had in it. */
  lemma LeaversReturn(s: Sess, parent: Sess)
    requires s.parental == map[]
    ensures Reparented(s, parent).Keys == s.roster.Keys + FutureRoster(parent).Keys
    ensures forall k :: k in s.roster ==> Reparented(s, parent)[k] == s.roster[k]
  {
    hide FutureRoster;
    ParentlessDelta(s);
  }

  /** And stops the room exactly when the owner is a member and two of its members are not expected by the new
      parent. */
  lemma ParentlessCrowdedIff(me: ParticipantId, s: Sess, parent: Sess)
    requires s.parental == map[]
    ensures Crowded(me, s, parent) <==>
      && (me.nickname in s.roster || me.nickname in FutureRoster(parent))
      && exists a, b ::
           a != b && a in Minus(s.roster, FutureRoster(parent)) && b in Minus(s.roster, FutureRoster(parent))
  {
    hide FutureRoster, Minus;
    ParentlessDelta(s);
    LeaversReturn(s, parent);
    var m := Minus(s.roster, FutureRoster(parent));
    assert |m| == |m.Keys|;
    TwoElements(m.Keys);
    if |m| > 1 {
      var a, b :| a in m.Keys && b in m.Keys && a != b;
      assert a in m && b in m;
    }
  }

  lemma TwoElements<T>(s: set<T>)
    ensures |s| > 1 <==> exists a, b :: a in s && b in s && a != b
  {
    if |s| > 1 {
      var a :| a in s;
      assert |s - {a}| == |s| - 1;
      var b :| b in s - {a};
      assert a in s && b in s && a != b;
    } else if |s| == 1 {
      var c :| c in s;
      assert |s - {c}| == 0;
      forall a, b | a in s && b in s ensures a == b {
        assert a !in s - {c} && b !in s - {c};
      }
    }
  }
}
