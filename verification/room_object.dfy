/** The Room class: a map of session objects rewritten on every message, proved against the values of Rooms. */
module RoomObjects {
  import opened Bytes
  import opened Crypto
  import opened Participants
  import opened Sessions
  import opened SessionSteps
  import opened SessionInvariants
  import opened SessionActions
  import opened SessionObjects
  import opened Rooms
  import opened RoomInvariants
  import opened RoomActivation
  import opened RoomRuns

  datatype RoomReaction = Fine | Thrown(error: Error) | Stopped(halt: Halt)

  /** Sessions that are pairwise different objects. */
  ghost predicate Distinct(os: seq<Session>) {
    forall i, j :: 0 <= i < j < |os| ==> os[i] != os[j]
  }

  /** Ids of the map, each once. */
  ghost predicate Lists(u: map<Identity, Session>, ids: seq<Identity>) {
    && (forall k :: k in u <==> k in ids)
    && (forall i, j :: 0 <= i < j < |ids| ==> ids[i] != ids[j])
  }

  lemma OrderLists(order: Ordering, keys: set<Identity>)
    requires Enumerates(order)
    ensures forall u: map<Identity, Session> :: u.Keys == keys ==> Lists(u, order(keys))
  {}

  function Listing(u: map<Identity, Session>, ids: seq<Identity>): (os: seq<Session>)
    requires Lists(u, ids)
    ensures |os| == |ids| && forall i :: 0 <= i < |ids| ==> ids[i] in u && os[i] == u[ids[i]]
  {
    seq(|ids|, i requires 0 <= i < |ids| => u[ids[i]])
  }

  lemma ListingDistinct(u: map<Identity, Session>, ids: seq<Identity>)
    requires Lists(u, ids) && forall k, l :: k in u && l in u && k != l ==> u[k] != u[l]
    ensures Distinct(Listing(u, ids))
  {}

  method StaleIfInLimbo(o: Session, heir: Identity)
    requires o.Valid()
    modifies o`myState
    ensures o.Valid() && o.View() == Staled(old(o.View()), heir)
  {
    if o.myState != Dead && o.myState != InSession && o.sessionId != heir {
      o.StaleMe();
    }
  }

  method StaleAll(os: seq<Session>, heir: Identity)
    requires Distinct(os) && forall j :: 0 <= j < |os| ==> os[j].Valid()
    modifies set j | 0 <= j < |os| :: os[j]`myState
    ensures forall j :: 0 <= j < |os| ==> os[j].Valid() && os[j].View() == Staled(old(os[j].View()), heir)
  {
    hide Session.View, Session.Valid, Fit, Staled;
    for i := 0 to |os|
      invariant forall j :: 0 <= j < |os| ==> os[j].Valid()
      invariant forall j :: i <= j < |os| ==> os[j].View() == old(os[j].View())
      invariant forall j :: 0 <= j < i ==> os[j].View() == Staled(old(os[j].View()), heir)
    {
      StaleIfInLimbo(os[i], heir);
    }
  }

  // ---------- refreshing ----------

  ghost function ObjectsOf(m: map<Identity, Session>): set<Session> {
    set k | k in m :: m[k]
  }

  ghost function ValuesOf(m: map<Identity, Session>): (u: Universe)
    reads ObjectsOf(m)
    ensures u.Keys == m.Keys
  {
    map k | k in m :: m[k].View()
  }

  /** Newly bred sessions under their own ids, no two of them one object. */
  ghost predicate Brood(su: Suite, m: map<Identity, Session>)
    reads ObjectsOf(m)
  {
    && (forall k :: k in m ==> m[k].Valid() && Fit(m[k].View()) && m[k].su == su)
    && (forall k, l :: k in m && l in m && k != l ==> m[k] != m[l])
  }

  function SweptOne(s: Sess, parent: Identity): Sess {
    if InLimbo(s, parent) then Killed(s) else s
  }

  /** Breeds the session that takes the place of one in limbo. */
  method Replacement(su: Suite, me: ParticipantId, o: Session, heir: Session, world: Surroundings)
    returns (r: Reaction, child: Session, id: Identity)
    requires o.Valid() && heir.Valid() && o != heir && WellFormed(o.View()) && WellFormed(heir.View())
    modifies o`myState
    ensures o.Valid() && o.View() == Killed(old(o.View()))
    ensures fresh(child) && child.su == su
    ensures BornInto(r, Rebirth(su, me, old(o.View()), heir.View(), world), child)
    ensures id == IdentityOf(Reparented(old(o.View()), heir.View()))
  {
    hide Session.View, Session.Valid, WellFormed, Conceive, FutureRoster, Delta, Plus, IdentityOf, Consistent,
      BornInto;
    ReparentedConsistent(o.View(), heir.View());
    var delta := o.DeltaPlist();
    o.CommitSuicide();
    var live := heir.FutureParticipants();
    var roster := Plus(delta, live);
    FutureIs(heir);
    id := IdentityOf(roster);
    r, child := Session.Create(su, Acceptor, me, heir.futureCryptic, roster, live, None, world);
  }

  /** Stopped exactly when nothing is to come, and else what is to come has come. */
  ghost predicate Comes(stopped: bool, now: Universe, wanted: Option<Universe>) {
    if stopped then wanted == None else wanted == Some(now)
  }

  /** A session in limbo dies, and another is bred for what it adds, under the new parent. */
  method RefreshOne(su: Suite, me: ParticipantId, o: Session, heir: Session, refreshed: map<Identity, Session>,
                    world: Surroundings) returns (stopped: bool, bred: map<Identity, Session>)
    requires o.Valid() && heir.Valid() && o != heir && WellFormed(o.View()) && WellFormed(heir.View())
    requires Brood(su, refreshed) && o !in ObjectsOf(refreshed)
    modifies o`myState
    ensures o.Valid() && o.View() == Killed(old(o.View()))
    ensures Comes(stopped, ValuesOf(bred),
                  Rejoined(su, me, old(o.View()), heir.View(), old(ValuesOf(refreshed)), world))
    ensures Brood(su, bred)
    ensures fresh(ObjectsOf(bred) - ObjectsOf(refreshed))
  {
    hide Session.View, Session.Valid, Fit, WellFormed, Rebirth, IdentityOf, Reparented, Brood, ValuesOf;
    ghost var s, parent := o.View(), heir.View();
    RebirthFits(su, me, s, parent, world);
    var r, child, id := Replacement(su, me, o, heir, world);
    stopped, bred := r.Aborted?, refreshed;
    if r.Did? && id !in refreshed {
      bred := refreshed[id := child];
      BroodGrows(su, refreshed, id, child);
    }
  }

  lemma BroodParts(su: Suite, m: map<Identity, Session>)
    requires Brood(su, m)
    ensures forall k :: k in m ==> m[k].Valid() && m[k].su == su && ValuesOf(m)[k] == m[k].View()
    ensures forall k, l :: k in m && l in m && k != l ==> m[k] != m[l]
    ensures FitAll(ValuesOf(m))
  {
    hide Session.View, Session.Valid, Fit;
  }

  lemma BroodGrows(su: Suite, m: map<Identity, Session>, id: Identity, child: Session)
    requires Brood(su, m) && child.Valid() && Fit(child.View()) && child.su == su && child !in ObjectsOf(m)
    ensures Brood(su, m[id := child]) && ValuesOf(m[id := child]) == ValuesOf(m)[id := child.View()]
    ensures ObjectsOf(m[id := child]) <= ObjectsOf(m) + {child}
  {
    hide Session.View, Session.Valid, Fit;
    assert forall k :: k in m ==> m[k] in ObjectsOf(m);
  }

  /** What has been bred once one more session is visited. */
  ghost function Visited(su: Suite, me: ParticipantId, s: Sess, parent: Sess, id: Identity, bred: Universe,
                         world: Surroundings): Option<Universe>
    requires WellFormed(s) && WellFormed(parent)
  {
    hide WellFormed;
    if InLimbo(s, id) then Rejoined(su, me, s, parent, bred, world) else Some(bred)
  }

  /** Visits one session: replaced when in limbo, left alone otherwise. */
  method Visit(su: Suite, me: ParticipantId, o: Session, parent: Identity, heir: Session,
               refreshed: map<Identity, Session>, world: Surroundings)
    returns (stopped: bool, bred: map<Identity, Session>, dead: bool)
    requires o.Valid() && heir.Valid() && WellFormed(o.View()) && WellFormed(heir.View())
    requires heir.View().phase == InSession
    requires Brood(su, refreshed) && o !in ObjectsOf(refreshed)
    modifies o`myState
    ensures o.Valid() && o.View() == SweptOne(old(o.View()), parent) && (dead <==> old(o.View()).phase == Dead)
    ensures heir.Valid() && heir.View() == old(heir.View())
    ensures Comes(stopped, ValuesOf(bred),
                  Visited(su, me, old(o.View()), old(heir.View()), parent, old(ValuesOf(refreshed)), world))
    ensures Brood(su, bred)
    ensures fresh(ObjectsOf(bred) - ObjectsOf(refreshed))
  {
    hide Session.View, Session.Valid, WellFormed, Rejoined, Brood, ValuesOf, Killed;
    ViewParts(o);
    ViewParts(heir);
    stopped, bred, dead := false, refreshed, o.myState == Dead;
    if o.myState != Dead && o.myState != InSession && o.sessionId != parent {
      stopped, bred := RefreshOne(su, me, o, heir, refreshed, world);
    }
  }

  /** The sessions listed are those of the value r, at their ids. */
  ghost predicate Pictured(os: seq<Session>, ids: seq<Identity>, r: RoomState)
    reads os
  {
    && |os| == |ids|
    && forall j :: 0 <= j < |os| ==> PicturedAt(os[j], ids[j], r)
  }

  ghost predicate PicturedAt(o: Session, id: Identity, r: RoomState)
    reads o
  {
    o.Valid() && WellFormed(o.View()) && id in r.universe && r.universe[id] == o.View()
  }

  ghost predicate SweptAt(o: Session, id: Identity, r: RoomState, parent: Identity)
    reads o
  {
    o.Valid() && id in r.universe && o.View() == SweptOne(r.universe[id], parent)
  }

  ghost function DeadOnes(r: RoomState, ids: seq<Identity>): set<Identity> {
    set k | k in ids && k in r.universe && r.universe[k].phase == Dead
  }

  lemma DeadOnesNext(r: RoomState, ids: seq<Identity>, k: Identity)
    requires k in r.universe
    ensures DeadOnes(r, []) == {}
    ensures DeadOnes(r, ids + [k]) == if r.universe[k].phase == Dead then DeadOnes(r, ids) + {k} else DeadOnes(r, ids)
  {}

  /** Visits all sessions: those in limbo are replaced, those dead before are noted. */
  method SweepAll(su: Suite, me: ParticipantId, os: seq<Session>, ids: seq<Identity>, parent: Identity, heir: Session,
                  ghost r: RoomState, world: Surroundings)
    returns (stopped: bool, refreshed: map<Identity, Session>, gone: set<Identity>)
    requires Distinct(os) && Pictured(os, ids, r) && r.me == me
    requires heir.Valid() && WellFormed(heir.View()) && heir.View().phase == InSession
    requires parent in r.universe && r.universe[parent] == heir.View()
    modifies set j | 0 <= j < |os| :: os[j]`myState
    ensures Comes(stopped, ValuesOf(refreshed), Refreshed(su, r, parent, ids, world))
    ensures Brood(su, refreshed) && fresh(ObjectsOf(refreshed))
    ensures !stopped ==> forall j :: 0 <= j < |os| ==> SweptAt(os[j], ids[j], r, parent)
    ensures !stopped ==> gone == DeadOnes(r, ids)
  {
    hide Session.View, Session.Valid, WellFormed, Refreshed, Visited, Brood, ValuesOf, SweptOne, DeadOnes, InLimbo;
    stopped, refreshed, gone := false, map[], {};
    EmptyBrood(su);
    RefreshedNone(su, r, parent, world);
    DeadOnesNext(r, [], parent);
    for i := 0 to |os|
      invariant !stopped && Brood(su, refreshed) && fresh(ObjectsOf(refreshed))
      invariant Refreshed(su, r, parent, ids[..i], world) == Some(ValuesOf(refreshed))
      invariant forall j :: i <= j < |os| ==> PicturedAt(os[j], ids[j], r)
      invariant forall j :: 0 <= j < i ==> SweptAt(os[j], ids[j], r, parent)
      invariant heir.Valid() && heir.View() == r.universe[parent]
      invariant gone == DeadOnes(r, ids[..i])
    {
      PrefixGrows(ids, i);
      assert PicturedAt(os[i], ids[i], r);
      RefreshedNext(su, r, parent, ids, i, world);
      var dead;
      stopped, refreshed, dead := Visit(su, me, os[i], parent, heir, refreshed, world);
      if stopped {
        RefreshedStopped(su, r, parent, ids, i + 1, world);
        return;
      }
      DeadOnesNext(r, ids[..i], ids[i]);
      if dead {
        gone := gone + {ids[i]};
      }
    }
    assert ids[..|os|] == ids;
  }

  lemma RefreshedNone(su: Suite, r: RoomState, parent: Identity, world: Surroundings)
    requires parent in r.universe && WellFormed(r.universe[parent])
    ensures Refreshed(su, r, parent, [], world) == Some(map[])
  {}

  lemma RefreshedNext(su: Suite, r: RoomState, parent: Identity, ids: seq<Identity>, i: nat, world: Surroundings)
    requires parent in r.universe && WellFormed(r.universe[parent]) && i < |ids|
    requires forall k :: k in ids[..i + 1] ==> k in r.universe && WellFormed(r.universe[k])
    ensures ids[i] in r.universe && WellFormed(r.universe[ids[i]])
    ensures forall k :: k in ids[..i] ==> k in r.universe && WellFormed(r.universe[k])
    ensures Refreshed(su, r, parent, ids[..i], world).Some? ==>
      Refreshed(su, r, parent, ids[..i + 1], world)
      == Visited(su, r.me, r.universe[ids[i]], r.universe[parent], parent,
                 Refreshed(su, r, parent, ids[..i], world).value, world)
  {
    hide WellFormed, Rejoined;
    PrefixGrows(ids, i);
    assert ids[i] in ids[..i + 1];
    assert forall k :: k in ids[..i] ==> k in ids[..i + 1];
  }

  lemma PrefixGrows<T>(s: seq<T>, i: nat)
    requires i < |s|
    ensures s[..i + 1] == s[..i] + [s[i]] && s[..i + 1][..i] == s[..i] && s[..i + 1][i] == s[i]
  {}

  lemma EmptyBrood(su: Suite)
    ensures Brood(su, map[]) && ValuesOf(map[]) == map[] && ObjectsOf(map[]) == {}
  {}

  lemma ViewParts(o: Session)
    ensures o.View().phase == o.myState && o.View().sid == o.sessionId
  {}

  lemma {:induction false} RefreshedStopped(su: Suite, r: RoomState, parent: Identity, ids: seq<Identity>, n: nat,
                                            world: Surroundings)
    requires parent in r.universe && WellFormed(r.universe[parent]) && n <= |ids|
    requires forall k :: k in ids ==> k in r.universe && WellFormed(r.universe[k])
    requires Refreshed(su, r, parent, ids[..n], world) == None
    ensures Refreshed(su, r, parent, ids, world) == None
    decreases |ids|
  {
    hide WellFormed, Rejoined;
    if n == |ids| {
      assert ids[..n] == ids;
    } else {
      assert ids[..|ids| - 1][..n] == ids[..n];
      RefreshedStopped(su, r, parent, ids[..|ids| - 1], n, world);
    }
  }

  lemma FutureIs(o: Session)
    ensures o.View().future == o.futureCryptic
  {}

  lemma RebirthFits(su: Suite, me: ParticipantId, s: Sess, parent: Sess, world: Surroundings)
    requires WellFormed(s) && WellFormed(parent)
    ensures var birth := Rebirth(su, me, s, parent, world); birth.Born? ==> Fit(birth.child)
  {
    hide Rebirth, Fit, WellFormed;
    RebirthReplaces(su, me, s, parent, world);
  }

  /** The room has done what the verdict says; after a failed assertion there is no room left to speak of. */
  ghost predicate Answers(v: RoomReaction, verdict: Verdict, now: RoomState) {
    match verdict
    case Settled(room) => v == Fine && now == room
    case Escaped(room, error) => v == Thrown(error) && now == room
    case Halted(halt) => v == Stopped(halt)
  }

  class Room {
    const su: Suite
    const myself: ParticipantId
    const ephemeralCrypto: Block
    var sessionUniverse: map<Identity, Session>
    var activeSession: Option<Identity>
    var nextInActivationLine: Option<Identity>
    var joining: bool

    ghost function Objects(): set<Session>
      reads this
    {
      ObjectsOf(sessionUniverse)
    }

    ghost function Values(): Universe
      reads this, Objects()
    {
      ValuesOf(sessionUniverse)
    }

    ghost function View(): RoomState
      reads this, Objects()
    {
      RoomState(myself, ephemeralCrypto, Values(), activeSession, nextInActivationLine, joining)
    }

    /** Every session is valid with an id made of its members, and no two ids share an object. */
    ghost predicate Valid()
      reads this, Objects()
    {
      Brood(su, sessionUniverse)
    }

    constructor (su: Suite, me: ParticipantId, key: Block)
      ensures Valid() && View() == RoomState(me, key, map[], None, None, true)
    {
      this.su, myself, ephemeralCrypto := su, me, key;
      sessionUniverse, activeSession, nextInActivationLine, joining := map[], None, None, true;
    }

    /** A new session takes its place, whatever was there. */
    method Place(k: Identity, o: Session)
      requires Valid() && o.Valid() && Fit(o.View()) && o.su == su && o !in Objects()
      modifies `sessionUniverse
      ensures Valid() && sessionUniverse == old(sessionUniverse)[k := o] && View() == Put(old(View()), k, o.View())
    {
      hide Session.View, Session.Valid, Fit, Brood, ValuesOf;
      BroodGrows(su, sessionUniverse, k, o);
      sessionUniverse := sessionUniverse[k := o];
      assert forall p :: p in ObjectsOf(sessionUniverse) ==> unchanged(p);
    }

    /** Stales every session in limbo. */
    method StaleLimbo(heir: Identity, order: Ordering)
      requires Valid() && Enumerates(order)
      modifies Objects()`myState
      ensures forall k :: k in sessionUniverse ==>
        && sessionUniverse[k].Valid() && Fit(sessionUniverse[k].View())
        && sessionUniverse[k].View() == Staled(old(sessionUniverse[k].View()), heir)
    {
      hide Session.View, Session.Valid, Fit, Staled;
      var ids := order(sessionUniverse.Keys);
      OrderLists(order, sessionUniverse.Keys);
      var os := Listing(sessionUniverse, ids);
      ListingDistinct(sessionUniverse, ids);
      StaleAll(os, heir);
      forall k | k in sessionUniverse
        ensures sessionUniverse[k].Valid() && Fit(sessionUniverse[k].View())
        ensures sessionUniverse[k].View() == Staled(old(sessionUniverse[k].View()), heir)
      {
        var i :| 0 <= i < |ids| && ids[i] == k;
        assert os[i] == sessionUniverse[k];
        StaledFits(old(sessionUniverse[k].View()), heir);
      }
    }

    /** `stale_in_limbo_sessions_presume_heir`. */
    method StaleInLimboSessionsPresumeHeir(heir: Identity, order: Ordering)
      requires Valid() && Enumerates(order)
      modifies `nextInActivationLine, Objects()`myState
      ensures Valid() && View() == Presume(old(View()), heir)
    {
      hide Session.View, Session.Valid, Fit, Staled, Presume, Enumerates;
      nextInActivationLine := Some(heir);
      StaleLimbo(heir, order);
      PresumeAs(old(View()), heir, Values());
    }

    /** A session that asks for nothing but its place gets it only if the id is free. */
    method InsertIfFree(o: Session)
      requires Valid() && o.Valid() && Fit(o.View()) && o.su == su && o !in Objects()
      modifies `sessionUniverse
      ensures Valid() && View() == Insert(old(View()), o.View())
      ensures Objects() <= old(Objects()) + {o}
    {
      hide Session.Valid, Fit, Put;
      if o.sessionId !in sessionUniverse {
        Place(o.sessionId, o);
      }
    }

    /** What a session asks for when it has handled a message. */
    method Enact(deed: Deed, ghost action: Action, ghost actor: Sess, claimant: Identity,
                 order: Ordering)
      requires Valid() && Enumerates(order) && Mirrors(Did(deed), Done(actor, action)) && claimant == actor.sid
      requires deed.Breed? ==> deed.child.su == su && Fit(deed.child.View())
      requires deed.BreedHeir? ==> deed.heir.su == su && Fit(deed.heir.View())
      requires Newborns(deed) !! Objects()
      modifies `sessionUniverse, `nextInActivationLine, Objects()`myState, Newborns(deed)`myState
      ensures Valid() && View() == Act(old(View()), action, actor)
      ensures Objects() <= old(Objects()) + Newborns(deed)
    {
      hide Session.Valid, Fit, Presume, Insert, Enumerates;
      match deed
      case Nothing =>
      case Breed(child) => InsertIfFree(child);
      case BreedHeir(heir) =>
        var id := heir.sessionId;
        InsertIfFree(heir);
        StaleInLimboSessionsPresumeHeir(id, order);
      case ClaimHeir => StaleInLimboSessionsPresumeHeir(claimant, order);
    }

    /** One session object handles a message; nobody else's session changes. */
    method HandleBy(k: Identity, d: Delivery, world: Surroundings) returns (r: Reaction)
      requires Valid() && k in sessionUniverse
      modifies sessionUniverse[k]
      ensures FreshDeed(su, r)
      ensures r.Did? ==> fresh(Newborns(r.deed)) && Newborns(r.deed) !! Objects()
      ensures var s := old(sessionUniverse[k].View());
        && WellFormed(s)
        && var outcome := Handle(su, s, d, world);
           && Mirrors(r, outcome)
           && (!r.Aborted? ==>
                 && Valid() && sessionUniverse[k].View() == After(s, outcome)
                 && View() == Put(old(View()), k, After(s, outcome)))
    {
      hide Session.View, Session.Valid, Fit, Handle, WellFormed, Mirrors, HandleFits;
      HandleStaysFit(su, sessionUniverse[k].View(), d, world);
      r := sessionUniverse[k].StateHandler(d, world);
      assert r.Aborted? || Values() == old(Values())[k := sessionUniverse[k].View()];
    }

    /** The same for a view that is given to the heir. */
    method PlistBy(k: Identity, d: Delivery, world: Surroundings) returns (r: Reaction)
      requires Valid() && k in sessionUniverse && IsInfo(d)
      ensures WellFormed(sessionUniverse[k].View()) && FreshDeed(su, r)
      ensures r.Did? ==> fresh(Newborns(r.deed)) && Newborns(r.deed) !! Objects()
      ensures Mirrors(r, InitWithPlist(su, sessionUniverse[k].View(), d, world))
      ensures Valid() && View() == old(View()) && sessionUniverse[k].View() == old(sessionUniverse[k].View())
    {
      hide Session.View, Session.Valid, Fit, InitWithPlist, WellFormed, Mirrors, Brood, ValuesOf;
      BroodParts(su, sessionUniverse);
      BroodFit(su, sessionUniverse, k);
      r := sessionUniverse[k].InitASessionWithPlist(d, world);
      assert forall o :: o in ObjectsOf(sessionUniverse) ==> unchanged(o);
    }

    /** A current user's session handles a message, and the room does what it asks; exceptions stop here. */
    method DispatchTo(k: Identity, d: Delivery, world: Surroundings, order: Ordering)
      returns (v: RoomReaction)
      requires Valid() && k in sessionUniverse && Enumerates(order)
      modifies this, Objects()
      ensures WellFormed(old(sessionUniverse[k].View()))
      ensures Answers(v, Dispatched(old(View()), k, Handle(su, old(sessionUniverse[k].View()), d, world)), View())
      ensures v.Stopped? || Valid()
      ensures fresh(Objects() - old(Objects()))
    {
      hide Session.View, Session.Valid, Fit, Handle, WellFormed, Enumerates, Act, Put, HandleFits;
      ghost var s := sessionUniverse[k].View();
      HandleStaysFit(su, s, d, world);
      var r := HandleBy(k, d, world);
      ghost var outcome := Handle(su, s, d, world);
      match r
      case Aborted(cause) => v := Stopped(InSessionCode(cause));
      case Raised(_) => v := Fine;
      case Did(deed) =>
        v := Fine;
        SidIs(sessionUniverse[k]);
        NewbornsFit(s, outcome, deed);
        Enact(deed, outcome.action, outcome.sess, sessionUniverse[k].sessionId, order);
    }

    // ---------- activation ----------

    /** Sweeps the universe: whoever is left stands with its new value, and the replacements are apart. */
    method Sweep(parent: Identity, ghost r: RoomState, ids: seq<Identity>, world: Surroundings)
      returns (stopped: bool, refreshed: map<Identity, Session>, gone: set<Identity>)
      requires Valid() && Lists(sessionUniverse, ids) && parent in sessionUniverse
      requires r == View() && Visitable(r, parent, ids)
      modifies Objects()`myState
      ensures Comes(stopped, ValuesOf(refreshed), Refreshed(su, r, parent, ids, world))
      ensures Brood(su, refreshed) && fresh(ObjectsOf(refreshed))
      ensures ObjectsOf(refreshed) !! Objects()
      ensures !stopped ==> Swept(su, r, parent, sessionUniverse, gone)
    {
      hide Session.View, Session.Valid, Fit, WellFormed, Refreshed, Brood, ValuesOf, SweptOne, Comes, SweptAt;
      BroodParts(su, sessionUniverse);
      var os := Listing(sessionUniverse, ids);
      ListingDistinct(sessionUniverse, ids);
      forall j | 0 <= j < |os| ensures PicturedAt(os[j], ids[j], r) {}
      stopped, refreshed, gone := SweepAll(su, myself, os, ids, parent, sessionUniverse[parent], r, world);
      forall k | k in sessionUniverse && !stopped
        ensures SweptAt(sessionUniverse[k], k, r, parent) && (k in gone <==> r.universe[k].phase == Dead)
      {
        var j :| 0 <= j < |ids| && ids[j] == k;
        assert os[j] == sessionUniverse[k];
      }
    }

    /** `refresh_stale_in_limbo_sessions`. */
    method RefreshStaleInLimboSessions(parent: Identity, ghost r: RoomState, ids: seq<Identity>, world: Surroundings)
      returns (v: RoomReaction)
      requires Valid() && Lists(sessionUniverse, ids) && parent in sessionUniverse
      requires r == View() && Visitable(r, parent, ids)
      modifies `sessionUniverse, Objects()`myState
      ensures Answers(v, Refresh(su, r, parent, ids, world), View())
      ensures v.Stopped? || Valid()
      ensures fresh(Objects() - old(Objects()))
    {
      hide Session.View, Session.Valid, Fit, WellFormed, Refresh, Refreshed, FitAll, Survivors, Brood, ValuesOf,
        Swept, Lists, Visitable, Enumerates, ObjectsOf;
      VisitableFacts(r, parent, ids);
      var stopped, refreshed, gone := Sweep(parent, r, ids, world);
      RefreshAs(su, r, parent, ids, world);
      if stopped {
        return Stopped(InSessionCode(SecondAddition));
      }
      Adopt(refreshed, gone, r, parent, ValuesOf(refreshed));
      v := Fine;
    }

    /** Erases who was dead before and merges the replacements into what is left, which wins. */
    method Adopt(refreshed: map<Identity, Session>, gone: set<Identity>, ghost r: RoomState, ghost parent: Identity,
                 ghost bred: Universe)
      requires Brood(su, refreshed) && ObjectsOf(refreshed) !! Objects() && bred == ValuesOf(refreshed)
      requires Swept(su, r, parent, sessionUniverse, gone)
      modifies `sessionUniverse
      ensures Valid() && Values() == bred + Survivors(r.universe, parent)
      ensures Objects() <= old(Objects()) + ObjectsOf(refreshed)
    {
      hide Session.View, Session.Valid, Fit, Brood, ValuesOf, Survivors, Swept, ObjectsOf;
      OverlaidValid(su, r, parent, sessionUniverse, gone, refreshed);
      ObjectsJoin(refreshed, sessionUniverse, gone);
      sessionUniverse := refreshed + (sessionUniverse - gone);
      assert forall o :: o in ObjectsOf(sessionUniverse) ==> unchanged(o);
    }

    /** One session dies where it stands. */
    method KillAt(k: Identity)
      requires Valid() && k in sessionUniverse
      modifies {sessionUniverse[k]}`myState
      ensures Valid() && View() == Put(old(View()), k, Killed(old(sessionUniverse[k].View())))
    {
      hide Session.View, Session.Valid, Fit, Killed;
      var o := sessionUniverse[k];
      KilledFits(o.View());
      o.CommitSuicide();
      KilledIs(old(o.View()));
      assert Values() == old(Values())[k := o.View()];
    }

    method SetActive(sid: Identity)
      requires Valid()
      modifies `activeSession
      ensures Valid() && View() == old(View()).(active := Some(sid))
    {
      hide Brood, ValuesOf;
      activeSession := Some(sid);
      assert forall o :: o in ObjectsOf(sessionUniverse) ==> unchanged(o);
    }

    /** The first activation makes a current user of a joining one. */
    method Enter(sid: Identity)
      requires Valid()
      modifies `joining, `nextInActivationLine, `activeSession
      ensures Valid() && View() == old(View()).(joining := false, next := Some(sid), active := Some(sid))
    {
      hide Brood, ValuesOf;
      joining, nextInActivationLine, activeSession := false, Some(sid), Some(sid);
      assert forall o :: o in ObjectsOf(sessionUniverse) ==> unchanged(o);
    }

    /** `activate_session` of a session that is in session. */
    method ActivateSession(sid: Identity, ghost r: RoomState, ids: seq<Identity>, world: Surroundings)
      returns (v: RoomReaction)
      requires Valid() && Lists(sessionUniverse, ids) && sid in sessionUniverse
      requires r == View() && Visitable(r, sid, ids)
      modifies this, Objects()`myState
      ensures FitAll(r.universe) && Answers(v, Activate(su, r, sid, ids, world), View())
      ensures v.Stopped? || Valid()
      ensures fresh(Objects() - old(Objects()))
    {
      hide Session.View, Session.Valid, Fit, WellFormed, Refresh, FitAll, Brood, ValuesOf, Killed, Lists, Visitable,
        Put, ObjectsOf;
      VisitableFacts(r, sid, ids);
      if activeSession == None {
        Enter(sid);
        return Fine;
      }
      if nextInActivationLine != Some(sid) {
        return Stopped(IllegitimateActivation);
      }
      v := RefreshStaleInLimboSessions(sid, r, ids, world);
      if v == Fine {
        if activeSession.value !in sessionUniverse {
          return Stopped(NoActiveSession);
        }
        BroodParts(su, sessionUniverse);
        ObjectIn(sessionUniverse, activeSession.value);
        KillAt(activeSession.value);
        SetActive(sid);
      }
    }

    // ---------- receiving ----------

    /** A view for a session the room does not know goes to the heir. */
    method PlistTo(k: Identity, d: Delivery, world: Surroundings, order: Ordering, ghost r: RoomState)
      returns (v: RoomReaction)
      requires Valid() && k in sessionUniverse && Enumerates(order) && IsInfo(d) && r == View()
      modifies this, Objects()`myState
      ensures WellFormed(r.universe[k])
      ensures Answers(v, Dispatched(r, k, InitWithPlist(su, r.universe[k], d, world)), View())
      ensures v.Stopped? || Valid()
      ensures fresh(Objects() - old(Objects()))
    {
      hide Session.View, Session.Valid, Fit, InitWithPlist, WellFormed, Enumerates, Act, Put, Brood, ValuesOf,
        ObjectsOf, FitAll, FutureRoster, PlistConsidered, ListToMap, IdentityOf, Minus, Bred;
      BroodParts(su, sessionUniverse);
      BroodFit(su, sessionUniverse, k);
      var reaction := PlistBy(k, d, world);
      ghost var s := r.universe[k];
      PlistPhases(su, s, d, world);
      ghost var outcome := InitWithPlist(su, s, d, world);
      SameSeat(r, k);
      SidIs(sessionUniverse[k]);
      if reaction.Did? {
        PlistNewborn(outcome, reaction.deed);
        Enact(reaction.deed, outcome.action, outcome.sess, sessionUniverse[k].sessionId, order);
        v := Fine;
      } else if reaction.Raised? {
        v := Fine;
      } else {
        v := Stopped(InSessionCode(reaction.cause));
      }
    }

    /** The part of `receive_handler` for a current user, up to the activation. */
    method HandleAsCurrentUser(d: Delivery, world: Surroundings, order: Ordering, ghost r: RoomState)
      returns (v: RoomReaction)
      requires Valid() && Enumerates(order) && r == View()
      modifies this, Objects()
      ensures FitAll(r.universe) && Answers(v, HandleCurrent(su, r, d, world), View())
      ensures v.Stopped? || Valid()
      ensures fresh(Objects() - old(Objects()))
    {
      hide Session.View, Session.Valid, Fit, Handle, InitWithPlist, WellFormed, Enumerates, Dispatched, Brood,
        ValuesOf, ObjectsOf, FitAll;
      BroodParts(su, sessionUniverse);
      if activeSession == None || activeSession.value !in sessionUniverse {
        return Stopped(NoActiveSession);
      }
      ViewParts(sessionUniverse[activeSession.value]);
      if d.packet.Signed? && d.packet.sid in sessionUniverse {
        v := DispatchTo(d.packet.sid, d, world, order);
      } else if d.packet.Signed? && !(IsInfo(d) && sessionUniverse[activeSession.value].myState != LeaveRequested) {
        v := Fine;
      } else if nextInActivationLine == None || nextInActivationLine.value !in sessionUniverse {
        v := Stopped(NoHeir);
      } else if d.packet.Signed? {
        v := PlistTo(nextInActivationLine.value, d, world, order, r);
      } else {
        v := DispatchTo(nextInActivationLine.value, d, world, order);
      }
    }

    method OrphanEach(ids: seq<Identity>)
      requires Valid() && Lists(sessionUniverse, ids)
      modifies Objects()`myState
      ensures forall k :: k in sessionUniverse ==>
        && sessionUniverse[k].Valid() && Fit(sessionUniverse[k].View())
        && sessionUniverse[k].View() == OrphanedOne(old(sessionUniverse[k].View()))
    {
      hide Session.View, Session.Valid, OrphanedOne, Fit;
      var os := Listing(sessionUniverse, ids);
      ListingDistinct(sessionUniverse, ids);
      OrphanAll(os);
      forall k | k in sessionUniverse
        ensures sessionUniverse[k].Valid() && Fit(sessionUniverse[k].View())
        ensures sessionUniverse[k].View() == OrphanedOne(old(sessionUniverse[k].View()))
      {
        var i :| 0 <= i < |ids| && ids[i] == k;
        assert os[i] == sessionUniverse[k];
        OrphanedFits(old(sessionUniverse[k].View()));
      }
    }

    /** Every live session without any confirmation dies. */
    method KillUnconfirmed(order: Ordering)
      requires Valid() && Enumerates(order)
      modifies Objects()`myState
      ensures Valid() && View() == old(View()).(universe := Orphaned(old(Values())))
    {
      hide Session.View, Session.Valid, Fit, OrphanedOne, Orphaned, Enumerates;
      OrderLists(order, sessionUniverse.Keys);
      OrphanEach(order(sessionUniverse.Keys));
      OrphanedAs(old(Values()), Values());
    }

    method KillEach(ids: seq<Identity>)
      requires Valid() && Lists(sessionUniverse, ids)
      modifies Objects()`myState
      ensures forall k :: k in sessionUniverse ==>
        && sessionUniverse[k].Valid() && Fit(sessionUniverse[k].View())
        && sessionUniverse[k].View() == Killed(old(sessionUniverse[k].View()))
    {
      hide Session.View, Session.Valid, Killed, Fit;
      var os := Listing(sessionUniverse, ids);
      ListingDistinct(sessionUniverse, ids);
      KillAll(os);
      forall k | k in sessionUniverse
        ensures sessionUniverse[k].Valid() && Fit(sessionUniverse[k].View())
        ensures sessionUniverse[k].View() == Killed(old(sessionUniverse[k].View()))
      {
        var i :| 0 <= i < |ids| && ids[i] == k;
        assert os[i] == sessionUniverse[k];
        KilledFits(old(sessionUniverse[k].View()));
      }
    }

    /** `try_rejoin` of a joining user: everything in progress dies; the new request is not part of this model. */
    method TryRejoin(order: Ordering)
      requires Valid() && Enumerates(order)
      modifies Objects()`myState
      ensures Valid() && View() == AllKilled(old(View()))
    {
      hide Session.View, Session.Valid, Fit, Killed, AllKilled, Enumerates;
      OrderLists(order, sessionUniverse.Keys);
      KillEach(order(sessionUniverse.Keys));
      AllKilledAs(old(View()), Values());
    }

    /** A view of an unknown or dead session makes the joiner start one under the id of the message. */
    method JoinUnder(d: Delivery, world: Surroundings, ghost r: RoomState) returns (v: RoomReaction)
      requires Valid() && IsInfo(d) && r == View()
      modifies `sessionUniverse
      ensures match Join(su, r.me, r.key, d, world)
        case Born(child) => v == Fine && View() == Put(r, d.packet.sid, child)
        case Failed(_) => v == Fine && View() == r
        case Fatal(cause) => v == Stopped(InSessionCode(cause))
      ensures v.Stopped? || Valid()
      ensures fresh(Objects() - old(Objects()))
    {
      hide Session.View, Session.Valid, Fit, Join, Put, Brood, ValuesOf;
      var reaction, o := Session.CreateJoiner(su, myself, ephemeralCrypto, d, world);
      assert forall p :: p in ObjectsOf(sessionUniverse) ==> unchanged(p);
      if reaction.Did? {
        JoinFit(su, myself, ephemeralCrypto, d, world);
        Place(d.packet.sid, o);
      }
      v := if reaction.Aborted? then Stopped(InSessionCode(reaction.cause)) else Fine;
    }

    /** The part of `receive_handler` for a joining user, up to the activation. */
    method HandleAsJoiner(d: Delivery, world: Surroundings, order: Ordering, ghost r: RoomState)
      returns (v: RoomReaction)
      requires Valid() && Enumerates(order) && r == View()
      modifies this, Objects()
      ensures FitAll(r.universe) && Answers(v, HandleJoining(su, r, d, world), View())
      ensures v.Stopped? || Valid()
      ensures fresh(Objects() - old(Objects()))
    {
      hide Session.View, Session.Valid, Fit, Handle, Join, WellFormed, Enumerates, Put, Brood, ValuesOf, ObjectsOf,
        FitAll, Orphaned;
      BroodParts(su, sessionUniverse);
      v := Fine;
      if d.packet.Signed? {
        if d.packet.sid in sessionUniverse {
          ViewParts(sessionUniverse[d.packet.sid]);
        }
        if d.packet.sid in sessionUniverse && sessionUniverse[d.packet.sid].myState != Dead {
          ObjectIn(sessionUniverse, d.packet.sid);
          var reaction := HandleBy(d.packet.sid, d, world);
          v := if reaction.Aborted? then Stopped(InSessionCode(reaction.cause))
               else if reaction.Raised? then Thrown(reaction.error) else Fine;
        } else if IsInfo(d) {
          v := JoinUnder(d, world, r);
        } else if d.packet.content.SessionConfirmation? {
          KillUnconfirmed(order);
        }
      }
    }

    /** `receive_handler`; in a governed room none of its own assertions stops it, and it stays governed. */
    method ReceiveHandler(d: Delivery, world: Surroundings, order: Ordering) returns (v: RoomReaction)
      requires Valid() && Enumerates(order)
      modifies this, Objects()
      ensures FitAll(old(Values())) && Answers(v, RoomRuns.Receive(su, old(View()), d, order, world), View())
      ensures v.Stopped? || Valid()
      ensures Governed(old(View())) ==>
        (v.Fine? && Governed(View())) || (v.Stopped? && v.halt.InSessionCode? && Stops(su, old(View()), d))
    {
      hide Session.View, Session.Valid, Fit, WellFormed, Brood, ValuesOf, ObjectsOf, FitAll, Activate, HandleCurrent,
        HandleJoining, Governed, Stops, Enumerates, Confirmed;
      ghost var r := View();
      if Governed(r) {
        ReceiveKeeps(su, r, d, order, world);
      }
      if joining {
        v := HandleAsJoiner(d, world, order, r);
      } else {
        v := HandleAsCurrentUser(d, world, order, r);
      }
      if v == Fine {
        v := MayActivate(d, world, order, View());
      }
    }

    /** Activates the session of the message if that has just come into session. */
    method MayActivate(d: Delivery, world: Surroundings, order: Ordering, ghost r: RoomState)
      returns (v: RoomReaction)
      requires Valid() && Enumerates(order) && r == View()
      modifies this, Objects()`myState
      ensures FitAll(r.universe) && Orders(order(r.universe.Keys), r.universe)
      ensures Answers(v,
        if Confirmed(r, d) then Activate(su, r, d.packet.sid, order(r.universe.Keys), world) else Settled(r), View())
      ensures v.Stopped? || Valid()
    {
      hide Session.View, Session.Valid, Fit, WellFormed, Brood, ValuesOf, ObjectsOf, FitAll, Activate, Enumerates,
        Visitable;
      BroodParts(su, sessionUniverse);
      EnumeratesOrders(order, r.universe);
      v := Fine;
      if d.packet.Signed? && d.packet.sid in sessionUniverse && activeSession != Some(d.packet.sid) {
        ViewParts(sessionUniverse[d.packet.sid]);
        if sessionUniverse[d.packet.sid].myState == InSession {
          var ids := order(sessionUniverse.Keys);
          OrderLists(order, sessionUniverse.Keys);
          VisitableNow(su, sessionUniverse, r, d.packet.sid, ids);
          v := ActivateSession(d.packet.sid, r, ids, world);
        }
      }
    }

    // ---------- leaving, timers ----------

    /** `shrink`. */
    method ShrinkRoomOn(leaver: Nick, world: Surroundings, order: Ordering, ghost r: RoomState)
      returns (v: RoomReaction)
      requires Valid() && Enumerates(order) && r == View()
      modifies this, Objects()
      ensures FitAll(r.universe) && Answers(v, ShrinkRoom(su, r, leaver, world), View())
      ensures v.Stopped? || Valid()
    {
      hide Session.View, Session.Valid, Fit, Shrink, WellFormed, Enumerates, Put, Brood, ValuesOf, ObjectsOf, FitAll,
        AllKilled, Presume;
      BroodParts(su, sessionUniverse);
      if joining {
        TryRejoin(order);
        return Fine;
      }
      if activeSession == None || activeSession.value !in sessionUniverse {
        return Stopped(NoActiveSession);
      }
      var k := activeSession.value;
      BroodFit(su, sessionUniverse, k);
      ObjectIn(sessionUniverse, k);
      ghost var s := r.universe[k];
      var reaction := ShrinkBy(k, leaver, world);
      ShrinkBreeds(su, s, leaver, world);
      match reaction
      case Aborted(cause) => v := Stopped(InSessionCode(cause));
      case Raised(_) => v := Fine;
      case Did(deed) =>
        v := Fine;
        if deed.BreedHeir? {
          HeirFit(Shrink(su, s, leaver, world), deed);
          Crown(deed.heir, order);
        } else if deed != Nothing {
          v := Stopped(OddShrink);
        }
    }

    /** A successor replaces whatever has its id and becomes the heir. */
    method Crown(heir: Session, order: Ordering)
      requires Valid() && Enumerates(order)
      requires heir.Valid() && Fit(heir.View()) && heir.su == su && heir !in Objects()
      modifies `sessionUniverse, `nextInActivationLine, Objects()`myState, heir`myState
      ensures Valid()
      ensures var s := old(heir.View()); View() == Presume(Put(old(View()), s.sid, s), s.sid)
    {
      hide Session.View, Session.Valid, Fit, Enumerates, Put, Brood, ValuesOf, ObjectsOf, Presume;
      var id := heir.sessionId;
      SidIs(heir);
      ObjectsPut(sessionUniverse, id, heir);
      Place(id, heir);
      StaleInLimboSessionsPresumeHeir(id, order);
    }

    /** The active session object takes note of a leaver; nobody else's session changes. */
    method ShrinkBy(k: Identity, leaver: Nick, world: Surroundings) returns (r: Reaction)
      requires Valid() && k in sessionUniverse
      modifies {sessionUniverse[k]}`zombies
      ensures FreshDeed(su, r)
      ensures r.Did? ==> fresh(Newborns(r.deed)) && Newborns(r.deed) !! Objects()
      ensures var s := old(sessionUniverse[k].View());
        && WellFormed(s)
        && var outcome := Shrink(su, s, leaver, world);
           && Mirrors(r, outcome)
           && (!r.Aborted? ==> Valid() && View() == Put(old(View()), k, After(s, outcome)))
    {
      hide Session.View, Session.Valid, Fit, Shrink, WellFormed, Mirrors;
      ShrinkStaysFit(su, sessionUniverse[k].View(), leaver, world);
      r := sessionUniverse[k].ShrinkOn(leaver, world);
      assert r.Aborted? || Values() == old(Values())[k := sessionUniverse[k].View()];
    }

    /** Breeds a session of the same live members with their next keys. */
    method SuccessorOf(k: Identity, ghost s: Sess, world: Surroundings) returns (reaction: Reaction, child: Session)
      requires Valid() && k in sessionUniverse && s == sessionUniverse[k].View() && WellFormed(s)
      ensures Consistent(FutureRoster(s)) && fresh(child) && child !in Objects() && child.su == su
      ensures BornInto(reaction, Conceive(su, Peer, s.me, s.future, FutureRoster(s), map[], None, world), child)
      ensures Valid() && View() == old(View())
    {
      hide Session.View, Session.Valid, Fit, Brood, ValuesOf, WellFormed, Conceive, FutureRoster, Consistent,
        BornInto;
      BroodParts(su, sessionUniverse);
      var o := sessionUniverse[k];
      FutureIs(o);
      FutureRosterConsistent(s);
      EmptyConsistent();
      MeIs(o);
      var live := o.FutureParticipants();
      reaction, child := Session.Create(su, Peer, o.myself, o.futureCryptic, live, map[], None, world);
      assert forall p :: p in ObjectsOf(sessionUniverse) ==> unchanged(p);
    }

    /** The session timer of a session in session. */
    method SessionTimerOf(k: Identity, world: Surroundings, ghost r: RoomState) returns (v: RoomReaction)
      requires Valid() && k in sessionUniverse && r == View()
      modifies `sessionUniverse, Objects()`myState
      ensures FitAll(r.universe) && Answers(v, Resession(su, r, k, world), View())
      ensures v.Stopped? || Valid()
    {
      hide Session.View, Session.Valid, Fit, Brood, ValuesOf, FitAll, WellFormed, Conceive, FutureRoster, Consistent,
        InsertSession, SessionActions.Bred, ObjectsOf, IdentityOf;
      BroodParts(su, sessionUniverse);
      BroodFit(su, sessionUniverse, k);
      ghost var s := r.universe[k];
      var reaction, child := SuccessorOf(k, s, world);
      EmptyConsistent();
      if reaction.Did? {
        PeerFit(su, s.me, s.future, FutureRoster(s), world);
        v := InsertNewSession(child);
      } else if reaction.Raised? {
        v := Fine;
      } else {
        v := Stopped(InSessionCode(reaction.cause));
      }
    }

    /** The rejoin timer of a session that never got into session. */
    method RejoinTimerOf(k: Identity, order: Ordering)
      requires Valid() && k in sessionUniverse && Enumerates(order)
      modifies Objects()`myState
      ensures Valid() && View() == RejoinTimeout(old(View()), k)
    {
      hide Session.View, Session.Valid, Fit, Brood, FitAll, Killed, AllKilled, Put, Enumerates;
      KillAt(k);
      if joining {
        TryRejoin(order);
      }
    }

    /** `insert_session`. */
    method InsertNewSession(o: Session) returns (v: RoomReaction)
      requires Valid() && o.Valid() && Fit(o.View()) && o.su == su && o !in Objects()
      modifies `sessionUniverse, Objects()`myState
      ensures Answers(v, InsertSession(old(View()), o.View()), View())
      ensures v.Stopped? || Valid()
    {
      hide Session.View, Session.Valid, Fit, Put, Brood, ValuesOf, ObjectsOf;
      BroodParts(su, sessionUniverse);
      ViewParts(o);
      if o.myState == Dead {
        return Stopped(DeadNewcomer);
      }
      v := Fine;
      var id := o.sessionId;
      if id in sessionUniverse {
        ViewParts(sessionUniverse[id]);
        if sessionUniverse[id].myState == Dead {
          return;
        }
      }
      Place(id, o);
    }
  }

  lemma PeerFit(su: Suite, me: ParticipantId, ephemeral: Option<Block>, roster: Roster, world: Surroundings)
    requires Consistent(roster)
    ensures Consistent(map[])
    ensures var birth := Conceive(su, Peer, me, ephemeral, roster, map[], None, world); birth.Born? ==> Fit(birth.child)
  {
    hide Conceive, Fit;
    EmptyConsistent();
    if Conceive(su, Peer, me, ephemeral, roster, map[], None, world).Born? {
      ConceiveBreeds(su, Peer, me, ephemeral, roster, map[], None, world);
    }
  }

  lemma MeIs(o: Session)
    ensures o.View().me == o.myself
  {}

  lemma ObjectsPut(u: map<Identity, Session>, k: Identity, o: Session)
    ensures ObjectsOf(u[k := o]) <= ObjectsOf(u) + {o}
  {}

  lemma HeirFit(outcome: Outcome, deed: Deed)
    requires outcome.Done? && Mirrors(Did(deed), outcome) && deed.BreedHeir?
    requires outcome.action.NewPrioritySession? ==> SessionActions.Bred(outcome.action.heir)
    ensures Fit(deed.heir.View()) && deed.heir.Valid() && outcome.action.NewPrioritySession?
    ensures deed.heir.View() == outcome.action.heir
  {
    hide Fit, Session.Valid, Session.View;
  }

  lemma VisitableNow(su: Suite, u: map<Identity, Session>, r: RoomState, sid: Identity, ids: seq<Identity>)
    requires Brood(su, u) && r.universe == ValuesOf(u) && sid in u && u[sid].View().phase == InSession && Lists(u, ids)
    ensures Visitable(r, sid, ids)
  {
    hide Session.View, Session.Valid, Fit, WellFormed;
    BroodParts(su, u);
    FitMeansWellFormed(r.universe);
  }

  lemma AllKilledAs(r: RoomState, u: Universe)
    requires u.Keys == r.universe.Keys && forall k :: k in u ==> u[k] == Killed(r.universe[k])
    ensures r.(universe := u) == AllKilled(r)
  {
    hide Killed;
  }

  method KillAll(os: seq<Session>)
    requires Distinct(os) && forall j :: 0 <= j < |os| ==> os[j].Valid()
    modifies set j | 0 <= j < |os| :: os[j]`myState
    ensures forall j :: 0 <= j < |os| ==> os[j].Valid() && os[j].View() == Killed(old(os[j].View()))
  {
    hide Session.View, Session.Valid;
    for i := 0 to |os|
      invariant forall j :: 0 <= j < |os| ==> os[j].Valid()
      invariant forall j :: i <= j < |os| ==> os[j].View() == old(os[j].View())
      invariant forall j :: 0 <= j < i ==> os[j].View() == Killed(old(os[j].View()))
    {
      os[i].CommitSuicide();
    }
  }

  function OrphanedOne(s: Sess): Sess {
    if s.phase != Dead && NobodyConfirmed(s) then Killed(s) else s
  }

  lemma OrphanedFits(s: Sess)
    requires Fit(s)
    ensures Fit(OrphanedOne(s))
  {
    KilledFits(s);
  }

  lemma OrphanedAs(u: Universe, v: Universe)
    requires u.Keys == v.Keys && forall k :: k in u ==> v[k] == OrphanedOne(u[k])
    ensures v == Orphaned(u)
  {
    hide NobodyConfirmed;
  }

  method OrphanIfUnconfirmed(o: Session)
    requires o.Valid()
    modifies o`myState
    ensures o.Valid() && o.View() == OrphanedOne(old(o.View()))
  {
    var none := o.NooneConfirmed();
    if o.myState != Dead && none {
      o.CommitSuicide();
    }
  }

  method OrphanAll(os: seq<Session>)
    requires Distinct(os) && forall j :: 0 <= j < |os| ==> os[j].Valid()
    modifies set j | 0 <= j < |os| :: os[j]`myState
    ensures forall j :: 0 <= j < |os| ==> os[j].Valid() && os[j].View() == OrphanedOne(old(os[j].View()))
  {
    hide Session.View, Session.Valid, OrphanedOne;
    for i := 0 to |os|
      invariant forall j :: 0 <= j < |os| ==> os[j].Valid()
      invariant forall j :: i <= j < |os| ==> os[j].View() == old(os[j].View())
      invariant forall j :: 0 <= j < i ==> os[j].View() == OrphanedOne(old(os[j].View()))
    {
      OrphanIfUnconfirmed(os[i]);
    }
  }

  lemma PlistNewborn(outcome: Outcome, deed: Deed)
    requires outcome.Done? && Mirrors(Did(deed), outcome) && outcome.action.NewSession?
    requires SessionActions.Bred(outcome.action.child)
    ensures deed.Breed? && Fit(deed.child.View())
  {
    hide Fit, Session.Valid, Session.View;
  }

  lemma BroodFit(su: Suite, u: map<Identity, Session>, k: Identity)
    requires Brood(su, u) && k in u
    ensures Fit(u[k].View()) && WellFormed(u[k].View())
  {}

  lemma SameSeat(r: RoomState, k: Identity)
    requires k in r.universe
    ensures Put(r, k, r.universe[k]) == r
  {
    assert r.universe[k := r.universe[k]] == r.universe;
  }

  lemma KilledIs(s: Sess)
    ensures Killed(s) == s.(phase := Dead)
  {}

  lemma VisitableFacts(r: RoomState, parent: Identity, ids: seq<Identity>)
    requires Visitable(r, parent, ids)
    ensures FitAll(r.universe) && parent in r.universe && WellFormed(r.universe[parent])
    ensures forall k :: k in ids ==> k in r.universe && WellFormed(r.universe[k])
  {
    hide WellFormed, FitAll;
  }

  /** A universe of objects after the sweep. */
  ghost predicate Swept(su: Suite, r: RoomState, parent: Identity, u: map<Identity, Session>, gone: set<Identity>)
    reads ObjectsOf(u)
  {
    && u.Keys == r.universe.Keys && FitAll(r.universe)
    && (forall k :: k in u ==>
          SweptAt(u[k], k, r, parent) && u[k].su == su && (k in gone <==> r.universe[k].phase == Dead))
    && (forall k, l :: k in u && l in u && k != l ==> u[k] != u[l])
  }

  /** The room's sessions are fit, the parent is in session, and the listed ids are its sessions. */
  ghost predicate Visitable(r: RoomState, parent: Identity, ids: seq<Identity>) {
    && FitAll(r.universe) && parent in r.universe && r.universe[parent].phase == InSession
    && (forall k :: k in r.universe ==> WellFormed(r.universe[k])) && (forall k :: k in ids ==> k in r.universe)
  }

  /** What the refresh amounts to, in values. */
  lemma RefreshAs(su: Suite, r: RoomState, parent: Identity, ids: seq<Identity>, world: Surroundings)
    requires Visitable(r, parent, ids)
    ensures Refresh(su, r, parent, ids, world) == match Refreshed(su, r, parent, ids, world)
      case None => Halted(InSessionCode(SecondAddition))
      case Some(bred) => Settled(r.(universe := bred + Survivors(r.universe, parent)))
  {
    hide WellFormed, Refreshed, FitAll, Survivors;
  }

  lemma ObjectsJoin(refreshed: map<Identity, Session>, u: map<Identity, Session>, gone: set<Identity>)
    ensures ObjectsOf(refreshed + (u - gone)) <= ObjectsOf(u) + ObjectsOf(refreshed)
  {}

  lemma ObjectIn(u: map<Identity, Session>, k: Identity)
    requires k in u
    ensures u[k] in ObjectsOf(u)
  {}

  lemma SurvivorsAs(su: Suite, r: RoomState, parent: Identity, u: map<Identity, Session>, gone: set<Identity>)
    requires Swept(su, r, parent, u, gone)
    ensures ValuesOf(u - gone) == Survivors(r.universe, parent)
  {
    hide Session.View, Session.Valid, Fit, FitAll;
  }

  lemma SurvivorsFit(su: Suite, r: RoomState, parent: Identity, u: map<Identity, Session>, gone: set<Identity>)
    requires Swept(su, r, parent, u, gone)
    ensures Brood(su, u - gone)
  {
    hide Session.View, Session.Valid, Fit, Killed;
    forall k | k in u ensures Fit(u[k].View()) {
      KilledFits(r.universe[k]);
    }
  }

  lemma BroodsJoin(su: Suite, refreshed: map<Identity, Session>, kept: map<Identity, Session>)
    requires Brood(su, refreshed) && Brood(su, kept) && ObjectsOf(refreshed) !! ObjectsOf(kept)
    ensures Brood(su, refreshed + kept)
  {
    hide Session.View, Session.Valid, Fit;
    assert forall k :: k in kept ==> kept[k] in ObjectsOf(kept);
    assert forall k :: k in refreshed ==> refreshed[k] in ObjectsOf(refreshed);
  }

  lemma ValuesJoin(refreshed: map<Identity, Session>, kept: map<Identity, Session>)
    ensures ValuesOf(refreshed + kept) == ValuesOf(refreshed) + ValuesOf(kept)
  {
    hide Session.View;
  }

  /** The replacements and those kept, side by side. */
  lemma OverlaidValid(su: Suite, r: RoomState, parent: Identity, u: map<Identity, Session>, gone: set<Identity>,
                      refreshed: map<Identity, Session>)
    requires Brood(su, refreshed) && Swept(su, r, parent, u, gone) && ObjectsOf(refreshed) !! ObjectsOf(u)
    ensures Brood(su, refreshed + (u - gone))
    ensures ValuesOf(refreshed + (u - gone)) == ValuesOf(refreshed) + Survivors(r.universe, parent)
  {
    hide Session.View, Session.Valid, Fit, Swept, Survivors, Brood, ValuesOf;
    SurvivorsAs(su, r, parent, u, gone);
    SurvivorsFit(su, r, parent, u, gone);
    assert ObjectsOf(u - gone) <= ObjectsOf(u);
    hide ObjectsOf;
    BroodsJoin(su, refreshed, u - gone);
    ValuesJoin(refreshed, u - gone);
  }

  /** What a fit session breeds is fit. */
  lemma NewbornsFit(s: Sess, outcome: Outcome, deed: Deed)
    requires HandleFits(s, outcome) && outcome.Done? && Mirrors(Did(deed), outcome)
    ensures deed.Breed? ==> Fit(deed.child.View())
    ensures deed.BreedHeir? ==> Fit(deed.heir.View())
  {
    hide Fit, Session.Valid, Session.View;
  }

  lemma SidIs(o: Session)
    ensures o.View().sid == o.sessionId
  {}

  function Newborns(deed: Deed): set<Session> {
    if deed.Breed? then {deed.child} else if deed.BreedHeir? then {deed.heir} else {}
  }

  lemma PresumeAs(r: RoomState, heir: Identity, u: Universe)
    requires u.Keys == r.universe.Keys && forall k :: k in u ==> u[k] == Staled(r.universe[k], heir)
    ensures r.(next := Some(heir), universe := u) == Presume(r, heir)
  {
    hide Staled;
  }
}
