/** What an undisturbed key exchange achieves: whatever messages arrive, in any order and any number of copies, exactly
    when a waiting session generates its key, when that is the one key of its id, and when it gets into session. */
module Completeness {
  import opened Bytes
  import opened Crypto
  import opened Participants
  import opened Sessions
  import opened SessionSteps
  import opened SessionInvariants
  import opened SessionBirths
  import opened SessionActions
  import opened SessionKeys
  import Ring

  /** The session after it has handled these messages one by one. */
  function HandleAll(su: Suite, s: Sess, ds: seq<Delivery>, world: Surroundings): (t: Sess)
    requires WellFormed(s)
    ensures WellFormed(t)
  {
    if ds == [] then s
    else
      HandleEvolves(su, HandleAll(su, s, ds[..|ds| - 1], world), ds[|ds| - 1], world);
      hide WellFormed, Evolves, Handle;
      var before := HandleAll(su, s, ds[..|ds| - 1], world);
      After(before, Handle(su, before, ds[|ds| - 1], world))
  }

  lemma HandleNone(su: Suite, s: Sess, world: Surroundings)
    requires WellFormed(s)
    ensures HandleAll(su, s, [], world) == s
  {}

  lemma {:induction false} HandleLast(su: Suite, s: Sess, ds: seq<Delivery>, world: Surroundings)
    requires WellFormed(s) && ds != []
    ensures var t := HandleAll(su, s, ds[..|ds| - 1], world);
      WellFormed(t) && HandleAll(su, s, ds, world) == After(t, Handle(su, t, ds[|ds| - 1], world))
    ensures ds == ds[..|ds| - 1] + [ds[|ds| - 1]]
  {
    hide WellFormed, Handle, After, Evolves;
    var t := HandleAll(su, s, ds[..|ds| - 1], world);
    assert HandleAll(su, s, ds, world) == After(t, Handle(su, t, ds[|ds| - 1], world));
    hide HandleAll;
  }

  lemma {:induction false} HandleAllInTurn(su: Suite, s: Sess, first: seq<Delivery>, more: seq<Delivery>,
                                           world: Surroundings)
    requires WellFormed(s)
    ensures HandleAll(su, s, first + more, world) == HandleAll(su, HandleAll(su, s, first, world), more, world)
    decreases |more|
  {
    hide WellFormed, Handle, HandleAll;
    var t := HandleAll(su, s, first, world);
    if more == [] {
      assert first + more == first;
      HandleNone(su, t, world);
    } else {
      var front, last := more[..|more| - 1], more[|more| - 1];
      HandleAllInTurn(su, s, first, front, world);
      HandleLast(su, t, more, world);
      assert (first + more)[..|first + more| - 1] == first + front;
      HandleLast(su, s, first + more, world);
    }
  }

  lemma HandleSingle(su: Suite, s: Sess, d: Delivery, world: Surroundings)
    requires WellFormed(s)
    ensures HandleAll(su, s, [d], world) == After(s, Handle(su, s, d, world))
  {
    hide WellFormed, Handle, HandleAll;
    HandleLast(su, s, [d], world);
    HandleNone(su, s, world);
    assert [d][..0] == [];
  }

  // ---------- shares ----------

  /** A session of its owner that waits for shares. */
  ghost predicate Waits(s: Sess) {
    Owned(s) && s.phase in {JoinRequested, ReShared}
  }

  /** The message carries a share that a session in this state takes up: a joiner's takes up views only. */
  predicate TakesUp(s: Sess, d: Delivery) {
    && d.packet.Signed? && CarriesShare(d.packet.content)
    && (s.phase == ReShared || (s.phase == JoinRequested && IsInfo(d)))
  }

  /** And with it a token meant for the owner of the session. */
  predicate Proves(s: Sess, d: Delivery)
    requires WellFormed(s)
  {
    TakesUp(s, d) && TokenFound(s, d.packet.content).Some?
  }

  /** Whatever the message is: if it is a share that is taken up, it is the one its sender truthfully publishes in this
      session, and a token that comes with it is the right one. */
  ghost predicate Truthful(su: Suite, s: Sess, d: Delivery) {
    && Owned(s)
    && (TakesUp(s, d) ==>
          && FromMember(s, d) && TrueFor(su, s, d.sender, ShareIn(d.packet.content))
          && (Proves(s, d) ==>
                Accepts(su, s.me, s.ephemeral, s.roster[d.sender], TokenFound(s, d.packet.content).value)))
  }

  /** The share is the one the member k truthfully publishes in this session. */
  ghost predicate TrueFor(su: Suite, s: Sess, k: Nick, share: Block)
    requires k in s.roster
  {
    |s.sid| == |s.roster| && share == Ring.TrueShare(Secrets(su, s.sid), IndexIn(s, k))
  }

  ghost predicate AllTruthful(su: Suite, s: Sess, ds: seq<Delivery>) {
    forall i :: 0 <= i < |ds| ==> Truthful(su, s, ds[i])
  }

  /** A share of k is among those taken up. */
  ghost predicate Took(s: Sess, ds: seq<Delivery>, k: Nick) {
    exists i :: 0 <= i < |ds| && ds[i].sender == k && TakesUp(s, ds[i])
  }

  ghost predicate TookAny(s: Sess, ds: seq<Delivery>) {
    exists k :: Took(s, ds, k)
  }

  /** And one with a token. */
  ghost predicate Proved(s: Sess, ds: seq<Delivery>, k: Nick)
    requires WellFormed(s)
  {
    exists i :: 0 <= i < |ds| && ds[i].sender == k && Proves(s, ds[i])
  }

  /** With the flags it had before and the messages heard, a member is authenticated and counted. */
  ghost predicate ReadyWith(s: Sess, ds: seq<Delivery>, k: Nick)
    requires WellFormed(s) && k in s.roster
  {
    (s.roster[k].authenticated || Proved(s, ds, k)) && (s.roster[k].contributed || Took(s, ds, k))
  }

  ghost predicate ReadyBy(s: Sess, ds: seq<Delivery>)
    requires WellFormed(s)
  {
    forall k :: k in s.roster ==> ReadyWith(s, ds, k)
  }

  /** How many of the messages have been heard when the key is generated, zero if it is not: readiness is looked at
      whenever a share is taken up. */
  ghost function KeyTime(s: Sess, ds: seq<Delivery>): (n: nat)
    requires WellFormed(s)
    ensures n <= |ds|
  {
    if ds == [] then 0
    else
      var front, last := ds[..|ds| - 1], ds[|ds| - 1];
      if KeyTime(s, front) > 0 then KeyTime(s, front) else if TakesUp(s, last) && ReadyBy(s, ds) then |ds| else 0
  }

  lemma TookMore(s: Sess, ds: seq<Delivery>, d: Delivery, k: Nick)
    requires WellFormed(s)
    ensures Took(s, ds + [d], k) <==> Took(s, ds, k) || (d.sender == k && TakesUp(s, d))
    ensures Proved(s, ds + [d], k) <==> Proved(s, ds, k) || (d.sender == k && Proves(s, d))
    ensures Proves(s, d) ==> TakesUp(s, d)
  {
    assert Proves(s, d) ==> TakesUp(s, d);
    hide TokenFound, TakesUp, WellFormed, Proves;
    var all := ds + [d];
    assert all[|ds|] == d && forall i :: 0 <= i < |ds| ==> all[i] == ds[i];
    if i :| 0 <= i < |ds| && ds[i].sender == k && TakesUp(s, ds[i]) {
      assert all[i].sender == k && TakesUp(s, all[i]);
    }
    if i :| 0 <= i < |ds| && ds[i].sender == k && Proves(s, ds[i]) {
      assert all[i].sender == k && Proves(s, all[i]);
    }
  }

  /** The key is generated exactly when some share is taken up and everybody gets authenticated and counted. */
  lemma {:induction false} KeyTimeIff(s: Sess, ds: seq<Delivery>)
    requires WellFormed(s)
    ensures KeyTime(s, ds) > 0 <==> ReadyBy(s, ds) && TookAny(s, ds)
    ensures KeyTime(s, ds) > 0 ==>
      ReadyBy(s, ds[..KeyTime(s, ds)]) && KeyTime(s, ds[..KeyTime(s, ds)]) == KeyTime(s, ds)
    decreases |ds|
  {
    hide TakesUp, Proves, TokenFound, WellFormed;
    if ds != [] {
      var front, last := ds[..|ds| - 1], ds[|ds| - 1];
      assert ds == front + [last];
      KeyTimeIff(s, front);
      forall k
        ensures Took(s, ds, k) <==> Took(s, front, k) || (last.sender == k && TakesUp(s, last))
        ensures Proved(s, ds, k) <==> Proved(s, front, k) || (last.sender == k && Proves(s, last))
        ensures Proves(s, last) ==> TakesUp(s, last)
      {
        TookMore(s, front, last, k);
      }
      hide Took, Proved;
      if TakesUp(s, last) {
        assert Took(s, ds, last.sender);
      }
      assert ds[..|ds|] == ds && forall n :: 0 <= n < |ds| ==> ds[..n] == front[..n];
    }
  }

  // ---------- one share ----------

  /** What a share taken up does: stored, the sender authenticated if it comes with a token, and the key generated if
      that was all that lacked. */
  lemma TakenUp(su: Suite, s: Sess, d: Delivery, world: Surroundings)
    requires WellFormed(s) && TakesUp(s, d) && FromMember(s, d)
    requires Proves(s, d) ==> Accepts(su, s.me, s.ephemeral, s.roster[d.sender], TokenFound(s, d.packet.content).value)
    ensures var c := d.packet.content;
      Handle(su, s, d, world) == Finish(su, Taken(s, d.sender, ShareIn(c), Proves(s, d)), world)
  {
    hide Accepts, MyIndex, WithShare, Taken, Finish, WellFormed, Authenticate;
    var c := d.packet.content;
    if s.phase == JoinRequested {
      ViewHandled(su, s, d, world);
    } else if c.JoinerAuth? && MyIndex(s) in c.table {
      VouchedHandled(su, s, d, world);
    } else {
      StoredIsTaken(s, d.sender, ShareIn(c));
    }
  }

  lemma TakenOwned(s: Sess, k: Nick, share: Block, vouched: bool)
    requires Owned(s) && k in s.roster
    ensures var t := Taken(s, k, share, vouched);
      && Owned(t) && t.sid == s.sid && t.me == s.me && t.ephemeral == s.ephemeral && t.phase == s.phase
      && t.confirmed == s.confirmed && t.roster.Keys == s.roster.Keys
      && t.roster[k] == s.roster[k].(share := share, contributed := true,
                                     authenticated := vouched || s.roster[k].authenticated)
      && forall l :: l in s.roster && l != k ==> t.roster[l] == s.roster[l]
  {
    assert IdentityOf(Taken(s, k, share, vouched).roster) == IdentityOf(s.roster);
  }

  /** The same session later: whose it is and whose members it has. */
  ghost predicate SameSession(s: Sess, t: Sess) {
    && Owned(s) && Owned(t) && t.sid == s.sid && t.me == s.me && t.ephemeral == s.ephemeral
    && t.roster.Keys == s.roster.Keys
  }

  lemma SameFace(s: Sess, t: Sess, k: Nick)
    requires Owned(s) && Owned(t) && s.sid == t.sid && k in s.roster
    ensures k in t.roster && t.roster[k].id == s.roster[k].id && t.roster[k].ephemeral == s.roster[k].ephemeral
    ensures forall d: Delivery :: d.sender == k ==> (FromMember(t, d) <==> FromMember(s, d))
  {
    hide Sorted;
    assert s.sid.Keys == t.roster.Keys;
    assert s.sid[k] == t.sid[k];
  }

  lemma SameRoster(s: Sess, t: Sess)
    requires SameSession(s, t)
    ensures t.roster.Keys == s.roster.Keys && WellFormed(s) && WellFormed(t) && t.sid == s.sid
    ensures MyIndex(t) == MyIndex(s) && |t.roster| == |s.roster| == |s.sid|
    ensures forall k :: k in s.roster ==> IndexIn(t, k) == IndexIn(s, k)
  {
    hide Sorted;
    OwnedWellFormed(s);
    SameIndices(s, t);
  }

  /** What the session takes up, and when, does not depend on what it has heard. */
  lemma SameReading(su: Suite, s: Sess, t: Sess, d: Delivery)
    requires SameSession(s, t) && t.phase == s.phase && Truthful(su, s, d)
    ensures WellFormed(s) && WellFormed(t)
    ensures Truthful(su, t, d) && TakesUp(t, d) == TakesUp(s, d) && Proves(t, d) == Proves(s, d)
    ensures TakesUp(t, d) ==> FromMember(t, d) && d.sender in s.roster
  {
    hide PairKey, Secret, Owned, MyIndex, WellFormed;
    SameRoster(s, t);
    assert d.packet.Signed? ==> TokenFound(s, d.packet.content) == TokenFound(t, d.packet.content);
    hide TokenFound;
    if TakesUp(s, d) {
      SameFace(s, t, d.sender);
    }
  }

  lemma TruthfulToken(su: Suite, s: Sess, d: Delivery)
    requires WellFormed(s) && Truthful(su, s, d) && TakesUp(s, d)
    ensures d.packet.Signed? && CarriesShare(d.packet.content)
    ensures FromMember(s, d) && d.sender in s.roster && TrueFor(su, s, d.sender, ShareIn(d.packet.content))
    ensures Proves(s, d) ==> Accepts(su, s.me, s.ephemeral, s.roster[d.sender], TokenFound(s, d.packet.content).value)
  {
    hide Accepts, TrueFor, TokenFound;
  }

  // ---------- any number of shares ----------

  /** Where a member stands after these messages: its flags raised by what it sent, its share replaced by it. */
  ghost predicate StandsAt(su: Suite, s: Sess, ds: seq<Delivery>, t: Sess, k: Nick)
    requires WellFormed(s) && k in s.roster && k in t.roster
  {
    && (t.roster[k].authenticated <==> s.roster[k].authenticated || Proved(s, ds, k))
    && (t.roster[k].contributed <==> s.roster[k].contributed || Took(s, ds, k))
    && (if Took(s, ds, k) then TrueFor(su, s, k, t.roster[k].share) else t.roster[k].share == s.roster[k].share)
  }

  ghost predicate Stands(su: Suite, s: Sess, ds: seq<Delivery>, t: Sess)
    requires WellFormed(s) && t.roster.Keys == s.roster.Keys
  {
    forall k :: k in s.roster ==> StandsAt(su, s, ds, t, k)
  }

  /** At most the last of these messages has made the session generate its key. */
  ghost predicate Gathering(su: Suite, s: Sess, ds: seq<Delivery>, t: Sess) {
    && SameSession(s, t) && Stands(su, s, ds, t) && t.confirmed == s.confirmed
    && (if KeyTime(s, ds) == 0 then t.phase == s.phase else t.phase == GroupKeyGenerated && t.key == SessionKey(su, t))
  }

  lemma StandsMore(su: Suite, s: Sess, ds: seq<Delivery>, t: Sess, d: Delivery)
    requires SameSession(s, t) && t.phase == s.phase && Truthful(su, s, d) && TakesUp(s, d)
    requires WellFormed(s) && Stands(su, s, ds, t) && d.sender in t.roster
    ensures var u := Taken(t, d.sender, ShareIn(d.packet.content), Proves(s, d));
      SameSession(s, u) && u.phase == s.phase && u.confirmed == t.confirmed && Stands(su, s, ds + [d], u)
  {
    hide TrueFor, Owned, Taken, TakesUp, Proves, WellFormed, Truthful, FromMember, Accepts, TokenFound, Took, Proved;
    TruthfulToken(su, s, d);
    var u := Taken(t, d.sender, ShareIn(d.packet.content), Proves(s, d));
    TakenOwned(t, d.sender, ShareIn(d.packet.content), Proves(s, d));
    forall k | k in s.roster ensures StandsAt(su, s, ds + [d], u, k) {
      hide Took, Proved;
      assert StandsAt(su, s, ds, t, k);
      TookMore(s, ds, d, k);
    }
  }

  lemma StandsSame(su: Suite, s: Sess, ds: seq<Delivery>, t: Sess, d: Delivery)
    requires WellFormed(s) && t.roster.Keys == s.roster.Keys && Stands(su, s, ds, t) && !TakesUp(s, d)
    ensures Stands(su, s, ds + [d], t)
  {
    hide TrueFor, WellFormed, TakesUp, Proves;
    forall k | k in s.roster ensures StandsAt(su, s, ds + [d], t, k) {
      assert StandsAt(su, s, ds, t, k);
      TookMore(s, ds, d, k);
      hide Took, Proved;
    }
  }

  lemma StandsReady(su: Suite, s: Sess, ds: seq<Delivery>, t: Sess)
    requires WellFormed(s) && t.roster.Keys == s.roster.Keys && Stands(su, s, ds, t)
    ensures Ready(t) <==> ReadyBy(s, ds)
    ensures forall u: Sess :: u.roster == t.roster ==> Stands(su, s, ds, u)
  {
    hide TrueFor, WellFormed, Took, Proved;
    forall k | k in s.roster
      ensures (s.roster[k].authenticated || Proved(s, ds, k)) && (s.roster[k].contributed || Took(s, ds, k))
         <==> t.roster[k].authenticated && t.roster[k].contributed
      ensures forall u: Sess :: u.roster == t.roster ==> StandsAt(su, s, ds, u, k)
    {
      assert StandsAt(su, s, ds, t, k);
    }
  }

  /** A waiting session makes its key when it is ready and keeps everything else. */
  lemma Finishes(su: Suite, s: Sess, world: Surroundings)
    requires Waits(s)
    ensures WellFormed(s) && Finish(su, s, world).Done?
    ensures var t := Finish(su, s, world).sess;
      && SameSession(s, t) && t.roster == s.roster && t.confirmed == s.confirmed
      && (if Ready(s) then t.phase == GroupKeyGenerated && t.key == SessionKey(su, t) else t == s)
  {
    hide SessionKey, ConfirmationOf, Ready, Evolves;
    ConfirmIfReadyFacts(su, s, world);
    EvolvesSameOwner(s, Finish(su, s, world).sess);
  }

  /** A share taken up by a waiting session. */
  lemma GatherTaken(su: Suite, s: Sess, ds: seq<Delivery>, t: Sess, d: Delivery, world: Surroundings)
    requires Waits(s) && SameSession(s, t) && t.phase == s.phase && Truthful(su, s, d) && TakesUp(s, d)
    requires WellFormed(s) && WellFormed(t) && Stands(su, s, ds, t)
    ensures var u := After(t, Handle(su, t, d, world));
      && SameSession(s, u) && Stands(su, s, ds + [d], u) && u.confirmed == t.confirmed
      && (if ReadyBy(s, ds + [d]) then u.phase == GroupKeyGenerated && u.key == SessionKey(su, u)
          else u.phase == s.phase)
  {
    hide Handle, Owned, Taken, Stands, SessionKey, ReadyBy, Finish, WellFormed, Accepts, Proves, TakesUp, Truthful,
      Ready, TrueFor;
    SameReading(su, s, t, d);
    TruthfulToken(su, t, d);
    TakenUp(su, t, d, world);
    StandsMore(su, s, ds, t, d);
    var u := Taken(t, d.sender, ShareIn(d.packet.content), Proves(s, d));
    StandsReady(su, s, ds + [d], u);
    Finishes(su, u, world);
  }

  /** A waiting session ignores whatever is not a share it takes up: a confirmation that comes early is lost. */
  lemma Ignores(su: Suite, s: Sess, d: Delivery, world: Surroundings)
    requires WellFormed(s) && s.phase in {JoinRequested, ReShared} && !TakesUp(s, d)
    ensures Handle(su, s, d, world) == Done(s, NoAction)
  {}

  lemma GatherOne(su: Suite, s: Sess, ds: seq<Delivery>, t: Sess, d: Delivery, world: Surroundings)
    requires Waits(s) && WellFormed(s) && Gathering(su, s, ds, t) && Truthful(su, s, d) && KeyTime(s, ds) == 0
    ensures WellFormed(t) && Gathering(su, s, ds + [d], After(t, Handle(su, t, d, world)))
  {
    hide Owned, Stands, SessionKey, ReadyBy, WellFormed, Truthful, Handle, TakesUp;
    SameRoster(s, t);
    assert (ds + [d])[..|ds + [d]| - 1] == ds && (ds + [d])[|ds|] == d;
    if TakesUp(s, d) {
      GatherTaken(su, s, ds, t, d, world);
    } else {
      StandsSame(su, s, ds, t, d);
      SameReading(su, s, t, d);
      Ignores(su, t, d, world);
    }
  }

  lemma WaitsWellFormed(s: Sess)
    requires Waits(s)
    ensures Owned(s) && WellFormed(s) && s.me.nickname in s.roster
  {}

  lemma GatheringStarts(su: Suite, s: Sess)
    requires Waits(s)
    ensures Gathering(su, s, [], s)
  {
    hide SessionKey, Sorted, TrueFor;
  }

  /** Up to the message that makes the session generate its key, if one does. */
  lemma {:induction false} Gathers(su: Suite, s: Sess, ds: seq<Delivery>, world: Surroundings)
    requires Waits(s) && AllTruthful(su, s, ds) && WellFormed(s) && KeyTime(s, ds) in {0, |ds|}
    ensures Gathering(su, s, ds, HandleAll(su, s, ds, world))
    decreases |ds|
  {
    hide Gathering, Handle, Waits, Truthful, WellFormed, HandleAll, TakesUp, ReadyBy;
    if ds == [] {
      HandleNone(su, s, world);
      GatheringStarts(su, s);
    } else {
      var front, d := ds[..|ds| - 1], ds[|ds| - 1];
      assert KeyTime(s, front) == 0;
      Gathers(su, s, front, world);
      HandleLast(su, s, ds, world);
      GatherOne(su, s, front, HandleAll(su, s, front, world), d, world);
    }
  }

  lemma GatheringParts(su: Suite, s: Sess, ds: seq<Delivery>, u: Sess)
    requires Gathering(su, s, ds, u) && WellFormed(s) && KeyTime(s, ds) > 0
    ensures SameSession(s, u) && Stands(su, s, ds, u) && u.confirmed == s.confirmed && WellFormed(u)
    ensures u.phase == GroupKeyGenerated && u.key == SessionKey(su, u)
  {
    hide Stands, SessionKey, KeyTime;
  }

  // ---------- when the key is generated, and when it is right ----------

  /** The key every member of a session arrives at. */
  function AgreedKey(su: Suite, id: Identity): Block {
    KeyOf(su, Secrets(su, id), id)
  }

  /** By the time the key is generated the share of k has come, or the one stored before was already the truthful
      one. */
  ghost predicate InTime(su: Suite, s: Sess, ds: seq<Delivery>, k: Nick)
    requires WellFormed(s) && k in s.roster
  {
    Took(s, ds[..KeyTime(s, ds)], k) || TrueFor(su, s, k, s.roster[k].share)
  }

  /** So is every other member's. */
  ghost predicate RightBy(su: Suite, s: Sess, ds: seq<Delivery>)
    requires WellFormed(s)
  {
    forall k :: k in s.roster && k != s.me.nickname ==> InTime(su, s, ds, k)
  }

  /** Where every member stands decides whether the array is right. */
  lemma StandingIsRight(su: Suite, s: Sess, ds: seq<Delivery>, t: Sess)
    requires SameSession(s, t) && WellFormed(s) && WellFormed(t) && Stands(su, s, ds, t)
    ensures AllSecrets(su, t) == Secrets(su, s.sid) <==>
      forall k :: k in s.roster && k != s.me.nickname ==> Took(s, ds, k) || TrueFor(su, s, k, s.roster[k].share)
  {
    hide Secret, Sorted, AllSecrets, Owned, Took, Proved, WellFormed;
    OwnedWellFormed(t);
    OwnedWellFormed(s);
    SecretsRebuiltIff(su, t);
    SameIndices(s, t);
    MyIndexIs(t);
    hide MyIndex;
    forall k | k in s.roster
      ensures TrueAt(su, t, IndexIn(t, k)) <==> Took(s, ds, k) || TrueFor(su, s, k, s.roster[k].share)
    {
      assert StandsAt(su, s, ds, t, k);
      PeerOfIndex(t, k);
    }
    hide TrueAt, TrueFor;
    if AllSecrets(su, t) == Secrets(su, s.sid) {
      forall k | k in s.roster && k != s.me.nickname
        ensures Took(s, ds, k) || TrueFor(su, s, k, s.roster[k].share)
      {
        if IndexIn(t, k) == MyIndex(t) {
          IndexDistinct(t, k, s.me.nickname);
        }
        assert TrueAt(su, t, IndexIn(t, k));
      }
    } else {
      var i :| 0 <= i < |t.roster| && i != MyIndex(t) && !TrueAt(su, t, i);
      IndexNames(t, i);
      var k := Peers(t)[i];
      assert k in s.roster && k != s.me.nickname;
    }
  }

  // ---------- confirmations ----------

  /** A confirmation by a member of this key. */
  ghost predicate RightConfirmation(su: Suite, s: Sess, key: Block, d: Delivery) {
    FromMember(s, d) && IsConfirmation(d.packet) && d.packet.content.confirmation == ConfirmationOf(su, key, d.sender)
  }

  /** And one by this member is among the messages. */
  ghost predicate HeardRight(su: Suite, s: Sess, key: Block, ds: seq<Delivery>, k: Nick) {
    exists i :: 0 <= i < |ds| && ds[i].sender == k && RightConfirmation(su, s, key, ds[i])
  }

  lemma HeardRightMore(su: Suite, s: Sess, key: Block, ds: seq<Delivery>, d: Delivery, k: Nick)
    ensures HeardRight(su, s, key, ds + [d], k)
       <==> HeardRight(su, s, key, ds, k) || (d.sender == k && RightConfirmation(su, s, key, d))
  {
    hide RightConfirmation;
    var all := ds + [d];
    assert all[|ds|] == d && forall i :: 0 <= i < |ds| ==> all[i] == ds[i];
    if i :| 0 <= i < |ds| && ds[i].sender == k && RightConfirmation(su, s, key, ds[i]) {
      assert all[i].sender == k && RightConfirmation(su, s, key, all[i]);
    }
  }

  /** By these messages a member is marked, or it was before. */
  ghost predicate MarkedBy(su: Suite, s: Sess, ds: seq<Delivery>, k: Nick)
    requires WellFormed(s) && k in s.roster
  {
    s.confirmed[IndexIn(s, k)] || HeardRight(su, s, s.key, ds, k)
  }

  /** Everybody is marked, somebody by these messages. */
  ghost predicate AllMarkedBy(su: Suite, s: Sess, ds: seq<Delivery>)
    requires WellFormed(s)
  {
    (forall k :: k in s.roster ==> MarkedBy(su, s, ds, k)) && exists k :: HeardRight(su, s, s.key, ds, k)
  }

  /** A session with a key later: nothing but marks, announced keys, leavers and the state has changed. */
  ghost predicate SameKeyed(s: Sess, t: Sess) {
    && WellFormed(s) && WellFormed(t) && t.me == s.me && t.ephemeral == s.ephemeral && t.sid == s.sid && t.key == s.key
    && t.roster.Keys == s.roster.Keys
    && forall k :: k in s.roster ==> t.roster[k] == s.roster[k].(future := t.roster[k].future)
  }

  /** Halfway: exactly those heard are marked; in session once that is everybody. */
  ghost predicate Confirming(su: Suite, s: Sess, ds: seq<Delivery>, t: Sess) {
    && SameKeyed(s, t)
    && t.phase == (if AllMarkedBy(su, s, ds) then InSession else GroupKeyGenerated)
    && (t.phase == GroupKeyGenerated ==>
          forall k :: k in s.roster && k in t.roster ==> (t.confirmed[IndexIn(t, k)] <==> MarkedBy(su, s, ds, k)))
  }

  lemma MarkMoves(su: Suite, t: Sess, d: Delivery)
    requires WellFormed(t) && t.phase == GroupKeyGenerated && FromMember(t, d) && IsConfirmation(d.packet)
    ensures var (u, right) := (MarkConfirmed(su, t, d), RightConfirmation(su, t, t.key, d));
      && SameKeyed(t, u) && u.confirmed == (if right then t.confirmed[IndexIn(t, d.sender) := true] else t.confirmed)
      && (u.phase == if right && EverybodyConfirmed(u) then InSession else GroupKeyGenerated)
  {
    hide ConfirmationOf, IndexIn, WellFormed, EverybodyConfirmed;
    var u := MarkConfirmed(su, t, d);
    MarkFacts(su, t, d);
    assert u.me == t.me && u.ephemeral == t.ephemeral && u.sid == t.sid;
    assert u.phase == if RightConfirmation(su, t, t.key, d) && EverybodyConfirmed(u) then InSession else t.phase;
    MarkShape(su, t, d);
    hide MarkConfirmed;
  }

  /** In session the state, the key and the members stay, whatever is heard. */
  lemma InSessionStays(su: Suite, t: Sess, d: Delivery, world: Surroundings)
    requires WellFormed(t) && t.phase == InSession
    ensures var u := After(t, Handle(su, t, d, world)); SameKeyed(t, u) && u.phase == InSession
  {
    hide Handle, MarkConfirmed, ConfirmIfReady, MyIndex, Accepts, Readable, TokenFound, Taken, IndexIn;
    var m := HandleMoves(su, t, d, world);
    if m.Shed? {
      ReadableIs(t, d, m.leaver);
    }
  }

  lemma EverybodyMarked(t: Sess)
    requires WellFormed(t)
    ensures EverybodyConfirmed(t) <==> forall k :: k in t.roster ==> t.confirmed[IndexIn(t, k)]
  {
    hide Sorted;
    if forall k :: k in t.roster ==> t.confirmed[IndexIn(t, k)] {
      forall i | 0 <= i < |t.confirmed| ensures t.confirmed[i] {
        IndexNames(t, i);
      }
    }
  }

  lemma KeyedAlike(su: Suite, s: Sess, t: Sess)
    requires SameKeyed(s, t)
    ensures WellFormed(s) && WellFormed(t) && t.roster.Keys == s.roster.Keys && t.key == s.key
    ensures |t.confirmed| == |t.roster| == |s.roster| == |s.confirmed|
    ensures forall d :: FromMember(t, d) <==> FromMember(s, d)
    ensures forall d :: RightConfirmation(su, t, t.key, d) <==> RightConfirmation(su, s, s.key, d)
    ensures forall k :: k in s.roster ==> IndexIn(t, k) == IndexIn(s, k)
    ensures forall u :: SameKeyed(t, u) ==> SameKeyed(s, u)
  {
    hide ConfirmationOf, IndexIn;
    SameIndices(s, t);
  }

  lemma ConfirmMarks(su: Suite, s: Sess, ds: seq<Delivery>, t: Sess, d: Delivery)
    requires Confirming(su, s, ds, t) && t.phase == GroupKeyGenerated && FromMember(t, d) && IsConfirmation(d.packet)
    ensures WellFormed(t) && Confirming(su, s, ds + [d], MarkConfirmed(su, t, d))
  {
    hide ConfirmationOf, IndexIn, MarkConfirmed, EverybodyConfirmed, HeardRight, WellFormed, RightConfirmation,
      SameKeyed;
    KeyedAlike(su, s, t);
    MarkMoves(su, t, d);
    var u, right := MarkConfirmed(su, t, d), RightConfirmation(su, t, t.key, d);
    KeyedAlike(su, t, u);
    EverybodyMarked(u);
    forall k
      ensures HeardRight(su, s, s.key, ds + [d], k) <==> HeardRight(su, s, s.key, ds, k) || (d.sender == k && right)
    {
      HeardRightMore(su, s, s.key, ds, d, k);
    }
    forall k | k in s.roster ensures u.confirmed[IndexIn(u, k)] <==> MarkedBy(su, s, ds + [d], k) {
      IndexDistinct(t, k, d.sender);
    }
    if right {
      assert HeardRight(su, s, s.key, ds + [d], d.sender);
    } else {
      assert forall k :: k in s.roster ==> (MarkedBy(su, s, ds + [d], k) <==> MarkedBy(su, s, ds, k));
    }
  }

  lemma ConfirmOne(su: Suite, s: Sess, ds: seq<Delivery>, t: Sess, d: Delivery, world: Surroundings)
    requires Confirming(su, s, ds, t)
    ensures WellFormed(t) && Confirming(su, s, ds + [d], After(t, Handle(su, t, d, world)))
  {
    hide IndexIn, MarkConfirmed, WellFormed, HeardRight, Handle, RightConfirmation, SameKeyed;
    KeyedAlike(su, s, t);
    if t.phase == GroupKeyGenerated && FromMember(t, d) && IsConfirmation(d.packet) {
      MarkHandled(su, t, d, world);
      ConfirmMarks(su, s, ds, t, d);
    } else {
      Unmarked(su, t, d, world);
      forall k ensures HeardRight(su, s, s.key, ds, k) ==> HeardRight(su, s, s.key, ds + [d], k)
        ensures t.phase == GroupKeyGenerated ==>
          (HeardRight(su, s, s.key, ds + [d], k) <==> HeardRight(su, s, s.key, ds, k))
      {
        HeardRightMore(su, s, s.key, ds, d, k);
      }
    }
  }

  /** Nothing but a confirmation changes a session with a key that is not in session yet. */
  lemma Unmarked(su: Suite, t: Sess, d: Delivery, world: Surroundings)
    requires WellFormed(t) && (t.phase == InSession
      || (t.phase == GroupKeyGenerated && !(FromMember(t, d) && IsConfirmation(d.packet))))
    ensures var u := After(t, Handle(su, t, d, world)); SameKeyed(t, u) && u.phase == t.phase
    ensures t.phase == GroupKeyGenerated ==>
      After(t, Handle(su, t, d, world)) == t && !RightConfirmation(su, t, t.key, d)
  {
    hide ConfirmationOf, MarkConfirmed, WellFormed, ConfirmAuth, AuthAndReshare, Receive, InitWithNewUser;
    if t.phase == InSession {
      InSessionStays(su, t, d, world);
    }
  }

  /** From the moment a session has its key, whatever arrives: the key and the members stay, and it gets into session
      exactly when everybody is marked, by right confirmations among these messages or before, and one is among
      them. */
  lemma {:induction false} ConfirmationsEstablish(su: Suite, s: Sess, ds: seq<Delivery>, world: Surroundings)
    requires WellFormed(s) && s.phase == GroupKeyGenerated
    ensures Confirming(su, s, ds, HandleAll(su, s, ds, world))
    decreases |ds|
  {
    if ds == [] {
      hide IndexIn;
      HandleNone(su, s, world);
    } else {
      hide *;
      var front, d := ds[..|ds| - 1], ds[|ds| - 1];
      ConfirmationsEstablish(su, s, front, world);
      HandleLast(su, s, ds, world);
      ConfirmOne(su, s, front, HandleAll(su, s, front, world), d, world);
    }
  }

  /** The session has its key. */
  predicate WithKey(s: Sess) {
    s.phase in {GroupKeyGenerated, InSession}
  }

  lemma KeyedIdentity(s: Sess, t: Sess)
    requires SameKeyed(s, t)
    ensures IdentityOf(t.roster) == IdentityOf(s.roster) && t.roster.Keys == s.roster.Keys
  {
    hide WellFormed;
    assert IdentityOf(t.roster) == IdentityOf(s.roster);
  }

  /** A session that has got its key still has the shares it is made of. */
  lemma KeyedSession(su: Suite, s: Sess, u: Sess, t: Sess)
    requires SameSession(s, u) && SameKeyed(u, t) && u.key == SessionKey(su, u)
    ensures SameSession(s, t) && t.key == SessionKey(su, t) && AllSecrets(su, t) == AllSecrets(su, u)
    ensures forall key, d :: RightConfirmation(su, u, key, d) <==> RightConfirmation(su, s, key, d)
    ensures forall k :: k in s.roster ==> IndexIn(s, k) == IndexIn(u, k)
  {
    hide AllSecrets, KeyOf, Sorted, ConfirmationOf, IdentityOf;
    KeyedIdentity(u, t);
    SameArray(su, u, t);
    SameIndices(s, u);
    forall k | k in s.roster ensures forall d: Delivery :: d.sender == k ==> (FromMember(u, d) <==> FromMember(s, d)) {
      SameFace(s, u, k);
    }
  }

  /** The exchange falls into two halves, before and after the key is generated. */
  lemma KeyMoment(su: Suite, s: Sess, ds: seq<Delivery>, world: Surroundings) returns (u: Sess)
    requires Waits(s) && AllTruthful(su, s, ds) && WellFormed(s) && KeyTime(s, ds) > 0
    ensures var (n, t) := (KeyTime(s, ds), HandleAll(su, s, ds, world));
      && SameSession(s, u) && Stands(su, s, ds[..n], u) && u.confirmed == s.confirmed
      && WellFormed(u) && Confirming(su, u, ds[n..], t) && SameSession(s, t) && WellFormed(t)
      && t.key == SessionKey(su, t) && AllSecrets(su, t) == AllSecrets(su, u)
    ensures forall key, d :: RightConfirmation(su, u, key, d) <==> RightConfirmation(su, s, key, d)
    ensures forall k :: k in s.roster ==> k in u.roster && IndexIn(s, k) == IndexIn(u, k)
  {
    var n := KeyTime(s, ds);
    assert ds == ds[..n] + ds[n..] && AllTruthful(su, s, ds[..n]);
    hide *;
    KeyTimeIff(s, ds);
    Gathers(su, s, ds[..n], world);
    u := HandleAll(su, s, ds[..n], world);
    GatheringParts(su, s, ds[..n], u);
    HandleAllInTurn(su, s, ds[..n], ds[n..], world);
    ConfirmationsEstablish(su, u, ds[n..], world);
    KeyedSession(su, s, u, HandleAll(su, s, ds, world));
  }

  /** The exchange of shares, exactly: whatever flags and shares a waiting session was born with, and whatever messages
      arrive, in any order and any number of copies, as long as the shares it takes up are truthful, it generates its
      key exactly when some share is taken up and everybody has become authenticated and counted; and the array under
      the key is right exactly when by then no share is missing but those stored before that happen to be truthful. */
  lemma SharesGenerateKey(su: Suite, s: Sess, ds: seq<Delivery>, world: Surroundings)
    requires Waits(s) && AllTruthful(su, s, ds)
    ensures WellFormed(s)
    ensures var t := HandleAll(su, s, ds, world);
      && SameSession(s, t)
      && (ReadyBy(s, ds) && TookAny(s, ds) ==>
            && WithKey(t) && t.key == SessionKey(su, t)
            && (AllSecrets(su, t) == Secrets(su, s.sid) <==> RightBy(su, s, ds))
            && (RightBy(su, s, ds) ==> t.key == AgreedKey(su, s.sid)))
      && (!(ReadyBy(s, ds) && TookAny(s, ds)) ==> t.phase == s.phase && Stands(su, s, ds, t))
  {
    hide HandleAll, AllSecrets, Secret, Owned, KeyOf, AllTruthful, WellFormed, ReadyBy, Took, KeyTime, Stands,
      TrueFor, AllMarkedBy, MarkedBy, IndexIn, RightConfirmation;
    WaitsWellFormed(s);
    KeyTimeIff(s, ds);
    if KeyTime(s, ds) > 0 {
      var u := KeyMoment(su, s, ds, world);
      StandingIsRight(su, s, ds[..KeyTime(s, ds)], u);
    } else {
      Gathers(su, s, ds, world);
    }
  }

  /** No other member is counted before with a share that is not the truthful one. */
  ghost predicate Unspoiled(su: Suite, s: Sess) {
    forall k :: k in s.roster && k != s.me.nickname && s.roster[k].contributed ==>
      TrueFor(su, s, k, s.roster[k].share)
  }

  /** Then the key is always right. */
  lemma UnspoiledRight(su: Suite, s: Sess, ds: seq<Delivery>)
    requires WellFormed(s) && Unspoiled(su, s) && KeyTime(s, ds) > 0
    ensures RightBy(su, s, ds)
  {
    hide WellFormed, TrueFor, Took, Proved, KeyTime;
    KeyTimeIff(s, ds);
  }

  /** With nobody marked before, only what is heard counts. */
  lemma MarksHeard(su: Suite, s: Sess, u: Sess, ds: seq<Delivery>, t: Sess)
    requires WellFormed(u) && Confirming(su, u, ds, t) && NobodyConfirmed(u) && u.roster.Keys == s.roster.Keys
    requires s.me.nickname in s.roster
    requires forall key, d :: RightConfirmation(su, u, key, d) <==> RightConfirmation(su, s, key, d)
    ensures t.phase == InSession <==> forall k :: k in s.roster ==> HeardRight(su, s, t.key, ds, k)
    ensures WithKey(t)
  {
    hide RightConfirmation, IndexIn, SameKeyed, WellFormed;
    KeyedAlike(su, u, t);
    forall k ensures HeardRight(su, s, t.key, ds, k) <==> HeardRight(su, u, u.key, ds, k) {}
    hide HeardRight;
    forall k | k in u.roster ensures MarkedBy(su, u, ds, k) <==> HeardRight(su, s, t.key, ds, k) {}
  }

  /** The whole exchange, exactly: whatever arrives at a waiting session, as long as the shares it takes up are
      truthful, it ends in session exactly when it generates its key and a right confirmation of every member, its own
      included, comes after that. One that comes before is lost. With no share missing that was not stored before, the
      key is the one agreed for its id. */
  lemma ExchangeCompletes(su: Suite, s: Sess, ds: seq<Delivery>, world: Surroundings)
    requires Waits(s) && NobodyConfirmed(s) && AllTruthful(su, s, ds)
    ensures WellFormed(s)
    ensures var (n, t) := (KeyTime(s, ds), HandleAll(su, s, ds, world));
      && t.sid == s.sid && t.phase in {s.phase, GroupKeyGenerated, InSession} && (WithKey(t) <==> n > 0)
      && (t.phase == InSession <==> n > 0 && forall k :: k in s.roster ==> HeardRight(su, s, t.key, ds[n..], k))
      && (n > 0 && RightBy(su, s, ds) ==> t.key == AgreedKey(su, s.sid))
  {
    hide HandleAll, AllSecrets, Secret, Owned, SessionKey, AllTruthful, WellFormed, RightBy, KeyTime, Stands,
      RightConfirmation, IndexIn, HeardRight, Confirming, AgreedKey, ReadyBy, TookAny;
    SharesGenerateKey(su, s, ds, world);
    var t := HandleAll(su, s, ds, world);
    KeyTimeIff(s, ds);
    if KeyTime(s, ds) > 0 {
      var u := KeyMoment(su, s, ds, world);
      WaitsWellFormed(s);
      MarksHeard(su, s, u, ds[KeyTime(s, ds)..], t);
    }
  }

  // ---------- the messages members send are the ones wanted ----------

  /** What one member publishes is the truthful share of its place, for every other. */
  lemma PublishedShareTrue(su: Suite, prover: Sess, s: Sess)
    requires Owned(prover) && Owned(s) && prover.sid == s.sid && DistinctLongTerm(s.sid)
    ensures WellFormed(prover) && prover.me.nickname in s.roster
    ensures TrueFor(su, s, prover.me.nickname, OwnShare(su, prover))
    ensures s.roster[prover.me.nickname].ephemeral == prover.ephemeral
  {
    hide OwnShare, Secret, Sorted, DistinctLongTerm;
    OwnedWellFormed(prover);
    OwnedWellFormed(s);
    OwnShareIsTrue(su, prover);
    SidGivesKeys(s, prover);
    MyIndexIs(prover);
    SameIndexForAll(s, prover, prover.me.nickname);
  }

  /** So its share message is truthful to a waiting session of the same id. */
  lemma PublishedShareTruthful(su: Suite, prover: Sess, s: Sess)
    requires Owned(prover) && Owned(s) && prover.sid == s.sid && DistinctLongTerm(s.sid)
    ensures WellFormed(prover)
    ensures var packet := Signed(prover.ephemeral, prover.sid, GroupShare(OwnShare(su, prover)));
      Truthful(su, s, Delivery(prover.me.nickname, packet))
  {
    hide OwnShare, TrueFor, DistinctLongTerm, Owned, MyIndex, Accepts;
    PublishedShareTrue(su, prover, s);
  }

  /** And so is the view it sends with a token for a waiting joiner. */
  lemma PublishedViewTruthful(su: Suite, member: Sess, joiner: Sess)
    requires Owned(member) && Owned(joiner) && member.sid == joiner.sid && DistinctLongTerm(joiner.sid)
    requires joiner.phase == JoinRequested && joiner.me.nickname != [] && member.me.nickname != joiner.me.nickname
    ensures WellFormed(member) && SendView(su, member, joiner.me.nickname).Born?
    ensures SendView(su, member, joiner.me.nickname).child.outbox != []
    ensures Truthful(su, joiner, LastSaid(SendView(su, member, joiner.me.nickname).child))
  {
    hide OwnShare, TrueFor, MyIndex, Accepts, SendView, TokenFor, SessionView, WithOwnShare, WellFormed;
    DistinctMembers(member, joiner);
    hide Owned, DistinctLongTerm;
    OwnedWellFormed(member);
    OwnedWellFormed(joiner);
    PublishedShareTrue(su, member, joiner);
    SidGivesKeys(member, joiner);
    ViewSent(su, member, joiner.me.nickname);
    TokenCrosses(su, member, joiner);
  }

  /** And so is what the joiner sends, to a waiting member it has not taken for authenticated to. */
  lemma PublishedAuthTruthful(su: Suite, joiner: Sess, member: Sess)
    requires Owned(member) && Owned(joiner) && member.sid == joiner.sid && DistinctLongTerm(joiner.sid)
    requires member.phase == ReShared && member.me.nickname != joiner.me.nickname
    requires member.me.nickname in joiner.roster && !joiner.roster[member.me.nickname].authedTo
    ensures WellFormed(joiner) && WellFormed(member) && JoinerSends(su, joiner).outbox != []
    ensures var d := LastSaid(JoinerSends(su, joiner));
      Truthful(su, member, d) && Proves(member, d) && d.sender == joiner.me.nickname
  {
    hide OwnShare, TrueFor, MyIndex, Accepts, BatchTable, WithOwnShare, WellFormed, JoinerSends, TokenFor;
    DistinctMembers(joiner, member);
    hide Owned, DistinctLongTerm;
    OwnedWellFormed(member);
    OwnedWellFormed(joiner);
    PublishedShareTrue(su, joiner, member);
    SharedFacts(su, joiner);
    JoinerDeliverySent(su, joiner);
    var d := JoinerDelivery(su, joiner);
    assert LastSaid(JoinerSends(su, joiner)) == d;
    JoinerBatchAccepted(su, WithOwnShare(su, joiner), member);
    AuthTruthful(su, member, d);
  }

  lemma AuthTruthful(su: Suite, s: Sess, d: Delivery)
    requires Owned(s) && WellFormed(s) && s.phase == ReShared && FromMember(s, d) && d.packet.content.JoinerAuth?
    requires TrueFor(su, s, d.sender, d.packet.content.authShare) && MyIndex(s) in d.packet.content.table
    requires Accepts(su, s.me, s.ephemeral, s.roster[d.sender], d.packet.content.table[MyIndex(s)])
    ensures Truthful(su, s, d) && Proves(s, d)
  {
    hide TrueFor, MyIndex, Accepts, Owned, WellFormed;
  }

  lemma DistinctMembers(s: Sess, t: Sess)
    requires Owned(s) && Owned(t) && s.sid == t.sid && DistinctLongTerm(s.sid) && s.me.nickname != t.me.nickname
    ensures s.me.fingerprint != t.me.fingerprint
  {
    hide Sorted;
    assert s.sid[s.me.nickname] == Face(s.me.fingerprint, s.ephemeral);
    assert t.sid[t.me.nickname] == Face(t.me.fingerprint, t.ephemeral);
  }

  /** And it is what a newborn session without a joiner says. */
  lemma PeerPublishes(su: Suite, me: ParticipantId, ephemeral: Block, roster: Roster, world: Surroundings)
    requires Consistent(roster) && me.nickname in roster
    ensures Consistent(map[])
    ensures var seed := Seed(me, Some(ephemeral), roster, map[]);
      && Conceive(su, Peer, me, Some(ephemeral), roster, map[], None, world).Born?
      && Conceive(su, Peer, me, Some(ephemeral), roster, map[], None, world).child.outbox
         == [Signed(ephemeral, IdentityOf(roster), GroupShare(OwnShare(su, seed)))]
  {
    hide OwnShare, IdentityOf;
  }

  /** What a member that has the agreed key says when it generates it is, for every other, the confirmation wanted. */
  lemma SpokenConfirmationRight(su: Suite, prover: Sess, s: Sess, p: Packet)
    requires Owned(prover) && Owned(s) && prover.sid == s.sid && prover.key == AgreedKey(su, s.sid)
    requires Voiced(su, prover) && p in prover.outbox && IsConfirmation(p)
    ensures RightConfirmation(su, s, AgreedKey(su, s.sid), Delivery(prover.me.nickname, p))
  {
    hide AgreedKey, ConfirmationOf, Owned;
    SidGivesKeys(s, prover);
    var i :| 0 <= i < |prover.outbox| && prover.outbox[i] == p;
    assert IsConfirmation(prover.outbox[i]);
  }
}
