/** What every step of a session keeps, and so what holds after any run of one session. */
module SessionInvariants {
  import opened Bytes
  import opened Crypto
  import opened Participants
  import opened Sessions
  import opened SessionSteps

  // ---------- what never changes ----------

  ghost predicate SameMember(p: Participant, q: Participant) {
    && q.id == p.id && q.ephemeral == p.ephemeral
    && (p.authenticated ==> q.authenticated) && (p.contributed ==> q.contributed)
  }

  /** What makes up the session is never rewritten: owner, members, their keys, the session id, and, once
      generated, the session key and the announced key. The state only rises in enumeration order, flags are
      only raised and what was sent stays sent. */
  ghost predicate Evolves(s: Sess, t: Sess) {
    && t.me == s.me && t.ephemeral == s.ephemeral && t.sid == s.sid && t.parental == s.parental
    && t.roster.Keys == s.roster.Keys && (forall k :: k in s.roster ==> SameMember(s.roster[k], t.roster[k]))
    && |t.confirmed| == |s.confirmed|
    && s.outbox <= t.outbox && s.zombies.Keys <= t.zombies.Keys
    && Rank(s.phase) <= Rank(t.phase)
    && (Rank(s.phase) >= Rank(GroupKeyGenerated) ==> t.key == s.key && t.future == s.future)
  }

  lemma EvolvesReflexive(s: Sess)
    ensures Evolves(s, s)
  {}

  lemma EvolvesTransitive(s: Sess, t: Sess, u: Sess)
    requires Evolves(s, t) && Evolves(t, u)
    ensures Evolves(s, u)
  {
    forall k | k in s.roster ensures SameMember(s.roster[k], u.roster[k]) {
      assert SameMember(s.roster[k], t.roster[k]) && SameMember(t.roster[k], u.roster[k]);
    }
  }

  /** The id of a session is made of its members and their keys. */
  lemma EvolvesIdentity(s: Sess, t: Sess)
    requires Evolves(s, t)
    ensures IdentityOf(s.roster) == IdentityOf(t.roster)
  {
    forall k | k in s.roster ensures IdentityOf(s.roster)[k] == IdentityOf(t.roster)[k] {
      assert SameMember(s.roster[k], t.roster[k]);
    }
  }

  // ---------- what the states mean ----------

  /** With a key everybody is authenticated and has contributed, and the key is the one made of the shares;
      in session everybody is confirmed; before a key nobody is. */
  ghost predicate Established(su: Suite, s: Sess)
    requires WellFormed(s)
  {
    && (s.phase in {GroupKeyGenerated, InSession} ==> Ready(s) && s.key == SessionKey(su, s))
    && (s.phase == InSession ==> EverybodyConfirmed(s))
    && (s.phase in {JoinRequested, ReShared} ==> NobodyConfirmed(s))
  }

  ghost predicate IsConfirmation(p: Packet) {
    p.Signed? && p.content.SessionConfirmation?
  }

  /** All messages of a session carry its id and its owner's signature; it speaks its one confirmation when it
      generates its key, under that key, announcing the one next key it keeps. */
  ghost predicate Voiced(su: Suite, s: Sess) {
    && (forall i :: 0 <= i < |s.outbox| ==>
          s.outbox[i].Signed? && s.outbox[i].signer == s.ephemeral && s.outbox[i].sid == s.sid)
    && (forall i :: 0 <= i < |s.outbox| && IsConfirmation(s.outbox[i]) ==> SpeaksFor(su, s, s.outbox[i]))
    && (forall i, j :: 0 <= i < j < |s.outbox| ==> !(IsConfirmation(s.outbox[i]) && IsConfirmation(s.outbox[j])))
    && (s.phase in {GroupKeyGenerated, InSession} ==> Spoken(s))
  }

  ghost predicate SpeaksFor(su: Suite, s: Sess, p: Packet)
    requires IsConfirmation(p)
  {
    && Rank(s.phase) >= Rank(GroupKeyGenerated) && s.future == Some(p.content.nextKey)
    && p.content.confirmation == ConfirmationOf(su, s.key, s.me.nickname)
  }

  ghost predicate Spoken(s: Sess) {
    exists i :: 0 <= i < |s.outbox| && IsConfirmation(s.outbox[i])
  }

  /** A message from a member confirming the key this session has. */
  ghost predicate Confirms(su: Suite, s: Sess, d: Delivery, k: Nick) {
    FromMember(s, d) && d.sender == k && d.packet.content.SessionConfirmation?
    && d.packet.content.confirmation == ConfirmationOf(su, s.key, k)
  }

  /** A message from a member announcing the next key this session has on file for it. */
  ghost predicate Announces(s: Sess, d: Delivery, k: Nick) {
    FromMember(s, d) && d.sender == k && d.packet.content.SessionConfirmation?
    && d.packet.content.nextKey == s.roster[k].future
  }

  /** Every mark is backed by messages heard: one with a token valid under the frozen key, and one with the
      announced key. */
  ghost predicate Accountable(su: Suite, s: Sess, heard: seq<Delivery>)
    requires WellFormed(s)
  {
    forall k :: k in s.roster && s.confirmed[IndexIn(s, k)] ==> Backed(su, s, heard, k)
  }

  ghost predicate Backed(su: Suite, s: Sess, heard: seq<Delivery>, k: Nick) {
    && (exists i :: 0 <= i < |heard| && Confirms(su, s, heard[i], k))
    && (exists i :: 0 <= i < |heard| && Announces(s, heard[i], k))
  }

  ghost predicate Invariant(su: Suite, s: Sess, heard: seq<Delivery>) {
    WellFormed(s) && Established(su, s) && Voiced(su, s) && Accountable(su, s, heard)
  }

  // ---------- the key depends on identities, keys and shares alone ----------

  lemma SameArray(su: Suite, s: Sess, t: Sess)
    requires WellFormed(s) && WellFormed(t)
    requires s.me == t.me && s.ephemeral == t.ephemeral && s.sid == t.sid && s.roster.Keys == t.roster.Keys
    requires forall k :: k in s.roster ==>
      s.roster[k].id == t.roster[k].id && s.roster[k].ephemeral == t.roster[k].ephemeral
      && s.roster[k].share == t.roster[k].share
    ensures AllSecrets(su, s) == AllSecrets(su, t)
  {
    hide PairKey, Sorted, KeyOf;
    assert Peers(s) == Peers(t);
    forall i | 0 <= i < |s.roster| ensures Shares(s)[i] == Shares(t)[i] {
      assert Peers(s)[i] in s.roster;
    }
    assert Shares(s) == Shares(t);
  }

  lemma SameKeyMaterial(su: Suite, s: Sess, t: Sess)
    requires WellFormed(s) && WellFormed(t)
    requires s.me == t.me && s.ephemeral == t.ephemeral && s.sid == t.sid && s.roster.Keys == t.roster.Keys
    requires forall k :: k in s.roster ==>
      s.roster[k].id == t.roster[k].id && s.roster[k].ephemeral == t.roster[k].ephemeral
      && s.roster[k].share == t.roster[k].share
    ensures SessionKey(su, s) == SessionKey(su, t)
  {
    hide WellFormed, AllSecrets, KeyOf;
    SameArray(su, s, t);
  }

  // ---------- taking a share ----------

  lemma TakenFacts(s: Sess, k: Nick, share: Block, vouched: bool)
    requires WellFormed(s) && k in s.roster
    ensures var t := Taken(s, k, share, vouched);
            && WellFormed(t) && Evolves(s, t) && t.phase == s.phase && t.confirmed == s.confirmed
            && t.outbox == s.outbox && t.key == s.key && t.future == s.future
  {}

  lemma ConfirmIfReadyFacts(su: Suite, s: Sess, world: Surroundings)
    requires WellFormed(s) && s.phase in {JoinRequested, ReShared}
    ensures var (t, action) := ConfirmIfReady(su, s, world);
            && WellFormed(t) && Evolves(s, t) && t.roster == s.roster && t.confirmed == s.confirmed
            && action == (if Ready(s) then PresumeHeir else NoAction)
            && (Ready(s) ==>
                  && t.phase == GroupKeyGenerated && t.key == SessionKey(su, t) && t.future == Some(world.freshKey)
                  && t.outbox == s.outbox + [Signed(s.ephemeral, s.sid,
                       SessionConfirmation(ConfirmationOf(su, t.key, s.me.nickname), world.freshKey))])
            && (!Ready(s) ==> t == s)
  {
    hide SessionKey, ConfirmationOf, Ready;
    var t := ConfirmIfReady(su, s, world).0;
    if Ready(s) {
      SameKeyMaterial(su, s, t);
    }
  }

  lemma VoicedConfirmation(su: Suite, s: Sess, t: Sess)
    requires Voiced(su, s) && s.phase in {JoinRequested, ReShared}
    requires t.ephemeral == s.ephemeral && t.sid == s.sid && t.phase == GroupKeyGenerated && t.future.Some?
    requires t.outbox == s.outbox + [Signed(s.ephemeral, s.sid,
      SessionConfirmation(ConfirmationOf(su, t.key, t.me.nickname), t.future.value))]
    ensures Voiced(su, t)
  {
    hide ConfirmationOf;
    var n := |s.outbox|;
    forall i | 0 <= i < n ensures !IsConfirmation(t.outbox[i]) {
      assert t.outbox[i] == s.outbox[i];
    }
    assert IsConfirmation(t.outbox[n]);
  }

  lemma VoicedStill(su: Suite, s: Sess, t: Sess)
    requires Voiced(su, s) && t.outbox == s.outbox && t.me == s.me && t.ephemeral == s.ephemeral && t.sid == s.sid
    requires t.key == s.key && t.future == s.future && Rank(s.phase) <= Rank(t.phase)
    requires t.phase in {GroupKeyGenerated, InSession} ==> s.phase in {GroupKeyGenerated, InSession}
    ensures Voiced(su, t)
  {
    hide ConfirmationOf;
  }

  lemma EstablishedWaiting(su: Suite, t: Sess)
    requires WellFormed(t) && NobodyConfirmed(t) && t.phase in {JoinRequested, ReShared}
    ensures Established(su, t)
  {}

  /** As long as nobody is confirmed there is nothing to account for. */
  lemma NothingToAccount(su: Suite, t: Sess, heard: seq<Delivery>)
    requires WellFormed(t) && NobodyConfirmed(t)
    ensures Accountable(su, t, heard)
  {
    hide Backed, Sorted;
  }

  lemma ReadyAgrees(su: Suite, s: Sess, t: Sess)
    requires WellFormed(t) && t.roster == s.roster && Ready(s) && t.phase == GroupKeyGenerated
    requires t.key == SessionKey(su, t)
    ensures Established(su, t)
  {
    hide SessionKey;
  }

  lemma TakeKeeps(su: Suite, s: Sess, heard: seq<Delivery>, d: Delivery, world: Surroundings, m: Move)
    requires Invariant(su, s, heard) && m.Take? && Legal(su, s, d, m)
    ensures var t := Apply(su, s, d, world, m); Evolves(s, t) && Invariant(su, t, heard + [d])
  {
    hide ConfirmIfReady, Taken, SessionKey, Ready, ConfirmationOf, Legal, IndexIn, Accountable, Voiced;
    TakePhase(su, s, d, m);
    assert NobodyConfirmed(s);
    hide WellFormed, Established, Evolves;
    var taken := Taken(s, d.sender, m.share, m.vouched);
    TakenFacts(s, d.sender, m.share, m.vouched);
    ConfirmIfReadyFacts(su, taken, world);
    var t := ConfirmIfReady(su, taken, world).0;
    EvolvesTransitive(s, taken, t);
    NothingToAccount(su, t, heard + [d]);
    EvolvesSameOwner(s, taken);
    EvolvesSameOwner(taken, t);
    hide NobodyConfirmed;
    if Ready(taken) {
      VoicedConfirmation(su, s, t);
      ReadyAgrees(su, taken, t);
    } else {
      VoicedStill(su, s, t);
      EstablishedWaiting(su, t);
    }
  }

  lemma EvolvesSameOwner(s: Sess, t: Sess)
    requires Evolves(s, t)
    ensures t.me == s.me && t.ephemeral == s.ephemeral && t.sid == s.sid && Rank(s.phase) <= Rank(t.phase)
  {}

  lemma TakePhase(su: Suite, s: Sess, d: Delivery, m: Move)
    requires WellFormed(s) && m.Take? && Legal(su, s, d, m)
    ensures s.phase in {JoinRequested, ReShared} && d.sender in s.roster
  {}

  // ---------- a confirmation ----------

  /** Rewriting one member without touching its identity, key and raised flags. */
  lemma RewriteEvolves(s: Sess, t: Sess, k: Nick, p: Participant)
    requires WellFormed(s) && k in s.roster && SameMember(s.roster[k], p)
    requires t == s.(roster := s.roster[k := p], confirmed := t.confirmed, phase := t.phase)
    requires |t.confirmed| == |s.confirmed| && Rank(s.phase) <= Rank(t.phase)
    ensures WellFormed(t) && Evolves(s, t)
  {}

  lemma MarkShape(su: Suite, s: Sess, d: Delivery)
    requires WellFormed(s) && d.packet.Signed? && d.packet.content.SessionConfirmation? && d.sender in s.roster
    ensures var t := MarkConfirmed(su, s, d);
            && t == s.(roster := s.roster[d.sender := s.roster[d.sender].(future := d.packet.content.nextKey)],
                       confirmed := t.confirmed, phase := t.phase)
            && t.confirmed == (if d.packet.content.confirmation == ConfirmationOf(su, s.key, d.sender)
                               then s.confirmed[IndexIn(s, d.sender) := true] else s.confirmed)
            && |t.confirmed| == |s.confirmed|
            && (t.phase == s.phase || (t.phase == InSession && EverybodyConfirmed(t)))
  {
    hide ConfirmationOf, IndexIn;
  }

  lemma MarkHandled(su: Suite, t: Sess, d: Delivery, world: Surroundings)
    requires WellFormed(t) && t.phase == GroupKeyGenerated && FromMember(t, d) && IsConfirmation(d.packet)
    ensures Handle(su, t, d, world) == Done(MarkConfirmed(su, t, d), NoAction)
  {
    hide MarkConfirmed;
  }

  lemma MarkFacts(su: Suite, s: Sess, d: Delivery)
    requires WellFormed(s) && d.packet.Signed? && d.packet.content.SessionConfirmation? && d.sender in s.roster
    requires s.phase == GroupKeyGenerated
    ensures var t := MarkConfirmed(su, s, d);
            && WellFormed(t) && Evolves(s, t) && t.key == s.key && t.future == s.future && t.outbox == s.outbox
            && t.roster == s.roster[d.sender := s.roster[d.sender].(future := d.packet.content.nextKey)]
            && (t.phase == GroupKeyGenerated || (t.phase == InSession && EverybodyConfirmed(t)))
  {
    hide ConfirmationOf, IndexIn, MarkConfirmed, WellFormed, Evolves, EverybodyConfirmed;
    MarkShape(su, s, d);
    RewriteEvolves(s, MarkConfirmed(su, s, d), d.sender, s.roster[d.sender].(future := d.packet.content.nextKey));
  }

  lemma IndexDistinct(s: Sess, k: Nick, l: Nick)
    requires k in s.roster && l in s.roster
    ensures IndexIn(s, k) == IndexIn(s, l) ==> k == l
  {
    hide Sorted;
    var peers := Peers(s);
    assert peers[IndexOf(peers, k)] == k && peers[IndexOf(peers, l)] == l;
  }

  lemma BackedGrows(su: Suite, s: Sess, t: Sess, heard: seq<Delivery>, d: Delivery, k: Nick)
    requires Backed(su, s, heard, k) && Evolves(s, t) && t.key == s.key && k in s.roster
    requires t.roster[k].future == s.roster[k].future
    ensures Backed(su, t, heard + [d], k)
  {
    hide ConfirmationOf;
    assert SameMember(s.roster[k], t.roster[k]);
    var i :| 0 <= i < |heard| && Confirms(su, s, heard[i], k);
    var j :| 0 <= j < |heard| && Announces(s, heard[j], k);
    assert Confirms(su, t, (heard + [d])[i], k) && Announces(t, (heard + [d])[j], k);
  }

  lemma MarkAccounts(su: Suite, s: Sess, heard: seq<Delivery>, d: Delivery)
    requires Invariant(su, s, heard) && Legal(su, s, d, Mark)
    ensures var t := MarkConfirmed(su, s, d); WellFormed(t) && Accountable(su, t, heard + [d])
  {
    hide MarkConfirmed, ConfirmationOf, Established, Voiced, IndexIn, Backed, Evolves;
    MarkFacts(su, s, d);
    MarkShape(su, s, d);
    var t := MarkConfirmed(su, s, d);
    SameIndices(s, t);
    hide WellFormed, EverybodyConfirmed;
    forall k | k in t.roster && t.confirmed[IndexIn(t, k)] ensures Backed(su, t, heard + [d], k) {
      if k != d.sender {
        IndexDistinct(s, k, d.sender);
        BackedGrows(su, s, t, heard, d, k);
      } else {
        BackedNow(su, s, t, heard, d);
      }
    }
  }

  /** The sender of a confirmation is backed, by this one or by an earlier one. */
  lemma BackedNow(su: Suite, s: Sess, t: Sess, heard: seq<Delivery>, d: Delivery)
    requires WellFormed(s) && FromMember(s, d) && d.packet.content.SessionConfirmation?
    requires Evolves(s, t) && t.key == s.key && t.roster[d.sender].future == d.packet.content.nextKey
    requires d.packet.content.confirmation == ConfirmationOf(su, s.key, d.sender) || Backed(su, s, heard, d.sender)
    ensures Backed(su, t, heard + [d], d.sender)
  {
    hide ConfirmationOf, WellFormed;
    var all, n := heard + [d], |heard|;
    assert SameMember(s.roster[d.sender], t.roster[d.sender]);
    assert all[n] == d && Announces(t, all[n], d.sender);
    if d.packet.content.confirmation == ConfirmationOf(su, s.key, d.sender) {
      assert Confirms(su, t, all[n], d.sender);
    } else {
      var i :| 0 <= i < n && Confirms(su, s, heard[i], d.sender);
      assert Confirms(su, t, all[i], d.sender);
    }
  }

  lemma SameIndices(s: Sess, t: Sess)
    requires s.roster.Keys == t.roster.Keys
    ensures |s.roster| == |t.roster| && forall k :: k in s.roster ==> IndexIn(s, k) == IndexIn(t, k)
  {
    assert |s.roster| == |s.roster.Keys| == |t.roster.Keys| == |t.roster|;
    assert Peers(s) == Peers(t);
  }

  lemma MarkKeeps(su: Suite, s: Sess, heard: seq<Delivery>, d: Delivery)
    requires Invariant(su, s, heard) && Legal(su, s, d, Mark)
    ensures var t := MarkConfirmed(su, s, d); Evolves(s, t) && Invariant(su, t, heard + [d])
  {
    hide MarkConfirmed, ConfirmationOf, SessionKey, Accountable, IndexIn, EverybodyConfirmed, Voiced;
    MarkFacts(su, s, d);
    MarkAccounts(su, s, heard, d);
    var t := MarkConfirmed(su, s, d);
    SameKeyMaterial(su, s, t);
    VoicedStill(su, s, t);
  }

  // ---------- a member leaves, the session ends ----------

  /** Changing zombies or raising the state without confirming anything keeps the invariant. */
  lemma AsideEvolves(s: Sess, t: Sess)
    requires WellFormed(s)
    requires t == s.(zombies := t.zombies, phase := t.phase)
    requires s.zombies.Keys <= t.zombies.Keys && Consistent(t.zombies) && Rank(s.phase) <= Rank(t.phase)
    ensures WellFormed(t) && Evolves(s, t)
  {}

  /** Changing zombies or ending the session without confirming anything keeps the invariant. */
  lemma AsideKeeps(su: Suite, s: Sess, t: Sess, heard: seq<Delivery>)
    requires Invariant(su, s, heard)
    requires t == s.(zombies := t.zombies, phase := t.phase)
    requires s.zombies.Keys <= t.zombies.Keys && Consistent(t.zombies)
    requires t.phase == s.phase || (t.phase in {Stale, Dead} && Rank(s.phase) <= Rank(t.phase))
    ensures Evolves(s, t) && Invariant(su, t, heard)
  {
    hide SessionKey, ConfirmationOf, IndexIn, Accountable, Voiced;
    AsideEvolves(s, t);
    SameKeyMaterial(su, s, t);
    AsideAccounts(su, s, t, heard);
    VoicedStill(su, s, t);
    hide WellFormed, Evolves;
  }

  lemma AsideAccounts(su: Suite, s: Sess, t: Sess, heard: seq<Delivery>)
    requires WellFormed(s) && Accountable(su, s, heard) && WellFormed(t)
    requires t == s.(zombies := t.zombies, phase := t.phase)
    ensures Accountable(su, t, heard)
  {
    hide ConfirmationOf, IndexIn;
    SameIndices(s, t);
    forall k | k in t.roster && t.confirmed[IndexIn(t, k)] ensures Backed(su, t, heard, k) {
      assert Backed(su, s, heard, k);
      var i :| 0 <= i < |heard| && Confirms(su, s, heard[i], k);
      var j :| 0 <= j < |heard| && Announces(s, heard[j], k);
      assert Confirms(su, t, heard[i], k) && Announces(t, heard[j], k);
    }
  }

  lemma HeardMore(su: Suite, s: Sess, heard: seq<Delivery>, d: Delivery)
    requires Invariant(su, s, heard)
    ensures Invariant(su, s, heard + [d])
  {
    hide Established, Voiced, IndexIn;
    EvolvesReflexive(s);
    forall k | k in s.roster && s.confirmed[IndexIn(s, k)] ensures Backed(su, s, heard + [d], k) {
      BackedGrows(su, s, s, heard, d, k);
    }
  }

  // ---------- every step ----------

  lemma MoveKeeps(su: Suite, s: Sess, heard: seq<Delivery>, d: Delivery, world: Surroundings, m: Move)
    requires Invariant(su, s, heard) && Legal(su, s, d, m)
    ensures var t := Apply(su, s, d, world, m); Evolves(s, t) && Invariant(su, t, heard + [d])
  {
    hide Established, Voiced, Accountable, MarkConfirmed, ConfirmIfReady, Evolves, Taken, Readable, TokenFound, Accepts;
    match m
    case Take(_, _) => TakeKeeps(su, s, heard, d, world, m);
    case Mark => MarkKeeps(su, s, heard, d);
    case Shed(leaver) =>
      ReadableIs(s, d, leaver);
      HeardMore(su, s, heard, d);
      AsideKeeps(su, s, Apply(su, s, d, world, m), heard + [d]);
    case _ =>
      HeardMore(su, s, heard, d);
      AsideKeeps(su, s, Apply(su, s, d, world, m), heard + [d]);
  }

  /** The data invariant: whatever message arrives, in whatever state. */
  lemma HandleKeeps(su: Suite, s: Sess, heard: seq<Delivery>, d: Delivery, world: Surroundings)
    requires Invariant(su, s, heard)
    ensures var t := After(s, Handle(su, s, d, world)); Evolves(s, t) && Invariant(su, t, heard + [d])
  {
    hide *;
    assert WellFormed(s) by { InvariantWellFormed(su, s, heard); }
    var m := HandleMoves(su, s, d, world);
    MoveKeeps(su, s, heard, d, world, m);
  }

  lemma InvariantWellFormed(su: Suite, s: Sess, heard: seq<Delivery>)
    requires Invariant(su, s, heard)
    ensures WellFormed(s)
  {}
}
