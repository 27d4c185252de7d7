/** The smallest exchange the code builds, with any primitives: a host alone in its session answers a join request, the
    guest joins, and each holds the one key. A confirmation that overtakes the message before it is lost for good. */
module TwoMembers {
  import opened Bytes
  import opened Crypto
  import opened Participants
  import opened Sessions
  import opened SessionSteps
  import opened SessionInvariants
  import opened SessionBirths
  import opened SessionActions
  import opened SessionRuns
  import opened SessionKeys
  import opened Completeness
  import opened Inheritance

  function Filled(b: Byte): Block {
    seq(HASH_LENGTH, _ => b)
  }

  lemma FilledDiffers(a: Byte, b: Byte)
    requires a != b
    ensures Filled(a) != Filled(b)
  {
    assert Filled(a)[0] == a && Filled(b)[0] == b;
  }

  const HOST := ParticipantId([97], Filled(1))
  const GUEST := ParticipantId([98], Filled(2))
  const HOST_KEY: Block := Filled(3)
  const GUEST_KEY: Block := Filled(4)

  function TwoFaces(): Identity {
    map[HOST.nickname := Face(HOST.fingerprint, HOST_KEY), GUEST.nickname := Face(GUEST.fingerprint, GUEST_KEY)]
  }

  lemma TwoDistinct()
    ensures TwoFaces().Keys == {HOST.nickname, GUEST.nickname} && |TwoFaces()| == 2 && DistinctLongTerm(TwoFaces())
    ensures HOST.nickname == [97] && GUEST.nickname == [98] && HOST_KEY != GUEST_KEY
    ensures TwoFaces()[HOST.nickname] == Face(HOST.fingerprint, HOST_KEY)
    ensures TwoFaces()[GUEST.nickname] == Face(GUEST.fingerprint, GUEST_KEY)
  {
    FilledDiffers(1, 2);
    FilledDiffers(3, 4);
    hide Filled;
    var id := TwoFaces();
    assert HOST.nickname[0] == 97 && GUEST.nickname[0] == 98;
    assert |id| == |id.Keys|;
  }

  // ---------- the host ----------

  function HostAlone(): Roster {
    map[HOST.nickname := Participant(HOST, HOST_KEY, ZERO, ZERO, true, true, true)]
  }

  function Newcomer(): UnauthenticatedParticipant {
    UnauthenticatedParticipant(GUEST, GUEST_KEY, false)
  }

  function Request(): (d: Delivery)
    ensures d.packet.JoinRequest?
  {
    Delivery(GUEST.nickname, JoinRequest(ParticipantString(Newcomer())))
  }

  function BothListed(): Roster {
    WithJoiner(HostAlone(), Newcomer())
  }

  lemma HostRoster()
    ensures Consistent(HostAlone()) && Consistent(BothListed()) && BothListed().Keys == {HOST.nickname, GUEST.nickname}
    ensures IdentityOf(BothListed()) == TwoFaces() && OwnFace(HOST, HOST_KEY, BothListed())
    ensures !BothListed()[GUEST.nickname].contributed
    ensures ParseParticipant(Request().packet.joinerInfo) == Some(Newcomer())
  {
    hide Filled, ParticipantString, ParseParticipant;
    TwoDistinct();
    ParticipantRoundTrip(Newcomer());
    assert IdentityOf(BothListed()) == TwoFaces();
  }

  /** Waiting for shares in the session of the two. */
  ghost predicate Hosting(s: Sess) {
    && Inherits(s, HOST, BothListed()) && s.ephemeral == HOST_KEY && s.zombies == map[] && Silent(s)
  }

  lemma HostBorn(su: Suite, world: Surroundings) returns (host: Sess)
    ensures Consistent(HostAlone()) && Consistent(BothListed())
    ensures Conceive(su, Acceptor, HOST, Some(HOST_KEY), BothListed(), HostAlone(), Some(Request()), world)
         == Born(host)
    ensures Hosting(host) && Invites(su, host)
  {
    hide Filled, BothListed, HostAlone, Conceive, Seed, ParseParticipant, Request, IdentityOf, OwnFace, Waits,
      Evolves, SendView, Invites, TwoFaces, WellFormed, Inherits, Owned, DistinctLongTerm;
    HostRoster();
    TwoDistinct();
    assert !Complete(Seed(HOST, Some(HOST_KEY), BothListed(), HostAlone()), Some(Request()));
    hide Complete, Silent;
    JoinConceived(su, HOST, Some(HOST_KEY), BothListed(), HostAlone(), Request(), Newcomer(), world);
    host := Conceive(su, Acceptor, HOST, Some(HOST_KEY), BothListed(), HostAlone(), Some(Request()), world).child;
    ConceiveNewborn(su, Acceptor, HOST, Some(HOST_KEY), BothListed(), HostAlone(), Some(Request()), world);
    ConceiveInherits(su, Acceptor, HOST, Some(HOST_KEY), BothListed(), HostAlone(), Some(Request()), world);
    SeedRoster(HOST, HOST_KEY, BothListed(), HostAlone());
    ViewInvites(su, Seed(HOST, Some(HOST_KEY), BothListed(), HostAlone()), host);
  }

  /** The view the host sends. */
  ghost predicate Invites(su: Suite, s: Sess) {
    && s.outbox != [] && IsInfo(LastSaid(s)) && LastSaid(s).sender == HOST.nickname
    && LastSaid(s).packet.sid == TwoFaces() && LastSaid(s).packet.signer == HOST_KEY
    && OwnFace(GUEST, GUEST_KEY, ListToMap(LastSaid(s).packet.content.view))
    && IdentityOf(ListToMap(LastSaid(s).packet.content.view)) == TwoFaces()
    && Truthful(su, JoinerReads(su, GUEST, GUEST_KEY, LastSaid(s).packet.content.view), LastSaid(s))
  }

  lemma ViewInvites(su: Suite, seed: Sess, host: Sess)
    requires Owned(seed) && seed.me == HOST && seed.ephemeral == HOST_KEY && seed.sid == TwoFaces()
    requires seed.roster.Keys == {HOST.nickname, GUEST.nickname}
    requires SendView(su, seed, GUEST.nickname) == Born(host)
    ensures Invites(su, host)
  {
    hide Filled, SendView, WithOwnShare, TokenFor, SessionView, ListToMap, IdentityOf, WellFormed, Truthful,
      JoinerReads, TwoFaces, OwnShare, DistinctLongTerm, Owned, Waits, JoinSeed, Silent, Evolves;
    TwoDistinct();
    OwnedWellFormed(seed);
    SharedFacts(su, seed);
    ViewSent(su, seed, GUEST.nickname);
    var view := SessionView(WithOwnShare(su, seed).roster);
    SharedLists(WithOwnShare(su, seed));
    GuestFace(view);
    JoinerReadsFacts(su, GUEST, GUEST_KEY, view);
    var guest := JoinerReads(su, GUEST, GUEST_KEY, view);
    WaitsWellFormed(guest);
    PublishedViewTruthful(su, seed, guest);
  }

  lemma SharedLists(s: Sess)
    requires Owned(s)
    ensures IdentityOf(ListToMap(SessionView(s.roster))) == s.sid
  {
    hide Sorted, SessionView, ListToMap, ListsMembers;
    SessionViewListsMembers(s.roster);
    ViewPreservesIdentity(SessionView(s.roster), s.sid);
  }

  lemma GuestFace(view: seq<UnauthenticatedParticipant>)
    requires IdentityOf(ListToMap(view)) == TwoFaces()
    ensures OwnFace(GUEST, GUEST_KEY, ListToMap(view)) && ListToMap(view).Keys == {HOST.nickname, GUEST.nickname}
  {
    hide ListToMap, Filled, TwoFaces;
    TwoDistinct();
    assert IdentityOf(ListToMap(view)).Keys == ListToMap(view).Keys;
    assert IdentityOf(ListToMap(view))[GUEST.nickname] == Face(GUEST.fingerprint, GUEST_KEY);
  }

  // ---------- who holds the key ----------

  /** What a member says when it confirms the key and announces the next one. */
  function Confirmation(su: Suite, s: Sess, k: Nick, nextKey: Block): Delivery
    requires k in s.roster
  {
    Delivery(k, Signed(s.roster[k].ephemeral, s.sid, SessionConfirmation(ConfirmationOf(su, s.key, k), nextKey)))
  }

  /** A member of the session of the two that has its key and has just confirmed it, announcing `next`. */
  ghost predicate Keyed(su: Suite, s: Sess, me: ParticipantId, ephemeral: Block, next: Block) {
    && Owned(s) && s.phase == GroupKeyGenerated && s.me == me && s.ephemeral == ephemeral && s.sid == TwoFaces()
    && s.roster.Keys == {HOST.nickname, GUEST.nickname} && me.nickname in s.roster && s.zombies == map[]
    && NobodyConfirmed(s) && Ready(s) && s.key == AgreedKey(su, s.sid) && AllSecrets(su, s) == Secrets(su, s.sid)
    && s.future == Some(next) && Confirmation(su, s, me.nickname, next).packet in s.outbox
  }

  /** What is spoken at key generation is the confirmation. */
  lemma SaysConfirmation(su: Suite, s: Sess, heard: seq<Delivery>)
    requires Invariant(su, s, heard) && Owned(s) && s.phase == GroupKeyGenerated
    ensures s.future.Some? && s.me.nickname in s.roster && Ready(s)
    ensures Confirmation(su, s, s.me.nickname, s.future.value).packet in s.outbox
  {
    hide SessionKey, ConfirmationOf, Accountable, Ready;
    var i :| 0 <= i < |s.outbox| && IsConfirmation(s.outbox[i]);
    assert SpeaksFor(su, s, s.outbox[i]);
    assert s.sid[s.me.nickname] == Face(s.me.fingerprint, s.ephemeral);
    assert s.outbox[i] == Confirmation(su, s, s.me.nickname, s.future.value).packet;
  }

  /** What one share may change besides the flags. */
  lemma FutureDrawn(su: Suite, s: Sess, d: Delivery, world: Surroundings)
    requires Waits(s) && WellFormed(s) && Truthful(su, s, d) && TakesUp(s, d)
    ensures var t := After(s, Handle(su, s, d, world));
      && t.zombies == s.zombies && t.confirmed == s.confirmed && t.phase in {s.phase, GroupKeyGenerated}
      && (t.phase == GroupKeyGenerated ==> t.future == Some(world.freshKey))
  {
    hide Handle, TrueFor, Accepts, Taken, Proves, SessionKey, ConfirmationOf, Ready, WellFormed, TakesUp, Evolves,
      Truthful, Owned;
    TruthfulToken(su, s, d);
    TakenUp(su, s, d, world);
    var u := Taken(s, d.sender, ShareIn(d.packet.content), Proves(s, d));
    TakenFacts(s, d.sender, ShareIn(d.packet.content), Proves(s, d));
    TakenZombies(s, d.sender, ShareIn(d.packet.content), Proves(s, d));
    ConfirmIfReadyFacts(su, u, world);
    ConfirmIfReadyZombies(su, u, world);
  }

  /** The message that completes one of the two. */
  lemma KeyedByOne(su: Suite, s: Sess, d: Delivery, world: Surroundings)
    requires Waits(s) && WellFormed(s) && Silent(s) && s.zombies == map[] && s.sid == TwoFaces()
    requires s.roster.Keys == {HOST.nickname, GUEST.nickname} && Truthful(su, s, d) && TakesUp(s, d)
    requires ReadyBy(s, [d]) && TookAny(s, [d]) && RightBy(su, s, [d])
    ensures Keyed(su, After(s, Handle(su, s, d, world)), s.me, s.ephemeral, world.freshKey)
  {
    hide Handle, HandleAll, WellFormed, TakesUp, Truthful, ReadyBy, TookAny, RightBy, TwoFaces, Evolves, Invariant,
      Confirmation, AllSecrets, SessionKey, AgreedKey, Secrets, Ready, Stands, Owned;
    assert [d][0] == d && [] + [d] == [d];
    SharesGenerateKey(su, s, [d], world);
    HandleSingle(su, s, d, world);
    FutureDrawn(su, s, d, world);
    SilentInvariant(su, s);
    HandleKeeps(su, s, [], d, world);
    SaysConfirmation(su, After(s, Handle(su, s, d, world)), [d]);
  }

  // ---------- the guest ----------

  /** The joiner's session as it reads the invitation. */
  function Arriving(su: Suite, host: Sess): (s: Sess)
    requires host.outbox != [] && IsInfo(LastSaid(host))
    requires GUEST.nickname in ListToMap(LastSaid(host).packet.content.view)
    ensures WellFormed(s)
  {
    JoinerReads(su, GUEST, GUEST_KEY, LastSaid(host).packet.content.view)
  }

  lemma InvitesParts(su: Suite, host: Sess)
    requires Invites(su, host)
    ensures host.outbox != [] && IsInfo(LastSaid(host)) && LastSaid(host).sender == HOST.nickname
    ensures LastSaid(host).packet.sid == TwoFaces() && LastSaid(host).packet in host.outbox
    ensures LastSaid(host).packet.signer == HOST_KEY
    ensures OwnFace(GUEST, GUEST_KEY, ListToMap(LastSaid(host).packet.content.view))
    ensures GUEST.nickname in ListToMap(LastSaid(host).packet.content.view)
    ensures IdentityOf(ListToMap(LastSaid(host).packet.content.view)) == TwoFaces()
    ensures var s := Arriving(su, host);
      && Truthful(su, s, LastSaid(host)) && TakesUp(s, LastSaid(host)) && Waits(s) && s.phase == JoinRequested
      && s.roster.Keys == {HOST.nickname, GUEST.nickname} && s.sid == TwoFaces() && s.me == GUEST
      && s.ephemeral == GUEST_KEY && s.zombies == map[] && Silent(s) && s.outbox != []
      && s.roster[GUEST.nickname].authenticated && s.roster[GUEST.nickname].contributed
      && !s.roster[HOST.nickname].contributed
  {
    hide ListToMap, Filled, Truthful, TwoFaces, IdentityOf, Waits, JoinerSends, JoinSeed, WellFormed, Evolves,
      Silent;
    var view := LastSaid(host).packet.content.view;
    TwoDistinct();
    GuestFace(view);
    JoinerReadsFacts(su, GUEST, GUEST_KEY, view);
    JoinerDeliverySent(su, JoinSeed(GUEST, GUEST_KEY, view));
  }

  /** The guest joins: its session has its key at once, and the agreed one; whatever key the surroundings supply is the
      one it announces. */
  lemma GuestBorn(su: Suite, host: Sess, world: Surroundings) returns (guest: Sess)
    requires Invites(su, host)
    ensures host.outbox != [] && IsInfo(LastSaid(host))
    ensures GUEST.nickname in ListToMap(LastSaid(host).packet.content.view)
    ensures Join(su, GUEST, GUEST_KEY, LastSaid(host), world) == Born(guest)
    ensures Keyed(su, guest, GUEST, GUEST_KEY, world.freshKey)
    ensures Arriving(su, host).outbox != [] && LastSaid(Arriving(su, host)).packet in guest.outbox
  {
    hide Filled, ListToMap, Join, Truthful, Waits, HandleAll, WellFormed, TakesUp, Invites, OwnFace, TwoFaces,
      Handle, ReadyBy, RightBy, Keyed, JoinerReads, Evolves, KeyTime, Silent;
    InvitesParts(su, host);
    TwoDistinct();
    var d, s := LastSaid(host), Arriving(su, host);
    TruthfulViewJoins(su, GUEST, GUEST_KEY, d, world);
    guest := Join(su, GUEST, GUEST_KEY, d, world).child;
    JoinReadsView(su, GUEST, GUEST_KEY, d, guest, world);
    HandleSingle(su, s, d, world);
    assert [d][0] == d && Took(s, [d], HOST.nickname);
    JoinerMeans(su, s, [d]);
    KeyedByOne(su, s, d, world);
    HandleEvolves(su, s, d, world);
    OutboxKept(s, guest);
  }

  lemma OutboxKept(s: Sess, t: Sess)
    requires Evolves(s, t) && s.outbox != []
    ensures LastSaid(s).packet in t.outbox
  {
    assert t.outbox[|s.outbox| - 1] == s.outbox[|s.outbox| - 1];
  }

  /** What the guest says when it arrives is truthful to the host, and completes it. */
  lemma GuestSpeaks(su: Suite, host: Sess, world: Surroundings)
    requires Hosting(host) && Invites(su, host)
    ensures host.outbox != [] && IsInfo(LastSaid(host)) && WellFormed(host)
    ensures GUEST.nickname in ListToMap(LastSaid(host).packet.content.view) && Arriving(su, host).outbox != []
    ensures var d := LastSaid(Arriving(su, host));
      && d.packet.Signed? && d.packet.sid == TwoFaces() && Truthful(su, host, d) && TakesUp(host, d)
      && d.sender == GUEST.nickname
      && Keyed(su, After(host, Handle(su, host, d, world)), HOST, HOST_KEY, world.freshKey)
  {
    hide ListToMap, Filled, Truthful, TwoFaces, IdentityOf, JoinerSends, JoinSeed, WellFormed, Invites, Waits, Owned,
      DistinctLongTerm, Silent, OwnFace, Handle, Keyed, ReadyBy, RightBy, TakesUp, TokenFound, KeyTime, Unspoiled;
    HostParts(su, host);
    InvitesParts(su, host);
    TwoDistinct();
    var seed := JoinSeed(GUEST, GUEST_KEY, LastSaid(host).packet.content.view);
    var d := LastSaid(JoinerSends(su, seed));
    JoinSeedTrusts(LastSaid(host).packet.content.view);
    JoinerDeliverySent(su, seed);
    PublishedAuthTruthful(su, seed, host);
    assert [d][0] == d && Proved(host, [d], GUEST.nickname) && Took(host, [d], GUEST.nickname);
    HostReady(su, host, [d]);
    KeyedByOne(su, host, d, world);
  }

  lemma HostParts(su: Suite, host: Sess)
    requires Hosting(host)
    ensures Owned(host) && WellFormed(host) && Waits(host) && Silent(host) && host.phase == ReShared && host.me == HOST
    ensures host.sid == TwoFaces() && host.roster.Keys == {HOST.nickname, GUEST.nickname} && host.ephemeral == HOST_KEY
    ensures host.roster[HOST.nickname].authenticated && host.roster[HOST.nickname].contributed
    ensures !host.roster[GUEST.nickname].contributed && Unspoiled(su, host) && host.zombies == map[]
  {
    hide Silent, TwoFaces, IdentityOf, BothListed, Filled, WellFormed, TrueFor;
    HostRoster();
    TwoDistinct();
    assert forall k :: k in host.roster && k != HOST.nickname ==> k == GUEST.nickname;
  }

  lemma HostReady(su: Suite, host: Sess, ds: seq<Delivery>)
    requires Owned(host) && WellFormed(host) && host.roster.Keys == {HOST.nickname, GUEST.nickname}
    requires host.roster[HOST.nickname].authenticated && host.roster[HOST.nickname].contributed && Unspoiled(su, host)
    requires Proved(host, ds, GUEST.nickname) && Took(host, ds, GUEST.nickname)
    ensures ReadyBy(host, ds) && TookAny(host, ds) && RightBy(su, host, ds)
  {
    hide Owned, WellFormed, Took, Proved, Unspoiled, RightBy;
    KeyTimeIff(host, ds);
    assert ReadyBy(host, ds);
    UnspoiledRight(su, host, ds);
  }

  /** The guest's session is its own, and takes nobody for authenticated to. */
  lemma JoinSeedTrusts(view: seq<UnauthenticatedParticipant>)
    requires OwnFace(GUEST, GUEST_KEY, ListToMap(view)) && IdentityOf(ListToMap(view)) == TwoFaces()
    ensures var s := JoinSeed(GUEST, GUEST_KEY, view);
      && Owned(s) && s.sid == TwoFaces() && s.me == GUEST && HOST.nickname in s.roster
      && !s.roster[HOST.nickname].authedTo
  {
    hide ListToMap, TwoFaces, Filled, WellFormed, Silent;
    TwoDistinct();
    GuestFace(view);
    ListToMapKeys(view);
    JoinSeedFacts(GUEST, GUEST_KEY, view);
    JoinSeedOwner(GUEST, GUEST_KEY, view);
  }

  // ---------- both confirm ----------

  /** Both members confirm and announce their next keys: the session is in session, and nothing else has changed. */
  lemma BothConfirm(su: Suite, s: Sess, k: Nick, nextK: Block, l: Nick, nextL: Block, world: Surroundings)
    returns (t: Sess)
    requires WellFormed(s) && s.phase == GroupKeyGenerated && NobodyConfirmed(s) && s.roster.Keys == {k, l} && k != l
    ensures t == HandleAll(su, s, [Confirmation(su, s, k, nextK), Confirmation(su, s, l, nextL)], world)
    ensures WellFormed(t) && t.phase == InSession && SameKeyed(s, t) && t.future == s.future && t.zombies == s.zombies
    ensures t.roster.Keys == {k, l} && t.roster[k] == s.roster[k].(future := nextK)
    ensures t.roster[l] == s.roster[l].(future := nextL)
  {
    hide ConfirmationOf, MarkConfirmed, Handle, IndexIn, HandleAll, WellFormed, EverybodyConfirmed, Evolves;
    var c, d := Confirmation(su, s, k, nextK), Confirmation(su, s, l, nextL);
    HandleSingle(su, s, c, world);
    HandleAllInTurn(su, s, [c], [d], world);
    assert [c] + [d] == [c, d];
    MarkHandled(su, s, c, world);
    MarkFacts(su, s, c);
    MarkShape(su, s, c);
    var u := MarkConfirmed(su, s, c);
    OneIsNotAll(s, u, k, l);
    HandleSingle(su, u, d, world);
    MarkHandled(su, u, d, world);
    MarkFacts(su, u, d);
    MarkShape(su, u, d);
    t := MarkConfirmed(su, u, d);
    BothMarked(su, s, c, d, world);
  }

  lemma BothMarked(su: Suite, s: Sess, c: Delivery, d: Delivery, world: Surroundings)
    requires WellFormed(s) && s.phase == GroupKeyGenerated && s.roster.Keys == {c.sender, d.sender}
    requires RightConfirmation(su, s, s.key, c) && RightConfirmation(su, s, s.key, d)
    ensures HandleAll(su, s, [c, d], world).phase == InSession && SameKeyed(s, HandleAll(su, s, [c, d], world))
  {
    hide RightConfirmation, WellFormed, IndexIn, SameKeyed, HandleAll;
    ConfirmationsEstablish(su, s, [c, d], world);
    assert [c, d][0] == c && [c, d][1] == d;
    assert HeardRight(su, s, s.key, [c, d], c.sender) && HeardRight(su, s, s.key, [c, d], d.sender);
  }

  /** After one of two confirmations not everybody is confirmed. */
  lemma OneIsNotAll(s: Sess, t: Sess, k: Nick, l: Nick)
    requires WellFormed(s) && NobodyConfirmed(s) && k in s.roster && l in s.roster && k != l
    requires t.confirmed == s.confirmed[IndexIn(s, k) := true]
    ensures !EverybodyConfirmed(t)
  {
    hide Sorted;
    IndexDistinct(s, k, l);
    assert !t.confirmed[IndexIn(s, l)];
  }

  // ---------- a confirmation that comes early ----------

  lemma KeyedParts(su: Suite, s: Sess, me: ParticipantId, ephemeral: Block, next: Block)
    requires Keyed(su, s, me, ephemeral, next)
    ensures Owned(s) && WellFormed(s) && s.phase == GroupKeyGenerated && s.me == me && s.ephemeral == ephemeral
    ensures s.sid == TwoFaces() && s.roster.Keys == {HOST.nickname, GUEST.nickname} && s.zombies == map[]
    ensures NobodyConfirmed(s) && s.key == AgreedKey(su, TwoFaces()) && me.nickname in s.roster && Ready(s)
    ensures Confirmation(su, s, me.nickname, next).packet in s.outbox && s.future == Some(next)
    ensures AllSecrets(su, s) == Secrets(su, s.sid)
  {
    hide TwoFaces, AgreedKey, AllSecrets, Secrets, ConfirmationOf;
  }

  /** What one of the two says to confirm is what the other is to hear. */
  lemma SameWords(su: Suite, s: Sess, t: Sess, k: Nick, next: Block)
    requires Owned(s) && Owned(t) && s.sid == t.sid && s.key == t.key && k in s.roster && k in t.roster
    ensures Confirmation(su, s, k, next) == Confirmation(su, t, k, next)
    ensures Confirmation(su, s, k, next).packet.Signed? && Confirmation(su, s, k, next).packet.sid == s.sid
    ensures RightConfirmation(su, s, s.key, Confirmation(su, s, k, next))
  {
    hide ConfirmationOf;
    SameFace(s, t, k);
  }

  /** A whole exchange of honest members, with any primitives, in which one message overtakes another. The host
      invites, the guest joins, makes the one key and says its tokens and share and then its confirmation. Heard in
      that order, and its own confirmation after them, they bring the host into session. Heard the other way round
      they leave it with the same key but never in session, whatever it hears after that, its own confirmation
      included, unless the guest confirms again; and nothing makes it. */
  lemma EarlyConfirmationIsLost(su: Suite, world: Surroundings, first: Surroundings, more: seq<Delivery>)
    returns (host: Sess, guest: Sess, auth: Delivery, confirms: Delivery, own: Delivery)
    requires forall i :: 0 <= i < |more| ==> !(more[i].sender == GUEST.nickname && IsConfirmation(more[i].packet))
    ensures Hosting(host) && Invites(su, host) && WellFormed(host)
    ensures host.outbox != [] && IsInfo(LastSaid(host))
    ensures Join(su, GUEST, GUEST_KEY, LastSaid(host), first) == Born(guest)
    ensures auth.packet in guest.outbox && confirms.packet in guest.outbox && IsConfirmation(confirms.packet)
    ensures guest.phase == GroupKeyGenerated && guest.key == AgreedKey(su, TwoFaces())
    ensures auth.sender == confirms.sender == GUEST.nickname && own.sender == HOST.nickname
    ensures var t := HandleAll(su, host, [auth, confirms, own], world); t.phase == InSession && t.key == guest.key
    ensures var t := HandleAll(su, host, [confirms, auth, own] + more, world);
      t.phase == GroupKeyGenerated && t.key == guest.key
  {
    hide *;
    host := HostBorn(su, world);
    HostParts(su, host);
    guest := GuestBorn(su, host, first);
    InvitesParts(su, host);
    KeyedParts(su, guest, GUEST, GUEST_KEY, first.freshKey);
    GuestSpeaks(su, host, world);
    auth := LastSaid(Arriving(su, host));
    var u := After(host, Handle(su, host, auth, world));
    KeyedParts(su, u, HOST, HOST_KEY, world.freshKey);
    confirms := Confirmation(su, guest, GUEST.nickname, first.freshKey);
    own := Confirmation(su, u, HOST.nickname, world.freshKey);
    SameWords(su, u, guest, GUEST.nickname, first.freshKey);
    SameWords(su, u, u, HOST.nickname, world.freshKey);
    ConfirmsIt(su, u, GUEST.nickname, first.freshKey);
    ConfirmsIt(su, u, HOST.nickname, world.freshKey);
    TwoDistinct();
    InOrder(su, host, auth, confirms, own, world);
    OutOfOrder(su, host, auth, confirms, own, more, world);
  }

  lemma ConfirmsIt(su: Suite, s: Sess, k: Nick, next: Block)
    requires k in s.roster
    ensures IsConfirmation(Confirmation(su, s, k, next).packet) && Confirmation(su, s, k, next).sender == k
  {
    hide ConfirmationOf;
  }

  lemma InOrder(su: Suite, host: Sess, auth: Delivery, confirms: Delivery, own: Delivery, world: Surroundings)
    requires WellFormed(host)
    requires var u := After(host, Handle(su, host, auth, world));
      && WellFormed(u) && u.phase == GroupKeyGenerated && u.roster.Keys == {confirms.sender, own.sender}
      && RightConfirmation(su, u, u.key, confirms) && RightConfirmation(su, u, u.key, own)
    ensures var (u, t) := (After(host, Handle(su, host, auth, world)),
                           HandleAll(su, host, [auth, confirms, own], world));
      t.phase == InSession && t.key == u.key
  {
    hide RightConfirmation, WellFormed, HandleAll, Handle, AllMarkedBy, MarkedBy;
    var u := After(host, Handle(su, host, auth, world));
    assert [auth, confirms, own] == [auth] + [confirms, own];
    HandleSingle(su, host, auth, world);
    HandleAllInTurn(su, host, [auth], [confirms, own], world);
    ConfirmationsEstablish(su, u, [confirms, own], world);
    BothMarked(su, u, confirms, own, world);
  }

  lemma OutOfOrder(su: Suite, host: Sess, auth: Delivery, confirms: Delivery, own: Delivery, more: seq<Delivery>,
                   world: Surroundings)
    requires WellFormed(host) && host.phase == ReShared && IsConfirmation(confirms.packet)
    requires confirms.sender != own.sender
    requires var u := After(host, Handle(su, host, auth, world));
      WellFormed(u) && u.phase == GroupKeyGenerated && NobodyConfirmed(u) && confirms.sender in u.roster
    requires forall i :: 0 <= i < |more| ==> !(more[i].sender == confirms.sender && IsConfirmation(more[i].packet))
    ensures var (u, t) := (After(host, Handle(su, host, auth, world)),
                           HandleAll(su, host, [confirms, auth, own] + more, world));
      t.phase == GroupKeyGenerated && t.key == u.key
  {
    hide WellFormed, HandleAll, Handle, IndexIn;
    var u, rest := After(host, Handle(su, host, auth, world)), [own] + more;
    Ignores(su, host, confirms, world);
    HandleSingle(su, host, confirms, world);
    HandleSingle(su, host, auth, world);
    HandleAllInTurn(su, host, [confirms], [auth], world);
    HandleAllInTurn(su, host, [confirms] + [auth], rest, world);
    assert [confirms] + [auth] + rest == [confirms, auth, own] + more;
    ConfirmationsEstablish(su, u, rest, world);
    assert !HeardRight(su, u, u.key, rest, confirms.sender);
    KeyedAlike(su, u, u);
  }
}
