/** Why agreement about the next keys asks for one object per key and id: a whole run of honest members in which a
    joiner starts over, and two members in session under one id disagree about them. */
module SecondObject {
  import opened Bytes
  import opened Crypto
  import opened Participants
  import opened Sessions
  import opened SessionSteps
  import opened SessionInvariants
  import opened SessionBirths
  import opened SessionActions
  import opened SessionRuns
  import opened SessionKeys
  import opened Completeness
  import opened Inheritance
  import opened TwoMembers
  import opened Network
  import opened Agreement
  import Ring

  const OWNERS: Owners := map[HOST_KEY := HOST.nickname, GUEST_KEY := GUEST.nickname]

  /** The host, alone in its session, answers a join request. */
  function HostOrigin(world: Surroundings): (o: Origin)
    ensures o.Conceived?
  {
    Conceived(Acceptor, HOST, Some(HOST_KEY), BothListed(), HostAlone(), Some(Request()), world)
  }

  // ---------- events ----------

  lemma ReachMore(su: Suite, owners: Owners, events: seq<NetEvent>, net: Net, e: NetEvent)
    requires Reaches(su, owners, events, net) && Allowed(su, owners, net, e)
    ensures Reaches(su, owners, events + [e], Next(su, owners, net, e))
  {
    hide Allowed, Next;
    assert (events + [e])[..|events|] == events;
  }

  /** An object hears a message that may be heard. */
  lemma Hears(su: Suite, owners: Owners, events: seq<NetEvent>, net: Net, i: nat, d: Delivery, world: Surroundings)
    returns (after: Net)
    requires Reaches(su, owners, events, net) && i < |net| && WellFormed(net[i].sess)
    requires d.packet.Signed? && Authentic(owners, net, d.packet) && d.packet.sid == net[i].route
    ensures Reaches(su, owners, events + [At(i, Deliver(d, world))], after) && Grows(net, after)
    ensures |after| == |net| && (forall j :: 0 <= j < |net| && j != i ==> after[j] == net[j])
    ensures after[i].sess == After(net[i].sess, Handle(su, net[i].sess, d, world)) && after[i].route == net[i].route
  {
    hide Reaches, Handle, WellFormed, NetInvariant, Grows, Authentic;
    var e := At(i, Deliver(d, world));
    assert Allowed(su, owners, net, e);
    ReachesInvariant(su, owners, events, net);
    SteppedNode(su, owners, net, i, e.event);
    ReachMore(su, owners, events, net, e);
    after := Next(su, owners, net, e);
  }

  lemma HearsBoth(su: Suite, owners: Owners, events: seq<NetEvent>, net: Net, i: nat, c: Delivery, d: Delivery,
                  world: Surroundings) returns (after: Net)
    requires Reaches(su, owners, events, net) && i < |net| && WellFormed(net[i].sess)
    requires c.packet.Signed? && Authentic(owners, net, c.packet) && c.packet.sid == net[i].route
    requires d.packet.Signed? && Authentic(owners, net, d.packet) && d.packet.sid == net[i].route
    ensures Reaches(su, owners, events + [At(i, Deliver(c, world)), At(i, Deliver(d, world))], after)
    ensures |after| == |net| && (forall j :: 0 <= j < |net| && j != i ==> after[j] == net[j]) && Grows(net, after)
    ensures after[i].sess == HandleAll(su, net[i].sess, [c, d], world) && after[i].route == net[i].route
  {
    hide Reaches, Handle, WellFormed, HandleAll, Sent;
    var middle := Hears(su, owners, events, net, i, c, world);
    if Sent(net, d.packet) {
      SentStays(net, middle, d.packet);
    }
    HandleSingle(su, net[i].sess, c, world);
    HandleAllInTurn(su, net[i].sess, [c], [d], world);
    HandleSingle(su, middle[i].sess, d, world);
    after := Hears(su, owners, events + [At(i, Deliver(c, world))], middle, i, d, world);
    assert [c] + [d] == [c, d];
    assert events + [At(i, Deliver(c, world))] + [At(i, Deliver(d, world))]
        == events + [At(i, Deliver(c, world)), At(i, Deliver(d, world))];
  }

  /** A member's room starts a session. */
  lemma Starts(su: Suite, owners: Owners, events: seq<NetEvent>, net: Net, o: Origin, child: Sess) returns (after: Net)
    requires Reaches(su, owners, events, net) && Proper(o) && BirthFrom(su, o) == Born(child) && !Premature(o)
    requires OwnKey(owners, child) && (o.Joined? ==> Authentic(owners, net, o.view.packet))
    ensures Reaches(su, owners, events + [Spawn(o)], after) && after == net + [NodeFrom(o, child)] && Grows(net, after)
  {
    hide Reaches, BirthFrom, Premature, Authentic, OwnKey;
    ReachMore(su, owners, events, net, Spawn(o));
    after := net + [NodeFrom(o, child)];
  }

  /** The room gives a session up. */
  lemma GivesUp(su: Suite, owners: Owners, events: seq<NetEvent>, net: Net, i: nat) returns (after: Net)
    requires Reaches(su, owners, events, net) && i < |net| && WellFormed(net[i].sess)
    ensures Reaches(su, owners, events + [At(i, Suicide)], after) && Grows(net, after)
    ensures |after| == |net| && (forall j :: 0 <= j < |net| && j != i ==> after[j] == net[j])
    ensures after[i].sess == net[i].sess.(phase := Dead) && after[i].route == net[i].route
  {
    hide Reaches, WellFormed;
    assert Allowed(su, owners, net, At(i, Suicide));
    ReachMore(su, owners, events, net, At(i, Suicide));
    after := Next(su, owners, net, At(i, Suicide));
  }

  lemma SentBySomeone(owners: Owners, net: Net, j: nat, p: Packet)
    requires j < |net| && p in net[j].sess.outbox
    ensures Sent(net, p) && Authentic(owners, net, p)
  {}

  lemma AuthenticStays(owners: Owners, net: Net, after: Net, p: Packet)
    requires Grows(net, after) && Sent(net, p)
    ensures Sent(after, p) && Authentic(owners, after, p)
  {
    hide Sent;
    SentStays(net, after, p);
  }

  lemma NothingReached(su: Suite, owners: Owners)
    ensures Reaches(su, owners, [], [])
  {}

  // ---------- two next keys ----------

  lemma HostStarts(su: Suite, world: Surroundings) returns (net: Net, host: Sess)
    ensures Reaches(su, OWNERS, [Spawn(HostOrigin(world))], net) && net == [Node(host, [], TwoFaces())]
    ensures Hosting(host) && Invites(su, host) && WellFormed(host)
  {
    hide Reaches, Conceive, Request, Seed, Hosting, Invites, TwoFaces, Filled, BothListed, HostAlone;
    host := HostBorn(su, world);
    HostParts(su, host);
    NothingReached(su, OWNERS);
    TwoDistinct();
    net := Starts(su, OWNERS, [], [], HostOrigin(world), host);
    assert [] + [Spawn(HostOrigin(world))] == [Spawn(HostOrigin(world))];
  }

  /** The guest starts a session from the invitation, once or again. */
  lemma GuestStarts(su: Suite, events: seq<NetEvent>, net: Net, host: Sess, world: Surroundings)
    returns (after: Net, guest: Sess)
    requires Invites(su, host) && host.outbox != [] && IsInfo(LastSaid(host))
    requires Reaches(su, OWNERS, events, net) && Sent(net, LastSaid(host).packet)
    ensures Reaches(su, OWNERS, events + [Spawn(Joined(GUEST, GUEST_KEY, LastSaid(host), world))], after)
    ensures after == net + [Node(guest, [LastSaid(host)], TwoFaces())] && Grows(net, after)
    ensures GUEST.nickname in ListToMap(LastSaid(host).packet.content.view) && Arriving(su, host).outbox != []
    ensures Keyed(su, guest, GUEST, GUEST_KEY, world.freshKey) && WellFormed(guest)
    ensures LastSaid(Arriving(su, host)).packet in guest.outbox
  {
    hide Reaches, Join, Invites, TwoFaces, Filled, Sent, Keyed, ListToMap, Arriving, WellFormed;
    InvitesParts(su, host);
    guest := GuestBorn(su, host, world);
    KeyedParts(su, guest, GUEST, GUEST_KEY, world.freshKey);
    TwoDistinct();
    after := Starts(su, OWNERS, events, net, Joined(GUEST, GUEST_KEY, LastSaid(host), world), guest);
  }

  /** The first five events: the host invites, the guest joins and answers, and gives up; then it starts over from the
      same invitation. */
  lemma StartsOver(su: Suite, world: Surroundings, first: Surroundings, second: Surroundings)
    returns (events: seq<NetEvent>, net: Net, guest: Sess)
    ensures Reaches(su, OWNERS, events, net) && |net| == 3
    ensures Keyed(su, net[0].sess, HOST, HOST_KEY, world.freshKey) && net[0].route == TwoFaces()
    ensures Keyed(su, guest, GUEST, GUEST_KEY, first.freshKey) && net[1].sess == guest.(phase := Dead)
    ensures Keyed(su, net[2].sess, GUEST, GUEST_KEY, second.freshKey) && net[2].route == TwoFaces()
  {
    hide *;
    var host;
    net, host := HostStarts(su, world);
    events := [Spawn(HostOrigin(world))];
    InvitesParts(su, host);
    SentBySomeone(OWNERS, net, 0, LastSaid(host).packet);
    var start := net;
    net, guest := GuestStarts(su, events, net, host, first);
    events := events + [Spawn(Joined(GUEST, GUEST_KEY, LastSaid(host), first))];
    AuthenticStays(OWNERS, start, net, LastSaid(host).packet);
    GuestSpeaks(su, host, world);
    var auth := LastSaid(Arriving(su, host));
    SentBySomeone(OWNERS, net, 1, auth.packet);
    var heard := Hears(su, OWNERS, events, net, 0, auth, world);
    events := events + [At(0, Deliver(auth, world))];
    AuthenticStays(OWNERS, net, heard, LastSaid(host).packet);
    var gone := GivesUp(su, OWNERS, events, heard, 1);
    events := events + [At(1, Suicide)];
    AuthenticStays(OWNERS, heard, gone, LastSaid(host).packet);
    var again;
    net, again := GuestStarts(su, events, gone, host, second);
    events := events + [Spawn(Joined(GUEST, GUEST_KEY, LastSaid(host), second))];
  }

  /** A whole run of two honest members over a faithful channel, with any primitives, after which both are in session
      under one id, made of the same members, with one key and no leavers; but the host has the next key that the
      guest announced before it started over, and the guest the one it announced after that, so that their successors
      have different ids. */
  lemma SecondObjectSplits(su: Suite, world: Surroundings, first: Surroundings, second: Surroundings)
    returns (events: seq<NetEvent>, net: Net)
    requires first.freshKey != second.freshKey
    ensures Reaches(su, OWNERS, events, net) && |net| == 3 && InStep(OWNERS, net, 0, 2)
    ensures net[0].sess.key == net[2].sess.key
    ensures IdentityOf(FutureRoster(net[0].sess)) != IdentityOf(FutureRoster(net[2].sess))
  {
    hide *;
    TwoDistinct();
    var start, before, gone := StartsOver(su, world, first, second);
    var s, t := before[0].sess, before[2].sess;
    KeyedParts(su, s, HOST, HOST_KEY, world.freshKey);
    KeyedParts(su, gone, GUEST, GUEST_KEY, first.freshKey);
    KeyedParts(su, t, GUEST, GUEST_KEY, second.freshKey);
    SameWords(su, s, gone, GUEST.nickname, first.freshKey);
    SameWords(su, s, s, HOST.nickname, world.freshKey);
    SameWords(su, t, s, HOST.nickname, world.freshKey);
    SameWords(su, t, t, GUEST.nickname, second.freshKey);
    var confirms := Confirmation(su, s, GUEST.nickname, first.freshKey);
    var heard := Confirmation(su, s, HOST.nickname, world.freshKey);
    SentBySomeone(OWNERS, before, 1, confirms.packet);
    SentBySomeone(OWNERS, before, 0, heard.packet);
    var s' := BothConfirm(su, s, GUEST.nickname, first.freshKey, HOST.nickname, world.freshKey, world);
    var middle := HearsBoth(su, OWNERS, start, before, 0, confirms, heard, world);
    var own := Confirmation(su, t, GUEST.nickname, second.freshKey);
    SentBySomeone(OWNERS, before, 2, own.packet);
    AuthenticStays(OWNERS, before, middle, heard.packet);
    AuthenticStays(OWNERS, before, middle, own.packet);
    var t' := BothConfirm(su, t, HOST.nickname, world.freshKey, GUEST.nickname, second.freshKey, world);
    events := start + [At(0, Deliver(confirms, world)), At(0, Deliver(heard, world))];
    net := HearsBoth(su, OWNERS, events, middle, 2, heard, own, world);
    events := events + [At(2, Deliver(heard, world)), At(2, Deliver(own, world))];
    KeyedAlike(su, s, s');
    KeyedAlike(su, t, t');
    Split(s, s', t, t', first.freshKey, second.freshKey);
    Steps(net, s, t);
  }

  lemma Split(s: Sess, s': Sess, t: Sess, t': Sess, first: Block, second: Block)
    requires s'.roster.Keys == t'.roster.Keys == {HOST.nickname, GUEST.nickname} && GUEST.nickname in s.roster
    requires GUEST.nickname in t.roster && s'.roster[GUEST.nickname] == s.roster[GUEST.nickname].(future := first)
    requires t'.roster[GUEST.nickname] == t.roster[GUEST.nickname].(future := second)
    requires first != second && s'.zombies == map[] && t'.zombies == map[]
    ensures IdentityOf(FutureRoster(s')) != IdentityOf(FutureRoster(t'))
  {
    hide Filled;
    assert GUEST.nickname in Minus(s'.roster, s'.zombies) && GUEST.nickname in Minus(t'.roster, t'.zombies);
    assert IdentityOf(FutureRoster(s'))[GUEST.nickname].ephemeral == first;
    assert IdentityOf(FutureRoster(t'))[GUEST.nickname].ephemeral == second;
  }

  /** The two are in session, each with the members, keys and id it had. */
  lemma Steps(net: Net, s: Sess, t: Sess)
    requires |net| == 3 && net[0].route == net[2].route && Owned(s) && Owned(t) && s.sid == TwoFaces() == t.sid
    requires net[0].sess.phase == InSession && net[2].sess.phase == InSession
    requires net[0].sess.zombies == map[] && net[2].sess.zombies == map[]
    requires SameKeyed(s, net[0].sess) && SameKeyed(t, net[2].sess)
    ensures InStep(OWNERS, net, 0, 2)
  {
    hide Filled, TwoFaces, AllHonest, SameLeavers, SameKeyed, IdentityOf, Owned;
    HonestTwo(s, net[0].sess);
    HonestTwo(t, net[2].sess);
    NobodyLeft(net[0].sess, net[2].sess);
  }

  lemma HonestTwo(s: Sess, t: Sess)
    requires Owned(s) && s.sid == TwoFaces() && SameKeyed(s, t)
    ensures IdentityOf(t.roster) == TwoFaces() && AllHonest(OWNERS, t)
  {
    hide Filled, WellFormed, SameKeyed, TwoFaces, Sorted, Less;
    TwoDistinct();
    KeyedIdentity(s, t);
    assert t.roster.Keys == IdentityOf(t.roster).Keys == {HOST.nickname, GUEST.nickname};
    assert HOST_KEY in OWNERS && OWNERS[HOST_KEY] == HOST.nickname;
    assert GUEST_KEY in OWNERS && OWNERS[GUEST_KEY] == GUEST.nickname;
    forall k | k in t.roster ensures Honest(OWNERS, t, k) {
      assert k in TwoFaces() && IdentityOf(t.roster)[k] == TwoFaces()[k];
    }
  }

  lemma NobodyLeft(s: Sess, t: Sess)
    requires s.zombies == map[] && t.zombies == map[] && IdentityOf(s.roster) == IdentityOf(t.roster)
    ensures SameLeavers(s, t)
  {
    assert IdentityOf(s.roster).Keys == s.roster.Keys && IdentityOf(t.roster).Keys == t.roster.Keys;
  }

  // ---------- two keys ----------

  /** A digest that keeps the first 32 bytes of what it digests. */
  function Leading(m: Bytes): (h: Bytes)
    ensures |h| == HASH_LENGTH
  {
    if |m| >= HASH_LENGTH then m[..HASH_LENGTH] else m + seq(HASH_LENGTH - |m|, _ => 0)
  }

  lemma LeadingSuite() returns (su: Suite)
    ensures ConfirmationsBind(su) && forall m :: Hash(su, m) == Leading(m)
  {
    var p: Primitives := EXAMPLE.(hash := Leading);
    assert Sound(p);
    su := p;
    forall k: Block, l: Block, n: Nick | ConfirmationOf(su, k, n) == ConfirmationOf(su, l, n) ensures k == l {
      assert (k + n)[..HASH_LENGTH] == k && (l + n)[..HASH_LENGTH] == l;
    }
  }

  /** The host's invitation with another share: only the host can sign it. */
  function WithShareOf(d: Delivery, share: Block): Delivery
    requires IsInfo(d)
  {
    d.(packet := d.packet.(content := d.packet.content.(infoShare := share)))
  }

  /** A guest that has its key, of the share it was given, and has just confirmed it. */
  ghost predicate Given(su: Suite, s: Sess, share: Block) {
    && Owned(s) && s.phase == GroupKeyGenerated && s.me == GUEST && s.ephemeral == GUEST_KEY && s.sid == TwoFaces()
    && s.roster.Keys == {HOST.nickname, GUEST.nickname} && NobodyConfirmed(s) && s.key == SessionKey(su, s)
    && AllSecrets(su, s)[0] == XorBlock(Secret(su, TwoFaces(), 1), share) && |s.roster| == 2
    && s.future.Some? && Confirmation(su, s, GUEST.nickname, s.future.value).packet in s.outbox
  }

  /** The guest joins on any share that comes with the right token. */
  lemma GuestGiven(su: Suite, host: Sess, share: Block, world: Surroundings) returns (guest: Sess)
    requires Invites(su, host)
    ensures host.outbox != [] && IsInfo(LastSaid(host))
    ensures var d := WithShareOf(LastSaid(host), share);
      && IsInfo(d) && d.packet.sid == TwoFaces() && d.packet.signer == HOST_KEY
      && Join(su, GUEST, GUEST_KEY, d, world) == Born(guest)
    ensures guest.me == GUEST && guest.ephemeral == GUEST_KEY && Given(su, guest, share)
  {
    hide Filled, ListToMap, Join, Truthful, HandleAll, WellFormed, Invites, OwnFace, TwoFaces, Handle, Accepts,
      Proves, JoinerSends, JoinSeed, Evolves, Silent, Taken, SessionKey, AllSecrets, Ready, Owned, XorBlock, Secret,
      Confirmation, Invariant, Genuine, IdentityOf;
    InvitesParts(su, host);
    TwoDistinct();
    var view, d, s := LastSaid(host).packet.content.view, WithShareOf(LastSaid(host), share), Arriving(su, host);
    TruthfulToken(su, s, LastSaid(host));
    SameToken(s, LastSaid(host), share);
    JoinerReadsFacts(su, GUEST, GUEST_KEY, view);
    SenderKeyBefore(JoinSeed(GUEST, GUEST_KEY, view), s, d);
    AcceptedReads(su, s, d, world);
    JoinFrom(su, GUEST, GUEST_KEY, d, world);
    guest := Join(su, GUEST, GUEST_KEY, d, world).child;
    JoinReadsView(su, GUEST, GUEST_KEY, d, guest, world);
    HandleSingle(su, s, d, world);
    TakenUp(su, s, d, world);
    var u := Taken(s, HOST.nickname, share, true);
    TakenOwned(s, HOST.nickname, share, true);
    Finishes(su, u, world);
    BothReady(u);
    SecondWalk(su, guest);
    JoinFacts(su, GUEST, GUEST_KEY, d, world);
    SaysConfirmation(su, guest, [d]);
  }

  lemma SameToken(s: Sess, d: Delivery, share: Block)
    requires WellFormed(s) && s.phase == JoinRequested && IsInfo(d) && TakesUp(s, d) && FromMember(s, d)
    ensures var e := WithShareOf(d, share);
      && IsInfo(e) && TakesUp(s, e) && Proves(s, e) && Proves(s, d) && FromMember(s, e) && e.sender == d.sender
      && ShareIn(e.packet.content) == share && e.packet.content.view == d.packet.content.view
      && TokenFound(s, e.packet.content) == TokenFound(s, d.packet.content)
  {
    hide WellFormed, MyIndex;
  }

  lemma BothReady(s: Sess)
    requires s.roster.Keys == {HOST.nickname, GUEST.nickname}
    requires forall k :: k in {HOST.nickname, GUEST.nickname} ==> s.roster[k].authenticated && s.roster[k].contributed
    ensures Ready(s)
  {}

  /** What the guest, second of two, holds for the first secret: the second, off by the host's share. */
  lemma SecondWalk(su: Suite, t: Sess)
    requires Owned(t) && t.me == GUEST && t.sid == TwoFaces() && t.roster.Keys == {HOST.nickname, GUEST.nickname}
    ensures WellFormed(t) && |t.roster| == 2
    ensures AllSecrets(su, t)[0] == XorBlock(Secret(su, TwoFaces(), 1), t.roster[HOST.nickname].share)
  {
    hide Secret, XorBlock, ShareOn, WellFormed, TwoFaces, Filled;
    TwoDistinct();
    RightSecret(su, t);
    OwnedWellFormed(t);
    SortedAscending(t.sid.Keys);
    AscendingUnique(Sorted(t.sid.Keys), [HOST.nickname, GUEST.nickname]);
    hide Sorted;
    assert IndexOf([HOST.nickname, GUEST.nickname], GUEST.nickname) == 1;
    var share := Shares(t)[0];
    assert Ring.Sum(Shares(t), 0, 0) == ZERO;
    assert Ring.Sum(Shares(t), 0, 1) == XorBlock(ZERO, share);
    BlockZero(share);
  }

  lemma FirstBytes(su: Suite, s: Sess, t: Sess)
    requires (forall m :: Hash(su, m) == Leading(m)) && Given(su, s, ZERO) && Given(su, t, Filled(1))
    ensures s.key != t.key
  {
    hide Secret, Leading, AllSecrets, Owned, TwoFaces, KeyInput, Confirmation, NobodyConfirmed, SessionKey;
    TwoDistinct();
    FirstByte(su, s, ZERO);
    FirstByte(su, t, Filled(1));
    var a := Secret(su, TwoFaces(), 1)[0];
    if Xor(a, 0) == Xor(a, 1) {
      XorAssociates(a, a, 0);
      XorAssociates(a, a, 1);
      XorSelf(a);
      XorCommutes(0, 1);
      XorZero(1);
      XorZero(0);
    }
  }

  lemma FirstByte(su: Suite, s: Sess, share: Block)
    requires (forall m :: Hash(su, m) == Leading(m)) && Given(su, s, share) && |TwoFaces()| == 2
    ensures s.key[0] == Xor(Secret(su, TwoFaces(), 1)[0], share[0])
  {
    hide Secret, AllSecrets, Owned, TwoFaces, KeyInput, Confirmation, NobodyConfirmed, Xor, WellFormed, Sorted;
    OwnedWellFormed(s);
    var all := AllSecrets(su, s);
    KeyInputIs(su, all, s.sid);
    assert KeyInput(su, all, s.sid)[0] == ByteAt(all, 0) == all[0][0];
  }

  /** A guest that confirms to itself and is confirmed to by the host, whatever key it has, is in session. */
  lemma GivenConfirms(su: Suite, owners: Owners, events: seq<NetEvent>, net: Net, i: nat, share: Block,
                      world: Surroundings) returns (more: seq<NetEvent>, after: Net)
    requires Reaches(su, owners, events, net) && HOST_KEY !in owners
    requires i < |net| && net[i].route == TwoFaces() && Given(su, net[i].sess, share)
    ensures Reaches(su, owners, more, after) && |after| == |net|
    ensures forall j :: 0 <= j < |net| && j != i ==> after[j] == net[j]
    ensures after[i].route == TwoFaces() && after[i].sess.phase == InSession && SameKeyed(net[i].sess, after[i].sess)
  {
    hide Reaches, HandleAll, Owned, TwoFaces, Filled, AllSecrets, SessionKey, WellFormed, ConfirmationOf, XorBlock,
      Secret, SameKeyed, Sent, RightConfirmation;
    TwoDistinct();
    var s := net[i].sess;
    OwnedWellFormed(s);
    HostFace(s);
    var c := Confirmation(su, s, HOST.nickname, ZERO);
    var d := Confirmation(su, s, GUEST.nickname, s.future.value);
    SentBySomeone(owners, net, i, d.packet);
    var t := BothConfirm(su, s, HOST.nickname, ZERO, GUEST.nickname, s.future.value, world);
    after := HearsBoth(su, owners, events, net, i, c, d, world);
    more := events + [At(i, Deliver(c, world)), At(i, Deliver(d, world))];
  }

  lemma HostFace(s: Sess)
    requires Owned(s) && s.sid == TwoFaces() && s.roster.Keys == {HOST.nickname, GUEST.nickname}
    ensures s.roster[HOST.nickname].ephemeral == HOST_KEY && s.roster[GUEST.nickname].ephemeral == GUEST_KEY
  {
    hide TwoFaces, Filled, WellFormed;
    TwoDistinct();
    assert s.sid[HOST.nickname] == Face(s.roster[HOST.nickname].id.fingerprint, s.roster[HOST.nickname].ephemeral);
    assert s.sid[GUEST.nickname] == Face(s.roster[GUEST.nickname].id.fingerprint, s.roster[GUEST.nickname].ephemeral);
  }

  /** Why agreement about the key asks for it too: a whole run in which an honest guest joins twice from the invitations
      of a host that gives it two shares. Both objects are in session under one id, made of the same members, with the
      honest guest in both; and they have different keys, although confirmations bind. */
  lemma TwoKeys(world: Surroundings) returns (su: Suite, owners: Owners, events: seq<NetEvent>, net: Net)
    ensures ConfirmationsBind(su) && Reaches(su, owners, events, net) && |net| == 2
    ensures net[0].sess.phase == InSession && net[1].sess.phase == InSession && net[0].route == net[1].route
    ensures SameKeyFor(net[0].sess, net[1].sess, GUEST.nickname) && Honest(owners, net[0].sess, GUEST.nickname)
    ensures net[0].sess.key != net[1].sess.key
  {
    hide *;
    TwoDistinct();
    su := LeadingSuite();
    owners := map[GUEST_KEY := GUEST.nickname];
    var host := HostBorn(su, world);
    InvitesParts(su, host);
    var c, d := WithShareOf(LastSaid(host), ZERO), WithShareOf(LastSaid(host), Filled(1));
    var s := GuestGiven(su, host, ZERO, world);
    var t := GuestGiven(su, host, Filled(1), world);
    NothingReached(su, owners);
    net := GivenStarts(su, owners, [], [], c, s, world);
    net := GivenStarts(su, owners, [] + [Spawn(Joined(GUEST, GUEST_KEY, c, world))], net, d, t, world);
    events := [] + [Spawn(Joined(GUEST, GUEST_KEY, c, world))] + [Spawn(Joined(GUEST, GUEST_KEY, d, world))];
    events, net := GivenConfirms(su, owners, events, net, 0, ZERO, world);
    events, net := GivenConfirms(su, owners, events, net, 1, Filled(1), world);
    FirstBytes(su, s, t);
    GivenLater(su, owners, s, t, net[0].sess, net[1].sess);
  }

  lemma GivenStarts(su: Suite, owners: Owners, events: seq<NetEvent>, net: Net, d: Delivery, guest: Sess,
                    world: Surroundings) returns (after: Net)
    requires IsInfo(d) && d.packet.sid == TwoFaces() && d.packet.signer == HOST_KEY
    requires Join(su, GUEST, GUEST_KEY, d, world) == Born(guest) && guest.me == GUEST && guest.ephemeral == GUEST_KEY
    requires Reaches(su, owners, events, net) && owners == map[GUEST_KEY := GUEST.nickname]
    ensures Reaches(su, owners, events + [Spawn(Joined(GUEST, GUEST_KEY, d, world))], after)
    ensures after == net + [Node(guest, [d], TwoFaces())]
  {
    hide Reaches, Join, TwoFaces, Filled, Sent;
    TwoDistinct();
    after := Starts(su, owners, events, net, Joined(GUEST, GUEST_KEY, d, world), guest);
  }

  lemma GivenLater(su: Suite, owners: Owners, s: Sess, t: Sess, s': Sess, t': Sess)
    requires Given(su, s, ZERO) && Given(su, t, Filled(1)) && SameKeyed(s, s') && SameKeyed(t, t')
    requires owners == map[GUEST_KEY := GUEST.nickname]
    ensures s'.key == s.key && t'.key == t.key
    ensures SameKeyFor(s', t', GUEST.nickname) && Honest(owners, s', GUEST.nickname)
  {
    hide TwoFaces, Filled, WellFormed, AllSecrets, SessionKey, XorBlock, Secret, Owned, Confirmation;
    HostFace(s);
    HostFace(t);
  }
}
