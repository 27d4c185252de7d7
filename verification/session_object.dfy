/** The Session class: fields rewritten by its transitors, each proved against the value functions of Sessions. */
module SessionObjects {
  import opened Bytes
  import opened Crypto
  import opened Participants
  import opened Sessions
  import opened SessionSteps
  import opened SessionInvariants
  import opened SessionBirths
  import opened SessionActions
  import Ring
  import Wire

  const MY_RIGHT := 1
  const MY_LEFT := -1

  /** Where a name stands in a list; its length if nowhere. */
  method SpotIn(peers: seq<Nick>, k: Nick) returns (entry: nat)
    ensures entry <= |peers|
    ensures entry < |peers| ==> peers[entry] == k
    ensures entry == |peers| ==> k !in peers
  {
    entry := 0;
    while entry < |peers| && peers[entry] != k
      invariant 0 <= entry <= |peers| && forall i :: 0 <= i < entry ==> peers[i] != k
    {
      entry := entry + 1;
    }
  }

  method NextKeysCurrent(staying: Roster) returns (live: Roster)
    ensures live.Keys == staying.Keys
    ensures var nicks := Sorted(staying.Keys);
      forall j :: 0 <= j < |nicks| ==> live[nicks[j]] == staying[nicks[j]].(ephemeral := staying[nicks[j]].future)
  {
    hide Sorted;
    live := staying;
    var nicks := Sorted(live.Keys);
    for i := 0 to |nicks|
      invariant live.Keys == staying.Keys
      invariant forall j :: 0 <= j < i ==> live[nicks[j]] == staying[nicks[j]].(ephemeral := staying[nicks[j]].future)
      invariant forall j :: i <= j < |nicks| ==> live[nicks[j]] == staying[nicks[j]]
    {
      SortedOnce(staying.Keys, i);
      var p := live[nicks[i]];
      live := live[nicks[i] := p.(ephemeral := p.future)];
    }
  }

  /** The value s is well formed, and these are its peers, its owner's index and its raw id. */
  ghost predicate Cached(su: Suite, s: Sess, peers: seq<Nick>, index: nat, raw: Block) {
    WellFormed(s) && peers == Peers(s) && index == MyIndex(s) && raw == SidBytes(su, s.sid)
  }

  /** What a transitor asks of the room; bred sessions are objects. */
  datatype Deed = Nothing | Breed(child: Session) | BreedHeir(heir: Session) | ClaimHeir

  datatype Reaction = Did(deed: Deed) | Raised(error: Error) | Aborted(cause: Cause)

  /** No session is bred. */
  predicate Quiet(r: Reaction) {
    r.Raised? || (r.Did? && (r.deed.Nothing? || r.deed.ClaimHeir?))
  }

  /** The reaction is the outcome, with objects for values. */
  ghost predicate Mirrors(r: Reaction, outcome: Outcome)
    reads if r.Did? && r.deed.Breed? then {r.deed.child} else if r.Did? && r.deed.BreedHeir? then {r.deed.heir} else {}
  {
    match outcome
    case Died(cause) => r == Aborted(cause)
    case Threw(_, error) => r == Raised(error)
    case Done(_, NoAction) => r == Did(Nothing)
    case Done(_, PresumeHeir) => r == Did(ClaimHeir)
    case Done(_, NewSession(child)) => r.Did? && r.deed.Breed? && r.deed.child.Valid() && r.deed.child.View() == child
    case Done(_, NewPrioritySession(heir)) =>
      r.Did? && r.deed.BreedHeir? && r.deed.heir.Valid() && r.deed.heir.View() == heir
  }

  class Session {
    const su: Suite
    const myself: ParticipantId
    const cryptic: Block
    var futureCryptic: Option<Block>
    var participants: Roster
    var zombies: Roster
    var parentalParticipants: Roster
    var peers: seq<Nick>
    var myIndex: nat
    var confirmedPeers: seq<bool>
    var sessionId: Identity
    var sessionIdRaw: Block
    var myState: Phase
    var sessionKey: Block
    var sent: seq<Packet>

    /** The value of the session: everything but the caches. */
    function View(): Sess
      reads this
    {
      Sess(myself, cryptic, futureCryptic, participants, zombies, parentalParticipants, confirmedPeers, sessionId,
           myState, sessionKey, sent)
    }

    ghost predicate Valid()
      reads this
    {
      Cached(su, View(), peers, myIndex, sessionIdRaw)
    }

    constructor Bare(su: Suite, me: ParticipantId, key: Block, members: Roster, parents: Roster, state: Phase)
      ensures this.su == su && myself == me && cryptic == key && participants == members
      ensures parentalParticipants == parents && zombies == map[] && futureCryptic == None && myState == state
      ensures sent == [] && sessionKey == ZERO
    {
      this.su, myself, cryptic := su, me, key;
      futureCryptic, participants, zombies, parentalParticipants := None, members, map[], parents;
      peers, myIndex, confirmedPeers := [], 0, [];
      sessionId, sessionIdRaw := map[], ZERO;
      myState, sessionKey, sent := state, ZERO, [];
    }

    /** Puts the peers in order and the flags in place. */
    method Install(trusted: Roster, order: seq<Nick>, index: nat, raw: Block, id: Identity)
      modifies `participants, `peers, `myIndex, `confirmedPeers, `sessionIdRaw, `sessionId
      ensures participants == trusted && peers == order && myIndex == index && sessionIdRaw == raw && sessionId == id
      ensures |confirmedPeers| == |order| && forall i :: 0 <= i < |order| ==> !confirmedPeers[i]
    {
      participants, peers, myIndex, sessionIdRaw, sessionId := trusted, order, index, raw, id;
      confirmedPeers := seq(|order|, _ => false);
    }

    /** `populate_peers_from_participants` and `keep_peers_in_order_spot_myself`: false when the session is not
        meant for its owner. */
    method PopulatePeers() returns (found: bool)
      requires Consistent(participants) && Consistent(parentalParticipants)
      requires zombies == map[] && futureCryptic == None && sent == [] && sessionKey == ZERO
      modifies `participants, `peers, `myIndex, `confirmedPeers, `sessionIdRaw, `sessionId
      ensures found <==> myself.nickname in old(participants)
      ensures found ==> Valid() && View() == Populate(myself, cryptic, old(participants), parentalParticipants, myState)
    {
      hide Sorted, SidBytes, WellFormed, Populate, IdentityOf, Peers, MyIndex, Consistent;
      var members := participants;
      var order := Sorted(members.Keys);
      var entry := SpotIn(order, myself.nickname);
      found := entry < |order|;
      Membership(members, order, myself.nickname);
      if found {
        var raw := ComputeSessionId(su, members);
        var trusted := members[order[entry] := members[order[entry]].(authenticated := true, authedTo := true)];
        Install(trusted, order, entry, raw, IdentityOf(members));
        Populated(su, myself, cryptic, members, parentalParticipants, myState, entry, trusted, confirmedPeers);
      }
    }

    // ---------- the group key ----------

    /** `secret_share_on`. */
    method SecretShareOn(side: int) returns (hb: Block)
      requires Valid() && side in {MY_LEFT, MY_RIGHT}
      ensures WellFormed(View())
      ensures var (n, i) := (|participants|, MyIndex(View()));
        hb == ShareOn(su, View(), if side == MY_RIGHT then Ring.Next(i, n) else Ring.Previous(i, n))
    {
      hide Sorted, SidBytes, WellFormed, Slots;
      var positiveSide := side + if side < 0 then |peers| else 0;
      var neighbour := (myIndex + positiveSide) % |peers|;
      Ring.WrapIsModulo(myIndex + positiveSide, |peers|);
      var peer := participants[peers[neighbour]];
      var p2pKey := TripleDh(su, myself.fingerprint, cryptic, peer.id.fingerprint, peer.ephemeral,
                             Less(peer.id.fingerprint, myself.fingerprint));
      hb := Hash(su, p2pKey + sessionIdRaw);
    }

    /** `set_key_share`. */
    method SetKeyShare(k: Nick, share: Block)
      requires Valid() && k in participants
      modifies `participants
      ensures Valid() && View() == WithShare(old(View()), k, share)
    {
      hide Cached;
      participants := participants[k := participants[k].(share := share, contributed := true)];
      CachedStill(su, old(View()), WithShare(old(View()), k, share), peers, myIndex, sessionIdRaw);
    }

    /** `group_enc`. */
    method GroupEnc()
      requires Valid()
      modifies `participants
      ensures WellFormed(old(View())) && Valid() && View() == WithOwnShare(su, old(View()))
    {
      hide ShareOn, MyIndex, Cached, WithShare, WellFormed;
      CachedFacts(su, View(), peers, myIndex, sessionIdRaw);
      var right := SecretShareOn(MY_RIGHT);
      var left := SecretShareOn(MY_LEFT);
      var share := Ring.GroupEnc(right, left);
      SetKeyShare(myself.nickname, share);
    }

    /** The recorded shares in peer order. */
    method KeyShares() returns (shares: seq<Block>)
      requires Valid()
      ensures shares == Shares(View())
    {
      hide Sorted, Cached;
      CachedFacts(su, View(), peers, myIndex, sessionIdRaw);
      shares := [];
      for i := 0 to |peers|
        invariant |shares| == i && forall j :: 0 <= j < i ==> shares[j] == participants[peers[j]].share
      {
        assert peers[i] in peers;
        shares := shares + [participants[peers[i]].share];
      }
    }

    /** `group_dec`: rebuilds all secrets, appends the session id and hashes the first n + 1 bytes. */
    method GroupDec()
      requires Valid()
      modifies `sessionKey
      ensures WellFormed(old(View())) && Valid()
      ensures View() == old(View()).(key := SessionKey(su, old(View())))
    {
      hide ShareOn, MyIndex, Cached, WellFormed, SidBytes, SessionKey, Shares, Peers;
      CachedFacts(su, View(), peers, myIndex, sessionIdRaw);
      CachedRaw(su, View(), peers, myIndex, sessionIdRaw);
      var right := SecretShareOn(MY_RIGHT);
      var shares := KeyShares();
      var allR := Ring.GroupDec(right, shares, myIndex);
      var bytes := Concatenate(allR + [sessionIdRaw]);
      SessionKeyAs(su, View(), allR, sessionIdRaw);
      sessionKey := Hash(su, bytes[..|peers| + 1]);
      KeyedWellFormed(old(View()), sessionKey);
      CachedStill(su, old(View()), View(), peers, myIndex, sessionIdRaw);
    }

    /** `everybody_authenticated_and_contributed`. */
    method EverybodyAuthenticatedAndContributed() returns (all: bool)
      requires Valid()
      ensures all <==> Ready(View())
    {
      hide Cached, Sorted;
      CachedFacts(su, View(), peers, myIndex, sessionIdRaw);
      for i := 0 to |peers|
        invariant forall j :: 0 <= j < i ==> participants[peers[j]].authenticated && participants[peers[j]].contributed
      {
        assert peers[i] in peers;
        if !participants[peers[i]].authenticated || !participants[peers[i]].contributed {
          return false;
        }
      }
      all := true;
    }

    /** `everybody_confirmed`. */
    method EveryoneConfirmed() returns (all: bool)
      ensures all <==> EverybodyConfirmed(View())
    {
      for i := 0 to |confirmedPeers|
        invariant forall j :: 0 <= j < i ==> confirmedPeers[j]
      {
        if !confirmedPeers[i] {
          return false;
        }
      }
      all := true;
    }

    /** `nobody_confirmed`. */
    method NooneConfirmed() returns (none: bool)
      ensures none <==> NobodyConfirmed(View())
    {
      for i := 0 to |confirmedPeers|
        invariant forall j :: 0 <= j < i ==> !confirmedPeers[j]
      {
        if confirmedPeers[i] {
          return false;
        }
      }
      none := true;
    }

    /** `send_session_confirmation_if_everybody_is_contributed`, with the state its caller sets. */
    method SendConfirmationIfReady(world: Surroundings) returns (r: Reaction)
      requires Valid()
      modifies `sessionKey, `futureCryptic, `sent, `myState
      ensures WellFormed(old(View())) && Valid() && Mirrors(r, Finish(su, old(View()), world))
      ensures Finish(su, old(View()), world).Done? && Quiet(r)
      ensures View() == After(old(View()), Finish(su, old(View()), world))
    {
      hide SessionKey, ConfirmationOf, Cached, Ready, WellFormed, Peers, MyIndex;
      CachedFacts(su, View(), peers, myIndex, sessionIdRaw);
      var ready := EverybodyAuthenticatedAndContributed();
      if !ready {
        return Did(Nothing);
      }
      GroupDec();
      var confirmation := ConfirmationOf(su, sessionKey, myself.nickname);
      futureCryptic := Some(world.freshKey);
      sent := sent + [Signed(cryptic, sessionId, SessionConfirmation(confirmation, world.freshKey))];
      myState := GroupKeyGenerated;
      r := Did(ClaimHeir);
      FinishWellFormed(su, old(View()), world);
      CachedStill(su, old(View()), View(), peers, myIndex, sessionIdRaw);
    }

    // ---------- transitors ----------

    /** `be_authenticated`. */
    method BeAuthenticated(k: Nick, token: Block) returns (ok: bool)
      requires Valid() && k in participants
      modifies `participants
      ensures var r := Authenticate(su, old(View()), k, token);
        && ok == r.Some? && View() == (if ok then r.value else old(View()))
      ensures Valid()
    {
      hide Slots, Cached, IdString;
      var p := participants[k];
      var p2pKey := TripleDh(su, myself.fingerprint, cryptic, p.id.fingerprint, p.ephemeral,
                             Less(p.id.fingerprint, myself.fingerprint));
      var expected := AuthToken(su, p2pKey, myself);
      var differ := CompareHash(expected, token);
      ok := !differ;
      if ok {
        participants := participants[k := p.(authenticated := true)];
        CachedStill(su, old(View()), View(), peers, myIndex, sessionIdRaw);
      }
    }

    /** `auth_and_reshare`. */
    method AuthenticateAndReshare(d: Delivery, world: Surroundings) returns (r: Reaction)
      requires Valid() && IsInfo(d) && d.sender in participants
      modifies `participants, `sessionKey, `futureCryptic, `sent, `myState
      ensures WellFormed(old(View())) && Valid() && Mirrors(r, AuthAndReshare(su, old(View()), d, world))
      ensures View() == After(old(View()), AuthAndReshare(su, old(View()), d, world)) && Quiet(r)
    {
      hide Authenticate, WithShare, Finish, Cached, WellFormed, Peers, MyIndex;
      CachedFacts(su, View(), peers, myIndex, sessionIdRaw);
      AuthenticateKeeps(su, View(), d.sender, d.packet.content.token);
      var ok := BeAuthenticated(d.sender, d.packet.content.token);
      if !ok {
        return Raised(AuthenticationFailed);
      }
      SetKeyShare(d.sender, d.packet.content.infoShare);
      r := SendConfirmationIfReady(world);
    }

    /** `confirm_auth_add_update_share_repo`. */
    method ConfirmAuthAddUpdateShareRepo(d: Delivery, world: Surroundings) returns (r: Reaction)
      requires Valid() && d.packet.Signed? && CarriesShare(d.packet.content) && d.sender in participants
      modifies `participants, `sessionKey, `futureCryptic, `sent, `myState
      ensures WellFormed(old(View())) && Valid() && Mirrors(r, ConfirmAuth(su, old(View()), d, world))
      ensures View() == After(old(View()), ConfirmAuth(su, old(View()), d, world)) && Quiet(r)
    {
      hide Authenticate, WithShare, Finish, Cached, WellFormed, Peers, MyIndex;
      CachedFacts(su, View(), peers, myIndex, sessionIdRaw);
      var c := d.packet.content;
      if c.JoinerAuth? && myIndex in c.table {
        AuthenticateKeeps(su, View(), d.sender, c.table[myIndex]);
        var ok := BeAuthenticated(d.sender, c.table[myIndex]);
        if !ok {
          return Raised(AuthenticationFailed);
        }
      }
      SetKeyShare(d.sender, ShareIn(c));
      r := SendConfirmationIfReady(world);
    }

    /** `validate_session_confirmation`: the announced key is stored whether or not the confirmation is right. */
    method ValidateSessionConfirmation(k: Nick, confirmation: Block, nextKey: Block) returns (ok: bool)
      requires Valid() && k in participants
      modifies `participants
      ensures Valid() && View() == Announced(old(View()), k, nextKey)
      ensures ok <==> confirmation == ConfirmationOf(su, sessionKey, k)
    {
      hide Cached, ConfirmationOf;
      participants := participants[k := participants[k].(future := nextKey)];
      AnnouncedWellFormed(old(View()), k, nextKey);
      CachedStill(su, old(View()), View(), peers, myIndex, sessionIdRaw);
      var expected := ConfirmationOf(su, sessionKey, k);
      var differ := CompareHash(expected, confirmation);
      ok := !differ;
    }

    /** `mark_confirmed_and_may_move_session`. */
    method MarkConfirmedAndMayMoveSession(d: Delivery)
      requires Valid() && d.packet.Signed? && d.packet.content.SessionConfirmation? && d.sender in participants
      modifies `participants, `confirmedPeers, `myState
      ensures WellFormed(old(View())) && Valid() && View() == MarkConfirmed(su, old(View()), d)
    {
      hide Cached, ConfirmationOf, Announced, WellFormed, EverybodyConfirmed, Peers, MyIndex, IndexIn;
      CachedFacts(su, View(), peers, myIndex, sessionIdRaw);
      var c := d.packet.content;
      AnnouncedParts(View(), d.sender, c.nextKey);
      var ok := ValidateSessionConfirmation(d.sender, c.confirmation, c.nextKey);
      CachedFacts(su, View(), peers, myIndex, sessionIdRaw);
      if ok {
        var index := SpotIn(peers, d.sender);
        PlaceIsIndex(old(View()), peers, index, d.sender);
        confirmedPeers := confirmedPeers[index := true];
        var everybody := EveryoneConfirmed();
        if everybody {
          myState := InSession;
        }
        MarkWellFormed(Announced(old(View()), d.sender, c.nextKey), View());
        CachedStill(su, Announced(old(View()), d.sender, c.nextKey), View(), peers, myIndex, sessionIdRaw);
      }
    }

    // ---------- lists of members ----------

    /** `future_participants`: the difference, then each next key made current. */
    method FutureParticipants() returns (live: Roster)
      requires Valid()
      ensures live == FutureRoster(View())
    {
      hide Cached, Sorted, Minus;
      CachedFacts(su, View(), peers, myIndex, sessionIdRaw);
      var staying := Difference(participants, zombies);
      live := NextKeysCurrent(staying);
      FutureRosterAs(View(), staying, live, Sorted(staying.Keys));
    }

    /** `delta_plist`. */
    method DeltaPlist() returns (delta: Roster)
      requires Valid()
      ensures delta == Delta(View())
    {
      hide Cached, Minus;
      CachedFacts(su, View(), peers, myIndex, sessionIdRaw);
      delta := Difference(participants, parentalParticipants);
    }

    /** `session_view`. */
    method ListSessionView() returns (view: seq<UnauthenticatedParticipant>)
      requires Valid()
      ensures view == SessionView(participants)
    {
      hide Cached, Sorted;
      CachedFacts(su, View(), peers, myIndex, sessionIdRaw);
      view := [];
      for i := 0 to |peers|
        invariant |view| == i && forall j :: 0 <= j < i ==> view[j] == Shown(participants[peers[j]])
      {
        assert peers[i] in peers;
        var p := participants[peers[i]];
        view := view + [UnauthenticatedParticipant(p.id, p.ephemeral, p.authenticated)];
      }
    }

    // ---------- speaking ----------

    /** `authenticate_to`. */
    method AuthenticateTo(k: Nick) returns (token: Block)
      requires k in participants
      ensures token == TokenFor(su, myself, cryptic, participants[k])
    {
      hide Slots;
      var p := participants[k];
      var p2pKey := TripleDh(su, myself.fingerprint, cryptic, p.id.fingerprint, p.ephemeral,
                             Less(p.id.fingerprint, myself.fingerprint));
      token := AuthToken(su, p2pKey, p.id);
    }

    method Say(content: Content)
      requires Valid()
      modifies `sent
      ensures Valid() && View() == old(View()).(outbox := old(View()).outbox + [Signed(cryptic, sessionId, content)])
    {
      hide Cached;
      sent := sent + [Signed(cryptic, sessionId, content)];
      SaidWellFormed(old(View()), View());
      CachedStill(su, old(View()), View(), peers, myIndex, sessionIdRaw);
    }

    /** `send_new_share_message`. */
    method SendNewShareMessage()
      requires Valid()
      modifies `participants, `sent
      ensures WellFormed(old(View())) && Valid() && View() == SendShare(su, old(View()))
    {
      hide Cached, WithOwnShare, WellFormed, Peers, MyIndex;
      CachedFacts(su, View(), peers, myIndex, sessionIdRaw);
      GroupEnc();
      CachedFacts(su, View(), peers, myIndex, sessionIdRaw);
      Say(GroupShare(participants[myself.nickname].share));
    }

    /** `send_view_auth_and_share`. */
    method SendViewAuthAndShare(joiner: Nick) returns (r: Reaction)
      requires Valid()
      modifies `participants, `sent
      ensures WellFormed(old(View())) && BornInto(r, SendView(su, old(View()), joiner), this)
    {
      hide Cached, WithOwnShare, WellFormed, Peers, MyIndex, TokenFor, SessionView;
      CachedFacts(su, View(), peers, myIndex, sessionIdRaw);
      GroupEnc();
      CachedFacts(su, View(), peers, myIndex, sessionIdRaw);
      OwnShareKeepsOthers(su, old(View()));
      var token := ZERO;
      if joiner != [] {
        if joiner !in participants {
          return Raised(InvalidParticipant);
        }
        token := AuthenticateTo(joiner);
        TokenSame(su, old(View()), joiner);
      }
      var view := ListSessionView();
      Say(ParticipantsInfo(view, token, participants[myself.nickname].share));
      r := Did(Nothing);
    }

    /** `joiner_send_auth_and_share`: one token per member not authenticated to, under the member's index. */
    method JoinerSendAuthAndShare()
      requires Valid()
      modifies `participants, `sent
      ensures WellFormed(old(View())) && Valid() && View() == JoinerSends(su, old(View()))
    {
      hide Cached, WithOwnShare, WellFormed, MyIndex, Sorted, BatchTable, TokenFor;
      CachedFacts(su, View(), peers, myIndex, sessionIdRaw);
      GroupEnc();
      OwnShareKeepsOthers(su, old(View()));
      CachedFacts(su, View(), peers, myIndex, sessionIdRaw);
      ghost var shared := View();
      BatchTableNone(su, shared);
      var batch: map<nat, Block> := map[];
      for i := 0 to |peers|
        invariant View() == shared && batch == BatchTable(su, shared, i)
      {
        BatchTableNext(su, shared, i);
        assert peers[i] in peers;
        if !participants[peers[i]].authedTo {
          var token := AuthenticateTo(peers[i]);
          batch := batch[i := token];
        }
      }
      Say(JoinerAuth(batch, participants[myself.nickname].share));
    }

    // ---------- construction ----------

    /** Whom the acceptor authenticates to; nothing when more than one member is new. */
    method FindJoiner(conceiving: Option<Delivery>) returns (joiner: Option<Nick>)
      requires Valid()
      ensures joiner == JoinerName(View(), conceiving)
    {
      hide Cached, Delta, ParseParticipant, Sorted;
      if conceiving.Some? && conceiving.value.packet.JoinRequest? {
        var parsed := ParseParticipant(conceiving.value.packet.joinerInfo);
        return Some(if parsed.Some? then parsed.value.id.nickname else []);
      }
      var delta := DeltaPlist();
      if delta == map[] {
        return Some([]);
      }
      joiner := if |delta| == 1 then Some(Sorted(delta.Keys)[0]) else None;
    }

    /** The share of the conceiving view; the state is not the transitor's. */
    method AbsorbConceivingView(d: Delivery, world: Surroundings)
      requires Valid() && IsInfo(d) && d.sender in participants
      modifies `participants, `sessionKey, `futureCryptic, `sent, `myState
      ensures WellFormed(old(View())) && Valid() && View() == AbsorbConceiving(su, old(View()), Some(d), world)
    {
      hide Cached, WithShare, ConfirmIfReady, WellFormed, Peers, MyIndex;
      CachedFacts(su, View(), peers, myIndex, sessionIdRaw);
      var before := myState;
      SetKeyShare(d.sender, d.packet.content.infoShare);
      CachedFacts(su, View(), peers, myIndex, sessionIdRaw);
      WithSharePhase(old(View()), d.sender, d.packet.content.infoShare);
      var r := SendConfirmationIfReady(world);
      ghost var confirmed := View();
      myState := before;
      RephasedWellFormed(confirmed, before);
      CachedStill(su, confirmed, View(), peers, myIndex, sessionIdRaw);
    }

    /** The acceptor's part of the constructor. */
    method AcceptInto(keyless: bool, conceiving: Option<Delivery>, world: Surroundings) returns (r: Reaction)
      requires Valid()
      modifies `participants, `sessionKey, `futureCryptic, `sent, `myState
      ensures WellFormed(old(View())) && BornInto(r, Accept(su, old(View()), keyless, conceiving, world), this)
    {
      hide Cached, AbsorbConceiving, SendView, JoinerName, WellFormed, Peers, MyIndex;
      CachedFacts(su, View(), peers, myIndex, sessionIdRaw);
      var joiner := FindJoiner(conceiving);
      if joiner == None {
        return Aborted(SecondAddition);
      }
      if conceiving.Some? && IsInfo(conceiving.value) {
        if conceiving.value.sender !in participants {
          return Aborted(UnknownMember);
        }
        if keyless {
          return Raised(CryptoFailed);
        }
        AbsorbConceivingView(conceiving.value, world);
      } else if keyless {
        return Raised(CryptoFailed);
      } else {
        NothingToAbsorb(su, View(), conceiving, world);
      }
      r := SendViewAuthAndShare(joiner.value);
    }

    /** The Session constructor for everyone but the joiner; the object counts only when nothing is thrown. */
    static method Create(su: Suite, conceiver: Conceiver, me: ParticipantId, ephemeral: Option<Block>, roster: Roster,
                         parental: Roster, conceiving: Option<Delivery>, world: Surroundings)
      returns (r: Reaction, o: Session)
      requires Consistent(roster) && Consistent(parental)
      ensures fresh(o) && o.su == su
      ensures BornInto(r, Conceive(su, conceiver, me, ephemeral, roster, parental, conceiving, world), o)
    {
      hide Accept, SendView, SendShare, Populate, WellFormed, Cached, Consistent;
      o := new Session.Bare(su, me, match ephemeral case Some(e) => e case None => ZERO, roster, parental, ReShared);
      if conceiver == Creator && |roster| != 1 {
        return Aborted(CrowdedCreation), o;
      }
      var found := o.PopulatePeers();
      if !found {
        return Raised(InvalidRoom), o;
      }
      if conceiver == Acceptor {
        r := o.AcceptInto(ephemeral == None, conceiving, world);
      } else if ephemeral == None {
        r := Raised(CryptoFailed);
      } else if conceiver == Creator {
        r := o.SendViewAuthAndShare([]);
      } else {
        o.SendNewShareMessage();
        r := Did(Nothing);
      }
    }

    /** The Session constructor for the joiner. */
    static method CreateJoiner(su: Suite, me: ParticipantId, ephemeral: Block, d: Delivery, world: Surroundings)
      returns (r: Reaction, o: Session)
      requires IsInfo(d)
      ensures fresh(o) && o.su == su && BornInto(r, Join(su, me, ephemeral, d, world), o)
    {
      hide ListToMap, JoinFrom, Populate, WellFormed, Cached, Consistent, Named, Join;
      JoinIs(su, me, ephemeral, d, world);
      var members := ParticipantsListToMap(d.packet.content.view);
      ListToMapKeys(d.packet.content.view);
      EmptyConsistent();
      o := new Session.Bare(su, me, ephemeral, members, map[], JoinRequested);
      if d.packet.content.view == [] {
        return Raised(BadFormat), o;
      }
      var found := o.PopulatePeers();
      if !found {
        return Raised(InvalidRoom), o;
      }
      r := o.EnterAsJoiner(d, world);
    }

    /** What the joiner does once its peers are in order. */
    method EnterAsJoiner(d: Delivery, world: Surroundings) returns (r: Reaction)
      requires Valid() && IsInfo(d)
      modifies `participants, `sessionKey, `futureCryptic, `sent, `myState
      ensures WellFormed(old(View())) && BornInto(r, JoinFrom(su, old(View()), d, world), this)
    {
      hide AuthAndReshare, JoinerSends, WellFormed, Cached, Peers, MyIndex;
      CachedFacts(su, View(), peers, myIndex, sessionIdRaw);
      var error := VerifyPeersSignature(d);
      if error.Some? {
        return Raised(error.value);
      }
      JoinerKeepsMembers(su, View());
      JoinerSendAuthAndShare();
      r := AuthenticateAndReshare(d, world);
      if r.Did? {
        r := Did(Nothing);
      }
    }

    /** `verify_peers_signature`. */
    method VerifyPeersSignature(d: Delivery) returns (error: Option<Error>)
      requires d.packet.Signed?
      ensures error == SignatureError(View(), d)
    {
      if d.sender !in participants {
        return Some(InvalidParticipant);
      }
      error := if d.packet.signer != participants[d.sender].ephemeral then Some(AuthenticationFailed) else None;
    }

    // ---------- breeding ----------

    /** `init_a_session_with_new_user`. */
    method InitASessionWithNewUser(d: Delivery, world: Surroundings) returns (r: Reaction)
      requires Valid() && d.packet.JoinRequest?
      ensures WellFormed(View()) && Mirrors(r, InitWithNewUser(su, View(), d, world)) && FreshDeed(su, r)
      ensures After(View(), InitWithNewUser(su, View(), d, world)) == View()
    {
      hide Cached, WellFormed, Conceive, ParseParticipant, FutureRoster, WithJoiner, Consistent, InitWithNewUser;
      CachedFacts(su, View(), peers, myIndex, sessionIdRaw);
      JoinShape(su, View(), d, world);
      JoinRefusals(su, View(), d, world);
      var parsed := ParseParticipant(d.packet.joinerInfo);
      if parsed == None {
        return Raised(BadFormat);
      }
      var live := FutureParticipants();
      if parsed.value.id.nickname in live {
        return Raised(DoubleJoin);
      }
      var roster := WithJoiner(live, parsed.value);
      var made, child := Create(su, Acceptor, myself, futureCryptic, roster, live, Some(d), world);
      r := if made.Did? then Did(Breed(child)) else made;
    }

    /** `init_a_session_with_plist`. */
    method InitASessionWithPlist(d: Delivery, world: Surroundings) returns (r: Reaction)
      requires Valid() && IsInfo(d)
      ensures WellFormed(View()) && Mirrors(r, InitWithPlist(su, View(), d, world)) && FreshDeed(su, r)
    {
      hide Cached, WellFormed, Conceive, ListToMap, FutureRoster, Consistent, Vetted, Named, Peers, MyIndex;
      CachedFacts(su, View(), peers, myIndex, sessionIdRaw);
      var c := d.packet.content;
      if d.sender !in participants {
        return Raised(InvalidParticipant);
      }
      if d.packet.signer != participants[d.sender].future {
        return Raised(AuthenticationFailed);
      }
      if c.view == [] {
        return Raised(BadFormat);
      }
      ListToMapKeys(c.view);
      FutureRosterConsistent(View());
      var listed := ParticipantsListToMap(c.view);
      var vetted := Vet(listed);
      if myself.nickname !in vetted {
        return Raised(InvalidRoom);
      }
      var live := FutureParticipants();
      var made, child := Create(su, Acceptor, myself, futureCryptic, vetted, live, Some(d), world);
      r := if made.Did? then Did(Breed(child)) else made;
    }

    /** Only those whose key in the view is the key they announced count as authenticated. */
    method Vet(listed: Roster) returns (vetted: Roster)
      requires Consistent(listed)
      ensures vetted == Vetted(View(), listed) && Consistent(vetted)
    {
      hide Sorted, Consistent;
      var nicks := Sorted(listed.Keys);
      vetted := listed;
      for i := 0 to |nicks|
        invariant vetted.Keys == listed.Keys
        invariant forall j :: 0 <= j < i ==> vetted[nicks[j]] == VettedOne(participants, nicks[j], listed[nicks[j]])
        invariant forall j :: i <= j < |nicks| ==> vetted[nicks[j]] == listed[nicks[j]]
      {
        SortedOnce(listed.Keys, i);
        var k := nicks[i];
        vetted := vetted[k := VettedOne(participants, k, vetted[k])];
      }
      VettedAs(View(), listed, vetted, nicks);
    }

    /** `shrink`: the leaver stays on the list of zombies even when breeding throws. */
    method ShrinkOn(leaver: Nick, world: Surroundings) returns (r: Reaction)
      requires Valid()
      modifies `zombies
      ensures WellFormed(old(View())) && Mirrors(r, Shrink(su, old(View()), leaver, world)) && FreshDeed(su, r)
      ensures Valid() && (!r.Aborted? ==> View() == After(old(View()), Shrink(su, old(View()), leaver, world)))
    {
      hide Cached, WellFormed, Conceive, FutureRoster, Peers, MyIndex, Shrink;
      CachedFacts(su, View(), peers, myIndex, sessionIdRaw);
      ShrinkShape(su, View(), leaver, world);
      if leaver !in participants || leaver in zombies {
        return Did(Nothing);
      }
      zombies := zombies[leaver := participants[leaver]];
      ShrunkWellFormed(old(View()), leaver);
      CachedStill(su, old(View()), View(), peers, myIndex, sessionIdRaw);
      EmptyConsistent();
      var live := FutureParticipants();
      var made, child := Create(su, Peer, myself, futureCryptic, live, map[], None, world);
      r := if made.Did? then Did(BreedHeir(child)) else made;
    }

    // ---------- the state machine ----------

    /** `receive`. */
    method ReceiveInSession(d: Delivery, world: Surroundings) returns (r: Reaction)
      requires Valid() && d.packet.Signed? && d.packet.content.InSessionMessage?
      modifies `zombies, `myState
      ensures WellFormed(old(View())) && Mirrors(r, Receive(su, old(View()), d, world)) && FreshDeed(su, r)
      ensures Valid() && (!r.Aborted? ==> View() == After(old(View()), Receive(su, old(View()), d, world)))
    {
      hide Cached, WellFormed, Shrink, Peers, MyIndex;
      CachedFacts(su, View(), peers, myIndex, sessionIdRaw);
      var c := d.packet.content;
      if c.encryptedWith != sessionKey {
        return Raised(CryptoFailed);
      }
      if c.index >= |peers| || d.packet.signer != participants[peers[c.index]].ephemeral {
        return Did(Nothing);
      }
      if myState == LeaveRequested {
        if world.farewelled {
          CommitSuicide();
        }
        return Did(Nothing);
      }
      if c.subType == Wire.LeaveMessage && peers[c.index] != myself.nickname && myState != Dead {
        r := ShrinkOn(peers[c.index], world);
      } else {
        r := Did(Nothing);
      }
    }

    /** `state_handler`. */
    method StateHandler(d: Delivery, world: Surroundings) returns (r: Reaction)
      requires Valid()
      modifies `participants, `sessionKey, `futureCryptic, `sent, `myState, `zombies, `confirmedPeers
      ensures WellFormed(old(View())) && Mirrors(r, Handle(su, old(View()), d, world)) && FreshDeed(su, r)
      ensures Valid() && (!r.Aborted? ==> View() == After(old(View()), Handle(su, old(View()), d, world)))
    {
      hide Cached, WellFormed, InitWithNewUser, Receive, AuthAndReshare, ConfirmAuth, MarkConfirmed, Peers, MyIndex;
      CachedFacts(su, View(), peers, myIndex, sessionIdRaw);
      var edge := EdgeOf(myState, d.packet);
      if edge == NoEdge {
        r := Did(Nothing);
      } else if edge == ToInitSession {
        r := InitASessionWithNewUser(d, world);
      } else if edge == ToReceive {
        r := ReceiveInSession(d, world);
      } else {
        var error := VerifyPeersSignature(d);
        if error.Some? {
          r := Raised(error.value);
        } else if edge == ToAuthAndReshare {
          r := AuthenticateAndReshare(d, world);
        } else if edge == ToConfirmAuth {
          r := ConfirmAuthAddUpdateShareRepo(d, world);
        } else {
          MarkConfirmedAndMayMoveSession(d);
          r := Did(Nothing);
        }
      }
    }

    /** `commit_suicide`. */
    method CommitSuicide()
      requires Valid()
      modifies `myState
      ensures Valid() && View() == old(View()).(phase := Dead)
    {
      hide Cached;
      myState := Dead;
      RephasedWellFormed(old(View()), Dead);
      CachedStill(su, old(View()), View(), peers, myIndex, sessionIdRaw);
    }

    /** `stale_me`. */
    method StaleMe()
      requires Valid()
      modifies `myState
      ensures Valid() && View() == old(View()).(phase := Stale)
    {
      hide Cached;
      myState := Stale;
      RephasedWellFormed(old(View()), Stale);
      CachedStill(su, old(View()), View(), peers, myIndex, sessionIdRaw);
    }
  }

  /** Bred objects are new, and use the same primitives. */
  twostate predicate FreshDeed(su: Suite, new r: Reaction) {
    r.Did? ==>
      && (r.deed.Breed? ==> fresh(r.deed.child) && r.deed.child.su == su)
      && (r.deed.BreedHeir? ==> fresh(r.deed.heir) && r.deed.heir.su == su)
  }

  function VettedOne(members: Roster, k: Nick, p: Participant): Participant {
    p.(authenticated := k in members && members[k].future == p.ephemeral)
  }

  lemma VettedAs(s: Sess, listed: Roster, vetted: Roster, nicks: seq<Nick>)
    requires Consistent(listed) && vetted.Keys == listed.Keys && nicks == Sorted(listed.Keys)
    requires forall j :: 0 <= j < |nicks| ==> vetted[nicks[j]] == VettedOne(s.roster, nicks[j], listed[nicks[j]])
    ensures vetted == Vetted(s, listed) && Consistent(vetted)
  {
    hide Sorted;
    forall k | k in listed ensures vetted[k] == Vetted(s, listed)[k] {
      assert k in nicks;
      var j :| 0 <= j < |nicks| && nicks[j] == k;
    }
  }

  lemma JoinRefusals(su: Suite, s: Sess, d: Delivery, world: Surroundings)
    requires WellFormed(s) && d.packet.JoinRequest?
    ensures var parsed := ParseParticipant(d.packet.joinerInfo);
      && (parsed == None ==> InitWithNewUser(su, s, d, world) == Threw(s, BadFormat))
      && (parsed.Some? && parsed.value.id.nickname in FutureRoster(s) ==>
            InitWithNewUser(su, s, d, world) == Threw(s, DoubleJoin))
  {
    hide Conceive, ParseParticipant, WellFormed;
  }

  lemma ShrinkShape(su: Suite, s: Sess, leaver: Nick, world: Surroundings)
    requires WellFormed(s)
    ensures leaver !in s.roster || leaver in s.zombies ==> Shrink(su, s, leaver, world) == Done(s, NoAction)
    ensures leaver in s.roster && leaver !in s.zombies ==>
      var t := s.(zombies := s.zombies[leaver := s.roster[leaver]]);
      && Consistent(FutureRoster(t))
      && Shrink(su, s, leaver, world)
         == match Conceive(su, Peer, s.me, s.future, FutureRoster(t), map[], None, world)
            case Born(child) => Done(t, NewPrioritySession(child))
            case Failed(error) => Threw(t, error)
            case Fatal(cause) => Died(cause)
  {
    hide Conceive;
    if leaver in s.roster && leaver !in s.zombies {
      FutureRosterConsistent(s.(zombies := s.zombies[leaver := s.roster[leaver]]));
    }
  }

  lemma ShrunkWellFormed(s: Sess, leaver: Nick)
    requires WellFormed(s) && leaver in s.roster
    ensures WellFormed(s.(zombies := s.zombies[leaver := s.roster[leaver]]))
  {}

  /** The joiner's constructor after the peers are in order. */
  function JoinFrom(su: Suite, s: Sess, d: Delivery, world: Surroundings): Birth
    requires WellFormed(s) && IsInfo(d)
  {
    JoinerKeepsMembers(su, s);
    match SignatureError(s, d)
    case Some(error) => Failed(error)
    case None =>
      match AuthAndReshare(su, JoinerSends(su, s), d, world)
      case Done(t, _) => Born(t)
      case Threw(_, error) => Failed(error)
      case Died(cause) => Fatal(cause)
  }

  lemma JoinIs(su: Suite, me: ParticipantId, ephemeral: Block, d: Delivery, world: Surroundings)
    requires IsInfo(d)
    ensures var roster := ListToMap(d.packet.content.view);
      && Consistent(roster)
      && Join(su, me, ephemeral, d, world)
         == if d.packet.content.view == [] then Failed(BadFormat)
            else if me.nickname !in roster then Failed(InvalidRoom)
            else JoinFrom(su, Populate(me, ephemeral, roster, map[], JoinRequested), d, world)
  {
    hide AuthAndReshare, JoinerSends, ListToMap, Populate, WellFormed, Named;
    ListToMapKeys(d.packet.content.view);
  }

  lemma RephasedWellFormed(s: Sess, phase: Phase)
    ensures WellFormed(s) ==> WellFormed(s.(phase := phase))
  {}

  lemma NothingToAbsorb(su: Suite, s: Sess, conceiving: Option<Delivery>, world: Surroundings)
    requires WellFormed(s) && !(conceiving.Some? && IsInfo(conceiving.value))
    ensures AbsorbConceiving(su, s, conceiving, world) == s
  {
    hide WellFormed;
  }

  lemma EmptyConsistent()
    ensures Consistent(map[])
  {}

  lemma JoinerKeepsMembers(su: Suite, s: Sess)
    requires WellFormed(s)
    ensures JoinerSends(su, s).roster.Keys == s.roster.Keys
  {
    hide WithOwnShare, BatchTable;
    OwnShareKeepsOthers(su, s);
  }

  /** A session object has become what was to be born, or the birth failed. */
  ghost predicate BornInto(r: Reaction, birth: Birth, o: Session)
    reads o
  {
    match birth
    case Born(child) => r == Did(Nothing) && o.Valid() && o.View() == child
    case Failed(error) => r == Raised(error)
    case Fatal(cause) => r == Aborted(cause)
  }

  lemma SortedOnce(keys: set<Nick>, i: nat)
    requires i < |keys|
    ensures forall j :: 0 <= j < |keys| && j != i ==> Sorted(keys)[j] != Sorted(keys)[i]
  {
    hide Sorted, Less;
    forall j | 0 <= j < |keys| && j != i ensures Sorted(keys)[j] != Sorted(keys)[i] {
      if i < j { SortedDistinct(keys, i, j); } else { SortedDistinct(keys, j, i); }
    }
  }

  lemma FutureRosterAs(s: Sess, base: Roster, live: Roster, nicks: seq<Nick>)
    requires base == Minus(s.roster, s.zombies) && live.Keys == base.Keys && nicks == Sorted(base.Keys)
    requires forall j :: 0 <= j < |nicks| ==> live[nicks[j]] == base[nicks[j]].(ephemeral := base[nicks[j]].future)
    ensures live == FutureRoster(s)
  {
    hide Sorted;
    forall k | k in live ensures live[k] == FutureRoster(s)[k] {
      assert k in nicks;
      var j :| 0 <= j < |nicks| && nicks[j] == k;
    }
  }

  lemma SaidWellFormed(s: Sess, t: Sess)
    requires t == s.(outbox := t.outbox)
    ensures WellFormed(s) ==> WellFormed(t)
  {}

  /** Publishing the own share touches no key and no other member. */
  lemma OwnShareKeepsOthers(su: Suite, s: Sess)
    requires WellFormed(s)
    ensures var t := WithOwnShare(su, s);
      t.roster.Keys == s.roster.Keys && t.me == s.me && t.ephemeral == s.ephemeral && t.sid == s.sid
      && t.outbox == s.outbox
      && forall k :: k in s.roster ==>
           t.roster[k].id == s.roster[k].id && t.roster[k].ephemeral == s.roster[k].ephemeral
  {
    hide OwnShare;
  }

  lemma TokenSame(su: Suite, s: Sess, k: Nick)
    requires WellFormed(s) && k in s.roster
    ensures k in WithOwnShare(su, s).roster
    ensures TokenFor(su, s.me, s.ephemeral, WithOwnShare(su, s).roster[k])
         == TokenFor(su, s.me, s.ephemeral, s.roster[k])
  {
    hide WithOwnShare, PairKey;
    OwnShareKeepsOthers(su, s);
  }

  lemma AuthenticateKeeps(su: Suite, s: Sess, k: Nick, token: Block)
    requires k in s.roster
    ensures var r := Authenticate(su, s, k, token); r.Some? ==> k in r.value.roster
  {
    hide Accepts;
  }

  lemma AnnouncedWellFormed(s: Sess, k: Nick, nextKey: Block)
    requires k in s.roster
    ensures WellFormed(s) ==> WellFormed(Announced(s, k, nextKey))
    ensures Announced(s, k, nextKey).roster.Keys == s.roster.Keys
  {}

  lemma AnnouncedParts(s: Sess, k: Nick, nextKey: Block)
    requires k in s.roster
    ensures var t := Announced(s, k, nextKey);
      t.roster.Keys == s.roster.Keys && t.key == s.key && t.confirmed == s.confirmed && t.phase == s.phase
      && t.me == s.me && t.sid == s.sid
  {}

  lemma PlaceIsIndex(s: Sess, peers: seq<Nick>, i: nat, k: Nick)
    requires k in s.roster && peers == Peers(s) && i <= |peers| && (i < |peers| ==> peers[i] == k)
    requires i == |peers| ==> k !in peers
    ensures i < |peers| && i == IndexIn(s, k)
  {
    hide Sorted;
    assert |s.roster.Keys| == |s.roster|;
    SortedIndex(s.roster.Keys, i);
  }

  lemma MarkWellFormed(s: Sess, t: Sess)
    requires WellFormed(s) && t == s.(confirmed := t.confirmed, phase := t.phase) && |t.confirmed| == |s.confirmed|
    ensures WellFormed(t)
  {}

  /** All blocks in a row. */
  method Concatenate(blocks: seq<Block>) returns (bytes: Bytes)
    ensures bytes == Flatten(blocks)
  {
    bytes := [];
    for i := 0 to |blocks|
      invariant bytes + Flatten(blocks[i..]) == Flatten(blocks)
    {
      assert blocks[i..][1..] == blocks[i + 1..];
      assert bytes + (blocks[i] + Flatten(blocks[i + 1..])) == (bytes + blocks[i]) + Flatten(blocks[i + 1..]);
      bytes := bytes + blocks[i];
    }
  }

  lemma SessionKeyAs(su: Suite, s: Sess, all: seq<Block>, raw: Block)
    requires WellFormed(s) && raw == SidBytes(su, s.sid)
    requires all == Ring.Walk(ShareOn(su, s, Ring.Next(MyIndex(s), |s.roster|)), Shares(s), MyIndex(s))
    ensures SessionKey(su, s) == Hash(su, Flatten(all + [raw])[..|all| + 1]) && |all| == |s.roster|
  {
    hide ShareOn, MyIndex, SidBytes, WellFormed;
  }

  lemma KeyedWellFormed(s: Sess, key: Block)
    requires WellFormed(s)
    ensures WellFormed(s.(key := key))
  {}

  lemma CachedRaw(su: Suite, s: Sess, peers: seq<Nick>, index: nat, raw: Block)
    requires Cached(su, s, peers, index, raw)
    ensures raw == SidBytes(su, s.sid)
  {}

  lemma FinishWellFormed(su: Suite, s: Sess, world: Surroundings)
    requires WellFormed(s)
    ensures WellFormed(After(s, Finish(su, s, world)))
  {
    hide SessionKey, ConfirmationOf, Ready, WellFormed;
  }

  lemma CachedFacts(su: Suite, s: Sess, peers: seq<Nick>, index: nat, raw: Block)
    requires Cached(su, s, peers, index, raw)
    ensures WellFormed(s) && s.me.nickname in s.roster && peers == Peers(s) && index == MyIndex(s)
    ensures |s.confirmed| == |s.roster| == |peers|
    ensures Consistent(s.roster) && Consistent(s.zombies) && Consistent(s.parental)
    ensures forall k :: k in peers <==> k in s.roster
  {}

  lemma CachedStill(su: Suite, s: Sess, t: Sess, peers: seq<Nick>, index: nat, raw: Block)
    requires Cached(su, s, peers, index, raw) && (WellFormed(s) ==> WellFormed(t))
    requires t.roster.Keys == s.roster.Keys && t.me == s.me && t.sid == s.sid
    ensures Cached(su, t, peers, index, raw)
  {
    hide SidBytes, Sorted;
    SameIndices(s, t);
  }

  lemma Membership(members: Roster, peers: seq<Nick>, k: Nick)
    requires peers == Sorted(members.Keys)
    ensures k in peers <==> k in members
  {}

  /** What the fields hold once the peers are in order is the value Populate gives, with the caches in place. */
  lemma Populated(su: Suite, me: ParticipantId, key: Block, members: Roster, parents: Roster, state: Phase, i: nat,
                  trusted: Roster, flags: seq<bool>)
    requires Consistent(members) && Consistent(parents) && i < |Sorted(members.Keys)|
    requires Sorted(members.Keys)[i] == me.nickname && me.nickname in members
    requires trusted == members[me.nickname := members[me.nickname].(authenticated := true, authedTo := true)]
    requires |flags| == |Sorted(members.Keys)| && forall j :: 0 <= j < |flags| ==> !flags[j]
    ensures var s := Sess(me, key, None, trusted, map[], parents, flags, IdentityOf(members), state, ZERO, []);
      s == Populate(me, key, members, parents, state)
      && Cached(su, s, Sorted(members.Keys), i, SidBytes(su, IdentityOf(members)))
  {
    hide Sorted, IdentityOf, SidBytes;
    assert |members.Keys| == |members|;
    assert trusted.Keys == members.Keys;
    assert flags == seq(|members|, _ => false);
    SortedIndex(members.Keys, i);
  }
}
