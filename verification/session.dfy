/** What a session is and how it reacts: the values behind the Session class. */
module Sessions {
  import opened Bytes
  import opened Crypto
  import opened Participants
  import Wire
  import Ring

  /** The states in the order of the enumeration. */
  datatype Phase = NoPhase | JoinRequested | ReShared | GroupKeyGenerated | InSession | LeaveRequested | Stale | Dead

  function Rank(p: Phase): nat {
    match p
    case NoPhase => 0
    case JoinRequested => 1
    case ReShared => 2
    case GroupKeyGenerated => 3
    case InSession => 4
    case LeaveRequested => 5
    case Stale => 6
    case Dead => 7
  }

  datatype Content =
    | ParticipantsInfo(view: seq<UnauthenticatedParticipant>, token: Block, infoShare: Block)
    | JoinerAuth(table: map<nat, Block>, authShare: Block)
    | GroupShare(share: Block)
    | SessionConfirmation(confirmation: Block, nextKey: Block)
    | InSessionMessage(encryptedWith: Block, index: nat, subType: Wire.SubType)

  /** A parsed message. `signer` is the ephemeral key under which its signature verifies. The nickname of
      the sender is not signed: it comes with the delivery. */
  datatype Packet =
    | JoinRequest(joinerInfo: Bytes)
    | Signed(signer: Block, sid: Identity, content: Content)

  datatype Delivery = Delivery(sender: Nick, packet: Packet)

  /** What the surroundings contribute to one step: the key `future_cryptic.init()` draws, and whether the
      transcript hashes say that everybody has farewelled. */
  datatype Surroundings = Surroundings(freshKey: Block, farewelled: bool)

  datatype Sess = Sess(
    me: ParticipantId,
    ephemeral: Block,
    future: Option<Block>,
    roster: Roster,
    zombies: Roster,
    parental: Roster,
    confirmed: seq<bool>,
    sid: Identity,
    phase: Phase,
    key: Block,
    outbox: seq<Packet>)

  datatype Error = InvalidParticipant | AuthenticationFailed | DoubleJoin | InvalidRoom | BadFormat | CryptoFailed

  /** Failed runtime assertions inside the session code. */
  datatype Cause = SecondAddition | UnknownMember | CrowdedCreation

  datatype Action = NoAction | NewSession(child: Sess) | NewPrioritySession(heir: Sess) | PresumeHeir

  datatype Outcome = Done(sess: Sess, action: Action) | Threw(kept: Sess, error: Error) | Died(cause: Cause)

  datatype Birth = Born(child: Sess) | Failed(error: Error) | Fatal(cause: Cause)

  datatype Conceiver = Creator | Acceptor | Peer

  predicate WellFormed(s: Sess) {
    && s.me.nickname in s.roster
    && |s.confirmed| == |s.roster|
    && (forall k :: k in s.roster ==> s.roster[k].id.nickname == k)
    && (forall k :: k in s.zombies ==> s.zombies[k].id.nickname == k)
    && (forall k :: k in s.parental ==> s.parental[k].id.nickname == k)
  }

  function Peers(s: Sess): (peers: seq<Nick>)
    ensures |peers| == |s.roster|
    ensures forall k :: k in peers <==> k in s.roster
  {
    Sorted(s.roster.Keys)
  }

  function IndexIn(s: Sess, k: Nick): (i: nat)
    requires k in s.roster
    ensures i < |s.roster|
  {
    IndexOf(Peers(s), k)
  }

  function MyIndex(s: Sess): (i: nat)
    requires WellFormed(s)
    ensures i < |s.roster|
  {
    IndexIn(s, s.me.nickname)
  }

  // ---------- the group key ----------

  /** `secret_share_on`: the pairwise secret with the peer at a position, bound to the session id. */
  function ShareOn(su: Suite, s: Sess, i: nat): Block
    requires i < |s.roster|
  {
    var peer := s.roster[Peers(s)[i]];
    Hash(su, PairKey(su, s.me.fingerprint, s.ephemeral, peer.id.fingerprint, peer.ephemeral) + SidBytes(su, s.sid))
  }

  /** `group_enc`. */
  function OwnShare(su: Suite, s: Sess): Block
    requires WellFormed(s)
  {
    var n := |s.roster|;
    XorBlock(ShareOn(su, s, Ring.Next(MyIndex(s), n)), ShareOn(su, s, Ring.Previous(MyIndex(s), n)))
  }

  function WithOwnShare(su: Suite, s: Sess): (r: Sess)
    requires WellFormed(s)
    ensures WellFormed(r) && r.roster.Keys == s.roster.Keys && |r.roster| == |s.roster| && s.me.nickname in r.roster
  {
    hide OwnShare;
    WithShare(s, s.me.nickname, OwnShare(su, s))
  }

  /** `set_key_share` on one member. */
  function WithShare(s: Sess, k: Nick, share: Block): (r: Sess)
    requires k in s.roster
    ensures WellFormed(s) ==> WellFormed(r)
  {
    s.(roster := s.roster[k := s.roster[k].(share := share, contributed := true)])
  }

  function Shares(s: Sess): (shares: seq<Block>)
    ensures |shares| == |s.roster|
    ensures forall i :: 0 <= i < |s.roster| ==> shares[i] == s.roster[Peers(s)[i]].share
  {
    seq(|s.roster|, i requires 0 <= i < |s.roster| => s.roster[Peers(s)[i]].share)
  }

  /** The array `all_r` that `group_dec` fills. */
  function AllSecrets(su: Suite, s: Sess): (all: seq<Block>)
    requires WellFormed(s)
    ensures |all| == |s.roster|
  {
    Ring.Walk(ShareOn(su, s, Ring.Next(MyIndex(s), |s.roster|)), Shares(s), MyIndex(s))
  }

  function Flatten(blocks: seq<Block>): (s: Bytes)
    ensures |s| == HASH_LENGTH * |blocks|
  {
    if |blocks| == 0 then [] else blocks[0] + Flatten(blocks[1..])
  }

  /** What is hashed into the session key: of the array followed by the session id, the first n + 1 bytes, since the
      call passes a number of blocks to the hash overload that takes a number of bytes. */
  function KeyInput(su: Suite, all: seq<Block>, sid: Identity): Bytes {
    Flatten(all + [SidBytes(su, sid)])[..|all| + 1]
  }

  function KeyOf(su: Suite, all: seq<Block>, sid: Identity): Block {
    Hash(su, KeyInput(su, all, sid))
  }

  function SessionKey(su: Suite, s: Sess): Block
    requires WellFormed(s)
  {
    KeyOf(su, AllSecrets(su, s), s.sid)
  }

  /** `compute_session_confirmation`. */
  function ConfirmationOf(su: Suite, key: Block, nickname: Nick): Block {
    Hash(su, key + nickname)
  }

  // ---------- readiness and confirmation ----------

  /** `everybody_authenticated_and_contributed`. */
  predicate Ready(s: Sess) {
    forall k :: k in s.roster ==> s.roster[k].authenticated && s.roster[k].contributed
  }

  predicate EverybodyConfirmed(s: Sess) {
    forall i :: 0 <= i < |s.confirmed| ==> s.confirmed[i]
  }

  predicate NobodyConfirmed(s: Sess) {
    forall i :: 0 <= i < |s.confirmed| ==> !s.confirmed[i]
  }

  /** `send_session_confirmation_if_everybody_is_contributed`. */
  function ConfirmIfReady(su: Suite, s: Sess, world: Surroundings): (r: (Sess, Action))
    requires WellFormed(s)
    ensures WellFormed(r.0)
  {
    hide SessionKey, ConfirmationOf;
    if Ready(s) then
      var key := SessionKey(su, s);
      var packet := Signed(s.ephemeral, s.sid,
        SessionConfirmation(ConfirmationOf(su, key, s.me.nickname), world.freshKey));
      (s.(key := key, future := Some(world.freshKey), phase := GroupKeyGenerated, outbox := s.outbox + [packet]),
       PresumeHeir)
    else (s, NoAction)
  }

  /** `future_participants`: the live members with their announced keys as current keys. */
  function FutureRoster(s: Sess): (r: Roster)
    ensures forall k :: k in r <==> k in Minus(s.roster, s.zombies)
    ensures forall k :: k in r ==> r[k] == s.roster[k].(ephemeral := s.roster[k].future)
  {
    map k | k in Minus(s.roster, s.zombies) :: s.roster[k].(ephemeral := s.roster[k].future)
  }

  /** `delta_plist`. */
  function Delta(s: Sess): Roster {
    Minus(s.roster, s.parental)
  }

  // ---------- construction ----------

  /** `populate_peers_from_participants` and `keep_peers_in_order_spot_myself`. */
  function Populate(me: ParticipantId, ephemeral: Block, roster: Roster, parental: Roster, phase: Phase): (s: Sess)
    requires me.nickname in roster
    ensures Consistent(roster) && Consistent(parental) ==> WellFormed(s)
    ensures s.roster.Keys == roster.Keys && s.phase == phase && s.outbox == [] && s.future == None
    ensures s.sid == IdentityOf(roster)
  {
    var trusted := roster[me.nickname := roster[me.nickname].(authenticated := true, authedTo := true)];
    Sess(me, ephemeral, None, trusted, map[], parental, seq(|roster|, _ => false), IdentityOf(roster), phase, ZERO, [])
  }

  /** The name the acceptor authenticates to: the joiner of the request, or the only member the parent lacks. */
  function JoinerName(s: Sess, conceiving: Option<Delivery>): Option<Nick> {
    if conceiving.Some? && conceiving.value.packet.JoinRequest? then
      match ParseParticipant(conceiving.value.packet.joinerInfo)
      case Some(u) => Some(u.id.nickname)
      case None => Some([])
    else if Delta(s) == map[] then Some([])
    else if |Delta(s)| == 1 then Some(Sorted(Delta(s).Keys)[0])
    else None
  }

  predicate IsInfo(d: Delivery) {
    d.packet.Signed? && d.packet.content.ParticipantsInfo?
  }

  /** The share of the conceiving view is stored, and a confirmation sent if that was all that lacked;
      the constructor then ignores the state the transitor returned. */
  function AbsorbConceiving(su: Suite, s: Sess, conceiving: Option<Delivery>, world: Surroundings): (r: Sess)
    requires WellFormed(s)
    requires conceiving.Some? && IsInfo(conceiving.value) ==> conceiving.value.sender in s.roster
    ensures WellFormed(r)
  {
    hide ConfirmIfReady, WithShare;
    if conceiving.Some? && IsInfo(conceiving.value) then
      ConfirmIfReady(su, WithShare(s, conceiving.value.sender, conceiving.value.packet.content.infoShare), world).0
        .(phase := s.phase)
    else s
  }

  /** `send_view_auth_and_share`. Without a joiner the token is whatever the stack held; ZERO stands for it. */
  function SendView(su: Suite, s: Sess, joiner: Nick): Birth
    requires WellFormed(s)
  {
    var shared := WithOwnShare(su, s);
    if joiner != [] && joiner !in s.roster then Failed(InvalidParticipant)
    else
      var token := if joiner == [] then ZERO else TokenFor(su, s.me, s.ephemeral, s.roster[joiner]);
      var info := ParticipantsInfo(SessionView(shared.roster), token, shared.roster[s.me.nickname].share);
      Born(shared.(outbox := shared.outbox + [Signed(s.ephemeral, s.sid, info)]))
  }

  /** `send_new_share_message`. */
  function SendShare(su: Suite, s: Sess): Sess
    requires WellFormed(s)
  {
    var shared := WithOwnShare(su, s);
    shared.(outbox := shared.outbox + [Signed(s.ephemeral, s.sid, GroupShare(shared.roster[s.me.nickname].share))])
  }

  /** The Session constructor for everyone but the joiner. `ephemeral` is missing when the parent never
      initialised its future keys; the first Diffie-Hellman then throws. */
  function Conceive(su: Suite, conceiver: Conceiver, me: ParticipantId, ephemeral: Option<Block>, roster: Roster,
                    parental: Roster, conceiving: Option<Delivery>, world: Surroundings): Birth
    requires Consistent(roster) && Consistent(parental)
  {
    if conceiver == Creator && |roster| != 1 then Fatal(CrowdedCreation)
    else if me.nickname !in roster then Failed(InvalidRoom)
    else
      var s := Populate(me, match ephemeral case Some(e) => e case None => ZERO, roster, parental, ReShared);
      if conceiver == Acceptor then Accept(su, s, ephemeral == None, conceiving, world)
      else if ephemeral == None then Failed(CryptoFailed)
      else if conceiver == Creator then SendView(su, s, [])
      else Born(SendShare(su, s))
  }

  /** The acceptor's part of the constructor. */
  function Accept(su: Suite, s: Sess, keyless: bool, conceiving: Option<Delivery>, world: Surroundings): Birth
    requires WellFormed(s)
  {
    hide JoinerName, ConfirmIfReady;
    var joiner := JoinerName(s, conceiving);
    if joiner == None then Fatal(SecondAddition)
    else if conceiving.Some? && IsInfo(conceiving.value) && conceiving.value.sender !in s.roster then
      Fatal(UnknownMember)
    else if keyless then Failed(CryptoFailed)
    else SendView(su, AbsorbConceiving(su, s, conceiving, world), joiner.value)
  }

  // ---------- transitors ----------

  /** `verify_peers_signature`. */
  function SignatureError(s: Sess, d: Delivery): Option<Error>
    requires d.packet.Signed?
  {
    if d.sender !in s.roster then Some(InvalidParticipant)
    else if d.packet.signer != s.roster[d.sender].ephemeral then Some(AuthenticationFailed)
    else None
  }

  /** `be_authenticated` on a member: the flag is only ever raised. */
  function Authenticate(su: Suite, s: Sess, k: Nick, token: Block): (r: Option<Sess>)
    requires k in s.roster
    ensures r.Some? && WellFormed(s) ==> WellFormed(r.value) && r.value.roster.Keys == s.roster.Keys
  {
    hide Accepts;
    if Accepts(su, s.me, s.ephemeral, s.roster[k], token)
    then Some(s.(roster := s.roster[k := s.roster[k].(authenticated := true)]))
    else None
  }

  function Finish(su: Suite, s: Sess, world: Surroundings): Outcome
    requires WellFormed(s)
  {
    var (s', action) := ConfirmIfReady(su, s, world);
    Done(s', action)
  }

  /** `auth_and_reshare`. */
  function AuthAndReshare(su: Suite, s: Sess, d: Delivery, world: Surroundings): Outcome
    requires WellFormed(s) && IsInfo(d) && d.sender in s.roster
  {
    match Authenticate(su, s, d.sender, d.packet.content.token)
    case None => Threw(s, AuthenticationFailed)
    case Some(s') => Finish(su, WithShare(s', d.sender, d.packet.content.infoShare), world)
  }

  predicate CarriesShare(c: Content) {
    c.ParticipantsInfo? || c.JoinerAuth? || c.GroupShare?
  }

  function ShareIn(c: Content): Block
    requires CarriesShare(c)
  {
    match c
    case ParticipantsInfo(_, _, share) => share
    case JoinerAuth(_, share) => share
    case GroupShare(share) => share
  }

  /** `confirm_auth_add_update_share_repo`: a joiner's token is looked up at my own index; without an entry
      for me the share is stored all the same. */
  function ConfirmAuth(su: Suite, s: Sess, d: Delivery, world: Surroundings): Outcome
    requires WellFormed(s) && d.packet.Signed? && CarriesShare(d.packet.content) && d.sender in s.roster
  {
    var c := d.packet.content;
    var checked := if c.JoinerAuth? && MyIndex(s) in c.table
                   then Authenticate(su, s, d.sender, c.table[MyIndex(s)]) else Some(s);
    match checked
    case None => Threw(s, AuthenticationFailed)
    case Some(s') => Finish(su, WithShare(s', d.sender, ShareIn(c)), world)
  }

  /** `validate_session_confirmation` writes the announced key before it looks at the confirmation. */
  function Announced(s: Sess, k: Nick, nextKey: Block): Sess
    requires k in s.roster
  {
    s.(roster := s.roster[k := s.roster[k].(future := nextKey)])
  }

  /** `mark_confirmed_and_may_move_session`. */
  function MarkConfirmed(su: Suite, s: Sess, d: Delivery): Sess
    requires WellFormed(s) && d.packet.Signed? && d.packet.content.SessionConfirmation? && d.sender in s.roster
  {
    var c := d.packet.content;
    var s' := Announced(s, d.sender, c.nextKey);
    if c.confirmation != ConfirmationOf(su, s.key, d.sender) then s'
    else
      var s'' := s'.(confirmed := s.confirmed[IndexIn(s, d.sender) := true]);
      if EverybodyConfirmed(s'') then s''.(phase := InSession) else s''
  }

  /** `init_a_session_with_new_user`. */
  function InitWithNewUser(su: Suite, s: Sess, d: Delivery, world: Surroundings): Outcome
    requires WellFormed(s) && d.packet.JoinRequest?
  {
    match ParseParticipant(d.packet.joinerInfo)
    case None => Threw(s, BadFormat)
    case Some(joiner) =>
      var live := FutureRoster(s);
      if joiner.id.nickname in live then Threw(s, DoubleJoin)
      else match Conceive(su, Acceptor, s.me, s.future, live[joiner.id.nickname := FromUnauthenticated(joiner)], live,
                          Some(d), world)
        case Born(child) => Done(s, NewSession(child))
        case Failed(error) => Threw(s, error)
        case Fatal(cause) => Died(cause)
  }

  /** The view as `init_a_session_with_plist` trusts it: only those whose key matches an announced key. */
  function Vetted(s: Sess, listed: Roster): (r: Roster)
    ensures r.Keys == listed.Keys
  {
    map k | k in listed :: listed[k].(authenticated := k in s.roster && s.roster[k].future == listed[k].ephemeral)
  }

  /** `init_a_session_with_plist`. */
  function InitWithPlist(su: Suite, s: Sess, d: Delivery, world: Surroundings): Outcome
    requires WellFormed(s) && IsInfo(d)
  {
    if d.sender !in s.roster then Threw(s, InvalidParticipant)
    else if d.packet.signer != s.roster[d.sender].future then Threw(s, AuthenticationFailed)
    else if d.packet.content.view == [] then Threw(s, BadFormat)
    else
      ListToMapKeys(d.packet.content.view);
      var listed := Vetted(s, ListToMap(d.packet.content.view));
      if s.me.nickname !in listed then Threw(s, InvalidRoom)
      else match Conceive(su, Acceptor, s.me, s.future, listed, FutureRoster(s), Some(d), world)
        case Born(child) => Done(s, NewSession(child))
        case Failed(error) => Threw(s, error)
        case Fatal(cause) => Died(cause)
  }

  /** `shrink`: a leaver becomes a zombie once, and that breeds a session without all zombies. The zombie
      stays on the list even when the breeding throws. */
  function Shrink(su: Suite, s: Sess, leaver: Nick, world: Surroundings): Outcome
    requires WellFormed(s)
  {
    if leaver !in s.roster || leaver in s.zombies then Done(s, NoAction)
    else
      var s' := s.(zombies := s.zombies[leaver := s.roster[leaver]]);
      match Conceive(su, Peer, s.me, s.future, FutureRoster(s'), map[], None, world)
      case Born(child) => Done(s', NewPrioritySession(child))
      case Failed(error) => Threw(s', error)
      case Fatal(cause) => Died(cause)
  }

  /** `receive`, without the transcript: decrypt, check index and signature, and act on a leave. */
  function Receive(su: Suite, s: Sess, d: Delivery, world: Surroundings): Outcome
    requires WellFormed(s) && d.packet.Signed? && d.packet.content.InSessionMessage?
  {
    var c := d.packet.content;
    if c.encryptedWith != s.key then Threw(s, CryptoFailed)
    else if c.index >= |s.roster| || d.packet.signer != s.roster[Peers(s)[c.index]].ephemeral then Done(s, NoAction)
    else if s.phase == LeaveRequested then
      Done(if world.farewelled then s.(phase := Dead) else s, NoAction)
    else if c.subType == Wire.LeaveMessage && Peers(s)[c.index] != s.me.nickname && s.phase != Dead then
      Shrink(su, s, Peers(s)[c.index], world)
    else Done(s, NoAction)
  }

  /** The edges of the transition matrix. */
  datatype Edge = NoEdge | ToAuthAndReshare | ToInitSession | ToConfirmAuth | ToMarkConfirmed | ToReceive

  function EdgeOf(phase: Phase, packet: Packet): (edge: Edge)
    ensures edge == ToInitSession <==> packet.JoinRequest? && phase == InSession
    ensures edge == ToReceive <==>
      packet.Signed? && packet.content.InSessionMessage? && phase in {InSession, Dead, LeaveRequested}
    ensures edge == ToAuthAndReshare <==> packet.Signed? && packet.content.ParticipantsInfo? && phase == JoinRequested
    ensures edge == ToConfirmAuth <==> packet.Signed? && CarriesShare(packet.content) && phase == ReShared
    ensures edge == ToMarkConfirmed <==>
      packet.Signed? && packet.content.SessionConfirmation? && phase == GroupKeyGenerated
  {
    if packet.JoinRequest? then
      if phase == InSession then ToInitSession else NoEdge
    else if packet.content.InSessionMessage? then
      if phase in {InSession, Dead, LeaveRequested} then ToReceive else NoEdge
    else if packet.content.SessionConfirmation? then
      if phase == GroupKeyGenerated then ToMarkConfirmed else NoEdge
    else if phase == ReShared then ToConfirmAuth
    else if phase == JoinRequested && packet.content.ParticipantsInfo? then ToAuthAndReshare
    else NoEdge
  }

  /** `state_handler`. */
  function Handle(su: Suite, s: Sess, d: Delivery, world: Surroundings): Outcome
    requires WellFormed(s)
  {
    var edge := EdgeOf(s.phase, d.packet);
    if edge == NoEdge then Done(s, NoAction)
    else if edge == ToInitSession then InitWithNewUser(su, s, d, world)
    else if edge == ToReceive then Receive(su, s, d, world)
    else
      var error := SignatureError(s, d);
      if error.Some? then Threw(s, error.value)
      else if edge == ToAuthAndReshare then AuthAndReshare(su, s, d, world)
      else if edge == ToConfirmAuth then ConfirmAuth(su, s, d, world)
      else Done(MarkConfirmed(su, s, d), NoAction)
  }

  // ---------- the joiner's constructor ----------

  function TokenAt(su: Suite, s: Sess, i: nat): Block
    requires i < |s.roster|
  {
    TokenFor(su, s.me, s.ephemeral, s.roster[Peers(s)[i]])
  }

  /** One entry per member not authenticated to, under the member's index. */
  function BatchTable(su: Suite, s: Sess, count: nat): map<nat, Block>
    requires count <= |s.roster|
  {
    hide TokenAt, Sorted;
    map i: nat | i < count && !s.roster[Peers(s)[i]].authedTo :: TokenAt(su, s, i)
  }

  lemma BatchTableAt(su: Suite, s: Sess, count: nat, i: nat)
    requires count <= |s.roster|
    ensures i in BatchTable(su, s, count) <==> i < count && !s.roster[Peers(s)[i]].authedTo
    ensures i in BatchTable(su, s, count) ==> BatchTable(su, s, count)[i] == TokenAt(su, s, i)
  {
    hide TokenAt, Sorted;
  }

  lemma BatchTableNone(su: Suite, s: Sess)
    ensures BatchTable(su, s, 0) == map[]
  {
    hide TokenAt, Sorted;
  }

  lemma BatchTableNext(su: Suite, s: Sess, i: nat)
    requires i < |s.roster|
    ensures BatchTable(su, s, i + 1)
         == if s.roster[Peers(s)[i]].authedTo then BatchTable(su, s, i)
            else BatchTable(su, s, i)[i := TokenAt(su, s, i)]
  {
    hide TokenAt, Sorted;
    assert Peers(s)[i] in s.roster;
  }

  /** `joiner_send_auth_and_share`. */
  function JoinerSends(su: Suite, s: Sess): (r: Sess)
    requires WellFormed(s)
    ensures WellFormed(r) && r.roster.Keys == s.roster.Keys
  {
    hide OwnShare, BatchTable;
    var shared := WithOwnShare(su, s);
    var auth := JoinerAuth(BatchTable(su, shared, |s.roster|), shared.roster[s.me.nickname].share);
    shared.(outbox := shared.outbox + [Signed(s.ephemeral, s.sid, auth)])
  }

  /** The Session constructor for the joiner. */
  function Join(su: Suite, me: ParticipantId, ephemeral: Block, d: Delivery, world: Surroundings): Birth
    requires IsInfo(d)
  {
    var view := d.packet.content.view;
    if view == [] then Failed(BadFormat)
    else
      ListToMapKeys(view);
      var roster := ListToMap(view);
      if me.nickname !in roster then Failed(InvalidRoom)
      else
        var s := Populate(me, ephemeral, roster, map[], JoinRequested);
        match SignatureError(s, d)
        case Some(error) => Failed(error)
        case None =>
          match AuthAndReshare(su, JoinerSends(su, s), d, world)
          case Done(s', _) => Born(s')
          case Threw(_, error) => Failed(error)
          case Died(cause) => Fatal(cause)
  }
}
