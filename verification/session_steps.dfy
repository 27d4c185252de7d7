/** What a session does with one message, reduced to a handful of moves, and what every move keeps. */
module SessionSteps {
  import opened Bytes
  import opened Crypto
  import opened Participants
  import opened Sessions
  import Wire

  /** Stay: nothing changes. Take: a member's share is stored, its authentication raised when `vouched`, and a
      confirmation goes out if that was all that lacked. Mark: a confirmation arrives. Shed: a member leaves.
      Expire: everybody has farewelled. */
  datatype Move = Stay | Take(share: Block, vouched: bool) | Mark | Shed(leaver: Nick) | Expire

  /** The session a step leaves behind, exception or not. */
  function After(s: Sess, outcome: Outcome): Sess {
    match outcome
    case Done(t, _) => t
    case Threw(t, _) => t
    case Died(_) => s
  }

  function Taken(s: Sess, k: Nick, share: Block, vouched: bool): (t: Sess)
    requires k in s.roster
    ensures WellFormed(s) ==> WellFormed(t)
  {
    var p := s.roster[k];
    s.(roster := s.roster[k := p.(share := share, contributed := true, authenticated := vouched || p.authenticated)])
  }

  /** The signature verifies under the key the session has for the sender. */
  predicate FromMember(s: Sess, d: Delivery) {
    d.packet.Signed? && d.sender in s.roster && d.packet.signer == s.roster[d.sender].ephemeral
  }

  /** The token of a message meant for the owner of the session, where it carries one. */
  function TokenFound(s: Sess, c: Content): Option<Block>
    requires WellFormed(s)
  {
    if c.ParticipantsInfo? && s.phase == JoinRequested then Some(c.token)
    else if c.JoinerAuth? && MyIndex(s) in c.table then Some(c.table[MyIndex(s)])
    else None
  }

  /** An in-session message the owner of a session can read: encrypted under its session key, and signed with the key
      of the member k at k's own index. */
  predicate Readable(s: Sess, d: Delivery, k: Nick) {
    && d.packet.Signed? && d.packet.content.InSessionMessage? && d.packet.content.encryptedWith == s.key
    && k in s.roster && d.packet.content.index == IndexIn(s, k) && d.packet.signer == s.roster[k].ephemeral
  }

  /** Another member, not yet known to be leaving, tells a session in session that it leaves. */
  predicate Leaves(s: Sess, d: Delivery, k: Nick) {
    && s.phase == InSession && Readable(s, d, k) && d.packet.content.subType == Wire.LeaveMessage
    && k != s.me.nickname && k !in s.zombies
  }

  /** When a message may cause a move. A share that comes with a token is stored only if the token is accepted. */
  ghost predicate Legal(su: Suite, s: Sess, d: Delivery, m: Move)
    requires WellFormed(s)
  {
    match m
    case Stay => true
    case Take(share, vouched) =>
      && FromMember(s, d) && CarriesShare(d.packet.content) && share == ShareIn(d.packet.content)
      && (s.phase == ReShared || (s.phase == JoinRequested && IsInfo(d)))
      && vouched == TokenFound(s, d.packet.content).Some?
      && (vouched ==> Accepts(su, s.me, s.ephemeral, s.roster[d.sender], TokenFound(s, d.packet.content).value))
    case Mark => FromMember(s, d) && d.packet.content.SessionConfirmation? && s.phase == GroupKeyGenerated
    case Shed(leaver) => Leaves(s, d, leaver)
    case Expire => s.phase == LeaveRequested && exists k :: Readable(s, d, k)
  }

  ghost function Apply(su: Suite, s: Sess, d: Delivery, world: Surroundings, m: Move): (t: Sess)
    requires WellFormed(s) && Legal(su, s, d, m)
  {
    match m
    case Stay => s
    case Take(share, vouched) => ConfirmIfReady(su, Taken(s, d.sender, share, vouched), world).0
    case Mark => MarkConfirmed(su, s, d)
    case Shed(leaver) => s.(zombies := s.zombies[leaver := s.roster[leaver]])
    case Expire => s.(phase := Dead)
  }

  lemma ReadableIs(s: Sess, d: Delivery, k: Nick)
    requires Readable(s, d, k)
    ensures d.packet.Signed? && d.packet.content.InSessionMessage? && k in s.roster
  {}

  lemma MarkMove(su: Suite, s: Sess, d: Delivery)
    requires WellFormed(s) && Legal(su, s, d, Mark)
    ensures FromMember(s, d) && d.packet.content.SessionConfirmation? && s.phase == GroupKeyGenerated
  {}

  lemma ShedMove(su: Suite, s: Sess, d: Delivery, leaver: Nick)
    requires WellFormed(s) && Legal(su, s, d, Shed(leaver))
    ensures leaver in s.roster && s.phase == InSession
  {}

  lemma ExpireMove(su: Suite, s: Sess, d: Delivery)
    requires WellFormed(s) && Legal(su, s, d, Expire)
    ensures s.phase == LeaveRequested
  {}

  lemma StoredIsTaken(s: Sess, k: Nick, share: Block)
    requires k in s.roster
    ensures WithShare(s, k, share) == Taken(s, k, share, false)
  {}

  lemma VouchedIsTaken(su: Suite, s: Sess, k: Nick, token: Block, share: Block)
    requires WellFormed(s) && k in s.roster
    ensures var r := Authenticate(su, s, k, token);
            && (r.Some? <==> Accepts(su, s.me, s.ephemeral, s.roster[k], token))
            && (r.Some? ==> k in r.value.roster && WithShare(r.value, k, share) == Taken(s, k, share, true))
  {
    hide Accepts, WellFormed;
    var p := s.roster[k];
    var q := p.(authenticated := true);
    var stored := q.(share := share, contributed := true);
    assert s.roster[k := q][k := stored] == s.roster[k := stored];
  }

  lemma AuthAndReshareMoves(su: Suite, s: Sess, d: Delivery, world: Surroundings) returns (m: Move)
    requires WellFormed(s) && IsInfo(d) && FromMember(s, d) && s.phase == JoinRequested
    ensures Legal(su, s, d, m) && m in {Stay, Take(d.packet.content.infoShare, true)}
    ensures After(s, AuthAndReshare(su, s, d, world)) == Apply(su, s, d, world, m)
  {
    hide ConfirmIfReady, Accepts, MyIndex, Authenticate, WithShare, Taken, WellFormed;
    var c := d.packet.content;
    VouchedIsTaken(su, s, d.sender, c.token, c.infoShare);
    m := if Authenticate(su, s, d.sender, c.token) == None then Stay else Take(c.infoShare, true);
  }

  lemma ConfirmAuthMoves(su: Suite, s: Sess, d: Delivery, world: Surroundings) returns (m: Move)
    requires WellFormed(s) && FromMember(s, d) && CarriesShare(d.packet.content) && s.phase == ReShared
    ensures Legal(su, s, d, m) && (m == Stay || m.Take?)
    ensures After(s, ConfirmAuth(su, s, d, world)) == Apply(su, s, d, world, m)
  {
    hide ConfirmIfReady, Accepts, MyIndex, Authenticate, WithShare, Taken, WellFormed;
    var c := d.packet.content;
    if c.JoinerAuth? && MyIndex(s) in c.table {
      var token := c.table[MyIndex(s)];
      VouchedIsTaken(su, s, d.sender, token, ShareIn(c));
      m := if Authenticate(su, s, d.sender, token) == None then Stay else Take(ShareIn(c), true);
    } else {
      StoredIsTaken(s, d.sender, ShareIn(c));
      m := Take(ShareIn(c), false);
    }
  }

  lemma ShrinkAfter(su: Suite, s: Sess, leaver: Nick, world: Surroundings)
    requires WellFormed(s)
    ensures leaver !in s.roster || leaver in s.zombies ==> Shrink(su, s, leaver, world) == Done(s, NoAction)
    ensures leaver in s.roster && leaver !in s.zombies && !Shrink(su, s, leaver, world).Died? ==>
      After(s, Shrink(su, s, leaver, world)) == s.(zombies := s.zombies[leaver := s.roster[leaver]])
  {
    hide Conceive, FutureRoster;
  }

  lemma IndexNames(s: Sess, i: nat)
    requires i < |s.roster|
    ensures Peers(s)[i] in s.roster && IndexIn(s, Peers(s)[i]) == i
  {
    hide Sorted;
    assert |s.roster.Keys| == |s.roster|;
    SortedIndex(s.roster.Keys, i);
  }

  lemma ReceiveMoves(su: Suite, s: Sess, d: Delivery, world: Surroundings) returns (m: Move)
    requires WellFormed(s) && d.packet.Signed? && d.packet.content.InSessionMessage?
    requires s.phase in {InSession, Dead, LeaveRequested}
    ensures Legal(su, s, d, m) && (m.Stay? || m.Shed? || m.Expire?)
    ensures After(s, Receive(su, s, d, world)) == Apply(su, s, d, world, m)
  {
    hide Shrink, Peers, IndexIn, WellFormed;
    var c := d.packet.content;
    m := Stay;
    if c.encryptedWith == s.key && c.index < |s.roster| && d.packet.signer == s.roster[Peers(s)[c.index]].ephemeral {
      var leaver := Peers(s)[c.index];
      IndexNames(s, c.index);
      assert Readable(s, d, leaver);
      ShrinkAfter(su, s, leaver, world);
      if s.phase == LeaveRequested {
        m := if world.farewelled then Expire else Stay;
      } else if c.subType == Wire.LeaveMessage && leaver != s.me.nickname && s.phase != Dead
                && leaver !in s.zombies && !Shrink(su, s, leaver, world).Died? {
        m := Shed(leaver);
      }
    }
  }

  /** Whatever a message makes `state_handler` do is one of the moves. */
  lemma HandleMoves(su: Suite, s: Sess, d: Delivery, world: Surroundings) returns (m: Move)
    requires WellFormed(s)
    ensures Legal(su, s, d, m)
    ensures After(s, Handle(su, s, d, world)) == Apply(su, s, d, world, m)
  {
    hide AuthAndReshare, ConfirmAuth, MarkConfirmed, Receive, MyIndex, Accepts, ConfirmIfReady, Conceive;
    var edge := EdgeOf(s.phase, d.packet);
    m := Stay;
    if edge == ToReceive {
      m := ReceiveMoves(su, s, d, world);
    } else if edge != NoEdge && edge != ToInitSession && SignatureError(s, d) == None {
      if edge == ToAuthAndReshare {
        m := AuthAndReshareMoves(su, s, d, world);
      } else if edge == ToConfirmAuth {
        m := ConfirmAuthMoves(su, s, d, world);
      } else {
        m := Mark;
      }
    }
  }
}
