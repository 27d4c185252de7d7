/** Any number of members running sessions over a broadcast channel in the hands of an adversary, who delivers
    what it likes, when and to whom it likes, but cannot sign with a key that only an honest member holds. */
module Network {
  import opened Bytes
  import opened Crypto
  import opened Participants
  import opened Sessions
  import opened SessionSteps
  import opened SessionInvariants
  import opened SessionBirths
  import opened SessionRuns

  /** A session object: its state, the messages it was given, and the id under which its room routes messages
      to it. That id is the one of the message for a joiner, and the session's own for everybody else. */
  datatype Node = Node(sess: Sess, heard: seq<Delivery>, route: Identity)

  type Net = seq<Node>

  /** The ephemeral keys held by one honest member each, with that member's nickname. */
  type Owners = map<Block, Nick>

  datatype Origin =
    | Joined(joiner: ParticipantId, joinerKey: Block, view: Delivery, during: Surroundings)
    | Conceived(conceiver: Conceiver, me: ParticipantId, ephemeral: Option<Block>, roster: Roster, parental: Roster,
                conceiving: Option<Delivery>, world: Surroundings)

  datatype NetEvent = Spawn(origin: Origin) | At(place: nat, event: Event)

  ghost predicate Proper(o: Origin) {
    match o
    case Joined(_, _, view, _) => IsInfo(view)
    case Conceived(_, _, _, roster, parental, _, _) => Consistent(roster) && Consistent(parental)
  }

  ghost function BirthFrom(su: Suite, o: Origin): Birth
    requires Proper(o)
  {
    match o
    case Joined(me, key, view, world) => Join(su, me, key, view, world)
    case Conceived(conceiver, me, ephemeral, roster, parental, conceiving, world) =>
      Conceive(su, conceiver, me, ephemeral, roster, parental, conceiving, world)
  }

  /** A view that completes the session it conceives: only a view of oneself alone, see OnlySoloViewCompletes. */
  ghost predicate Premature(o: Origin)
    requires Proper(o)
  {
    o.Conceived? && o.conceiver == Acceptor && o.me.nickname in o.roster
    && Complete(Seed(o.me, o.ephemeral, o.roster, o.parental), o.conceiving)
  }

  function NodeFrom(o: Origin, child: Sess): Node {
    match o
    case Joined(_, _, view, _) => Node(child, [view], if view.packet.Signed? then view.packet.sid else child.sid)
    case Conceived(_, _, _, _, _, _, _) => Node(child, [], child.sid)
  }

  ghost predicate Sent(net: Net, p: Packet) {
    exists j :: 0 <= j < |net| && p in net[j].sess.outbox
  }

  /** Signatures are unforgeable: a key exchange message under an honest key was sent by someone with that key. */
  ghost predicate Authentic(owners: Owners, net: Net, p: Packet) {
    p.Signed? && p.signer in owners && !p.content.InSessionMessage? ==> Sent(net, p)
  }

  ghost predicate OwnKey(owners: Owners, s: Sess) {
    s.ephemeral in owners ==> owners[s.ephemeral] == s.me.nickname
  }

  ghost predicate Allowed(su: Suite, owners: Owners, net: Net, e: NetEvent) {
    match e
    case Spawn(o) =>
      && Proper(o) && BirthFrom(su, o).Born? && !Premature(o) && OwnKey(owners, BirthFrom(su, o).child)
      && (o.Joined? ==> Authentic(owners, net, o.view.packet))
    case At(i, event) =>
      && i < |net| && WellFormed(net[i].sess)
      && (event.Deliver? ==>
            Authentic(owners, net, event.d.packet) && (event.d.packet.Signed? ==> event.d.packet.sid == net[i].route))
  }

  ghost function Next(su: Suite, owners: Owners, net: Net, e: NetEvent): Net
    requires Allowed(su, owners, net, e)
  {
    match e
    case Spawn(o) => net + [NodeFrom(o, BirthFrom(su, o).child)]
    case At(i, event) =>
      var heard := if event.Deliver? then net[i].heard + [event.d] else net[i].heard;
      net[i := net[i].(sess := Step(su, net[i].sess, event), heard := heard)]
  }

  /** The network these events lead to, from no session at all. */
  ghost predicate Reaches(su: Suite, owners: Owners, events: seq<NetEvent>, net: Net)
    decreases |events|
  {
    if events == [] then net == []
    else
      var last := |events| - 1;
      exists before :: Reaches(su, owners, events[..last], before)
                       && Allowed(su, owners, before, events[last]) && net == Next(su, owners, before, events[last])
  }

  // ---------- the invariant of the network ----------

  ghost predicate NodeInvariant(su: Suite, owners: Owners, net: Net, n: Node) {
    && Invariant(su, n.sess, n.heard) && OwnKey(owners, n.sess)
    && forall i :: 0 <= i < |n.heard| ==> HeardProperly(owners, net, n, n.heard[i])
  }

  /** Confirmations reach a node only with its id, and nothing forged does. */
  ghost predicate HeardProperly(owners: Owners, net: Net, n: Node, d: Delivery) {
    Authentic(owners, net, d.packet) && (IsConfirmation(d.packet) ==> d.packet.sid == n.route)
  }

  ghost predicate NetInvariant(su: Suite, owners: Owners, net: Net) {
    forall i :: 0 <= i < |net| ==> NodeInvariant(su, owners, net, net[i])
  }

  /** What was sent stays sent. */
  ghost predicate Grows(net: Net, after: Net) {
    |net| <= |after| && forall i :: 0 <= i < |net| ==> net[i].sess.outbox <= after[i].sess.outbox
  }

  lemma SentStays(net: Net, after: Net, p: Packet)
    requires Grows(net, after) && Sent(net, p)
    ensures Sent(after, p)
  {
    var j :| 0 <= j < |net| && p in net[j].sess.outbox;
    assert p in after[j].sess.outbox;
  }

  lemma HeardStays(owners: Owners, net: Net, after: Net, n: Node, m: Node)
    requires Grows(net, after) && m.route == n.route
    requires forall i :: 0 <= i < |n.heard| ==> HeardProperly(owners, net, n, n.heard[i])
    ensures forall i :: 0 <= i < |n.heard| ==> HeardProperly(owners, after, m, n.heard[i])
  {
    forall i | 0 <= i < |n.heard| ensures HeardProperly(owners, after, m, n.heard[i]) {
      assert HeardProperly(owners, net, n, n.heard[i]);
      if Sent(net, n.heard[i].packet) {
        SentStays(net, after, n.heard[i].packet);
      }
    }
  }

  lemma SpawnedNode(su: Suite, owners: Owners, net: Net, o: Origin)
    requires Allowed(su, owners, net, Spawn(o))
    ensures NodeInvariant(su, owners, net, NodeFrom(o, BirthFrom(su, o).child))
  {
    hide Join, Conceive, Invariant, Evolves, Genuine, Populate, Authentic;
    match o
    case Joined(me, key, view, world) =>
      JoinFacts(su, me, key, view, world);
    case Conceived(conceiver, me, ephemeral, roster, parental, conceiving, world) =>
      ConceiveFacts(su, conceiver, me, ephemeral, roster, parental, conceiving, world);
      hide WellFormed;
      SilentInvariant(su, BirthFrom(su, o).child);
  }

  lemma SteppedNode(su: Suite, owners: Owners, net: Net, i: nat, e: Event)
    requires NetInvariant(su, owners, net) && Allowed(su, owners, net, At(i, e))
    ensures Grows(net, Next(su, owners, net, At(i, e)))
    ensures NodeInvariant(su, owners, Next(su, owners, net, At(i, e)), Next(su, owners, net, At(i, e))[i])
  {
    hide Invariant, Step, Evolves, Authentic, WellFormed;
    assert NodeInvariant(su, owners, net, net[i]);
    var after := Next(su, owners, net, At(i, e));
    var n, m := net[i], after[i];
    StepKeeps(su, n.sess, n.heard, e);
    EvolvesSameOwner(n.sess, m.sess);
    EvolvesOutbox(n.sess, m.sess);
    assert Grows(net, after);
    HeardStays(owners, net, after, n, m);
    if e.Deliver? {
      HeardOne(owners, net, after, m, e.d);
    }
    assert OwnKey(owners, m.sess);
  }

  lemma HeardOne(owners: Owners, net: Net, after: Net, m: Node, d: Delivery)
    requires Grows(net, after) && HeardProperly(owners, net, m, d)
    ensures HeardProperly(owners, after, m, d)
  {
    if Sent(net, d.packet) {
      SentStays(net, after, d.packet);
    }
  }

  lemma EvolvesOutbox(s: Sess, t: Sess)
    requires Evolves(s, t)
    ensures s.outbox <= t.outbox
  {}

  lemma NextKeeps(su: Suite, owners: Owners, net: Net, e: NetEvent)
    requires NetInvariant(su, owners, net) && Allowed(su, owners, net, e)
    ensures NetInvariant(su, owners, Next(su, owners, net, e))
  {
    hide NodeInvariant, WellFormed, BirthFrom, Step, OwnKey, Authentic, Premature;
    var after := Next(su, owners, net, e);
    match e
    case Spawn(o) =>
      SpawnedNode(su, owners, net, o);
      assert Grows(net, after);
      OthersKeep(su, owners, net, after, |net|);
      NodeStays(su, owners, net, after, NodeFrom(o, BirthFrom(su, o).child));
    case At(i, event) =>
      SteppedNode(su, owners, net, i, event);
      OthersKeep(su, owners, net, after, i);
  }

  lemma NodeStays(su: Suite, owners: Owners, net: Net, after: Net, n: Node)
    requires Grows(net, after) && NodeInvariant(su, owners, net, n)
    ensures NodeInvariant(su, owners, after, n)
  {
    hide Invariant, HeardProperly;
    HeardStays(owners, net, after, n, n);
  }

  lemma OthersKeep(su: Suite, owners: Owners, net: Net, after: Net, moved: nat)
    requires NetInvariant(su, owners, net) && Grows(net, after)
    requires forall i :: 0 <= i < |net| && i != moved ==> after[i] == net[i]
    ensures forall i :: 0 <= i < |net| && i != moved ==> NodeInvariant(su, owners, after, after[i])
  {
    hide NodeInvariant;
    forall i | 0 <= i < |net| && i != moved ensures NodeInvariant(su, owners, after, after[i]) {
      NodeStays(su, owners, net, after, net[i]);
    }
  }

  lemma {:induction false} ReachesInvariant(su: Suite, owners: Owners, events: seq<NetEvent>, net: Net)
    requires Reaches(su, owners, events, net)
    ensures NetInvariant(su, owners, net)
    decreases |events|
  {
    hide Allowed, Next, NodeInvariant;
    if events != [] {
      var last := |events| - 1;
      var before :| Reaches(su, owners, events[..last], before)
                    && Allowed(su, owners, before, events[last]) && net == Next(su, owners, before, events[last]);
      ReachesInvariant(su, owners, events[..last], before);
      NextKeeps(su, owners, before, events[last]);
    }
  }

  // ---------- one object per owner and id ----------

  /** No object of this owner key and id has been made before. */
  ghost predicate FirstOfItsId(net: Net, child: Sess) {
    forall j :: 0 <= j < |net| && net[j].sess.ephemeral == child.ephemeral ==> net[j].sess.sid != child.sid
  }

  ghost predicate FreshStep(su: Suite, owners: Owners, net: Net, e: NetEvent)
    requires Allowed(su, owners, net, e)
  {
    e.Spawn? ==> FirstOfItsId(net, BirthFrom(su, e.origin).child)
  }

  /** A run in which no member starts a second object of one id under one ephemeral key: its keys are fresh, and its
      room does not start over. */
  ghost predicate FreshlyReaches(su: Suite, owners: Owners, events: seq<NetEvent>, net: Net)
    decreases |events|
  {
    if events == [] then net == []
    else
      var last := |events| - 1;
      exists before :: FreshlyReaches(su, owners, events[..last], before)
                       && Allowed(su, owners, before, events[last]) && FreshStep(su, owners, before, events[last])
                       && net == Next(su, owners, before, events[last])
  }

  ghost predicate Distinct(net: Net) {
    forall i, j :: 0 <= i < j < |net| ==>
      !(net[i].sess.ephemeral == net[j].sess.ephemeral && net[i].sess.sid == net[j].sess.sid)
  }

  lemma StepKeepsOwner(su: Suite, owners: Owners, net: Net, i: nat, e: Event)
    requires NetInvariant(su, owners, net) && Allowed(su, owners, net, At(i, e))
    ensures var after := Next(su, owners, net, At(i, e));
      && |after| == |net| && (forall j :: 0 <= j < |net| && j != i ==> after[j] == net[j])
      && after[i].sess.ephemeral == net[i].sess.ephemeral && after[i].sess.sid == net[i].sess.sid
  {
    hide Invariant, Step, Evolves, Authentic, WellFormed;
    assert NodeInvariant(su, owners, net, net[i]);
    StepKeeps(su, net[i].sess, net[i].heard, e);
    EvolvesSameOwner(net[i].sess, Step(su, net[i].sess, e));
  }

  /** Then no two objects share owner key and id. */
  lemma {:induction false} FreshFacts(su: Suite, owners: Owners, events: seq<NetEvent>, net: Net)
    requires FreshlyReaches(su, owners, events, net)
    ensures Reaches(su, owners, events, net) && Distinct(net)
    decreases |events|
  {
    hide FreshStep, Allowed, Next, NetInvariant, BirthFrom;
    if events != [] {
      var last := |events| - 1;
      var before :| FreshlyReaches(su, owners, events[..last], before)
                    && Allowed(su, owners, before, events[last]) && FreshStep(su, owners, before, events[last])
                    && net == Next(su, owners, before, events[last]);
      FreshFacts(su, owners, events[..last], before);
      ReachesInvariant(su, owners, events[..last], before);
      FreshStepKeeps(su, owners, before, events[last]);
    }
  }

  lemma FreshStepKeeps(su: Suite, owners: Owners, net: Net, e: NetEvent)
    requires NetInvariant(su, owners, net) && Distinct(net)
    requires Allowed(su, owners, net, e) && FreshStep(su, owners, net, e)
    ensures Distinct(Next(su, owners, net, e))
  {
    hide BirthFrom, Premature, Authentic, OwnKey, NetInvariant, Next, Allowed;
    if e.Spawn? {
      SpawnAppends(su, owners, net, e.origin);
    } else {
      StepKeepsOwner(su, owners, net, e.place, e.event);
    }
  }

  lemma SpawnAppends(su: Suite, owners: Owners, net: Net, o: Origin)
    requires Allowed(su, owners, net, Spawn(o))
    ensures Next(su, owners, net, Spawn(o)) == net + [NodeFrom(o, BirthFrom(su, o).child)]
    ensures NodeFrom(o, BirthFrom(su, o).child).sess == BirthFrom(su, o).child
  {
    hide BirthFrom, Premature, Authentic, OwnKey;
  }
}
