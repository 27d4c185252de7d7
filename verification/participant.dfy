/** Participants: their identity strings, the participant map with its union and difference, the session
    identity made from a map, and the pairwise authentication tokens. */
module Participants {
  import opened Bytes
  import opened Crypto

  type Nick = Bytes

  datatype ParticipantId = ParticipantId(nickname: Nick, fingerprint: Block)

  datatype UnauthenticatedParticipant =
    UnauthenticatedParticipant(id: ParticipantId, ephemeral: Block, authenticated: bool)

  /** What a session keeps about one member. */
  datatype Participant = Participant(
    id: ParticipantId,
    ephemeral: Block,
    future: Block,
    share: Block,
    authenticated: bool,
    authedTo: bool,
    contributed: bool)

  type Roster = map<Nick, Participant>

  /** The constructor from an UnauthenticatedParticipant: nothing is trusted, nothing contributed. */
  function FromUnauthenticated(u: UnauthenticatedParticipant): Participant {
    Participant(u.id, u.ephemeral, ZERO, ZERO, false, false, false)
  }

  ghost predicate Consistent(r: Roster) {
    forall k :: k in r ==> r[k].id.nickname == k
  }

  // ---------- printing and parsing ----------

  function IdString(id: ParticipantId): Bytes {
    id.nickname + id.fingerprint
  }

  /** The nickname is whatever precedes the last 32 bytes; shorter strings are malformed. */
  function ParseId(s: Bytes): Option<ParticipantId> {
    if |s| < HASH_LENGTH then None
    else Some(ParticipantId(s[..|s| - HASH_LENGTH], s[|s| - HASH_LENGTH..]))
  }

  function ParticipantString(u: UnauthenticatedParticipant): (s: Bytes)
    ensures |s| == |u.id.nickname| + 2 * HASH_LENGTH + 1
  {
    IdString(u.id) + u.ephemeral + [if u.authenticated then 1 else 0]
  }

  /** Nickname, fingerprint, ephemeral key and one flag byte, of which only the value 1 means true. */
  function ParseParticipant(s: Bytes): Option<UnauthenticatedParticipant> {
    if |s| < HASH_LENGTH + 1 then None
    else match ParseId(s[..|s| - HASH_LENGTH - 1])
      case None => None
      case Some(id) =>
        Some(UnauthenticatedParticipant(id, s[|s| - HASH_LENGTH - 1..|s| - 1], s[|s| - 1] == 1))
  }

  /** Nickname, long-term key, ephemeral key, flag: and it parses to itself. */
  lemma ParticipantRoundTrip(u: UnauthenticatedParticipant)
    ensures ParticipantString(u)
         == u.id.nickname + u.id.fingerprint + u.ephemeral + (if u.authenticated then [1] else [0])
    ensures ParseParticipant(ParticipantString(u)) == Some(u)
  {
    var s := ParticipantString(u);
    assert s[..|s| - HASH_LENGTH - 1] == IdString(u.id);
    assert IdString(u.id)[..|u.id.nickname|] == u.id.nickname;
    assert IdString(u.id)[|u.id.nickname|..] == u.id.fingerprint;
    assert s[|s| - HASH_LENGTH - 1..|s| - 1] == u.ephemeral;
  }

  // ---------- union and difference of participant maps ----------

  /** operator+: insertion never overwrites, so the left map wins. */
  function Plus(left: Roster, right: Roster): (r: Roster)
    ensures r.Keys == left.Keys + right.Keys
    ensures forall k :: k in left ==> r[k] == left[k]
    ensures forall k :: k in right && k !in left ==> r[k] == right[k]
  {
    right + left
  }

  /** operator-: an entry is removed when nickname and long-term key match; ephemeral keys are ignored. */
  function Minus(left: Roster, right: Roster): (r: Roster)
    ensures forall k :: k in r <==> k in left && !(k in right && left[k].id.fingerprint == right[k].id.fingerprint)
    ensures forall k :: k in r ==> r[k] == left[k]
  {
    map k | k in left && !(k in right && left[k].id.fingerprint == right[k].id.fingerprint) :: left[k]
  }

  /** operator< on participants. */
  predicate ParticipantLess(p: Participant, q: Participant) {
    Less(p.id.nickname, q.id.nickname) || Less(p.id.fingerprint, q.id.fingerprint)
  }

  /** operator< on map entries, which std::set_difference uses. */
  predicate EntryLess(k: Nick, p: Participant, l: Nick, q: Participant) {
    Less(k, l) || (!Less(l, k) && ParticipantLess(p, q))
  }

  /** The merge has consumed every entry of the right map that could match lefts[i]. */
  ghost predicate Passed(left: Roster, right: Roster, lefts: seq<Nick>, rights: seq<Nick>, i: nat, j: nat) {
    && Consistent(left) && Consistent(right)
    && (forall k :: k in left <==> k in lefts) && (forall k :: k in right <==> k in rights)
    && Ascending(lefts) && Ascending(rights)
    && j <= |rights|
    && (i < |lefts| ==> forall m :: 0 <= m < j ==>
          (Less(rights[m], lefts[i]) || (rights[m] == lefts[i] && lefts[i] in Minus(left, right))))
  }

  lemma MergeStarts(left: Roster, right: Roster)
    requires Consistent(left) && Consistent(right)
    ensures Passed(left, right, Sorted(left.Keys), Sorted(right.Keys), 0, 0)
  {
    SortedAscending(left.Keys);
    SortedAscending(right.Keys);
  }

  lemma MergeKeeps(left: Roster, right: Roster, lefts: seq<Nick>, rights: seq<Nick>, i: nat, j: nat)
    requires Passed(left, right, lefts, rights, i, j) && i < |lefts|
    requires j == |rights| || EntryLess(lefts[i], left[lefts[i]], rights[j], right[rights[j]])
    ensures lefts[i] in Minus(left, right)
    ensures j <= |rights| && Passed(left, right, lefts, rights, i + 1, j)
  {
    var k := lefts[i];
    LessTrichotomy(k, k);
    if k in right {
      var m :| 0 <= m < |rights| && rights[m] == k;
      if m >= j {
        LessTrichotomy(k, rights[j]);
        LessTrichotomy(left[k].id.fingerprint, right[rights[j]].id.fingerprint);
      }
    }
    StillPassed(lefts, rights, i, j);
  }

  lemma MergeSkips(left: Roster, right: Roster, lefts: seq<Nick>, rights: seq<Nick>, i: nat, j: nat)
    requires Passed(left, right, lefts, rights, i, j) && i < |lefts| && j < |rights|
    requires EntryLess(rights[j], right[rights[j]], lefts[i], left[lefts[i]])
    ensures Passed(left, right, lefts, rights, i, j + 1)
  {
    LessTrichotomy(lefts[i], rights[j]);
    LessTrichotomy(left[lefts[i]].id.fingerprint, right[rights[j]].id.fingerprint);
  }

  lemma MergeDrops(left: Roster, right: Roster, lefts: seq<Nick>, rights: seq<Nick>, i: nat, j: nat)
    requires Passed(left, right, lefts, rights, i, j) && i < |lefts| && j < |rights|
    requires !EntryLess(lefts[i], left[lefts[i]], rights[j], right[rights[j]])
    requires !EntryLess(rights[j], right[rights[j]], lefts[i], left[lefts[i]])
    ensures lefts[i] !in Minus(left, right)
    ensures Passed(left, right, lefts, rights, i + 1, j + 1)
  {
    LessTrichotomy(lefts[i], rights[j]);
    LessTrichotomy(left[lefts[i]].id.fingerprint, right[rights[j]].id.fingerprint);
    StillPassed(lefts, rights, i, j + 1);
  }

  /** What lies at or below one entry lies below the next. */
  lemma StillPassed(lefts: seq<Nick>, rights: seq<Nick>, i: nat, j: nat)
    requires Ascending(lefts) && i < |lefts| && j <= |rights|
    requires forall m :: 0 <= m < j ==> Less(rights[m], lefts[i]) || rights[m] == lefts[i]
    ensures i + 1 < |lefts| ==> forall m :: 0 <= m < j ==> Less(rights[m], lefts[i + 1])
  {
    if i + 1 < |lefts| {
      forall m | 0 <= m < j ensures Less(rights[m], lefts[i + 1]) {
        if rights[m] != lefts[i] {
          LessTransitive(rights[m], lefts[i], lefts[i + 1]);
        }
      }
    }
  }

  /** The entries of m among the first i listed keys. */
  ghost function Kept(m: Roster, keys: seq<Nick>, i: nat): (r: Roster)
    requires i <= |keys|
  {
    if i == 0 then map[]
    else if keys[i - 1] in m then Kept(m, keys, i - 1)[keys[i - 1] := m[keys[i - 1]]]
    else Kept(m, keys, i - 1)
  }

  lemma KeptNone(m: Roster, keys: seq<Nick>)
    ensures Kept(m, keys, 0) == map[]
  {}

  lemma KeptNext(m: Roster, keys: seq<Nick>, i: nat)
    requires i < |keys|
    ensures keys[i] in m ==> Kept(m, keys, i + 1) == Kept(m, keys, i)[keys[i] := m[keys[i]]]
    ensures keys[i] !in m ==> Kept(m, keys, i + 1) == Kept(m, keys, i)
  {}

  lemma {:induction false} KeptKeys(m: Roster, keys: seq<Nick>, i: nat)
    requires i <= |keys|
    ensures forall k :: k in Kept(m, keys, i) <==> k in m && k in keys[..i]
    ensures forall k :: k in Kept(m, keys, i) ==> Kept(m, keys, i)[k] == m[k]
  {
    if i > 0 {
      KeptKeys(m, keys, i - 1);
      assert keys[..i] == keys[..i - 1] + [keys[i - 1]];
    }
  }

  lemma KeptAll(m: Roster, keys: seq<Nick>)
    requires forall k :: k in m ==> k in keys
    ensures Kept(m, keys, |keys|) == m
  {
    KeptKeys(m, keys, |keys|);
    assert keys[..|keys|] == keys;
  }

  /** operator- as std::set_difference runs it: one merge over the two key-ordered maps. */
  method Difference(left: Roster, right: Roster) returns (r: Roster)
    requires Consistent(left) && Consistent(right)
    ensures r == Minus(left, right)
  {
    hide *;
    var lefts, rights := Sorted(left.Keys), Sorted(right.Keys);
    var i, j := 0, 0;
    r := map[];
    MergeStarts(left, right);
    KeptNone(Minus(left, right), lefts);
    while i < |lefts|
      invariant 0 <= i <= |lefts| && 0 <= j <= |rights| && Passed(left, right, lefts, rights, i, j)
      invariant r == Kept(Minus(left, right), lefts, i)
      decreases |lefts| - i + |rights| - j
    {
      var k := lefts[i];
      if j == |rights| || EntryLess(k, left[k], rights[j], right[rights[j]]) {
        MergeKeeps(left, right, lefts, rights, i, j);
        KeptNext(Minus(left, right), lefts, i);
        r := r[k := left[k]];
        i := i + 1;
      } else if EntryLess(rights[j], right[rights[j]], k, left[k]) {
        MergeSkips(left, right, lefts, rights, i, j);
        j := j + 1;
      } else {
        MergeDrops(left, right, lefts, rights, i, j);
        KeptNext(Minus(left, right), lefts, i);
        i, j := i + 1, j + 1;
      }
    }
    KeptAll(Minus(left, right), lefts);
  }

  // ---------- session identity ----------

  datatype Face = Face(fingerprint: Block, ephemeral: Block)

  /** Who a session is made of: what the session id is computed from. */
  type Identity = map<Nick, Face>

  function IdentityOf(r: Roster): (id: Identity)
    ensures id.Keys == r.Keys
  {
    map k | k in r :: Face(r[k].id.fingerprint, r[k].ephemeral)
  }

  function Entry(k: Nick, face: Face): Bytes {
    k + face.fingerprint + face.ephemeral
  }

  /** The entries of the listed members, one after the other. */
  function BlobAlong(id: Identity, nicks: seq<Nick>): Bytes
    requires forall k :: k in nicks ==> k in id
  {
    if |nicks| == 0 then [] else Entry(nicks[0], id[nicks[0]]) + BlobAlong(id, nicks[1..])
  }

  /** The string that is hashed into the session id. */
  function Blob(id: Identity): Bytes {
    BlobAlong(id, Sorted(id.Keys))
  }

  function SidBytes(su: Suite, id: Identity): Block {
    Hash(su, Blob(id))
  }

  lemma {:induction false} BlobAppends(id: Identity, nicks: seq<Nick>, k: Nick)
    requires k in id && forall n :: n in nicks ==> n in id
    ensures BlobAlong(id, nicks + [k]) == BlobAlong(id, nicks) + Entry(k, id[k])
  {
    hide Entry;
    if |nicks| == 0 {
      assert [k][1..] == [] && nicks + [k] == [k];
    } else {
      assert (nicks + [k])[1..] == nicks[1..] + [k];
      BlobAppends(id, nicks[1..], k);
    }
  }

  /** Erasing the flag byte of a printed participant leaves its entry. */
  lemma PrintedWithoutFlag(blob: Bytes, u: UnauthenticatedParticipant)
    ensures var s := blob + ParticipantString(u);
            s[..|s| - 1] == blob + Entry(u.id.nickname, Face(u.id.fingerprint, u.ephemeral))
  {}

  /** `SessionId::compute`: prints every member, dropping the authentication byte again. */
  method ComputeSessionId(su: Suite, plist: Roster) returns (sid: Block)
    requires Consistent(plist)
    ensures sid == SidBytes(su, IdentityOf(plist))
  {
    hide *;
    var nicks := Sorted(plist.Keys);
    var blob: Bytes := [];
    ghost var id := IdentityOf(plist);
    BlobStarts(su, id);
    for i := 0 to |nicks|
      invariant blob == BlobAlong(id, nicks[..i])
    {
      var p := plist[nicks[i]];
      var u := UnauthenticatedParticipant(p.id, p.ephemeral, p.authenticated);
      BlobAppends(id, nicks[..i], nicks[i]);
      FaceOf(plist, nicks[i]);
      assert nicks[..i + 1] == nicks[..i] + [nicks[i]];
      PrintedWithoutFlag(blob, u);
      blob := blob + ParticipantString(u);
      blob := blob[..|blob| - 1];
    }
    assert nicks[..|nicks|] == nicks;
    sid := Hash(su, blob);
  }

  lemma BlobStarts(su: Suite, id: Identity)
    ensures BlobAlong(id, []) == []
    ensures SidBytes(su, id) == Hash(su, BlobAlong(id, Sorted(id.Keys)))
  {}

  lemma FaceOf(r: Roster, k: Nick)
    requires k in r
    ensures IdentityOf(r)[k] == Face(r[k].id.fingerprint, r[k].ephemeral)
    ensures Consistent(r) ==> r[k].id.nickname == k
  {}

  function NickLengths(nicks: seq<Nick>): (lengths: seq<nat>)
    ensures |lengths| == |nicks|
    ensures forall i :: 0 <= i < |nicks| ==> lengths[i] == |nicks[i]|
  {
    seq(|nicks|, i requires 0 <= i < |nicks| => |nicks[i]|)
  }

  lemma {:induction false} BlobAlongBinds(a: Identity, p: seq<Nick>, b: Identity, q: seq<Nick>)
    requires (forall k :: k in p ==> k in a) && (forall k :: k in q ==> k in b)
    requires NickLengths(p) == NickLengths(q) && BlobAlong(a, p) == BlobAlong(b, q)
    ensures p == q && forall k :: k in p ==> a[k] == b[k]
  {
    if |p| > 0 {
      assert |p| == |NickLengths(p)| == |q| && NickLengths(p)[0] == NickLengths(q)[0];
      var x, y := BlobAlong(a, p), BlobAlong(b, q);
      var n := |p[0]|;
      assert x[..n] == p[0] && y[..n] == q[0];
      assert x[n..n + 32] == a[p[0]].fingerprint && y[n..n + 32] == b[q[0]].fingerprint;
      assert x[n + 32..n + 64] == a[p[0]].ephemeral && y[n + 32..n + 64] == b[q[0]].ephemeral;
      assert x[n + 64..] == BlobAlong(a, p[1..]) && y[n + 64..] == BlobAlong(b, q[1..]);
      forall i | 0 <= i < |p| - 1 ensures NickLengths(p[1..])[i] == NickLengths(q[1..])[i] {
        assert NickLengths(p)[i + 1] == NickLengths(q)[i + 1];
      }
      BlobAlongBinds(a, p[1..], b, q[1..]);
      assert p == [p[0]] + p[1..] && q == [q[0]] + q[1..];
    }
  }

  /** The string has no delimiter: it determines the members exactly when the nickname lengths are known. */
  lemma BlobBindsIff(a: Identity, b: Identity)
    ensures a == b <==> Blob(a) == Blob(b) && NickLengths(Sorted(a.Keys)) == NickLengths(Sorted(b.Keys))
  {
    if Blob(a) == Blob(b) && NickLengths(Sorted(a.Keys)) == NickLengths(Sorted(b.Keys)) {
      BlobAlongBinds(a, Sorted(a.Keys), b, Sorted(b.Keys));
      assert a.Keys == b.Keys by {
        forall k ensures k in a <==> k in b {
          assert k in a <==> k in Sorted(a.Keys);
        }
      }
    }
  }

  /** So two session ids are the same exactly for the same members under the same keys, where the lengths of the
      nicknames are the same and the two strings do not collide. */
  lemma SidBindsIff(su: Suite, a: Identity, b: Identity)
    requires NickLengths(Sorted(a.Keys)) == NickLengths(Sorted(b.Keys))
    requires Hash(su, Blob(a)) == Hash(su, Blob(b)) ==> Blob(a) == Blob(b)
    ensures SidBytes(su, a) == SidBytes(su, b) <==> a == b
  {
    hide Blob;
    BlobBindsIff(a, b);
  }

  lemma BlobOfOne(id: Identity, k: Nick)
    requires k in id
    ensures BlobAlong(id, [k]) == Entry(k, id[k])
  {
    assert [k][1..] == [];
    assert Entry(k, id[k]) + [] == Entry(k, id[k]);
  }

  /** Without the lengths it does not: one member with a long nickname reads like two members. */
  lemma BlobAmbiguous()
    ensures exists a: Identity, b: Identity :: a != b && Blob(a) == Blob(b)
  {
    var face := Face(ZERO, ZERO);
    var left, right: Nick := [97], [98];
    var long: Nick := left + ZERO + ZERO + right;
    var one: Identity, two: Identity := map[long := face], map[left := face, right := face];
    SortedAscending(one.Keys);
    SortedAscending(two.Keys);
    AscendingUnique(Sorted(one.Keys), [long]);
    AscendingUnique(Sorted(two.Keys), [left, right]);
    BlobOfOne(one, long);
    BlobOfOne(two, right);
    assert [left, right][1..] == [right];
    assert Blob(two) == Entry(left, face) + Entry(right, face);
    assert Entry(long, face) == Entry(left, face) + Entry(right, face);
    assert left in two && left !in one;
    assert one != two && Blob(one) == Blob(two);
  }

  // ---------- views ----------

  /** `participants_list_to_map`: the first entry of a nickname stays, its flag is the last one seen. */
  function ListToMap(view: seq<UnauthenticatedParticipant>): Roster {
    if |view| == 0 then map[] else Enlist(ListToMap(view[..|view| - 1]), view[|view| - 1])
  }

  function Enlist(r: Roster, u: UnauthenticatedParticipant): Roster {
    var n := u.id.nickname;
    var p := if n in r then r[n] else FromUnauthenticated(u);
    r[n := p.(authenticated := u.authenticated)]
  }

  method ParticipantsListToMap(view: seq<UnauthenticatedParticipant>) returns (r: Roster)
    ensures r == ListToMap(view)
  {
    r := map[];
    for i := 0 to |view|
      invariant r == ListToMap(view[..i])
    {
      var n := view[i].id.nickname;
      if n !in r {
        r := r[n := FromUnauthenticated(view[i])];
      }
      r := r[n := r[n].(authenticated := view[i].authenticated)];
      assert view[..i + 1][..i] == view[..i];
    }
    assert view[..|view|] == view;
  }

  ghost predicate DistinctNicks(view: seq<UnauthenticatedParticipant>) {
    forall i, j :: 0 <= i < j < |view| ==> view[i].id.nickname != view[j].id.nickname
  }

  /** A list that names every member once, in any order and with any flags. */
  ghost predicate ListsMembers(view: seq<UnauthenticatedParticipant>, id: Identity) {
    && DistinctNicks(view)
    && (forall i :: 0 <= i < |view| ==> view[i].id.nickname in id)
    && (forall i :: 0 <= i < |view| ==>
          id[view[i].id.nickname] == Face(view[i].id.fingerprint, view[i].ephemeral))
    && (forall k :: k in id ==> exists i :: 0 <= i < |view| && view[i].id.nickname == k)
  }

  ghost predicate Named(view: seq<UnauthenticatedParticipant>, k: Nick) {
    exists i :: 0 <= i < |view| && view[i].id.nickname == k
  }

  lemma NamedInPrefix(view: seq<UnauthenticatedParticipant>, k: Nick)
    requires |view| > 0
    ensures Named(view, k) <==> Named(view[..|view| - 1], k) || view[|view| - 1].id.nickname == k
  {
    var front := view[..|view| - 1];
    if i :| 0 <= i < |view| && view[i].id.nickname == k {
      assert i < |front| ==> front[i].id.nickname == k;
    }
    if i :| 0 <= i < |front| && front[i].id.nickname == k {
      assert view[i].id.nickname == k;
    }
  }

  lemma {:induction false} ListToMapKeys(view: seq<UnauthenticatedParticipant>)
    ensures Consistent(ListToMap(view))
    ensures forall k :: k in ListToMap(view) <==> Named(view, k)
    ensures forall k :: k in ListToMap(view) ==> !ListToMap(view)[k].contributed && !ListToMap(view)[k].authedTo
  {
    if |view| > 0 {
      ListToMapKeys(view[..|view| - 1]);
      forall k ensures k in ListToMap(view) <==> Named(view, k) {
        NamedInPrefix(view, k);
      }
    }
  }

  lemma {:induction false} ListToMapEntry(view: seq<UnauthenticatedParticipant>, i: nat)
    requires DistinctNicks(view) && i < |view|
    ensures view[i].id.nickname in ListToMap(view)
    ensures ListToMap(view)[view[i].id.nickname]
         == FromUnauthenticated(view[i]).(authenticated := view[i].authenticated)
  {
    var front := view[..|view| - 1];
    ListToMapKeys(front);
    if i < |front| {
      ListToMapEntry(front, i);
      assert view[i].id.nickname != view[|view| - 1].id.nickname;
    }
  }

  /** Session view preserves identity: the receiver rebuilds the same members, hence the same session id
      and the same peer order, for any order of the list and any flags. */
  lemma ViewPreservesIdentity(view: seq<UnauthenticatedParticipant>, id: Identity)
    requires ListsMembers(view, id)
    ensures IdentityOf(ListToMap(view)) == id
    ensures Sorted(ListToMap(view).Keys) == Sorted(id.Keys)
  {
    hide Sorted, ListToMap;
    ListToMapKeys(view);
    var r := ListToMap(view);
    assert r.Keys == id.Keys;
    forall k | k in id ensures IdentityOf(r)[k] == id[k] {
      var i :| 0 <= i < |view| && view[i].id.nickname == k;
      ListToMapEntry(view, i);
    }
  }

  function Shown(p: Participant): UnauthenticatedParticipant {
    UnauthenticatedParticipant(p.id, p.ephemeral, p.authenticated)
  }

  /** `session_view`: the members in peer order. */
  function SessionView(r: Roster): (view: seq<UnauthenticatedParticipant>)
    ensures |view| == |r|
    ensures forall i :: 0 <= i < |view| ==> view[i] == Shown(r[Sorted(r.Keys)[i]])
  {
    var peers := Sorted(r.Keys);
    seq(|peers|, i requires 0 <= i < |peers| => Shown(r[peers[i]]))
  }

  lemma SessionViewListsMembers(r: Roster)
    requires Consistent(r)
    ensures ListsMembers(SessionView(r), IdentityOf(r))
  {
    var peers, view := Sorted(r.Keys), SessionView(r);
    hide Sorted, SessionView, Less, IdentityOf, Consistent;
    forall i | 0 <= i < |view| ensures view[i].id.nickname == peers[i] {
      FaceOf(r, peers[i]);
    }
    forall i, j | 0 <= i < j < |view| ensures view[i].id.nickname != view[j].id.nickname {
      SortedDistinct(r.Keys, i, j);
    }
    forall i | 0 <= i < |view|
      ensures IdentityOf(r)[view[i].id.nickname] == Face(view[i].id.fingerprint, view[i].ephemeral)
    {
      FaceOf(r, peers[i]);
    }
    forall k | k in r ensures exists i :: 0 <= i < |view| && view[i].id.nickname == k {
      assert k in peers;
      var i :| 0 <= i < |peers| && peers[i] == k;
      assert view[i].id.nickname == k;
    }
  }

  /** The receiver of a view has every member as the sender has it: name, keys and whether it is authenticated; and
      nobody's share. */
  lemma ViewCarries(r: Roster)
    requires Consistent(r)
    ensures ListToMap(SessionView(r)).Keys == r.Keys
    ensures forall k :: k in r ==>
      var p := ListToMap(SessionView(r))[k];
      && p.id == r[k].id && p.ephemeral == r[k].ephemeral && p.authenticated == r[k].authenticated
      && !p.contributed && !p.authedTo
  {
    hide Sorted, ListToMap, IdentityOf, SessionView, FromUnauthenticated, ListsMembers, Consistent, DistinctNicks;
    var view := SessionView(r);
    SessionViewListsMembers(r);
    ViewPreservesIdentity(view, IdentityOf(r));
    assert ListToMap(view).Keys == IdentityOf(ListToMap(view)).Keys;
    forall k | k in r
      ensures ListToMap(view)[k] == FromUnauthenticated(Shown(r[k])).(authenticated := Shown(r[k]).authenticated)
    {
      var i := PlaceInView(r, k);
      ListedApart(view, IdentityOf(r));
      ListToMapEntry(view, i);
    }
    CarriedFlags();
  }

  lemma ListedApart(view: seq<UnauthenticatedParticipant>, id: Identity)
    requires ListsMembers(view, id)
    ensures DistinctNicks(view)
  {}

  lemma PlaceInView(r: Roster, k: Nick) returns (i: nat)
    requires Consistent(r) && k in r
    ensures i < |SessionView(r)| && SessionView(r)[i] == Shown(r[k]) && SessionView(r)[i].id.nickname == k
  {
    hide Sorted, SessionView, Less;
    var peers := Sorted(r.Keys);
    assert k in peers;
    i :| 0 <= i < |peers| && peers[i] == k;
  }

  lemma CarriedFlags()
    ensures forall u :: var p := FromUnauthenticated(u);
      p.id == u.id && p.ephemeral == u.ephemeral && !p.contributed && !p.authedTo
  {}

  // ---------- pairwise authentication ----------

  /** `authenticate_to` and the check of `be_authenticated` hash the pairwise key with the verifier's identity. */
  function AuthToken(su: Suite, pairKey: Block, verifier: ParticipantId): Block {
    Hash(su, pairKey + IdString(verifier))
  }

  /** The token `me` sends to `peer`. */
  function TokenFor(su: Suite, me: ParticipantId, myEphemeral: Block, peer: Participant): Block {
    AuthToken(su, PairKey(su, me.fingerprint, myEphemeral, peer.id.fingerprint, peer.ephemeral), peer.id)
  }

  /** `be_authenticated` at `me`, for a token presented by `peer`. */
  predicate Accepts(su: Suite, me: ParticipantId, myEphemeral: Block, peer: Participant, token: Block) {
    AuthToken(su, PairKey(su, me.fingerprint, myEphemeral, peer.id.fingerprint, peer.ephemeral), me) == token
  }

  /** Authentication for one pair: the verifier accepts what the other end made for it, and no other token. */
  lemma TokenAccepted(su: Suite, prover: ParticipantId, proverEphemeral: Block, verifier: ParticipantId,
                      verifierEphemeral: Block, verifierSeen: Participant, proverSeen: Participant)
    requires prover.fingerprint != verifier.fingerprint
    requires verifierSeen.id == verifier && verifierSeen.ephemeral == verifierEphemeral
    requires proverSeen.id == prover && proverSeen.ephemeral == proverEphemeral
    ensures forall token: Block :: Accepts(su, verifier, verifierEphemeral, proverSeen, token)
                              <==> token == TokenFor(su, prover, proverEphemeral, verifierSeen)
  {
    PairSlotsSymmetric(su, prover.fingerprint, proverEphemeral, verifier.fingerprint, verifierEphemeral);
  }

  /** The pairwise key an owner has with a member on its list. */
  function KeyWith(su: Suite, me: ParticipantId, myEphemeral: Block, peer: Participant): Block {
    PairKey(su, me.fingerprint, myEphemeral, peer.id.fingerprint, peer.ephemeral)
  }

  /** What a token is made of: the pairwise key and the name and long-term key of the member it is for. */
  function TokenString(pairKey: Block, verifier: ParticipantId): (s: Bytes)
    ensures |s| == 2 * HASH_LENGTH + |verifier.nickname|
  {
    pairKey + verifier.nickname + verifier.fingerprint
  }

  lemma TokenStringBinds(k: Block, a: ParticipantId, l: Block, b: ParticipantId)
    ensures TokenString(k, a) == TokenString(l, b) <==> k == l && a == b
  {
    var s, t := TokenString(k, a), TokenString(l, b);
    assert s[..HASH_LENGTH] == k && t[..HASH_LENGTH] == l;
    assert s[|s| - HASH_LENGTH..] == a.fingerprint && t[|t| - HASH_LENGTH..] == b.fingerprint;
    assert s[HASH_LENGTH..|s| - HASH_LENGTH] == a.nickname && t[HASH_LENGTH..|t| - HASH_LENGTH] == b.nickname;
  }

  /** A token is good for one pair and one direction: where the two strings do not collide, an owner accepts what was
      made for a member exactly when it is that member and the pairwise keys agree. */
  lemma TokenBindsIff(su: Suite, maker: ParticipantId, makerEphemeral: Block, member: Participant,
                      owner: ParticipantId, ownerEphemeral: Block, seen: Participant)
    requires var made := TokenString(KeyWith(su, maker, makerEphemeral, member), member.id);
             var expected := TokenString(KeyWith(su, owner, ownerEphemeral, seen), owner);
             Hash(su, made) == Hash(su, expected) ==> made == expected
    ensures Accepts(su, owner, ownerEphemeral, seen, TokenFor(su, maker, makerEphemeral, member))
       <==> owner == member.id
            && KeyWith(su, owner, ownerEphemeral, seen) == KeyWith(su, maker, makerEphemeral, member)
  {
    hide PairKey, TokenString;
    var k, l := KeyWith(su, maker, makerEphemeral, member), KeyWith(su, owner, ownerEphemeral, seen);
    TokenStringBinds(k, member.id, l, owner);
    TokenStringIs(k, member.id);
    TokenStringIs(l, owner);
  }

  lemma TokenStringIs(k: Block, id: ParticipantId)
    ensures k + IdString(id) == TokenString(k, id)
  {}

  /** So its own maker does not take it back as a proof of the other's identity. */
  lemma OwnTokenRefused(su: Suite, maker: ParticipantId, makerEphemeral: Block, member: Participant)
    requires maker != member.id
    requires var key := KeyWith(su, maker, makerEphemeral, member);
             Hash(su, TokenString(key, member.id)) != Hash(su, TokenString(key, maker))
    ensures !Accepts(su, maker, makerEphemeral, member, TokenFor(su, maker, makerEphemeral, member))
  {
    TokenBindsIff(su, maker, makerEphemeral, member, maker, makerEphemeral, member);
  }

  /** Tokens made for members of different long-term keys are different, whatever the pairwise keys. */
  ghost predicate TokensBind(su: Suite) {
    forall k: Block, l: Block, a: ParticipantId, b: ParticipantId ::
      Hash(su, TokenString(k, a)) == Hash(su, TokenString(l, b)) ==> a.fingerprint == b.fingerprint
  }

  /** There is such a suite. */
  lemma TokensCanBind()
    ensures exists su: Suite :: TokensBind(su)
  {
    var p: Primitives := EXAMPLE.(hash := m => if |m| >= HASH_LENGTH then m[|m| - HASH_LENGTH..] else ZERO);
    assert Sound(p);
    var su: Suite := p;
    forall k: Block, a: ParticipantId ensures Hash(su, TokenString(k, a)) == a.fingerprint {}
    assert TokensBind(su);
  }

  /** `compare_hash`: folds the XOR of all bytes into one accumulator. */
  method CompareHash(a: Block, b: Block) returns (differ: bool)
    ensures differ <==> a != b
  {
    differ := false;
    for i := 0 to HASH_LENGTH
      invariant differ <==> exists k :: 0 <= k < i && a[k] != b[k]
    {
      XorEqualIff(a[i], b[i]);
      if Xor(a[i], b[i]) != 0 {
        differ := true;
      }
    }
    assert differ || a == b;
  }

  lemma XorEqualIff(a: Byte, b: Byte)
    ensures Xor(a, b) == 0 <==> a == b
  {
    XorSelf(a);
    if Xor(a, b) == 0 {
      XorAssociates(a, a, b);
      XorZero(a);
      XorZero(b);
      XorCommutes(0, b);
    }
  }
}
