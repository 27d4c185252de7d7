/** From session to session over the wire: what one session says, printed and parsed, is what another handles. */
module Carriage {
  import opened Bytes
  import opened Crypto
  import opened Participants
  import opened Sessions
  import Wire

  /** The body that carries a content; a joiner's tokens travel as a batch. */
  function BodyOf(c: Content, batch: Bytes): Wire.Body
    requires !c.InSessionMessage?
  {
    match c
    case ParticipantsInfo(view, token, share) => Wire.Info(view, token, share)
    case JoinerAuth(table, share) => Wire.Auth(batch, table, share)
    case GroupShare(share) => Wire.Share(share)
    case SessionConfirmation(confirmation, nextKey) => Wire.Confirmation(confirmation, nextKey)
  }

  /** What the receiver makes of a body. */
  function ContentOf(body: Wire.Body): Option<Content> {
    match body
    case Info(view, token, share) => if |token| == HASH_LENGTH then Some(ParticipantsInfo(view, token, share)) else None
    case Auth(_, table, share) => Some(JoinerAuth(table, share))
    case Share(share) => Some(GroupShare(share))
    case Confirmation(confirmation, nextKey) => Some(SessionConfirmation(confirmation, nextKey))
  }

  /** The batch is one of the table, and everything fits the length fields. */
  ghost predicate Fits(c: Content, batch: Bytes) {
    match c
    case ParticipantsInfo(view, _, _) => Wire.ShortNicks(view) && |Wire.ViewString(view)| < 0x1_0000_0000
    case JoinerAuth(table, _) => |batch| < 0x1_0000_0000 && Wire.ParseTable(batch) == Some(table)
    case _ => true
  }

  /** What is sent arrives: the parser finds the session id, the very bytes that were signed under the sender's
      signature, and a body that reads as the content. */
  lemma PacketCrosses(su: Suite, signer: Block, sid: Identity, c: Content, batch: Bytes)
    requires !c.InSessionMessage? && Fits(c, batch)
    ensures var raw := Wire.PrintSigned(su, signer, SidBytes(su, sid), BodyOf(c, batch));
      && Wire.Parse(raw).Ok? && Wire.Parse(raw).value.Signed?
      && var m := Wire.Parse(raw).value;
         m.sid == SidBytes(su, sid) && m.signature == su.sign(signer, m.signed) && ContentOf(m.body) == Some(c)
  {
    hide Wire.Parse, Wire.PrintSigned, Wire.ParseTable, Wire.ViewString, SidBytes;
    Wire.SignedRoundTrip(su, signer, SidBytes(su, sid), BodyOf(c, batch));
  }

  // ---------- the joiner's batch ----------

  /** The entries a joiner appends for the members before a position. */
  function Entries(su: Suite, s: Sess, count: nat): (entries: seq<Wire.TableEntry>)
    requires count <= |s.roster|
    ensures forall i :: 0 <= i < |entries| ==> entries[i].index < count
  {
    if count == 0 then []
    else
      hide TokenAt, Sorted;
      var before := Entries(su, s, count - 1);
      if s.roster[Peers(s)[count - 1]].authedTo then before
      else before + [Wire.TableEntry(count - 1, TokenAt(su, s, count - 1))]
  }

  lemma {:induction false} TableAppends(entries: seq<Wire.TableEntry>, last: Wire.TableEntry)
    requires forall i :: 0 <= i < |entries| ==> entries[i].index != last.index
    ensures Wire.TableOf(entries + [last]) == Wire.TableOf(entries)[last.index := last.token]
  {
    if entries == [] {
      assert [last][1..] == [];
    } else {
      assert (entries + [last])[1..] == entries[1..] + [last];
      TableAppends(entries[1..], last);
    }
  }

  /** Read back they are the table of the value. */
  lemma {:induction false} EntriesAreTable(su: Suite, s: Sess, count: nat)
    requires count <= |s.roster|
    ensures Wire.TableOf(Entries(su, s, count)) == BatchTable(su, s, count)
    decreases count
  {
    hide TokenAt, Sorted, BatchTable;
    BatchTableNone(su, s);
    if count > 0 {
      EntriesAreTable(su, s, count - 1);
      assert Peers(s)[count - 1] in s.roster;
      BatchTableNext(su, s, count - 1);
      if !s.roster[Peers(s)[count - 1]].authedTo {
        TableAppends(Entries(su, s, count - 1), Wire.TableEntry(count - 1, TokenAt(su, s, count - 1)));
      }
    }
  }

  lemma {:induction false} BatchLength(entries: seq<Wire.TableEntry>)
    ensures |Wire.Batch(entries)| == 36 * |entries|
  {
    if entries != [] {
      BatchLength(entries[1..]);
    }
  }

  lemma {:induction false} EntriesBounded(su: Suite, s: Sess, count: nat)
    requires count <= |s.roster|
    ensures |Entries(su, s, count)| <= count
    decreases count
  {
    hide TokenAt, Sorted;
    if count > 0 {
      EntriesBounded(su, s, count - 1);
    }
  }

  /** A joiner's tokens reach every member under its index, in any session small enough for the length field. */
  lemma JoinerAuthCrosses(su: Suite, signer: Block, s: Sess, share: Block)
    requires |s.roster| < 0x1_0000_0000 / 36
    ensures var batch := Wire.Batch(Entries(su, s, |s.roster|));
      var c := JoinerAuth(BatchTable(su, s, |s.roster|), share);
      var raw := Wire.PrintSigned(su, signer, SidBytes(su, s.sid), BodyOf(c, batch));
      && Wire.Parse(raw).Ok? && Wire.Parse(raw).value.Signed?
      && Wire.Parse(raw).value.sid == SidBytes(su, s.sid) && ContentOf(Wire.Parse(raw).value.body) == Some(c)
  {
    hide Wire.Parse, Wire.PrintSigned, Wire.ParseTable, Wire.Batch, Wire.TableOf, BatchTable, SidBytes;
    var n := |s.roster|;
    var entries := Entries(su, s, n);
    EntriesAreTable(su, s, n);
    EntriesBounded(su, s, n);
    BatchLength(entries);
    Wire.TableRoundTrip(entries);
    hide Entries;
    PacketCrosses(su, signer, s.sid, JoinerAuth(BatchTable(su, s, n), share), Wire.Batch(entries));
  }
}
