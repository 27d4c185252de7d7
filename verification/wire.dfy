/** The wire format: what is printed, signed, encrypted and base64-encoded, and how it is parsed. */
module Wire {
  import opened Bytes
  import opened Crypto
  import opened Participants
  import Base64

  const PROTOCOL_NAME: Bytes := [58, 111, 51, 110, 112, 49, 115, 101, 99, 58] // :o3np1sec:
  const PROTOCOL_VERSION := 1

  const JOIN_REQUEST: Byte := 0x0a
  const PARTICIPANTS_INFO: Byte := 0x0b
  const JOINER_AUTH: Byte := 0x0c
  const GROUP_SHARE: Byte := 0x0d
  const SESSION_CONFIRMATION: Byte := 0x0e
  const IN_SESSION_MESSAGE: Byte := 0x10

  const CLEAR_LENGTH := 3 + HASH_LENGTH // version, type and session id

  datatype Result<+T> = Ok(value: T) | Malformed | VersionMismatch

  // ---------- opaque fields ----------

  /** The length, truncated to 32 bits, and then the data. */
  function EncodeOpaque(d: Bytes): (s: Bytes)
    ensures |s| == 4 + |d|
  {
    LittleEndian(4, |d|) + d
  }

  /** The data of the first field and what follows it. A length that reaches past the end is an error. */
  function DecodeOpaque(s: Bytes): (r: Option<(Bytes, Bytes)>)
    ensures r.Some? ==> |r.value.0| + 4 + |r.value.1| == |s|
  {
    if |s| < 4 then None
    else
      var n := FromLittleEndian(s[..4]);
      if n > |s| - 4 then None else Some((s[4..4 + n], s[4 + n..]))
  }

  lemma Cut(a: Bytes, b: Bytes)
    ensures (a + b)[..|a|] == a && (a + b)[|a|..] == b
  {}

  lemma {:induction false} LittleEndianTruncates(width: nat, n: nat)
    ensures FromLittleEndian(LittleEndian(width, n)) < Pow256(width)
  {
    if width > 0 {
      LittleEndianTruncates(width - 1, n / 256);
      assert LittleEndian(width, n)[1..] == LittleEndian(width - 1, n / 256);
    }
  }

  /** A field reads back exactly when its length fits 32 bits. */
  lemma OpaqueRoundTripIff(d: Bytes, rest: Bytes)
    ensures DecodeOpaque(EncodeOpaque(d) + rest) == Some((d, rest)) <==> |d| < 0x1_0000_0000
  {
    var s := EncodeOpaque(d) + rest;
    Pow256Values();
    hide LittleEndian, FromLittleEndian, Pow256;
    assert s == LittleEndian(4, |d|) + (d + rest);
    Cut(LittleEndian(4, |d|), d + rest);
    Cut(d, rest);
    if |d| < 0x1_0000_0000 {
      LittleEndianRoundTrip(4, |d|);
      assert s[4..4 + |d|] == (d + rest)[..|d|] && s[4 + |d|..] == (d + rest)[|d|..];
    } else {
      LittleEndianTruncates(4, |d|);
    }
  }

  // ---------- session views and authentication tables ----------

  function ViewString(view: seq<UnauthenticatedParticipant>): Bytes {
    if |view| == 0 then [] else EncodeOpaque(ParticipantString(view[0])) + ViewString(view[1..])
  }

  /** `string_to_session_view`. */
  function ParseView(s: Bytes): Option<seq<UnauthenticatedParticipant>>
    decreases |s|
  {
    if |s| == 0 then Some([])
    else match DecodeOpaque(s)
      case None => None
      case Some((field, rest)) =>
        match ParseParticipant(field)
        case None => None
        case Some(u) =>
          match ParseView(rest)
          case None => None
          case Some(us) => Some([u] + us)
  }

  ghost predicate ShortNicks(view: seq<UnauthenticatedParticipant>) {
    forall i :: 0 <= i < |view| ==> |view[i].id.nickname| + 2 * HASH_LENGTH + 1 < 0x1_0000_0000
  }

  lemma {:induction false} ViewRoundTrip(view: seq<UnauthenticatedParticipant>)
    requires ShortNicks(view)
    ensures ParseView(ViewString(view)) == Some(view)
  {
    if |view| > 0 {
      hide EncodeOpaque, DecodeOpaque, ParticipantString, ParseParticipant;
      ParticipantRoundTrip(view[0]);
      OpaqueRoundTripIff(ParticipantString(view[0]), ViewString(view[1..]));
      ViewRoundTrip(view[1..]);
      assert view == [view[0]] + view[1..];
    }
  }

  /** One entry of the joiner's batch: a peer index and the token made for that peer. */
  datatype TableEntry = TableEntry(index: nat, token: Block)

  function Batch(entries: seq<TableEntry>): Bytes {
    if |entries| == 0 then []
    else LittleEndian(4, entries[0].index) + entries[0].token + Batch(entries[1..])
  }

  function TableOf(entries: seq<TableEntry>): map<nat, Block> {
    if |entries| == 0 then map[] else TableOf(entries[1..])[entries[0].index := entries[0].token]
  }

  /** `build_authentication_table`: entries of 36 bytes; the first entry of an index stays. */
  function ParseTable(s: Bytes): Option<map<nat, Block>>
    decreases |s|
  {
    if |s| == 0 then Some(map[])
    else if |s| < 4 + HASH_LENGTH then None
    else match ParseTable(s[4 + HASH_LENGTH..])
      case None => None
      case Some(table) => Some(table[FromLittleEndian(s[..4]) := s[4..4 + HASH_LENGTH]])
  }

  lemma {:induction false} TableRoundTrip(entries: seq<TableEntry>)
    requires forall i :: 0 <= i < |entries| ==> entries[i].index < 0x1_0000_0000
    ensures ParseTable(Batch(entries)) == Some(TableOf(entries))
  {
    if |entries| > 0 {
      Pow256Values();
      hide LittleEndian, FromLittleEndian, Pow256;
      var head, token, tail := LittleEndian(4, entries[0].index), entries[0].token, Batch(entries[1..]);
      var s := Batch(entries);
      assert s == head + (token + tail);
      LittleEndianRoundTrip(4, entries[0].index);
      Cut(head, token + tail);
      Cut(token, tail);
      assert s[4..4 + HASH_LENGTH] == token && s[4 + HASH_LENGTH..] == tail;
      TableRoundTrip(entries[1..]);
    }
  }

  // ---------- whole messages ----------

  datatype Body =
    | Info(view: seq<UnauthenticatedParticipant>, token: Bytes, infoShare: Block)
    | Auth(confirmations: Bytes, table: map<nat, Block>, authShare: Block)
    | Share(share: Block)
    | Confirmation(confirmation: Block, nextKey: Block)

  function TypeOf(body: Body): Byte {
    match body
    case Info(_, _, _) => PARTICIPANTS_INFO
    case Auth(_, _, _) => JOINER_AUTH
    case Share(_) => GROUP_SHARE
    case Confirmation(_, _) => SESSION_CONFIRMATION
  }

  /** The part of a signed message after the session id. */
  function BodyString(body: Body): Bytes {
    match body
    case Info(view, token, share) => EncodeOpaque(ViewString(view)) + (EncodeOpaque(token) + share)
    case Auth(confirmations, _, share) => EncodeOpaque(confirmations) + share
    case Share(share) => share
    case Confirmation(confirmation, nextKey) => confirmation + nextKey
  }

  function ParseBody(kind: Byte, s: Bytes): Result<Body> {
    if kind == PARTICIPANTS_INFO then
      match DecodeOpaque(s)
      case None => Malformed
      case Some((viewString, rest)) =>
        match ParseView(viewString)
        case None => Malformed
        case Some(view) =>
          match DecodeOpaque(rest)
          case None => Malformed
          case Some((token, share)) => if |share| != HASH_LENGTH then Malformed else Ok(Info(view, token, share))
    else if kind == JOINER_AUTH then
      match DecodeOpaque(s)
      case None => Malformed
      case Some((confirmations, share)) =>
        match ParseTable(confirmations)
        case None => Malformed
        case Some(table) => if |share| != HASH_LENGTH then Malformed else Ok(Auth(confirmations, table, share))
    else if kind == GROUP_SHARE then
      if |s| != HASH_LENGTH then Malformed else Ok(Share(s))
    else if kind == SESSION_CONFIRMATION then
      if |s| < 2 * HASH_LENGTH then Malformed
      else Ok(Confirmation(s[..HASH_LENGTH], s[HASH_LENGTH..2 * HASH_LENGTH]))
    else Malformed
  }

  /** Version, type and session id, which stay readable. */
  function Clear(kind: Byte, sid: Bytes): (s: Bytes)
    ensures |s| == 3 + |sid|
  {
    LittleEndian(2, PROTOCOL_VERSION) + [kind] + sid
  }

  function Envelope(content: Bytes): Bytes {
    PROTOCOL_NAME + Base64.Encode(content)
  }

  /** What a message signed with `key` is on the wire. */
  function PrintSigned(su: Suite, key: Bytes, sid: Block, body: Body): Bytes {
    var signed := Clear(TypeOf(body), sid) + BodyString(body);
    Envelope(signed + su.sign(key, signed))
  }

  function PrintJoinRequest(joiner: UnauthenticatedParticipant): Bytes {
    Envelope(Clear(JOIN_REQUEST, []) + ParticipantString(joiner))
  }

  datatype Parsed =
    | Join(joinerInfo: Bytes)
    | Signed(sid: Block, signed: Bytes, signature: Bytes, body: Body)
    | Encrypted(encryptedSid: Block, prefix: Bytes, ciphertext: Bytes)

  /** `check_and_chop_protocol_tag` and `unwrap_generic_message`, without a session key. */
  function Parse(raw: Bytes): Result<Parsed> {
    if !(PROTOCOL_NAME <= raw) then Malformed else ParseContent(Base64.DecodeText(raw[|PROTOCOL_NAME|..]))
  }

  function ParseContent(m: Bytes): Result<Parsed> {
    if |m| < 2 then Malformed
    else if FromLittleEndian(m[..2]) != PROTOCOL_VERSION then VersionMismatch
    else
      var kind := if |m| > 2 then m[2] else 0;
      if kind == JOIN_REQUEST then Ok(Join(m[3..]))
      else if |m| < CLEAR_LENGTH then Malformed
      else if kind == IN_SESSION_MESSAGE then
        Ok(Encrypted(m[3..CLEAR_LENGTH], m[..CLEAR_LENGTH], m[CLEAR_LENGTH..]))
      else if |m| < CLEAR_LENGTH + SIGNATURE_LENGTH then Malformed
      else
        var signed, signature := m[..|m| - SIGNATURE_LENGTH], m[|m| - SIGNATURE_LENGTH..];
        match ParseBody(kind, signed[CLEAR_LENGTH..])
        case Ok(body) => Ok(Signed(m[3..CLEAR_LENGTH], signed, signature, body))
        case Malformed => Malformed
        case VersionMismatch => VersionMismatch
  }

  /** Everything printed fits the 32-bit length fields, and a batch is one the parser can read. */
  ghost predicate Printable(body: Body) {
    match body
    case Info(view, token, _) =>
      ShortNicks(view) && |ViewString(view)| < 0x1_0000_0000 && |token| < 0x1_0000_0000
    case Auth(confirmations, table, _) =>
      |confirmations| < 0x1_0000_0000 && ParseTable(confirmations) == Some(table)
    case _ => true
  }

  lemma BodyRoundTrip(body: Body)
    requires Printable(body)
    ensures ParseBody(TypeOf(body), BodyString(body)) == Ok(body)
  {
    hide EncodeOpaque, DecodeOpaque, ParseView, ViewString, ParseTable;
    match body
    case Info(view, token, share) =>
      OpaqueRoundTripIff(ViewString(view), EncodeOpaque(token) + share);
      ViewRoundTrip(view);
      OpaqueRoundTripIff(token, share);
    case Auth(confirmations, table, share) =>
      OpaqueRoundTripIff(confirmations, share);
    case Share(_) =>
    case Confirmation(confirmation, nextKey) =>
      assert (confirmation + nextKey)[HASH_LENGTH..2 * HASH_LENGTH] == nextKey;
  }

  /** Where the parts of a body stand: shares last, after fields that begin with their lengths; a confirmation before
      the next key. An entry of a batch is its index and then its token. */
  lemma BodyLayout(body: Body, index: nat, token: Block)
    ensures var s := BodyString(body);
      match body
      case Info(view, _, share) =>
        |s| >= 4 + HASH_LENGTH && s[..4] == LittleEndian(4, |ViewString(view)|) && s[|s| - HASH_LENGTH..] == share
      case Auth(confirmations, _, share) =>
        s == LittleEndian(4, |confirmations|) + confirmations + share
      case Share(share) => s == share
      case Confirmation(confirmation, nextKey) =>
        |s| == 2 * HASH_LENGTH && s[..HASH_LENGTH] == confirmation && s[HASH_LENGTH..] == nextKey
    ensures Batch([TableEntry(index, token)]) == LittleEndian(4, index) + token
  {
    hide LittleEndian, ViewString;
    assert [TableEntry(index, token)][1..] == [];
    match body
    case Info(view, token, share) =>
      assert BodyString(body) == (EncodeOpaque(ViewString(view)) + EncodeOpaque(token)) + share;
    case _ =>
  }

  // ---------- and back ----------

  /** What is read as a field is the field printed, and nothing else. */
  lemma OpaqueBack(s: Bytes)
    ensures DecodeOpaque(s).Some? ==> s == EncodeOpaque(DecodeOpaque(s).value.0) + DecodeOpaque(s).value.1
  {
    hide LittleEndian, FromLittleEndian;
    if DecodeOpaque(s).Some? {
      LittleEndianOf(s[..4]);
    }
  }

  /** A body that is read was printed: exactly, but for what follows a confirmation, and with a view in any spelling
      that reads as it. */
  lemma BodyBack(kind: Byte, s: Bytes)
    ensures ParseBody(kind, s) != VersionMismatch
    ensures ParseBody(kind, s).Ok? ==>
      var body := ParseBody(kind, s).value;
      && kind == TypeOf(body)
      && (body.Auth? || body.Share? ==> s == BodyString(body))
      && (body.Auth? ==> ParseTable(body.confirmations) == Some(body.table))
      && (body.Confirmation? ==> BodyString(body) <= s)
      && (body.Info? ==> exists viewString: Bytes :: ParseView(viewString) == Some(body.view)
                           && s == EncodeOpaque(viewString) + (EncodeOpaque(body.token) + body.infoShare))
  {
    hide DecodeOpaque, EncodeOpaque, ParseView, ParseTable;
    OpaqueBack(s);
    if DecodeOpaque(s).Some? {
      OpaqueBack(DecodeOpaque(s).value.1);
    }
  }

  /** A message that is read begins with version 1, its type and, unless it is a join request, its session id; a signed
      one ends with its signature, and the signed bytes are all before that. A message of another version is refused as
      such, and no other is. */
  lemma ContentBack(m: Bytes)
    ensures ParseContent(m) == VersionMismatch <==> |m| >= 2 && m[..2] != [1, 0]
    ensures ParseContent(m).Ok? ==>
      match ParseContent(m).value
      case Join(info) => m == [1, 0, JOIN_REQUEST] + info
      case Signed(sid, signed, signature, body) =>
        && m == signed + signature && |signature| == SIGNATURE_LENGTH
        && [1, 0, TypeOf(body)] + sid <= signed && ParseBody(TypeOf(body), signed[CLEAR_LENGTH..]) == Ok(body)
      case Encrypted(sid, prefix, ciphertext) =>
        prefix == [1, 0, IN_SESSION_MESSAGE] + sid && m == prefix + ciphertext
  {
    Pow256Values();
    if |m| >= 2 {
      LittleEndianOf(m[..2]);
      LittleEndianRoundTrip(2, 1);
      assert LittleEndian(2, 1) == [1, 0];
      hide ParseBody, FromLittleEndian, LittleEndian;
      if |m| >= CLEAR_LENGTH + SIGNATURE_LENGTH {
        var signed := m[..|m| - SIGNATURE_LENGTH];
        BodyBack(m[2], signed[CLEAR_LENGTH..]);
        assert m[..2] == [1, 0] ==> signed[..CLEAR_LENGTH] == [1, 0, m[2]] + m[3..CLEAR_LENGTH];
      }
    }
  }

  /** Nothing without the protocol's name in front is read at all. */
  lemma NameFirst(raw: Bytes)
    ensures Parse(raw) != Malformed ==>
      exists text: Bytes :: raw == PROTOCOL_NAME + text && Parse(raw) == ParseContent(Base64.DecodeText(text))
  {
    hide ParseContent, Base64.DecodeText;
    if Parse(raw) != Malformed {
      assert raw == PROTOCOL_NAME + raw[|PROTOCOL_NAME|..];
    }
  }

  lemma EnvelopeOpens(content: Bytes)
    ensures Parse(Envelope(content)) == ParseContent(content)
  {
    hide ParseContent, Base64.DecodeText;
    Base64.TextRoundTrip(content, []);
    Cut(PROTOCOL_NAME, Base64.Encode(content));
  }

  lemma ClearReads(kind: Byte, sid: Bytes, rest: Bytes)
    ensures var m := Clear(kind, sid) + rest;
            && FromLittleEndian(m[..2]) == PROTOCOL_VERSION && m[2] == kind
            && m[3..3 + |sid|] == sid && m[3 + |sid|..] == rest && m[..3 + |sid|] == Clear(kind, sid)
            && m[3..] == sid + rest
  {
    var version := LittleEndian(2, PROTOCOL_VERSION);
    Pow256Values();
    LittleEndianRoundTrip(2, PROTOCOL_VERSION);
    hide LittleEndian, FromLittleEndian, Pow256;
    var m := Clear(kind, sid) + rest;
    assert m == version + ([kind] + sid + rest);
    Cut(version, [kind] + sid + rest);
    Cut(Clear(kind, sid), rest);
    assert m[3..] == sid + rest;
    Cut(sid, rest);
  }

  /** Whole-message round trip of the signed types: parsing returns the fields, and the bytes to check
      are exactly the bytes that were signed, under exactly the signature that was made. */
  lemma SignedRoundTrip(su: Suite, key: Bytes, sid: Block, body: Body)
    requires Printable(body)
    ensures var signed := Clear(TypeOf(body), sid) + BodyString(body);
            Parse(PrintSigned(su, key, sid, body)) == Ok(Signed(sid, signed, su.sign(key, signed), body))
  {
    hide Clear, BodyString, ParseBody, Parse, Base64.Encode, Base64.DecodeText, FromLittleEndian;
    var signed := Clear(TypeOf(body), sid) + BodyString(body);
    var signature := su.sign(key, signed);
    var m := signed + signature;
    EnvelopeOpens(m);
    ClearReads(TypeOf(body), sid, BodyString(body) + signature);
    assert m == Clear(TypeOf(body), sid) + (BodyString(body) + signature);
    Cut(signed, signature);
    assert |m| - SIGNATURE_LENGTH == |signed|;
    Cut(Clear(TypeOf(body), sid), BodyString(body));
    BodyRoundTrip(body);
  }

  lemma JoinRequestRoundTrip(joiner: UnauthenticatedParticipant)
    ensures Parse(PrintJoinRequest(joiner)) == Ok(Join(ParticipantString(joiner)))
    ensures ParseParticipant(ParticipantString(joiner)) == Some(joiner)
  {
    ParticipantRoundTrip(joiner);
    hide Clear, Parse, Base64.Encode, Base64.DecodeText, FromLittleEndian, ParticipantString, ParseParticipant;
    EnvelopeOpens(Clear(JOIN_REQUEST, []) + ParticipantString(joiner));
    ClearReads(JOIN_REQUEST, [], ParticipantString(joiner));
    assert [] + ParticipantString(joiner) == ParticipantString(joiner);
  }

  // ---------- in-session messages ----------

  datatype SubType = JustAck | UserMessage | LeaveMessage

  datatype InSession = InSession(
    senderIndex: nat,
    messageId: nat,
    parentId: nat,
    chainHash: Block,
    nonce: Block,
    subType: SubType,
    text: Bytes)

  function Fields(subType: SubType, text: Bytes): Bytes {
    match subType
    case JustAck => []
    case UserMessage => LittleEndian(2, 1) + EncodeOpaque(text)
    case LeaveMessage => LittleEndian(2, 2)
  }

  /** The part that is signed together with the clear prefix, and encrypted. */
  function InSessionString(m: InSession): Bytes {
    LittleEndian(4, m.senderIndex) + (LittleEndian(4, m.messageId) + (LittleEndian(4, m.parentId)
      + (m.chainHash + (m.nonce + Fields(m.subType, m.text)))))
  }

  function PrintInSession(su: Suite, key: Bytes, sessionKey: Bytes, sid: Block, m: InSession): Bytes {
    var clear := Clear(IN_SESSION_MESSAGE, sid);
    var base := InSessionString(m);
    Envelope(clear + su.encrypt(sessionKey, base + su.sign(key, clear + base)))
  }

  /** A signed char widened to unsigned 32 bits. */
  function SignExtend(b: Byte): nat {
    if b < 128 then b else 0x1_0000_0000 - 256 + b
  }

  /** Truncated to 16 bits; the 32-bit wrap of the sum before that changes nothing. */
  function StringToShort(b0: Byte, b1: Byte): nat {
    (SignExtend(b0) + 256 * SignExtend(b1)) % 0x1_0000
  }

  lemma ShortOfBytes(b0: Byte, b1: Byte)
    ensures StringToShort(b0, b1) == if b0 < 128 then b0 + 256 * b1 else (b0 + 256 * b1 + 0xff00) % 0x1_0000
  {
    var low := b0 + 256 * b1;
    var x := SignExtend(b0) + 256 * SignExtend(b1);
    assert x == low + (if b0 < 128 then 0 else 0xffff_ff00) + (if b1 < 128 then 0 else 0xff_ffff_0000);
    assert 0xff_ffff_0000 == 0xff_ffff * 0x1_0000 && 0xffff_ff00 == 0xffff * 0x1_0000 + 0xff00;
  }

  /** Despite the sign extension, only the plain little-endian images of 1 and 2 read as 1 and 2. */
  lemma ShortReads(b0: Byte, b1: Byte)
    ensures StringToShort(b0, b1) == 1 <==> [b0, b1] == LittleEndian(2, 1)
    ensures StringToShort(b0, b1) == 2 <==> [b0, b1] == LittleEndian(2, 2)
  {
    assert LittleEndian(2, 1) == [1, 0] && LittleEndian(2, 2) == [2, 0];
    hide StringToShort, LittleEndian;
    ShortOfBytes(b0, b1);
  }

  /** Outcome of the field loop. `Endless` marks the unrecognised sub-message, on which the loop of the
      source spins without consuming anything. */
  datatype FieldsRead = Read(subType: Option<SubType>, text: Bytes) | Broken | Endless

  /** One turn of the field loop on a nonempty remainder: what is left, or None if malformed. */
  function FieldStep(s: Bytes, subType: Option<SubType>, text: Bytes): Option<(Bytes, Option<SubType>, Bytes)>
    requires |s| > 0
  {
    if |s| < 2 then None
    else if StringToShort(s[0], s[1]) == 1 then
      match DecodeOpaque(s[2..])
      case None => None
      case Some((user, rest)) => Some((rest, Some(UserMessage), user))
    else if StringToShort(s[0], s[1]) == 2 then Some((s[2..], Some(LeaveMessage), text))
    else Some((s, subType, text))
  }

  function ParseFields(s: Bytes, subType: Option<SubType>, text: Bytes): FieldsRead
    decreases |s|
  {
    if |s| == 0 then Read(subType, text)
    else match FieldStep(s, subType, text)
      case None => Broken
      case Some((rest, subType', text')) => if rest == s then Endless else ParseFields(rest, subType', text')
  }

  /** The loop makes progress on every recognised field, and a turn that makes none repeats forever:
      it leaves the whole loop state as it was. */
  lemma FieldStepProgress(s: Bytes, subType: Option<SubType>, text: Bytes)
    requires |s| > 0 && FieldStep(s, subType, text).Some?
    ensures var (rest, subType', text') := FieldStep(s, subType, text).value;
            && (|s| >= 2 && StringToShort(s[0], s[1]) in {1, 2} ==> |rest| < |s|)
            && (|s| >= 2 && StringToShort(s[0], s[1]) !in {1, 2} ==> (rest, subType', text') == (s, subType, text))
  {}

  /** `unwrap_in_session_message` on the ciphertext of a message whose clear prefix is `prefix`. */
  datatype Opened = Opened(senderIndex: nat, messageId: nat, parentId: nat, chainHash: Block, nonce: Block,
                           fields: FieldsRead, signed: Bytes, signature: Bytes)

  const FIXED_LENGTH := 12 + 2 * HASH_LENGTH

  function Open(su: Suite, sessionKey: Bytes, prefix: Bytes, ciphertext: Bytes): Result<Opened> {
    var phased := su.decrypt(sessionKey, ciphertext);
    if |phased| < SIGNATURE_LENGTH then Malformed
    else
      var s := phased[..|phased| - SIGNATURE_LENGTH];
      if |s| < FIXED_LENGTH then Malformed
      else Ok(Opened(
        FromLittleEndian(s[..4]), FromLittleEndian(s[4..8]), FromLittleEndian(s[8..12]),
        s[12..44], s[44..76], ParseFields(s[76..], None, []),
        prefix + s, phased[|phased| - SIGNATURE_LENGTH..]))
  }

  lemma FieldsRoundTrip(subType: SubType, text: Bytes)
    requires |text| < 0x1_0000_0000
    ensures ParseFields(Fields(subType, text), None, []) ==
      match subType
      case JustAck => Read(None, [])
      case UserMessage => Read(Some(UserMessage), text)
      case LeaveMessage => Read(Some(LeaveMessage), [])
  {
    var s := Fields(subType, text);
    assert LittleEndian(2, 1) == [1, 0] && LittleEndian(2, 2) == [2, 0];
    hide LittleEndian, StringToShort, EncodeOpaque, DecodeOpaque;
    if subType != JustAck {
      ShortReads(s[0], s[1]);
      if subType == UserMessage {
        OpaqueRoundTripIff(text, []);
        assert s[2..] == EncodeOpaque(text) + [];
      } else {
        assert s[2..] == [];
      }
    }
  }

  lemma FixedPartReads(m: InSession)
    requires m.senderIndex < 0x1_0000_0000 && m.messageId < 0x1_0000_0000 && m.parentId < 0x1_0000_0000
    ensures var s := InSessionString(m);
            && |s| >= FIXED_LENGTH
            && FromLittleEndian(s[..4]) == m.senderIndex && FromLittleEndian(s[4..8]) == m.messageId
            && FromLittleEndian(s[8..12]) == m.parentId && s[12..44] == m.chainHash && s[44..76] == m.nonce
            && s[76..] == Fields(m.subType, m.text)
  {
    Pow256Values();
    hide LittleEndian, FromLittleEndian, Pow256, Fields;
    LittleEndianRoundTrip(4, m.senderIndex);
    LittleEndianRoundTrip(4, m.messageId);
    LittleEndianRoundTrip(4, m.parentId);
    var s := InSessionString(m);
    var index, id, parent := LittleEndian(4, m.senderIndex), LittleEndian(4, m.messageId), LittleEndian(4, m.parentId);
    assert s[..4] == index && s[4..8] == id && s[8..12] == parent;
  }

  /** In-session round trip: what the receiver holding the session key reads, including the signed
      bytes, is what the sender wrote. An acknowledgement carries no sub-type at all. */
  lemma InSessionRoundTrip(su: Suite, key: Bytes, sessionKey: Bytes, sid: Block, m: InSession)
    requires m.senderIndex < 0x1_0000_0000 && m.messageId < 0x1_0000_0000 && m.parentId < 0x1_0000_0000
    requires |m.text| < 0x1_0000_0000
    ensures var clear := Clear(IN_SESSION_MESSAGE, sid);
            var parsed := Parse(PrintInSession(su, key, sessionKey, sid, m));
            && parsed.Ok? && parsed.value.Encrypted? && parsed.value.encryptedSid == sid
            && Open(su, sessionKey, parsed.value.prefix, parsed.value.ciphertext)
               == Ok(Opened(m.senderIndex, m.messageId, m.parentId, m.chainHash, m.nonce,
                            ParseFields(Fields(m.subType, m.text), None, []),
                            clear + InSessionString(m), su.sign(key, clear + InSessionString(m))))
    ensures ParseFields(Fields(m.subType, m.text), None, []) ==
      match m.subType
      case JustAck => Read(None, [])
      case UserMessage => Read(Some(UserMessage), m.text)
      case LeaveMessage => Read(Some(LeaveMessage), [])
  {
    FieldsRoundTrip(m.subType, m.text);
    FixedPartReads(m);
    hide Clear, Parse, InSessionString, Base64.Encode, Base64.DecodeText, FromLittleEndian, Fields, ParseFields;
    var clear, base := Clear(IN_SESSION_MESSAGE, sid), InSessionString(m);
    var signature := su.sign(key, clear + base);
    var ciphertext := su.encrypt(sessionKey, base + signature);
    EnvelopeOpens(clear + ciphertext);
    ClearReads(IN_SESSION_MESSAGE, sid, ciphertext);
    Cut(base, signature);
    assert |base + signature| - SIGNATURE_LENGTH == |base|;
  }
}
