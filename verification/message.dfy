/** The Message class: creating fills its buffers in place, unwrapping fills its fields. */
module Messages {
  import opened Bytes
  import opened Crypto
  import opened Participants
  import opened Wire
  import Base64

  /** What a message needs of the owner's Cryptic object. */
  datatype Cryptic = Cryptic(ephemeral: Bytes, sessionKey: Bytes)

  datatype Status = Accepted | Rejected | WrongVersion | Spinning

  class Message {
    const su: Suite
    const cryptic: Option<Cryptic>
    var messageType: Byte
    var sessionId: Option<Block>
    var sessionView: seq<UnauthenticatedParticipant>
    var keyConfirmation: Bytes
    var zSender: Bytes
    var authenticationTable: map<nat, Block>
    var sessionKeyConfirmation: Bytes
    var nextSessionEphemeralKey: Bytes
    var joinerInfo: Bytes
    var senderIndex: nat
    var senderMessageId: nat
    var parentId: nat
    var transcriptChainHash: Bytes
    var nonce: Bytes
    var subType: Option<SubType>
    var userMessage: Bytes
    var sysMessage: Bytes
    var signedMessage: Bytes
    var signature: Bytes
    var encryptedPart: Bytes
    var finalWholeMessage: Bytes

    constructor (su: Suite, cryptic: Option<Cryptic>)
      ensures this.su == su && this.cryptic == cryptic && Blank()
    {
      this.su, this.cryptic := su, cryptic;
      messageType, sessionId, sessionView, authenticationTable := 0, None, [], map[];
      keyConfirmation, zSender, sessionKeyConfirmation, nextSessionEphemeralKey := [], [], [], [];
      joinerInfo, transcriptChainHash, nonce, userMessage := [], [], [], [];
      senderIndex, senderMessageId, parentId, subType := 0, 0, 0, None;
      sysMessage, signedMessage, signature, encryptedPart, finalWholeMessage := [], [], [], [], [];
    }

    /** Nothing created or unwrapped yet: an id is set only once, and buffers are appended to. */
    predicate Blank()
      reads this
    {
      && sessionId == None && sessionView == [] && authenticationTable == map[] && subType == None
      && userMessage == [] && sysMessage == [] && signedMessage == [] && signature == []
    }

    function ClearPart(): Bytes
      reads this
    {
      Clear(messageType, match sessionId case Some(sid) => sid case None => [])
    }

    /** `append_msg_end`. */
    method AppendMsgEnd(sign: bool)
      requires sign || messageType == IN_SESSION_MESSAGE ==> cryptic.Some?
      modifies this`signature, this`sysMessage, this`finalWholeMessage
      ensures signature ==
        if sign then su.sign(cryptic.value.ephemeral, ClearPart() + old(sysMessage)) else old(signature)
      ensures var payload := old(sysMessage) + signature;
              finalWholeMessage == Wire.Envelope(ClearPart() +
                (if messageType == IN_SESSION_MESSAGE then su.encrypt(cryptic.value.sessionKey, payload) else payload))
    {
      var clear := LittleEndian(2, PROTOCOL_VERSION) + [messageType];
      if sessionId != None {
        clear := clear + sessionId.value;
      }
      assert clear == ClearPart();
      if sign {
        signature := su.sign(cryptic.value.ephemeral, clear + sysMessage);
      }
      sysMessage := sysMessage + signature;
      if messageType == IN_SESSION_MESSAGE {
        sysMessage := su.encrypt(cryptic.value.sessionKey, sysMessage);
      }
      sysMessage := clear + sysMessage;
      sysMessage := Base64.EncodeString(sysMessage);
      sysMessage := PROTOCOL_NAME + sysMessage;
      finalWholeMessage := sysMessage;
    }

    /** `session_view_as_string`. */
    method SessionViewAsString() returns (output: Bytes)
      ensures output == ViewString(sessionView)
    {
      output := [];
      for i := 0 to |sessionView|
        invariant output + ViewString(sessionView[i..]) == ViewString(sessionView)
      {
        assert sessionView[i..][1..] == sessionView[i + 1..];
        var field := EncodeOpaque(ParticipantString(sessionView[i]));
        var rest := ViewString(sessionView[i + 1..]);
        assert output + (field + rest) == (output + field) + rest;
        output := output + field;
      }
    }

    /** Fails, leaving nothing sendable, when the view is empty. */
    method CreateParticipantInfo(sid: Block, view: seq<UnauthenticatedParticipant>, token: Bytes, share: Block)
      returns (ok: bool)
      requires Blank() && cryptic.Some?
      modifies this
      ensures ok <==> view != []
      ensures ok ==> finalWholeMessage == PrintSigned(su, cryptic.value.ephemeral, sid, Info(view, token, share))
    {
      messageType := PARTICIPANTS_INFO;
      sessionId := Some(sid);
      sessionView := view;
      if |view| == 0 {
        return false;
      }
      var viewString := SessionViewAsString();
      sysMessage := EncodeOpaque(viewString);
      sysMessage := sysMessage + EncodeOpaque(token);
      sysMessage := sysMessage + share;
      assert sysMessage == BodyString(Info(view, token, share));
      AppendMsgEnd(true);
      SameContent(ClearPart(), BodyString(Info(view, token, share)), signature);
      ok := true;
    }

    method CreateGroupShare(sid: Block, share: Block)
      requires Blank() && cryptic.Some?
      modifies this
      ensures finalWholeMessage == PrintSigned(su, cryptic.value.ephemeral, sid, Share(share))
    {
      messageType := GROUP_SHARE;
      sessionId := Some(sid);
      sysMessage := sysMessage + share;
      assert sysMessage == share;
      AppendMsgEnd(true);
      SameContent(ClearPart(), share, signature);
    }

    method CreateSessionConfirmation(sid: Block, confirmation: Block, nextKey: Block)
      requires Blank() && cryptic.Some?
      modifies this
      ensures finalWholeMessage == PrintSigned(su, cryptic.value.ephemeral, sid, Confirmation(confirmation, nextKey))
    {
      messageType := SESSION_CONFIRMATION;
      sessionId := Some(sid);
      sysMessage := confirmation + nextKey;
      AppendMsgEnd(true);
      SameContent(ClearPart(), confirmation + nextKey, signature);
    }

    /** The parsed table is not printed: only the batch of confirmations is. */
    method CreateJoinerAuth(sid: Block, confirmations: Bytes, share: Block)
      requires Blank() && cryptic.Some?
      modifies this
      ensures forall table: map<nat, Block> ::
        finalWholeMessage == PrintSigned(su, cryptic.value.ephemeral, sid, Auth(confirmations, table, share))
    {
      messageType := JOINER_AUTH;
      sessionId := Some(sid);
      sysMessage := EncodeOpaque(confirmations);
      sysMessage := sysMessage + share;
      AppendMsgEnd(true);
      SameContent(ClearPart(), EncodeOpaque(confirmations) + share, signature);
    }

    method CreateJoinRequest(joiner: UnauthenticatedParticipant)
      requires Blank()
      modifies this
      ensures finalWholeMessage == PrintJoinRequest(joiner)
    {
      messageType := JOIN_REQUEST;
      sysMessage := ParticipantString(joiner);
      AppendMsgEnd(false);
      assert ParticipantString(joiner) + [] == ParticipantString(joiner);
    }

    /** The nonce is what the random generator delivered. */
    method CreateInSession(sid: Block, m: InSession)
      requires Blank() && cryptic.Some?
      modifies this
      ensures finalWholeMessage == PrintInSession(su, cryptic.value.ephemeral, cryptic.value.sessionKey, sid, m)
    {
      hide LittleEndian, EncodeOpaque;
      messageType := IN_SESSION_MESSAGE;
      sessionId := Some(sid);
      var base := LittleEndian(4, m.senderIndex);
      base := base + LittleEndian(4, m.messageId);
      base := base + LittleEndian(4, m.parentId);
      base := base + m.chainHash;
      base := base + m.nonce;
      ghost var fixed := base;
      match m.subType {
        case UserMessage =>
          base := base + LittleEndian(2, 1);
          base := base + EncodeOpaque(m.text);
        case LeaveMessage =>
          base := base + LittleEndian(2, 2);
        case JustAck =>
      }
      assert base == fixed + Fields(m.subType, m.text);
      assert base == InSessionString(m);
      sysMessage := base;
      AppendMsgEnd(true);
    }

    /** `string_to_session_view`: consumes the string field by field, appending to the view. */
    method StringToSessionView(s: Bytes) returns (ok: bool)
      modifies this`sessionView
      ensures ok <==> ParseView(s).Some?
      ensures ok ==> sessionView == old(sessionView) + ParseView(s).value
    {
      hide DecodeOpaque, ParseParticipant;
      var rest := s;
      ghost var read: seq<UnauthenticatedParticipant> := [];
      while |rest| > 0
        invariant sessionView == old(sessionView) + read
        invariant ParseView(s).Some? <==> ParseView(rest).Some?
        invariant ParseView(rest).Some? ==> ParseView(s).value == read + ParseView(rest).value
        decreases |rest|
      {
        var field := DecodeOpaque(rest);
        if field == None {
          return false;
        }
        var u := ParseParticipant(field.value.0);
        if u == None {
          return false;
        }
        sessionView := sessionView + [u.value];
        rest := field.value.1;
        read := read + [u.value];
        assert ParseView(rest).Some? ==>
          read[..|read| - 1] + ([u.value] + ParseView(rest).value) == read + ParseView(rest).value;
      }
      ok := true;
    }

    /** `build_authentication_table`: map insertion keeps the entry already there. */
    method BuildAuthenticationTable() returns (ok: bool)
      requires authenticationTable == map[]
      modifies this`authenticationTable
      ensures ok <==> ParseTable(keyConfirmation).Some?
      ensures ok ==> authenticationTable == ParseTable(keyConfirmation).value
    {
      var remaining := keyConfirmation;
      while |remaining| > 0
        invariant ParseTable(keyConfirmation).Some? <==> ParseTable(remaining).Some?
        invariant ParseTable(remaining).Some? ==>
          ParseTable(keyConfirmation).value == ParseTable(remaining).value + authenticationTable
        decreases |remaining|
      {
        if |remaining| < 4 + HASH_LENGTH {
          return false;
        }
        var index := FromLittleEndian(remaining[..4]);
        var token: Block := remaining[4..4 + HASH_LENGTH];
        ghost var rest := ParseTable(remaining[4 + HASH_LENGTH..]);
        ghost var before := authenticationTable;
        if index !in authenticationTable {
          authenticationTable := authenticationTable[index := token];
        }
        assert rest.Some? ==> rest.value[index := token] + before == rest.value + authenticationTable;
        remaining := remaining[4 + HASH_LENGTH..];
      }
      ok := true;
    }

    /** What the fields must hold after a message has been read. */
    ghost predicate Holds(parsed: Parsed)
      reads this
    {
      match parsed
      case Join(info) => messageType == JOIN_REQUEST && joinerInfo == info && sessionId == None
      case Encrypted(sid, prefix, ciphertext) =>
        messageType == IN_SESSION_MESSAGE && sessionId == Some(sid) && encryptedPart == ciphertext
      case Signed(sid, signed, sig, body) =>
        && messageType == TypeOf(body) && sessionId == Some(sid) && signedMessage == signed && signature == sig
        && match body
           case Info(view, token, share) => sessionView == view && keyConfirmation == token && zSender == share
           case Auth(confirmations, table, share) =>
             keyConfirmation == confirmations && authenticationTable == table && zSender == share
           case Share(share) => zSender == share
           case Confirmation(confirmation, nextKey) =>
             sessionKeyConfirmation == confirmation && nextSessionEphemeralKey == nextKey
    }

    /** The fields an opened in-session message fills. */
    ghost predicate HoldsOpened(o: Opened)
      reads this
    {
      && senderIndex == o.senderIndex && senderMessageId == o.messageId && parentId == o.parentId
      && transcriptChainHash == o.chainHash && nonce == o.nonce
      && signedMessage == o.signed && signature == o.signature
      && (o.fields.Read? ==> subType == o.fields.subType && userMessage == o.fields.text)
    }

    /** What unwrapping must report and leave behind, given what the bytes parse to. */
    ghost predicate Unwrapped(status: Status, parsed: Result<Parsed>)
      reads this
    {
      match parsed
      case VersionMismatch => status == WrongVersion
      case Malformed => status == Rejected
      case Ok(p) =>
        if p.Encrypted? && cryptic.Some? then
          match Open(su, cryptic.value.sessionKey, p.prefix, p.ciphertext)
          case Ok(o) =>
            && (status == Accepted <==> o.fields.Read?) && (status == Spinning <==> o.fields.Endless?)
            && status != WrongVersion
            && (status == Accepted ==> Holds(p) && HoldsOpened(o))
          case _ => status == Rejected
        else status == Accepted && Holds(p)
    }

    /** The raw-message constructor: chop the tag, decode, and unwrap by type. */
    method Unwrap(raw: Bytes) returns (status: Status)
      requires Blank()
      modifies this
      ensures Unwrapped(status, Parse(raw))
    {
      hide ParseContent, Unwrapped, Base64.DecodeText;
      finalWholeMessage := raw;
      if !(PROTOCOL_NAME <= raw) {
        status := Rejected;
        MalformedRejected();
        return;
      }
      var m := Base64.DecodeString(raw[|PROTOCOL_NAME|..]);
      status := UnwrapGeneric(m);
    }

    lemma MalformedRejected()
      ensures Unwrapped(Rejected, Malformed)
    {}

    /** `unwrap_generic_message` after the base64 layer. */
    method UnwrapGeneric(m: Bytes) returns (status: Status)
      requires Blank()
      modifies this
      ensures Unwrapped(status, ParseContent(m))
    {
      hide ParseBody, FromLittleEndian, Open, HoldsOpened, TypeOf;
      if |m| < 2 {
        return Rejected;
      }
      if FromLittleEndian(m[..2]) != PROTOCOL_VERSION {
        return WrongVersion;
      }
      messageType := if |m| > 2 then m[2] else 0;
      if messageType == JOIN_REQUEST {
        joinerInfo := m[3..];
        return Accepted;
      }
      if |m| < CLEAR_LENGTH {
        return Rejected;
      }
      sessionId := Some(m[3..CLEAR_LENGTH]);
      if messageType == IN_SESSION_MESSAGE {
        signedMessage := m[..CLEAR_LENGTH];
        encryptedPart := m[CLEAR_LENGTH..];
        if cryptic == None {
          return Accepted;
        }
        status := UnwrapInSession(encryptedPart);
        return;
      }
      if |m| < CLEAR_LENGTH + SIGNATURE_LENGTH {
        return Rejected;
      }
      signedMessage := m[..|m| - SIGNATURE_LENGTH];
      signature := m[|signedMessage|..];
      status := UnwrapBody(signedMessage[CLEAR_LENGTH..]);
    }

    method UnwrapBody(s: Bytes) returns (status: Status)
      requires sessionView == [] && authenticationTable == map[]
      modifies this`sessionView, this`keyConfirmation, this`zSender, this`authenticationTable,
               this`sessionKeyConfirmation, this`nextSessionEphemeralKey
      ensures status == if ParseBody(messageType, s).Ok? then Accepted else Rejected
      ensures !ParseBody(messageType, s).VersionMismatch?
      ensures status == Accepted && sessionId.Some? ==>
        messageType == TypeOf(ParseBody(messageType, s).value)
        && Holds(Signed(sessionId.value, signedMessage, signature, ParseBody(messageType, s).value))
    {
      hide DecodeOpaque, ParseView, ParseTable;
      if messageType == PARTICIPANTS_INFO {
        var view := DecodeOpaque(s);
        if view == None {
          return Rejected;
        }
        var ok := StringToSessionView(view.value.0);
        if !ok {
          return Rejected;
        }
        var rest := DecodeOpaque(view.value.1);
        if rest == None {
          return Rejected;
        }
        keyConfirmation, zSender := rest.value.0, rest.value.1;
        return if |zSender| != HASH_LENGTH then Rejected else Accepted;
      } else if messageType == JOINER_AUTH {
        var rest := DecodeOpaque(s);
        if rest == None {
          return Rejected;
        }
        keyConfirmation := rest.value.0;
        var ok := BuildAuthenticationTable();
        if !ok {
          return Rejected;
        }
        zSender := rest.value.1;
        return if |zSender| != HASH_LENGTH then Rejected else Accepted;
      } else if messageType == GROUP_SHARE {
        zSender := s;
        return if |zSender| != HASH_LENGTH then Rejected else Accepted;
      } else if messageType == SESSION_CONFIRMATION {
        if |s| < HASH_LENGTH {
          return Rejected;
        }
        sessionKeyConfirmation := s[..HASH_LENGTH];
        if |s| < 2 * HASH_LENGTH {
          return Rejected;
        }
        nextSessionEphemeralKey := s[HASH_LENGTH..2 * HASH_LENGTH];
        return Accepted;
      }
      status := Rejected;
    }

    /** `unwrap_in_session_message`. */
    method UnwrapInSession(ciphertext: Bytes) returns (status: Status)
      requires cryptic.Some? && subType == None && userMessage == []
      modifies this`signedMessage, this`signature, this`senderIndex, this`senderMessageId, this`parentId,
               this`transcriptChainHash, this`nonce, this`subType, this`userMessage
      ensures var outcome := Open(su, cryptic.value.sessionKey, old(signedMessage), ciphertext);
              && (status == Accepted <==> outcome.Ok? && outcome.value.fields.Read?)
              && (status == Spinning <==> outcome.Ok? && outcome.value.fields.Endless?)
              && (status == Accepted ==> HoldsOpened(outcome.value))
              && (!outcome.Ok? ==> status == Rejected)
              && status != WrongVersion
    {
      hide FromLittleEndian, ParseFields;
      var phased := su.decrypt(cryptic.value.sessionKey, ciphertext);
      if |phased| < SIGNATURE_LENGTH {
        return Rejected;
      }
      var s := phased[..|phased| - SIGNATURE_LENGTH];
      signedMessage := signedMessage + s;
      signature := phased[|s|..];
      if |s| < 4 {
        return Rejected;
      }
      senderIndex := FromLittleEndian(s[0..4]);
      if |s| < 8 {
        return Rejected;
      }
      senderMessageId := FromLittleEndian(s[4..8]);
      if |s| < 12 {
        return Rejected;
      }
      parentId := FromLittleEndian(s[8..12]);
      if |s| < 44 {
        return Rejected;
      }
      transcriptChainHash := s[12..44];
      if |s| < FIXED_LENGTH {
        return Rejected;
      }
      nonce := s[44..FIXED_LENGTH];
      status := ReadFields(s[FIXED_LENGTH..]);
    }

    /** The field loop; the remaining length decreases on every recognised field. Where the loop of the
        source would spin, this one reports it. */
    method ReadFields(s: Bytes) returns (status: Status)
      requires subType == None && userMessage == []
      modifies this`subType, this`userMessage
      ensures var fields := ParseFields(s, None, []);
              && (status == Accepted <==> fields.Read?) && (status == Spinning <==> fields.Endless?)
              && status != WrongVersion
              && (fields.Read? ==> subType == fields.subType && userMessage == fields.text)
    {
      hide DecodeOpaque, StringToShort;
      var remainder := s;
      while |remainder| > 0
        invariant ParseFields(s, None, []) == ParseFields(remainder, subType, userMessage)
        decreases |remainder|
      {
        if |remainder| < 2 {
          return Rejected;
        }
        var current := StringToShort(remainder[0], remainder[1]);
        if current == 1 {
          var field := DecodeOpaque(remainder[2..]);
          if field == None {
            return Rejected;
          }
          subType, userMessage, remainder := Some(UserMessage), field.value.0, field.value.1;
        } else if current == 2 {
          subType, remainder := Some(LeaveMessage), remainder[2..];
        } else {
          return Spinning;
        }
      }
      status := Accepted;
    }
  }

  lemma SameContent(clear: Bytes, body: Bytes, signature: Bytes)
    ensures clear + (body + signature) == (clear + body) + signature
  {}
}
