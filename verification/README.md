# np1sec: a verified model of the group key agreement, the sessions, the room and the wire format

np1sec lets the members of a chat room agree on a group key. Each member runs a `Room`, which schedules
`Session` objects; the sessions exchange signed messages over a broadcast channel, make a key together on a ring
of pairwise secrets, confirm it to each other, and breed the next session when somebody joins, leaves or a timer
runs out. This project models that protocol and proves what it is for: members in session hold one key, know each
other's next keys, breed sessions of the same id, and their rooms never run into their own runtime assertions.
Where the code does not do what it is meant to do, the project proves the exact condition under which it does.

## How it is laid out

| files | what they hold |
|---|---|
| `bytes.dfy`, `crypto.dfy` | byte strings, XOR, ordering; the libgcrypt primitives as parameters and the triple Diffie-Hellman built on them |
| `ring.dfy` | the group key on the ring: agreement, exactness, one corrupt share |
| `participant.dfy` | participants, their maps, the session id, views, pairwise tokens |
| `base64.dfy`, `wire.dfy`, `message.dfy` | the codec as functions with their round trips, and the Message class proved against them |
| `session.dfy` | a session as a value, and what every transitor makes of it |
| `session_steps.dfy`, `session_invariants.dfy`, `session_births.dfy`, `session_runs.dfy` | every step as one of five moves, what every step keeps, how sessions are born, whole runs of one session |
| `session_keys.dfy`, `completeness.dfy` | equal keys and accepted tokens among the members of a session; exactly what an undisturbed exchange of truthful messages achieves in any waiting session |
| `inheritance.dfy` | the same for each kind of session the code builds, by the flags and shares it inherits |
| `session_laws.dfy` | what each kind of message does to a session, exactly: which token, confirmation, leave or request it takes, and what the other end makes of its answer |
| `two_members.dfy`, `stale_shares.dfy` | the smallest whole exchange, and what a confirmation that overtakes another message does to it; a whole run that ends with a wrong key |
| `carriage.dfy` | what one session says, printed and parsed, is what another handles |
| `network.dfy`, `agreement.dfy`, `second_object.dfy` | any number of session objects and an adversary on the channel: same key, same successors; runs that show why one object per key and id is needed, for the key and for the next keys |
| `session_actions.dfy`, `rooms.dfy`, `room_invariants.dfy`, `room_activation.dfy`, `room_runs.dfy` | the room as a value, its invariant over all runs, activation |
| `room_starts.dfy` | runs of a joining room up to its first activation |
| `room_laws.dfy` | what each kind of message, departure and timer does to a room: which sessions enter it, which are put aside, which stay as they were |
| `room_joins.dfy`, `room_pedigree.dfy`, `room_stops.dfy` | pending joins under re-parenting, which sessions can stop a room, and whole runs that do |
| `session_object.dfy`, `room_object.dfy` | the Session and Room classes: fields, loops and objects, each method proved against the value functions |
| `transcript.dfy` | the transcript chain and what it binds |

The values (`Sess`, `RoomState`) are what the fields of the objects amount to; a class method states that the new
`View()` is the value function applied to the old one, and the theorems are about the value functions, runs of
them, and networks of them.

## What is assumed

- Digests have 32 bytes, Diffie-Hellman is commutative, decryption undoes encryption (`Crypto.Sound`). No
  assumption says that the hash is injective on all strings, which no 32-byte digest can be. Where collisions
  matter, the lemma names the strings that must not collide: confirmations of different keys for one nickname
  (`Agreement.ConfirmationsBind`, shown satisfiable by `ConfirmationsCanBind`), the strings of two tokens
  (`Participants.TokenBindsIff`) or of two confirmations (`SessionLaws.ConfirmationMarksIff`), or those of two
  transcript chains (`Transcripts.CollisionFree`).
- A session id is modelled by what it is computed from: the map from nicknames to long-term and ephemeral keys.
  The id on the wire is the digest of a string of these without delimiters; `Participants.BlobBindsIff` says
  exactly what that string determines, and `BlobAmbiguous` shows two sessions with one string.
- In the network the adversary delivers any message to anybody under any sender nickname, in any order and any
  number of times, but a key exchange message signed with a key that one honest member holds was sent by an object
  with that key. Messages reach an object under the id its room routes by.
- Same-key safety (`Agreement.SameKey`) asks for nothing else. That two members in session agree with each other asks
  that no member starts a second object of one id under one ephemeral key (`Network.FreshlyReaches`); a joiner that
  starts over does. Neither agreement holds without that: `SecondObject.TwoKeys` is a run in which an honest member,
  given two shares by a dishonest one, has two objects of one id in session under different keys, and
  `SecondObjectSplits` one of honest members only that end with one key and different next keys and successors.
- Clocks, random keys and the check whether everybody has farewelled are parameters (`Surroundings`); the order in
  which a room visits its map of sessions is a parameter of every method that iterates over it.

## Where the code falls short of its purpose

- The session key is the digest of one byte per member and one more, not of all pairwise secrets: the call passes
  a number of blocks, and overload resolution picks the function that takes a number of bytes. For any number of
  members what is hashed is the first n + 1 bytes of the array, and the session id is never part of it
  (`SessionKeys.KeyInputIs`, `KeyInputsAgreeIff`); up to 31 members it is a part of the first pairwise secret, three
  bytes of it between two members (`KeyIgnoresAllButFirstSecret`). For every array there is another that makes the same
  key (`OtherArrayOneKey`).
- The copy constructor of a participant keeps the mark that a key share has arrived, and the share. Whatever is bred
  from a session in session by a join, a leave, the session timer or a change of parent is therefore born with its live
  members counted. A session bred by a leave or the timer generates its key at the first share, one bred by a join
  when the joiner's token comes, one that is re-parented as soon as what it adds is counted, which it may be at birth
  (`Inheritance.PeerExchange`, `JoinExchange`, `RebornExchange`); the array under the key is right exactly when every
  share that has not come by then happens to be the new one. Only a joiner's session and one bred by a view inherit no
  share and are always right (`JoinerExchange`, `ViewExchange`). `StaleShares.JoinedKeyGoesWrong` is a whole run of
  truthful messages, a third member joining two, that ends with a key other than the agreed one.
- A session takes up a confirmation only while it holds an unconfirmed key, and nobody repeats one. A waiting session
  gets into session exactly when every member's right confirmation comes after the message that made it generate its
  key (`Completeness.ExchangeCompletes`, `Inheritance.JoinerEstablishes`); one that comes earlier is lost
  (`TwoMembers.EarlyConfirmationIsLost`), as when a joiner hears a quick member confirm before a slow member's view.
- There are more nicknames than digests: under any key some two members somewhere have one confirmation
  (`SessionLaws.SomeConfirmationsCollide`). Members with nicknames of less than 32 bytes can all be told apart
  (`Agreement.ConfirmationsCanBind`).
- A joiner without a nickname is made no token (`SessionKeys.MemberWelcomed`).
- Sessions bred by a leave or by the timer record no parent. When they are refreshed their leavers come back
  (`RoomJoins.LeaversReturn`), and two such leavers run into the assertion "one addition at a time"
  (`ParentlessCrowdedIff`, `ActivationCleans`, `RoomRuns.ReceiveKeeps`). In any governed room three leaves are enough
  (`RoomStops.ThreeLeavesStop`, in a room of four by `FourMembersStop`), and only such sessions do it
  (`RoomPedigree.OnlyParentlessStop`). A view with two members the heir does not expect stops the room too
  (`SessionActions.PlistPhases`).
- At the first activation another session may already hold a key; exactly then the room starts outside its
  invariant (`RoomRuns.FirstActivationIff`), and the confirmations of that key run into the assertion that only the heir
  is activated (`RoomStops.StrandedKeyHalts`).
- The transcript digest goes through a stream extraction, which stops at whitespace. The chain binds the history
  as far as digests are free of whitespace bytes (`Transcripts.FirstWordWholeIff`, `ChainBinds`,
  `WhitespaceUnbinds`). The message ids of the chain are never assigned in the code. Whatever they are, an entry digests
  the last message of its id after what stood under the greatest id before it (`ChainDigests`); it covers everything
  up to that message exactly when the ids before it never descend (`HistoryCoversIff`, `TopCoversIff`).
- A sub-message of unknown type makes the field loop of in-session messages turn forever
  (`Wire.FieldStepProgress`), and an opaque field of 2^32 bytes or more does not read back
  (`Wire.OpaqueRoundTripIff`).
- The triple Diffie-Hellman is asymmetric exactly when the long-term keys agree and make different points with the two
  ephemeral keys (`Crypto.PairSlotsSymmetricIff`), which in a group of prime order means that the ephemeral keys differ
  (`SharedLongTermKey`).
- A confirmation's next key is stored before the confirmation is checked (src/session.cc:339-341); an honest member
  announces only one per object, so successors still agree unless it starts over.

## Model

| member | source | states |
|---|---|---|
| Bytes.XorInto | src/session.cc:381-383 | the in-place byte loop leaves the XOR of both blocks in the buffer and nothing else changed |
| Bytes.SortedAscending | src/session.h:369-381 | peers come out in strictly ascending order, the order of the map's keys |
| Bytes.AscendingUnique | src/session.h:369-381 | that order is the only ascending one with these members, so all members see the same ring |
| Bytes.LittleEndianRoundTrip | src/message.h:97-102 | a length field reads back |
| Crypto.TripleDh | src/crypt.cc:345-429 | the slot and buffer loops hash the three points in the order the caller asks for |
| Crypto.PairSlotsSymmetric | src/crypt.cc:363-397 | with different long-term keys both ends hash the same ordered triple |
| Crypto.PairKeyMeans | src/crypt.cc:345-429 | both hash first the point of the smaller long-term key with the other end's ephemeral key, next that of the greater one with the other ephemeral key, last that of the ephemeral keys |
| Crypto.PairSlotsSymmetricIff | src/crypt.cc:363-397 | and they do so exactly when the long-term keys differ or the shared one makes one point with both ephemeral keys |
| Crypto.SharedLongTermKey | src/crypt.cc:363-397 | where one secret half makes different points with different public halves, that means the ephemeral keys agree |
| Crypto.CancellationCanHold | src/crypt.cc:345-429 | such a Diffie-Hellman exists |
| Ring.GroupEnc | src/session.cc:375-388 | publishes the XOR of right and left secret, by the in-place loop |
| Ring.GroupDec | src/session.cc:390-407 | the walk around the ring fills the array of all pairwise secrets |
| Ring.RingAgreement | src/session.cc:390-407 | for every size and every index: truthful shares of the others rebuild every pairwise secret |
| Ring.WalkExactIff | src/session.cc:390-407 | and the array is right exactly when every other member's recorded share is truthful |
| Ring.ArraysAgreeIff | src/session.cc:390-407 | two members hold one array exactly when the shares XOR to zero and one walk meets the other's start |
| Ring.TrueSharesCancel | src/session.cc:375-388 | truthful shares XOR to zero |
| Ring.CorruptWalk | src/session.cc:390-407 | one share off by an error: member i is wrong, by that error, exactly on the arc from the culprit to i-1 |
| Ring.CorruptShareDiverges | src/session.cc:390-407 | then no two members end up with the same array |
| Participants.ParticipantRoundTrip | src/participant.h:82-94 | a participant is printed as nickname, long-term key, ephemeral key and flag byte, and parses to itself |
| Participants.Difference | src/participant.cc:140-147 | the merge over the two ordered maps removes exactly the entries whose nickname and long-term key match |
| Participants.ComputeSessionId | src/session_id.h:61-76 | the loop hashes nickname, long-term and ephemeral key of each member, without the flag |
| Participants.BlobBindsIff | src/session_id.h:65-71 | the hashed string determines the members exactly when the nickname lengths are known |
| Participants.SidBindsIff | src/session_id.h:61-76 | and so does the session id, where the two strings do not collide |
| Participants.BlobAmbiguous | src/session_id.h:65-71 | without them one member can read like two |
| Participants.ParticipantsListToMap | src/session.h:332-344 | first entry of a nickname stays, its flag is the last one seen |
| Participants.ViewPreservesIdentity | src/session.h:332-344 | a list naming every member once, in any order, with any flags, rebuilds the sender's session id and peer order |
| Participants.SessionViewListsMembers | src/session.h:383-396 | the view a session sends is such a list |
| Participants.ViewCarries | src/session.h:332-396 | whoever reads it has every member as the sender has it: name, keys, and whether it is authenticated; and nobody's share |
| Participants.TokenAccepted | src/participant.cc:73-124 | between different long-term keys: be_authenticated accepts exactly the token the other end makes in authenticate_to |
| Participants.TokenBindsIff | src/participant.cc:73-124 | where the two strings do not collide, an owner accepts a token made for a member exactly when it is that member and the pairwise keys agree |
| Participants.OwnTokenRefused | src/participant.cc:73-124 | so nobody takes its own token back as the other's proof |
| Participants.TokensCanBind | src/participant.cc:102-124 | a suite in which tokens for different long-term keys never collide |
| Participants.CompareHash | src/crypt.cc:192-200 | the accumulating loop tells equal digests from different ones |
| Base64.RoundTrip | src/base64.cc:84-190 | decoding an encoding returns the bytes, for every length |
| Base64.SkippedIff | src/base64.cc:155-190 | the decoder skips exactly what is neither the pad nor one of the encoder's 64 symbols |
| Base64.SkippedCharactersDoNotMatter | src/base64.cc:155-190 | such characters inserted anywhere change nothing |
| Base64.EncodeInto | src/base64.cc:103-120 | the loop writes exactly the encoding and touches nothing behind it |
| Base64.DecodeInto | src/base64.cc:155-190 | the loop writes exactly the decoding, within the documented bound, and touches nothing behind it |
| Base64.TextRoundTrip | src/base64.cc:220-238 | the string decoder, which measures with strlen, returns what was encoded, whatever follows behind a NUL |
| Wire.OpaqueRoundTripIff | src/message.cc:37-59 | a field reads back exactly when its length fits 32 bits |
| Wire.ViewRoundTrip | src/message.cc:85-106 | a printed session view parses to itself |
| Wire.TableRoundTrip | src/message.cc:333-346 | a joiner's batch parses to the table of its entries, the first of each index staying |
| Wire.BodyRoundTrip | src/message.cc:266-317 | every signed body parses to itself |
| Wire.BodyLayout | src/message.cc:108-173 | where the parts of each body stand |
| Wire.OpaqueBack | src/message.cc:37-59 | what reads as a field is the field printed, and nothing else |
| Wire.BodyBack | src/message.cc:266-317 | what reads as a body was printed: exactly, but for what follows a confirmation, and with a view in any spelling that reads as it |
| Wire.ContentBack | src/message.cc:214-320 | what is read begins with version 1, type and session id, and all before the signature is what was signed; exactly a message of another version is refused as such |
| Wire.NameFirst | src/message.h:118-126 | nothing without the protocol's name in front is read at all |
| Wire.SignedRoundTrip | src/message.cc:188-320 | a whole signed message parses to the same type, id and fields, and the bytes checked are the bytes signed |
| Wire.JoinRequestRoundTrip | src/message.cc:151-159 | a join request parses to the joiner |
| Wire.ShortReads | src/message.h:104-110 | despite sign extension only the images of 1 and 2 read as 1 and 2 |
| Wire.FieldStepProgress | src/message.cc:450-479 | every recognised sub-message shortens the remainder; an unrecognised one leaves all as it was, so the loop never ends |
| Wire.InSessionRoundTrip | src/message.cc:366-482 | whoever has the session key reads the same indices, hashes, subtype and text, and the signed prefix exactly |
| Messages.Message.AppendMsgEnd | src/message.cc:188-212 | signs clear part and body, encrypts in-session messages, wraps everything in base64 and the protocol name |
| Messages.Message.CreateParticipantInfo | src/message.cc:108-124 | the finished message is the printed PARTICIPANTS_INFO; an empty view is refused |
| Messages.Message.CreateGroupShare | src/message.cc:126-137 | the finished message is the printed GROUP_SHARE |
| Messages.Message.CreateSessionConfirmation | src/message.cc:139-149 | the finished message is the printed SESSION_CONFIRMATION |
| Messages.Message.CreateJoinerAuth | src/message.cc:161-173 | the finished message is the printed JOINER_AUTH |
| Messages.Message.CreateJoinRequest | src/message.cc:151-159 | the finished message is the printed, unsigned JOIN_REQUEST |
| Messages.Message.CreateInSession | src/message.cc:366-407 | the finished message is the printed in-session message |
| Messages.Message.StringToSessionView | src/message.cc:99-106 | the consuming loop appends exactly the parsed participants |
| Messages.Message.BuildAuthenticationTable | src/message.cc:333-346 | the consuming loop builds the parsed table |
| Messages.Message.Unwrap | src/message.cc:63-68 | the fields hold what the parser of Wire reads, and failures are its failures |
| Messages.Message.UnwrapGeneric | src/message.cc:214-320 | by version, type, id and body |
| Messages.Message.UnwrapInSession | src/message.cc:409-482 | and by the decrypted fields |
| Sessions.EdgeOf | src/session.h:801-868 | which state and message type take which edge of the transition matrix |
| Sessions.BatchTableNext | src/session.cc:456-463 | each turn of the loop adds a token under the index exactly for a member not authenticated to |
| SessionSteps.HandleMoves | src/session.cc:542-566 | whatever a message makes state_handler do is one of five moves, each only under its guard |
| SessionSteps.AuthAndReshareMoves | src/session.cc:588-608 | the joiner stores a share only with an accepted token |
| SessionSteps.ConfirmAuthMoves | src/session.cc:877-893 | a member stores a share unless it comes with a token meant for it and that token is refused |
| SessionInvariants.ConfirmIfReadyFacts | src/session.cc:900-930 | key, next key and one confirmation appear exactly when everybody is authenticated and has contributed |
| SessionInvariants.SameKeyMaterial | src/session.cc:390-410 | the key depends on identities, ephemeral keys and shares alone |
| SessionInvariants.MarkAccounts | src/session.cc:335-350 | a mark is set only for a confirmation valid under the frozen key, and the stored next key is an announced one |
| SessionInvariants.HandleKeeps | src/session.cc:542-566 | data invariant: with a key everybody is authenticated and contributed, in session everybody confirmed under it; states only rise; one confirmation per object |
| SessionBirths.ConceiveFacts | src/session.cc:178-286 | a member's session is born waiting, unconfirmed, with the members, keys, flags and shares it was given, but for its own share and what the conceiving view brings |
| SessionRuns.StepKeeps | src/session.h:927-931 | staling as the room does it, suicide and departures keep the same invariant |
| SessionRuns.InSessionMeansConfirmed | src/session.cc:946-979 | after any run, in session: from every member a confirmation of this very key was heard |
| SessionRuns.JoinFacts | src/session.cc:193-202 | a joiner's session starts with the invariant and no unauthenticated share |
| SessionRuns.JoinerCountsOnlyVouchedShares | src/session.cc:588-608 | after any run a joiner counts only shares of members who sent the very token that a holder of their keys makes for it, whatever the view claimed |
| SessionKeys.OwnShareIsTrue | src/session.cc:375-388 | what a member publishes is the truthful share of its place on the ring |
| SessionKeys.SecretsRebuiltIff | src/session.cc:390-407 | a member rebuilds all secrets exactly when the shares it holds of the others are truthful |
| SessionKeys.MembersAgree | src/session.cc:390-410 | members of one session holding truthful shares agree on the array and the key |
| SessionKeys.KeyInputIs | src/session.cc:408-410 | for any number of members the hash input of the key is the first n + 1 bytes of the array, without the session id |
| SessionKeys.KeyInputsAgreeIff | src/session.cc:408-410 | two arrays under any two ids give one hash input exactly when they agree in size and in those bytes |
| SessionKeys.KeyIgnoresAllButFirstSecret | src/session.cc:408-410 | up to 31 members exactly when the first n + 1 bytes of the first pairwise secret agree |
| SessionKeys.OtherArrayOneKey | src/session.cc:408-410 | for every array, of any size, there is a different one that makes the same key |
| SessionKeys.JoinerBatchAccepted | src/session.cc:449-471 | the batch holds at the verifier's index a token it accepts |
| SessionKeys.JoinerWelcomed | src/session.cc:877-893 | handling what the joiner sent, a waiting member authenticates it and stores its truthful share |
| SessionKeys.MemberWelcomed | src/session.cc:499-532 | handling the view a member sends when it takes in a joiner, the waiting joiner authenticates the member and stores its truthful share, unless it has no nickname |
| SessionKeys.PeerChildBornReady | src/participant.h:241-251 | sessions bred by leave or timer are born with every share counted |
| SessionKeys.FirstShareGeneratesKey | src/session.cc:877-930 | there the first share generates the key, and the array is right exactly when the old shares happen to be the new ones |
| SessionRuns.VouchesIff | src/session.cc:588-608 | accepted is, between different long-term keys, exactly that token |
| Completeness.KeyTimeIff | src/session.cc:900-930 | the key is generated exactly when a share is taken up and everybody gets authenticated and counted, by what was there before or by what has come |
| Completeness.SharesGenerateKey | src/session.cc:877-930 | for any waiting session and any messages in any order, as long as the shares it takes up are truthful: when the key is generated, and that its array is right exactly when no share is missing by then but those stored before that happen to be truthful |
| Completeness.ConfirmationsEstablish | src/session.cc:946-979 | from the moment a session has its key, whatever arrives: the key stays, exactly those heard rightly or marked before are marked, and it is in session exactly when that is everybody and one was heard |
| Completeness.ExchangeCompletes | src/session.cc:542-566 | for any waiting session and any messages, shares and confirmations in any order: it gets into session exactly when it generates its key and a right confirmation of every member comes after that |
| Completeness.PublishedShareTruthful | src/session.cc:480-492 | the share a member sends is truthful to the others |
| Completeness.PublishedViewTruthful | src/session.cc:499-532 | so is the view it sends a joiner, share and token |
| Completeness.PublishedAuthTruthful | src/session.cc:449-471 | and the batch a joiner sends the members, share and token |
| Completeness.PeerPublishes | src/session.cc:279-280 | and it is all a session bred by a leave or the timer says at birth |
| Completeness.SpokenConfirmationRight | src/session.cc:900-930 | and so is the confirmation it sends with its key |
| Inheritance.InheritedExchange | src/participant.h:241-251 | a session that inherits flags and shares generates its key exactly when the messages make up for what the list lacks, of the right secrets exactly when every inherited share left by then is truthful |
| Inheritance.JoinExchange | src/session.cc:684-728 | one bred by a join request: exactly when the joiner's token has come, and right exactly when by then every other live member's new share has come or its old one is the new one |
| Inheritance.JoinerAuthFirst | src/session.cc:877-930 | in particular the joiner's message coming first generates the key of the old shares |
| Inheritance.PeerExchange | src/session.cc:36-58 | one bred by a leave or the timer: at the first share |
| Inheritance.RebornExchange | src/room.cc:486-505 | one bred under a new parent: when the members it adds are made up for, with the flags and shares they had in limbo |
| Inheritance.ViewExchange | src/session.cc:747-803 | one bred by a view: when every other share has come and everyone not vetted has proved itself, and always right |
| Inheritance.TruthfulViewJoins | src/session.cc:193-202 | a truthful view makes a joiner's session |
| Inheritance.JoinerExchange | src/session.cc:588-608 | the joiner's session: exactly when every other member's view has come, and it is the one key of the id |
| Inheritance.JoinerEstablishes | src/session.cc:946-979 | and it gets into session exactly when all those views have come and a right confirmation of every member comes after the last of them, whatever else arrives |
| SessionLaws.ViewTokenIff | src/session.cc:588-608 | a view with the token its sender makes for the joiner admits the sender and its share; with any other token it is an authentication error that changes nothing |
| SessionLaws.BatchTokenIff | src/session.cc:877-893 | the same for the entry a joiner's batch has for a waiting member |
| SessionLaws.JoinTokenIff | src/session.cc:193-202 | and for the view that makes a joiner's session: born, or refused |
| SessionLaws.StrangersRefused | src/session.cc:542-566 | a message of the key exchange from nobody in the session, or under another key than the session has for its sender, is refused as such and changes nothing |
| SessionLaws.ViewRefusals | src/session.cc:193-263 | the joiner's constructor refuses an empty view, one without the joiner or without its sender, and one under another key than it lists for its sender, each as such |
| SessionLaws.LeavesIff | src/session.cc:1304-1355 | a member becomes a leaver by a message exactly when it is its own LEAVE_MESSAGE under the session key, to a session in session; nothing else changes, and the successor without it is bred exactly when the owner stays and has a next key; no other message touches the leavers |
| SessionLaws.ExpiresIff | src/session.cc:1323-1335 | a leaving session ends by a message exactly when it can read it and everybody has farewelled; no in-session message ends any other |
| SessionLaws.ConfirmationMarksIff | src/session.cc:335-350 | a confirmation made under any key for anybody marks its sender exactly when it was made for this sender under this key, where the two strings do not collide, and marks nobody else |
| SessionLaws.SomeConfirmationsCollide | src/session.cc:315-321 | in every suite and under every key two nicknames have one confirmation |
| SessionLaws.ViewTells | src/session.cc:499-532 | the view a member sends a joiner carries its signature, id and the joiner's token, and lists everybody under the right keys with the sender's own flags |
| SessionLaws.JoinerBelieves | src/session.cc:193-263 | a joiner's session takes these flags over for everybody but itself and the sender, and counts nobody else's share |
| SessionLaws.JoinerBatchNames | src/session.cc:449-471 | the joiner answers with a token for everybody but itself |
| SessionLaws.Handshake | src/session.cc:684-728 | for any session in session and any joiner with a nickname and a long-term key of its own: the answer to its request makes the joiner's session, the host admitted and the others trusted as by the host, and the joiner's answer makes the host's new session admit the joiner |
| SessionLaws.RequestIff | src/session.cc:684-728 | what a join request does to a session, in every case: ignored, malformed, a nickname taken, an owner gone, no next key, or a new session of the future members and the joiner |
| SessionLaws.AddedIsInvited | src/session.cc:268-277 | a session that adds one member to its parent begins with a view whose token is made for that member |
| TwoMembers.EarlyConfirmationIsLost | src/session.h:801-868 | a whole exchange of honest members, with any primitives: the guest's confirmation heard after its tokens and share brings the host into session; heard before them it leaves the host with the same key and never in session, whatever else it hears |
| StaleShares.SharesOfTwoAreZero | src/session.cc:375-388 | between two members the truthful shares are zero |
| StaleShares.JoinToTwo | src/session.cc:877-930 | when a third joins two and its message comes first, the array is right exactly when the other old member's two new secrets are the same |
| StaleShares.JoinedKeyGoesWrong | src/session.cc:877-930 | a whole run of truthful messages, from joining a session of two over in session to letting a third join, that ends with a key other than the agreed one; its primitives are a truncating hash and an exclusive-or Diffie-Hellman, and the two announce one next key, while `JoinToTwo` is about all |
| Carriage.PacketCrosses | src/message.cc:188-320 | what a session sends reaches another with its session id, its signed bytes and its content |
| Carriage.EntriesAreTable | src/session.cc:456-463 | the entries a joiner appends read back as its table of tokens |
| Carriage.JoinerAuthCrosses | src/message.cc:161-173 | a joiner's tokens and share reach every member, each token under the member's index |
| Network.NextKeeps | src/session.cc:542-566 | every step of any object keeps the invariant of the network |
| Network.ReachesInvariant | src/session.cc:542-566 | so it holds after every run |
| Agreement.ConfirmationsCanBind | src/session.cc:315-321 | the assumption on the hash can be met, together with different confirmations, under each key, for all nicknames of less than 32 bytes |
| Agreement.SameKey | src/session.cc:335-350 | in every run, if an object is in session, every honest member has generated that very key in an object of that id |
| Network.FreshFacts | src/room.cc:220-237 | in runs where nobody starts a second object of one id under one key, no two objects share both |
| Agreement.InSessionAgree | src/session.cc:946-979 | in such runs any two members in session under one id, with one honest member in common, hold one key |
| Agreement.AnnouncedAgree | src/session.cc:903-923 | and the same next key of each honest member |
| Agreement.SuccessorsAgree | src/session.cc:1361-1368 | and, all honest, compute the same future members and keys |
| Agreement.JoinsAgree | src/session.cc:684-728 | and answer one join request with sessions of one id |
| Agreement.LeavesAgree | src/session.cc:808-843 | and one leave, too |
| SecondObject.SecondObjectSplits | src/room.cc:220-237 | a whole run of two honest members in which the joiner starts over: both in session under one id with one key, but with different next keys and successors |
| SecondObject.TwoKeys | src/room.cc:220-237 | a whole run in which an honest guest joins twice from invitations of a host that gives it two shares: both objects in session under one id, with different keys, although confirmations bind |
| Agreement.OnlySoloViewCompletes | src/session.cc:275-277 | a view completes the session it conceives only for a sole member that sent it to itself |
| SessionActions.HandlePhases | src/session.cc:542-566 | how states move with actions; state_handler never runs into an assertion; what it breeds is fit, adding at most one member to a parent it records |
| SessionActions.ShrinkBreeds | src/session.cc:808-843 | a leave breeds a session of another id, without the leaver, and never dies |
| SessionActions.CreatorIff | src/session.cc:204-286 | a creator's constructor fails its assertion exactly for more or fewer members than one, and makes a session, which begins with its view, exactly for itself alone under a key it has |
| SessionActions.AcceptFatalIff | src/session.cc:268-272 | without a message the constructor's assertion fails exactly when more than one member is new |
| SessionActions.PlistPhases | src/session.cc:747-803 | a view for an unknown session runs into an assertion exactly when considered and too crowded or without its sender, and any other considered view breeds a session under the id of its list exactly when the heir has a next key |
| RoomInvariants.HandleCurrentKeeps | src/room.cc:262-337 | up to the activation the room's assertions hold and either the heir has just confirmed or the room is governed |
| RoomInvariants.PresumeKeeps | src/room.cc:434-448 | staling everybody else leaves at most the heir with an unconfirmed key |
| RoomActivation.RebirthFatalIff | src/room.cc:486-505 | re-parenting one session fails an assertion exactly when it adds more than one member |
| RoomActivation.RefreshedFacts | src/room.cc:468-532 | every session bred replaces one in limbo with the new parent's members; it all stops exactly when one is crowded |
| RoomActivation.FirstOfItsIdStays | src/room.cc:468-532 | a session enters under exactly the ids of those in limbo that are born again, and of several born under one id it is the first visited that stays |
| RoomActivation.ActivationCleans | src/room.cc:402-426 | after activation: dead ones gone, limbo and the old active session dead, alive only the new active session and newborns |
| RoomActivation.CleanedGoverned | src/room.cc:402-426 | and the room is governed |
| RoomRuns.HeirConfirmedIff | src/session.cc:946-979 | seen on the room before the message: it brings a session into session exactly when it is the confirmation that was still missing to the heir |
| RoomRuns.ReceiveKeeps | src/room.cc:182-353 | receive_handler keeps a room governed; its own assertions, the heir's among them, never fire; session code stops it exactly for a fatal view, or for the heir's missing confirmation in a room overcrowded for the heir |
| RoomRuns.ShrinkKeeps | src/room.cc:604-720 | a departure never stops the room and keeps it governed |
| RoomRuns.InsertKeepsIff | src/room.cc:722-740 | inserting a newborn keeps it governed exactly when its id is not the active one |
| RoomRuns.FutureIdentityIff | src/session.cc:1361-1368 | the successor's id differs exactly when somebody has left or announced a key other than the one it has |
| RoomRuns.ResessionKeepsIff | src/session.cc:36-58 | the session timer keeps the room governed exactly then, or when the session has no next key to breed with |
| RoomRuns.RejoinKeeps | src/session.cc:128-145 | and the rejoin timer |
| RoomRuns.GovernedForever | src/room.cc:182-740 | over every run from a governed room: one active session, the only one in session, the heir in the universe, no other key in waiting, no assertion of its own |
| RoomRuns.FirstActivationIff | src/room.cc:413-426 | the first activation settles, and makes the room governed exactly when no other session holds a key |
| RoomStarts.JoiningRuns | src/room.cc:212-261 | over every run of a joining room whose views carry the id of their own list: it goes on joining, or a message makes it activate its first session in a room that meets what FirstActivationIff asks for |
| RoomLaws.JoinEnters | src/room.cc:294-328 | a join request to a governed room: a session of the heir's future members and the joiner enters it unless there is one of this identity, every other session stays as it was; or nothing happens, exactly when the heir cannot answer |
| RoomLaws.ViewEnters | src/room.cc:276-328 | a view of an unknown id: a session of its list enters exactly when the heir considers it and has a next key, trusting whom the heir has heard announce these keys; a fatal one stops the room, any other changes nothing |
| RoomLaws.StrangersPassBy | src/room.cc:276-293 | any other message for an unknown session changes nothing, nor does a view while the active session is leaving |
| RoomLaws.QuietMessage | src/room.cc:262-275 | a message that neither makes a key nor ends a member's stay changes its own session and nothing else |
| RoomLaws.KeyMakesHeir | src/room.cc:330-334 | the message that makes a session generate its key makes it the heir and puts every other session that is neither dead nor in session aside |
| RoomLaws.LeaveEnters | src/room.cc:322-334 | a leave told to the session in session: it is noted, the successor without the leaver enters unless there is one of its identity, becomes the heir and puts the others aside; without a next key it is only noted |
| RoomLaws.ConfirmationActivates | src/room.cc:339-353 | the confirmation that was still missing activates the heir and cleans the room around it, unless it is overcrowded |
| RoomLaws.DepartureEnters | src/room.cc:604-720 | a departure does what a leave does, but its successor takes the place of whatever has its identity |
| RoomLaws.TimerEnters | src/session.cc:36-58 | the session timer lets a session of the same live members under their next keys in, in place of a live one of its identity but not of a dead one |
| RoomLaws.RejoiningEnds | src/session.cc:128-145 | the rejoin timer ends its session; in a joining room it, and any departure, ends them all |
| RoomLaws.JoinerHears | src/room.cc:212-261 | what any message does to a joining room: handled by its live session, with errors escaping; a view for none makes a joiner's session under the id it carries; a confirmation for none ends every session in which nobody is confirmed; nothing else does anything |
| RoomLaws.AssertionsFail | src/room.cc:265-267 | exactly when each of the room's own assertions would fail: no active session, no heir for a message that needs one, no parent or a dead one, a dead newcomer |
| RoomStops.ConfirmationsReachActivation | src/room.cc:339-353 | the right confirmations of a key lead its session to activation, whatever the room thinks of it |
| RoomStops.StrandedKeyHalts | src/room.cc:404-408 | a key left over from the first activation: its confirmations end the run in the assertion that only the heir is activated |
| RoomStops.OvercrowdedStops | src/session.cc:268-272 | in a room overcrowded for its heir the heir's confirmations end the run in the session code's assertion |
| RoomStops.ThreeLeavesStop | src/session.cc:829-830 | so in any governed room after three leaves, once the third successor has its key |
| RoomStops.FourMembersStop | src/session.cc:829-830 | and it happens: with any primitives, from the first activation of a room of four over three leaves to the failed assertion |
| RoomPedigree.PedigreedForever | src/session.cc:268-272 | over every run of a room a session that records a parent adds at most one member to it |
| RoomPedigree.OnlyParentlessStop | src/session.cc:829-830 | so a message other than a fatal view stops a governed room only on behalf of a session without a parent, two of whose members the heir does not expect |
| RoomJoins.PendingDelta | src/session.cc:1375-1375 | a pending join adds exactly its joiner, by nickname and long-term key |
| RoomJoins.JoinStartsPending | src/session.cc:684-728 | a join request starts a pending join |
| RoomJoins.RebornIff | src/room.cc:486-505 | re-parenting breeds a session exactly when the owner stays, the new parent has a next key and at most one member is unexpected |
| RoomJoins.PendingReborn | src/room.cc:486-505 | for a session that adds at most one member it never stops the room, and the newborn adds whom the parent does not expect, under the old keys |
| RoomJoins.PendingSurvives | src/room.cc:486-505 | any number of re-parentings: a session is born each time, with the last parent's live members and the joiner under the keys of the request, exactly as long as no parent has had the joiner |
| RoomJoins.LimboReplaced | src/room.cc:468-532 | after an activation every session in limbo that adds at most one member has one under the re-parented id, bred to replace it unless a live session had that id |
| RoomJoins.ReplacementAdds | src/room.cc:486-505 | and that one still adds whom the new parent does not expect |
| RoomJoins.LeaversReturn | src/session.cc:829-830 | a session bred by a leave brings all its members back when re-parented |
| RoomJoins.ParentlessCrowdedIff | src/session.cc:268-272 | and stops the room exactly when the owner is a member and two of them are not expected |
| SessionObjects.Session.PopulatePeers | src/session.h:369-434 | the object's members, peers, own index, flags and id are those of the value |
| SessionObjects.Session.SecretShareOn | src/session.cc:356-373 | the secret with the neighbour on the asked side, by index arithmetic |
| SessionObjects.Session.GroupEnc | src/session.cc:375-388 | the object stores its own share |
| SessionObjects.Session.GroupDec | src/session.cc:390-416 | the object's key is the one of the value |
| SessionObjects.Session.EverybodyAuthenticatedAndContributed | src/session.cc:418-425 | the loop decides readiness |
| SessionObjects.Session.EveryoneConfirmed | src/session.cc:427-434 | the loop decides whether all are confirmed |
| SessionObjects.Session.NooneConfirmed | src/session.cc:436-443 | and whether none is |
| SessionObjects.Session.JoinerSendAuthAndShare | src/session.cc:449-471 | the loop packs one token per member not authenticated to |
| SessionObjects.Session.SendConfirmationIfReady | src/session.cc:900-930 | the object's step is the value's |
| SessionObjects.Session.AuthenticateAndReshare | src/session.cc:588-608 | the object's step is the value's |
| SessionObjects.Session.ConfirmAuthAddUpdateShareRepo | src/session.cc:877-893 | the object's step is the value's |
| SessionObjects.Session.MarkConfirmedAndMayMoveSession | src/session.cc:946-979 | the object's step is the value's |
| SessionObjects.Session.FutureParticipants | src/session.cc:1361-1368 | difference and loop give the live members under their next keys |
| SessionObjects.Session.Create | src/session.cc:178-286 | the constructor builds exactly the conceived session, or fails as it does |
| SessionObjects.Session.CreateJoiner | src/session.cc:193-263 | the same for the joiner |
| SessionObjects.Session.InitASessionWithNewUser | src/session.cc:684-728 | the object breeds the value's child |
| SessionObjects.Session.InitASessionWithPlist | src/session.cc:747-803 | the object breeds the value's child |
| SessionObjects.Session.ShrinkOn | src/session.cc:808-843 | the object notes the zombie and breeds the value's heir |
| SessionObjects.Session.ReceiveInSession | src/session.cc:1304-1355 | the object's step is the value's |
| SessionObjects.Session.StateHandler | src/session.cc:542-566 | the object's new state and action are those of the value's step |
| RoomObjects.Room.StaleInLimboSessionsPresumeHeir | src/room.cc:434-448 | the loop over the session objects does what the value says |
| RoomObjects.SweepAll | src/room.cc:468-532 | the refresh loop kills, breeds and notes exactly as the value says |
| RoomObjects.Room.RefreshStaleInLimboSessions | src/room.cc:457-536 | the object's refresh is the value's |
| RoomObjects.Room.ActivateSession | src/room.cc:402-426 | the object's activation is the value's |
| RoomObjects.Room.HandleAsCurrentUser | src/room.cc:262-337 | the object's step is the value's |
| RoomObjects.Room.HandleAsJoiner | src/room.cc:212-261 | the object's step is the value's |
| RoomObjects.Room.ReceiveHandler | src/room.cc:182-353 | the object's step is the value's; a governed room stays governed or stops in session code only, as stated |
| RoomObjects.Room.ShrinkRoomOn | src/room.cc:604-720 | the object's step is the value's |
| RoomObjects.Room.InsertNewSession | src/room.cc:722-740 | the object's step is the value's |
| RoomObjects.Room.SessionTimerOf | src/session.cc:36-58 | the object's step is the value's |
| RoomObjects.Room.RejoinTimerOf | src/session.cc:128-145 | the object's step is the value's |
| Transcripts.FirstWordWholeIff | src/session.cc:1254-1255 | the extraction returns the whole digest exactly when it has no whitespace byte |
| Transcripts.FirstWordIs | src/session.cc:1254-1255 | and in general what stands between leading whitespace and the next |
| Transcripts.Transcript.AddMessage | src/session.cc:1247-1271 | the new entry is the digest of the last entry's first word, the delimiter and the message |
| Transcripts.Transcript.AccountForSessionAndKey | src/session.cc:323-333 | the first entry is made of session key and id |
| Transcripts.ChainDigests | src/session.cc:1247-1271 | whatever ids the messages come under, the map holds under each id the digest of its history: its last message after what stood under the greatest id before |
| Transcripts.TopCoversIff | src/session.cc:1247-1271 | the digest under the greatest id covers all messages exactly when their ids never descend |
| Transcripts.HistoryCoversIff | src/session.cc:1247-1271 | the digest under any id covers everything up to its last message exactly when the ids before that never descend |
| Transcripts.ChainBinds | src/session.cc:1247-1271 | equal digests mean equal key, id and messages in order, for clean digests without collision |
| Transcripts.AgreementAtIdBinds | src/session.cc:1247-1271 | for clean digests without collision, entries of two members under whatever ids are equal exactly when key, session id and their histories are |
| Transcripts.WhitespaceUnbinds | src/session.cc:1254-1255 | with whitespace two histories can end in one digest although nothing collides |

## Left out

- libgcrypt itself: curve arithmetic, SHA-256, AES-GCM, s-expressions, secure wiping, allocation and deletion.
- Logging, display, the application's callbacks, timers as such: a timer is an event that may happen.
- Acknowledgements, send and receive counters, consistency timers and the parent message check, which nothing calls.
- Leaving by oneself and the state that follows it: `leave()` of a last member goes on after its suicide.
- Sending a join request, the size of the room, and placing the first session of a lonely joiner: a room starts with no session, and the session of a creator is what `SessionObjects.Session.Create` makes for one.
- Tokens that are not 32 bytes long and the uninitialised token of a view without a joiner, which stands as zero bytes.
- Reading past the end in `decode_opaque_field` when fewer than four bytes are left: the model rejects the message.
- The two base64 tables are written as ranges of characters; `otrl_base64_otr_encode` is `EncodeString`.
- The encryption of user messages is in the codec; at the session level a message names the key it was encrypted with.
- SessionRuns.JoinerCountsOnlyVouchedShares: is about sessions the joiner's constructor makes; other sessions count shares sent with a signature alone.
- Agreement.InSessionAgree: takes for granted that nobody starts a second object of one id under one key; without it it is false, by the run `SecondObject.TwoKeys`.
- Agreement.AnnouncedAgree: takes the same for granted; without it it is false, by the run `SecondObject.SecondObjectSplits`.
- Agreement.SuccessorsAgree: takes the same for granted; without it it is false, by the same run.
- Agreement.JoinsAgree: takes the same for granted, as it rests on `SuccessorsAgree`.
- Agreement.LeavesAgree: takes the same for granted, as it rests on `SuccessorsAgree`.
- Network.ReachesInvariant: excludes the one birth that `OnlySoloViewCompletes` describes, a sole member conceiving from its own view.
- RoomRuns.GovernedForever: takes for granted that the session timer finds a leaver or a new announced key, be it only the owner's own, which is drawn at random; `ResessionKeepsIff` says exactly why.
- Completeness.ExchangeCompletes: the surroundings of all steps of one exchange are one value; of it only the step that generates the key uses the key it supplies.
- Copying a Room or a UserState, and what happens to a session object after it is taken out of the map.
