/** The transcript chain of a session: every received message is hashed together with the digest before it. */
module Transcripts {
  import opened Bytes
  import opened Crypto

  const DELIMITER: Bytes := [58, 111, 51]

  /** What the stream extraction operator treats as the end of a word. */
  predicate Whitespace(b: Byte) {
    b == 32 || 9 <= b <= 13
  }

  predicate Clean(s: Bytes) {
    forall i :: 0 <= i < |s| ==> !Whitespace(s[i])
  }

  function SkipWhitespace(s: Bytes): (r: Bytes)
    ensures |r| <= |s|
  {
    if s != [] && Whitespace(s[0]) then SkipWhitespace(s[1..]) else s
  }

  function TakeWord(s: Bytes): (r: Bytes)
    ensures Clean(r) && |r| <= |s|
  {
    if s == [] || Whitespace(s[0]) then [] else [s[0]] + TakeWord(s[1..])
  }

  /** What `>>` reads of a string: its first word. */
  function FirstWord(s: Bytes): (r: Bytes)
    ensures Clean(r)
  {
    TakeWord(SkipWhitespace(s))
  }

  lemma {:induction false} TakeWordWhole(s: Bytes)
    ensures TakeWord(s) == s <==> Clean(s)
  {
    if s != [] && !Whitespace(s[0]) {
      TakeWordWhole(s[1..]);
      assert s == [s[0]] + s[1..];
      assert Clean(s) ==> Clean(s[1..]);
    }
  }

  /** The extraction returns the whole digest exactly when no byte of it is whitespace. */
  lemma FirstWordWholeIff(s: Bytes)
    ensures FirstWord(s) == s <==> Clean(s)
  {
    TakeWordWhole(s);
    if s != [] && Whitespace(s[0]) {
      assert |FirstWord(s)| <= |SkipWhitespace(s[1..])| <= |s| - 1;
    }
  }

  /** In general it returns what stands between the whitespace the string begins with and the next. */
  lemma {:induction false} FirstWordIs(before: Bytes, word: Bytes, after: Bytes)
    requires (forall i :: 0 <= i < |before| ==> Whitespace(before[i])) && Clean(word) && word != []
    requires after != [] ==> Whitespace(after[0])
    ensures FirstWord(before + (word + after)) == word
  {
    if before == [] {
      assert before + (word + after) == word + after && !Whitespace((word + after)[0]);
      TakeWordUpTo(word, after);
    } else {
      assert (before + (word + after))[1..] == before[1..] + (word + after);
      FirstWordIs(before[1..], word, after);
    }
  }

  lemma {:induction false} TakeWordUpTo(word: Bytes, after: Bytes)
    requires Clean(word) && (after != [] ==> Whitespace(after[0]))
    ensures TakeWord(word + after) == word
  {
    if word == [] {
      assert word + after == after;
    } else {
      assert (word + after)[1..] == word[1..] + after && word == [word[0]] + word[1..];
      TakeWordUpTo(word[1..], after);
    }
  }

  // ---------- the chain as values ----------

  function FirstLink(su: Suite, key: Block, sid: Block): Block {
    Hash(su, Hash(su, key + sid))
  }

  function LinkString(before: Block, message: Bytes): Bytes {
    FirstWord(before) + (DELIMITER + message)
  }

  function Link(su: Suite, before: Block, message: Bytes): Block {
    Hash(su, LinkString(before, message))
  }

  /** The digest after all messages. */
  function Links(su: Suite, key: Block, sid: Block, messages: seq<Bytes>): Block {
    if messages == [] then FirstLink(su, key, sid)
    else Link(su, Links(su, key, sid, messages[..|messages| - 1]), messages[|messages| - 1])
  }

  /** Everything hashed on the way. */
  ghost function Preimages(su: Suite, key: Block, sid: Block, messages: seq<Bytes>): set<Bytes> {
    if messages == [] then {key + sid, Hash(su, key + sid)}
    else Preimages(su, key, sid, messages[..|messages| - 1])
         + {LinkString(Links(su, key, sid, messages[..|messages| - 1]), messages[|messages| - 1])}
  }

  ghost predicate CollisionFree(su: Suite, strings: set<Bytes>) {
    forall x, y :: x in strings && y in strings && Hash(su, x) == Hash(su, y) ==> x == y
  }

  /** No digest of the chain but the last contains a whitespace byte. */
  ghost predicate CleanChain(su: Suite, key: Block, sid: Block, messages: seq<Bytes>) {
    messages != [] ==>
      Clean(Links(su, key, sid, messages[..|messages| - 1])) && CleanChain(su, key, sid, messages[..|messages| - 1])
  }

  lemma {:induction false} LastPreimage(su: Suite, key: Block, sid: Block, messages: seq<Bytes>)
    ensures messages == [] ==> Hash(su, key + sid) in Preimages(su, key, sid, messages)
    ensures messages != [] ==>
      LinkString(Links(su, key, sid, messages[..|messages| - 1]), messages[|messages| - 1])
        in Preimages(su, key, sid, messages)
  {}

  /** A clean link determines the digest before it and the message. */
  lemma LinkStringBinds(before: Block, message: Bytes, otherBefore: Block, otherMessage: Bytes)
    requires Clean(before) && Clean(otherBefore)
    requires LinkString(before, message) == LinkString(otherBefore, otherMessage)
    ensures before == otherBefore && message == otherMessage
  {
    FirstWordWholeIff(before);
    FirstWordWholeIff(otherBefore);
    var x, y := LinkString(before, message), LinkString(otherBefore, otherMessage);
    assert x[..HASH_LENGTH] == before && y[..HASH_LENGTH] == otherBefore;
    assert x[HASH_LENGTH + 3..] == message && y[HASH_LENGTH + 3..] == otherMessage;
  }

  /** The first digest is of a string too short to be a link. */
  lemma LinkLonger(before: Block, message: Bytes)
    requires Clean(before)
    ensures |LinkString(before, message)| > HASH_LENGTH
  {
    FirstWordWholeIff(before);
  }

  /** The chain is binding: with clean digests and no collision among what was hashed, equal digests mean equal
      session key and id, and the same messages in the same order back to the start. */
  lemma {:induction false} ChainBinds(su: Suite, key: Block, sid: Block, messages: seq<Bytes>,
                                      otherKey: Block, otherSid: Block, otherMessages: seq<Bytes>)
    requires CleanChain(su, key, sid, messages) && CleanChain(su, otherKey, otherSid, otherMessages)
    requires CollisionFree(su, Preimages(su, key, sid, messages) + Preimages(su, otherKey, otherSid, otherMessages))
    requires Links(su, key, sid, messages) == Links(su, otherKey, otherSid, otherMessages)
    ensures key == otherKey && sid == otherSid && messages == otherMessages
    decreases |messages|
  {
    hide FirstWord, LinkString;
    LastPreimage(su, key, sid, messages);
    LastPreimage(su, otherKey, otherSid, otherMessages);
    if messages == [] && otherMessages == [] {
      assert key + sid == otherKey + otherSid;
      assert (key + sid)[..HASH_LENGTH] == key && (key + sid)[HASH_LENGTH..] == sid;
      assert (otherKey + otherSid)[..HASH_LENGTH] == otherKey && (otherKey + otherSid)[HASH_LENGTH..] == otherSid;
    } else if messages == [] {
      var otherFront := otherMessages[..|otherMessages| - 1];
      LinkLonger(Links(su, otherKey, otherSid, otherFront), otherMessages[|otherMessages| - 1]);
      assert false;
    } else if otherMessages == [] {
      LinkLonger(Links(su, key, sid, messages[..|messages| - 1]), messages[|messages| - 1]);
      assert false;
    } else {
      var front, otherFront := messages[..|messages| - 1], otherMessages[..|otherMessages| - 1];
      LinkStringBinds(Links(su, key, sid, front), messages[|messages| - 1],
                      Links(su, otherKey, otherSid, otherFront), otherMessages[|otherMessages| - 1]);
      ChainBinds(su, key, sid, front, otherKey, otherSid, otherFront);
      assert messages == front + [messages[|messages| - 1]];
      assert otherMessages == otherFront + [otherMessages[|otherMessages| - 1]];
    }
  }

  // ---------- where it is not binding ----------

  function Repeat(b: Byte, n: nat): (s: Bytes)
    ensures |s| == n && forall i :: 0 <= i < n ==> s[i] == b
  {
    seq(n, _ => b)
  }

  function Digest(length: nat): Block {
    if length == 64 then Repeat(97, 32)
    else if length == 32 then Repeat(98, 32)
    else if length == 36 then [99] + Repeat(32, 31)
    else if length == 37 then [99, 32] + Repeat(100, 30)
    else if length == 5 then Repeat(101, 32)
    else Repeat(0, 32)
  }

  lemma FirstWordOf(word: Bytes, rest: Bytes)
    requires Clean(word) && word != [] && (rest == [] || Whitespace(rest[0]))
    ensures FirstWord(word + rest) == word
  {
    assert (word + rest)[0] == word[0];
    TakeWordOf(word, rest);
  }

  lemma {:induction false} TakeWordOf(word: Bytes, rest: Bytes)
    requires Clean(word) && (rest == [] || Whitespace(rest[0]))
    ensures TakeWord(word + rest) == word
  {
    if word == [] {
      assert word + rest == rest;
    } else {
      assert (word + rest)[1..] == word[1..] + rest && (word + rest)[0] == word[0];
      TakeWordOf(word[1..], rest);
      assert word == [word[0]] + word[1..];
    }
  }

  lemma TwoLinks(su: Suite, key: Block, sid: Block, a: Bytes, b: Bytes)
    ensures var first := Link(su, FirstLink(su, key, sid), a);
      && Links(su, key, sid, [a, b]) == Link(su, first, b)
      && Preimages(su, key, sid, [a, b])
         == {key + sid, Hash(su, key + sid), LinkString(FirstLink(su, key, sid), a), LinkString(first, b)}
  {
    hide LinkString;
    var none: seq<Bytes> := [];
    assert [a, b][..1] == [a] && [a][..0] == none;
    assert Links(su, key, sid, [a]) == Link(su, FirstLink(su, key, sid), a);
    assert Preimages(su, key, sid, [a])
        == {key + sid, Hash(su, key + sid)} + {LinkString(FirstLink(su, key, sid), a)};
  }

  lemma DigestsDiffer(i: nat, j: nat)
    requires i in {64, 32, 36, 37, 5} && j in {64, 32, 36, 37, 5} && Digest(i) == Digest(j)
    ensures i == j
  {
    assert Digest(64)[0] == 97 && Digest(32)[0] == 98 && Digest(5)[0] == 101;
    assert Digest(36)[0] == 99 && Digest(36)[2] == 32 && Digest(37)[0] == 99 && Digest(37)[2] == 100;
  }

  /** Whitespace cuts both digests down to one word. */
  lemma BothCutShort()
    ensures FirstWord(Digest(36)) == FirstWord(Digest(37)) == [99]
  {
    FirstWordOf([99], Repeat(32, 31));
    FirstWordOf([99], [32] + Repeat(100, 30));
    assert [99, 32] + Repeat(100, 30) == [99] + ([32] + Repeat(100, 30));
  }

  lemma LengthsApart(su: Suite, strings: set<Bytes>)
    requires forall x :: Hash(su, x) == Digest(|x|)
    requires forall x :: x in strings ==> |x| in {64, 32, 36, 37, 5}
    requires forall x, y :: x in strings && y in strings && |x| == |y| ==> x == y
    ensures CollisionFree(su, strings)
  {
    hide Digest, Hash;
    forall x, y | x in strings && y in strings && Hash(su, x) == Hash(su, y) ensures x == y {
      DigestsDiffer(|x|, |y|);
    }
  }

  /** With a whitespace byte in a digest two different histories of one session can end in one digest although
      nothing that was hashed collides. */
  lemma WhitespaceUnbinds()
    ensures exists su: Suite, key: Block, sid: Block, m: seq<Bytes>, n: seq<Bytes> ::
      && m != n && Links(su, key, sid, m) == Links(su, key, sid, n)
      && CollisionFree(su, Preimages(su, key, sid, m) + Preimages(su, key, sid, n))
  {
    var su := DigestSuite();
    hide Links, Preimages, CollisionFree, FirstWord, Digest, Hash;
    var key: Block := ZERO;
    var first, other, last: Bytes := [1], [1, 1], [2];
    var m: seq<Bytes>, n: seq<Bytes> := [first, last], [other, last];
    UnboundBy(su, key, key, first, other, last);
    assert |m[0]| != |n[0]|;
    assert m != n && Links(su, key, key, m) == Links(su, key, key, n);
  }

  lemma DigestSuite() returns (su: Suite)
    ensures forall x :: Hash(su, x) == Digest(|x|)
  {
    var p: Primitives := EXAMPLE.(hash := x => Digest(|x|));
    hide Digest;
    assert Sound(p);
    su := p;
  }

  lemma UnboundBy(su: Suite, key: Block, sid: Block, a: Bytes, b: Bytes, last: Bytes)
    requires (forall x :: Hash(su, x) == Digest(|x|)) && |a| == 1 && |b| == 2 && |last| == 1
    ensures Links(su, key, sid, [a, last]) == Links(su, key, sid, [b, last])
    ensures CollisionFree(su, Preimages(su, key, sid, [a, last]) + Preimages(su, key, sid, [b, last]))
  {
    hide Links, Preimages, FirstWord, CollisionFree, Hash;
    TwoLinks(su, key, sid, a, last);
    TwoLinks(su, key, sid, b, last);
    assert |key + sid| == 64;
    var start := FirstLink(su, key, sid);
    assert start == Digest(32);
    assert Clean(start);
    FirstWordWholeIff(start);
    BothCutShort();
    hide Digest;
    assert |LinkString(start, a)| == 36 && |LinkString(start, b)| == 37;
    assert LinkString(Digest(36), last) == LinkString(Digest(37), last) && |LinkString(Digest(36), last)| == 5;
    LengthsApart(su, Preimages(su, key, sid, [a, last]) + Preimages(su, key, sid, [b, last]));
  }

  // ---------- the map of digests ----------

  ghost predicate IsGreatest(ids: set<nat>, g: nat) {
    g in ids && forall k :: k in ids ==> k <= g
  }

  /** The last key of an ordered map. */
  ghost function Greatest(ids: set<nat>): (g: nat)
    requires ids != {}
    ensures IsGreatest(ids, g)
  {
    var x :| x in ids;
    if ids == {x} then x
    else
      var y := Greatest(ids - {x});
      assert ids == (ids - {x}) + {x};
      if x > y then x else y
  }

  lemma GreatestUnique(ids: set<nat>, g: nat)
    requires IsGreatest(ids, g)
    ensures Greatest(ids) == g
  {}

  /** `add_message_to_transcript` in values. */
  ghost function Added(su: Suite, chain: map<nat, Block>, message: Bytes, id: nat): map<nat, Block> {
    chain[id := if chain == map[] then Hash(su, message) else Link(su, chain[Greatest(chain.Keys)], message)]
  }

  class Transcript {
    const su: Suite
    var chain: map<nat, Block>

    constructor (su: Suite)
      ensures this.su == su && chain == map[]
    {
      this.su := su;
      chain := map[];
    }

    method LastId() returns (g: nat)
      requires chain != map[]
      ensures IsGreatest(chain.Keys, g)
    {
      var left := chain.Keys;
      assert left != {} by { assert chain != map[]; assert chain.Keys == {} ==> chain == map[]; }
      g :| g in left;
      left := left - {g};
      while left != {}
        invariant left <= chain.Keys && g in chain.Keys
        invariant forall k :: k in chain.Keys ==> k in left || k <= g
        decreases |left|
      {
        var k :| k in left;
        left := left - {k};
        if k > g {
          g := k;
        }
      }
    }

    /** `add_message_to_transcript`. */
    method AddMessage(message: Bytes, id: nat)
      modifies this
      ensures chain == Added(su, old(chain), message, id)
    {
      var text := message;
      if chain != map[] {
        var last := LastId();
        GreatestUnique(chain.Keys, last);
        text := FirstWord(chain[last]);
        text := text + (DELIMITER + message);
      }
      var digest := Hash(su, text);
      chain := chain[id := digest];
    }

    /** `account_for_session_and_key_consistency`. */
    method AccountForSessionAndKey(key: Block, sid: Block)
      modifies this
      ensures chain == Added(su, old(chain), Hash(su, key + sid), 0)
    {
      var keySid := Hash(su, key + sid);
      AddMessage(keySid, 0);
    }
  }

  /** A member's log: the messages received, each under its id. */
  type Log = seq<(nat, Bytes)>

  function Messages(log: Log): (messages: seq<Bytes>)
    ensures |messages| == |log| && forall i :: 0 <= i < |log| ==> messages[i] == log[i].1
  {
    seq(|log|, i requires 0 <= i < |log| => log[i].1)
  }

  ghost function Chain(su: Suite, key: Block, sid: Block, log: Log): map<nat, Block> {
    if log == [] then Added(su, map[], Hash(su, key + sid), 0)
    else Added(su, Chain(su, key, sid, log[..|log| - 1]), log[|log| - 1].1, log[|log| - 1].0)
  }

  /** The ids under which something is held: that of the session itself, and those of the messages. */
  predicate Held(log: Log, id: nat) {
    id == 0 || exists i :: 0 <= i < |log| && log[i].0 == id
  }

  lemma HeldMore(log: Log, id: nat)
    requires log != []
    ensures Held(log, id) <==> Held(log[..|log| - 1], id) || log[|log| - 1].0 == id
  {
    var front := log[..|log| - 1];
    assert forall i :: 0 <= i < |front| ==> front[i] == log[i];
  }

  /** The greatest of them. */
  function Top(log: Log): (g: nat)
    ensures Held(log, g) && forall k: nat :: Held(log, k) ==> k <= g
  {
    if log == [] then 0
    else
      var front, last := log[..|log| - 1], log[|log| - 1];
      assert forall k: nat :: Held(log, k) <==> Held(front, k) || last.0 == k by {
        forall k: nat ensures Held(log, k) <==> Held(front, k) || last.0 == k { HeldMore(log, k); }
      }
      if last.0 > Top(front) then last.0 else Top(front)
  }

  /** What the digest under an id is made of: the last message that came under it, after what was under the greatest id
      before that message. An earlier entry of the same id is overwritten, and a message under an id that is not the
      greatest is not followed by any. */
  function History(log: Log, id: nat): (messages: seq<Bytes>)
    requires Held(log, id)
    ensures |messages| <= |log|
  {
    if log == [] then []
    else
      HeldMore(log, id);
      var front, last := log[..|log| - 1], log[|log| - 1];
      if last.0 == id then History(front, Top(front)) + [last.1] else History(front, id)
  }

  /** Whatever ids the messages come under, the map holds the digest of its history under each of them. */
  lemma {:induction false} ChainDigests(su: Suite, key: Block, sid: Block, log: Log, id: nat)
    ensures var chain := Chain(su, key, sid, log);
      && IsGreatest(chain.Keys, Top(log)) && (id in chain <==> Held(log, id))
      && (Held(log, id) ==> chain[id] == Links(su, key, sid, History(log, id)))
    decreases |log|
  {
    hide Link, FirstLink, Links, IsGreatest, Held;
    if log == [] {
      LinksNone(su, key, sid);
    } else {
      var front, last := log[..|log| - 1], log[|log| - 1];
      HeldMore(log, id);
      ChainDigests(su, key, sid, front, id);
      ChainDigests(su, key, sid, front, Top(front));
      TopMore(Chain(su, key, sid, front).Keys, log);
      assert Chain(su, key, sid, log).Keys == Chain(su, key, sid, front).Keys + {last.0};
      LinksMore(su, key, sid, History(front, Top(front)), last.1);
    }
  }

  lemma TopMore(ids: set<nat>, log: Log)
    requires log != [] && IsGreatest(ids, Top(log[..|log| - 1]))
    ensures IsGreatest(ids + {log[|log| - 1].0}, Top(log)) && ids != {}
    ensures Greatest(ids) == Top(log[..|log| - 1])
  {
    hide Held, Greatest;
    GreatestUnique(ids, Top(log[..|log| - 1]));
  }

  lemma LinksMore(su: Suite, key: Block, sid: Block, messages: seq<Bytes>, message: Bytes)
    ensures Links(su, key, sid, messages + [message]) == Link(su, Links(su, key, sid, messages), message)
  {
    assert (messages + [message])[..|messages + [message]| - 1] == messages;
  }

  lemma LinksNone(su: Suite, key: Block, sid: Block)
    ensures Chain(su, key, sid, []) == map[0 := Links(su, key, sid, [])]
    ensures Top([]) == 0 && (forall id: nat :: Held([], id) <==> id == 0)
    ensures IsGreatest(Chain(su, key, sid, []).Keys, 0)
  {}

  /** No message comes under an id below one that came before. */
  predicate Ascending(log: Log) {
    log == [] || (Ascending(log[..|log| - 1]) && log[|log| - 1].0 >= Top(log[..|log| - 1]))
  }

  /** The digest under the greatest id covers all messages exactly when their ids never descend, as when all come under
      one id. */
  lemma {:induction false} TopCoversIff(log: Log)
    ensures History(log, Top(log)) == Messages(log) <==> Ascending(log)
    decreases |log|
  {
    hide Held;
    if log == [] {
      assert Messages(log) == [];
    } else {
      var front, last := log[..|log| - 1], log[|log| - 1];
      TopCoversIff(front);
      assert Messages(log) == Messages(front) + [last.1];
      if last.0 >= Top(front) {
        assert Messages(log)[..|front|] == Messages(front);
        assert History(log, Top(log))[..|History(front, Top(front))|] == History(front, Top(front));
      }
    }
  }

  /** The digest under an id covers everything up to the last message that came under it exactly when the ids before
      that never descend; strictly increasing ids are a special case. */
  lemma {:induction false} HistoryCoversIff(log: Log, p: nat)
    requires p < |log| && forall i :: p < i < |log| ==> log[i].0 != log[p].0
    ensures Held(log, log[p].0)
    ensures History(log, log[p].0) == Messages(log[..p + 1]) <==> Ascending(log[..p])
    decreases |log|
  {
    var front, last := log[..|log| - 1], log[|log| - 1];
    HeldMore(log, log[p].0);
    hide Held;
    if p == |log| - 1 {
      assert log[..p + 1] == log && log[..p] == front;
      TopCoversIff(front);
      assert Messages(log) == Messages(front) + [last.1];
      assert Messages(log)[..|front|] == Messages(front);
      assert History(log, last.0)[..|History(front, Top(front))|] == History(front, Top(front));
    } else {
      HistoryCoversIff(front, p);
      assert front[..p + 1] == log[..p + 1] && front[..p] == log[..p];
    }
  }

  /** Two members whose chains hold one digest, under whatever ids, had the same key, the same session and the same
      messages in the same order in the history of it, given clean digests and no collision; and the other way
      round. */
  lemma AgreementAtIdBinds(su: Suite, key: Block, sid: Block, log: Log, id: nat,
                           otherKey: Block, otherSid: Block, otherLog: Log, otherId: nat)
    requires Held(log, id) && Held(otherLog, otherId)
    requires CleanChain(su, key, sid, History(log, id))
    requires CleanChain(su, otherKey, otherSid, History(otherLog, otherId))
    requires var (a, b) := (Preimages(su, key, sid, History(log, id)),
                            Preimages(su, otherKey, otherSid, History(otherLog, otherId)));
      CollisionFree(su, a + b)
    ensures id in Chain(su, key, sid, log) && otherId in Chain(su, otherKey, otherSid, otherLog)
    ensures Chain(su, key, sid, log)[id] == Chain(su, otherKey, otherSid, otherLog)[otherId]
       <==> key == otherKey && sid == otherSid && History(log, id) == History(otherLog, otherId)
  {
    hide Chain, CleanChain, CollisionFree, Preimages, Links, History, Top;
    ChainDigests(su, key, sid, log, id);
    ChainDigests(su, otherKey, otherSid, otherLog, otherId);
    if Chain(su, key, sid, log)[id] == Chain(su, otherKey, otherSid, otherLog)[otherId] {
      ChainBinds(su, key, sid, History(log, id), otherKey, otherSid, History(otherLog, otherId));
    }
  }
}
