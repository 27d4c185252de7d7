/** Base64 as the wire uses it (RFC 4648, section 4, with the skipping decoder of RFC 1113).
    The two translation tables are written as character ranges. */
module Base64 {
  import opened Bytes

  type Sextet = v: int | 0 <= v < 64

  const PAD: Byte := 61 // '='

  /** The encoding table. */
  function Symbol(v: Sextet): (c: Byte)
    ensures Value(c) == Some(v) && c != PAD
  {
    if v < 26 then 65 + v
    else if v < 52 then 97 + (v - 26)
    else if v < 62 then 48 + (v - 52)
    else if v == 62 then 43
    else 47
  }

  /** The decoding table; None for characters the decoder skips (and for the pad, which it treats apart). */
  function Value(c: Byte): Option<Sextet> {
    if 65 <= c <= 90 then Some(c - 65)
    else if 97 <= c <= 122 then Some(c - 97 + 26)
    else if 48 <= c <= 57 then Some(c - 48 + 52)
    else if c == 43 then Some(62)
    else if c == 47 then Some(63)
    else None
  }

  /** `encodeblock`: up to three bytes as four characters. Shifts and masks are written as
      multiplications, divisions and remainders by powers of two. */
  function EncodeBlock(d: Bytes): (s: Bytes)
    requires 1 <= |d| <= 3
    ensures |s| == 4
  {
    var in0, in1, in2 := d[0], if |d| > 1 then d[1] else 0, if |d| > 2 then d[2] else 0;
    [Symbol(in0 / 4),
     Symbol(in0 % 4 * 16 + in1 / 16),
     if |d| > 1 then Symbol(in1 % 16 * 4 + in2 / 64) else PAD,
     if |d| > 2 then Symbol(in2 % 64) else PAD]
  }

  function Encode(d: Bytes): (s: Bytes)
    ensures |s| == (|d| + 2) / 3 * 4
  {
    if |d| == 0 then []
    else if |d| <= 3 then EncodeBlock(d)
    else EncodeBlock(d[..3]) + Encode(d[3..])
  }

  /** `decode`: the bytes a possibly short block of sextets stands for. */
  function DecodeBlock(q: seq<Sextet>): (d: Bytes)
    requires |q| <= 4
    ensures |d| == if |q| == 0 then 0 else |q| - 1
  {
    var n := |q|;
    var q0: int, q1: int, q2: int, q3: int :=
      if n > 0 then q[0] else 0, if n > 1 then q[1] else 0, if n > 2 then q[2] else 0, if n > 3 then q[3] else 0;
    (if n > 1 then [q0 * 4 % 256 + q1 / 16] else [])
    + (if n > 2 then [q1 * 16 % 256 + q2 / 4] else [])
    + (if n > 3 then [q2 * 64 % 256 + q3] else [])
  }

  /** The decoder with `held` sextets of an unfinished block. A block left short at the end of the
      text is dropped; one cut by a pad is decoded, and nothing after the pad is read. */
  function DecodeFrom(held: seq<Sextet>, s: Bytes): Bytes
    requires |held| <= 3
    decreases |s|
  {
    if |s| == 0 then []
    else if s[0] == PAD then DecodeBlock(held)
    else match Value(s[0])
      case None => DecodeFrom(held, s[1..])
      case Some(v) =>
        if |held| == 3 then DecodeBlock(held + [v]) + DecodeFrom([], s[1..])
        else DecodeFrom(held + [v], s[1..])
  }

  function Decode(s: Bytes): Bytes {
    DecodeFrom([], s)
  }

  // ---------- the round trip ----------

  lemma BlockRoundTrip(in0: Byte, in1: Byte, in2: Byte)
    ensures DecodeBlock([in0 / 4, in0 % 4 * 16 + in1 / 16, in1 % 16 * 4 + in2 / 64, in2 % 64]) == [in0, in1, in2]
    ensures DecodeBlock([in0 / 4, in0 % 4 * 16 + in1 / 16, in1 % 16 * 4]) == [in0, in1]
    ensures DecodeBlock([in0 / 4, in0 % 4 * 16]) == [in0]
  {
    assert (in0 % 4 * 16 + in1 / 16) / 16 == in0 % 4 && in0 % 4 * 16 / 16 == in0 % 4;
    assert (in0 % 4 * 16 + in1 / 16) * 16 % 256 == in1 / 16 * 16;
    assert (in1 % 16 * 4 + in2 / 64) / 4 == in1 % 16 && in1 % 16 * 4 / 4 == in1 % 16;
    assert (in1 % 16 * 4 + in2 / 64) * 64 % 256 == in2 / 64 * 64;
  }

  /** One sextet character is taken up. */
  lemma Takes(held: seq<Sextet>, v: Sextet, rest: Bytes)
    requires |held| <= 3
    ensures DecodeFrom(held, [Symbol(v)] + rest)
         == if |held| == 3 then DecodeBlock(held + [v]) + DecodeFrom([], rest) else DecodeFrom(held + [v], rest)
  {
    assert ([Symbol(v)] + rest)[1..] == rest;
  }

  lemma Stops(held: seq<Sextet>, rest: Bytes)
    requires |held| <= 3
    ensures DecodeFrom(held, [PAD] + rest) == DecodeBlock(held)
  {}

  /** The sextets of three bytes. */
  function SextetsOf(d: Bytes): (q: seq<Sextet>)
    requires |d| == 3
    ensures |q| == 4
  {
    [d[0] / 4, d[0] % 4 * 16 + d[1] / 16, d[1] % 16 * 4 + d[2] / 64, d[2] % 64]
  }

  lemma SextetsEncode(d: Bytes)
    requires |d| == 3
    ensures var q := SextetsOf(d);
      EncodeBlock(d) == [Symbol(q[0]), Symbol(q[1]), Symbol(q[2]), Symbol(q[3])] && DecodeBlock(q) == d
  {
    hide Symbol;
    BlockRoundTrip(d[0], d[1], d[2]);
    hide DecodeBlock;
  }

  lemma FullBlock(d: Bytes, rest: Bytes)
    requires |d| == 3
    ensures DecodeFrom([], EncodeBlock(d) + rest) == d + DecodeFrom([], rest)
  {
    hide DecodeFrom, DecodeBlock, Symbol, EncodeBlock, SextetsOf;
    SextetsEncode(d);
    var q := SextetsOf(d);
    var a, b, c, e := q[0], q[1], q[2], q[3];
    assert EncodeBlock(d) + rest == [Symbol(a)] + ([Symbol(b)] + ([Symbol(c)] + ([Symbol(e)] + rest)));
    Takes([], a, [Symbol(b)] + ([Symbol(c)] + ([Symbol(e)] + rest)));
    Takes([a], b, [Symbol(c)] + ([Symbol(e)] + rest));
    Takes([a, b], c, [Symbol(e)] + rest);
    Takes([a, b, c], e, rest);
    assert [] + [a] == [a] && [a] + [b] == [a, b] && [a, b] + [c] == [a, b, c] && [a, b, c] + [e] == q;
  }

  lemma ShortBlock(d: Bytes)
    requires 1 <= |d| <= 2
    ensures DecodeFrom([], EncodeBlock(d)) == d
  {
    var in1 := if |d| > 1 then d[1] else 0;
    var a, b, c: Sextet := d[0] / 4, d[0] % 4 * 16 + in1 / 16, in1 % 16 * 4;
    BlockRoundTrip(d[0], in1, 0);
    hide DecodeFrom, DecodeBlock, Symbol;
    assert [] + [a] == [a] && [a] + [b] == [a, b] && [a, b] + [c] == [a, b, c];
    if |d| == 1 {
      assert EncodeBlock(d) == [Symbol(a)] + ([Symbol(b)] + ([PAD] + [PAD]));
      Takes([], a, [Symbol(b)] + ([PAD] + [PAD]));
      Takes([a], b, [PAD] + [PAD]);
      Stops([a, b], [PAD]);
    } else {
      assert EncodeBlock(d) == [Symbol(a)] + ([Symbol(b)] + ([Symbol(c)] + ([PAD] + [])));
      Takes([], a, [Symbol(b)] + ([Symbol(c)] + ([PAD] + [])));
      Takes([a], b, [Symbol(c)] + ([PAD] + []));
      Takes([a, b], c, [PAD] + []);
      Stops([a, b, c], []);
    }
  }

  /** Decoding an encoding gives back the bytes, for every length. */
  lemma {:induction false} RoundTrip(d: Bytes)
    ensures Decode(Encode(d)) == d
  {
    hide DecodeFrom, EncodeBlock;
    if |d| == 0 {
      DecodeNothing();
    } else if |d| == 3 {
      FullBlock(d, []);
      DecodeNothing();
      assert EncodeBlock(d) + [] == EncodeBlock(d);
    } else if |d| <= 2 {
      ShortBlock(d);
    } else {
      FullBlock(d[..3], Encode(d[3..]));
      RoundTrip(d[3..]);
    }
  }

  lemma DecodeNothing()
    ensures DecodeFrom([], []) == []
  {}

  // ---------- skipped characters ----------

  predicate Skipped(c: Byte) {
    c != PAD && Value(c) == None
  }

  /** The text without the characters the decoder skips. */
  function Strip(s: Bytes): Bytes {
    if |s| == 0 then [] else (if Skipped(s[0]) then [] else [s[0]]) + Strip(s[1..])
  }

  lemma {:induction false} DecodeFromStripped(held: seq<Sextet>, s: Bytes)
    requires |held| <= 3
    ensures DecodeFrom(held, s) == DecodeFrom(held, Strip(s))
    decreases |s|
  {
    if |s| > 0 {
      if Skipped(s[0]) {
        DecodeFromStripped(held, s[1..]);
        assert Strip(s) == Strip(s[1..]);
      } else {
        assert Strip(s) == [s[0]] + Strip(s[1..]) && Strip(s)[1..] == Strip(s[1..]);
        if s[0] != PAD {
          var v := Value(s[0]).value;
          if |held| == 3 {
            DecodeFromStripped([], s[1..]);
          } else {
            DecodeFromStripped(held + [v], s[1..]);
          }
        }
      }
    }
  }

  /** The characters the decoder skips are all but the pad and the 64 symbols of the encoder. */
  lemma SkippedIff(c: Byte)
    ensures Skipped(c) <==> c != PAD && forall v: Sextet :: Symbol(v) != c
  {
    if Value(c).Some? {
      assert Symbol(Value(c).value) == c;
    }
  }

  /** Inserting such characters anywhere changes nothing: texts that agree after stripping decode alike. */
  lemma SkippedCharactersDoNotMatter(s: Bytes, t: Bytes)
    requires Strip(s) == Strip(t)
    ensures Decode(s) == Decode(t)
  {
    DecodeFromStripped([], s);
    DecodeFromStripped([], t);
  }

  /** The decoder's output fits the buffer its caller allocates. */
  lemma {:induction false} DecodedLength(held: seq<Sextet>, s: Bytes)
    requires |held| <= 3
    ensures |DecodeFrom(held, s)| <= (|held| + |s| + 3) / 4 * 3
    decreases |s|
  {
    if |s| > 0 && s[0] != PAD {
      match Value(s[0])
      case None => DecodedLength(held, s[1..]);
      case Some(v) =>
        if |held| == 3 {
          DecodedLength([], s[1..]);
        } else {
          DecodedLength(held + [v], s[1..]);
        }
    }
  }

  // ---------- the loops over buffers ----------

  /** Writes a block behind what has been written, so that with what is to follow it stands as planned; what is behind
      it is still as it was at the start. */
  method Store(buffer: array<Byte>, at: nat, block: Bytes, ghost start: Bytes, ghost next: Bytes)
    requires at + |block| <= buffer.Length == |start| && buffer[at..] == start[at..]
    modifies buffer
    ensures buffer[..at + |block|] + next == old(buffer[..at]) + (block + next)
    ensures buffer[at + |block|..] == start[at + |block|..]
  {
    assert buffer[at..][|block|..] == buffer[at + |block|..] && start[at..][|block|..] == start[at + |block|..];
    ghost var before := buffer[..at];
    CopyInto(buffer, at, block);
    assert (before + block) + next == before + (block + next);
  }

  /** `otrl_base64_encode`: writes the encoding at the start of the buffer, returns how much was written. */
  method EncodeInto(base64: array<Byte>, d: Bytes) returns (written: nat)
    requires base64.Length >= (|d| + 2) / 3 * 4
    modifies base64
    ensures written == |Encode(d)| <= base64.Length
    ensures base64[..] == Encode(d) + old(base64[written..])
  {
    hide EncodeBlock, Encode;
    ghost var start := base64[..];
    written := 0;
    var done := 0;
    assert d[0..] == d;
    while |d| - done > 2
      invariant 0 <= done <= |d| && written + |Encode(d[done..])| == |Encode(d)|
      invariant base64[..written] + Encode(d[done..]) == Encode(d)
      invariant base64[written..] == start[written..]
    {
      var block := EncodeBlock(d[done..done + 3]);
      EncodeUnfolds(d[done..]);
      assert d[done..][3..] == d[done + 3..] && d[done..][..3] == d[done..done + 3];
      Store(base64, written, block, start, Encode(d[done + 3..]));
      written, done := written + 4, done + 3;
    }
    EncodeEnds(d[done..]);
    if |d| - done > 0 {
      Store(base64, written, EncodeBlock(d[done..]), start, []);
      written := written + 4;
    }
    assert base64[..written] + [] == base64[..written] && base64[..] == base64[..written] + base64[written..];
  }

  lemma EncodeEnds(d: Bytes)
    ensures |d| == 0 ==> Encode(d) == []
    ensures 1 <= |d| <= 2 ==> Encode(d) == EncodeBlock(d)
  {}

  lemma EncodeUnfolds(d: Bytes)
    requires |d| > 2
    ensures Encode(d) == EncodeBlock(d[..3]) + Encode(d[3..])
  {
    hide EncodeBlock;
    if |d| == 3 {
      assert d[..3] == d && EncodeBlock(d) + [] == EncodeBlock(d);
    }
  }

  /** `otrl_base64_decode`: writes the decoded bytes at the start of the buffer. Every store is within
      (length + 3) / 4 * 3 bytes. */
  method DecodeInto(data: array<Byte>, s: Bytes) returns (datalen: nat)
    requires data.Length >= (|s| + 3) / 4 * 3
    modifies data
    ensures datalen == |Decode(s)| <= data.Length
    ensures data[..] == Decode(s) + old(data[datalen..])
  {
    hide DecodeBlock, DecodeFrom, Value;
    DecodedLength([], s);
    ghost var start := data[..];
    datalen := 0;
    var b64: seq<Sextet> := [];
    var i := 0;
    var stopped := false;
    assert s[0..] == s;
    while i < |s| && !stopped
      invariant 0 <= i <= |s| && |b64| <= 3 && datalen <= data.Length
      invariant stopped ==> data[..datalen] == Decode(s)
      invariant !stopped ==> data[..datalen] + DecodeFrom(b64, s[i..]) == Decode(s)
      invariant data[datalen..] == start[datalen..]
      decreases |s| - i, !stopped
    {
      var b := s[i];
      assert s[i..][0] == b && s[i..][1..] == s[i + 1..];
      DecodeUnfolds(b64, s[i..]);
      i := i + 1;
      if b == PAD {
        var block := DecodeBlock(b64);
        assert block + [] == block;
        Store(data, datalen, block, start, []);
        datalen := datalen + |block|;
        assert data[..datalen] + [] == data[..datalen];
        stopped := true;
      } else if Value(b) != None {
        b64 := b64 + [Value(b).value];
        if |b64| == 4 {
          var block := DecodeBlock(b64);
          Store(data, datalen, block, start, DecodeFrom([], s[i..]));
          datalen := datalen + 3;
          b64 := [];
        }
      }
    }
    DecodeEnds(b64);
    assert !stopped ==> s[i..] == [] && data[..datalen] + [] == data[..datalen];
    assert data[..] == data[..datalen] + data[datalen..];
  }

  lemma DecodeUnfolds(held: seq<Sextet>, s: Bytes)
    requires |held| <= 3 && |s| > 0
    ensures s[0] == PAD ==> DecodeFrom(held, s) == DecodeBlock(held)
    ensures s[0] != PAD && Value(s[0]) == None ==> DecodeFrom(held, s) == DecodeFrom(held, s[1..])
    ensures s[0] != PAD && Value(s[0]) != None ==>
      DecodeFrom(held, s) == if |held| == 3 then DecodeBlock(held + [Value(s[0]).value]) + DecodeFrom([], s[1..])
                             else DecodeFrom(held + [Value(s[0]).value], s[1..])
  {}

  lemma DecodeEnds(held: seq<Sextet>)
    requires |held| <= 3
    ensures DecodeFrom(held, []) == []
  {}

  // ---------- C strings ----------

  const NUL: Byte := 0

  /** What strlen and the constructor of std::string see of a text: everything before its first NUL. */
  function CString(s: Bytes): (t: Bytes)
    ensures t <= s && NUL !in t
    ensures t == s || s[|t|] == NUL
  {
    if |s| == 0 || s[0] == NUL then [] else [s[0]] + CString(s[1..])
  }

  lemma {:induction false} CStringBefore(s: Bytes, rest: Bytes)
    requires NUL !in s
    ensures CString(s + [NUL] + rest) == s && CString(s) == s
  {
    if |s| > 0 {
      assert forall i :: 0 <= i < |s[1..]| ==> s[1..][i] == s[i + 1];
      assert (s + [NUL] + rest)[1..] == s[1..] + [NUL] + rest;
      CStringBefore(s[1..], rest);
    }
  }

  lemma BlockPrints(d: Bytes)
    requires 1 <= |d| <= 3
    ensures NUL !in EncodeBlock(d)
  {
    hide Value;
  }

  lemma {:induction false} EncodePrints(d: Bytes)
    ensures NUL !in Encode(d)
  {
    hide EncodeBlock;
    if |d| > 3 {
      BlockPrints(d[..3]);
      EncodePrints(d[3..]);
    } else if |d| > 0 {
      BlockPrints(d);
    }
  }

  /** The decoder of strings measures its text with strlen, so it reads no further than the first NUL. */
  function DecodeText(s: Bytes): Bytes {
    Decode(CString(s))
  }

  /** An encoding comes back, whatever follows it behind a NUL. */
  lemma TextRoundTrip(d: Bytes, rest: Bytes)
    ensures DecodeText(Encode(d)) == d && DecodeText(Encode(d) + [NUL] + rest) == d
  {
    hide Decode, Encode, CString;
    EncodePrints(d);
    CStringBefore(Encode(d), rest);
    RoundTrip(d);
  }

  /** `otrl_base64_otr_encode` followed by the conversion to a string, which ends at the first NUL. */
  method EncodeString(d: Bytes) returns (s: Bytes)
    ensures s == Encode(d)
  {
    hide Encode, CString;
    var length := (|d| + 2) / 3 * 4;
    var buffer: array<Byte> := new Byte[length + 1](_ => NUL);
    var written := EncodeInto(buffer, d);
    buffer[length] := NUL;
    EncodePrints(d);
    CStringBefore(Encode(d), []);
    assert buffer[..] == Encode(d) + [NUL] + [];
    s := CString(buffer[..]);
  }

  /** `otrl_base64_otr_decode`: a buffer of the maximal decoded size of what precedes the first NUL, then the part
      in use. */
  method DecodeString(s: Bytes) returns (d: Bytes)
    ensures d == DecodeText(s)
  {
    var text := CString(s);
    var buffer: array<Byte> := new Byte[(|text| + 3) / 4 * 3](_ => 0);
    var used := DecodeInto(buffer, text);
    d := buffer[..used];
  }
}
