/**
 The part of the Protocol Buffers message structure and of the gRPC
 length-prefixed framing that the stats client speaks.

 A decoder is a loop that peels one field off the front; each loop is a method
 here, proved against a recursive function on the remaining bytes. Lengths of
 2^63 and more, where the source's `int(size)` turns negative, are treated as
 "longer than the input".
 */
module StatsWire {
  import opened Outcome
  import opened Varint

  type Bytes = seq<Byte>

  type Int64 = x: int | -0x8000_0000_0000_0000 <= x < 0x8000_0000_0000_0000

  datatype DecodeError =
    | TruncatedFrameHeader | CompressedFrame | TruncatedFramePayload
    | InvalidField | InvalidMessageLength
    | InvalidStatField | InvalidNameLength | InvalidStatValue
    | InvalidVarintField | InvalidFixed64Field | InvalidBytesField | InvalidFixed32Field
    | UnsupportedWireType(wireType: Word)

  /** Far above any slice length, so that lengths and their sums stay inside a `uint64`. */
  const SLICE_LIMIT := 0x4000_0000_0000_0000

  /** One `stat` entry of a QueryStats response. */
  datatype RawStat = RawStat(name: Bytes, value: Int64)

  const EMPTY_STAT := RawStat([], 0)

  /** The source's conversions `uint64(value)` and `int64(value)`. */
  function ToWord(v: Int64): (w: Word)
    ensures ToInt64(w) == v
  {
    if v < 0 then v + WORD else v
  }

  function ToInt64(w: Word): Int64 {
    if w >= 0x8000_0000_0000_0000 then w - WORD else w
  }

  // ---------- Fields ----------

  datatype Key = BadKey | Key(num: nat, wireType: Word, n: nat)

  datatype Span = NoSpan | Span(from: nat, to: nat)

  /** Field number and wire type in front of raw. */
  function ReadKey(raw: Bytes): (k: Key)
    ensures k.Key? ==> 1 <= k.n <= |raw|
  {
    match Consume(raw)
    case Malformed => BadKey
    case Consumed(field, n) => Key(field / 8, field % 8, n)
  }

  /** Where the payload of a length-delimited field lies, if raw holds all of it. */
  function Delimited(raw: Bytes): (s: Span)
    ensures s.Span? ==> 1 <= s.from <= s.to <= |raw|
  {
    match Consume(raw)
    case Malformed => NoSpan
    case Consumed(size, n) => if |raw| - n < size then NoSpan else Span(n, n + size)
  }

  /** Number of bytes that an unknown field's payload takes. */
  function SkipLength(raw: Bytes, wireType: Word): (r: Result<nat, DecodeError>)
    ensures r.Ok? ==> r.value <= |raw|
  {
    if wireType == 0 then
      if Consume(raw).Malformed? then Err(InvalidVarintField) else Ok(Consume(raw).n)
    else if wireType == 1 then
      if |raw| < 8 then Err(InvalidFixed64Field) else Ok(8)
    else if wireType == 2 then
      if Delimited(raw).NoSpan? then Err(InvalidBytesField) else Ok(Delimited(raw).to)
    else if wireType == 5 then
      if |raw| < 4 then Err(InvalidFixed32Field) else Ok(4)
    else
      Err(UnsupportedWireType(wireType))
  }

  method SkipProtoField(raw: Bytes, wireType: Word) returns (r: Result<Bytes, DecodeError>)
    ensures var s := SkipLength(raw, wireType); r == if s.Ok? then Ok(raw[s.value..]) else Err(s.error)
  {
    if wireType == 0 {
      var _, n := ConsumeVarint(raw);
      return if n <= 0 then Err(InvalidVarintField) else Ok(raw[n..]);
    } else if wireType == 1 {
      return if |raw| < 8 then Err(InvalidFixed64Field) else Ok(raw[8..]);
    } else if wireType == 2 {
      var size, n := ConsumeVarint(raw);
      return if n <= 0 || |raw[n..]| < size then Err(InvalidBytesField) else Ok(raw[n + size..]);
    } else if wireType == 5 {
      return if |raw| < 4 then Err(InvalidFixed32Field) else Ok(raw[4..]);
    }
    r := Err(UnsupportedWireType(wireType));
  }

  lemma ReadKeyPrefix(raw: Bytes, rest: Bytes)
    requires ReadKey(raw).Key?
    ensures ReadKey(raw + rest) == ReadKey(raw)
  {
    ConsumePrefix(raw, rest);
  }

  lemma DelimitedPrefix(raw: Bytes, rest: Bytes)
    requires Delimited(raw).Span?
    ensures Delimited(raw + rest) == Delimited(raw)
    ensures (raw + rest)[Delimited(raw).from..Delimited(raw).to] == raw[Delimited(raw).from..Delimited(raw).to]
  {
    ConsumePrefix(raw, rest);
  }

  lemma SkipPrefix(raw: Bytes, rest: Bytes, wireType: Word)
    requires SkipLength(raw, wireType).Ok?
    ensures SkipLength(raw + rest, wireType) == SkipLength(raw, wireType)
  {
    if wireType == 0 {
      ConsumePrefix(raw, rest);
    } else if wireType == 2 {
      DelimitedPrefix(raw, rest);
    }
  }

  /** A length prefix and as many bytes, or cut if they are not there. */
  method TakeDelimited(raw: Bytes) returns (content: Bytes, rest: Bytes, cut: bool)
    ensures cut <==> Delimited(raw).NoSpan?
    ensures !cut ==> content == raw[Delimited(raw).from..Delimited(raw).to] && rest == raw[Delimited(raw).to..]
  {
    hide IsVarint, GroupValue, Terminator;
    var size, k := ConsumeVarint(raw);
    if k <= 0 || |raw[k..]| < size {
      return [], [], true;
    }
    return raw[k..k + size], raw[k + size..], false;
  }

  // ---------- Stat messages ----------

  /** A stat with the first field of raw taken in, and the number of bytes that field took. */
  function StatField(raw: Bytes, acc: RawStat): (r: Result<(RawStat, nat), DecodeError>)
    ensures r.Ok? ==> 1 <= r.value.1 <= |raw|
  {
    var key := ReadKey(raw);
    if key.BadKey? then Err(InvalidStatField)
    else
      var rest := raw[key.n..];
      if key.num == 1 && key.wireType == 2 then
        var name := Delimited(rest);
        if name.NoSpan? then Err(InvalidNameLength)
        else Ok((acc.(name := rest[name.from..name.to]), key.n + name.to))
      else if key.num == 2 && key.wireType == 0 then
        var value := Consume(rest);
        if value.Malformed? then Err(InvalidStatValue)
        else Ok((acc.(value := ToInt64(value.value)), key.n + value.n))
      else
        var skip := SkipLength(rest, key.wireType);
        if skip.Err? then Err(skip.error) else Ok((acc, key.n + skip.value))
  }

  function StatFields(raw: Bytes, acc: RawStat): Result<RawStat, DecodeError>
    decreases |raw|
  {
    if raw == [] then Ok(acc)
    else
      var f := StatField(raw, acc);
      if f.Err? then Err(f.error) else StatFields(raw[f.value.1..], f.value.0)
  }

  function StatOf(raw: Bytes): Result<RawStat, DecodeError> {
    StatFields(raw, EMPTY_STAT)
  }

  /** One turn of the loop in `decodeStat`: the stat read so far and the bytes still to read. */
  method TakeStatField(raw: Bytes, stat: RawStat) returns (r: Result<(RawStat, Bytes), DecodeError>)
    ensures var f := StatField(raw, stat);
            r == if f.Ok? then Ok((f.value.0, raw[f.value.1..])) else Err(f.error)
  {
    hide IsVarint, GroupValue, Terminator, Delimited;
    var field, n := ConsumeVarint(raw);
    if n <= 0 {
      return Err(InvalidStatField);
    }
    var rest := raw[n..];
    var fieldNum, wireType := field / 8, field % 8;
    if fieldNum == 1 && wireType == 2 {
      var name, after, cut := TakeDelimited(rest);
      return if cut then Err(InvalidNameLength) else Ok((stat.(name := name), after));
    } else if fieldNum == 2 && wireType == 0 {
      var value, k := ConsumeVarint(rest);
      if k <= 0 {
        return Err(InvalidStatValue);
      }
      return Ok((stat.(value := ToInt64(value)), rest[k..]));
    }
    hide SkipLength;
    var skipped := SkipProtoField(rest, wireType);
    return if skipped.Err? then Err(skipped.error) else Ok((stat, skipped.value));
  }

  method DecodeStat(raw: Bytes) returns (r: Result<RawStat, DecodeError>)
    ensures r == StatOf(raw)
  {
    hide StatField;
    var rest, stat := raw, EMPTY_STAT;
    while |rest| > 0
      invariant StatFields(rest, stat) == StatOf(raw)
      decreases |rest|
    {
      var next := TakeStatField(rest, stat);
      if next.Err? {
        return Err(next.error);
      }
      stat, rest := next.value.0, next.value.1;
    }
    r := Ok(stat);
  }

  // ---------- Responses ----------

  /** What the first field of a response adds (one stat, or nothing for an unknown field) and its length. */
  function ResponseField(raw: Bytes): (r: Result<(seq<RawStat>, nat), DecodeError>)
    ensures r.Ok? ==> 1 <= r.value.1 <= |raw|
  {
    var key := ReadKey(raw);
    if key.BadKey? then Err(InvalidField)
    else
      var rest := raw[key.n..];
      if key.num != 1 || key.wireType != 2 then
        var skip := SkipLength(rest, key.wireType);
        if skip.Err? then Err(skip.error) else Ok(([], key.n + skip.value))
      else
        var message := Delimited(rest);
        if message.NoSpan? then Err(InvalidMessageLength)
        else
          var stat := StatOf(rest[message.from..message.to]);
          if stat.Err? then Err(stat.error) else Ok(([stat.value], key.n + message.to))
  }

  function Prepend(stats: seq<RawStat>, r: Result<seq<RawStat>, DecodeError>): Result<seq<RawStat>, DecodeError> {
    if r.Ok? then Ok(stats + r.value) else r
  }

  function StatsOf(raw: Bytes): Result<seq<RawStat>, DecodeError>
    decreases |raw|
  {
    if raw == [] then Ok([])
    else
      var f := ResponseField(raw);
      if f.Err? then Err(f.error) else Prepend(f.value.0, StatsOf(raw[f.value.1..]))
  }

  /** One turn of the loop in `decodeQueryStatsResponse`: the stats to append and the bytes still to read. */
  method TakeResponseField(raw: Bytes) returns (r: Result<(seq<RawStat>, Bytes), DecodeError>)
    ensures var f := ResponseField(raw);
            r == if f.Ok? then Ok((f.value.0, raw[f.value.1..])) else Err(f.error)
  {
    hide IsVarint, GroupValue, Terminator, StatOf, Delimited, SkipLength;
    var field, n := ConsumeVarint(raw);
    if n <= 0 {
      return Err(InvalidField);
    }
    var rest := raw[n..];
    var fieldNum, wireType := field / 8, field % 8;
    if fieldNum != 1 || wireType != 2 {
      var skipped := SkipProtoField(rest, wireType);
      return if skipped.Err? then Err(skipped.error) else Ok(([], skipped.value));
    }
    var message, after, cut := TakeDelimited(rest);
    if cut {
      return Err(InvalidMessageLength);
    }
    var stat := DecodeStat(message);
    return if stat.Err? then Err(stat.error) else Ok(([stat.value], after));
  }

  method DecodeQueryStatsResponse(raw: Bytes) returns (r: Result<seq<RawStat>, DecodeError>)
    ensures r == StatsOf(raw)
  {
    hide ResponseField;
    var rest: Bytes, stats: seq<RawStat> := raw, [];
    assert StatsOf(raw).Ok? ==> [] + StatsOf(raw).value == StatsOf(raw).value;
    while |rest| > 0
      invariant Prepend(stats, StatsOf(rest)) == StatsOf(raw)
      decreases |rest|
    {
      var next := TakeResponseField(rest);
      if next.Err? {
        return Err(next.error);
      }
      PrependTwice(stats, next.value.0, StatsOf(next.value.1));
      stats, rest := stats + next.value.0, next.value.1;
    }
    assert stats + [] == stats;
    r := Ok(stats);
  }

  lemma PrependTwice(a: seq<RawStat>, b: seq<RawStat>, r: Result<seq<RawStat>, DecodeError>)
    ensures Prepend(a, Prepend(b, r)) == Prepend(a + b, r)
  {
    if r.Ok? {
      assert a + (b + r.value) == a + b + r.value;
    }
  }

  lemma ResponseFieldPrefix(raw: Bytes, rest: Bytes)
    requires ResponseField(raw).Ok?
    ensures ResponseField(raw + rest) == ResponseField(raw)
  {
    hide ReadKey, Delimited, SkipLength, StatOf;
    ReadKeyPrefix(raw, rest);
    var key := ReadKey(raw);
    var tail := raw[key.n..];
    assert (raw + rest)[key.n..] == tail + rest;
    if key.num != 1 || key.wireType != 2 {
      SkipPrefix(tail, rest, key.wireType);
    } else {
      DelimitedPrefix(tail, rest);
    }
  }

  /**
   A response decodes piecewise: once a prefix decodes, the whole decodes to the
   prefix's stats followed by whatever the remaining bytes decode to.
   */
  lemma {:induction false} StatsOfConcat(a: Bytes, b: Bytes)
    requires StatsOf(a).Ok?
    ensures StatsOf(a + b) == Prepend(StatsOf(a).value, StatsOf(b))
    decreases |a|
  {
    hide ResponseField;
    if a == [] {
      assert a + b == b;
      assert StatsOf(b).Ok? ==> [] + StatsOf(b).value == StatsOf(b).value;
    } else {
      var n := ResponseField(a).value.1;
      ResponseFieldPrefix(a, b);
      assert (a + b)[n..] == a[n..] + b;
      StatsOfConcat(a[n..], b);
      PrependTwice(ResponseField(a).value.0, StatsOf(a[n..]).value, StatsOf(b));
    }
  }

  lemma KeyRoundTrip(field: Word, rest: Bytes)
    ensures ReadKey(Encode(field) + rest) == Key(field / 8, field % 8, |Encode(field)|)
  {
    hide Consume, Encode;
    RoundTrip(field, rest);
  }

  lemma UnknownFieldAlone(field: Word, payload: Bytes)
    requires field / 8 != 1 || field % 8 != 2
    requires SkipLength(payload, field % 8) == Ok(|payload|)
    ensures StatsOf(Encode(field) + payload) == Ok([])
  {
    hide SkipLength, Consume, StatOf, ReadKey, Encode;
    var unknown := Encode(field) + payload;
    KeyRoundTrip(field, payload);
    assert unknown[|Encode(field)|..] == payload;
    assert ResponseField(unknown) == Ok(([], |unknown|));
    assert unknown[|unknown|..] == [];
    var none: seq<RawStat> := [];
    assert none + none == none;
  }

  /** Forward compatibility: a well-formed field the client does not know decodes to no stat wherever it stands between stats. */
  lemma UnknownFieldIgnored(a: Bytes, field: Word, payload: Bytes, b: Bytes)
    requires StatsOf(a).Ok?
    requires field / 8 != 1 || field % 8 != 2
    requires SkipLength(payload, field % 8) == Ok(|payload|)
    ensures StatsOf(a + (Encode(field) + payload) + b) == StatsOf(a + b)
  {
    hide SkipLength, StatsOf;
    var unknown := Encode(field) + payload;
    UnknownFieldAlone(field, payload);
    StatsOfConcat(unknown, b);
    StatsOfConcat(a, unknown + b);
    StatsOfConcat(a, b);
    assert a + unknown + b == a + (unknown + b);
    if StatsOf(b).Ok? {
      assert [] + StatsOf(b).value == StatsOf(b).value;
    }
  }

  // ---------- Encoding ----------

  function LengthDelimited(tag: Byte, payload: Bytes): Bytes {
    [tag] + Encode(|payload|) + payload
  }

  function StatBody(name: Bytes, value: Int64): Bytes {
    LengthDelimited(0x0a, name) + ([0x10] + Encode(ToWord(value)))
  }

  function StatMessage(name: Bytes, value: Int64): Bytes {
    LengthDelimited(0x0a, StatBody(name, value))
  }

  lemma StatBodyFits(name: Bytes, value: Int64)
    requires |name| < SLICE_LIMIT
    ensures |StatBody(name, value)| <= |name| + 2 + 2 * MAX_BYTES
  {
    RoundTrip(|name|, []);
    RoundTrip(ToWord(value), []);
  }

  /** The `stat` message, built as the source does by growing two slices. */
  method EncodeStatMessage(name: Bytes, value: Int64) returns (out: Bytes)
    requires |name| < SLICE_LIMIT
    ensures out == StatMessage(name, value)
  {
    hide Encode;
    var stat: Bytes := [];
    stat := stat + [0x0a];
    stat := AppendVarint(stat, |name|);
    stat := stat + name;
    stat := stat + [0x10];
    stat := AppendVarint(stat, ToWord(value));
    assert stat == StatBody(name, value);
    StatBodyFits(name, value);
    out := [];
    out := out + [0x0a];
    out := AppendVarint(out, |stat|);
    out := out + stat;
  }

  /** A key byte below 0x80 followed by anything reads as that key. */
  lemma KeyByte(b: Byte, rest: Bytes)
    requires b < 0x80
    ensures ReadKey([b] + rest) == Key(b / 8, b % 8, 1)
    ensures ([b] + rest)[1..] == rest
  {
    RoundTrip(b, rest);
  }

  lemma DelimitedRoundTrip(payload: Bytes, rest: Bytes)
    requires |payload| < WORD
    ensures var n := |Encode(|payload|)|;
            && Delimited(Encode(|payload|) + payload + rest) == Span(n, n + |payload|)
            && (Encode(|payload|) + payload + rest)[n..n + |payload|] == payload
  {
    hide Encode, Consume;
    assert Encode(|payload|) + payload + rest == Encode(|payload|) + (payload + rest);
    RoundTrip(|payload|, payload + rest);
  }

  lemma NameThenRest(name: Bytes, rest: Bytes)
    requires |name| < SLICE_LIMIT
    ensures StatField(LengthDelimited(0x0a, name) + rest, EMPTY_STAT) == Ok((RawStat(name, 0), |LengthDelimited(0x0a, name)|))
  {
    hide Encode, Consume, ReadKey, Delimited;
    var tail := Encode(|name|) + name + rest;
    assert LengthDelimited(0x0a, name) + rest == [0x0a] + tail;
    KeyByte(0x0a, tail);
    DelimitedRoundTrip(name, rest);
  }

  lemma ValueField(value: Int64, acc: RawStat)
    ensures StatFields([0x10] + Encode(ToWord(value)), acc) == Ok(acc.(value := value))
  {
    hide Encode, Consume, ReadKey;
    var tail := Encode(ToWord(value));
    KeyByte(0x10, tail);
    assert tail + [] == tail;
    RoundTrip(ToWord(value), []);
    assert ([0x10] + tail)[1 + |tail|..] == [];
  }

  lemma StatBodyRoundTrip(name: Bytes, value: Int64)
    requires |name| < SLICE_LIMIT
    ensures StatOf(StatBody(name, value)) == Ok(RawStat(name, value))
  {
    hide Encode, StatField, LengthDelimited, ToWord;
    var nameField := LengthDelimited(0x0a, name);
    var valueField := [0x10] + Encode(ToWord(value));
    NameThenRest(name, valueField);
    ValueField(value, RawStat(name, 0));
    assert StatBody(name, value)[|nameField|..] == valueField;
  }

  /** One encoded stat reads back as itself. */
  lemma StatRoundTrip(name: Bytes, value: Int64)
    requires |name| < SLICE_LIMIT
    ensures StatsOf(StatMessage(name, value)) == Ok([RawStat(name, value)])
  {
    hide Encode, ReadKey, Delimited, StatOf, StatBody;
    var body := StatBody(name, value);
    StatBodyFits(name, value);
    StatBodyRoundTrip(name, value);
    var tail := Encode(|body|) + body;
    assert StatMessage(name, value) == [0x0a] + tail;
    KeyByte(0x0a, tail);
    DelimitedRoundTrip(body, []);
    assert tail + [] == tail;
    assert ResponseField(StatMessage(name, value)) == Ok(([RawStat(name, value)], 1 + |tail|));
    assert StatMessage(name, value)[1 + |tail|..] == [];
    assert [RawStat(name, value)] + [] == [RawStat(name, value)];
  }

  // ---------- gRPC frames ----------

  const FRAME_LIMIT := 0x1_0000_0000

  function BigEndian32(n: nat): Bytes {
    [n / 0x100_0000 % 0x100, n / 0x1_0000 % 0x100, n / 0x100 % 0x100, n % 0x100]
  }

  function Uint32(b: Bytes): nat
    requires |b| == 4
  {
    (b[0] as int) * 0x100_0000 + (b[1] as int) * 0x1_0000 + (b[2] as int) * 0x100 + b[3] as int
  }

  lemma TwoBytes(n: nat)
    ensures n == n / 0x1_0000 * 0x1_0000 + n / 0x100 % 0x100 * 0x100 + n % 0x100
  {
    assert n == 0x100 * (n / 0x100) + n % 0x100;
  }

  lemma Bytes4(n: nat)
    ensures n == n / FRAME_LIMIT * FRAME_LIMIT + n / 0x100_0000 % 0x100 * 0x100_0000 + n / 0x1_0000 % 0x100 * 0x1_0000 + n / 0x100 % 0x100 * 0x100 + n % 0x100
  {
    var q := n / 0x1_0000;
    TwoBytes(n);
    TwoBytes(q);
    assert q / 0x100 == n / 0x100_0000 && q / 0x1_0000 == n / FRAME_LIMIT;
  }

  /** `PutUint32(uint32(n))` keeps the low 32 bits. */
  lemma BigEndianRoundTrip(n: nat)
    ensures Uint32(BigEndian32(n)) == n % FRAME_LIMIT
  {
    var a, b, c, d := n % 0x100, n / 0x100 % 0x100, n / 0x1_0000 % 0x100, n / 0x100_0000 % 0x100;
    Bytes4(n);
    var top := n / FRAME_LIMIT;
    assert Uint32(BigEndian32(n)) == d * 0x100_0000 + c * 0x1_0000 + b * 0x100 + a;
    hide BigEndian32, Uint32;
    assert n == FRAME_LIMIT * top + Uint32(BigEndian32(n)) && 0 <= Uint32(BigEndian32(n)) < FRAME_LIMIT;
  }

  function EncodeGRPCFrame(message: Bytes): Bytes {
    [0] + BigEndian32(|message|) + message
  }

  function Frames(messages: seq<Bytes>): Bytes {
    if messages == [] then [] else EncodeGRPCFrame(messages[0]) + Frames(messages[1..])
  }

  /** Payload length announced by the frame in front of raw. */
  function FrameSize(raw: Bytes): (r: Result<nat, DecodeError>)
    ensures r.Ok? ==> 5 + r.value <= |raw|
  {
    if |raw| < 5 then Err(TruncatedFrameHeader)
    else if raw[0] != 0 then Err(CompressedFrame)
    else if |raw| - 5 < Uint32(raw[1..5]) then Err(TruncatedFramePayload)
    else Ok(Uint32(raw[1..5]))
  }

  function MessagesOf(raw: Bytes): Result<seq<Bytes>, DecodeError>
    decreases |raw|
  {
    if raw == [] then Ok([])
    else
      var size := FrameSize(raw);
      if size.Err? then Err(size.error)
      else PrependMessages([raw[5..5 + size.value]], MessagesOf(raw[5 + size.value..]))
  }

  function PrependMessages(messages: seq<Bytes>, r: Result<seq<Bytes>, DecodeError>): Result<seq<Bytes>, DecodeError> {
    if r.Ok? then Ok(messages + r.value) else r
  }

  lemma PrependMessagesTwice(a: seq<Bytes>, b: seq<Bytes>, r: Result<seq<Bytes>, DecodeError>)
    ensures PrependMessages(a, PrependMessages(b, r)) == PrependMessages(a + b, r)
  {
    if r.Ok? {
      assert a + (b + r.value) == a + b + r.value;
    }
  }

  method DecodeGRPCFrames(raw: Bytes) returns (r: Result<seq<Bytes>, DecodeError>)
    ensures r == MessagesOf(raw)
  {
    hide Uint32;
    var rest: Bytes, messages: seq<Bytes> := raw, [];
    assert MessagesOf(raw).Ok? ==> [] + MessagesOf(raw).value == MessagesOf(raw).value;
    while |rest| > 0
      invariant PrependMessages(messages, MessagesOf(rest)) == MessagesOf(raw)
      decreases |rest|
    {
      if |rest| < 5 {
        return Err(TruncatedFrameHeader);
      }
      if rest[0] != 0 {
        return Err(CompressedFrame);
      }
      ghost var before := rest;
      var size := Uint32(rest[1..5]);
      rest := rest[5..];
      if |rest| < size {
        return Err(TruncatedFramePayload);
      }
      assert before[5..5 + size] == rest[..size] && before[5 + size..] == rest[size..];
      PrependMessagesTwice(messages, [rest[..size]], MessagesOf(rest[size..]));
      messages := messages + [rest[..size]];
      rest := rest[size..];
    }
    assert messages + [] == messages;
    r := Ok(messages);
  }

  lemma FrameThenRest(m: Bytes, rest: Bytes)
    requires |m| < FRAME_LIMIT
    ensures var raw := EncodeGRPCFrame(m) + rest;
            FrameSize(raw) == Ok(|m|) && raw[5..5 + |m|] == m && raw[5 + |m|..] == rest
  {
    hide Uint32;
    var raw := EncodeGRPCFrame(m) + rest;
    assert raw[1..5] == BigEndian32(|m|);
    BigEndianRoundTrip(|m|);
  }

  /** Any sequence of framed messages comes back whole and in order. */
  lemma {:induction false} FramesRoundTrip(messages: seq<Bytes>)
    requires forall i :: 0 <= i < |messages| ==> |messages[i]| < FRAME_LIMIT
    ensures MessagesOf(Frames(messages)) == Ok(messages)
  {
    hide FrameSize, EncodeGRPCFrame;
    if messages != [] {
      FrameThenRest(messages[0], Frames(messages[1..]));
      FramesRoundTrip(messages[1..]);
      assert messages == [messages[0]] + messages[1..];
    }
  }

  /** One frame reads back as its message exactly when the length fits the 32-bit prefix. */
  lemma FrameRoundTripIff(message: Bytes)
    ensures MessagesOf(EncodeGRPCFrame(message)) == Ok([message]) <==> |message| < FRAME_LIMIT
  {
    var raw := EncodeGRPCFrame(message);
    if |message| < FRAME_LIMIT {
      FramesRoundTrip([message]);
      assert [message][1..] == [];
      assert Frames([message]) == raw + [];
      assert raw + [] == raw;
    } else {
      assert raw[1..5] == BigEndian32(|message|);
      BigEndianRoundTrip(|message|);
      var size := |message| % FRAME_LIMIT;
      assert size < |message|;
      assert |raw[5..5 + size]| == size;
    }
  }

  // ---------- Fields the client does not know ----------

  /** What an unknown payload takes: a varint, eight bytes, a length and as many bytes, or four bytes; other wire types are refused. */
  lemma SkippedBytes(raw: Bytes, wireType: Word)
    ensures wireType == 0 ==> SkipLength(raw, wireType) == if Consume(raw).Consumed? then Ok(Consume(raw).n) else Err(InvalidVarintField)
    ensures wireType == 1 ==> SkipLength(raw, wireType) == if |raw| >= 8 then Ok(8) else Err(InvalidFixed64Field)
    ensures wireType == 2 ==>
              SkipLength(raw, wireType) == if Consume(raw).Consumed? && Consume(raw).n + Consume(raw).value <= |raw| then Ok(Consume(raw).n + Consume(raw).value) else Err(InvalidBytesField)
    ensures wireType == 5 ==> SkipLength(raw, wireType) == if |raw| >= 4 then Ok(4) else Err(InvalidFixed32Field)
    ensures wireType !in {0, 1, 2, 5} ==> SkipLength(raw, wireType) == Err(UnsupportedWireType(wireType))
  {
    hide Consume;
  }

  /** Inside a stat, too, a well-formed field that is neither the name nor the value changes nothing, wherever it stands. */
  lemma UnknownStatFieldIgnored(acc: RawStat, field: Word, payload: Bytes, rest: Bytes)
    requires !(field / 8 == 1 && field % 8 == 2) && !(field / 8 == 2 && field % 8 == 0)
    requires SkipLength(payload, field % 8) == Ok(|payload|)
    ensures StatFields(Encode(field) + payload + rest, acc) == StatFields(rest, acc)
  {
    hide SkipLength, Consume, ReadKey, Encode, Delimited;
    var raw := Encode(field) + payload + rest;
    assert raw == Encode(field) + (payload + rest);
    KeyRoundTrip(field, payload + rest);
    assert raw[|Encode(field)|..] == payload + rest;
    SkipPrefix(payload, rest, field % 8);
    assert raw[|Encode(field)| + |payload|..] == rest;
  }
}
