/** Control packets as values: the bytes each is written as, the packet that bytes are read as, and
    how far the two are inverse. */
module Packets {
  import opened Wire

  datatype Header = Header(messageType: Byte, dup: bool, qos: Byte, retain: bool)

  function Bit(b: bool): Byte {
    if b then 1 else 0
  }

  function PackHeader(h: Header): Byte {
    (h.messageType << 4) | (Bit(h.dup) << 3) | (h.qos << 1) | Bit(h.retain)
  }

  function UnpackHeader(b: Byte): Header {
    Header(b >> 4, (b >> 3) & 1 > 0, (b >> 1) & 3, b & 1 > 0)
  }

  /** A header survives the byte it is packed into exactly if type and QoS fit their bits. */
  lemma HeaderRoundTrip(h: Header)
    ensures UnpackHeader(PackHeader(h)) == h <==> h.messageType < 16 && h.qos < 4
  {
  }

  /** Figure 2.2 of section 2.2: the type in the upper four bits, then DUP, QoS and RETAIN. */
  lemma HeaderBits(h: Header)
    requires h.messageType < 16 && h.qos < 4
    ensures PackHeader(h) == 16 * h.messageType + (if h.dup then 8 else 0) + 2 * h.qos + if h.retain then 1 else 0
  {
  }

  lemma HeaderByteRoundTrip(b: Byte)
    ensures PackHeader(UnpackHeader(b)) == b
  {
  }

  // ---------------------------------------------------------------- PUBLISH

  function PublishBody(qos: Byte, topic: Bytes, id: Word, payload: Bytes): Bytes {
    PutField(topic) + (if qos > 0 then PutWord(id) else []) + payload
  }

  datatype PublishFields = PublishFields(topic: Bytes, id: Word, payload: Bytes)

  /** The payload is what RemainingLength leaves of the body. */
  function GetPublish(qos: Byte, remaining: int, b: Bytes): Got<PublishFields> {
    match GetField(b)
    case Eof => Eof
    case Got(topic, r1) =>
      match (if qos > 0 then GetWord(r1) else Got(0, r1))
      case Eof => Eof
      case Got(id, r2) =>
        var left := remaining - (|topic| + if qos > 0 then 4 else 2);
        if left < 0 then Eof
        else
          match Take(r2, left)
          case Eof => Eof
          case Got(payload, rest) => Got(PublishFields(topic, id, payload), rest)
  }

  /** The topic and, above QoS 0, the message id lie within the body. */
  predicate PublishFits(qos: Byte, b: Bytes) {
    |b| >= 2 && 2 + WordOf(b[0], b[1]) + (if qos > 0 then 2 else 0) <= |b|
  }

  lemma GetFieldCases(b: Bytes)
    ensures match GetField(b)
            case Got(f, rest) =>
              || (2 + |f| <= |b| && b == PutField(f) + rest && |f| == WordOf(b[0], b[1]))
              || (2 + |f| > |b| && rest == [] && (|b| >= 2 ==> |f| == WordOf(b[0], b[1])))
            case Eof => |b| <= 2 && (|b| == 2 ==> WordOf(b[0], b[1]) > 0)
  {
    hide WordOf, PutWord;
    match GetField(b)
    case Got(f, rest) =>
      if |b| >= 2 {
        GetWordOf(b);
      }
      if 2 + |f| <= |b| {
        PutGetField(b, f, rest);
      }
    case Eof =>
      if |b| >= 2 {
        GetWordOf(b);
      }
  }

  lemma GetWordCases(b: Bytes)
    ensures match GetWord(b)
            case Got(w, rest) => b != [] && (if |b| >= 2 then b == PutWord(w) + rest else rest == [])
            case Eof => b == []
  {
    hide WordOf, PutWord;
    if |b| >= 2 {
      GetWordOf(b);
      BytesRoundTrip(b[0], b[1]);
      assert b == [b[0], b[1]] + b[2..];
    }
  }

  /** On a body of exactly RemainingLength bytes, parsing succeeds if and only if topic and id fit,
      and what it returns is written as that very body: short reads are never let through. */
  lemma PublishInverse(qos: Byte, b: Bytes)
    ensures GetPublish(qos, |b|, b).Got? <==> PublishFits(qos, b)
    ensures match GetPublish(qos, |b|, b)
            case Got(p, rest) => rest == [] && PublishBody(qos, p.topic, p.id, p.payload) == b
                && (qos == 0 ==> p.id == 0)
            case Eof => true
  {
    hide WordOf, PutWord, GetField, GetWord;
    GetFieldCases(b);
    match GetField(b)
    case Eof =>
    case Got(topic, r1) =>
      GetWordCases(r1);
      assert 2 + |topic| <= |b| ==> |r1| == |b| - 2 - |topic|;
  }

  lemma PublishRoundTrip(qos: Byte, topic: Bytes, id: Word, payload: Bytes)
    requires |topic| <= MAX_FIELD && (qos == 0 ==> id == 0)
    ensures var b := PublishBody(qos, topic, id, payload);
            GetPublish(qos, |b|, b) == Got(PublishFields(topic, id, payload), [])
  {
    hide WordOf, PutWord, GetField, GetWord, PutField;
    var b := PublishBody(qos, topic, id, payload);
    var r1 := (if qos > 0 then PutWord(id) else []) + payload;
    assert b == PutField(topic) + r1;
    GetPutField(topic, r1);
    if qos > 0 {
      GetPutWord(id, payload);
    } else {
      assert r1 == payload;
    }
    assert payload[..|payload|] == payload && payload[|payload|..] == [];
  }

  // ---------------------------------------------------------------- SUBSCRIBE

  predicate Fields(fs: seq<Bytes>) {
    forall f | f in fs :: |f| <= MAX_FIELD
  }

  function Entries(topics: seq<Bytes>, qoss: seq<Byte>): Bytes
    requires |topics| == |qoss|
  {
    if topics == [] then [] else PutField(topics[0]) + [qoss[0]] + Entries(topics[1..], qoss[1..])
  }

  function SubscribeBody(id: Word, topics: seq<Bytes>, qoss: seq<Byte>): Bytes
    requires |topics| == |qoss|
  {
    PutWord(id) + Entries(topics, qoss)
  }

  datatype Subs = Subs(topics: seq<Bytes>, qoss: seq<Byte>)

  /** The loop that runs while payloadLength says that bytes are left. */
  function GetEntries(b: Bytes, left: int): (g: Got<Subs>)
    ensures g.Got? ==> |g.value.topics| == |g.value.qoss|
    decreases if left < 0 then 0 else left
  {
    if left <= 0 then Got(Subs([], []), b)
    else
      match GetField(b)
      case Eof => Eof
      case Got(topic, r1) =>
        match GetByte(r1)
        case Eof => Eof
        case Got(qos, r2) =>
          match GetEntries(r2, left - (2 + |topic| + 1))
          case Eof => Eof
          case Got(more, rest) => Got(Subs([topic] + more.topics, [qos] + more.qoss), rest)
  }

  datatype SubscribeFields = SubscribeFields(id: Word, topics: seq<Bytes>, qoss: seq<Byte>)

  function GetSubscribe(remaining: int, b: Bytes): (g: Got<SubscribeFields>)
    ensures g.Got? ==> |g.value.topics| == |g.value.qoss|
  {
    match GetWord(b)
    case Eof => Eof
    case Got(id, r) =>
      match GetEntries(r, remaining - 2)
      case Eof => Eof
      case Got(s, rest) => Got(SubscribeFields(id, s.topics, s.qoss), rest)
  }

  lemma {:induction false} EntriesInverse(b: Bytes)
    ensures match GetEntries(b, |b|)
            case Got(s, rest) => rest == [] && Fields(s.topics) && Entries(s.topics, s.qoss) == b
            case Eof => true
    decreases |b|
  {
    if b == [] {
      assert Entries([], []) == [];
    } else if HasEntry(b) {
      hide PutField, GetField, GetByte, Entries, GetEntries, Fields;
      var topic, r1 := GetField(b).value, GetField(b).rest;
      var qos, r2 := GetByte(r1).value, GetByte(r1).rest;
      GetFieldCases(b);
      GetByteCases(r1);
      FirstEntry(b, |b|);
      EntriesInverse(r2);
      match GetEntries(r2, |r2|)
      case Eof =>
      case Got(more, rest) =>
        OneEntryMore(b, topic, r1, qos, r2, more);
    }
  }

  predicate HasEntry(b: Bytes) {
    GetField(b).Got? && GetByte(GetField(b).rest).Got?
  }

  lemma FirstEntry(b: Bytes, left: int)
    requires left > 0 && HasEntry(b)
    ensures var topic, r1 := GetField(b).value, GetField(b).rest;
            var qos, r2 := GetByte(r1).value, GetByte(r1).rest;
            GetEntries(b, left) ==
            match GetEntries(r2, left - (2 + |topic| + 1))
            case Eof => Eof
            case Got(more, rest) => Got(Subs([topic] + more.topics, [qos] + more.qoss), rest)
  {
    hide GetField, GetByte;
  }

  lemma GetByteCases(b: Bytes)
    ensures match GetByte(b)
            case Got(v, rest) => b == [v] + rest
            case Eof => b == []
  {
  }

  lemma OneEntryMore(b: Bytes, topic: Bytes, r1: Bytes, qos: Byte, r2: Bytes, more: Subs)
    requires b == PutField(topic) + r1 && r1 == [qos] + r2 && |topic| <= MAX_FIELD
    requires |more.topics| == |more.qoss| && Fields(more.topics) && Entries(more.topics, more.qoss) == r2
    ensures Fields([topic] + more.topics)
    ensures Entries([topic] + more.topics, [qos] + more.qoss) == b
  {
    hide PutField;
    assert ([topic] + more.topics)[1..] == more.topics && ([qos] + more.qoss)[1..] == more.qoss;
  }

  lemma {:induction false} EntriesRoundTrip(topics: seq<Bytes>, qoss: seq<Byte>, suffix: Bytes)
    requires |topics| == |qoss| && Fields(topics)
    ensures GetEntries(Entries(topics, qoss) + suffix, |Entries(topics, qoss)|) == Got(Subs(topics, qoss), suffix)
  {
    hide PutField, GetField, GetByte, GetEntries, Fields;
    var b := Entries(topics, qoss);
    if topics == [] {
      NoEntries(suffix);
      assert b + suffix == suffix;
    } else {
      var rest := Entries(topics[1..], qoss[1..]) + suffix;
      assert b + suffix == PutField(topics[0]) + ([qoss[0]] + rest);
      FieldsParts(topics);
      GetPutField(topics[0], [qoss[0]] + rest);
      GetPutByte(qoss[0], rest);
      FirstEntry(b + suffix, |b|);
      EntriesRoundTrip(topics[1..], qoss[1..], suffix);
      assert [topics[0]] + topics[1..] == topics && [qoss[0]] + qoss[1..] == qoss;
    }
  }

  lemma NoEntries(suffix: Bytes)
    ensures GetEntries(suffix, 0) == Got(Subs([], []), suffix)
  {
  }

  lemma FieldsParts(topics: seq<Bytes>)
    requires Fields(topics) && topics != []
    ensures |topics[0]| <= MAX_FIELD && Fields(topics[1..])
  {
  }

  /** A true inverse: a body of two or more bytes is accepted if and only if it is the encoding of some
      topics with their QoS, and those are what it is read as. */
  lemma SubscribeInverse(b: Bytes)
    requires |b| >= 2
    ensures match GetSubscribe(|b|, b)
            case Got(s, rest) => rest == [] && Fields(s.topics) && SubscribeBody(s.id, s.topics, s.qoss) == b
            case Eof =>
              forall id, topics, qoss | |topics| == |qoss| && Fields(topics) :: SubscribeBody(id, topics, qoss) != b
  {
    hide PutWord, GetWord, Entries, GetEntries, Fields;
    GetWordCases(b);
    var r := GetWord(b).rest;
    EntriesInverse(r);
    if GetSubscribe(|b|, b) == Eof {
      forall id, topics: seq<Bytes>, qoss: seq<Byte> | |topics| == |qoss| && Fields(topics)
        ensures SubscribeBody(id, topics, qoss) != b
      {
        SubscribeRoundTrip(id, topics, qoss);
      }
    }
  }

  lemma SubscribeRoundTrip(id: Word, topics: seq<Bytes>, qoss: seq<Byte>)
    requires |topics| == |qoss| && Fields(topics)
    ensures var b := SubscribeBody(id, topics, qoss);
            GetSubscribe(|b|, b) == Got(SubscribeFields(id, topics, qoss), [])
  {
    hide PutWord, GetWord, Entries, GetEntries, Fields;
    GetPutWord(id, Entries(topics, qoss));
    EntriesRoundTrip(topics, qoss, []);
    assert Entries(topics, qoss) + [] == Entries(topics, qoss);
  }

  // ---------------------------------------------------------------- UNSUBSCRIBE

  function FieldsOf(topics: seq<Bytes>): Bytes {
    if topics == [] then [] else PutField(topics[0]) + FieldsOf(topics[1..])
  }

  function UnsubscribeBody(id: Word, topics: seq<Bytes>): Bytes {
    PutWord(id) + FieldsOf(topics)
  }

  /** The loop that runs until a field cannot be read or is empty; either end is taken for success. */
  function GetFields(b: Bytes): seq<Bytes>
    decreases |b|
  {
    match GetField(b)
    case Eof => []
    case Got(topic, rest) =>
      ShorterRest(b);
      if topic == [] then [] else [topic] + GetFields(rest)
  }

  /** What that loop leaves unread: the bytes behind an empty topic. */
  function Leftover(b: Bytes): Bytes
    decreases |b|
  {
    match GetField(b)
    case Eof => []
    case Got(topic, rest) =>
      ShorterRest(b);
      if topic == [] then rest else Leftover(rest)
  }

  lemma ShorterRest(b: Bytes)
    ensures GetField(b).Got? ==> |GetField(b).rest| < |b|
  {
  }

  datatype UnsubscribeFields = UnsubscribeFields(id: Word, topics: seq<Bytes>)

  function GetUnsubscribe(b: Bytes): Got<UnsubscribeFields> {
    match GetWord(b)
    case Eof => Eof
    case Got(id, r) => Got(UnsubscribeFields(id, GetFields(r)), Leftover(r))
  }

  /** The topics are read back exactly if none is empty and each fits its length prefix. */
  lemma {:induction false} FieldsRoundTrip(topics: seq<Bytes>)
    ensures GetFields(FieldsOf(topics)) == topics <==> Fields(topics) && [] !in topics
  {
    if topics != [] {
      hide PutField, GetField;
      var t, rest := topics[0], FieldsOf(topics[1..]);
      GetPutField(t, rest);
      GetFieldCases(FieldsOf(topics));
      FieldsRoundTrip(topics[1..]);
      assert topics == [t] + topics[1..];
      if |t| <= MAX_FIELD && t != [] {
        assert GetFields(FieldsOf(topics)) == [t] + GetFields(rest);
        assert ([t] + GetFields(rest))[1..] == GetFields(rest);
      } else {
        assert t in topics;
      }
    }
  }

  /** The bytes are one whole non-empty field after the other. */
  predicate Tiled(b: Bytes)
    decreases |b|
  {
    b == [] || (|b| >= 2 && var n := WordOf(b[0], b[1]); n > 0 && 2 + n <= |b| && Tiled(b[2 + n..]))
  }

  /** Exactly when the bytes are the encoding of the topics they are read as. */
  lemma {:induction false} FieldsInverse(b: Bytes)
    ensures FieldsOf(GetFields(b)) == b <==> Tiled(b)
    decreases |b|
  {
    if b == [] {
      assert GetFields(b) == [];
    } else {
      hide WordOf, PutField, GetField;
      GetFieldCases(b);
      match GetField(b)
      case Eof => assert GetFields(b) == [];
      case Got(topic, rest) =>
        if topic != [] {
          ShorterRest(b);
          FieldsInverse(rest);
          var more := GetFields(rest);
          assert ([topic] + more)[1..] == more;
          assert FieldsOf([topic] + more) == PutField(topic) + FieldsOf(more);
          if 2 + |topic| <= |b| {
            assert rest == b[2 + |topic|..];
          }
        }
    }
  }

  /** An accepted UNSUBSCRIBE body is the encoding of what it is read as if and only if it has a whole
      message id and then nothing but whole non-empty fields: every other accepted body, cut off, padded
      or with bytes behind an empty topic, is not. */
  lemma UnsubscribeInverse(b: Bytes)
    requires GetUnsubscribe(b).Got?
    ensures var u := GetUnsubscribe(b).value;
            UnsubscribeBody(u.id, u.topics) == b <==> |b| >= 2 && Tiled(b[2..])
  {
    hide WordOf, PutWord, GetWord, FieldsOf, GetFields, Tiled;
    GetWordCases(b);
    var r := GetWord(b).rest;
    FieldsInverse(r);
    if |b| >= 2 {
      assert r == b[2..];
    }
  }

  /** A body cut off inside its last topic is accepted, with the missing bytes read as zeros. */
  lemma UnsubscribePads(topic: Bytes, n: nat)
    requires 0 < n < |topic| <= MAX_FIELD
    ensures GetFields(PutField(topic)[..2 + n]) == [topic[..n] + Zeros(|topic| - n)]
  {
    hide PutWord, WordOf;
    var b := PutField(topic)[..2 + n];
    assert b == PutWord(|topic|) + topic[..n];
    GetPutWord(|topic|, topic[..n]);
    assert GetFields([]) == [];
  }

  // ---------------------------------------------------------------- CONNECT

  datatype ConnectFields = ConnectFields(
    protocolName: Bytes, protocolVersion: Byte, flags: ConnectFlags, keepalive: Word, clientIdentifier: Bytes,
        tail: Tail)

  /** The fields that the flags announce. */
  datatype Tail = Tail(willTopic: Bytes, willMessage: Bytes, username: Bytes, password: Bytes)

  datatype ConnectFlags = ConnectFlags(
    cleanSession: bool, willFlag: bool, willQos: Byte, willRetain: bool, usernameFlag: bool, passwordFlag: bool,
    reservedBit: Byte)

  function PackFlags(f: ConnectFlags): Byte {
    (Bit(f.cleanSession) << 1) | (Bit(f.willFlag) << 2) | (f.willQos << 3) | (Bit(f.willRetain) << 5)
    | (Bit(f.passwordFlag) << 6) | (Bit(f.usernameFlag) << 7)
  }

  function UnpackFlags(b: Byte): ConnectFlags {
    ConnectFlags(1 & (b >> 1) > 0, 1 & (b >> 2) > 0, 3 & (b >> 3), 1 & (b >> 5) > 0, 1 & (b >> 7) > 0,
        1 & (b >> 6) > 0, 1 & b)
  }

  /** Every byte is what its flags are packed into, save that the reserved bit is written as 0. */
  lemma FlagsByteRoundTrip(b: Byte)
    ensures PackFlags(UnpackFlags(b)) == b & 0xFE && UnpackFlags(b).reservedBit == b & 1
    ensures UnpackFlags(b).willQos < 4
  {
  }

  /** Exactly the flags whose will QoS fits two bits and whose reserved bit is clear survive. */
  lemma FlagsRoundTrip(f: ConnectFlags)
    ensures UnpackFlags(PackFlags(f)) == f <==> f.willQos < 4 && f.reservedBit == 0
  {
  }

  /** Section 3.1.2.3: from the top, user name, password, will retain, will QoS, will and clean session. */
  lemma FlagBits(f: ConnectFlags)
    requires f.willQos < 4
    ensures PackFlags(f) == (if f.usernameFlag then 128 else 0) + (if f.passwordFlag then 64 else 0)
                            + (if f.willRetain then 32 else 0) + 8 * f.willQos + (if f.willFlag then 4 else 0)
                            + if f.cleanSession then 2 else 0
  {
  }

  function When(flag: bool, f: Bytes): Bytes {
    if flag then PutField(f) else []
  }

  function ConnectBody(c: ConnectFields): Bytes {
    PutField(c.protocolName) + [c.protocolVersion] + [PackFlags(c.flags)] + PutWord(c.keepalive)
    + PutField(c.clientIdentifier)
    + When(c.flags.willFlag, c.tail.willTopic) + When(c.flags.willFlag, c.tail.willMessage)
    + When(c.flags.usernameFlag, c.tail.username) + When(c.flags.passwordFlag, c.tail.password)
  }

  function GetWhen(flag: bool, b: Bytes): Got<Bytes> {
    if flag then GetField(b) else Got([], b)
  }

  function GetTail(f: ConnectFlags, b: Bytes): Got<Tail> {
    match GetWhen(f.willFlag, b) case Eof => Eof case Got(topic, r6) =>
    match GetWhen(f.willFlag, r6) case Eof => Eof case Got(message, r7) =>
    match GetWhen(f.usernameFlag, r7) case Eof => Eof case Got(username, r8) =>
    match GetWhen(f.passwordFlag, r8) case Eof => Eof case Got(password, rest) =>
    Got(Tail(topic, message, username, password), rest)
  }

  datatype Head = Head(protocolName: Bytes, protocolVersion: Byte, flags: ConnectFlags)

  function GetHead(b: Bytes): Got<Head> {
    match GetField(b) case Eof => Eof case Got(name, r1) =>
    match GetByte(r1) case Eof => Eof case Got(version, r2) =>
    match GetByte(r2) case Eof => Eof case Got(options, rest) =>
    Got(Head(name, version, UnpackFlags(options)), rest)
  }

  function GetConnect(b: Bytes): Got<ConnectFields> {
    match GetHead(b) case Eof => Eof case Got(h, r3) =>
    match GetWord(r3) case Eof => Eof case Got(keepalive, r4) =>
    match GetField(r4) case Eof => Eof case Got(id, r5) =>
    match GetTail(h.flags, r5) case Eof => Eof case Got(t, rest) =>
    Got(ConnectFields(h.protocolName, h.protocolVersion, h.flags, keepalive, id, t), rest)
  }

  /** The fields that the flags leave out are empty, and each one fits its length prefix. */
  predicate ConnectFits(c: ConnectFields) {
    && c.flags.willQos < 4 && c.flags.reservedBit == 0
    && |c.protocolName| <= MAX_FIELD && |c.clientIdentifier| <= MAX_FIELD
    && |c.tail.willTopic| <= MAX_FIELD && |c.tail.willMessage| <= MAX_FIELD && |c.tail.username| <= MAX_FIELD
        && |c.tail.password| <= MAX_FIELD
    && (!c.flags.willFlag ==> c.tail.willTopic == [] && c.tail.willMessage == [])
    && (!c.flags.usernameFlag ==> c.tail.username == []) && (!c.flags.passwordFlag ==> c.tail.password == [])
  }

  lemma GetPutWhen(flag: bool, f: Bytes, rest: Bytes)
    requires |f| <= MAX_FIELD && (!flag ==> f == [])
    ensures GetWhen(flag, When(flag, f) + rest) == Got(f, rest)
  {
    if flag {
      GetPutField(f, rest);
    } else {
      assert [] + rest == rest;
    }
  }

  function ConnectTail(c: ConnectFields): Bytes {
    When(c.flags.willFlag, c.tail.willTopic) + When(c.flags.willFlag, c.tail.willMessage)
    + When(c.flags.usernameFlag, c.tail.username) + When(c.flags.passwordFlag, c.tail.password)
  }

  lemma TailRoundTrip(c: ConnectFields, suffix: Bytes)
    requires ConnectFits(c.(flags := c.flags.(reservedBit := 0)))
    ensures GetTail(c.flags, ConnectTail(c) + suffix) == Got(c.tail, suffix)
  {
    hide When, GetWhen;
    var r8 := When(c.flags.passwordFlag, c.tail.password) + suffix;
    var r7 := When(c.flags.usernameFlag, c.tail.username) + r8;
    var r6 := When(c.flags.willFlag, c.tail.willMessage) + r7;
    assert ConnectTail(c) + suffix == When(c.flags.willFlag, c.tail.willTopic) + r6;
    GetPutWhen(c.flags.willFlag, c.tail.willTopic, r6);
    GetPutWhen(c.flags.willFlag, c.tail.willMessage, r7);
    GetPutWhen(c.flags.usernameFlag, c.tail.username, r8);
    GetPutWhen(c.flags.passwordFlag, c.tail.password, suffix);
  }

  /** A body that begins like a CONNECT is read as one whatever its flags byte says, the reserved bit included. */
  lemma ConnectReads(c: ConnectFields, options: Byte, suffix: Bytes)
    requires c.flags == UnpackFlags(options) && ConnectFits(c.(flags := c.flags.(reservedBit := 0)))
    ensures GetConnect(PutField(c.protocolName) + ([c.protocolVersion] + ([options] + (PutWord(c.keepalive)
                       + (PutField(c.clientIdentifier) + (ConnectTail(c) + suffix)))))) == Got(c, suffix)
  {
    hide PutField, PutWord, PackFlags, UnpackFlags, GetField, GetWord, GetByte, GetTail, ConnectTail, When;
    var r5 := ConnectTail(c) + suffix;
    var r4 := PutField(c.clientIdentifier) + r5;
    var r3 := PutWord(c.keepalive) + r4;
    var r2 := [options] + r3;
    var r1 := [c.protocolVersion] + r2;
    GetPutField(c.protocolName, r1);
    GetPutByte(c.protocolVersion, r2);
    GetPutByte(options, r3);
    GetPutWord(c.keepalive, r4);
    GetPutField(c.clientIdentifier, r5);
    TailRoundTrip(c, suffix);
  }

  /** Every combination of flags: all fields come back, and nothing that follows is touched. */
  lemma ConnectRoundTrip(c: ConnectFields, suffix: Bytes)
    requires ConnectFits(c)
    ensures GetConnect(ConnectBody(c) + suffix) == Got(c, suffix)
  {
    hide PutField, PutWord, PackFlags, UnpackFlags, GetField, GetWord, GetByte, GetTail, ConnectTail, When;
    FlagsRoundTrip(c.flags);
    BodySplits(c);
    assert ConnectBody(c) + suffix == PutField(c.protocolName) + ([c.protocolVersion] + ([PackFlags(c.flags)]
        + (PutWord(c.keepalive) + (PutField(c.clientIdentifier) + (ConnectTail(c) + suffix)))));
    ConnectReads(c, PackFlags(c.flags), suffix);
  }

  lemma BodySplits(c: ConnectFields)
    ensures ConnectBody(c) == PutField(c.protocolName) + ([c.protocolVersion] + ([PackFlags(c.flags)]
                              + (PutWord(c.keepalive) + (PutField(c.clientIdentifier) + ConnectTail(c)))))
  {
    hide PutField, PutWord, PackFlags, When;
  }

  // ---------------------------------------------------------------- any packet

  datatype Body =
    | Connect(connect: ConnectFields)
    | Connack(sessionPresent: bool, returnCode: Byte)
    | Publish(publish: PublishFields)
    | IdOnly(id: Word)
    | Subscribe(subscribe: SubscribeFields)
    | Suback(ackId: Word, returnCodes: Bytes)
    | Unsubscribe(unsubscribe: UnsubscribeFields)
    | Empty

  /** The fixed header without its two lengths, and the rest. */
  datatype Packet = Packet(header: Header, body: Body)

  predicate Shaped(body: Body) {
    body.Subscribe? ==> |body.subscribe.topics| == |body.subscribe.qoss|
  }

  function BodyBytes(p: Packet): Bytes
    requires Shaped(p.body)
  {
    match p.body
    case Connect(c) => ConnectBody(c)
    case Connack(session, code) => [Bit(session), code]
    case Publish(f) => PublishBody(p.header.qos, f.topic, f.id, f.payload)
    case IdOnly(id) => PutWord(id)
    case Subscribe(f) => SubscribeBody(f.id, f.topics, f.qoss)
    case Suback(id, codes) => PutWord(id) + codes
    case Unsubscribe(f) => UnsubscribeBody(f.id, f.topics)
    case Empty => []
  }

  function Encode(p: Packet): Bytes
    requires Shaped(p.body)
  {
    [PackHeader(p.header)] + PutLength(|BodyBytes(p)|) + BodyBytes(p)
  }

  /** The body of a packet of this type, read from all of RemainingLength's bytes. */
  function GetBody(h: Header, b: Bytes): (g: Got<Body>)
    ensures g.Got? ==> Shaped(g.value)
  {
    match h.messageType
    case 1 => (match GetConnect(b) case Got(c, rest) => Got(Connect(c), rest) case Eof => Eof)
    case 2 => GetConnack(b)
    case 3 => (match GetPublish(h.qos, |b|, b) case Got(f, rest) => Got(Publish(f), rest) case Eof => Eof)
    case 8 => (match GetSubscribe(|b|, b) case Got(f, rest) => Got(Subscribe(f), rest) case Eof => Eof)
    case 9 => (match GetWord(b) case Got(id, codes) => Got(Suback(id, codes), []) case Eof => Eof)
    case 10 => (match GetUnsubscribe(b) case Got(f, rest) => Got(Unsubscribe(f), rest) case Eof => Eof)
    case 12 => Got(Empty, b)
    case 13 => Got(Empty, b)
    case 14 => Got(Empty, b)
    case _ => (match GetWord(b) case Got(id, rest) => Got(IdOnly(id), rest) case Eof => Eof)
  }

  function GetConnack(b: Bytes): Got<Body> {
    match GetByte(b) case Eof => Eof case Got(flags, r1) =>
    match GetByte(r1) case Eof => Eof case Got(code, rest) =>
    Got(Connack(1 & flags > 0, code), rest)
  }

  datatype Front = Front(header: Header, remaining: nat)

  /** The fixed header: the first byte and the length. */
  function GetFront(b: Bytes): Got<Front> {
    if b == [] then Eof
    else
      match GetLength(b[1..], 4) case Eof => Eof case Got(n, rest) =>
      Got(Front(UnpackHeader(b[0]), n), rest)
  }

  /** ReadPacket: one packet off the front of the stream. */
  function ReadOne(b: Bytes): (g: Got<Packet>)
    ensures g.Got? ==> Shaped(g.value.body)
  {
    match GetFront(b)
    case Eof => Eof
    case Got(f, r) => ReadAfter(f, r)
  }

  /** What follows the fixed header. */
  function ReadAfter(f: Front, r: Bytes): (g: Got<Packet>)
    ensures g.Got? ==> Shaped(g.value.body)
  {
    if !(1 <= f.header.messageType <= 14) then Eof
    else
      match TakeFull(r, f.remaining) case Eof => Eof case Got(bytes, rest) =>
      match GetBody(f.header, bytes) case Eof => Eof case Got(body, _) =>
      Got(Packet(f.header, body), rest)
  }

  /** The body that goes with the type, with every field within its bounds. */
  predicate BodyFits(h: Header, body: Body) {
    match h.messageType
    case 1 => body.Connect? && ConnectFits(body.connect)
    case 2 => body.Connack?
    case 3 => body.Publish? && |body.publish.topic| <= MAX_FIELD && (h.qos == 0 ==> body.publish.id == 0)
    case 8 => body.Subscribe? && Shaped(body) && Fields(body.subscribe.topics)
    case 9 => body.Suback?
    case 10 => body.Unsubscribe? && Fields(body.unsubscribe.topics) && [] !in body.unsubscribe.topics
    case 12 => body.Empty?
    case 13 => body.Empty?
    case 14 => body.Empty?
    case _ => body.IdOnly?
  }

  predicate WellFormed(p: Packet) {
    && 1 <= p.header.messageType <= 14 && p.header.qos < 4
    && BodyFits(p.header, p.body) && |BodyBytes(p)| <= MAX_LENGTH
  }

  lemma FitsShaped(h: Header, body: Body)
    requires BodyFits(h, body)
    ensures Shaped(body)
  {
  }

  lemma BodyRoundTrip(p: Packet)
    requires BodyFits(p.header, p.body)
    ensures GetBody(p.header, BodyBytes(p)).Got? && GetBody(p.header, BodyBytes(p)).value == p.body
  {
    hide ConnectFits, ConnectBody, GetConnect, PublishBody, GetPublish, SubscribeBody, GetSubscribe, Fields, PutWord;
    hide GetWord;
    hide GetFields, FieldsOf, GetByte;
    var b := BodyBytes(p);
    match p.body
    case Connect(c) =>
      ConnectRoundTrip(c, []);
      assert b + [] == b;
    case Connack(session, code) =>
      GetPutByte(Bit(session), [code]);
      GetPutByte(code, []);
      assert [Bit(session)] + [code] == b && [code] + [] == [code];
    case Publish(f) =>
      PublishRoundTrip(p.header.qos, f.topic, f.id, f.payload);
    case IdOnly(id) =>
      GetPutWord(id, []);
      assert PutWord(id) + [] == b;
    case Subscribe(f) =>
      SubscribeRoundTrip(f.id, f.topics, f.qoss);
    case Suback(id, codes) =>
      GetPutWord(id, codes);
    case Unsubscribe(f) =>
      GetPutWord(f.id, FieldsOf(f.topics));
      FieldsRoundTrip(f.topics);
    case Empty =>
  }

  /** One packet off a stream: the packet comes back and what follows it is left alone. */
  lemma ReadEncoded(p: Packet, rest: Bytes)
    requires WellFormed(p)
    ensures ReadOne(Encode(p) + rest) == Got(p, rest)
    ensures |Encode(p)| == 1 + |PutLength(|BodyBytes(p)|)| + |BodyBytes(p)|
  {
    hide PackHeader, UnpackHeader, PutLength, GetLength, BodyBytes, GetBody, BodyFits;
    FitsShaped(p.header, p.body);
    var body := BodyBytes(p);
    var b := Encode(p) + rest;
    HeaderRoundTrip(p.header);
    assert b[1..] == PutLength(|body|) + (body + rest);
    assert Power(4) == MAX_LENGTH + 1;
    LengthRoundTrip(|body|, 4, body + rest);
    assert (body + rest)[..|body|] == body && (body + rest)[|body|..] == rest;
    BodyRoundTrip(p);
  }

  ghost predicate AllWellFormed(ps: seq<Packet>) {
    forall p | p in ps :: WellFormed(p)
  }

  function EncodeAll(ps: seq<Packet>): Bytes
    requires forall p | p in ps :: Shaped(p.body)
  {
    if ps == [] then [] else Encode(ps[0]) + EncodeAll(ps[1..])
  }

  lemma AllShaped(ps: seq<Packet>)
    requires AllWellFormed(ps)
    ensures forall p | p in ps :: Shaped(p.body)
    ensures ps != [] ==> WellFormed(ps[0]) && AllWellFormed(ps[1..])
  {
    hide Shaped, BodyFits;
    forall p | p in ps ensures Shaped(p.body) {
      assert WellFormed(p);
      FitsShaped(p.header, p.body);
    }
  }

  /** ReadPacket called n times. */
  function ReadMany(b: Bytes, n: nat): Got<seq<Packet>>
    decreases n
  {
    if n == 0 then Got([], b)
    else
      match ReadOne(b) case Eof => Eof case Got(p, r) =>
      match ReadMany(r, n - 1) case Eof => Eof case Got(ps, rest) =>
      Got([p] + ps, rest)
  }

  lemma ReadsOneMore(b: Bytes, p: Packet, r: Bytes, ps: seq<Packet>, rest: Bytes)
    requires ReadOne(b) == Got(p, r) && ReadMany(r, |ps|) == Got(ps, rest)
    ensures ReadMany(b, 1 + |ps|) == Got([p] + ps, rest)
  {
    hide ReadOne;
  }

  /** The stream is self-delimiting: what was written comes back packet by packet, in order, with
      nothing lost and nothing left over. */
  lemma {:induction false} StreamRoundTrip(ps: seq<Packet>, rest: Bytes)
    requires AllWellFormed(ps)
    ensures forall p | p in ps :: Shaped(p.body)
    ensures ReadMany(EncodeAll(ps) + rest, |ps|) == Got(ps, rest)
  {
    hide Encode, ReadOne, AllWellFormed, WellFormed, Shaped, ReadMany;
    AllShaped(ps);
    if ps == [] {
      NothingRead(rest);
      assert EncodeAll(ps) + rest == rest;
    } else {
      var more := EncodeAll(ps[1..]) + rest;
      ReadEncoded(ps[0], more);
      assert EncodeAll(ps) + rest == Encode(ps[0]) + more;
      StreamRoundTrip(ps[1..], rest);
      ReadsOneMore(EncodeAll(ps) + rest, ps[0], more, ps[1..], rest);
      assert [ps[0]] + ps[1..] == ps;
    }
  }

  lemma NothingRead(b: Bytes)
    ensures ReadMany(b, 0) == Got([], b)
  {
  }

  /** The other direction, for the packets whose parsing is a true inverse: what was read off the
      stream is written as the same bytes, save that an overlong length field gets shorter. */
  lemma ReadIsWritten(b: Bytes)
    requires ReadOne(b).Got?
    requires var h := UnpackHeader(b[0]);
             h.messageType == 3 || (h.messageType == 8 && GetLength(b[1..], 4).value >= 2)
    ensures var p := ReadOne(b).value;
            var tail := BodyBytes(p) + ReadOne(b).rest;
            var k := |b| - 1 - |tail|;
            && |PutLength(|BodyBytes(p)|)| <= k <= 4
            && b[0] == PackHeader(p.header) && b[1 + k..] == tail
  {
    hide PackHeader, UnpackHeader, PutLength, GetLength, GetSubscribe, GetPublish, PublishBody, SubscribeBody;
    var h := UnpackHeader(b[0]);
    HeaderByteRoundTrip(b[0]);
    var n, r := GetLength(b[1..], 4).value, GetLength(b[1..], 4).rest;
    GetLengthBound(b[1..], 4);
    LengthShortest(b[1..], 4, n, r);
    var bytes, rest := r[..n], r[n..];
    assert r == bytes + rest;
    if h.messageType == 3 {
      PublishInverse(h.qos, bytes);
    } else {
      SubscribeInverse(bytes);
    }
    assert BodyBytes(ReadOne(b).value) == bytes;
    assert ReadOne(b).rest == rest;
    assert b[1..][|b| - 1 - |r|..] == b[|b| - |r|..];
  }

  // ---------------------------------------------------------------- what is read

  /** Exactly when a packet comes off the stream, behind a fixed header that could be read: its type is one of
      the fourteen, all of its body has arrived, and the body is one of its type. */
  lemma ReadsExactly(b: Bytes, h: Header, n: nat, r: Bytes)
    requires GetFront(b) == Got(Front(h, n), r)
    ensures ReadOne(b).Got? <==> 1 <= h.messageType <= 14 && n <= |r| && GetBody(h, r[..n]).Got?
    ensures ReadOne(b).Got? ==> ReadOne(b) == Got(Packet(h, GetBody(h, r[..n]).value), r[n..])
  {
    hide GetFront, GetBody;
  }

  lemma LowBit(b: Byte)
    ensures 1 & b > 0 <==> b & 1 == 1
  {
  }

  lemma ShortSubscribe(b: Bytes)
    requires |b| < 2
    ensures GetSubscribe(|b|, b).Got? <==> |b| == 1
  {
  }

  /** Which bodies those are, type by type. A number or a field may be cut off: its missing bytes are read as
      zeros, save in a PUBLISH. */
  lemma BodiesRead(h: Header, b: Bytes)
    requires 1 <= h.messageType <= 14
    ensures h.messageType == 2 ==> (GetBody(h, b).Got? <==> |b| >= 2)
    ensures h.messageType == 2 && |b| >= 2 ==> GetBody(h, b).value == Connack(b[0] & 1 == 1, b[1])
    ensures h.messageType == 3 ==>
              (GetBody(h, b).Got? <==>
               |b| >= 2 && 2 + (b[0] as int * 256 + b[1] as int) + (if h.qos > 0 then 2 else 0) <= |b|)
    ensures h.messageType in {4, 5, 6, 7, 9, 10, 11} ==> (GetBody(h, b).Got? <==> |b| >= 1)
    ensures h.messageType == 8 && |b| < 2 ==> (GetBody(h, b).Got? <==> |b| == 1)
    ensures h.messageType == 8 && |b| >= 2 ==>
              (GetBody(h, b).Got? <==>
               exists id, topics, qoss ::
                 |topics| == |qoss| && Fields(topics) && SubscribeBody(id, topics, qoss) == b)
    ensures h.messageType in {12, 13, 14} ==> GetBody(h, b) == Got(Empty, b)
  {
    hide GetConnect, GetSubscribe, SubscribeBody, Fields, GetPublish, PublishBody, GetFields, Leftover;
    PublishInverse(h.qos, b);
    if |b| >= 2 {
      LowBit(b[0]);
      SubscribeInverse(b);
    } else {
      ShortSubscribe(b);
    }
  }
}
