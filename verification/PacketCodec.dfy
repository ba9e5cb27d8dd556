/** The packet structs with their Write and Unpack, and ReadPacket. */
module PacketCodec {
  import opened Wire
  import opened Packets

  class FixedHeader {
    var messageType: Byte
    var dup: bool
    var qos: Byte
    var retain: bool
    var remainingLength: nat
    var packetSize: nat

    constructor (messageType: Byte, qos: Byte)
      ensures Value() == Header(messageType, false, qos, false) && remainingLength == 0
    {
      this.messageType, dup, this.qos, retain := messageType, false, qos, false;
      remainingLength, packetSize := 0, 0;
    }

    function Value(): Header
      reads this
    {
      Header(messageType, dup, qos, retain)
    }

    method Pack() returns (header: Bytes)
      modifies this`packetSize
      ensures header == [PackHeader(Value())] + PutLength(remainingLength)
      ensures packetSize == |header| + remainingLength
    {
      header := [(messageType << 4) | (Bit(dup) << 3) | (qos << 1) | Bit(retain)];
      var lenBytes := EncodeLength(remainingLength);
      header := header + lenBytes;
      packetSize := 1 + |lenBytes| + remainingLength;
    }

    method Unpack(typeAndFlags: Byte, r: Buffer) returns (ok: bool)
      modifies this, r
      ensures Value() == UnpackHeader(typeAndFlags)
      ensures match GetLength(old(r.data), 4)
              case Got(n, rest) =>
                ok && remainingLength == n && r.data == rest
                && packetSize == old(packetSize) + |old(r.data)| - |rest|
              case Eof => !ok
    {
      messageType := typeAndFlags >> 4;
      dup := (typeAndFlags >> 3) & 1 > 0;
      qos := (typeAndFlags >> 1) & 3;
      retain := typeAndFlags & 1 > 0;
      var size;
      remainingLength, size, ok := DecodeLength(r);
      packetSize := packetSize + size;
    }
  }

  /** What every Write ends with: the lengths are set, and header and body go out. */
  method Send(fh: FixedHeader, body: Bytes, w: Buffer)
    modifies fh`remainingLength, fh`packetSize, w
    ensures fh.remainingLength == |body|
    ensures w.data == old(w.data) + ([PackHeader(fh.Value())] + PutLength(|body|) + body)
    ensures fh.packetSize == |w.data| - |old(w.data)|
  {
    fh.remainingLength := |body|;
    var packet := fh.Pack();
    packet := packet + body;
    w.Write(packet);
  }

  class PublishPacket {
    const fh: FixedHeader
    var topicName: Bytes
    var messageId: Word
    var payload: Bytes

    constructor (fh: FixedHeader)
      ensures this.fh == fh && Fields() == PublishFields([], 0, [])
    {
      this.fh := fh;
      topicName, messageId, payload := [], 0, [];
    }

    function Fields(): PublishFields
      reads this
    {
      PublishFields(topicName, messageId, payload)
    }

    function Value(): Packet
      reads this, fh
    {
      Packet(fh.Value(), Publish(Fields()))
    }

    method Write(w: Buffer)
      modifies fh`remainingLength, fh`packetSize, w
      ensures w.data == old(w.data) + Encode(Value())
      ensures fh.remainingLength == |BodyBytes(Value())| && fh.packetSize == |Encode(Value())|
    {
      hide PutField, PutWord, PackHeader, PutLength;
      var body := PutField(topicName);
      if fh.qos > 0 {
        body := body + PutWord(messageId);
      }
      Send(fh, body + payload, w);
    }

    method Unpack(b: Buffer) returns (ok: bool)
      modifies this, b
      ensures match GetPublish(fh.qos, fh.remainingLength, old(b.data))
              case Got(f, rest) =>
                ok && b.data == rest && Fields() == f.(id := if fh.qos > 0 then f.id else old(messageId))
              case Eof => !ok
    {
      var payloadLength: int := fh.remainingLength;
      topicName, ok := DecodeBytes(b);
      if !ok {
        return;
      }
      if fh.qos > 0 {
        messageId, ok := DecodeUint16(b);
        if !ok {
          return;
        }
        payloadLength := payloadLength - (|topicName| + 4);
      } else {
        payloadLength := payloadLength - (|topicName| + 2);
      }
      if payloadLength < 0 {
        return false;
      }
      payload, ok := b.Read(payloadLength);
    }
  }

  class SubscribePacket {
    const fh: FixedHeader
    var messageId: Word
    var topics: seq<Bytes>
    var qoss: seq<Byte>

    constructor (fh: FixedHeader)
      ensures this.fh == fh && messageId == 0 && topics == [] && qoss == []
    {
      this.fh := fh;
      messageId, topics, qoss := 0, [], [];
    }

    function Value(): Packet
      reads this, fh
    {
      Packet(fh.Value(), Subscribe(SubscribeFields(messageId, topics, qoss)))
    }

    method Write(w: Buffer)
      requires |topics| == |qoss|
      modifies fh`remainingLength, fh`packetSize, w
      ensures w.data == old(w.data) + Encode(Value())
      ensures fh.remainingLength == |BodyBytes(Value())| && fh.packetSize == |Encode(Value())|
    {
      hide SubscribeBody, PutWord, PutField, PackHeader, PutLength;
      NoEntry(messageId);
      var body := PutWord(messageId);
      for i := 0 to |topics|
        invariant body == SubscribeBody(messageId, topics[..i], qoss[..i]) && w.data == old(w.data)
      {
        NextEntry(messageId, topics, qoss, i);
        body := body + PutField(topics[i]);
        body := body + [qoss[i]];
      }
      assert topics[..|topics|] == topics && qoss[..|topics|] == qoss;
      Send(fh, body, w);
    }

    /** The topics read are appended; `left` never differs from what RemainingLength leaves. */
    method Unpack(b: Buffer) returns (ok: bool)
      modifies this, b
      ensures match GetSubscribe(fh.remainingLength, old(b.data))
              case Got(f, rest) =>
                && ok && b.data == rest && messageId == f.id
                && topics == old(topics) + f.topics && qoss == old(qoss) + f.qoss
              case Eof => !ok
    {
      hide GetField, GetByte, GetEntries;
      messageId, ok := DecodeUint16(b);
      if !ok {
        return;
      }
      var payloadLength: int := fh.remainingLength - 2;
      ghost var start, total, id := b.data, payloadLength, messageId;
      ghost var got := Subs([], []);
      NothingYet(start, total);
      while payloadLength > 0
        invariant topics == old(topics) + got.topics && qoss == old(qoss) + got.qoss
        invariant |got.topics| == |got.qoss| && ok && messageId == id
        invariant GetEntries(start, total) == After(got, GetEntries(b.data, payloadLength))
        decreases payloadLength
      {
        ghost var was, left := b.data, payloadLength;
        EntryStep(was, left);
        var topic;
        topic, ok := DecodeBytes(b);
        if !ok {
          return;
        }
        topics := topics + [topic];
        var qos;
        qos, ok := DecodeByte(b);
        if !ok {
          return;
        }
        qoss := qoss + [qos];
        payloadLength := payloadLength - (2 + |topic| + 1);
        AfterMore(got, topic, qos, GetEntries(b.data, payloadLength));
        got := Subs(got.topics + [topic], got.qoss + [qos]);
      }
      NothingMore(b.data, payloadLength);
    }
  }

  lemma {:induction false} LastEntry(topics: seq<Bytes>, qoss: seq<Byte>)
    requires |topics| == |qoss| > 0
    ensures var n := |topics| - 1;
            Entries(topics, qoss) == Entries(topics[..n], qoss[..n]) + PutField(topics[n]) + [qoss[n]]
  {
    hide PutField;
    var n := |topics| - 1;
    if n > 0 {
      LastEntry(topics[1..], qoss[1..]);
      assert topics[1..][..n - 1] == topics[..n][1..] && qoss[1..][..n - 1] == qoss[..n][1..];
    } else {
      assert Entries(topics[1..], qoss[1..]) == [];
    }
  }

  lemma NoEntry(id: Word)
    ensures SubscribeBody(id, [], []) == PutWord(id)
  {
  }

  lemma NextEntry(id: Word, topics: seq<Bytes>, qoss: seq<Byte>, i: nat)
    requires |topics| == |qoss| && i < |topics|
    ensures SubscribeBody(id, topics[..i + 1], qoss[..i + 1]) ==
            SubscribeBody(id, topics[..i], qoss[..i]) + PutField(topics[i]) + [qoss[i]]
  {
    hide PutField, PutWord, Entries;
    LastEntry(topics[..i + 1], qoss[..i + 1]);
    assert topics[..i + 1][..i] == topics[..i] && qoss[..i + 1][..i] == qoss[..i];
  }

  /** What was read so far, with what the rest of the body adds. */
  function After(got: Subs, more: Got<Subs>): Got<Subs> {
    match more
    case Eof => Eof
    case Got(s, rest) => Got(Subs(got.topics + s.topics, got.qoss + s.qoss), rest)
  }

  lemma NothingYet(b: Bytes, left: int)
    ensures GetEntries(b, left) == After(Subs([], []), GetEntries(b, left))
  {
    hide GetEntries;
    match GetEntries(b, left)
    case Eof =>
    case Got(s, rest) => assert [] + s.topics == s.topics && [] + s.qoss == s.qoss;
  }

  lemma NothingMore(b: Bytes, left: int)
    requires left <= 0
    ensures GetEntries(b, left) == Got(Subs([], []), b)
  {
  }

  lemma EntryStep(b: Bytes, left: int)
    requires left > 0
    ensures match GetField(b)
            case Eof => GetEntries(b, left) == Eof
            case Got(topic, r1) =>
              match GetByte(r1)
              case Eof => GetEntries(b, left) == Eof
              case Got(qos, r2) =>
                GetEntries(b, left) == After(Subs([topic], [qos]), GetEntries(r2, left - (2 + |topic| + 1)))
  {
    hide GetField, GetByte;
  }

  lemma AfterMore(got: Subs, topic: Bytes, qos: Byte, more: Got<Subs>)
    ensures After(got, After(Subs([topic], [qos]), more)) == After(Subs(got.topics + [topic], got.qoss + [qos]), more)
  {
    match more
    case Eof =>
    case Got(s, rest) =>
      assert got.topics + ([topic] + s.topics) == (got.topics + [topic]) + s.topics;
      assert got.qoss + ([qos] + s.qoss) == (got.qoss + [qos]) + s.qoss;
  }

  class UnsubscribePacket {
    const fh: FixedHeader
    var messageId: Word
    var topics: seq<Bytes>

    constructor (fh: FixedHeader)
      ensures this.fh == fh && messageId == 0 && topics == []
    {
      this.fh := fh;
      messageId, topics := 0, [];
    }

    function Value(): Packet
      reads this, fh
    {
      Packet(fh.Value(), Unsubscribe(UnsubscribeFields(messageId, topics)))
    }

    method Write(w: Buffer)
      modifies fh`remainingLength, fh`packetSize, w
      ensures w.data == old(w.data) + Encode(Value())
      ensures fh.remainingLength == |BodyBytes(Value())| && fh.packetSize == |Encode(Value())|
    {
      hide PutWord, PutField, PackHeader, PutLength, FieldsOf;
      var body := PutWord(messageId);
      assert FieldsOf([]) == [] by {
        NoFields([]);
      }
      for i := 0 to |topics|
        invariant body == PutWord(messageId) + FieldsOf(topics[..i]) && w.data == old(w.data)
      {
        LastField(topics[..i + 1]);
        assert topics[..i + 1][..i] == topics[..i];
        body := body + PutField(topics[i]);
      }
      assert topics[..|topics|] == topics;
      Send(fh, body, w);
    }

    /** Whatever ends the loop, the result is no error. */
    method Unpack(b: Buffer) returns (ok: bool)
      modifies this, b
      ensures match GetUnsubscribe(old(b.data))
              case Got(f, rest) => ok && b.data == rest && messageId == f.id && topics == old(topics) + f.topics
              case Eof => !ok
    {
      hide GetField, GetFields, Leftover;
      messageId, ok := DecodeUint16(b);
      if !ok {
        return;
      }
      ghost var id, start := messageId, b.data;
      ghost var got: seq<Bytes> := [];
      var topic, more := DecodeBytes(b);
      ghost var at := start;
      assert [] + GetFields(start) == GetFields(start);
      while more && topic != []
        invariant messageId == id && ok && topics == old(topics) + got
        invariant got + GetFields(at) == GetFields(start) && Leftover(at) == Leftover(start)
        invariant match GetField(at)
                  case Got(t, rest) => more && topic == t && b.data == rest
                  case Eof => !more && b.data == []
        decreases |at|
      {
        FieldStep(at);
        topics, got := topics + [topic], got + [topic];
        assert got[..|got| - 1] + ([topic] + GetFields(b.data)) == got + GetFields(b.data);
        at := b.data;
        topic, more := DecodeBytes(b);
      }
      NoFields(at);
      assert got + [] == got;
    }
  }

  lemma NoFields(b: Bytes)
    ensures FieldsOf([]) == []
    ensures match GetField(b)
            case Got(t, rest) => t == [] ==> GetFields(b) == [] && Leftover(b) == rest
            case Eof => GetFields(b) == [] && Leftover(b) == []
  {
  }

  lemma FieldStep(b: Bytes)
    requires GetField(b).Got? && GetField(b).value != []
    ensures GetFields(b) == [GetField(b).value] + GetFields(GetField(b).rest)
    ensures Leftover(b) == Leftover(GetField(b).rest) && |GetField(b).rest| < |b|
  {
    ShorterRest(b);
  }

  lemma {:induction false} LastField(topics: seq<Bytes>)
    requires topics != []
    ensures var n := |topics| - 1; FieldsOf(topics) == FieldsOf(topics[..n]) + PutField(topics[n])
  {
    hide PutField;
    var n := |topics| - 1;
    if n > 0 {
      LastField(topics[1..]);
      assert topics[1..][..n - 1] == topics[..n][1..];
    } else {
      assert FieldsOf(topics[1..]) == [];
    }
  }

  class ConnectPacket {
    const fh: FixedHeader
    var protocolName: Bytes
    var protocolVersion: Byte
    var cleanSession: bool
    var willFlag: bool
    var willQos: Byte
    var willRetain: bool
    var usernameFlag: bool
    var passwordFlag: bool
    var reservedBit: Byte
    var keepalive: Word
    var clientIdentifier: Bytes
    var willTopic: Bytes
    var willMessage: Bytes
    var username: Bytes
    var password: Bytes

    constructor (fh: FixedHeader)
      ensures this.fh == fh
      ensures Fields() == ConnectFields([], 0, ConnectFlags(false, false, 0, false, false, false, 0), 0, [],
          Tail([], [], [], []))
    {
      this.fh := fh;
      protocolName, protocolVersion, keepalive, clientIdentifier := [], 0, 0, [];
      cleanSession, willFlag, willQos, willRetain, usernameFlag, passwordFlag, reservedBit := false, false, 0,
          false, false, false, 0;
      willTopic, willMessage, username, password := [], [], [], [];
    }

    function Flags(): ConnectFlags
      reads this
    {
      ConnectFlags(cleanSession, willFlag, willQos, willRetain, usernameFlag, passwordFlag, reservedBit)
    }

    function Announced(): Tail
      reads this
    {
      Tail(willTopic, willMessage, username, password)
    }

    function Fields(): ConnectFields
      reads this
    {
      ConnectFields(protocolName, protocolVersion, Flags(), keepalive, clientIdentifier, Announced())
    }

    function Value(): Packet
      reads this, fh
    {
      Packet(fh.Value(), Connect(Fields()))
    }

    method Write(w: Buffer)
      modifies fh`remainingLength, fh`packetSize, w
      ensures w.data == old(w.data) + Encode(Value())
      ensures fh.remainingLength == |BodyBytes(Value())| && fh.packetSize == |Encode(Value())|
    {
      hide PutWord, PutField, PackHeader, PutLength, PackFlags, ConnectBody;
      var body := PutField(protocolName);
      body := body + [protocolVersion];
      body := body + [PackFlags(Flags())];
      body := body + PutWord(keepalive);
      body := body + PutField(clientIdentifier);
      ghost var front := body;
      if willFlag {
        body := body + PutField(willTopic);
        body := body + PutField(willMessage);
      }
      if usernameFlag {
        body := body + PutField(username);
      }
      if passwordFlag {
        body := body + PutField(password);
      }
      WrittenBody(Fields(), front, body);
      Send(fh, body, w);
    }

    method SetFlags(options: Byte)
      modifies this`cleanSession, this`willFlag, this`willQos, this`willRetain, this`usernameFlag, this`passwordFlag,
               this`reservedBit
      ensures Flags() == UnpackFlags(options)
    {
      reservedBit := 1 & options;
      cleanSession := 1 & (options >> 1) > 0;
      willFlag := 1 & (options >> 2) > 0;
      willQos := 3 & (options >> 3);
      willRetain := 1 & (options >> 5) > 0;
      passwordFlag := 1 & (options >> 6) > 0;
      usernameFlag := 1 & (options >> 7) > 0;
    }

    /** The fields that the flags announce; the others keep their values. */
    method UnpackTail(b: Buffer) returns (ok: bool)
      modifies this`willTopic, this`willMessage, this`username, this`password, b
      ensures match GetTail(Flags(), old(b.data))
              case Got(t, rest) => ok && b.data == rest && Announced() == Keeping(Flags(), old(Announced()), t)
              case Eof => !ok
    {
      hide GetField;
      ok := true;
      if willFlag {
        willTopic, ok := DecodeBytes(b);
        if !ok {
          return;
        }
        willMessage, ok := DecodeBytes(b);
        if !ok {
          return;
        }
      }
      if usernameFlag {
        username, ok := DecodeBytes(b);
        if !ok {
          return;
        }
      }
      if passwordFlag {
        password, ok := DecodeBytes(b);
        if !ok {
          return;
        }
      }
    }

    /** Name, version and flags. */
    method UnpackHead(b: Buffer) returns (ok: bool)
      modifies this`protocolName, this`protocolVersion, this`cleanSession, this`willFlag, this`willQos, this`willRetain,
               this`usernameFlag, this`passwordFlag, this`reservedBit, b
      ensures match GetHead(old(b.data))
              case Got(h, rest) => ok && b.data == rest && Head(protocolName, protocolVersion, Flags()) == h
              case Eof => !ok
    {
      hide GetField, GetByte, UnpackFlags;
      protocolName, ok := DecodeBytes(b);
      if !ok {
        return;
      }
      protocolVersion, ok := DecodeByte(b);
      if !ok {
        return;
      }
      var options;
      options, ok := DecodeByte(b);
      if !ok {
        return;
      }
      SetFlags(options);
    }

    method Unpack(b: Buffer) returns (ok: bool)
      modifies this, b
      ensures match GetConnect(old(b.data))
              case Got(c, rest) => ok && b.data == rest
                  && Fields() == c.(tail := Keeping(c.flags, old(Announced()), c.tail))
              case Eof => !ok
    {
      hide GetField, GetWord, GetHead, GetTail, Keeping;
      ok := UnpackHead(b);
      if !ok {
        return;
      }
      keepalive, ok := DecodeUint16(b);
      if !ok {
        return;
      }
      clientIdentifier, ok := DecodeBytes(b);
      if !ok {
        return;
      }
      ok := UnpackTail(b);
    }
  }

  /** What is left in the fields when only the announced ones are set. */
  function Keeping(f: ConnectFlags, was: Tail, now: Tail): Tail {
    Tail(if f.willFlag then now.willTopic else was.willTopic, if f.willFlag then now.willMessage else was.willMessage,
         if f.usernameFlag then now.username else was.username, if f.passwordFlag then now.password else was.password)
  }

  lemma WrittenBody(c: ConnectFields, front: Bytes, body: Bytes)
    requires front == PutField(c.protocolName) + [c.protocolVersion] + [PackFlags(c.flags)] + PutWord(c.keepalive)
                      + PutField(c.clientIdentifier)
    requires body == front + (if c.flags.willFlag then PutField(c.tail.willTopic) else [])
                     + (if c.flags.willFlag then PutField(c.tail.willMessage) else [])
                     + (if c.flags.usernameFlag then PutField(c.tail.username) else [])
                     + (if c.flags.passwordFlag then PutField(c.tail.password) else [])
    ensures body == ConnectBody(c)
  {
    hide PutField, PutWord, PackFlags;
  }

  class ConnackPacket {
    const fh: FixedHeader
    var sessionPresent: bool
    var returnCode: Byte

    constructor (fh: FixedHeader)
      ensures this.fh == fh && !sessionPresent && returnCode == 0
    {
      this.fh := fh;
      sessionPresent, returnCode := false, 0;
    }

    function Value(): Packet
      reads this, fh
    {
      Packet(fh.Value(), Connack(sessionPresent, returnCode))
    }

    method Write(w: Buffer)
      modifies fh`remainingLength, fh`packetSize, w
      ensures w.data == old(w.data) + Encode(Value())
      ensures fh.remainingLength == 2 && fh.packetSize == |Encode(Value())|
    {
      Send(fh, [Bit(sessionPresent)] + [returnCode], w);
    }

    method Unpack(b: Buffer) returns (ok: bool)
      modifies this, b
      ensures match GetConnack(old(b.data))
              case Got(body, rest) => ok && b.data == rest && Value().body == body
              case Eof => !ok
    {
      hide GetByte;
      var flags;
      flags, ok := DecodeByte(b);
      if !ok {
        return;
      }
      sessionPresent := 1 & flags > 0;
      returnCode, ok := DecodeByte(b);
    }
  }

  class SubackPacket {
    const fh: FixedHeader
    var messageId: Word
    var returnCodes: Bytes

    constructor (fh: FixedHeader)
      ensures this.fh == fh && messageId == 0 && returnCodes == []
    {
      this.fh := fh;
      messageId, returnCodes := 0, [];
    }

    function Value(): Packet
      reads this, fh
    {
      Packet(fh.Value(), Suback(messageId, returnCodes))
    }

    method Write(w: Buffer)
      modifies fh`remainingLength, fh`packetSize, w
      ensures w.data == old(w.data) + Encode(Value())
      ensures fh.remainingLength == |BodyBytes(Value())| && fh.packetSize == |Encode(Value())|
    {
      Send(fh, PutWord(messageId) + returnCodes, w);
    }

    /** The return codes are all that is left. */
    method Unpack(b: Buffer) returns (ok: bool)
      modifies this, b
      ensures match GetWord(old(b.data))
              case Got(id, codes) => ok && b.data == [] && Value().body == Suback(id, codes)
              case Eof => !ok
    {
      messageId, ok := DecodeUint16(b);
      if !ok {
        return;
      }
      returnCodes := b.data;
      b.data := [];
    }
  }

  /** PUBACK, PUBREC, PUBREL, PUBCOMP and UNSUBACK have the same two methods. */
  class IdPacket {
    const fh: FixedHeader
    var messageId: Word

    constructor (fh: FixedHeader)
      ensures this.fh == fh && messageId == 0
    {
      this.fh := fh;
      messageId := 0;
    }

    function Value(): Packet
      reads this, fh
    {
      Packet(fh.Value(), IdOnly(messageId))
    }

    method Write(w: Buffer)
      modifies fh`remainingLength, fh`packetSize, w
      ensures w.data == old(w.data) + Encode(Value())
      ensures fh.remainingLength == 2 && fh.packetSize == |Encode(Value())|
    {
      Send(fh, PutWord(messageId), w);
    }

    method Unpack(b: Buffer) returns (ok: bool)
      modifies this, b
      ensures match GetWord(old(b.data))
              case Got(id, rest) => ok && b.data == rest && Value().body == IdOnly(id)
              case Eof => !ok
    {
      messageId, ok := DecodeUint16(b);
    }
  }

  /** PINGREQ, PINGRESP and DISCONNECT: the length is written as it stands in the header. */
  class EmptyPacket {
    const fh: FixedHeader

    constructor (fh: FixedHeader)
      ensures this.fh == fh
    {
      this.fh := fh;
    }

    function Value(): Packet
      reads this, fh
    {
      Packet(fh.Value(), Empty)
    }

    method Write(w: Buffer)
      modifies fh`packetSize, w
      ensures w.data == old(w.data) + [PackHeader(fh.Value())] + PutLength(fh.remainingLength)
      ensures fh.remainingLength == 0 ==> w.data == old(w.data) + Encode(Value())
    {
      var packet := fh.Pack();
      w.Write(packet);
    }
  }

  datatype ControlPacket =
    | ConnectOf(connect: ConnectPacket)
    | ConnackOf(connack: ConnackPacket)
    | PublishOf(publish: PublishPacket)
    | IdOf(id: IdPacket)
    | SubscribeOf(subscribe: SubscribePacket)
    | SubackOf(suback: SubackPacket)
    | UnsubscribeOf(unsubscribe: UnsubscribePacket)
    | EmptyOf(empty: EmptyPacket)

  function HeaderOf(cp: ControlPacket): FixedHeader {
    match cp
    case ConnectOf(p) => p.fh
    case ConnackOf(p) => p.fh
    case PublishOf(p) => p.fh
    case IdOf(p) => p.fh
    case SubscribeOf(p) => p.fh
    case SubackOf(p) => p.fh
    case UnsubscribeOf(p) => p.fh
    case EmptyOf(p) => p.fh
  }

  function StructOf(cp: ControlPacket): object {
    match cp
    case ConnectOf(p) => p
    case ConnackOf(p) => p
    case PublishOf(p) => p
    case IdOf(p) => p
    case SubscribeOf(p) => p
    case SubackOf(p) => p
    case UnsubscribeOf(p) => p
    case EmptyOf(p) => p
  }

  function ValueOf(cp: ControlPacket): Packet
    reads StructOf(cp), HeaderOf(cp)
  {
    match cp
    case ConnectOf(p) => p.Value()
    case ConnackOf(p) => p.Value()
    case PublishOf(p) => p.Value()
    case IdOf(p) => p.Value()
    case SubscribeOf(p) => p.Value()
    case SubackOf(p) => p.Value()
    case UnsubscribeOf(p) => p.Value()
    case EmptyOf(p) => p.Value()
  }

  // ---------------------------------------------------------------- reading any packet

  /** The body of a packet that was just created. */
  function NewBody(messageType: Byte): Body {
    match messageType
    case 1 => Connect(ConnectFields([], 0, ConnectFlags(false, false, 0, false, false, false, 0), 0, [], Tail([],
        [], [], [])))
    case 2 => Connack(false, 0)
    case 3 => Publish(PublishFields([], 0, []))
    case 8 => Subscribe(SubscribeFields(0, [], []))
    case 9 => Suback(0, [])
    case 10 => Unsubscribe(UnsubscribeFields(0, []))
    case 12 => Empty
    case 13 => Empty
    case 14 => Empty
    case _ => IdOnly(0)
  }

  /** The packet gets a copy of the header. */
  method NewControlPacketWithHeader(fh: FixedHeader) returns (cp: ControlPacket)
    requires 1 <= fh.messageType <= 14
    ensures fresh(StructOf(cp)) && fresh(HeaderOf(cp))
    ensures ValueOf(cp) == Packet(fh.Value(), NewBody(fh.messageType))
    ensures HeaderOf(cp).remainingLength == fh.remainingLength && HeaderOf(cp).packetSize == fh.packetSize
  {
    var h := new FixedHeader(fh.messageType, fh.qos);
    h.dup, h.retain, h.remainingLength, h.packetSize := fh.dup, fh.retain, fh.remainingLength, fh.packetSize;
    match fh.messageType {
      case 1 => var p := new ConnectPacket(h); cp := ConnectOf(p);
      case 2 => var p := new ConnackPacket(h); cp := ConnackOf(p);
      case 3 => var p := new PublishPacket(h); cp := PublishOf(p);
      case 8 => var p := new SubscribePacket(h); cp := SubscribeOf(p);
      case 9 => var p := new SubackPacket(h); cp := SubackOf(p);
      case 10 => var p := new UnsubscribePacket(h); cp := UnsubscribeOf(p);
      case 12 => var p := new EmptyPacket(h); cp := EmptyOf(p);
      case 13 => var p := new EmptyPacket(h); cp := EmptyOf(p);
      case 14 => var p := new EmptyPacket(h); cp := EmptyOf(p);
      case _ => var p := new IdPacket(h); cp := IdOf(p);
    }
  }

  method Unpack(cp: ControlPacket, b: Buffer) returns (ok: bool)
    requires ValueOf(cp).body == NewBody(HeaderOf(cp).messageType)
    requires HeaderOf(cp).remainingLength == |b.data|
    modifies StructOf(cp), b
    ensures match GetBody(HeaderOf(cp).Value(), old(b.data))
            case Got(body, _) => ok && ValueOf(cp) == Packet(HeaderOf(cp).Value(), body)
            case Eof => !ok
  {
    hide GetConnect, GetConnack, GetPublish, GetSubscribe, GetWord, GetUnsubscribe;
    ok := true;
    match cp {
      case ConnectOf(p) =>
        UnannouncedEmpty(b.data);
        ok := p.Unpack(b);
      case ConnackOf(p) => ok := p.Unpack(b);
      case PublishOf(p) =>
        NoIdAtQos0(p.fh.qos, b.data);
        ok := p.Unpack(b);
      case IdOf(p) => ok := p.Unpack(b);
      case SubscribeOf(p) =>
        ghost var g := GetSubscribe(|b.data|, b.data);
        assert g.Got? ==> [] + g.value.topics == g.value.topics && [] + g.value.qoss == g.value.qoss;
        ok := p.Unpack(b);
      case SubackOf(p) => ok := p.Unpack(b);
      case UnsubscribeOf(p) =>
        ghost var g := GetUnsubscribe(b.data);
        assert g.Got? ==> [] + g.value.topics == g.value.topics;
        ok := p.Unpack(b);
      case EmptyOf(p) =>
    }
  }

  lemma UnannouncedEmpty(b: Bytes)
    ensures match GetConnect(b)
            case Got(c, _) => Keeping(c.flags, Tail([], [], [], []), c.tail) == c.tail
            case Eof => true
  {
    hide GetField, GetWord, GetHead;
  }

  lemma NoIdAtQos0(qos: Byte, b: Bytes)
    ensures match GetPublish(qos, |b|, b)
            case Got(f, _) => qos == 0 ==> f.id == 0
            case Eof => true
  {
    hide GetField, GetWord;
  }

  datatype ReadResult = Read(packet: ControlPacket) | Failed

  method ReadFront(r: Buffer) returns (fh: FixedHeader, ok: bool)
    modifies r
    ensures fresh(fh)
    ensures match GetFront(old(r.data))
            case Got(f, rest) =>
              && ok && fh.Value() == f.header && fh.remainingLength == f.remaining && r.data == rest
              && fh.packetSize == |old(r.data)| - |rest|
            case Eof => !ok
  {
    hide GetLength, UnpackHeader;
    fh := new FixedHeader(0, 0);
    var b;
    b, ok := r.ReadFull(1);
    if !ok {
      return;
    }
    fh.packetSize := 1;
    ok := fh.Unpack(b[0], r);
  }

  /** One packet off the connection. The packet's own copy of the header is taken before the body is
      counted, so its PacketSize covers the fixed header only. */
  method ReadPacket(r: Buffer) returns (result: ReadResult)
    modifies r
    ensures match ReadOne(old(r.data))
            case Got(p, rest) =>
              && result.Read? && ValueOf(result.packet) == p && r.data == rest
              && var h := HeaderOf(result.packet);
                 h.packetSize + h.remainingLength == |old(r.data)| - |rest|
            case Eof => result.Failed?
  {
    hide GetFront, ReadAfter, ValueOf, HeaderOf;
    result := Failed;
    var fh, ok := ReadFront(r);
    if ok {
      result := ReadAfterFront(r, fh);
    }
  }

  method ReadAfterFront(r: Buffer, fh: FixedHeader) returns (result: ReadResult)
    modifies r, fh
    ensures match ReadAfter(Front(old(fh.Value()), old(fh.remainingLength)), old(r.data))
            case Got(p, rest) =>
              && result.Read? && ValueOf(result.packet) == p && r.data == rest
              && var h := HeaderOf(result.packet);
                 h.packetSize == old(fh.packetSize) && h.remainingLength == |old(r.data)| - |rest|
            case Eof => result.Failed?
  {
    hide GetBody, NewBody;
    result := Failed;
    if !(1 <= fh.messageType <= 14) {
      return;
    }
    var cp, packetBytes, ok := TakeBody(r, fh);
    if ok {
      result := ReadBody(cp, packetBytes);
    }
  }

  /** The struct and the bytes for its body; only then the header counts them. */
  method TakeBody(r: Buffer, fh: FixedHeader) returns (cp: ControlPacket, bytes: Bytes, ok: bool)
    requires 1 <= fh.messageType <= 14
    modifies r, fh
    ensures fresh(StructOf(cp)) && fresh(HeaderOf(cp))
    ensures ValueOf(cp) == Packet(old(fh.Value()), NewBody(old(fh.messageType)))
    ensures HeaderOf(cp).remainingLength == old(fh.remainingLength) && HeaderOf(cp).packetSize == old(fh.packetSize)
    ensures match TakeFull(old(r.data), old(fh.remainingLength))
            case Got(v, rest) => ok && bytes == v && r.data == rest
            case Eof => !ok
  {
    hide NewBody;
    cp := NewControlPacketWithHeader(fh);
    bytes, ok := r.ReadFull(fh.remainingLength);
    if ok {
      fh.packetSize := fh.packetSize + fh.remainingLength;
    }
  }

  method ReadBody(cp: ControlPacket, bytes: Bytes) returns (result: ReadResult)
    requires ValueOf(cp).body == NewBody(HeaderOf(cp).messageType) && HeaderOf(cp).remainingLength == |bytes|
    modifies StructOf(cp)
    ensures match GetBody(HeaderOf(cp).Value(), bytes)
            case Got(body, _) => result == Read(cp) && ValueOf(cp) == Packet(HeaderOf(cp).Value(), body)
            case Eof => result.Failed?
  {
    hide GetBody, NewBody;
    var body := new Buffer(bytes);
    var ok := Unpack(cp, body);
    result := if ok then Read(cp) else Failed;
  }
}
