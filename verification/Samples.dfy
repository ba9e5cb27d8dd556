/** Packets in full: what each is written as, byte for byte, and read as. The contents are those of the
    examples in sections 3.1, 3.3, 3.8 and 3.10 of MQTT 3.1.1. */
module Samples {
  import opened Wire
  import opened Packets

  /** "a/b" and "c/d". */
  const AB: Bytes := [0x61, 0x2F, 0x62]
  const CD: Bytes := [0x63, 0x2F, 0x64]

  ghost predicate Spells(p: Packet, bytes: Bytes) {
    && Shaped(p.body) && Encode(p) == bytes
    && forall rest :: ReadOne(bytes + rest) == Got(p, rest)
  }

  lemma WrittenAndRead(p: Packet, body: Bytes, whole: Bytes)
    requires WellFormed(p) && |body| < 128 && Shaped(p.body) && BodyBytes(p) == body
    requires |whole| >= 2 && PackHeader(p.header) == whole[0] && whole[1] as nat == |body| && whole[2..] == body
    ensures Spells(p, whole)
  {
    hide PackHeader, BodyBytes, ReadOne, WellFormed, Shaped;
    LengthStep(|body|);
    SameByte(PutLength(|body|)[0], whole[1]);
    assert PutLength(|body|) == [whole[1]];
    assert whole == [whole[0]] + [whole[1]] + whole[2..];
    forall rest ensures ReadOne(whole + rest) == Got(p, rest) {
      ReadEncoded(p, rest);
    }
  }

  lemma SameByte(a: Byte, b: Byte)
    requires a as nat == b as nat
    ensures a == b
  {
    assert (a as nat) as Byte == a;
  }

  lemma Words()
    ensures PutWord(0) == [0, 0] && PutWord(1) == [0, 1] && PutWord(3) == [0, 3] && PutWord(4) == [0, 4]
    ensures PutWord(10) == [0, 10] && PutWord(0x0102) == [1, 2]
  {
  }

  lemma FieldsAre()
    ensures PutField(AB) == [0, 3] + AB && PutField(CD) == [0, 3] + CD
    ensures forall b: Byte :: PutField([b]) == [0, 1, b]
  {
    hide PutWord;
    Words();
  }

  /** Section 3.8: topics "a/b" with QoS 1 and "c/d" with QoS 2. */
  lemma SubscribeSample()
    ensures Spells(Packet(Header(8, false, 1, false), Subscribe(SubscribeFields(10, [AB, CD], [1, 2]))),
                   [0x82, 14, 0, 10, 0, 3, 0x61, 0x2F, 0x62, 1, 0, 3, 0x63, 0x2F, 0x64, 2])
  {
    hide PutWord, PutField, Spells;
    Words();
    FieldsAre();
    var p := Packet(Header(8, false, 1, false), Subscribe(SubscribeFields(10, [AB, CD], [1, 2])));
    var whole: Bytes := [0x82, 14, 0, 10, 0, 3, 0x61, 0x2F, 0x62, 1, 0, 3, 0x63, 0x2F, 0x64, 2];
    var qoss, one, none: Bytes := [1, 2], [2], [];
    assert [AB, CD][1..] == [CD] && [CD][1..] == [] && qoss[1..] == one && one[1..] == none;
    assert Entries([CD], one) == PutField(CD) + [2] + Entries([], none);
    assert BodyBytes(p) == whole[2..];
    WrittenAndRead(p, whole[2..], whole);
  }

  /** Section 3.10. */
  lemma UnsubscribeSample()
    ensures Spells(Packet(Header(10, false, 1, false), Unsubscribe(UnsubscribeFields(10, [AB, CD]))),
                   [0xA2, 12, 0, 10, 0, 3, 0x61, 0x2F, 0x62, 0, 3, 0x63, 0x2F, 0x64])
  {
    hide PutWord, PutField, Spells;
    Words();
    FieldsAre();
    var p := Packet(Header(10, false, 1, false), Unsubscribe(UnsubscribeFields(10, [AB, CD])));
    var whole: Bytes := [0xA2, 12, 0, 10, 0, 3, 0x61, 0x2F, 0x62, 0, 3, 0x63, 0x2F, 0x64];
    assert [AB, CD][1..] == [CD] && [CD][1..] == [];
    assert FieldsOf([CD]) == PutField(CD) + FieldsOf([]);
    assert BodyBytes(p) == whole[2..];
    WrittenAndRead(p, whole[2..], whole);
  }

  /** Section 3.3: topic "a/b" and id 10, here with the payload 7 and the flags DUP and RETAIN. */
  lemma PublishSample()
    ensures Spells(Packet(Header(3, true, 1, true), Publish(PublishFields(AB, 10, [7]))),
                   [0x3B, 8, 0, 3, 0x61, 0x2F, 0x62, 0, 10, 7])
  {
    hide PutWord, PutField, Spells;
    Words();
    FieldsAre();
    var p := Packet(Header(3, true, 1, true), Publish(PublishFields(AB, 10, [7])));
    var whole: Bytes := [0x3B, 8, 0, 3, 0x61, 0x2F, 0x62, 0, 10, 7];
    assert BodyBytes(p) == whole[2..];
    WrittenAndRead(p, whole[2..], whole);
  }

  /** At QoS 0 there is no id. */
  lemma PlainPublishSample()
    ensures Spells(Packet(Header(3, false, 0, false), Publish(PublishFields(AB, 0, [7]))),
                   [0x30, 6, 0, 3, 0x61, 0x2F, 0x62, 7])
  {
    hide PutWord, PutField, Spells;
    FieldsAre();
    var p := Packet(Header(3, false, 0, false), Publish(PublishFields(AB, 0, [7])));
    var whole: Bytes := [0x30, 6, 0, 3, 0x61, 0x2F, 0x62, 7];
    assert BodyBytes(p) == whole[2..];
    WrittenAndRead(p, whole[2..], whole);
  }

  const NAME: Bytes := [0x4D, 0x51, 0x54, 0x54]
  const FLAGS := ConnectFlags(true, true, 1, false, true, true, 0)
  const CONNECT := ConnectFields(NAME, 4, FLAGS, 10, [0x63], Tail([0x74], [0x6D], [0x75], [0x70]))

  /** Section 3.1: the protocol name "MQTT", level 4, flags 0xCE and keep alive 10, here with client "c", will "t"
      and "m", user "u" and password "p". */
  lemma ConnectSample()
    ensures Spells(Packet(Header(1, false, 0, false), Connect(CONNECT)),
                   [0x10, 25, 0, 4, 0x4D, 0x51, 0x54, 0x54, 4, 0xCE, 0, 10, 0, 1, 0x63, 0, 1, 0x74, 0, 1, 0x6D,
                    0, 1, 0x75, 0, 1, 0x70])
  {
    hide Spells, ConnectBody;
    var p := Packet(Header(1, false, 0, false), Connect(CONNECT));
    var whole: Bytes := [0x10, 25, 0, 4, 0x4D, 0x51, 0x54, 0x54, 4, 0xCE, 0, 10, 0, 1, 0x63, 0, 1, 0x74, 0, 1, 0x6D,
                         0, 1, 0x75, 0, 1, 0x70];
    ConnectBytes(whole[2..]);
    WrittenAndRead(p, whole[2..], whole);
  }

  lemma ConnectBytes(body: Bytes)
    requires body == [0, 4, 0x4D, 0x51, 0x54, 0x54, 4, 0xCE, 0, 10, 0, 1, 0x63, 0, 1, 0x74, 0, 1, 0x6D,
                      0, 1, 0x75, 0, 1, 0x70]
    ensures ConnectBody(CONNECT) == body
  {
    hide PutWord, PutField, PackFlags;
    Words();
    FieldsAre();
    FlagBits(FLAGS);
    NameField(NAME);
  }

  lemma NameField(name: Bytes)
    requires |name| == 4
    ensures PutField(name) == [0, 4] + name
  {
    hide PutWord;
    Words();
  }

  /** The short ones: CONNACK, PUBREL, SUBACK with its return codes, and DISCONNECT. */
  lemma ShortSamples()
    ensures Spells(Packet(Header(2, false, 0, false), Connack(true, 5)), [0x20, 2, 1, 5])
    ensures Spells(Packet(Header(6, false, 1, false), IdOnly(10)), [0x62, 2, 0, 10])
    ensures Spells(Packet(Header(9, false, 0, false), Suback(10, [0, 2, 0x80])), [0x90, 5, 0, 10, 0, 2, 0x80])
    ensures Spells(Packet(Header(14, false, 0, false), Empty), [0xE0, 0])
  {
    hide PutWord, Spells;
    Words();
    WrittenAndRead(Packet(Header(2, false, 0, false), Connack(true, 5)), [1, 5], [0x20, 2, 1, 5]);
    WrittenAndRead(Packet(Header(6, false, 1, false), IdOnly(10)), [0, 10], [0x62, 2, 0, 10]);
    WrittenAndRead(Packet(Header(9, false, 0, false), Suback(10, [0, 2, 0x80])), [0, 10, 0, 2, 0x80],
                   [0x90, 5, 0, 10, 0, 2, 0x80]);
    WrittenAndRead(Packet(Header(14, false, 0, false), Empty), [], [0xE0, 0]);
  }

  /** A length of two bytes: 321 in section 2.2.3. */
  lemma LengthSample()
    ensures PutLength(321) == [193, 2]
  {
    TwoBytes(321);
    SameByte(PutLength(321)[0], 193);
    SameByte(PutLength(321)[1], 2);
  }
}
