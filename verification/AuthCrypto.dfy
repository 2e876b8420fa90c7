/** src/cueflow/auth_crypto.py: the length-prefixed encoding behind request fingerprints. */
module AuthCrypto {
  import opened Outcomes

  type byte = b: int | 0 <= b < 256

  /** `n.to_bytes(4, "big")`, which raises OverflowError from 2^32 on. */
  function BigEndian(n: nat): (r: seq<byte>)
    requires n < 0x1_0000_0000
    ensures |r| == 4
  {
    [n / 0x100_0000, n / 0x1_0000 % 256, n / 0x100 % 256, n % 256]
  }

  function FromBigEndian(bytes: seq<byte>): nat
    requires |bytes| == 4
  {
    (((bytes[0] as int) * 256 + bytes[1] as int) * 256 + bytes[2] as int) * 256 + bytes[3] as int
  }

  lemma {:induction false} BigEndianRoundTrip(n: nat)
    requires n < 0x1_0000_0000
    ensures FromBigEndian(BigEndian(n)) == n
  {
    assert n == n / 256 * 256 + n % 256;
    assert n / 256 == n / 0x1_0000 * 256 + n / 256 % 256;
    assert n / 0x1_0000 == n / 0x100_0000 * 256 + n / 0x1_0000 % 256;
  }

  predicate Encodable(fields: seq<seq<byte>>) {
    forall i :: 0 <= i < |fields| ==> |fields[i]| < 0x1_0000_0000
  }

  /** Each value after its four-byte length. */
  function Encode(fields: seq<seq<byte>>): seq<byte>
    requires Encodable(fields)
  {
    if fields == [] then []
    else BigEndian(|fields[0]|) + fields[0] + Encode(fields[1..])
  }

  /** _canonical_fields: a field of 2^32 bytes or more does not fit the length prefix and raises. */
  function CanonicalFields(fields: seq<seq<byte>>): Option<seq<byte>> {
    if Encodable(fields) then Some(Encode(fields)) else None
  }

  /** The reader that the encoding is made for; nothing else is accepted. */
  function Decode(bytes: seq<byte>): Option<seq<seq<byte>>>
    decreases |bytes|
  {
    if bytes == [] then Some([])
    else if |bytes| < 4 then None
    else
      var n := FromBigEndian(bytes[..4]);
      if |bytes| < 4 + n then None
      else
        match Decode(bytes[4 + n..])
        case None => None
        case Some(rest) => Some([bytes[4..4 + n]] + rest)
  }

  /** The field list can be read back from its encoding. */
  lemma {:induction false} DecodesBack(fields: seq<seq<byte>>)
    requires Encodable(fields)
    ensures Decode(Encode(fields)) == Some(fields)
    decreases |fields|
  {
    if fields != [] {
      var head, rest := fields[0], Encode(fields[1..]);
      var bytes := Encode(fields);
      assert bytes == BigEndian(|head|) + (head + rest);
      assert bytes[..4] == BigEndian(|head|);
      BigEndianRoundTrip(|head|);
      assert bytes[4..4 + |head|] == head && bytes[4 + |head|..] == rest;
      DecodesBack(fields[1..]);
      assert fields == [head] + fields[1..];
    }
  }

  lemma {:induction false} FromBigEndianRoundTrip(bytes: seq<byte>)
    requires |bytes| == 4
    ensures FromBigEndian(bytes) < 0x1_0000_0000 && BigEndian(FromBigEndian(bytes)) == bytes
  {
  }

  lemma {:induction false} EncodeCons(head: seq<byte>, rest: seq<seq<byte>>)
    requires |head| < 0x1_0000_0000 && Encodable(rest)
    ensures Encodable([head] + rest) && Encode([head] + rest) == BigEndian(|head|) + head + Encode(rest)
  {
    assert ([head] + rest)[1..] == rest;
  }

  /** Nothing else is read: bytes that decode are the encoding of what they decode to. */
  lemma {:induction false} EncodesBack(bytes: seq<byte>)
    requires Decode(bytes).Some?
    ensures Encodable(Decode(bytes).value) && Encode(Decode(bytes).value) == bytes
    decreases |bytes|
  {
    hide BigEndian, FromBigEndian;
    if bytes != [] {
      var n := FromBigEndian(bytes[..4]);
      var head, tail := bytes[4..4 + n], bytes[4 + n..];
      FromBigEndianRoundTrip(bytes[..4]);
      EncodesBack(tail);
      DecodeCons(bytes);
      EncodeCons(head, Decode(tail).value);
      assert bytes == bytes[..4] + head + tail;
    }
  }

  lemma {:induction false} DecodeCons(bytes: seq<byte>)
    requires bytes != [] && Decode(bytes).Some?
    ensures 4 <= |bytes| && 4 + FromBigEndian(bytes[..4]) <= |bytes|
    ensures var n := FromBigEndian(bytes[..4]);
            Decode(bytes[4 + n..]).Some? && Decode(bytes).value == [bytes[4..4 + n]] + Decode(bytes[4 + n..]).value
  {
  }

  /** Different field lists never share an encoding, whatever bytes the fields hold. */
  lemma {:induction false} EncodingIsInjective(x: seq<seq<byte>>, y: seq<seq<byte>>)
    requires CanonicalFields(x).Some? && CanonicalFields(x) == CanonicalFields(y)
    ensures x == y
  {
    DecodesBack(x);
    DecodesBack(y);
  }

  /** Bytes that a character takes in UTF-8. */
  function Utf8Width(c: char): nat {
    var n := c as int;
    if n < 0x80 then 1 else if n < 0x800 then 2 else if n < 0x1_0000 then 3 else 4
  }

  /** `len(value.encode("utf-8"))` */
  function Utf8Length(s: string): nat {
    if s == [] then 0 else Utf8Length(s[..|s| - 1]) + Utf8Width(s[|s| - 1])
  }
}
