/**
 SS58 addresses of one format. The checksum hash and base58 are parameters: any
 checksum of two bytes, and any pair of functions that are each other's inverse
 between byte strings and the texts that decode.
 */
module Ss58 {
  import opened Prelude

  type Octet = bv8
  type Bytes = seq<Octet>

  const QNERO_SS58: bv16 := 189

  // The formats the two-byte prefix has room for.
  const FORMATS: bv16 := 16384

  datatype Codec = Codec(checksum: Bytes -> Bytes, encode58: Bytes -> string, decode58: string -> Option<Bytes>)

  ghost predicate Lawful(c: Codec) {
    && (forall body :: |c.checksum(body)| == 2)
    && (forall raw :: c.decode58(c.encode58(raw)) == Some(raw))
    && (forall text :: c.decode58(text).Some? ==> c.encode58(c.decode58(text).value) == text)
  }

  // ---------------------------------------------------------------------------
  // The prefix
  // ---------------------------------------------------------------------------

  // The low byte, as a cast to u8 keeps it.
  function Low(x: bv16): Octet {
    (x & 0xFF) as Octet
  }

  function PrefixBytes(format: bv16): Bytes {
    if format < 64 then [Low(format)]
    else [Low(((format & 0x00FC) >> 2) | 0x40), Low((format >> 8) | ((format & 0x0003) << 6))]
  }

  function PrefixLen(first: Octet): nat {
    if first < 64 then 1 else 2
  }

  // What the decoder reads a prefix as.
  function FormatOf(raw: Bytes): bv16
    requires |raw| >= 2
  {
    if PrefixLen(raw[0]) == 1 then raw[0] as bv16
    else
      (((raw[0] & 0x3F) as bv16) << 2)
      | ((raw[1] as bv16) >> 6)
      | (((raw[1] & 0x3F) as bv16) << 8)
  }

  // Packing and the decoder's arithmetic are inverse for every format there
  // is room for.
  lemma PrefixRoundTrip(format: bv16, rest: Bytes)
    requires format < FORMATS && |rest| > 0
    ensures PrefixLen(PrefixBytes(format)[0]) == |PrefixBytes(format)|
    ensures FormatOf(PrefixBytes(format) + rest) == format
  {
    var raw := PrefixBytes(format) + rest;
    if format < 64 {
      assert raw[0] == Low(format);
    } else {
      assert raw[0] == PrefixBytes(format)[0] && raw[1] == PrefixBytes(format)[1];
    }
  }

  // A two-byte prefix is the packing of the format it is read as exactly when
  // its first byte has the top bit clear and the format needs two bytes.
  lemma PrefixIsCanonical(b0: Octet, b1: Octet)
    requires b0 >= 64
    ensures PrefixBytes(FormatOf([b0, b1])) == [b0, b1] <==> b0 < 128 && FormatOf([b0, b1]) >= 64
  {
  }

  // The first bytes that are read as Qnero's format: the packed one, and the
  // same with the top bit set or with bits 6 and 7 exchanged.
  predicate QneroFirst(b0: Octet) {
    b0 == 0x6F || b0 == 0xAF || b0 == 0xEF
  }

  lemma QneroPrefixes(b0: Octet, b1: Octet)
    requires b0 >= 64
    ensures FormatOf([b0, b1]) == QNERO_SS58 <==> QneroFirst(b0) && b1 == 0x40
  {
  }

  // ---------------------------------------------------------------------------
  // Addresses
  // ---------------------------------------------------------------------------

  datatype Error = NotBase58 | TooShort(len: nat) | WrongLength(len: nat) | Mistyped | OtherFormat(format: bv16)

  function Decode(c: Codec, address: string): Result<Bytes, Error> {
    var text := c.decode58(address);
    if text.None? then Err(NotBase58)
    else
      var raw := text.value;
      if |raw| < 3 then Err(TooShort(|raw|))
      else
        var n := PrefixLen(raw[0]);
        if |raw| != n + 32 + 2 then Err(WrongLength(|raw|))
        else
          var body, sum := raw[..|raw| - 2], raw[|raw| - 2..];
          if c.checksum(body) != sum then Err(Mistyped)
          else if FormatOf(raw) != QNERO_SS58 then Err(OtherFormat(FormatOf(raw)))
          else Ok(body[n..])
  }

  // An account under a two-byte prefix that starts with b0.
  function Spelled(c: Codec, b0: Octet, account: Bytes): string {
    var body := [b0, 0x40] + account;
    c.encode58(body + c.checksum(body))
  }

  method Encode(c: Codec, account: Bytes) returns (address: string)
    requires |account| == 32
    ensures address == Spelled(c, 0x6F, account)
    ensures Lawful(c) ==> Decode(c, address) == Ok(account)
  {
    var body := PrefixBytes(QNERO_SS58);
    body := body + account;
    var sum := c.checksum(body);
    body := body + sum;
    address := c.encode58(body);
    if Lawful(c) {
      SpelledDecodes(c, 0x6F, account);
    }
  }

  lemma SpelledDecodes(c: Codec, b0: Octet, account: Bytes)
    requires Lawful(c) && QneroFirst(b0) && |account| == 32
    ensures Decode(c, Spelled(c, b0, account)) == Ok(account)
  {
    var body := [b0, 0x40] + account;
    var raw := body + c.checksum(body);
    assert |c.checksum(body)| == 2;
    assert c.decode58(c.encode58(raw)) == Some(raw);
    assert raw[..|raw| - 2] == body && raw[|raw| - 2..] == c.checksum(body);
    assert raw[0] == b0 && raw[1] == 0x40 && FormatOf(raw) == FormatOf([b0, 0x40]);
    QneroPrefixes(b0, 0x40);
    assert body[2..] == account;
  }

  // What the decoder accepts is exactly three spellings of each account.
  lemma AcceptedSpellings(c: Codec, address: string, account: Bytes)
    requires Lawful(c)
    ensures Decode(c, address) == Ok(account) <==>
      |account| == 32 && exists b0 :: QneroFirst(b0) && address == Spelled(c, b0, account)
  {
    if Decode(c, address) == Ok(account) {
      var raw := c.decode58(address).value;
      assert c.encode58(raw) == address;
      FirstByteIsQneros(raw);
      var body := raw[..|raw| - 2];
      assert raw == body + c.checksum(body);
      assert body == [raw[0], 0x40] + account;
      assert address == Spelled(c, raw[0], account);
    }
    if |account| == 32 {
      forall b0 | QneroFirst(b0) && address == Spelled(c, b0, account)
        ensures Decode(c, address) == Ok(account)
      {
        SpelledDecodes(c, b0, account);
      }
    }
  }

  lemma FirstByteIsQneros(raw: Bytes)
    requires |raw| >= 2 && FormatOf(raw) == QNERO_SS58
    ensures QneroFirst(raw[0]) && raw[1] == 0x40
  {
    if raw[0] >= 64 {
      assert FormatOf(raw) == FormatOf([raw[0], raw[1]]);
      QneroPrefixes(raw[0], raw[1]);
    }
  }

  // An accepted address is the one the encoder writes for its account exactly
  // when the first byte behind it has the top bit clear.
  lemma ReencodesIff(c: Codec, address: string)
    requires Lawful(c) && Decode(c, address).Ok?
    ensures Spelled(c, 0x6F, Decode(c, address).value) == address <==> c.decode58(address).value[0] < 128
  {
    var account := Decode(c, address).value;
    AcceptedSpellings(c, address, account);
    var b0 :| QneroFirst(b0) && address == Spelled(c, b0, account);
    SpelledFirst(c, b0, account);
    SpelledFirst(c, 0x6F, account);
  }

  lemma SpelledFirst(c: Codec, b0: Octet, account: Bytes)
    requires Lawful(c)
    ensures var raw := c.decode58(Spelled(c, b0, account)); raw.Some? && |raw.value| >= 2 && raw.value[0] == b0
  {
    var body := [b0, 0x40] + account;
    assert c.decode58(c.encode58(body + c.checksum(body))) == Some(body + c.checksum(body));
  }

  // So the decoder is not injective: three different texts name each account.
  lemma ThreeTextsPerAccount(c: Codec, account: Bytes)
    requires Lawful(c) && |account| == 32
    ensures Decode(c, Spelled(c, 0x6F, account)) == Decode(c, Spelled(c, 0xAF, account))
         == Decode(c, Spelled(c, 0xEF, account)) == Ok(account)
    ensures Spelled(c, 0x6F, account) != Spelled(c, 0xAF, account)
    ensures Spelled(c, 0xAF, account) != Spelled(c, 0xEF, account)
    ensures Spelled(c, 0x6F, account) != Spelled(c, 0xEF, account)
  {
    SpelledDecodes(c, 0x6F, account);
    SpelledDecodes(c, 0xAF, account);
    SpelledDecodes(c, 0xEF, account);
    SpelledFirst(c, 0x6F, account);
    SpelledFirst(c, 0xAF, account);
    SpelledFirst(c, 0xEF, account);
  }

  // ---------------------------------------------------------------------------
  // What a refusal says
  // ---------------------------------------------------------------------------

  // The body of an account under any format, and its address.
  function Body(format: bv16, account: Bytes): Bytes {
    PrefixBytes(format) + account
  }

  // An address of any format there is room for, with whatever two bytes for its
  // checksum: mistyped exactly if they are not the checksum, and otherwise
  // refused under the name of its format unless that is Qnero's.
  lemma FormatIsNamed(c: Codec, format: bv16, account: Bytes, sum: Bytes)
    requires Lawful(c) && format < FORMATS && |account| == 32 && |sum| == 2
    ensures
      var body := Body(format, account);
      Decode(c, c.encode58(body + sum)) ==
        if sum != c.checksum(body) then Err(Mistyped)
        else if format == QNERO_SS58 then Ok(account)
        else Err(OtherFormat(format))
  {
    var body := Body(format, account);
    var raw := body + sum;
    PrefixRoundTrip(format, account + sum);
    assert raw == PrefixBytes(format) + (account + sum);
    assert c.decode58(c.encode58(raw)) == Some(raw);
    assert raw[..|raw| - 2] == body && raw[|raw| - 2..] == sum;
    assert body[|PrefixBytes(format)|..] == account;
  }

  // One that holds anything but 32 bytes is refused with its length.
  lemma LengthIsNamed(c: Codec, format: bv16, account: Bytes, sum: Bytes)
    requires Lawful(c) && format < FORMATS && |account| != 32 && |sum| == 2
    ensures Decode(c, c.encode58(Body(format, account) + sum)) == Err(WrongLength(|Body(format, account)| + 2))
  {
    var raw := Body(format, account) + sum;
    PrefixRoundTrip(format, account + sum);
    assert raw == PrefixBytes(format) + (account + sum);
    assert c.decode58(c.encode58(raw)) == Some(raw);
  }

  lemma OthersAreNoAddress(c: Codec, address: string)
    requires Lawful(c)
    ensures Decode(c, address) == Err(NotBase58) <==> c.decode58(address).None?
    ensures forall n :: Decode(c, address) == Err(TooShort(n)) <==>
      c.decode58(address).Some? && |c.decode58(address).value| == n < 3
  {
  }
}
