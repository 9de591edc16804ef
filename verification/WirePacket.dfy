/**
 The binary packet: a 42-byte header with length, type, CRC and session id, then a JSON text under
 PKCS#7 padding (section 6.3 of RFC 5652) and a block cipher in ECB mode (section 6.1 of NIST SP 800-38A).
 */
module WirePacket {
  import opened Wrappers

  type byte = x: int | 0 <= x < 256
  type Bytes = seq<byte>

  const MAGIC: Bytes := [0x68, 0x64]
  const PLAIN_TYPE: Bytes := [0x70, 0x6b]
  const SESSION_TYPE: Bytes := [0x64, 0x6b]
  const BLOCK := 16
  const HEADER := 42

  /** A key of the table that the parser is given: it looks up texts, but a caller may have put in bytes. */
  datatype TableKey = Text(text: string) | Raw(bytes: Bytes)

  type Keys = map<TableKey, Bytes>

  /** The cipher, the checksum and the codecs, as functions. */
  datatype Library<!P> = Library(
    enc: (Bytes, Bytes) -> Bytes,
    dec: (Bytes, Bytes) -> Bytes,
    crc32: Bytes -> nat,
    dumps: P -> Bytes,
    loads: Bytes -> Option<P>,
    utf8: Bytes -> Option<string>,      // decoding, with None for bytes that are not UTF-8
    defaultKey: Bytes)

  /** Under every key the cipher is a bijection on blocks. */
  ghost predicate IsBlockCipher<P>(lib: Library<P>) {
    forall key: Bytes, b: Bytes | |b| == BLOCK ::
      && |lib.enc(key, b)| == BLOCK && lib.dec(key, lib.enc(key, b)) == b
      && |lib.dec(key, b)| == BLOCK && lib.enc(key, lib.dec(key, b)) == b
  }

  /** `json.loads` inverts `json.dumps`, whose text is never empty and never ends in NUL. */
  ghost predicate IsCodec<P(!new)>(lib: Library<P>) {
    forall p: P ::
      && lib.loads(lib.dumps(p)) == Some(p)
      && lib.dumps(p) != [] && lib.dumps(p)[|lib.dumps(p)| - 1] != 0
  }

  // ---- Numbers on the wire ----

  function Be16(n: nat): Bytes
    requires n < 0x1_0000
  {
    [n / 0x100, n % 0x100]
  }

  function FromBe16(b: Bytes): nat
    requires |b| == 2
  {
    b[0] as int * 0x100 + b[1] as int
  }

  function Be32(n: nat): Bytes
    requires n < 0x1_0000_0000
  {
    Be16(n / 0x1_0000) + Be16(n % 0x1_0000)
  }

  function FromBe32(b: Bytes): nat
    requires |b| == 4
  {
    FromBe16(b[..2]) * 0x1_0000 + FromBe16(b[2..])
  }

  lemma Be16RoundTrip(n: nat)
    requires n < 0x1_0000
    ensures FromBe16(Be16(n)) == n
  {
  }

  lemma Be32RoundTrip(n: nat)
    requires n < 0x1_0000_0000
    ensures FromBe32(Be32(n)) == n
  {
    assert Be32(n)[..2] == Be16(n / 0x1_0000) && Be32(n)[2..] == Be16(n % 0x1_0000);
  }

  lemma FromBe32Injective(b: Bytes)
    requires |b| == 4
    ensures FromBe32(b) < 0x1_0000_0000 && Be32(FromBe32(b)) == b
  {
    var high, low := FromBe16(b[..2]), FromBe16(b[2..]);
    assert FromBe32(b) / 0x1_0000 == high && FromBe32(b) % 0x1_0000 == low;
    assert Be16(high) == b[..2] && Be16(low) == b[2..];
  }

  function Crc<P>(lib: Library<P>, data: Bytes): nat {
    lib.crc32(data) % 0x1_0000_0000
  }

  // ---- Padding ----

  function Repeat(b: byte, n: nat): (r: Bytes)
    ensures |r| == n && forall i | 0 <= i < n :: r[i] == b
  {
    seq(n, _ => b)
  }

  function Pad(text: Bytes): Bytes {
    var n := BLOCK - |text| % BLOCK;
    text + Repeat(n, n)
  }

  function Unpad(data: Bytes): Option<Bytes> {
    if data == [] || |data| % BLOCK != 0 then None
    else
      var n := data[|data| - 1];
      if 1 <= n <= BLOCK && data[|data| - n..] == Repeat(n, n) then Some(data[..|data| - n]) else None
  }

  lemma PadUnpads(text: Bytes)
    ensures Unpad(Pad(text)) == Some(text)
    ensures |Pad(text)| % BLOCK == 0 && |Pad(text)| == BLOCK * (|text| / BLOCK + 1)
  {
    var m := BLOCK - |text| % BLOCK;
    assert Pad(text)[|text|..] == Repeat(m, m) && Pad(text)[..|text|] == text;
  }

  lemma UnpadPads(text: Bytes, data: Bytes)
    requires Unpad(data) == Some(text)
    ensures data == Pad(text)
  {
    var n := data[|data| - 1];
    assert data == text + Repeat(n, n);
    assert (|text| + n) % BLOCK == 0 && n == BLOCK - |text| % BLOCK;
  }

  /** Unpadding succeeds on padded texts, on nothing else, and gives the text back. */
  lemma UnpadInvertsPad(text: Bytes, data: Bytes)
    ensures Unpad(data) == Some(text) <==> data == Pad(text)
    ensures |Pad(text)| % BLOCK == 0 && |Pad(text)| == BLOCK * (|text| / BLOCK + 1)
  {
    PadUnpads(text);
    if Unpad(data) == Some(text) {
      UnpadPads(text, data);
    }
  }

  // ---- ECB ----

  function Encrypt<P>(lib: Library<P>, key: Bytes, data: Bytes): Bytes
    decreases |data|
  {
    if |data| < BLOCK then [] else lib.enc(key, data[..BLOCK]) + Encrypt(lib, key, data[BLOCK..])
  }

  /** Trailing bytes that do not fill a block are ignored, since the decryptor is never finalised. */
  function Decrypt<P>(lib: Library<P>, key: Bytes, data: Bytes): Bytes
    decreases |data|
  {
    if |data| < BLOCK then [] else lib.dec(key, data[..BLOCK]) + Decrypt(lib, key, data[BLOCK..])
  }

  lemma {:induction false} DecryptInvertsEncrypt<P>(lib: Library<P>, key: Bytes, data: Bytes, tail: Bytes)
    requires IsBlockCipher(lib) && |data| % BLOCK == 0 && |tail| < BLOCK
    ensures |Encrypt(lib, key, data)| == |data|
    ensures Decrypt(lib, key, Encrypt(lib, key, data) + tail) == data
    decreases |data|
  {
    if data == [] {
      assert Encrypt(lib, key, data) + tail == tail;
    } else {
      DecryptInvertsEncrypt(lib, key, data[BLOCK..], tail);
      var first, rest := lib.enc(key, data[..BLOCK]), Encrypt(lib, key, data[BLOCK..]);
      var all := first + rest + tail;
      assert all[..BLOCK] == first && all[BLOCK..] == rest + tail;
    }
  }

  lemma {:induction false} EncryptInvertsDecrypt<P>(lib: Library<P>, key: Bytes, data: Bytes)
    requires IsBlockCipher(lib)
    ensures |Decrypt(lib, key, data)| == |data| - |data| % BLOCK
    ensures Encrypt(lib, key, Decrypt(lib, key, data)) == data[..|data| - |data| % BLOCK]
    decreases |data|
  {
    if |data| >= BLOCK {
      EncryptInvertsDecrypt(lib, key, data[BLOCK..]);
      var first, rest := lib.dec(key, data[..BLOCK]), Decrypt(lib, key, data[BLOCK..]);
      assert (first + rest)[..BLOCK] == first && (first + rest)[BLOCK..] == rest;
      assert data[..|data| - |data| % BLOCK] == data[..BLOCK] + data[BLOCK..][..|data| - BLOCK - |data| % BLOCK];
    }
  }

  // ---- Building ----

  datatype Error =
    | TooLong | BadMagic | Truncated | BadLength | BadType | BadCrc | UnknownSession | BadPadding | EmptyText | BadJson

  function Frame<P>(lib: Library<P>, kind: Bytes, session: Bytes, body: Bytes): Bytes
    requires |body| + 8 + |kind| + |session| < 0x1_0000
  {
    MAGIC + Be16(|body| + 8 + |kind| + |session|) + kind + Be32(Crc(lib, body)) + session + body
  }

  /** `build_packet`; the length must fit the 16-bit field. */
  function Build<P>(lib: Library<P>, kind: Bytes, key: Bytes, session: Bytes, payload: P): Result<Bytes, Error> {
    var body := Encrypt(lib, key, Pad(lib.dumps(payload)));
    if |body| + 8 + |kind| + |session| < 0x1_0000 then Ok(Frame(lib, kind, session, body)) else Err(TooLong)
  }

  // ---- Parsing ----

  datatype Packet<P> = Blank | Packet(kind: Bytes, session: Bytes, payload: Option<P>)

  /** The default key, or the table's key for the decoded session id. */
  function KeyFor<P>(lib: Library<P>, kind: Bytes, session: Bytes, keys: Keys): Option<Bytes> {
    if kind == PLAIN_TYPE then Some(lib.defaultKey)
    else
      match lib.utf8(session)
      case None => None
      case Some(text) => if Text(text) in keys then Some(keys[Text(text)]) else None
  }

  /** `decrypt_payload`, which drops one trailing NUL. */
  function DecryptPayload<P>(lib: Library<P>, key: Bytes, body: Bytes): Result<P, Error> {
    var text := Unpad(Decrypt(lib, key, body));
    if text.None? then Err(BadPadding)
    else if text.value == [] then Err(EmptyText)
    else
      var last := |text.value| - 1;
      var p := lib.loads(if text.value[last] == 0 then text.value[..last] else text.value);
      if p.Some? then Ok(p.value) else Err(BadJson)
  }

  function At(data: Bytes, from: nat, to: nat): Bytes
    requires from <= to
  {
    if to <= |data| then data[from..to] else if from <= |data| then data[from..] else []
  }

  /** The checks of `__init__` before the payload is looked at. */
  function HeaderError<P>(lib: Library<P>, data: Bytes): Option<Error> {
    if At(data, 0, 2) != MAGIC then Some(BadMagic)
    else if |data| < 4 then Some(Truncated)
    else if FromBe16(data[2..4]) != |data| then Some(BadLength)
    else if At(data, 4, 6) !in {PLAIN_TYPE, SESSION_TYPE} then Some(BadType)
    else if |data| < 10 then Some(Truncated)
    else if FromBe32(data[6..10]) != Crc(lib, At(data, HEADER, if |data| < HEADER then HEADER else |data|)) then Some(BadCrc)
    else None
  }

  /** `HomematePacket.__init__`. */
  function Parse<P>(lib: Library<P>, data: Bytes, keys: Keys): Result<Packet<P>, Error> {
    if data == [] then Ok(Blank)
    else if HeaderError(lib, data).Some? then Err(HeaderError(lib, data).value)
    else
      var kind, session := At(data, 4, 6), At(data, 10, HEADER);
      var key := KeyFor(lib, kind, session, keys);
      if key.None? then Err(UnknownSession)
      else if |data| <= HEADER then Ok(Packet(kind, session, None))
      else
        match DecryptPayload(lib, key.value, data[HEADER..])
        case Ok(p) => Ok(Packet(kind, session, Some(p)))
        case Err(e) => Err(e)
  }

  lemma FrameFields<P>(lib: Library<P>, kind: Bytes, session: Bytes, body: Bytes)
    requires |kind| == 2 && |session| == 32 && |body| + HEADER < 0x1_0000
    ensures var f := Frame(lib, kind, session, body);
            && |f| == |body| + HEADER
            && f[..2] == MAGIC && f[2..4] == Be16(|f|) && f[4..6] == kind
            && f[6..10] == Be32(Crc(lib, body)) && f[10..HEADER] == session && f[HEADER..] == body
  {
  }

  lemma FrameHasNoHeaderError<P>(lib: Library<P>, kind: Bytes, session: Bytes, body: Bytes)
    requires kind in {PLAIN_TYPE, SESSION_TYPE} && |session| == 32 && |body| + HEADER < 0x1_0000
    ensures HeaderError(lib, Frame(lib, kind, session, body)).None?
  {
    var f := Frame(lib, kind, session, body);
    FrameFields(lib, kind, session, body);
    Be16RoundTrip(|f|);
    Be32RoundTrip(Crc(lib, body));
    assert At(f, 0, 2) == f[..2] && At(f, 4, 6) == f[4..6];
    assert At(f, HEADER, |f|) == f[HEADER..];
  }

  /** Parsing a built packet gives the payload back, for both packet types, when the key is the session's. */
  lemma ParseInvertsBuild<P(!new)>(lib: Library<P>, kind: Bytes, key: Bytes, session: Bytes, payload: P, keys: Keys)
    requires IsBlockCipher(lib) && IsCodec(lib)
    requires kind in {PLAIN_TYPE, SESSION_TYPE} && |session| == 32
    requires KeyFor(lib, kind, session, keys) == Some(key)
    requires Build(lib, kind, key, session, payload).Ok?
    ensures Parse(lib, Build(lib, kind, key, session, payload).value, keys) == Ok(Packet(kind, session, Some(payload)))
  {
    var text := lib.dumps(payload);
    var body := Encrypt(lib, key, Pad(text));
    UnpadInvertsPad(text, Pad(text));
    DecryptInvertsEncrypt(lib, key, Pad(text), []);
    assert body + [] == body;
    FrameFields(lib, kind, session, body);
    FrameHasNoHeaderError(lib, kind, session, body);
  }

  /**
   A session packet that is otherwise sound is of an unknown session exactly when its id is no UTF-8 or no text of the
   table. So the probe tool, which puts its session ids in as bytes, never parses one.
   */
  lemma BytesTableNeverServesSessions<P>(lib: Library<P>, data: Bytes, keys: Keys)
    requires data != [] && HeaderError(lib, data).None? && At(data, 4, 6) == SESSION_TYPE
    ensures Parse(lib, data, keys) == Err(UnknownSession)
       <==> var id := lib.utf8(At(data, 10, HEADER)); id.None? || Text(id.value) !in keys
    ensures (forall k | k in keys :: k.Raw?) ==> Parse(lib, data, keys) == Err(UnknownSession)
  {
    assert PLAIN_TYPE != SESSION_TYPE by {
      assert PLAIN_TYPE[0] != SESSION_TYPE[0];
    }
  }

  /** Building succeeds exactly for texts of up to 65487 bytes. */
  lemma BuildSucceedsIff<P>(lib: Library<P>, kind: Bytes, key: Bytes, session: Bytes, payload: P)
    requires IsBlockCipher(lib) && |kind| == 2 && |session| == 32
    ensures Build(lib, kind, key, session, payload).Ok? <==> |lib.dumps(payload)| <= 65487
  {
    var text := lib.dumps(payload);
    PadUnpads(text);
    EncryptKeepsLength(lib, key, Pad(text));
  }

  lemma {:induction false} EncryptKeepsLength<P>(lib: Library<P>, key: Bytes, data: Bytes)
    requires IsBlockCipher(lib) && |data| % BLOCK == 0
    ensures |Encrypt(lib, key, data)| == |data|
    decreases |data|
  {
    if data != [] {
      EncryptKeepsLength(lib, key, data[BLOCK..]);
    }
  }

  /**
   A packet is accepted with a payload exactly when it is the frame of some encrypted padded text,
   perhaps followed inside the body by less than one block that the decryptor drops.
   */
  lemma AcceptedPacketsAreFrames<P>(lib: Library<P>, data: Bytes, keys: Keys, kind: Bytes, session: Bytes, p: P)
    requires IsBlockCipher(lib) && |session| == 32
    ensures Parse(lib, data, keys) == Ok(Packet(kind, session, Some(p)))
       <==> exists key: Bytes, text: Bytes, tail: Bytes :: IsFrameOf(lib, data, keys, kind, session, p, key, text, tail)
  {
    if Parse(lib, data, keys) == Ok(Packet(kind, session, Some(p))) {
      var key := KeyFor(lib, kind, session, keys).value;
      AcceptedIsFrame(lib, data, keys, kind, session, p, key);
    }
    if key: Bytes, text: Bytes, tail: Bytes :| IsFrameOf(lib, data, keys, kind, session, p, key, text, tail) {
      FrameIsAccepted(lib, data, keys, kind, session, p, key, text, tail);
    }
  }

  ghost predicate IsFrameOf<P>(lib: Library<P>, data: Bytes, keys: Keys, kind: Bytes, session: Bytes, p: P,
                               key: Bytes, text: Bytes, tail: Bytes)
  {
    && kind in {PLAIN_TYPE, SESSION_TYPE} && KeyFor(lib, kind, session, keys) == Some(key)
    && text != [] && lib.loads(if text[|text| - 1] == 0 then text[..|text| - 1] else text) == Some(p)
    && |tail| < BLOCK
    && var body := Encrypt(lib, key, Pad(text)) + tail;
       |body| + 8 + |kind| + |session| < 0x1_0000 && data == Frame(lib, kind, session, body)
  }

  lemma BodyDecrypts<P>(lib: Library<P>, key: Bytes, text: Bytes, tail: Bytes, p: P)
    requires IsBlockCipher(lib) && |tail| < BLOCK
    requires text != [] && lib.loads(if text[|text| - 1] == 0 then text[..|text| - 1] else text) == Some(p)
    ensures |Encrypt(lib, key, Pad(text)) + tail| > 0
    ensures DecryptPayload(lib, key, Encrypt(lib, key, Pad(text)) + tail) == Ok(p)
  {
    PadUnpads(text);
    DecryptInvertsEncrypt(lib, key, Pad(text), tail);
  }

  lemma FrameIsAccepted<P>(lib: Library<P>, data: Bytes, keys: Keys, kind: Bytes, session: Bytes, p: P,
                           key: Bytes, text: Bytes, tail: Bytes)
    requires IsBlockCipher(lib) && |session| == 32 && IsFrameOf(lib, data, keys, kind, session, p, key, text, tail)
    ensures Parse(lib, data, keys) == Ok(Packet(kind, session, Some(p)))
  {
    var body := Encrypt(lib, key, Pad(text)) + tail;
    BodyDecrypts(lib, key, text, tail, p);
    FrameFields(lib, kind, session, body);
    FrameHasNoHeaderError(lib, kind, session, body);
  }

  /** What an accepted packet with a payload has passed. */
  lemma ParsedParts<P>(lib: Library<P>, data: Bytes, keys: Keys, kind: Bytes, session: Bytes, p: P, key: Bytes)
    requires Parse(lib, data, keys) == Ok(Packet(kind, session, Some(p))) && KeyFor(lib, kind, session, keys) == Some(key)
    ensures |data| > HEADER && HeaderError(lib, data).None?
    ensures kind == data[4..6] && kind in {PLAIN_TYPE, SESSION_TYPE} && session == data[10..HEADER]
    ensures DecryptPayload(lib, key, data[HEADER..]) == Ok(p)
  {
  }

  lemma PayloadText<P>(lib: Library<P>, key: Bytes, body: Bytes, p: P) returns (text: Bytes)
    requires IsBlockCipher(lib) && DecryptPayload(lib, key, body) == Ok(p)
    ensures text != [] && lib.loads(if text[|text| - 1] == 0 then text[..|text| - 1] else text) == Some(p)
    ensures body == Encrypt(lib, key, Pad(text)) + body[|body| - |body| % BLOCK..]
  {
    text := Unpad(Decrypt(lib, key, body)).value;
    UnpadPads(text, Decrypt(lib, key, body));
    DecryptedBody(lib, key, body, Pad(text));
  }

  lemma AcceptedIsFrame<P>(lib: Library<P>, data: Bytes, keys: Keys, kind: Bytes, session: Bytes, p: P, key: Bytes)
    requires IsBlockCipher(lib) && |session| == 32
    requires Parse(lib, data, keys) == Ok(Packet(kind, session, Some(p))) && KeyFor(lib, kind, session, keys) == Some(key)
    ensures exists text: Bytes, tail: Bytes :: IsFrameOf(lib, data, keys, kind, session, p, key, text, tail)
  {
    ParsedParts(lib, data, keys, kind, session, p, key);
    var body := data[HEADER..];
    var tail := body[|body| - |body| % BLOCK..];
    var text := PayloadText(lib, key, body, p);
    UnframeIsFrame(lib, data);
    assert IsFrameOf(lib, data, keys, kind, session, p, key, text, tail);
  }

  lemma DecryptedBody<P>(lib: Library<P>, key: Bytes, body: Bytes, padded: Bytes)
    requires IsBlockCipher(lib) && Decrypt(lib, key, body) == padded
    ensures body == Encrypt(lib, key, padded) + body[|body| - |body| % BLOCK..]
  {
    EncryptInvertsDecrypt(lib, key, body);
    SplitAt(body, |body| - |body| % BLOCK);
  }

  lemma SplitAt(data: Bytes, n: nat)
    requires n <= |data|
    ensures data == data[..n] + data[n..]
  {
  }

  lemma UnframeIsFrame<P>(lib: Library<P>, data: Bytes)
    requires HEADER < |data| && HeaderError(lib, data).None?
    ensures |data| < 0x1_0000
    ensures data == Frame(lib, data[4..6], data[10..HEADER], data[HEADER..])
  {
    FromBe32Injective(data[6..10]);
    assert At(data, 0, 2) == data[..2] && At(data, HEADER, |data|) == data[HEADER..];
    assert Be16(|data|) == data[2..4];
    assert Be32(Crc(lib, data[HEADER..])) == data[6..10];
    assert data == data[..2] + data[2..4] + data[4..6] + data[6..10] + data[10..HEADER] + data[HEADER..];
  }

  // ---- Streams ----

  /** `parse_length`. */
  function ParseLength(header: Bytes): Result<nat, Error> {
    if At(header, 0, 2) != MAGIC then Err(BadMagic)
    else if |header| < 4 then Err(Truncated)
    else Ok(FromBe16(header[2..4]))
  }

  /** Reads packets off a stream: a 42-byte header, then what its length field announces. */
  function Deframe(stream: Bytes): Result<seq<Bytes>, Error>
    decreases |stream|
  {
    if stream == [] then Ok([])
    else if |stream| < HEADER then Err(Truncated)
    else
      match ParseLength(stream[..HEADER])
      case Err(e) => Err(e)
      case Ok(length) =>
        if length < HEADER then Err(BadLength)
        else if |stream| < length then Err(Truncated)
        else
          match Deframe(stream[length..])
          case Err(e) => Err(e)
          case Ok(rest) => Ok([stream[..length]] + rest)
  }

  function Concat(packets: seq<Bytes>): Bytes {
    if packets == [] then [] else packets[0] + Concat(packets[1..])
  }

  /** Something that `build_packet` makes with a two-byte type and a 32-byte session id. */
  ghost predicate IsBuilt<P(!new)>(lib: Library<P>, packet: Bytes) {
    exists kind: Bytes, key: Bytes, session: Bytes, payload: P ::
      |kind| == 2 && |session| == 32 && Build(lib, kind, key, session, payload) == Ok(packet)
  }

  lemma BuiltHeader<P(!new)>(lib: Library<P>, packet: Bytes)
    requires IsBuilt(lib, packet)
    ensures |packet| >= HEADER && packet[..2] == MAGIC && FromBe16(packet[2..4]) == |packet|
  {
    var kind: Bytes, key: Bytes, session: Bytes, payload: P :|
      |kind| == 2 && |session| == 32 && Build(lib, kind, key, session, payload) == Ok(packet);
    FrameFields(lib, kind, session, Encrypt(lib, key, Pad(lib.dumps(payload))));
    Be16RoundTrip(|packet|);
  }

  lemma DeframeOne(packet: Bytes, rest: Bytes)
    requires |packet| >= HEADER && packet[..2] == MAGIC && FromBe16(packet[2..4]) == |packet|
    requires Deframe(rest).Ok?
    ensures Deframe(packet + rest) == Ok([packet] + Deframe(rest).value)
  {
    var stream := packet + rest;
    var header := stream[..HEADER];
    assert At(header, 0, 2) == packet[..2] && header[2..4] == packet[2..4];
    assert stream[..|packet|] == packet && stream[|packet|..] == rest;
  }

  /** Packets written one after another come apart again. */
  lemma {:induction false} DeframeInvertsConcat<P(!new)>(lib: Library<P>, packets: seq<Bytes>)
    requires forall p | p in packets :: IsBuilt(lib, p)
    ensures Deframe(Concat(packets)) == Ok(packets)
  {
    if packets != [] {
      assert packets[0] in packets;
      BuiltHeader(lib, packets[0]);
      DeframeInvertsConcat(lib, packets[1..]);
      DeframeOne(packets[0], Concat(packets[1..]));
      assert [packets[0]] + packets[1..] == packets;
    }
  }
}
