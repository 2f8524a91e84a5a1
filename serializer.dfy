// The encryption serializer behind the encrypted columns (datasource connection data): a value
// is encrypted with AES in CBC mode under the configured key, padded with PKCS#7 padding
// (section 6.3 of RFC 5652), framed after a fresh 16-byte IV and stored as base64. The block
// cipher, base64 and JSON are parameters; padding, framing and every error path are modelled.
module Serializer {
  import opened Wrappers
  import opened Values

  /** aes.BlockSize */
  const BlockSize: nat := 16

  /** AES in CBC mode under a key and an IV, in both directions (CryptBlocks). */
  datatype Cbc = Cbc(encrypt: (seq<Byte>, seq<Byte>, seq<Byte>) -> seq<Byte>,
                     decrypt: (seq<Byte>, seq<Byte>, seq<Byte>) -> seq<Byte>)

  /** What CBC guarantees: whole blocks stay the same length, and decryption under the same
      key and IV undoes encryption. */
  ghost predicate CbcSound(cbc: Cbc)
  {
    && (forall key, iv, p :: |p| % BlockSize == 0 ==>
          |cbc.encrypt(key, iv, p)| == |p| && cbc.decrypt(key, iv, cbc.encrypt(key, iv, p)) == p)
    && (forall key, iv, c :: |c| % BlockSize == 0 ==> |cbc.decrypt(key, iv, c)| == |c|)
  }

  /** aes.NewCipher accepts AES-128, AES-192 and AES-256 keys. */
  predicate ValidKeySize(key: seq<Byte>)
  {
    |key| == 16 || |key| == 24 || |key| == 32
  }

  /** The text of aes.KeySizeError, the error aes.NewCipher gives for a key of another length. */
  function KeySizeError(key: seq<Byte>): string
  {
    "crypto/aes: invalid key size " + IntToDecimal(|key|)
  }

  /** The padding Value appends: 16 - len mod 16 copies of that count. */
  function Pad(p: seq<Byte>): (r: seq<Byte>)
    ensures 1 <= |r| - |p| <= BlockSize
    ensures |r| % BlockSize == 0 && |r| > 0
    ensures r[..|p|] == p
    ensures forall i :: |p| <= i < |r| ==> r[i] == |r| - |p|
  {
    var n := BlockSize - |p| % BlockSize;
    p + seq(n, _ => n)
  }

  /** The unpadding Scan applies: drop as many bytes as the last byte says, unchecked. */
  function Unpad(t: seq<Byte>): (r: seq<Byte>)
    requires |t| > 0 && t[|t| - 1] <= |t|
    ensures |r| == |t| - t[|t| - 1] && r == t[..|r|]
  {
    t[..|t| - t[|t| - 1]]
  }

  /** Unpadding undoes padding for every plaintext. */
  lemma UnpadPad(p: seq<Byte>)
    ensures |Pad(p)| > 0 && Pad(p)[|Pad(p)| - 1] <= |Pad(p)|
    ensures Unpad(Pad(p)) == p
  {
    var r := Pad(p);
    assert r[|r| - 1] == |r| - |p|;
  }

  /** The field values Value is handed; a Go string is its bytes, and `Other` carries the
      outcome of json.Marshal. */
  datatype FieldValue = Nil | Str(s: seq<Byte>) | Bytes(b: seq<Byte>) | Other(json: Result<seq<Byte>>)

  /** What the database hands Scan: NULL, text, a byte slice, or anything else, which
      carries its %#v text. */
  datatype DbValue = DbNull | DbText(t: seq<Byte>) | DbBytes(b: seq<Byte>) | DbOther(goSyntax: string)

  /** The text that gets encrypted: a string as-is, bytes as their string, anything else as
      its JSON. */
  function Plaintext(v: FieldValue): (r: Result<seq<Byte>>)
    requires !v.Nil?
    ensures v.Str? ==> r == Ok(v.s)
    ensures v.Bytes? ==> r == Ok(v.b)
    ensures v.Other? ==> r == v.json
  {
    match v
    case Str(s) => Ok(s)
    case Bytes(b) => Ok(b)
    case Other(j) => j
  }

  /** The stored frame: the IV, then the CBC encryption of the padded plaintext. */
  function Frame(cbc: Cbc, key: seq<Byte>, iv: seq<Byte>, p: seq<Byte>): (r: seq<Byte>)
    requires CbcSound(cbc)
    ensures |r| == BlockSize + |Pad(p)| <==> |iv| == BlockSize
    ensures |iv| <= |r| && r[..|iv|] == iv
  {
    iv + cbc.encrypt(key, iv, Pad(p))
  }

  /** Value: nil stays NULL; otherwise the plaintext is padded, encrypted after a random IV
      and stored as base64 text. `key` is what decoding the configured hex key yields (its
      error is dropped), `random` the outcome of reading the IV from crypto/rand, and
      `encode` base64's standard encoding. */
  function Value(v: FieldValue, key: seq<Byte>, random: Result<seq<Byte>>, cbc: Cbc,
                 encode: seq<Byte> -> seq<Byte>): (r: Result<Option<seq<Byte>>>)
    requires CbcSound(cbc)
    requires random.Ok? ==> |random.value| == BlockSize
    ensures v.Nil? ==> r == Ok(None)
    ensures !v.Nil? && Plaintext(v).Err? ==> r == Err("failed to marshal value: " + Plaintext(v).msg)
    ensures !v.Nil? && Plaintext(v).Ok? && !ValidKeySize(key) ==> r == Err("failed to create cipher: " + KeySizeError(key))
    ensures !v.Nil? && Plaintext(v).Ok? && ValidKeySize(key) && random.Err? ==> r == Err("failed to generate IV: " + random.msg)
    ensures r.Ok? && r.value.Some? ==>
      random.Ok? && r.value.value == encode(Frame(cbc, key, random.value, Plaintext(v).value))
  {
    if v.Nil? then Ok(None)
    else
      var plain := Plaintext(v);
      if plain.Err? then Err("failed to marshal value: " + plain.msg)
      else if !ValidKeySize(key) then Err("failed to create cipher: " + KeySizeError(key))
      else if random.Err? then Err("failed to generate IV: " + random.msg)
      else Ok(Some(encode(Frame(cbc, key, random.value, plain.value))))
  }

  /** What Scan does with a database value: nothing, an error, a runtime panic, or the
      decrypted plaintext handed on to the destination field. */
  datatype Scanned = NoOp | Failed(msg: string) | Panicked(reason: string) | Decrypted(plain: seq<Byte>)

  /** The steps Scan shares before it decrypts: the value's type, the key, base64 and the
      cipher. `key` is the outcome of decoding the configured hex key and `decode` base64's
      standard decoding. */
  function Unframe(db: DbValue, key: Result<seq<Byte>>, decode: seq<Byte> -> Result<seq<Byte>>): (r: Result<seq<Byte>>)
    requires !db.DbNull?
    ensures db.DbOther? ==> r == Err("failed to read cipher text value: " + db.goSyntax)
    ensures !db.DbOther? && key.Err? ==> r == Err("failed to decode key: " + key.msg)
    ensures r.Ok? ==> key.Ok? && ValidKeySize(key.value) && decode(if db.DbText? then db.t else db.b) == r
  {
    match db
    case DbOther(g) => Err("failed to read cipher text value: " + g)
    case DbText(t) => Decode(t, key, decode)
    case DbBytes(b) => Decode(b, key, decode)
  }

  /** The key, then base64, then the cipher, each failing with its own message. */
  function Decode(text: seq<Byte>, key: Result<seq<Byte>>, decode: seq<Byte> -> Result<seq<Byte>>): (r: Result<seq<Byte>>)
    ensures key.Err? ==> r == Err("failed to decode key: " + key.msg)
    ensures key.Ok? && decode(text).Err? ==> r == Err("failed to decode cipher text: " + decode(text).msg)
    ensures key.Ok? && decode(text).Ok? && !ValidKeySize(key.value) ==> r == Err("failed to create cipher: " + KeySizeError(key.value))
    ensures r.Ok? ==> key.Ok? && ValidKeySize(key.value) && decode(text) == r
  {
    if key.Err? then Err("failed to decode key: " + key.msg)
    else
      var decoded := decode(text);
      if decoded.Err? then Err("failed to decode cipher text: " + decoded.msg)
      else if !ValidKeySize(key.value) then Err("failed to create cipher: " + KeySizeError(key.value))
      else decoded
  }

  /** Scan as written: only a payload shorter than one block is refused. An IV with no
      ciphertext after it indexes position -1, a ciphertext that is not whole blocks makes
      CryptBlocks panic, and a last byte larger than the text slices out of range. */
  function ScanAsWritten(db: DbValue, key: Result<seq<Byte>>, decode: seq<Byte> -> Result<seq<Byte>>, cbc: Cbc): (r: Scanned)
    requires CbcSound(cbc)
    ensures db.DbNull? <==> r.NoOp?
    ensures !db.DbNull? && Unframe(db, key, decode).Err? ==> r == Failed(Unframe(db, key, decode).msg)
    ensures !db.DbNull? && Unframe(db, key, decode).Ok? && |Unframe(db, key, decode).value| < BlockSize ==>
      r == Failed("cipher text too short")
    ensures !db.DbNull? && Unframe(db, key, decode).Ok? && |Unframe(db, key, decode).value| == BlockSize ==>
      r.Panicked?
  {
    if db.DbNull? then NoOp
    else
      var frame := Unframe(db, key, decode);
      if frame.Err? then Failed(frame.msg)
      else if |frame.value| < BlockSize then Failed("cipher text too short")
      else
        var iv := frame.value[..BlockSize];
        var body := frame.value[BlockSize..];
        if |body| % BlockSize != 0 then Panicked("crypto/cipher: input not full blocks")
        else
          var plain := cbc.decrypt(key.value, iv, body);
          if |plain| == 0 then Panicked("index out of range [-1]")
          else if plain[|plain| - 1] > |plain| then Panicked("slice bounds out of range")
          else Decrypted(Unpad(plain))
  }

  /** Scan with every malformed payload refused: an IV alone, a ciphertext that is not whole
      blocks, and a pad count outside 1 to 16 or beyond the text are errors, not panics. */
  function Scan(db: DbValue, key: Result<seq<Byte>>, decode: seq<Byte> -> Result<seq<Byte>>, cbc: Cbc): (r: Scanned)
    requires CbcSound(cbc)
    ensures !r.Panicked?
    ensures db.DbNull? <==> r.NoOp?
    ensures !db.DbNull? && Unframe(db, key, decode).Err? ==> r == Failed(Unframe(db, key, decode).msg)
    ensures !db.DbNull? && Unframe(db, key, decode).Ok? && |Unframe(db, key, decode).value| <= BlockSize ==>
      r == Failed("cipher text too short")
  {
    if db.DbNull? then NoOp
    else
      var frame := Unframe(db, key, decode);
      if frame.Err? then Failed(frame.msg)
      else if |frame.value| <= BlockSize then Failed("cipher text too short")
      else
        var iv := frame.value[..BlockSize];
        var body := frame.value[BlockSize..];
        if |body| % BlockSize != 0 then Failed("cipher text is not a multiple of the block size")
        else
          var plain := cbc.decrypt(key.value, iv, body);
          var n := plain[|plain| - 1];
          if n == 0 || n > BlockSize then Failed("invalid padding")
          else Decrypted(Unpad(plain))
  }

  /** The corrected Scan keeps every answer of the one as written except a panic, and a
      decryption whose pad count lies outside 1 to 16, which it refuses. */
  lemma ScanAgrees(db: DbValue, key: Result<seq<Byte>>, decode: seq<Byte> -> Result<seq<Byte>>, cbc: Cbc)
    requires CbcSound(cbc)
    ensures ScanAsWritten(db, key, decode, cbc).NoOp? || ScanAsWritten(db, key, decode, cbc).Failed? ==>
      Scan(db, key, decode, cbc) == ScanAsWritten(db, key, decode, cbc)
    ensures Scan(db, key, decode, cbc).Decrypted? ==> Scan(db, key, decode, cbc) == ScanAsWritten(db, key, decode, cbc)
  {
  }

  /** A stored value scans back to the plaintext it was made from, through both versions of
      Scan, provided base64 decoding undoes encoding. */
  lemma {:induction false} RoundTrip(v: FieldValue, key: seq<Byte>, iv: seq<Byte>, cbc: Cbc,
                                     encode: seq<Byte> -> seq<Byte>, decode: seq<Byte> -> Result<seq<Byte>>)
    requires CbcSound(cbc) && |iv| == BlockSize && ValidKeySize(key)
    requires !v.Nil? && Plaintext(v).Ok?
    requires forall x :: decode(encode(x)) == Ok(x)
    ensures Value(v, key, Ok(iv), cbc, encode).Ok?
    ensures Value(v, key, Ok(iv), cbc, encode).value.Some?
    ensures ScanAsWritten(DbText(Value(v, key, Ok(iv), cbc, encode).value.value), Ok(key), decode, cbc)
            == Decrypted(Plaintext(v).value)
    ensures Scan(DbText(Value(v, key, Ok(iv), cbc, encode).value.value), Ok(key), decode, cbc)
            == Decrypted(Plaintext(v).value)
  {
    var p := Plaintext(v).value;
    var padded := Pad(p);
    var frame := Frame(cbc, key, iv, p);
    var stored := encode(frame);
    assert decode(stored) == Ok(frame);
    assert Unframe(DbText(stored), Ok(key), decode) == Ok(frame);
    assert frame[..BlockSize] == iv;
    assert frame[BlockSize..] == cbc.encrypt(key, iv, padded);
    assert cbc.decrypt(key, iv, frame[BlockSize..]) == padded;
    UnpadPad(p);
    assert padded[|padded| - 1] == |padded| - |p|;
  }

  /** A payload that decodes to exactly one block, an IV with nothing after it, panics the
      Scan as written and is refused by the corrected one. */
  lemma IvOnlyPayload(key: seq<Byte>, cbc: Cbc, decode: seq<Byte> -> Result<seq<Byte>>, stored: seq<Byte>)
    requires CbcSound(cbc) && ValidKeySize(key)
    requires decode(stored) == Ok(seq(16, _ => 0))
    ensures ScanAsWritten(DbText(stored), Ok(key), decode, cbc) == Panicked("index out of range [-1]")
    ensures Scan(DbText(stored), Ok(key), decode, cbc) == Failed("cipher text too short")
  {
    var frame := seq(16, _ => 0);
    assert Unframe(DbText(stored), Ok(key), decode) == Ok(frame);
    assert frame[BlockSize..] == [];
  }
}
