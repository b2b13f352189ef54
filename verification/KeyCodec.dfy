/** SSH public keys as the client accepts, canonicalises and stores them: length-prefixed
    fields (section 5 of RFC 4251) in a base64 blob (section 6.6 of RFC 4253, section 4 of
    RFC 8709). */
module KeyCodec {
  import opened Wrappers
  import opened Base64
  import opened Text

  const MAX_AUTHORIZED_KEY_LINE: nat := 16 * 1024

  /** A canonical key.  SHA-256 is taken to be injective, so the bytes that were hashed
      stand for the fingerprint. */
  datatype AuthorizedKey = AuthorizedKey(keyType: string, blob: string, fingerprint: seq<byte>, line: string)

  predicate SupportedKeyType(keyType: string) {
    keyType == "ssh-ed25519" || keyType == "ssh-rsa"
  }

  function Uint32(a: int, b: int, c: int, d: int): int {
    ((a * 256 + b) * 256 + c) * 256 + d
  }

  /** Reads one field: a four-byte big-endian length, then as many bytes. */
  function ReadSSHField(blob: seq<byte>): Option<(seq<byte>, seq<byte>)> {
    if |blob| < 4 then None
    else
      var length := Uint32(blob[0], blob[1], blob[2], blob[3]);
      if length > |blob| - 4 then None else Some((blob[4..4 + length], blob[4 + length..]))
  }

  predicate ValidateKeyBody(keyType: string, blob: seq<byte>) {
    if keyType == "ssh-ed25519" then
      var f := ReadSSHField(blob);
      f.Some? && |f.value.0| == 32 && f.value.1 == []
    else if keyType == "ssh-rsa" then
      var exponent := ReadSSHField(blob);
      exponent.Some? &&
      var modulus := ReadSSHField(exponent.value.1);
      modulus.Some? && exponent.value.0 != [] && modulus.value.0 != [] && modulus.value.1 == []
    else false
  }

  function ByteOf(c: char): byte
    requires c < '\U{0080}'
  {
    c as int
  }

  function Bytes(s: string): seq<byte>
    requires Ascii(s)
  {
    seq(|s|, i requires 0 <= i < |s| => assert s[i] in s; ByteOf(s[i]))
  }

  lemma TypesAreWords(keyType: string)
    requires SupportedKeyType(keyType)
    ensures Ascii(keyType) && Word(keyType) && '\0' !in keyType && |keyType| in {7, 11}
  {
  }

  /** The blob opens with its own type and goes on with a key body of that type. */
  predicate ValidBlob(keyType: string, blob: seq<byte>)
    requires SupportedKeyType(keyType)
  {
    TypesAreWords(keyType);
    var embedded := ReadSSHField(blob);
    embedded.Some? && embedded.value.0 == Bytes(keyType) && ValidateKeyBody(keyType, embedded.value.1)
  }

  function ParseOfferedKey(offeredType: string, offeredBlob: string): Option<AuthorizedKey> {
    var keyType, keyBlob := Trim(offeredType), Trim(offeredBlob);
    if keyType == "" || keyBlob == "" || !SupportedKeyType(keyType) then None
    else if Utf8Length(keyType) + Utf8Length(keyBlob) > MAX_AUTHORIZED_KEY_LINE then None
    else
      var blob := Decode(keyBlob);
      if blob.None? || !ValidBlob(keyType, blob.value) then None else Some(Canonical(keyType, blob.value))
  }

  function Canonical(keyType: string, blob: seq<byte>): AuthorizedKey {
    AuthorizedKey(keyType, Encode(blob), blob, keyType + " " + Encode(blob))
  }

  function ParseAuthorizedKeyLine(text: string): Option<AuthorizedKey> {
    var line := Trim(text);
    if line == "" || Utf8Length(line) > MAX_AUTHORIZED_KEY_LINE then None
    else
      var fields := Fields(line);
      if |fields| < 2 then None else ParseOfferedKey(fields[0], fields[1])
  }

  // ---------------------------------------------------------------- fields

  /** The inverse of reading a field. */
  function BuildField(f: seq<byte>): seq<byte>
    requires |f| < 0x1_0000_0000
  {
    var n := |f|;
    [n / 256 / 256 / 256, n / 256 / 256 % 256, n / 256 % 256, n % 256] + f
  }

  lemma BigEndian(n: int)
    requires 0 <= n < 0x1_0000_0000
    ensures Uint32(n / 256 / 256 / 256, n / 256 / 256 % 256, n / 256 % 256, n % 256) == n
  {
  }

  lemma BigEndianBytes(a: byte, b: byte, c: byte, d: byte)
    ensures var n := Uint32(a, b, c, d);
      0 <= n < 0x1_0000_0000 && n / 256 / 256 / 256 == a && n / 256 / 256 % 256 == b && n / 256 % 256 == c
        && n % 256 == d
  {
    var n := Uint32(a, b, c, d);
    assert n / 256 == (a * 256 + b) * 256 + c;
    assert n / 256 / 256 == a * 256 + b;
  }

  /** Building a field and reading one are inverse to each other. */
  lemma FieldInverse(f: seq<byte>, rest: seq<byte>, blob: seq<byte>)
    requires |f| < 0x1_0000_0000
    ensures ReadSSHField(blob) == Some((f, rest)) <==> blob == BuildField(f) + rest
  {
    BigEndian(|f|);
    var built := BuildField(f) + rest;
    assert built[4..4 + |f|] == f && built[4 + |f|..] == rest;
    if |blob| >= 4 && ReadSSHField(blob) == Some((f, rest)) {
      BigEndianBytes(blob[0], blob[1], blob[2], blob[3]);
      assert blob == blob[..4] + blob[4..4 + |f|] + blob[4 + |f|..];
    }
  }

  // ---------------------------------------------------------------- keys

  datatype PublicKey = Ed25519(key: seq<byte>) | Rsa(exponent: seq<byte>, modulus: seq<byte>) {
    predicate WellFormed() {
      match this
      case Ed25519(key) => |key| == 32
      case Rsa(e, n) => 0 < |e| < 0x1_0000_0000 && 0 < |n| < 0x1_0000_0000
    }

    function KeyType(): string {
      if Ed25519? then "ssh-ed25519" else "ssh-rsa"
    }

    function Body(): seq<byte>
      requires WellFormed()
    {
      match this
      case Ed25519(key) => BuildField(key) + []
      case Rsa(e, n) => BuildField(e) + (BuildField(n) + [])
    }

    function Blob(): seq<byte>
      requires WellFormed()
    {
      TypesAreWords(KeyType());
      BuildField(Bytes(KeyType())) + Body()
    }
  }

  lemma FieldShort(blob: seq<byte>)
    requires ReadSSHField(blob).Some?
    ensures |ReadSSHField(blob).value.0| < 0x1_0000_0000
  {
    BigEndianBytes(blob[0], blob[1], blob[2], blob[3]);
  }

  /** What a body that passes the check holds. */
  function KeyOf(keyType: string, body: seq<byte>): PublicKey
    requires ValidateKeyBody(keyType, body)
  {
    var first := ReadSSHField(body).value;
    if keyType == "ssh-ed25519" then Ed25519(first.0) else Rsa(first.0, ReadSSHField(first.1).value.0)
  }

  /** The check accepts exactly the bodies of well-formed keys of the type. */
  lemma BodyInverse(keyType: string, body: seq<byte>, k: PublicKey)
    ensures ValidateKeyBody(keyType, body) ==>
      KeyOf(keyType, body).WellFormed() && KeyOf(keyType, body).KeyType() == keyType
        && body == KeyOf(keyType, body).Body()
    ensures k.WellFormed() && k.KeyType() == keyType && body == k.Body() ==>
      ValidateKeyBody(keyType, body) && KeyOf(keyType, body) == k
  {
    if ValidateKeyBody(keyType, body) {
      var first := ReadSSHField(body).value;
      FieldShort(body);
      FieldInverse(first.0, first.1, body);
      if keyType == "ssh-rsa" {
        FieldShort(first.1);
        var second := ReadSSHField(first.1).value;
        FieldInverse(second.0, second.1, first.1);
      }
    }
    if k.WellFormed() && k.KeyType() == keyType && body == k.Body() {
      match k
      case Ed25519(key) => FieldInverse(key, [], body);
      case Rsa(e, n) =>
        FieldInverse(e, BuildField(n) + [], body);
        FieldInverse(n, [], BuildField(n) + []);
    }
  }

  /** Building a blob from its fields and taking it apart are inverse to each other. */
  lemma BlobInverse(keyType: string, blob: seq<byte>, k: PublicKey)
    requires SupportedKeyType(keyType)
    ensures ValidBlob(keyType, blob) <==>
      exists q: PublicKey :: q.WellFormed() && q.KeyType() == keyType && blob == q.Blob()
    ensures k.WellFormed() && k.KeyType() == keyType && blob == k.Blob() ==>
      ValidBlob(keyType, blob) && KeyOf(keyType, ReadSSHField(blob).value.1) == k
  {
    TypesAreWords(keyType);
    var head := Bytes(keyType);
    forall q: PublicKey | q.WellFormed() && q.KeyType() == keyType && blob == q.Blob()
      ensures ValidBlob(keyType, blob) && KeyOf(keyType, ReadSSHField(blob).value.1) == q
    {
      FieldInverse(head, q.Body(), blob);
      BodyInverse(keyType, q.Body(), q);
    }
    if ValidBlob(keyType, blob) {
      var body := ReadSSHField(blob).value.1;
      FieldInverse(head, body, blob);
      BodyInverse(keyType, body, k);
      assert KeyOf(keyType, body).Blob() == blob;
    }
  }

  // ---------------------------------------------------------------- canonical keys

  /** An offer is accepted exactly when it fits and decodes to a well-formed key of its type. */
  lemma OfferAccepted(offeredType: string, offeredBlob: string)
    ensures var keyType, keyBlob := Trim(offeredType), Trim(offeredBlob);
      ParseOfferedKey(offeredType, offeredBlob).Some? <==>
        && keyBlob != "" && Utf8Length(keyType) + Utf8Length(keyBlob) <= 16_384
          && Decode(keyBlob).Some?
        && exists k: PublicKey :: k.WellFormed() && k.KeyType() == keyType && Decode(keyBlob).value == k.Blob()
  {
    var keyType, keyBlob := Trim(offeredType), Trim(offeredBlob);
    hide Trim, Decode, ReadSSHField, ValidateKeyBody, ValidBlob, PublicKey.WellFormed, PublicKey.Blob, Utf8Length;
    if SupportedKeyType(keyType) && Decode(keyBlob).Some? {
      BlobInverse(keyType, Decode(keyBlob).value, Ed25519([]));
    }
  }

  /** The bytes of a name of an algorithm. */
  lemma TypeBytes()
    ensures Bytes("ssh-ed25519") == [115, 115, 104, 45, 101, 100, 50, 53, 53, 49, 57]
    ensures Bytes("ssh-rsa") == [115, 115, 104, 45, 114, 115, 97]
  {
  }

  /** The length of a field comes first, in four bytes, the highest first. */
  lemma FieldBytes(f: seq<byte>)
    requires |f| < 0x1_0000_0000
    ensures var b: seq<int> := BuildField(f);
      && |b| == |f| + 4 && b[4..] == f
      && 0x100_0000 * b[0] + 0x1_0000 * b[1] + 0x100 * b[2] + b[3] == |f|
  {
    BigEndian(|f|);
  }

  /** The blob of a well-formed key: the type and 32 bytes of Ed25519 key, or the type, a nonempty
      exponent and a nonempty modulus of RSA; each is a field, and nothing follows. */
  lemma BlobForm(k: PublicKey)
    ensures k.WellFormed() <==>
      match k
      case Ed25519(key) => |key| == 32
      case Rsa(e, n) => 0 < |e| < 0x1_0000_0000 && 0 < |n| < 0x1_0000_0000
    ensures k.KeyType() == if k.Ed25519? then "ssh-ed25519" else "ssh-rsa"
    ensures k.WellFormed() ==>
      match k
      case Ed25519(key) => k.Blob() == BuildField(Bytes("ssh-ed25519")) + BuildField(key)
      case Rsa(e, n) => k.Blob() == BuildField(Bytes("ssh-rsa")) + BuildField(e) + BuildField(n)
  {
    hide BuildField, Bytes;
  }

  /** What is stored of an accepted offer: its type, the canonical text, the bytes to hash, and the
      line. */
  lemma Stored(offeredType: string, offeredBlob: string)
    requires ParseOfferedKey(offeredType, offeredBlob).Some?
    ensures Decode(Trim(offeredBlob)).Some?
    ensures var bytes := Decode(Trim(offeredBlob)).value;
      ParseOfferedKey(offeredType, offeredBlob).value ==
        AuthorizedKey(Trim(offeredType), Encode(bytes), bytes, Trim(offeredType) + " " + Encode(bytes))
  {
    hide Trim, Decode, Encode, Utf8Length, ValidBlob;
  }

  /** Two offers give the same stored key exactly when they name the same type and decode to
      the same bytes. */
  lemma SameKeySameBytes(type1: string, blob1: string, type2: string, blob2: string)
    requires ParseOfferedKey(type1, blob1).Some? && ParseOfferedKey(type2, blob2).Some?
    ensures var k1, k2 := ParseOfferedKey(type1, blob1).value, ParseOfferedKey(type2, blob2).value;
      && (k1.blob == k2.blob <==> Decode(Trim(blob1)) == Decode(Trim(blob2)))
      && (k1 == k2 <==> k1.keyType == k2.keyType && k1.blob == k2.blob)
      && (k1 == k2 <==> Trim(type1) == Trim(type2) && Decode(Trim(blob1)) == Decode(Trim(blob2)))
  {
    hide Trim, Decode, Encode, Utf8Length, ValidBlob;
    EncodeInjective(Decode(Trim(blob1)).value, Decode(Trim(blob2)).value);
  }

  lemma {:induction false} PrintableWord(s: string)
    requires Printable(s)
    ensures Ascii(s) && (forall c | c in s :: !IsSpace(c) && c != '\0')
  {
  }

  lemma CanonicalOffer(keyType: string, bytes: seq<byte>)
    requires SupportedKeyType(keyType) && ValidBlob(keyType, bytes)
    requires |keyType| + |Encode(bytes)| <= MAX_AUTHORIZED_KEY_LINE
    ensures ParseOfferedKey(keyType, Encode(bytes)) == Some(Canonical(keyType, bytes))
    ensures Word(keyType) && Word(Encode(bytes)) && Ascii(keyType) && Ascii(Encode(bytes))
  {
    TypesAreWords(keyType);
    EncodePrintable(bytes);
    PrintableWord(Encode(bytes));
    EncodeLength(bytes);
    DecodeEncode(bytes);
    assert bytes != [];
    hide Trim, Decode, Encode, Utf8Length, ValidBlob, SupportedKeyType, IsSpace, SextetOf, Quanta, StripBreaks,
         DecodeRaw;
    TrimWord(keyType);
    TrimWord(Encode(bytes));
    AsciiLength(keyType);
    AsciiLength(Encode(bytes));
  }

  /** Every well-formed key that fits is accepted in its canonical form, and parsing gives
      back its fields. */
  lemma KeyAccepted(k: PublicKey)
    requires k.WellFormed() && |k.KeyType()| + |Encode(k.Blob())| <= MAX_AUTHORIZED_KEY_LINE
    ensures ParseOfferedKey(k.KeyType(), Encode(k.Blob())) == Some(Canonical(k.KeyType(), k.Blob()))
    ensures ReadSSHField(k.Blob()).Some? && ValidateKeyBody(k.KeyType(), ReadSSHField(k.Blob()).value.1)
    ensures KeyOf(k.KeyType(), ReadSSHField(k.Blob()).value.1) == k
  {
    BlobInverse(k.KeyType(), k.Blob(), k);
    CanonicalOffer(k.KeyType(), k.Blob());
    hide ParseOfferedKey, Encode, ReadSSHField, ValidateKeyBody, KeyOf, PublicKey.Blob, PublicKey.WellFormed;
  }

  lemma TwoWordLine(a: string, b: string)
    requires Word(a) && Word(b) && Utf8Length(a) + 1 + Utf8Length(b) <= MAX_AUTHORIZED_KEY_LINE
    ensures ParseAuthorizedKeyLine(a + " " + b) == ParseOfferedKey(a, b)
  {
    hide ParseOfferedKey, Trim, Fields, Utf8Length, Word;
    TwoWords(a, b);
    AsciiLength(" ");
    Utf8Concat(a, " ");
    Utf8Concat(a + " ", b);
  }

  /** A comment after the key changes nothing. */
  lemma CommentIgnored(a: string, b: string, comment: string)
    requires Word(a) && Word(b) && Word(comment)
    requires Utf8Length(a) + 1 + Utf8Length(b) + 1 + Utf8Length(comment) <= 16_384
    ensures ParseAuthorizedKeyLine(a + " " + b + " " + comment) == ParseOfferedKey(a, b)
  {
    hide ParseOfferedKey, Trim, Fields, Utf8Length, Word;
    ThreeWords(a, b, comment);
    AsciiLength(" ");
    Utf8Concat(a, " ");
    Utf8Concat(a + " ", b);
    Utf8Concat(a + " " + b, " ");
    Utf8Concat(a + " " + b + " ", comment);
  }

  lemma BelowLimit(t: nat, n: nat)
    requires (t == 7 || t == 11) && n % 4 != 1 && t + n <= MAX_AUTHORIZED_KEY_LINE
    ensures t + 1 + n <= MAX_AUTHORIZED_KEY_LINE
  {
    assert 16377 % 4 == 16373 % 4 == 1;
  }

  lemma CanonicalFits(keyType: string, bytes: seq<byte>)
    requires SupportedKeyType(keyType) && |keyType| + |Encode(bytes)| <= MAX_AUTHORIZED_KEY_LINE
    ensures |keyType| + 1 + |Encode(bytes)| <= MAX_AUTHORIZED_KEY_LINE
    ensures Canonical(keyType, bytes).line == keyType + " " + Encode(bytes)
  {
    hide SupportedKeyType, Word, Ascii, Encode;
    TypesAreWords(keyType);
    EncodeLength(bytes);
    BelowLimit(|keyType|, |Encode(bytes)|);
  }

  /** A canonical line is within the limit whenever type and blob are: with the blank it
      could only exceed it by one, and no unpadded base64 text has that length. */
  lemma CanonicalLine(keyType: string, bytes: seq<byte>)
    requires SupportedKeyType(keyType) && ValidBlob(keyType, bytes)
    requires |keyType| + |Encode(bytes)| <= MAX_AUTHORIZED_KEY_LINE
    ensures ParseAuthorizedKeyLine(Canonical(keyType, bytes).line) == Some(Canonical(keyType, bytes))
  {
    hide *;
    CanonicalFits(keyType, bytes);
    CanonicalOffer(keyType, bytes);
    AsciiLength(keyType);
    AsciiLength(Encode(bytes));
    TwoWordLine(keyType, Encode(bytes));
  }

  /** A stored key is accepted again, as it is, both as an offer and as a line. */
  lemma Reparse(offeredType: string, offeredBlob: string)
    requires ParseOfferedKey(offeredType, offeredBlob).Some?
    ensures var key := ParseOfferedKey(offeredType, offeredBlob).value;
      && ParseOfferedKey(key.keyType, key.blob) == Some(key)
      && ParseAuthorizedKeyLine(key.line) == Some(key)
  {
    var keyType, keyBlob := Trim(offeredType), Trim(offeredBlob);
    var bytes := Decode(keyBlob).value;
    hide Trim, Decode, Encode, Utf8Length, ValidBlob, SupportedKeyType, ParseAuthorizedKeyLine;
    AsciiLength(keyType);
    AsciiLength(keyBlob);
    CanonicalShorter(keyBlob);
    CanonicalOffer(keyType, bytes);
    CanonicalLine(keyType, bytes);
  }

  /** The same for a key that arrived as a line. */
  lemma ReparseLine(text: string)
    requires ParseAuthorizedKeyLine(text).Some?
    ensures var key := ParseAuthorizedKeyLine(text).value;
      ParseAuthorizedKeyLine(key.line) == Some(key) && ParseOfferedKey(key.keyType, key.blob) == Some(key)
  {
    var fields := Fields(Trim(text));
    Reparse(fields[0], fields[1]);
    hide ParseOfferedKey;
  }
}
