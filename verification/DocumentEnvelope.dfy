/** Encryption at rest of document fields: a keyring whose envelopes name the key that
    sealed them, the older unnamed format, and rotation from one key to the next. */
module DocumentEnvelope {
  import opened Options
  import opened Bytes

  /** Key ids are ASCII text, so their bytes stand for them. */
  type KeyId = Bytes
  type Key = nat

  const MAGIC: Bytes := [0x50, 0x44, 0x4f, 0x43]
  const VERSION: byte := 2
  const NONCE_BYTES := 12
  const TAG_BYTES := 16

  /** The bytes of `legacy-v1`. */
  const LEGACY_KEY_ID: KeyId := [0x6c, 0x65, 0x67, 0x61, 0x63, 0x79, 0x2d, 0x76, 0x31]

  datatype Failure = EncryptFailed | DecryptFailed | InvalidKey | UnknownKey
  datatype Result<+T> = Ok(value: T) | Err(error: Failure)

  /** The authenticated cipher, and the test for well-formed UTF-8. */
  datatype Cipher = Cipher(
    seal: (Key, Bytes, Bytes, Bytes) -> Bytes,
    open: (Key, Bytes, Bytes, Bytes) -> Option<Bytes>,
    isText: Bytes -> bool)

  /** Opening undoes sealing, a tag of 16 bytes is all that sealing adds, and ASCII is text. */
  ghost predicate Lawful(c: Cipher) {
    && (forall key, nonce, aad, message :: c.open(key, nonce, aad, c.seal(key, nonce, aad, message)) == Some(message))
    && (forall key, nonce, aad, message :: |c.seal(key, nonce, aad, message)| == |message| + TAG_BYTES)
    && (forall key, nonce, aad, sealed ::
          c.open(key, nonce, aad, sealed).Some? ==> |c.open(key, nonce, aad, sealed).value| + TAG_BYTES == |sealed|)
    && (forall id | ValidKeyId(id) :: c.isText(id))
  }

  predicate IdByte(b: byte) {
    0x30 <= b <= 0x39 || 0x41 <= b <= 0x5a || 0x61 <= b <= 0x7a || b == 0x2d || b == 0x5f || b == 0x2e
  }

  predicate ValidKeyId(id: KeyId) {
    1 <= |id| <= 64 && forall b | b in id :: IdByte(b)
  }

  datatype SecretBox = SecretBox(active: KeyId, keys: map<KeyId, Key>)

  predicate ValidBox(box: SecretBox) {
    box.active in box.keys && forall id | id in box.keys :: ValidKeyId(id)
  }

  /** `keyring`. */
  function Keyring(active: KeyId, keys: map<KeyId, Key>): (r: Result<SecretBox>)
    ensures r.Ok? ==> ValidBox(r.value)
    ensures r.Err? <==> !ValidBox(SecretBox(active, keys))
    ensures r.Ok? <==> active in keys && forall id | id in keys ::
      && 1 <= |id| <= 64
      && forall b | b in id ::
        || '0' <= b as char <= '9' || 'A' <= b as char <= 'Z' || 'a' <= b as char <= 'z'
        || b as char == '-' || b as char == '_' || b as char == '.'
  {
    if !ValidKeyId(active) || active !in keys || exists id | id in keys :: !ValidKeyId(id)
    then Err(InvalidKey)
    else Ok(SecretBox(active, keys))
  }

  // ---------------------------------------------------------------- the two formats

  function Envelope(id: KeyId, nonce: Bytes, sealed: Bytes): Bytes
    requires |id| < 256
  {
    MAGIC + [VERSION, |id| as byte] + id + nonce + sealed
  }

  datatype Parts = Parts(id: KeyId, nonce: Bytes, sealed: Bytes)

  predicate StartsWithMagic(bytes: Bytes) {
    MAGIC <= bytes
  }

  /** The slicing in `decrypt`, each slice checked for being in range. */
  function Parse(c: Cipher, bytes: Bytes): Result<Parts> {
    if StartsWithMagic(bytes) then
      if |bytes| <= 4 || bytes[4] != VERSION || |bytes| <= 5 then Err(DecryptFailed)
      else
        var keyEnd := 6 + bytes[5] as nat;
        var nonceEnd := keyEnd + NONCE_BYTES;
        if |bytes| < keyEnd || !c.isText(bytes[6..keyEnd]) || |bytes| < nonceEnd then Err(DecryptFailed)
        else Ok(Parts(bytes[6..keyEnd], bytes[keyEnd..nonceEnd], bytes[nonceEnd..]))
    else if |bytes| < NONCE_BYTES then Err(DecryptFailed)
    else Ok(Parts(LEGACY_KEY_ID, bytes[..NONCE_BYTES], bytes[NONCE_BYTES..]))
  }

  function Decrypt(c: Cipher, box: SecretBox, aad: Bytes, bytes: Bytes): Result<Bytes> {
    var parts := Parse(c, bytes);
    if parts.Err? then Err(parts.error)
    else if parts.value.id !in box.keys then Err(UnknownKey)
    else
      var message := c.open(box.keys[parts.value.id], parts.value.nonce, aad, parts.value.sealed);
      if message.None? then Err(DecryptFailed) else Ok(message.value)
  }

  /** `encrypt`, with the random nonce it drew. */
  method Encrypt(c: Cipher, box: SecretBox, nonce: Bytes, aad: Bytes, plaintext: Bytes) returns (r: Result<Bytes>)
    requires |nonce| == NONCE_BYTES
    ensures ValidBox(box) ==> r == Ok(Encrypted(c, box, nonce, aad, plaintext))
    ensures r == Err(UnknownKey) <==> box.active !in box.keys
    ensures ValidBox(box) ==>
      var bytes, end := r.value, 6 + |box.active|;
      && |bytes| >= end + 12 && bytes[..5] == [0x50, 0x44, 0x4f, 0x43, 2] && bytes[5] as int == |box.active|
      && bytes[6..end] == box.active && bytes[end..end + 12] == nonce
      && bytes[end + 12..] == c.seal(box.keys[box.active], nonce, aad, plaintext)
  {
    if box.active !in box.keys { return Err(UnknownKey); }
    var id := box.active;
    if |id| > 255 { return Err(EncryptFailed); }
    var sealed := c.seal(box.keys[id], nonce, aad, plaintext);
    var bytes := MAGIC;
    bytes := bytes + [VERSION];
    bytes := bytes + [|id| as byte];
    bytes := bytes + id;
    bytes := bytes + nonce;
    bytes := bytes + sealed;
    assert MAGIC + [VERSION] + [|id| as byte] == MAGIC + [VERSION, |id| as byte];
    if ValidBox(box) { EnvelopeLayout(id, nonce, sealed); }
    r := Ok(bytes);
  }

  lemma EnvelopeLayout(id: KeyId, nonce: Bytes, sealed: Bytes)
    requires |id| < 256 && |nonce| == NONCE_BYTES
    ensures var bytes, end := Envelope(id, nonce, sealed), 6 + |id|;
      && |bytes| >= end + 12 && bytes[..5] == [0x50, 0x44, 0x4f, 0x43, 2] && bytes[5] as int == |id|
      && bytes[6..end] == id && bytes[end..end + 12] == nonce && bytes[end + 12..] == sealed
  {
  }

  function Encrypted(c: Cipher, box: SecretBox, nonce: Bytes, aad: Bytes, plaintext: Bytes): Bytes
    requires ValidBox(box)
  {
    Envelope(box.active, nonce, c.seal(box.keys[box.active], nonce, aad, plaintext))
  }

  // ---------------------------------------------------------------- round trips

  lemma ParseEnvelope(c: Cipher, id: KeyId, nonce: Bytes, sealed: Bytes)
    requires |id| < 256 && |nonce| == NONCE_BYTES && c.isText(id)
    ensures Parse(c, Envelope(id, nonce, sealed)) == Ok(Parts(id, nonce, sealed))
  {
    var bytes := Envelope(id, nonce, sealed);
    var keyEnd := 6 + |id|;
    assert bytes[..4] == MAGIC;
    assert bytes[6..keyEnd] == id;
    assert bytes[keyEnd..keyEnd + NONCE_BYTES] == nonce;
    assert bytes[keyEnd + NONCE_BYTES..] == sealed;
  }

  /** Whatever was sealed under a key stays readable in every keyring that keeps it. */
  lemma DecryptUndoesEncrypt(c: Cipher, box: SecretBox, later: SecretBox, nonce: Bytes, aad: Bytes, plaintext: Bytes)
    requires Lawful(c) && ValidBox(box) && |nonce| == NONCE_BYTES
    requires box.active in later.keys && later.keys[box.active] == box.keys[box.active]
    ensures Decrypt(c, later, aad, Encrypted(c, box, nonce, aad, plaintext)) == Ok(plaintext)
  {
    assert ValidKeyId(box.active);
    ParseEnvelope(c, box.active, nonce, c.seal(box.keys[box.active], nonce, aad, plaintext));
  }

  /** The older format, which names no key. */
  function Legacy(c: Cipher, key: Key, nonce: Bytes, aad: Bytes, plaintext: Bytes): Bytes {
    nonce + c.seal(key, nonce, aad, plaintext)
  }

  /** A legacy ciphertext is read back exactly when its random nonce does not happen to
      begin with the magic bytes of the newer format. */
  lemma LegacyReadableIff(c: Cipher, box: SecretBox, nonce: Bytes, aad: Bytes, plaintext: Bytes)
    requires Lawful(c) && LEGACY_KEY_ID in box.keys && |nonce| == NONCE_BYTES
    ensures Decrypt(c, box, aad, Legacy(c, box.keys[LEGACY_KEY_ID], nonce, aad, plaintext)) == Ok(plaintext)
       <==> !StartsWithMagic(nonce)
  {
    var bytes := Legacy(c, box.keys[LEGACY_KEY_ID], nonce, aad, plaintext);
    assert bytes[..NONCE_BYTES] == nonce;
    assert bytes[NONCE_BYTES..] == c.seal(box.keys[LEGACY_KEY_ID], nonce, aad, plaintext);
    assert StartsWithMagic(nonce) <==> StartsWithMagic(bytes) by {
      assert bytes[..4] == nonce[..4];
    }
    if StartsWithMagic(nonce) && Decrypt(c, box, aad, bytes).Ok? {
      MisreadIsShorter(c, box, aad, bytes);
    }
  }

  /** What opens as the newer format holds at least 34 bytes more than its plaintext. */
  lemma MisreadIsShorter(c: Cipher, box: SecretBox, aad: Bytes, bytes: Bytes)
    requires Lawful(c) && StartsWithMagic(bytes) && Decrypt(c, box, aad, bytes).Ok?
    ensures |Decrypt(c, box, aad, bytes).value| + 6 + NONCE_BYTES + TAG_BYTES <= |bytes|
  {
    var parts := Parse(c, bytes).value;
    assert c.open(box.keys[parts.id], parts.nonce, aad, parts.sealed).Some?;
  }

  // ---------------------------------------------------------------- rewrapping

  /** `rewrap_payload`. */
  method RewrapPayload(c: Cipher, box: SecretBox, nonce: Bytes, aad: Bytes, bytes: Bytes) returns (r: Option<Bytes>)
    requires Lawful(c) && ValidBox(box) && |nonce| == NONCE_BYTES
    ensures r.Some? <==> Decrypt(c, box, aad, bytes).Ok?
    ensures r.Some? ==> Rewraps(c, box, aad, bytes, r.value)
  {
    var plaintext := Decrypt(c, box, aad, bytes);
    if plaintext.Err? { return None; }
    var sealed := Encrypt(c, box, nonce, aad, plaintext.value);
    DecryptUndoesEncrypt(c, box, box, nonce, aad, plaintext.value);
    NamesActiveKey(c, box, nonce, aad, plaintext.value);
    r := Some(sealed.value);
  }

  /** The replacement says what the original said and names the active key, to the
      decrypter and to the database alike. */
  predicate Rewraps(c: Cipher, box: SecretBox, aad: Bytes, bytes: Bytes, replacement: Bytes) {
    && Decrypt(c, box, aad, bytes).Ok?
    && Decrypt(c, box, aad, replacement) == Decrypt(c, box, aad, bytes)
    && Parse(c, replacement).Ok? && Parse(c, replacement).value.id == box.active
    && StoredKeyId(replacement) == Ok(box.active)
  }

  /** The database's own reading of a ciphertext, `document_ciphertext_key_id`. */
  function StoredKeyId(bytes: Bytes): Result<KeyId> {
    if |bytes| >= 18 && bytes[..4] == MAGIC && bytes[4] == VERSION then
      var length := bytes[5] as nat;
      if length < 1 || length > 64 || |bytes| < 18 + length then Err(DecryptFailed)
      else if !ValidKeyId(bytes[6..6 + length]) then Err(InvalidKey)
      else Ok(bytes[6..6 + length])
    else Ok(LEGACY_KEY_ID)
  }

  lemma NamesActiveKey(c: Cipher, box: SecretBox, nonce: Bytes, aad: Bytes, plaintext: Bytes)
    requires Lawful(c) && ValidBox(box) && |nonce| == NONCE_BYTES
    ensures var bytes := Encrypted(c, box, nonce, aad, plaintext);
      Parse(c, bytes).Ok? && Parse(c, bytes).value.id == box.active && StoredKeyId(bytes) == Ok(box.active)
  {
    assert ValidKeyId(box.active);
    var sealed := c.seal(box.keys[box.active], nonce, aad, plaintext);
    ParseEnvelope(c, box.active, nonce, sealed);
    var bytes := Envelope(box.active, nonce, sealed);
    assert bytes[..4] == MAGIC;
    assert bytes[6..6 + |box.active|] == box.active;
  }

  /** The key that decryption uses is the one the database counts the ciphertext under. */
  lemma KeyIdsAgree(c: Cipher, bytes: Bytes)
    requires Parse(c, bytes).Ok? && ValidKeyId(Parse(c, bytes).value.id)
    ensures StoredKeyId(bytes) == Ok(Parse(c, bytes).value.id)
  {
    assert StartsWithMagic(bytes) <==> |bytes| >= 4 && bytes[..4] == MAGIC;
  }

  /** A key that the database counts no reference to can be dropped: every ciphertext it
      does not count under that key decrypts, or fails, as before. */
  lemma UnreferencedKeyIsSafeToDrop(c: Cipher, box: SecretBox, dropped: KeyId, aad: Bytes, bytes: Bytes)
    requires ValidBox(box) && ValidKeyId(dropped) && StoredKeyId(bytes) != Ok(dropped)
    ensures Decrypt(c, box.(keys := box.keys - {dropped}), aad, bytes) == Decrypt(c, box, aad, bytes)
  {
    if Parse(c, bytes).Ok? && Parse(c, bytes).value.id == dropped {
      KeyIdsAgree(c, bytes);
    }
  }

  /** Bytes that the database counts under the legacy key and that no keyring reads, so
      that no rewrap ever replaces them: too short, or the magic with another version. */
  lemma CountedButUnreadable(c: Cipher, bytes: Bytes)
    requires Lawful(c)
    ensures StoredKeyId(bytes) == Ok(LEGACY_KEY_ID) && Parse(c, bytes).Err?
       <==> |bytes| < (if StartsWithMagic(bytes) then 6 + NONCE_BYTES else NONCE_BYTES) ||
            (StartsWithMagic(bytes) && bytes[4] != VERSION)
  {
    assert StartsWithMagic(bytes) <==> |bytes| >= 4 && bytes[..4] == MAGIC;
    if StoredKeyId(bytes).Ok? && StartsWithMagic(bytes) && |bytes| >= 18 && bytes[4] == VERSION {
      assert c.isText(StoredKeyId(bytes).value);
    }
  }

  /** The bytes after magic and version spell out the legacy key's id. */
  predicate NamesLegacyKey(bytes: Bytes)
    requires |bytes| >= 15
  {
    bytes[5] == 9 && bytes[6..15] == LEGACY_KEY_ID
  }

  /** A legacy ciphertext is counted under the legacy key unless it is taken for the newer
      format and names another key. */
  lemma LegacyCountedIff(c: Cipher, key: Key, nonce: Bytes, aad: Bytes, plaintext: Bytes)
    requires Lawful(c) && |nonce| == NONCE_BYTES
    ensures var bytes := Legacy(c, key, nonce, aad, plaintext);
      |bytes| >= NONCE_BYTES + TAG_BYTES &&
      (StoredKeyId(bytes) == Ok(LEGACY_KEY_ID) <==>
        !StartsWithMagic(nonce) || nonce[4] != VERSION || NamesLegacyKey(bytes))
  {
    var bytes := Legacy(c, key, nonce, aad, plaintext);
    assert bytes[..4] == nonce[..4];
    assert StartsWithMagic(nonce) <==> nonce[..4] == MAGIC;
    assert bytes[4] == nonce[4];
  }

  /** A legacy ciphertext is counted under the legacy key and yet not read back if and only
      if its nonce begins with the magic bytes and either another version follows or the
      bytes happen to name the legacy key. */
  lemma LegacyCountedButUnreadableIff(c: Cipher, box: SecretBox, nonce: Bytes, aad: Bytes, plaintext: Bytes)
    requires Lawful(c) && LEGACY_KEY_ID in box.keys && |nonce| == NONCE_BYTES
    ensures var bytes := Legacy(c, box.keys[LEGACY_KEY_ID], nonce, aad, plaintext);
      |bytes| >= NONCE_BYTES + TAG_BYTES &&
      (StoredKeyId(bytes) == Ok(LEGACY_KEY_ID) && Decrypt(c, box, aad, bytes) != Ok(plaintext) <==>
        StartsWithMagic(nonce) && (nonce[4] != VERSION || NamesLegacyKey(bytes)))
  {
    LegacyReadableIff(c, box, nonce, aad, plaintext);
    LegacyCountedIff(c, box.keys[LEGACY_KEY_ID], nonce, aad, plaintext);
  }
}
