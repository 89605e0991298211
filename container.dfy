/** The container format of crypt.py: a 104-byte header followed by the
    payload, both produced with the keystream generator. */
module Container {
  import opened Words
  import opened Keystream

  /** `MAGIC`: the 28 bytes "Encrypted program file.\r\n2\0\0". */
  const MAGIC: seq<byte> := [
    0x45, 0x6e, 0x63, 0x72, 0x79, 0x70, 0x74, 0x65, 0x64, 0x20,  // "Encrypted "
    0x70, 0x72, 0x6f, 0x67, 0x72, 0x61, 0x6d, 0x20,              // "program "
    0x66, 0x69, 0x6c, 0x65, 0x2e, 0x0d, 0x0a,                    // "file.\r\n"
    0x32, 0x00, 0x00                                             // "2\0\0"
  ]

  /** Length of the header: magic, padding up to offset 76, four zero bytes,
      the key-encryption-key and the wrapped payload key. */
  const HEADER_LEN: nat := 104

  /** The key-encryption-key, `bytes(12)`. */
  const KEK: seq<byte> := [0, 0, 0, 0, 0, 0, 0, 0, 0, 0, 0, 0]

  /** The four reserved zero bytes at offsets 76..79, `bytes(4)`. */
  const RESERVED: seq<byte> := [0, 0, 0, 0]

  /** The result of processing an input: the output bytes, or the failure of
      a magic-prefixed input too short to hold a header (where the source's
      `struct.unpack` raises). */
  datatype Outcome = Output(data: seq<byte>) | Malformed

  /** `fw.startswith(MAGIC)`. */
  predicate HasMagic(fw: seq<byte>) {
    |fw| >= |MAGIC| && fw[..|MAGIC|] == MAGIC
  }

  /** The decrypting branch: unwrap the payload key stored at 92..103 with
      the key-encryption-key stored at 80..91, then decrypt everything from
      offset 104 on with it. The padding and reserved bytes are ignored. */
  function Decrypt(fw: seq<byte>): (r: Outcome)
    ensures r.Malformed? <==> |fw| < HEADER_LEN
    ensures r.Output? ==> |r.data| == |fw| - HEADER_LEN
    ensures r.Output? ==> r.data == Crypt(Crypt(fw[80..92], fw[92..104]), fw[104..])
  {
    if |fw| < HEADER_LEN then Malformed
    else
      var key := Crypt(fw[80..92], fw[92..104]);
      Output(Crypt(key, fw[104..]))
  }

  /** A container assembled from its parts: the magic, the padding, the
      reserved bytes, the key-encryption-key, the wrapped key and the body,
      each found again at its offset. */
  function Assemble(pad: seq<byte>, wrapped: seq<byte>, body: seq<byte>): (fw: seq<byte>)
    requires |pad| == 76 - |MAGIC| && |wrapped| == 12
    ensures |fw| == HEADER_LEN + |body|
    ensures fw[..28] == MAGIC && fw[28..76] == pad && fw[76..80] == RESERVED
    ensures fw[80..92] == KEK && fw[92..104] == wrapped && fw[104..] == body
  {
    var fw := MAGIC + pad + RESERVED + KEK + wrapped + body;
    assert fw == MAGIC + (pad + (RESERVED + (KEK + (wrapped + body))));
    assert fw[..28] == MAGIC;
    assert fw[28..] == pad + (RESERVED + (KEK + (wrapped + body)));
    assert fw[28..][..48] == pad;
    assert fw[76..] == RESERVED + (KEK + (wrapped + body));
    assert fw[76..][..4] == RESERVED;
    assert fw[80..] == KEK + (wrapped + body);
    assert fw[80..][..12] == KEK;
    assert fw[92..] == wrapped + body;
    assert fw[92..][..12] == wrapped;
    fw
  }

  /** The encrypting branch, with the two `os.urandom` draws as parameters:
      `key` (12 bytes) encrypts the payload and is stored wrapped under the
      all-zero key-encryption-key; `pad` (48 bytes) fills the header from
      the end of the magic to offset 76. */
  function Encrypt(key: seq<byte>, pad: seq<byte>, payload: seq<byte>): seq<byte>
    requires |key| == 12 && |pad| == 76 - |MAGIC|
  {
    Assemble(pad, Crypt(KEK, key), Crypt(key, payload))
  }

  /** Where `Encrypt` puts things: the magic first, then the padding, the
      reserved zeros, the key-encryption-key, the payload key wrapped under
      it, and the payload encrypted under the payload key. */
  lemma EncryptLayout(key: seq<byte>, pad: seq<byte>, payload: seq<byte>)
    requires |key| == 12 && |pad| == 76 - |MAGIC|
    ensures var fw := Encrypt(key, pad, payload);
            |fw| == HEADER_LEN + |payload| && HasMagic(fw) && fw[28..76] == pad
            && fw[76..80] == RESERVED && fw[80..92] == KEK
            && fw[92..104] == Crypt(KEK, key) && fw[104..] == Crypt(key, payload)
  {
  }

  /** The reserved bytes and the stored key-encryption-key, offsets 76 to
      91 of every encrypted container, are all zero. */
  lemma HeaderZeros(key: seq<byte>, pad: seq<byte>, payload: seq<byte>)
    requires |key| == 12 && |pad| == 76 - |MAGIC|
    ensures forall i :: 76 <= i < 92 ==> Encrypt(key, pad, payload)[i] == 0
  {
    EncryptLayout(key, pad, payload);
    ZeroField(Encrypt(key, pad, payload));
  }

  /** A buffer holding `RESERVED` at 76..79 and `KEK` at 80..91 is zero there. */
  lemma ZeroField(fw: seq<byte>)
    requires |fw| >= 92 && fw[76..80] == RESERVED && fw[80..92] == KEK
    ensures forall i :: 76 <= i < 92 ==> fw[i] == 0
  {
    forall i | 76 <= i < 92 ensures fw[i] == 0 {
      if i < 80 {
        assert fw[i] == fw[76..80][i - 76];
      } else {
        assert fw[i] == fw[80..92][i - 80];
      }
    }
  }

  /** The whole transformation: magic-prefixed input is decrypted, anything
      else is encrypted. */
  function Process(fw: seq<byte>, key: seq<byte>, pad: seq<byte>): (r: Outcome)
    requires |key| == 12 && |pad| == 76 - |MAGIC|
    ensures HasMagic(fw) ==> r == Decrypt(fw)
    ensures !HasMagic(fw) ==> r == Output(Encrypt(key, pad, fw))
  {
    if HasMagic(fw) then Decrypt(fw) else Output(Encrypt(key, pad, fw))
  }

  /** What a caller of `Process` gets: a magic-prefixed input fails exactly
      when it is too short for a header and otherwise loses its header; any
      other input always succeeds, gains a header and comes out with the magic. */
  lemma ProcessShape(fw: seq<byte>, key: seq<byte>, pad: seq<byte>)
    requires |key| == 12 && |pad| == 76 - |MAGIC|
    ensures var r := Process(fw, key, pad);
            HasMagic(fw) ==> (r.Malformed? <==> |fw| < HEADER_LEN)
                             && (r.Output? ==> |r.data| == |fw| - HEADER_LEN)
    ensures var r := Process(fw, key, pad);
            !HasMagic(fw) ==> r.Output? && HasMagic(r.data) && |r.data| == HEADER_LEN + |fw|
  {
    if !HasMagic(fw) {
      EncryptLayout(key, pad, fw);
    }
  }

  /** The key stored in an encrypted container is recovered by decrypting the
      wrapped key at 92..103 under the key-encryption-key at 80..91. */
  lemma UnwrapKey(key: seq<byte>, pad: seq<byte>, payload: seq<byte>)
    requires |key| == 12 && |pad| == 76 - |MAGIC|
    ensures var fw := Encrypt(key, pad, payload);
            Crypt(fw[80..92], fw[92..104]) == key
  {
    EncryptLayout(key, pad, payload);
    CryptInvolution(KEK, key);
  }

  /** Decrypting an encrypted container gives back exactly the payload. */
  lemma RoundTrip(key: seq<byte>, pad: seq<byte>, payload: seq<byte>)
    requires |key| == 12 && |pad| == 76 - |MAGIC|
    ensures Decrypt(Encrypt(key, pad, payload)) == Output(payload)
  {
    EncryptLayout(key, pad, payload);
    UnwrapKey(key, pad, payload);
    CryptInvolution(key, payload);
  }

  /** Processing a file twice gives the original back: the first pass
      encrypts it (it lacks the magic), the second recognises the magic and
      decrypts, whatever key and padding the second pass would have drawn. */
  lemma ProcessTwice(fw: seq<byte>, key: seq<byte>, pad: seq<byte>, key2: seq<byte>, pad2: seq<byte>)
    requires |key| == 12 && |pad| == 76 - |MAGIC|
    requires |key2| == 12 && |pad2| == 76 - |MAGIC|
    requires !HasMagic(fw)
    ensures Process(fw, key, pad).Output?
    ensures Process(Process(fw, key, pad).data, key2, pad2) == Output(fw)
  {
    var ct := Encrypt(key, pad, fw);
    assert Process(fw, key, pad) == Output(ct);
    EncryptLayout(key, pad, fw);
    RoundTrip(key, pad, fw);
    assert Process(ct, key2, pad2) == Decrypt(ct);
  }

  /** The transformation run the way the source runs it, with fresh
      `Crypter` objects: it agrees with `Process`. */
  method Transform(fw: seq<byte>, key: seq<byte>, pad: seq<byte>) returns (r: Outcome)
    requires |key| == 12 && |pad| == 76 - |MAGIC|
    ensures r == Process(fw, key, pad)
  {
    if HasMagic(fw) {
      if |fw| < HEADER_LEN {
        return Malformed;
      }
      var c := new Crypter(fw[80..92]);
      var payloadKey := c.Crypt(fw[92..104]);
      c := new Crypter(payloadKey);
      var plain := c.Crypt(fw[104..]);
      r := Output(plain);
    } else {
      var body := new Crypter(key);
      var cipher := body.Crypt(fw);
      var hdr := MAGIC + pad + RESERVED + KEK;
      var wrap := new Crypter(KEK);
      var wrapped := wrap.Crypt(key);
      hdr := hdr + wrapped;
      r := Output(hdr + cipher);
    }
  }
}
