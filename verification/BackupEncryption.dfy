/**
 * The encrypted backup container: chunked streaming over files whose reads and writes may be short.
 * Models the encryption of packages/cli/src/backups.ts over an abstract authenticated stream cipher:
 * sections 7.1 and 7.2 of NIST SP 800-38D with an arbitrary key stream and tag function.
 */
module BackupEncryption {
  import opened Wrappers
  import opened Sorting

  type Bytes = seq<bv8>

  /** The cipher, its key derivation included: one key stream byte per position and a tag of the ciphertext. */
  datatype Cipher = Cipher(stream: (string, Bytes, Bytes, nat) -> bv8, tag: (string, Bytes, Bytes, Bytes) -> Bytes)

  ghost predicate ValidCipher(cipher: Cipher) {
    forall password, salt, iv, text :: |cipher.tag(password, salt, iv, text)| == 16
  }

  const MAGIC: Bytes := [0x51, 0x55, 0x42, 0x49, 0x43, 0x4C, 0x31, 0x00]
  const HEADER_BYTES := 36
  const TAG_BYTES := 16
  const CHUNK := 0x10_0000

  // ----- the container -----

  /** Both directions of the counter mode: each byte masked by the key stream at its position. */
  function Masked(cipher: Cipher, password: string, salt: Bytes, iv: Bytes, text: Bytes): (r: Bytes)
    ensures |r| == |text|
    ensures forall i :: 0 <= i < |text| ==> r[i] == text[i] ^ cipher.stream(password, salt, iv, i)
  {
    seq(|text|, i requires 0 <= i < |text| => text[i] ^ cipher.stream(password, salt, iv, i))
  }

  function Sealed(cipher: Cipher, password: string, salt: Bytes, iv: Bytes, plain: Bytes): Bytes {
    var text := Masked(cipher, password, salt, iv, plain);
    MAGIC + salt + iv + text + cipher.tag(password, salt, iv, text)
  }

  /** What decryption accepts, and what it makes of it. */
  function Opened(cipher: Cipher, password: string, file: Bytes): Option<Bytes> {
    if |file| < HEADER_BYTES + TAG_BYTES || file[..8] != MAGIC then None
    else
      var salt, iv, text, tag :=
        file[8..24], file[24..HEADER_BYTES], file[HEADER_BYTES..|file| - TAG_BYTES], file[|file| - TAG_BYTES..];
      if cipher.tag(password, salt, iv, text) != tag then None
      else Some(Masked(cipher, password, salt, iv, text))
  }

  lemma MaskedTwice(cipher: Cipher, password: string, salt: Bytes, iv: Bytes, text: Bytes)
    ensures Masked(cipher, password, salt, iv, Masked(cipher, password, salt, iv, text)) == text
  {
    var once := Masked(cipher, password, salt, iv, text);
    var twice := Masked(cipher, password, salt, iv, once);
    forall i | 0 <= i < |text|
      ensures twice[i] == text[i]
    {
      XorTwice(text[i], cipher.stream(password, salt, iv, i));
    }
  }

  lemma XorTwice(a: bv8, k: bv8)
    ensures (a ^ k) ^ k == a
  {
  }

  /** A container is 52 bytes longer than its contents, and its parts are where decryption looks for them. */
  lemma SealedParts(cipher: Cipher, password: string, salt: Bytes, iv: Bytes, plain: Bytes)
    requires ValidCipher(cipher) && |salt| == 16 && |iv| == 12
    ensures var file := Sealed(cipher, password, salt, iv, plain);
            var text := Masked(cipher, password, salt, iv, plain);
            && |file| == |plain| + 52
            && file[..8] == MAGIC && file[8..24] == salt && file[24..36] == iv
            && file[36..|file| - 16] == text && file[|file| - 16..] == cipher.tag(password, salt, iv, text)
  {
  }

  /** Opening yields exactly what was sealed, and only sealed containers open. */
  lemma OpensIffSealed(cipher: Cipher, password: string, file: Bytes, plain: Bytes)
    requires ValidCipher(cipher)
    ensures Opened(cipher, password, file) == Some(plain)
        <==> exists salt, iv :: |salt| == 16 && |iv| == 12 && file == Sealed(cipher, password, salt, iv, plain)
  {
    if Opened(cipher, password, file) == Some(plain) {
      var salt, iv, text := file[8..24], file[24..36], file[36..|file| - 16];
      MaskedTwice(cipher, password, salt, iv, text);
      assert file == file[..8] + file[8..24] + file[24..36] + file[36..|file| - 16] + file[|file| - 16..];
      assert file == Sealed(cipher, password, salt, iv, plain);
    }
    if exists salt, iv :: |salt| == 16 && |iv| == 12 && file == Sealed(cipher, password, salt, iv, plain) {
      var salt, iv :| |salt| == 16 && |iv| == 12 && file == Sealed(cipher, password, salt, iv, plain);
      SealedParts(cipher, password, salt, iv, plain);
      MaskedTwice(cipher, password, salt, iv, plain);
    }
  }

  // ----- file handles -----

  /** An open file; when `progressing`, every read and write moves at least one byte if it can. */
  class Handle {
    var data: Bytes
    const progressing: bool

    constructor (data: Bytes, progressing: bool)
      ensures this.data == data && this.progressing == progressing
    {
      this.data, this.progressing := data, progressing;
    }

    method Read(length: nat, position: nat) returns (bytes: Bytes)
      requires position <= |data|
      ensures |bytes| <= length && position + |bytes| <= |data| && bytes == data[position..position + |bytes|]
      ensures progressing && length > 0 && position < |data| ==> bytes != []
    {
      var n: int := *;
      var most := if length < |data| - position then length else |data| - position;
      var count := if 0 <= n <= most then n else most;
      if progressing && count == 0 && most > 0 { count := 1; }
      bytes := data[position..position + count];
    }

    /** Appending at the current end, which is the only place this code writes. */
    method Write(bytes: Bytes, position: nat) returns (count: nat)
      requires position == |data|
      modifies this`data
      ensures count <= |bytes| && data == old(data) + bytes[..count]
      ensures progressing && bytes != [] ==> count > 0
    {
      var n: int := *;
      count := if 0 <= n <= |bytes| then n else |bytes|;
      if progressing && count == 0 && bytes != [] { count := 1; }
      data := data + bytes[..count];
    }
  }

  /** writeAllHandle */
  method WriteAll(handle: Handle, bytes: Bytes, position: nat) returns (ok: bool)
    requires position == |handle.data|
    modifies handle`data
    ensures ok ==> handle.data == old(handle.data) + bytes
    ensures old(handle.data) <= handle.data
    ensures handle.progressing ==> ok
  {
    var offset := 0;
    while offset < |bytes|
      invariant offset <= |bytes| && handle.data == old(handle.data) + bytes[..offset]
    {
      var count := handle.Write(bytes[offset..], position + offset);
      if count == 0 { return false; }
      assert bytes[..offset + count] == bytes[..offset] + bytes[offset..][..count];
      offset := offset + count;
    }
    assert bytes[..offset] == bytes;
    return true;
  }

  lemma SlicesJoin(data: Bytes, i: nat, j: nat, k: nat)
    requires i <= j <= k <= |data|
    ensures data[i..j] + data[j..k] == data[i..k]
  {
  }

  /** readAllHandle */
  method ReadAll(handle: Handle, length: nat, position: nat) returns (ok: bool, bytes: Bytes)
    requires position + length <= |handle.data|
    ensures ok ==> bytes == handle.data[position..position + length]
    ensures handle.progressing ==> ok
  {
    bytes := [];
    while |bytes| < length
      invariant |bytes| <= length && bytes == handle.data[position..position + |bytes|]
    {
      var more := handle.Read(length - |bytes|, position + |bytes|);
      if more == [] { return false, bytes; }
      SlicesJoin(handle.data, position, position + |bytes|, position + |bytes| + |more|);
      bytes := bytes + more;
    }
    return true, bytes;
  }

  // ----- the streaming cipher -----

  /** A cipher or decipher object; it may hold bytes back until more input or `final` arrives. */
  class Stream {
    const cipher: Cipher
    const password: string
    const salt: Bytes
    const iv: Bytes
    var consumed: Bytes
    var emitted: nat

    constructor (cipher: Cipher, password: string, salt: Bytes, iv: Bytes)
      ensures Valid() && consumed == [] && emitted == 0
      ensures this.cipher == cipher && this.password == password && this.salt == salt && this.iv == iv
    {
      this.cipher, this.password, this.salt, this.iv, consumed, emitted := cipher, password, salt, iv, [], 0;
    }

    predicate Valid()
      reads this
    {
      emitted <= |consumed|
    }

    function Output(): (r: Bytes)
      reads this
      ensures |r| == |consumed|
    {
      Masked(cipher, password, salt, iv, consumed)
    }

    method Update(chunk: Bytes) returns (out: Bytes)
      requires Valid()
      modifies this
      ensures Valid() && consumed == old(consumed) + chunk
      ensures emitted == old(emitted) + |out| && out == Output()[old(emitted)..emitted]
    {
      consumed := consumed + chunk;
      var n: int := *;
      var upto := if emitted <= n <= |consumed| then n else |consumed|;
      out := Output()[emitted..upto];
      emitted := upto;
    }

    method Final() returns (out: Bytes)
      requires Valid()
      modifies this`emitted
      ensures emitted == |consumed| && out == Output()[old(emitted)..]
    {
      out := Output()[emitted..];
      emitted := |consumed|;
    }
  }

  lemma OutputExtends(cipher: Cipher, password: string, salt: Bytes, iv: Bytes, a: Bytes, b: Bytes, m: nat)
    requires a <= b && m <= |a|
    ensures Masked(cipher, password, salt, iv, a)[..m] == Masked(cipher, password, salt, iv, b)[..m]
  {
  }

  /** The copy loop of both directions: everything of `source` up to `end` goes through the stream. */
  method Pump(source: Handle, destination: Handle, stream: Stream, start: nat, end: nat, base: nat) returns (ok: bool)
    requires source != destination && stream.Valid() && stream.consumed == [] && stream.emitted == 0
    requires start <= end <= |source.data| && base == |destination.data|
    modifies destination`data, stream
    ensures stream.Valid()
    ensures ok ==> stream.consumed == source.data[start..end]
    ensures ok ==>
              destination.data
                  == old(destination.data)
                      + Masked(stream.cipher, stream.password, stream.salt, stream.iv, source.data[start..end])
    ensures source.progressing && destination.progressing ==> ok
  {
    var readOffset, writeOffset := start, base;
    while readOffset < end
      invariant start <= readOffset <= end && stream.Valid()
      invariant stream.consumed == source.data[start..readOffset]
      invariant destination.data == old(destination.data) + stream.Output()[..stream.emitted]
      invariant writeOffset == |destination.data|
    {
      var bytes := source.Read(if CHUNK < end - readOffset then CHUNK else end - readOffset, readOffset);
      if bytes == [] { return false; }
      ghost var before, sent, written := stream.consumed, stream.emitted, destination.data;
      SlicesJoin(source.data, start, readOffset, readOffset + |bytes|);
      var out := stream.Update(bytes);
      OutputExtends(stream.cipher, stream.password, stream.salt, stream.iv, before, stream.consumed, sent);
      SlicesJoin(stream.Output(), 0, sent, stream.emitted);
      ok := WriteAll(destination, out, writeOffset);
      if !ok { return; }
      Associates(old(destination.data), stream.Output()[..sent], out);
      readOffset := readOffset + |bytes|;
      writeOffset := writeOffset + |out|;
    }
    ghost var sent := stream.emitted;
    var rest := stream.Final();
    SlicesJoin(stream.Output(), 0, sent, |stream.Output()|);
    Associates(old(destination.data), stream.Output()[..sent], rest);
    ok := WriteAll(destination, rest, writeOffset);
  }

  // ----- encryption and decryption -----

  /** encryptBackupFile, into a new file; `salt` and `iv` are the random ones. */
  method EncryptBackupFile(source: Handle, destination: Handle, cipher: Cipher, password: string, salt: Bytes,
                           iv: Bytes)
    returns (ok: bool)
    requires source != destination && destination.data == [] && |salt| == 16 && |iv| == 12
    modifies destination`data
    ensures ok ==> destination.data == Sealed(cipher, password, salt, iv, source.data)
    ensures source.progressing && destination.progressing ==> ok
  {
    var stream := new Stream(cipher, password, salt, iv);
    var header := MAGIC + salt + iv;
    ok := WriteAll(destination, header, 0);
    if !ok { return; }
    ok := Pump(source, destination, stream, 0, |source.data|, HEADER_BYTES);
    if !ok { return; }
    assert source.data[0..|source.data|] == source.data;
    ghost var text := Masked(cipher, password, salt, iv, source.data);
    ok := WriteAll(destination, cipher.tag(password, salt, iv, stream.Output()), |destination.data|);
  }

  /** decryptBackupFile, into a new file; a wrong tag fails only after the plaintext was written. */
  method DecryptBackupFile(source: Handle, destination: Handle, cipher: Cipher, password: string) returns (ok: bool)
    requires ValidCipher(cipher) && source != destination && destination.data == []
    modifies destination`data
    ensures ok ==> Opened(cipher, password, source.data) == Some(destination.data)
    ensures source.progressing && destination.progressing ==> (ok <==> Opened(cipher, password, source.data).Some?)
  {
    var size := |source.data|;
    if size < HEADER_BYTES + TAG_BYTES { return false; }
    var header, tag;
    ok, header := ReadAll(source, HEADER_BYTES, 0);
    if !ok { return; }
    assert header == source.data[..36] && header[..8] == source.data[..8];
    if header[..8] != MAGIC { return false; }
    var salt, iv := header[8..24], header[24..36];
    assert salt == source.data[8..24] && iv == source.data[24..36];
    ok, tag := ReadAll(source, TAG_BYTES, size - TAG_BYTES);
    if !ok { return; }
    assert source.data[size - TAG_BYTES..size] == source.data[size - TAG_BYTES..];
    var stream := new Stream(cipher, password, salt, iv);
    ok := Pump(source, destination, stream, HEADER_BYTES, size - TAG_BYTES, 0);
    if !ok { return; }
    assert [] + Masked(cipher, password, salt, iv, stream.consumed)
             == Masked(cipher, password, salt, iv, stream.consumed);
    ok := cipher.tag(password, salt, iv, stream.consumed) == tag;
  }

  /** For every plaintext and every pattern of short reads and writes, decryption undoes encryption. */
  method RoundTrip(source: Handle, container: Handle, restored: Handle, cipher: Cipher, password: string, salt: Bytes,
                   iv: Bytes)
    returns (ok: bool)
    requires ValidCipher(cipher) && |salt| == 16 && |iv| == 12
    requires source != container && container != restored && source != restored
    requires container.data == [] && restored.data == []
    modifies container`data, restored`data
    ensures ok ==> restored.data == source.data && |container.data| == |source.data| + 52
    ensures source.progressing && container.progressing && restored.progressing ==> ok
  {
    ok := EncryptBackupFile(source, container, cipher, password, salt, iv);
    if !ok { return; }
    SealedParts(cipher, password, salt, iv, source.data);
    OpensIffSealed(cipher, password, container.data, source.data);
    ok := DecryptBackupFile(container, restored, cipher, password);
  }
}
