/** X25519/x25519.go: Exchange checks the key lengths, copies the keys into
    fixed-size arrays, converts them from Ed25519 to Curve25519 and multiplies.

    As written, the public key is copied into the PRIVATE-key array (the
    second copy), and the public-key array is never written: the private-key
    conversion is given the public key of B followed by the second half of
    A's private key, and the point is whatever the conversion makes of 32
    zero bytes. */
module X25519 {
  import opened Crypto

  const SeedSize := 32
  const PrivateKeySize := 64
  const PublicKeySize := 32

  /** ed25519 PrivateKey.Seed(): a copy of priv[:32]. Keys are values here,
      with no spare capacity, so the slice needs at least 32 bytes; whenever
      it succeeds it gives exactly 32 bytes. */
  function Seed(privateKey: Bytes): (seed: Bytes)
    requires SeedSize <= |privateKey|
    ensures |seed| == SeedSize
  {
    privateKey[..SeedSize]
  }

  /** What the 64-byte private-key array holds after the copies of lines 29
      and 36: Go's copy into an all-zero array, first of A's private key, then
      of B's public key. */
  function ScalarBuffer(privateKeyA: Bytes, publicKeyB: Bytes): (buffer: Bytes)
    ensures |buffer| == PrivateKeySize
  {
    Copied(Copied(Zeros(PrivateKeySize), privateKeyA), publicKeyB)
  }

  /** The outcome of Exchange(privateKeyA, publicKeyB). The private-key check
      of line 25 never fires: a key that does not make Seed() panic has a
      32-byte seed, so the only error is a public key of the wrong length.
      A key shorter than 32 bytes is taken to make Seed() panic (a key with
      no capacity beyond its length). */
  function ExchangeOutcome(lib: Library, privateKeyA: Bytes, publicKeyB: Bytes): (r: Result<Bytes>)
    ensures r.Panic? <==> |privateKeyA| < SeedSize
    ensures r.Ok? <==> SeedSize <= |privateKeyA| && |publicKeyB| == PublicKeySize
    ensures r.Err? ==> r.error == WrongPublicKeyLength
    ensures r.Ok? ==> |r.value| == 32
  {
    if |privateKeyA| < SeedSize then Panic
    else if |Seed(privateKeyA)| != SeedSize then Err(WrongPrivateKeyLength)
    else if |publicKeyB| != PublicKeySize then Err(WrongPublicKeyLength)
    else
      var scalar := lib.privateToCurve(ScalarBuffer(privateKeyA, publicKeyB));
      var point := lib.publicToCurve(Zeros(PublicKeySize));
      Ok(lib.scalarMult(scalar, point))
  }

  /** Go's built-in copy(dst[:], src); the count it returns is not used. */
  method Copy(dst: array<byte>, src: Bytes)
    modifies dst
    ensures dst[..] == Copied(old(dst[..]), src)
  {
    var n := Min(dst.Length, |src|);
    var i := 0;
    while i < n
      invariant 0 <= i <= n
      invariant dst[..i] == src[..i]
      invariant dst[i..] == old(dst[i..])
    {
      dst[i] := src[i];
      i := i + 1;
    }
    assert dst[..] == dst[..n] + dst[n..];
  }

  /** extra25519.PrivateKeyToCurve25519(&curvePrivate, &privateKey). */
  method PrivateKeyToCurve25519(lib: Library, curvePrivate: array<byte>, privateKey: array<byte>)
    requires curvePrivate.Length == 32 && privateKey.Length == PrivateKeySize
    modifies curvePrivate
    ensures curvePrivate[..] == lib.privateToCurve(old(privateKey[..]))
  {
    var converted := lib.privateToCurve(privateKey[..]);
    forall i | 0 <= i < 32 {
      curvePrivate[i] := converted[i];
    }
  }

  /** extra25519.PublicKeyToCurve25519(&curvePublic, &publicKey); its boolean
      result is ignored at line 40. */
  method PublicKeyToCurve25519(lib: Library, curvePublic: array<byte>, publicKey: array<byte>)
    requires curvePublic.Length == 32 && publicKey.Length == PublicKeySize
    requires curvePublic[..] == Zeros(32)
    modifies curvePublic
    ensures curvePublic[..] == lib.publicToCurve(old(publicKey[..]))
  {
    var converted := lib.publicToCurve(publicKey[..]);
    forall i | 0 <= i < 32 {
      curvePublic[i] := converted[i];
    }
  }

  /** curve25519.ScalarMult(&result, &scalar, &point). */
  method ScalarMult(lib: Library, result: array<byte>, scalar: array<byte>, point: array<byte>)
    requires result.Length == 32 && scalar.Length == 32 && point.Length == 32
    modifies result
    ensures result[..] == lib.scalarMult(old(scalar[..]), old(point[..]))
  {
    var product := lib.scalarMult(scalar[..], point[..]);
    forall i | 0 <= i < 32 {
      result[i] := product[i];
    }
  }

  /** Exchange does the X25519 key exchange with the fixed-size arrays of
      x25519.go. Dafny cannot panic, so it requires the key that Seed() needs;
      on an error it returns the all-zero array with the error. */
  method Exchange(lib: Library, privateKeyA: Bytes, publicKeyB: Bytes) returns (shared: Bytes, err: Option<Error>)
    requires SeedSize <= |privateKeyA|
    ensures err.Some? ==> shared == Zeros(32)
    ensures ExchangeOutcome(lib, privateKeyA, publicKeyB)
         == if err.None? then Ok(shared) else Err(err.value)
  {
    var result := new byte[32](_ => 0);
    var priv := new byte[32](_ => 0);
    var pub := new byte[32](_ => 0);
    var privateKey := new byte[PrivateKeySize](_ => 0);
    var publicKey := new byte[PublicKeySize](_ => 0);
    var none := Zeros(32);
    assert publicKey[..] == Zeros(PublicKeySize);

    if |Seed(privateKeyA)| != SeedSize {
      return none, Some(WrongPrivateKeyLength);
    }
    Copy(privateKey, privateKeyA);

    if |publicKeyB| != PublicKeySize {
      return none, Some(WrongPublicKeyLength);
    }
    Copy(privateKey, publicKeyB);
    assert privateKey[..] == ScalarBuffer(privateKeyA, publicKeyB);

    PrivateKeyToCurve25519(lib, priv, privateKey);
    PublicKeyToCurve25519(lib, pub, publicKey);
    ScalarMult(lib, result, priv, pub);
    return result[..], None;
  }

  /** Bytes 32..63 of a private key as the copy of line 29 leaves them in
      the 64-byte array: cut off after byte 63, zero-filled when the key is
      shorter. */
  function KeyTail(privateKey: Bytes): (tail: Bytes)
    requires SeedSize <= |privateKey|
    ensures |tail| == PrivateKeySize - SeedSize
  {
    Copied(Zeros(PrivateKeySize - SeedSize), privateKey[SeedSize..])
  }

  /** For every private key Exchange accepts, the scalar array after the
      copies holds B's public key in bytes 0..31 and A's key tail after it;
      nothing of A's seed is left. For a 64-byte key the tail is the key's
      second half. */
  lemma ScalarBufferLayout(privateKeyA: Bytes, publicKeyB: Bytes)
    requires SeedSize <= |privateKeyA| && |publicKeyB| == PublicKeySize
    ensures ScalarBuffer(privateKeyA, publicKeyB) == publicKeyB + KeyTail(privateKeyA)
    ensures |privateKeyA| == PrivateKeySize ==> KeyTail(privateKeyA) == privateKeyA[SeedSize..]
  {
  }

  /** Two private keys with the same tail (an Ed25519 private key is seed
      followed by public key) give the same result against any public key:
      the secret seed of A does not take part in the exchange. */
  lemma ExchangeIgnoresSeed(lib: Library, privateKey1: Bytes, privateKey2: Bytes, publicKeyB: Bytes)
    requires SeedSize <= |privateKey1| && SeedSize <= |privateKey2|
    requires KeyTail(privateKey1) == KeyTail(privateKey2)
    ensures ExchangeOutcome(lib, privateKey1, publicKeyB) == ExchangeOutcome(lib, privateKey2, publicKeyB)
  {
    if |publicKeyB| == PublicKeySize {
      ScalarBufferLayout(privateKey1, publicKeyB);
      ScalarBufferLayout(privateKey2, publicKeyB);
    }
  }

  /** An Ed25519 key pair as ed25519.GenerateKey makes it: the private key is
      the seed followed by the public key derived from it. */
  ghost predicate IsKeyPair(lib: Library, privateKey: Bytes, publicKey: Bytes)
  {
    |privateKey| == PrivateKeySize && privateKey[SeedSize..] == publicKey
    && publicKey == lib.publicFromSeed(privateKey[..SeedSize])
  }

  /** The Diffie-Hellman shared value of my seed with the public key of their
      seed, computed the way X25519 is meant to be used. */
  function SharedPoint(lib: Library, mySeed: Bytes, theirSeed: Bytes): Bytes
  {
    lib.scalarMult(lib.privateToCurve(mySeed + lib.publicFromSeed(mySeed)),
                   lib.publicToCurve(lib.publicFromSeed(theirSeed)))
  }

  /** The law a real Diffie-Hellman library satisfies. */
  ghost predicate DiffieHellmanLaw(lib: Library)
  {
    forall seed1: Bytes, seed2: Bytes | |seed1| == SeedSize && |seed2| == SeedSize ::
      SharedPoint(lib, seed1, seed2) == SharedPoint(lib, seed2, seed1)
  }

  /** Byte-wise sum modulo 256: commutative, so it gives a toy library that
      obeys the Diffie-Hellman law. */
  function AddBytes(x: Bytes, y: Bytes): Block32
  {
    seq(32, i requires 0 <= i < 32 => (if i < |x| then x[i] else 0) + (if i < |y| then y[i] else 0))
  }

  function Prefix32(x: Bytes): Block32
  {
    if |x| >= 32 then x[..32] else Zeros(32)
  }

  /** Public key = seed, scalar = first 32 bytes of the private key, point =
      public key, scalar multiplication = byte-wise sum. */
  function AdditiveLibrary(): Library
  {
    Library(
      (key: Bytes, data: Bytes) => Zeros(32), (key: Bytes, data: Bytes) => Zeros(64),
      (secret: Bytes, salt: Bytes) => Zeros(32), (secret: Bytes, salt: Bytes) => Zeros(64),
      (prk: Bytes, info: Bytes) => Zeros(255 * 32), (prk: Bytes, info: Bytes) => Zeros(255 * 64),
      Prefix32, Prefix32, AddBytes, Prefix32)
  }

  /** The additive library is a genuine (if insecure) Diffie-Hellman library. */
  lemma AdditiveLibraryObeysLaw()
    ensures DiffieHellmanLaw(AdditiveLibrary())
  {
  }

  /** x25519_test.go:23-30 compares the exchanges of two generated key
      pairs. As written it passes the arguments in reverse, Exchange(&pub2,
      &priv1), which does not type-check: a *ed25519.PublicKey is not a
      *ed25519.PrivateKey. The evidently intended expectation is
      Exchange(priv1, pub2) == Exchange(priv2, pub1). Because of the copy of
      line 36 that does not follow even from a library that obeys the
      Diffie-Hellman law: with the additive library and the seeds 0...0 and
      1...1, the two results differ. */
  lemma ExchangeNotSymmetric()
    ensures exists lib: Library, privateKey1: Bytes, publicKey1: Bytes, privateKey2: Bytes, publicKey2: Bytes ::
      DiffieHellmanLaw(lib) && IsKeyPair(lib, privateKey1, publicKey1) && IsKeyPair(lib, privateKey2, publicKey2)
      && ExchangeOutcome(lib, privateKey1, publicKey2) != ExchangeOutcome(lib, privateKey2, publicKey1)
  {
    var lib := AdditiveLibrary();
    AdditiveLibraryObeysLaw();
    var seed1, seed2 := Zeros(32), seq(32, _ => 1);
    var privateKey1, privateKey2 := seed1 + seed1, seed2 + seed2;
    assert IsKeyPair(lib, privateKey1, seed1);
    assert IsKeyPair(lib, privateKey2, seed2);
    ScalarBufferLayout(privateKey1, seed2);
    ScalarBufferLayout(privateKey2, seed1);
    assert ExchangeOutcome(lib, privateKey1, seed2).value[0] == 1;
    assert ExchangeOutcome(lib, privateKey2, seed1).value[0] == 0;
  }
}
