/** Bytes, hash selection, error kinds and the cryptographic library that the
    wrappers call. The library's internals (SHA3, HMAC, HKDF, the Ed25519 to
    Curve25519 conversions, X25519 scalar multiplication) are not modelled:
    each primitive is a function value whose type states only the length of
    what it returns. */
module Crypto {

  type byte = bv8
  type Bytes = seq<byte>

  /** A freshly made Go byte slice or array: every byte is zero. */
  function Zeros(n: nat): (z: Bytes)
    ensures |z| == n
    ensures forall i | 0 <= i < n :: z[i] == 0
  {
    seq(n, _ => 0)
  }

  function Min(a: int, b: int): int
  {
    if a <= b then a else b
  }

  /** What Go's built-in copy(dst, src) leaves in dst: the first
      min(len(dst), len(src)) bytes come from src, the rest of dst is kept. */
  function Copied(dst: Bytes, src: Bytes): (r: Bytes)
    ensures |r| == |dst|
    ensures forall i | 0 <= i < |dst| :: r[i] == if i < |src| then src[i] else dst[i]
  {
    var n := Min(|dst|, |src|);
    src[..n] + dst[n..]
  }

  datatype Option<T> = None | Some(value: T)

  /** The two hash functions the wrappers offer; both are SHA-3 (FIPS 202). */
  datatype Hash = Sha3_256 | Sha3_512
  {
    function DigestSize(): nat
    {
      if Sha3_256? then 32 else 64
    }

    /** The most output HKDF-Expand can produce (section 2.3 of RFC 5869). */
    function MaxExpansion(): nat
    {
      255 * DigestSize()
    }
  }

  /** The hash-name switch of HKDF.Derivate and HMAC.HMAC: "SHA512" and
      "SHA256" name SHA3-512 and SHA3-256; every other name is rejected. */
  function HashFromName(name: string): Option<Hash>
  {
    if name == "SHA512" then Some(Sha3_512)
    else if name == "SHA256" then Some(Sha3_256)
    else None
  }

  /** Error kinds. The message strings are not modelled; a wrapping error keeps
      the error it wraps as its cause. */
  datatype Error =
    | UnsupportedHash                     // hash name other than SHA256/SHA512
    | DerivationFailed                    // the HKDF reader could not fill the key
    | WrongPrivateKeyLength               // X25519: seed is not 32 bytes
    | WrongPublicKeyLength                // X25519: public key is not 32 bytes
    | OddLength                           // ratchet: requested length is odd
    | KeyLengthMismatch                   // ratchet: input key length differs from the length
    | KeyExchangeFailed(cause: Error)
    | RootKeyDerivationFailed(cause: Error)
    | ChainKeyDerivationFailed(cause: Error)
    | NextRootKeyLengthMismatch
    | NextChainKeyLengthMismatch
    | ChainKeyMacFailed(cause: Error)
    | MessageKeyMacFailed(cause: Error)
    | MessageKeyDerivationFailed(cause: Error)
    | MessageKeyLengthMismatch
    | EndOfFunction                       // X3DH: the error every completed run returns

  /** The outcome of a Go call: its results with a nil error, a non-nil error
      with nil/zero results, or a run-time panic (a slice out of range), which
      returns nothing and unwinds every caller. */
  datatype Result<T> = Ok(value: T) | Err(error: Error) | Panic

  /** Byte strings of a fixed length: a [32]byte or [64]byte array, and the
      whole keystream an HKDF reader can hand out (255 digests). */
  type Block32 = s: Bytes | |s| == 32 witness Zeros(32)
  type Block64 = s: Bytes | |s| == 64 witness Zeros(64)
  type Stream256 = s: Bytes | |s| == 255 * 32 witness Zeros(255 * 32)
  type Stream512 = s: Bytes | |s| == 255 * 64 witness Zeros(255 * 64)

  /** The cryptographic library the wrappers call. Each primitive is opaque;
      its type says only how long its result is. */
  datatype Library = Library(
    // HMAC (RFC 2104) over SHA3-256 and SHA3-512: (key, data) to tag
    hmac256: (Bytes, Bytes) -> Block32,
    hmac512: (Bytes, Bytes) -> Block64,
    // HKDF-Extract (section 2.2 of RFC 5869): (secret, salt) to pseudorandom key
    extract256: (Bytes, Bytes) -> Block32,
    extract512: (Bytes, Bytes) -> Block64,
    // HKDF-Expand (section 2.3 of RFC 5869): (pseudorandom key, info) to keystream
    expand256: (Bytes, Bytes) -> Stream256,
    expand512: (Bytes, Bytes) -> Stream512,
    // extra25519.PrivateKeyToCurve25519: [64]byte Ed25519 private key to [32]byte scalar
    privateToCurve: Bytes -> Block32,
    // extra25519.PublicKeyToCurve25519: the [32]byte it leaves in its all-zero
    // output array (which it does not write when it rejects the point)
    publicToCurve: Bytes -> Block32,
    // curve25519.ScalarMult: (scalar, point) to [32]byte
    scalarMult: (Bytes, Bytes) -> Block32,
    // Ed25519 key generation: the public key of a 32-byte seed
    publicFromSeed: Bytes -> Block32
  )
  {
    /** HMAC over the selected hash; the tag has the digest size. */
    function Hmac(hash: Hash, key: Bytes, data: Bytes): (tag: Bytes)
      ensures |tag| == hash.DigestSize()
    {
      if hash.Sha3_256? then hmac256(key, data) else hmac512(key, data)
    }

    /** HKDF-Extract over the selected hash. */
    function Extract(hash: Hash, secret: Bytes, salt: Bytes): (prk: Bytes)
      ensures |prk| == hash.DigestSize()
    {
      if hash.Sha3_256? then extract256(secret, salt) else extract512(secret, salt)
    }

    /** HKDF-Expand over the selected hash: everything the reader can produce. */
    function Expand(hash: Hash, prk: Bytes, info: Bytes): (stream: Bytes)
      ensures |stream| == hash.MaxExpansion()
    {
      if hash.Sha3_256? then expand256(prk, info) else expand512(prk, info)
    }
  }
}
