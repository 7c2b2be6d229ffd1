# signalprotocol key-derivation core, modelled in Dafny

This project models the validation and composition logic of the Go packages
`X25519`, `HKDF`, `HMAC`, `X3DH` and `DoubleRatchet` of noah1510/signalprotocol.
That logic sits between the callers and the cryptographic primitives, and the
project proves properties of it.

The primitives themselves stay opaque. `Crypto.Library` is a value of function
fields, and the type of each field states only how long its result is:
- HMAC (RFC 2104) over SHA3-256 and SHA3-512;
- HKDF-Extract and HKDF-Expand (sections 2.2 and 2.3 of RFC 5869), where Expand
  yields the whole 255-digest keystream that the HKDF reader can hand out;
- the Ed25519 to Curve25519 conversions of `extra25519`;
- `curve25519.ScalarMult`;
- Ed25519 key generation from a seed, used only to state what the X25519 test
  expects.

Every operation takes the library as a parameter, so a property proved here
holds for any library that keeps these length contracts.

Files:
- `crypto.dfy` (module `Crypto`):
  - bytes, and Go's `copy` as a function;
  - the hash names "SHA256"/"SHA512", which select SHA3-256/SHA3-512 (FIPS 202), not SHA-2;
  - the error kinds, and the `Result` type: `Ok`, `Err`, or a Go run-time `Panic`;
  - the library.
- `hkdf.dfy` (module `HKDF`): `Derivate` is a method. It fills a fresh key
  array of `size` bytes from the HKDF stream, the way `io.ReadFull` does.
  `DerivedKey` is its specification function.
- `hmac.dfy` (module `HMAC`): `HMAC` maps the hash name and returns the tag.
- `x25519.dfy` (module `X25519`): `Exchange` is a method over the fixed arrays
  of `x25519.go`. It uses the same copies, and the conversions write into
  output arrays. `ExchangeOutcome` is its specification function.
- `x3dh.dfy` (module `X3DH`): `InitiatorCurve25519`.
- `double_ratchet.dfy` (module `DoubleRatchet`): `DHRatchetX25519` and `MessageKey`.

Behaviour of the code as written, proved here:
- `X25519/x25519.go:36` copies the public key into the private-key array.
  - The array handed to the private-key conversion therefore holds B's public
    key followed by the second half of A's private key. The public-key array
    stays all zero.
  - The result does not depend on A's secret seed (`ExchangeIgnoresSeed`).
  - `x25519_test.go:23-30` passes the arguments of `Exchange` in reverse
    (`Exchange(&pub2, &priv1)`), so as written it does not type-check. The
    symmetry it evidently means, `Exchange(priv1, pub2) == Exchange(priv2, pub1)`,
    does not follow from the code: a library that obeys the Diffie-Hellman law
    breaks it (`ExchangeNotSymmetric`).
- The private-key check at `x25519.go:25` cannot fire. `Seed()` slices
  `priv[:32]`: whenever that slice succeeds it has 32 bytes.
- `InitiatorCurve25519` never returns a nil error. Only the fourth exchange's
  error is reported. Its outcome depends neither on the library nor on the
  receiver's identity key or signed prekey.
- `DHRatchetX25519` can succeed only when the effective length is 32. The next
  root key is always derived with 32 bytes and is then compared with the length.
- A failing exchange, HMAC or HKDF call is reported as an error that wraps its
  cause. `MessageKey` never panics; `DHRatchetX25519` panics only where the
  exchange does.
- `MessageKey` returns a next chain key of the digest size, not of the requested
  length. A chain can be advanced twice with the same settings only when the
  length equals the digest size. With the defaults (32 bytes, SHA3-512) the
  second step fails.

The model follows the code as written, and the code does not have these
properties:
- an exchange that computes the Diffie-Hellman value of A's private key and
  B's public key;
- an X3DH that concatenates DH1..DH4 and derives a 32-byte shared secret;
- a handshake that aborts on any failing exchange;
- a next chain key of `outputLength` bytes;
- SHA-2: the names "SHA256" and "SHA512" select SHA-3.
A length of 0 is accepted and stands for 32.

## Model

| member | source | states |
|---|---|---|
| `HKDF.DerivedKey` | HKDF/hkdf.go:21-51 | an unknown hash name gives the unsupported-hash error; with a known name, a negative size panics, a size beyond 255 digests gives the derivation error (the allocation limit of `make` is not modelled), and any other size gives exactly `size` bytes |
| `HKDF.Derivate` | HKDF/hkdf.go:41-50 | filling the fresh `size`-byte key array from the HKDF reader returns exactly `DerivedKey`: the first `size` bytes of the stream extracted from (secret, salt) and expanded with info, or the error when the reader cannot produce that many |
| `HKDF.ShorterKeyIsPrefix` | HKDF/hkdf.go:41-45 | output is deterministic in (size, hash, secret, salt, info): a shorter derivation from the same inputs is a prefix of a longer one |
| `HKDF.HashSelection` | HKDF/hkdf.go:31-39 | "SHA512" selects SHA3-512 and "SHA256" SHA3-256, with output limits 16320 and 8160 bytes; "" and "MD5" are rejected |
| `HMAC.HMAC` | HMAC/hmac.go:16-44 | succeeds exactly for "SHA256" and "SHA512", never panics, returns the HMAC of `data` under `secret` of 32 or 64 bytes respectively, and otherwise only the unsupported-hash error |
| `X25519.Seed` | X25519/x25519.go:25 | `Seed()` of a key of at least 32 bytes always has 32 bytes |
| `X25519.ScalarBuffer` | X25519/x25519.go:21-36 | the private-key array after both copies has 64 bytes |
| `X25519.ExchangeOutcome` | X25519/x25519.go:12-46 | a key under 32 bytes (without spare capacity) panics in `Seed()`; success exactly when the public key has 32 bytes, with a 32-byte result; the only error is the public-key length error, so the private-key check never fires |
| `X25519.Copy` | X25519/x25519.go:29-36 | Go's `copy` into an array: the first min(len) bytes come from the source, the rest is kept |
| `X25519.PrivateKeyToCurve25519` | X25519/x25519.go:39 | the scalar array receives the conversion of the 64-byte private-key array |
| `X25519.PublicKeyToCurve25519` | X25519/x25519.go:40 | the all-zero point array receives what the conversion leaves in it for the public-key array |
| `X25519.ScalarMult` | X25519/x25519.go:43 | the result array receives the product of the scalar and point arrays |
| `X25519.Exchange` | X25519/x25519.go:12-46 | the array-based exchange returns exactly `ExchangeOutcome`, with the all-zero array on every error |
| `X25519.ScalarBufferLayout` | X25519/x25519.go:29-36 | for every private key of at least 32 bytes and a 32-byte public key, the scalar array is the public key followed by bytes 32..63 of the private key, cut off after byte 63 and zero-filled when the key is shorter; for a 64-byte key that is its second half |
| `X25519.ExchangeIgnoresSeed` | X25519/x25519.go:29-43 | two private keys of at least 32 bytes whose bytes 32..63 agree (as copied) give the same outcome against every public key |
| `X25519.ExchangeNotSymmetric` | X25519/x25519_test.go:23-30 | the test as written passes the arguments in reverse and does not type-check; for the evidently intended calls, some library obeying the Diffie-Hellman law has two genuine key pairs for which Exchange(priv1, pub2) differs from Exchange(priv2, pub1) |
| `X3DH.InitiatorCurve25519` | X3DH/x3dh.go:17-60 | never returns a nil error; a hash other than "SHA512"/"SHA256" gives the unsupported-hash error before any exchange |
| `X3DH.OnlyLastExchangeIsReported` | X3DH/x3dh.go:40-59 | with a valid hash and seed-sized private keys the result is DH4's error when the one-time prekey is malformed and the end-of-function error otherwise, whatever DH1..DH3 return |
| `X3DH.OutcomeIgnoresKeyMaterial` | X3DH/x3dh.go:32-59 | the outcome is the same for every library and every receiver identity key and signed prekey: no shared secret is computed, no KDF called, no signature checked |
| `X3DH.ShortPrivateKeyPanics` | X3DH/x3dh.go:41-50 | after a valid hash check, a sender private key under 32 bytes (without spare capacity) panics in its first exchange |
| `DoubleRatchet.MessageLength` | DoubleRatchet/doubleRatchet.go:130 | for an even length, length*2 + length/2 is 2.5 times the length |
| `DoubleRatchet.DHRatchetX25519` | DoubleRatchet/doubleRatchet.go:25-80 | an odd length fails with the parity error; an even length that differs from the key length (after 0 becomes 32) fails with the length error; success only with effective length 32, and then both keys have 32 bytes |
| `DoubleRatchet.MessageKey` | DoubleRatchet/doubleRatchet.go:93-144 | same prologue errors; on success the message key has length*2 + length/2 bytes, twice it is five times the length, and the next chain key has the digest size of the selected hash |
| `DoubleRatchet.Defaults` | DoubleRatchet/doubleRatchet.go:36-45 | length 0 behaves as 32 and hash "" as "SHA512" in both functions |
| `DoubleRatchet.NegativeLengthRejected` | DoubleRatchet/doubleRatchet.go:102-116 | every negative length is an error in both functions |
| `DoubleRatchet.DHRatchetSucceeds` | DoubleRatchet/doubleRatchet.go:52-79 | success iff even effective length 32, a 32-byte root key, a successful exchange and a known hash; then next root key = HKDF(32, secret DH, salt root key) and next chain key = HKDF(length, secret root key, salt DH) |
| `DoubleRatchet.DHRatchetFailures` | DoubleRatchet/doubleRatchet.go:52-68 | it panics exactly when the prologue passes and the exchange panics; a failed exchange gives the key-exchange error wrapping its cause; after a successful exchange an unknown hash name gives the root-key derivation error wrapping the unsupported-hash error, and a chain-key length beyond 255 digests gives the chain-key derivation error wrapping the derivation error |
| `DoubleRatchet.LengthOtherThan32Fails` | DoubleRatchet/doubleRatchet.go:58-73 | an even non-zero length other than 32 with a matching root key and working primitives ends in the next-root-key length error |
| `DoubleRatchet.MessageKeySucceeds` | DoubleRatchet/doubleRatchet.go:113-143 | success iff even length, matching chain key, known hash and message length within 255 digests; then next chain key = HMAC(chain key, 0x02) and message key = HKDF(secret HMAC(chain key, 0x01), all-zero salt of the message length, info) |
| `DoubleRatchet.MessageKeyFailures` | DoubleRatchet/doubleRatchet.go:118-137 | never panics; after the prologue an unknown hash name gives the chain-key HMAC error wrapping the unsupported-hash error, and a message length beyond 255 digests gives the message-key derivation error wrapping the derivation error |
| `DoubleRatchet.ChainAdvancesOnlyAtDigestSize` | DoubleRatchet/doubleRatchet.go:113-124 | after a successful step, the next chain key passes the same step again iff the effective length equals the digest size |
| `DoubleRatchet.DefaultChainStalls` | DoubleRatchet/doubleRatchet.go:106-118 | with default length and hash, the chain key produced by one step is rejected by the next step with the length error |
| `DoubleRatchet.ZeroChainKeyWithDefaults` | DoubleRatchet/doubleRatchet.go:90 | a 32-byte all-zero chain key with the defaults gives an 80-byte message key and a 64-byte next chain key |

## Left out

- The internals of SHA3, HMAC, HKDF, the Ed25519 to Curve25519 conversions and
  scalar multiplication are foreign library calls. They are opaque functions
  with length contracts only. No cryptographic property is assumed, such as
  one-wayness, independence of outputs or real Diffie-Hellman symmetry.
- The behaviour of the real curve library on the all-zero point array is not
  modelled: the model's conversion and multiplication are opaque, so it does
  not capture that the real libraries map that array to a low-order point and
  then return 32 zero bytes for every accepted key. Nor does it capture that
  the real private-key conversion hashes only the first 32 bytes of its array,
  which makes the real scalar depend on B's public key alone.
- The boolean that `extra25519.PublicKeyToCurve25519` returns is ignored by the
  code. The model's conversion gives directly the bytes left in the output array.
- Error-message strings are not modelled. Errors are kinds; a wrapping error
  keeps its cause.
- The key-material logging of `X3DH/x3dh.go:53` is left out.
- Nil pointers passed to `Exchange` are left out, because keys are modelled as
  values.
- X25519.ExchangeOutcome: the panic condition is modelled as len(key) < 32,
  while Go's `Seed()` panics only when cap(key) < 32. Keys are values without
  spare capacity, so a short key whose backing array has 32 bytes, which Go
  exchanges with a nil error, is not modelled.
- X3DH.ShortPrivateKeyPanics: for the same reason, it states a panic for every
  sender private key shorter than 32 bytes, while Go panics only when the key's
  capacity is under 32.
- The model does not tell a nil salt from an empty one in `hkdf.Extract`.
- HMAC.HMAC: does not model the error path of a failing `Write`
  (`HMAC/hmac.go:35-39`), because an in-memory hash never fails to write.
- X25519.Exchange and HKDF.Derivate: as methods they require a key of at least
  32 bytes, and a non-negative size with a known hash. Their specification
  functions model these two panics.
- HKDF.DerivedKey: does not model the allocation limit of `make`. A size too
  large to allocate (above 2^48 bytes on 64-bit platforms, or beyond the memory
  available) makes `make` at `HKDF/hkdf.go:43` fail before the reader's limit is
  checked; the model gives the derivation error for it. The limit depends on
  the platform and on the memory at run time.
- HKDF.Derivate: for the same reason it admits sizes too large to allocate and
  returns the derivation error for them, where Go fails in `make`.
- DoubleRatchet.MessageKeyFailures: for the same reason, "never panics" leaves out
  the salt allocation at `DoubleRatchet/doubleRatchet.go:131` failing for a chain
  key so large that 2.5 times its length cannot be allocated.
- DoubleRatchet.DHRatchetFailures: for the same reason, its panic condition
  leaves out the key allocation of the chain-key derivation failing for a root
  key too large to allocate again.
- The receiver role and the x448 variants do not exist in the code; they are
  only TODOs (`X3DH/x3dh.go:62-64`).
- The handshake agreement of `X3DH/x3dh_test.go` is not modelled. That test calls
  a `ReceiverCurve25519` that does not exist, and it expects a shared-secret
  result that `InitiatorCurve25519` does not return.
- The test files are not modelled. They rely on random key generation and
  logging.
