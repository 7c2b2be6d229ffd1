/** DoubleRatchet/doubleRatchet.go: the two ratchet steps, in the manner of
    KDF_RK and KDF_CK (section 5.2 of Signal's "The Double Ratchet
    Algorithm"). Both start with the same prologue: an odd length is
    rejected, then 0 stands for 32 and "" for "SHA512", then the input key
    must have that length. */
module DoubleRatchet {
  import opened Crypto
  import X25519
  import HKDF
  import HMAC

  const DefaultLength := 32
  const DefaultHash := "SHA512"
  /** Size of every next root key, whatever the requested length. */
  const RootKeySize := 32
  /** Domain-separation bytes of the two HMACs of MessageKey. */
  const ChainKeyInput: Bytes := [0x02]
  const MessageKeyInput: Bytes := [0x01]

  function EffectiveLength(length: int): int
  {
    if length == 0 then DefaultLength else length
  }

  function EffectiveHash(hashString: string): string
  {
    if hashString == "" then DefaultHash else hashString
  }

  /** length*2 + length/2: 2.5 times an even length. */
  function MessageLength(length: nat): (n: nat)
    ensures length % 2 == 0 ==> 2 * n == 5 * length
  {
    length * 2 + length / 2
  }

  datatype RatchetKeys = RatchetKeys(nextRootKey: Bytes, nextChainKey: Bytes)
  datatype MessageKeys = MessageKeys(nextMessageKey: Bytes, nextChainKey: Bytes)

  /** DHRatchetX25519: one Diffie-Hellman ratchet step from the root key. */
  function DHRatchetX25519(
    lib: Library,
    rootKey: Bytes,
    publicKey: Bytes,
    privateKey: Bytes,
    info: Bytes,
    length: int,
    hashString: string): (r: Result<RatchetKeys>)
    ensures length % 2 != 0 ==> r == Err(OddLength)
    ensures length % 2 == 0 && |rootKey| != EffectiveLength(length) ==> r == Err(KeyLengthMismatch)
    ensures r.Ok? ==> EffectiveLength(length) == RootKeySize
    ensures r.Ok? ==> |r.value.nextRootKey| == RootKeySize && |r.value.nextChainKey| == RootKeySize
  {
    if length % 2 != 0 then Err(OddLength)
    else
      var keyLength := EffectiveLength(length);
      var hash := EffectiveHash(hashString);
      if |rootKey| != keyLength then Err(KeyLengthMismatch)
      else
        match X25519.ExchangeOutcome(lib, privateKey, publicKey)
        case Panic => Panic
        case Err(e) => Err(KeyExchangeFailed(e))
        case Ok(dh) =>
          // the DH output is the secret and the root key the salt ...
          match HKDF.DerivedKey(lib, RootKeySize, hash, dh, rootKey, info)
          case Panic => Panic
          case Err(e) => Err(RootKeyDerivationFailed(e))
          case Ok(nextRootKey) =>
            // ... and the other way round for the chain key
            match HKDF.DerivedKey(lib, keyLength, hash, rootKey, dh, info)
            case Panic => Panic
            case Err(e) => Err(ChainKeyDerivationFailed(e))
            case Ok(nextChainKey) =>
              if |nextRootKey| != keyLength then Err(NextRootKeyLengthMismatch)
              else if |nextChainKey| != keyLength then Err(NextChainKeyLengthMismatch)
              else Ok(RatchetKeys(nextRootKey, nextChainKey))
  }

  /** MessageKey: one symmetric ratchet step from the chain key. */
  function MessageKey(
    lib: Library,
    chainKey: Bytes,
    length: int,
    info: Bytes,
    hashString: string): (r: Result<MessageKeys>)
    ensures length % 2 != 0 ==> r == Err(OddLength)
    ensures length % 2 == 0 && |chainKey| != EffectiveLength(length) ==> r == Err(KeyLengthMismatch)
    ensures r.Ok? ==> |r.value.nextMessageKey| == MessageLength(|chainKey|)
    ensures r.Ok? ==> 2 * |r.value.nextMessageKey| == 5 * EffectiveLength(length)
    ensures r.Ok? ==>
      HashFromName(EffectiveHash(hashString)).Some?
      && |r.value.nextChainKey| == HashFromName(EffectiveHash(hashString)).value.DigestSize()
  {
    if length % 2 != 0 then Err(OddLength)
    else
      var keyLength := EffectiveLength(length);
      var hash := EffectiveHash(hashString);
      if |chainKey| != keyLength then Err(KeyLengthMismatch)
      else
        match HMAC.HMAC(lib, hash, chainKey, ChainKeyInput)
        case Panic => Panic
        case Err(e) => Err(ChainKeyMacFailed(e))
        case Ok(nextChainKey) =>
          match HMAC.HMAC(lib, hash, chainKey, MessageKeyInput)
          case Panic => Panic
          case Err(e) => Err(MessageKeyMacFailed(e))
          case Ok(seed) =>
            var messageLength := MessageLength(|chainKey|);
            match HKDF.DerivedKey(lib, messageLength, hash, seed, Zeros(messageLength), info)
            case Panic => Panic
            case Err(e) => Err(MessageKeyDerivationFailed(e))
            case Ok(nextMessageKey) =>
              if |nextMessageKey| != messageLength then Err(MessageKeyLengthMismatch)
              else Ok(MessageKeys(nextMessageKey, nextChainKey))
  }

  /** The defaults are applied only after the parity check, and are exactly
      the explicit values 32 and "SHA512". */
  lemma Defaults(lib: Library, key: Bytes, publicKey: Bytes, privateKey: Bytes, info: Bytes, length: int, hashString: string)
    ensures DHRatchetX25519(lib, key, publicKey, privateKey, info, 0, hashString)
         == DHRatchetX25519(lib, key, publicKey, privateKey, info, DefaultLength, hashString)
    ensures DHRatchetX25519(lib, key, publicKey, privateKey, info, length, "")
         == DHRatchetX25519(lib, key, publicKey, privateKey, info, length, DefaultHash)
    ensures MessageKey(lib, key, 0, info, hashString) == MessageKey(lib, key, DefaultLength, info, hashString)
    ensures MessageKey(lib, key, length, info, "") == MessageKey(lib, key, length, info, DefaultHash)
  {
  }

  /** A negative even length never matches a key length. */
  lemma NegativeLengthRejected(lib: Library, key: Bytes, publicKey: Bytes, privateKey: Bytes, info: Bytes, length: int, hashString: string)
    requires length < 0
    ensures DHRatchetX25519(lib, key, publicKey, privateKey, info, length, hashString).Err?
    ensures MessageKey(lib, key, length, info, hashString).Err?
  {
  }

  /** DHRatchetX25519 succeeds exactly when the effective length is 32, the
      root key has 32 bytes, the key exchange succeeds and the hash name is
      known; then the next root key is HKDF(secret = DH output, salt = root
      key) and the next chain key HKDF(secret = root key, salt = DH output). */
  lemma DHRatchetSucceeds(
    lib: Library, rootKey: Bytes, publicKey: Bytes, privateKey: Bytes, info: Bytes, length: int, hashString: string)
    ensures var r := DHRatchetX25519(lib, rootKey, publicKey, privateKey, info, length, hashString);
      r.Ok? <==>
        length % 2 == 0 && EffectiveLength(length) == RootKeySize && |rootKey| == RootKeySize
        && X25519.ExchangeOutcome(lib, privateKey, publicKey).Ok?
        && HashFromName(EffectiveHash(hashString)).Some?
    ensures var r := DHRatchetX25519(lib, rootKey, publicKey, privateKey, info, length, hashString);
      var dh := X25519.ExchangeOutcome(lib, privateKey, publicKey);
      r.Ok? ==>
        r.value.nextRootKey == HKDF.DerivedKey(lib, RootKeySize, EffectiveHash(hashString), dh.value, rootKey, info).value
        && r.value.nextChainKey == HKDF.DerivedKey(lib, EffectiveLength(length), EffectiveHash(hashString), rootKey, dh.value, info).value
  {
  }

  /** A failing sub-call is reported as an error that wraps its cause. The
      only panic left is the one of Seed() inside the key exchange: both
      derivations ask for a non-negative size. */
  lemma DHRatchetFailures(
    lib: Library, rootKey: Bytes, publicKey: Bytes, privateKey: Bytes, info: Bytes, length: int, hashString: string)
    ensures var r := DHRatchetX25519(lib, rootKey, publicKey, privateKey, info, length, hashString);
      r.Panic? <==>
        length % 2 == 0 && |rootKey| == EffectiveLength(length)
        && X25519.ExchangeOutcome(lib, privateKey, publicKey).Panic?
    ensures var r := DHRatchetX25519(lib, rootKey, publicKey, privateKey, info, length, hashString);
      var dh := X25519.ExchangeOutcome(lib, privateKey, publicKey);
      length % 2 == 0 && |rootKey| == EffectiveLength(length) && dh.Err? ==>
        r == Err(KeyExchangeFailed(dh.error))
    ensures var r := DHRatchetX25519(lib, rootKey, publicKey, privateKey, info, length, hashString);
      length % 2 == 0 && |rootKey| == EffectiveLength(length)
      && X25519.ExchangeOutcome(lib, privateKey, publicKey).Ok?
      && HashFromName(EffectiveHash(hashString)).None? ==>
        r == Err(RootKeyDerivationFailed(UnsupportedHash))
    ensures var r := DHRatchetX25519(lib, rootKey, publicKey, privateKey, info, length, hashString);
      length % 2 == 0 && |rootKey| == EffectiveLength(length)
      && X25519.ExchangeOutcome(lib, privateKey, publicKey).Ok?
      && HashFromName(EffectiveHash(hashString)).Some?
      && EffectiveLength(length) > HashFromName(EffectiveHash(hashString)).value.MaxExpansion() ==>
        r == Err(ChainKeyDerivationFailed(DerivationFailed))
  {
  }

  /** MessageKey never panics: every failure is an error wrapping its cause,
      an unknown hash name at the first HMAC and a message key beyond the
      HKDF output limit at the derivation. */
  lemma MessageKeyFailures(lib: Library, chainKey: Bytes, length: int, info: Bytes, hashString: string)
    ensures !MessageKey(lib, chainKey, length, info, hashString).Panic?
    ensures var r := MessageKey(lib, chainKey, length, info, hashString);
      length % 2 == 0 && |chainKey| == EffectiveLength(length)
      && HashFromName(EffectiveHash(hashString)).None? ==>
        r == Err(ChainKeyMacFailed(UnsupportedHash))
    ensures var r := MessageKey(lib, chainKey, length, info, hashString);
      length % 2 == 0 && |chainKey| == EffectiveLength(length)
      && HashFromName(EffectiveHash(hashString)).Some?
      && MessageLength(|chainKey|) > HashFromName(EffectiveHash(hashString)).value.MaxExpansion() ==>
        r == Err(MessageKeyDerivationFailed(DerivationFailed))
  {
  }

  /** An even length other than 32 with a matching root key fails even when
      every primitive succeeds: the next root key always has 32 bytes and is
      then compared with the length. */
  lemma LengthOtherThan32Fails(
    lib: Library, rootKey: Bytes, publicKey: Bytes, privateKey: Bytes, info: Bytes, hashString: string)
    requires |rootKey| % 2 == 0 && |rootKey| != RootKeySize && |rootKey| != 0
    requires X25519.ExchangeOutcome(lib, privateKey, publicKey).Ok?
    requires HashFromName(EffectiveHash(hashString)).Some?
    requires |rootKey| <= HashFromName(EffectiveHash(hashString)).value.MaxExpansion()
    ensures DHRatchetX25519(lib, rootKey, publicKey, privateKey, info, |rootKey|, hashString)
         == Err(NextRootKeyLengthMismatch)
  {
  }

  /** MessageKey succeeds exactly when the length is even, the chain key has
      the effective length, the hash name is known and the message key fits
      in the HKDF output limit. The next chain key is HMAC(chain key, 0x02);
      the message key is HKDF with secret HMAC(chain key, 0x01), an all-zero
      salt of the message length, and info. */
  lemma MessageKeySucceeds(lib: Library, chainKey: Bytes, length: int, info: Bytes, hashString: string)
    ensures var r := MessageKey(lib, chainKey, length, info, hashString);
      r.Ok? <==>
        length % 2 == 0 && |chainKey| == EffectiveLength(length)
        && HashFromName(EffectiveHash(hashString)).Some?
        && MessageLength(|chainKey|) <= HashFromName(EffectiveHash(hashString)).value.MaxExpansion()
    ensures var r := MessageKey(lib, chainKey, length, info, hashString);
      var hash := EffectiveHash(hashString);
      var messageLength := MessageLength(|chainKey|);
      r.Ok? ==>
        r.value.nextChainKey == HMAC.HMAC(lib, hash, chainKey, [0x02]).value
        && r.value.nextMessageKey
           == HKDF.DerivedKey(lib, messageLength, hash, HMAC.HMAC(lib, hash, chainKey, [0x01]).value, Zeros(messageLength), info).value
  {
  }

  /** The next chain key has the digest size, not the requested length, so a
      chain can be advanced twice with the same length and hash only when the
      length equals the digest size. With the defaults (32 bytes, SHA3-512)
      the second step always fails. */
  lemma ChainAdvancesOnlyAtDigestSize(
    lib: Library, chainKey: Bytes, length: int, info1: Bytes, info2: Bytes, hashString: string)
    requires MessageKey(lib, chainKey, length, info1, hashString).Ok?
    ensures var next := MessageKey(lib, chainKey, length, info1, hashString).value.nextChainKey;
      (MessageKey(lib, next, length, info2, hashString).Ok?
       <==> EffectiveLength(length) == HashFromName(EffectiveHash(hashString)).value.DigestSize())
  {
  }

  lemma DefaultChainStalls(lib: Library, chainKey: Bytes, info1: Bytes, info2: Bytes)
    requires MessageKey(lib, chainKey, 0, info1, "").Ok?
    ensures MessageKey(lib, MessageKey(lib, chainKey, 0, info1, "").value.nextChainKey, 0, info2, "")
         == Err(KeyLengthMismatch)
  {
  }

  /** A 32-byte all-zero chain key with the defaults gives an 80-byte message
      key and a 64-byte (SHA3-512) next chain key. */
  lemma ZeroChainKeyWithDefaults(lib: Library, info: Bytes)
    ensures var r := MessageKey(lib, Zeros(32), 0, info, "");
      r.Ok? && |r.value.nextMessageKey| == 80 && |r.value.nextChainKey| == 64
  {
  }
}
