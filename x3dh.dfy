/** X3DH/x3dh.go: the initiator side of an X3DH key agreement (section 3.3
    of Signal's "The X3DH Key Agreement Protocol") over Curve25519.

    As written it checks the hash name, runs the four exchanges, and returns
    an error in every case: each exchange overwrites the error variable, so
    only the last exchange's error is looked at, and when that one succeeds
    the function ends with its "end of function" error. No shared secret is
    computed, no KDF is called, and no prekey signature is checked. */
module X3DH {
  import opened Crypto
  import X25519

  /** The error InitiatorCurve25519 returns (Ok(()) would be a nil error). */
  function InitiatorCurve25519(
    lib: Library,
    hash: string,
    publicIdentityKeyReceiver: Bytes,
    publicSignedPreKeyReceiver: Bytes,
    publicOneTimePreKeyReceiver: Bytes,
    privateIdentityKeySender: Bytes,
    privateEphemeralKeySender: Bytes): (r: Result<()>)
    ensures !r.Ok?
    ensures !(hash == "SHA512" || hash == "SHA256") ==> r == Err(UnsupportedHash)
  {
    if !(hash == "SHA512" || hash == "SHA256") then Err(UnsupportedHash)
    else
      // DH1 = DH(IKA, SPKB)
      var dh1 := X25519.ExchangeOutcome(lib, privateIdentityKeySender, publicSignedPreKeyReceiver);
      if dh1.Panic? then Panic
      else
        // DH2 = DH(EKA, IKB); overwrites DH1's error
        var dh2 := X25519.ExchangeOutcome(lib, privateEphemeralKeySender, publicIdentityKeyReceiver);
        if dh2.Panic? then Panic
        else
          // DH3 = DH(EKA, SPKB); overwrites DH2's error
          var dh3 := X25519.ExchangeOutcome(lib, privateEphemeralKeySender, publicSignedPreKeyReceiver);
          if dh3.Panic? then Panic
          else
            // DH4 = DH(EKA, OPKB); overwrites DH3's error
            var dh4 := X25519.ExchangeOutcome(lib, privateEphemeralKeySender, publicOneTimePreKeyReceiver);
            if dh4.Panic? then Panic
            else if dh4.Err? then Err(dh4.error)
            else Err(EndOfFunction)
  }

  /** With a valid hash name and private keys that do not make Seed() panic,
      the result is decided by the one-time prekey alone: DH4's error when it
      fails, the "end of function" error otherwise. An error of DH1, DH2 or
      DH3 (a bad identity key or signed prekey of the receiver) is lost. */
  lemma OnlyLastExchangeIsReported(
    lib: Library, hash: string,
    identityKey: Bytes, signedPreKey: Bytes, oneTimePreKey: Bytes,
    privateIdentityKey: Bytes, privateEphemeralKey: Bytes)
    requires hash == "SHA512" || hash == "SHA256"
    requires X25519.SeedSize <= |privateIdentityKey| && X25519.SeedSize <= |privateEphemeralKey|
    ensures InitiatorCurve25519(lib, hash, identityKey, signedPreKey, oneTimePreKey, privateIdentityKey, privateEphemeralKey)
         == if |oneTimePreKey| == X25519.PublicKeySize then Err(EndOfFunction) else Err(WrongPublicKeyLength)
  {
  }

  /** The outcome does not depend on the cryptographic library at all, nor on
      the receiver's identity key or signed prekey: nothing computed from
      them is ever used. */
  lemma OutcomeIgnoresKeyMaterial(
    lib1: Library, lib2: Library, hash: string,
    identityKey1: Bytes, signedPreKey1: Bytes, identityKey2: Bytes, signedPreKey2: Bytes,
    oneTimePreKey: Bytes, privateIdentityKey: Bytes, privateEphemeralKey: Bytes)
    ensures InitiatorCurve25519(lib1, hash, identityKey1, signedPreKey1, oneTimePreKey, privateIdentityKey, privateEphemeralKey)
         == InitiatorCurve25519(lib2, hash, identityKey2, signedPreKey2, oneTimePreKey, privateIdentityKey, privateEphemeralKey)
  {
  }

  /** A private key shorter than a seed (with no spare capacity) makes the
      first exchange that uses it panic; the hash check still comes first. */
  lemma ShortPrivateKeyPanics(
    lib: Library, hash: string,
    identityKey: Bytes, signedPreKey: Bytes, oneTimePreKey: Bytes,
    privateIdentityKey: Bytes, privateEphemeralKey: Bytes)
    requires hash == "SHA512" || hash == "SHA256"
    requires |privateIdentityKey| < X25519.SeedSize || |privateEphemeralKey| < X25519.SeedSize
    ensures InitiatorCurve25519(lib, hash, identityKey, signedPreKey, oneTimePreKey, privateIdentityKey, privateEphemeralKey).Panic?
  {
  }
}
