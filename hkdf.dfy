/** HKDF/hkdf.go: Derivate maps the hash name to SHA3-256 or SHA3-512, sets
    up an HKDF reader (extract, then expand) and reads exactly `size` bytes
    from it into a freshly made key buffer. */
module HKDF {
  import opened Crypto

  /** The key Derivate returns: the first `size` bytes of the HKDF keystream
      for (secret, salt, info), when the hash name is known and the reader can
      produce that many bytes. A negative size makes `make` panic. */
  function DerivedKey(lib: Library, size: int, hashString: string, secret: Bytes, salt: Bytes, info: Bytes): (r: Result<Bytes>)
    ensures r == Err(UnsupportedHash) <==> HashFromName(hashString).None?
    ensures r.Panic? <==> HashFromName(hashString).Some? && size < 0
    ensures r == Err(DerivationFailed) <==>
      HashFromName(hashString).Some? && size > HashFromName(hashString).value.MaxExpansion()
    ensures r.Ok? <==>
      HashFromName(hashString).Some? && 0 <= size <= HashFromName(hashString).value.MaxExpansion()
    ensures r.Ok? ==> |r.value| == size
  {
    match HashFromName(hashString)
    case None => Err(UnsupportedHash)
    case Some(hash) =>
      if size < 0 then Panic
      else
        var stream := lib.Expand(hash, lib.Extract(hash, secret, salt), info);
        if size > |stream| then Err(DerivationFailed) else Ok(stream[..size])
  }

  /** Derivate fills a key buffer of `size` bytes from the HKDF reader
      (io.ReadFull) and returns it. The reader refuses, before writing
      anything, a read larger than what it can still produce. */
  method Derivate(lib: Library, size: int, hashString: string, secret: Bytes, salt: Bytes, info: Bytes)
    returns (r: Result<Bytes>)
    requires HashFromName(hashString).Some? ==> 0 <= size  // make([]byte, size) panics otherwise
    ensures r == DerivedKey(lib, size, hashString, secret, salt, info)
  {
    var hash: Hash;
    match HashFromName(hashString) {
      case None =>
        return Err(UnsupportedHash);
      case Some(h) =>
        hash := h;
    }
    var stream := lib.Expand(hash, lib.Extract(hash, secret, salt), info);
    var key := new byte[size](_ => 0);
    if size > |stream| {
      return Err(DerivationFailed);
    }
    var i := 0;
    while i < size
      invariant 0 <= i <= size
      invariant key[..i] == stream[..i]
    {
      key[i] := stream[i];
      i := i + 1;
    }
    assert key[..] == key[..size];
    return Ok(key[..]);
  }

  /** Derivations of different sizes from the same inputs agree on their
      common prefix: the key is read from one deterministic stream. */
  lemma ShorterKeyIsPrefix(lib: Library, n: nat, m: nat, hashString: string, secret: Bytes, salt: Bytes, info: Bytes)
    requires n <= m
    requires DerivedKey(lib, m, hashString, secret, salt, info).Ok?
    ensures DerivedKey(lib, n, hashString, secret, salt, info).Ok?
    ensures DerivedKey(lib, n, hashString, secret, salt, info).value
         == DerivedKey(lib, m, hashString, secret, salt, info).value[..n]
  {
  }

  /** The names select SHA-3, not SHA-2, and the output limit is 255 digests. */
  lemma HashSelection()
    ensures HashFromName("SHA512") == Some(Sha3_512) && Sha3_512.MaxExpansion() == 16320
    ensures HashFromName("SHA256") == Some(Sha3_256) && Sha3_256.MaxExpansion() == 8160
    ensures HashFromName("") == None && HashFromName("MD5") == None
  {
  }
}
