/** HMAC/hmac.go: HMAC maps the hash name to SHA3-256 or SHA3-512 and returns
    the keyed-hash tag of `data` under `secret`. The hmac object's Write and
    Sum are collapsed into one call of the library's HMAC. */
module HMAC {
  import opened Crypto

  function HMAC(lib: Library, hashString: string, secret: Bytes, data: Bytes): (r: Result<Bytes>)
    ensures r.Ok? <==> hashString == "SHA256" || hashString == "SHA512"
    ensures r.Err? ==> r.error == UnsupportedHash
    ensures !r.Panic?
    ensures r.Ok? ==> |r.value| == (if hashString == "SHA256" then 32 else 64)
    ensures r.Ok? ==> r.value == lib.Hmac(HashFromName(hashString).value, secret, data)
  {
    match HashFromName(hashString)
    case None => Err(UnsupportedHash)
    case Some(hash) => Ok(lib.Hmac(hash, secret, data))
  }
}
