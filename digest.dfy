/** `bcrypt_sha512_base64` and `bcrypt_sha3_512_base64`: a 512-bit digest of a
    C string rendered as base64 text. The digest functions (`sha512_calc`,
    FIPS 202 SHA3-512) and the encoder (`base64_calc`) are parameters. */
module Digest {
  import opened CStrings

  /** Size of a 512-bit digest in bytes. */
  const BytesIn512Bits: nat := 64

  type Digest512 = s: seq<Byte> | |s| == BytesIn512Bits witness seq(64, _ => 0)

  type DigestFunction = seq<Byte> -> Digest512
  type Encoder = Digest512 -> CStr

  /** `bcrypt_sha512_base64`. The length guard compares `strlen(input)` with
      ULONG_MAX, the width `sha512_calc` takes its length in (`ulongMax`):
      1 when the length does not fit, otherwise 0 with the encoded digest. */
  method Sha512Base64(input: CStr, ulongMax: nat, sha512: DigestFunction, base64: Encoder)
    returns (code: int, digest: CStr)
    ensures code in {0, 1}
    ensures code == 1 <==> |input| > ulongMax
    ensures code == 0 ==> digest == base64(sha512(input))
  {
    if |input| > ulongMax {
      return 1, [];
    }
    var bindigest := sha512(input);
    digest := base64(bindigest);
    code := 0;
  }

  /** `bcrypt_sha3_512_base64`: the same pipeline over SHA3-512, whose length
      parameter is an unsigned long long (`ullongMax`). */
  method Sha3512Base64(input: CStr, ullongMax: nat, sha3: DigestFunction, base64: Encoder)
    returns (code: int, digest: CStr)
    ensures code in {0, 1}
    ensures code == 1 <==> |input| > ullongMax
    ensures code == 0 ==> digest == base64(sha3(input))
  {
    if |input| > ullongMax {
      return 1, [];
    }
    var bindigest := sha3(input);
    digest := base64(bindigest);
    code := 0;
  }
}
