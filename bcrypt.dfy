/** The entry points `bcrypt_gensalt`, `bcrypt_hashpw` and `bcrypt_checkpw`.
    The Blowfish-based primitives `crypt_gensalt_rn` and `crypt_rn` and the
    entropy source `getentropy` are foreign code: they are parameters here.
    A primitive's NULL result is `None`; a filled output buffer is the
    returned string. */
module Bcrypt {
  import opened Options
  import opened CStrings
  import opened TimingSafe

  /** Size of every salt and hash buffer, terminating NUL included. */
  const HashSize: nat := 64
  /** Number of random bytes drawn for a salt. */
  const RandBytes: nat := 16
  /** Work factor used when the caller's is out of range. */
  const DefaultWorkFactor: int := 10
  const MinWorkFactor: int := 4
  const MaxWorkFactor: int := 31

  /** "$2a$", the algorithm prefix handed to the salt generator. */
  const Prefix2a: CStr := [0x24, 0x32, 0x61, 0x24]

  /** A string that fits, with its NUL, in a `char[HashSize]` buffer. */
  type HashStr = s: CStr | |s| < HashSize

  /** The random bytes of one salt. */
  type RandomInput = s: seq<Byte> | |s| == RandBytes witness seq(16, _ => 0)

  /** `crypt_gensalt_rn(prefix, count, input, ...)`: NULL or a salt. */
  type SaltGenerator = (CStr, int, RandomInput) -> Option<HashStr>
  /** `crypt_rn(passwd, setting, ...)`: NULL or a hash. */
  type Crypter = (CStr, CStr) -> Option<HashStr>

  /** One invocation of the salt generator, with its arguments. */
  datatype GensaltCall = GensaltCall(prefix: CStr, count: int, input: RandomInput)

  /** The clamp with an arbitrary fallback `fallback` in 4..31: the caller's
      factor when it lies in 4..31, `fallback` otherwise. Out-of-range values
      are replaced silently; this is deliberate policy, not an error. */
  function ClampWorkFactor(factor: int, fallback: int): (w: int)
    requires MinWorkFactor <= fallback <= MaxWorkFactor
    ensures MinWorkFactor <= w <= MaxWorkFactor
    ensures w == factor <==> MinWorkFactor <= factor <= MaxWorkFactor
    ensures !(MinWorkFactor <= factor <= MaxWorkFactor) ==> w == fallback
  {
    if factor < MinWorkFactor || factor > MaxWorkFactor then fallback else factor
  }

  /** The work factor `bcrypt_gensalt` actually uses: the clamp with
      `DefaultWorkFactor` as the fallback. */
  function EffectiveWorkFactor(factor: int): (w: int)
    ensures MinWorkFactor <= w <= MaxWorkFactor
    ensures w == factor <==> MinWorkFactor <= factor <= MaxWorkFactor
    ensures !(MinWorkFactor <= factor <= MaxWorkFactor) ==> w == DefaultWorkFactor
  {
    ClampWorkFactor(factor, DefaultWorkFactor)
  }

  /** `bcrypt_gensalt`. `entropy` is what `getentropy` delivered (`None` when
      it failed). Returns 1 when entropy fails, and then the generator is never
      called; otherwise calls the generator once with "$2a$", the effective
      work factor and the random bytes, and returns 2 when it fails and 0 with
      its salt when it succeeds. `calls` records the generator invocations. */
  method Gensalt(factor: int, entropy: Option<RandomInput>, gensalt: SaltGenerator)
    returns (code: int, salt: HashStr, ghost calls: seq<GensaltCall>)
    ensures code in {0, 1, 2}
    ensures code == 1 <==> entropy.None?
    ensures entropy.None? ==> calls == []
    ensures entropy.Some? ==>
      calls == [GensaltCall(Prefix2a, EffectiveWorkFactor(factor), entropy.value)]
    ensures entropy.Some? ==>
      (code == 2 <==> gensalt(Prefix2a, EffectiveWorkFactor(factor), entropy.value).None?)
    ensures code == 0 ==>
      entropy.Some? && gensalt(Prefix2a, EffectiveWorkFactor(factor), entropy.value) == Some(salt)
  {
    salt, calls := [], [];
    if entropy.None? {
      return 1, salt, calls;
    }
    var input := entropy.value;
    var workf := EffectiveWorkFactor(factor);
    var aux := gensalt(Prefix2a, workf, input);
    calls := calls + [GensaltCall(Prefix2a, workf, input)];
    if aux.None? {
      code := 2;
    } else {
      code, salt := 0, aux.value;
    }
  }

  /** `bcrypt_hashpw`: hashes `passwd` under `salt`; returns 1 exactly when
      the primitive fails and 0, with the primitive's hash, otherwise. */
  method Hashpw(passwd: CStr, salt: CStr, crypt: Crypter) returns (code: int, hash: HashStr)
    ensures code in {0, 1}
    ensures code == 1 <==> crypt(passwd, salt).None?
    ensures code == 0 ==> crypt(passwd, salt) == Some(hash)
  {
    var aux := crypt(passwd, salt);
    if aux.None? {
      code, hash := 1, [];
    } else {
      code, hash := 0, aux.value;
    }
  }

  /** What `bcrypt_checkpw` returns: -1 when rehashing `passwd` with the
      stored hash as the salt fails, otherwise the timing-safe comparison of
      the stored hash with the rehash. */
  function CheckResult(crypt: Crypter, passwd: CStr, hash: CStr): (r: int)
    ensures r == -1 <==> crypt(passwd, hash).None?
    ensures r == 0 <==> crypt(passwd, hash) == Some(hash)
    ensures -1 <= r <= 255
  {
    match crypt(passwd, hash)
    case None => -1
    case Some(outhash) =>
      StrcmpZeroIffEqual(hash, outhash);
      StrcmpValue(hash, outhash)
  }

  /** `bcrypt_checkpw`: rehashes `passwd` using the stored `hash` itself as
      the salt, and on success compares the two in constant time. Returns -1
      when the rehash fails (never 0, so "could not verify" is distinct
      from both "match" and "mismatch"), 0 for a match and a value in
      1..255 for a mismatch. */
  method Checkpw(passwd: CStr, hash: CStr, crypt: Crypter) returns (r: int)
    requires FitsInt(hash)
    ensures r == CheckResult(crypt, passwd, hash)
    ensures r == -1 <==> crypt(passwd, hash).None?
    ensures r == 0 <==> crypt(passwd, hash) == Some(hash)
    ensures crypt(passwd, hash).Some? ==> r == StrcmpValue(hash, crypt(passwd, hash).value)
    ensures -1 <= r <= 255
  {
    var ret, outhash := Hashpw(passwd, hash, crypt);
    if ret != 0 {
      return -1;
    }
    ghost var trace;
    r, trace := TimingSafeStrcmp(hash, outhash);
  }

  /** Round trip: a hash made from `passwd` verifies against `passwd`,
      provided the primitive reproduces the hash when the hash is given back
      as the salt (it embeds the salt it was made with). */
  lemma HashThenCheckMatches(crypt: Crypter, passwd: CStr, salt: CStr, hash: HashStr)
    requires crypt(passwd, salt) == Some(hash)
    requires crypt(passwd, hash) == crypt(passwd, salt)
    ensures CheckResult(crypt, passwd, hash) == 0
  {
  }

  /** A wrong password is reported as a mismatch (a positive result), never
      as a match, when its rehash differs from the stored hash. */
  lemma WrongPasswordMismatches(crypt: Crypter, passwd: CStr, hash: CStr, outhash: HashStr)
    requires crypt(passwd, hash) == Some(outhash)
    requires outhash != hash
    ensures 0 < CheckResult(crypt, passwd, hash) <= 255
  {
  }
}
