# bcrypt wrapper library — Dafny model

A model of the contract layer of a small C library that wraps the
Blowfish-based bcrypt password hash (`bcrypt.c`):

- `timing_safe_strcmp`: compares two C strings. A length mismatch returns 1 at
  once. Otherwise it ORs the XOR of every byte pair into one accumulator, with
  no early exit.
- `bcrypt_gensalt`: draws 16 random bytes. It clamps the work factor to 4..31,
  replacing an out-of-range value with the default, and asks
  `crypt_gensalt_rn` for a "$2a$" salt.
- `bcrypt_hashpw`: hashes a password under a salt with `crypt_rn`.
- `bcrypt_checkpw`: rehashes the password, using the stored hash itself as the
  salt, and compares the result with the stored hash in constant time.
- `bcrypt_sha512_base64` and `bcrypt_sha3_512_base64`: a length guard, then a
  512-bit digest rendered as base64.

Files:

- `cstrings.dfy`: bytes are `bv8`. A C string (`CStr`) is the sequence of
  bytes before its NUL terminator, so `strlen` is the sequence length.
- `options.dfy`: `Option`, where `None` stands for a NULL result.
- `timing_safe.dfy`: the comparison. It has a specification function and the
  loop method proved against it.
- `bcrypt.dfy`: the constants, the work-factor clamp, and the three password
  entry points.
- `digest.dfy`: the two digest wrappers.

The foreign primitives are parameters of the methods:

- `getentropy` is an optional 16-byte value; `None` means it failed.
- `crypt_gensalt_rn` and `crypt_rn` are arrow functions that return `Option`.
- `sha512_calc`, `FIPS202_SHA3_512` and `base64_calc` are arrow functions.

Each caller-owned output buffer (`salt`, `hash`, the local `outhash`, `digest`)
is a returned string. A string that a primitive writes into a
`char[BCRYPT_HASHSIZE]` output buffer has type `HashStr` (shorter than 64
bytes). Inputs declared as such arrays (`salt` of `bcrypt_hashpw`, `hash` of
`bcrypt_checkpw`) are plain `CStr`s, since C passes them as pointers.

`bcrypt.h` is not part of this model. Its constants are taken at their
conventional values: `BCRYPT_HASHSIZE` is 64 and `BCRYPT_DEFAULT_WORK_FACTOR`
is 10. The clamp itself (`ClampWorkFactor`) is proved for any fallback in
4..31, so the range property does not depend on that value.

## Model

| member | source | states |
|---|---|---|
| `TimingSafe.OrOfXors` | bcrypt.c:54-56 | the accumulator `ret` after `n` iterations; every bit set in any of the first `n` byte-pair XORs is set in it, so no later pair hides an earlier difference |
| `TimingSafe.StrcmpValue` | bcrypt.c:35-59 | the value the comparison returns, the reference the loop is proved against: 1 for unequal lengths, otherwise the accumulator; always in 0..255 |
| `TimingSafe.OrOfXorsZeroIff` | bcrypt.c:54-56 | the accumulator after `n` iterations is zero exactly when the first `n` byte pairs are equal |
| `TimingSafe.StrcmpZeroIffEqual` | bcrypt.c:33-59 | the comparison's value is 0 if and only if the two strings are byte-for-byte equal |
| `TimingSafe.TimingSafeStrcmp` | bcrypt.c:35-59 | returns 1 for unequal lengths without reading a byte; otherwise visits every index in order exactly once (the trace depends on the lengths only); the result is the OR of XORs, 0 iff equal, in 0..255 |
| `Bcrypt.ClampWorkFactor` | bcrypt.c:74 | for any fallback in 4..31: the caller's factor exactly when it lies in 4..31, the fallback otherwise; always in 4..31 |
| `Bcrypt.EffectiveWorkFactor` | bcrypt.c:74 | the work factor is the caller's exactly when it lies in 4..31, otherwise it is the default; either way it lies in 4..31 |
| `Bcrypt.Gensalt` | bcrypt.c:61-78 | 1 exactly when entropy fails, and then the salt generator is never called; otherwise one call with "$2a$", the clamped factor and the random bytes; 2 exactly when that call fails; 0 with the generated salt otherwise |
| `Bcrypt.Hashpw` | bcrypt.c:80-85 | 1 exactly when `crypt_rn` fails; 0 with its hash otherwise |
| `Bcrypt.CheckResult` | bcrypt.c:87-97 | -1 exactly when rehashing with the stored hash as salt fails; 0 exactly when the rehash equals the stored hash; always in -1..255 |
| `Bcrypt.Checkpw` | bcrypt.c:87-97 | rehashes using the stored hash as the salt; -1 exactly on a failed rehash (never 0 on failure); otherwise exactly the timing-safe comparison of the stored hash and the rehash; 0 only if the rehash equals the stored hash |
| `Bcrypt.HashThenCheckMatches` | bcrypt.c:80-97 | a hash made from a password verifies against that password when the primitive reproduces it from its own embedded salt |
| `Bcrypt.WrongPasswordMismatches` | bcrypt.c:92-96 | a rehash that differs from the stored hash gives a positive mismatch code, never a match |
| `Digest.Sha512Base64` | bcrypt.c:99-110 | 1 exactly when the length exceeds ULONG_MAX; otherwise 0 with base64 of the SHA-512 digest |
| `Digest.Sha3512Base64` | bcrypt.c:112-123 | 1 exactly when the length exceeds ULLONG_MAX; otherwise 0 with base64 of the SHA3-512 digest |

## Left out

- The Blowfish key schedule and rounds (`crypt_rn`, `crypt_gensalt_rn`) are foreign code. They are uninterpreted function parameters.
- `getentropy` is operating-system I/O. It is an optional value supplied by the caller.
- `sha512_calc`, `FIPS202_SHA3_512` and `base64_calc` are foreign code. They are uninterpreted function parameters. `keccak.h` holds only prototypes and type aliases.
- Timing and side channels cannot be expressed. The model states only the access pattern: no early exit, every index visited, a trace that depends on lengths alone. Compiler optimisation is not modelled.
- TimingSafe.TimingSafeStrcmp: requires both lengths to be at most INT_MAX. The source stores the `size_t` from `strlen` in an `int` (bcrypt.c:42-43). For longer strings that conversion is implementation-defined. On the usual ABIs it keeps the low 32 bits. Lengths that differ by a multiple of 2^32 then pass the length test, and the loop compares only as many leading bytes as the truncated length. For example, a 2^32+60-byte string whose first 60 bytes equal a 60-byte string compares as equal (0). A negative truncated length compares nothing and also gives 0. The model does not cover such strings.
- Bcrypt.Checkpw: requires the stored hash's length to be at most INT_MAX, for the comparison above. The source declares the parameter as `char hash[BCRYPT_HASHSIZE]`, so a conforming stored hash is shorter than 64 bytes and always meets this.
- Buffer contents after a failure are not modelled. On a nonzero code the methods return an empty string in place of whatever the buffer holds.
- Buffer capacities are not modelled beyond `HashStr`. The size arguments passed to the primitives (`RANDBYTES`, `BCRYPT_HASHSIZE`) are implied by the types.
- Digest.Sha512Base64 and Digest.Sha3512Base64 take the platform's ULONG_MAX and ULLONG_MAX as parameters. The guards can fire only where that type is narrower than `size_t`.
- `errno` and other global state touched by the primitives are not modelled.
