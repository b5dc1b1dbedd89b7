# cables utility layer: validators, environment buffer, RNG seed

This project models the parts of the daemon's utility layer (`src/util.c`) whose behaviour can be stated exactly, and proves properties of them:

- **Format validators.** `vfyhex` and `vfybase32` check that a string has exactly `sz` characters, all from a fixed alphabet. They compare the length first, then scan and return at the first bad character (module `Validators`). Each is a method with a loop invariant, proved against a predicate (`IsHex`, `IsBase32`). Lemmas tie each alphabet to an independent table of symbols. For base-32, the table is the alphabet of section 6 of RFC 4648, lowercased and without padding.
- **Environment buffer.** `alloc_env` looks up a variable. It then allocates `|value| + |suffix| + 1` characters, copies the value with `strncpy` and copies the suffix and terminator with `strcpy` (module `Env`). The environment is a `map`. The two `exit(EXIT_FAILURE)` paths become an `Exit` outcome: the variable is not set, or `malloc` failed. The buffer is a fresh `array<char>`.
- **RNG seed.** `rand_init` seeds the generator with `((unsigned) tv_sec << 29) ^ (unsigned) tv_nsec` when the monotonic clock can be read (module `Rng`). The `timespec` fields are 64-bit words (`bv64`). The casts keep the low 32 bits, and the shift is a 32-bit shift that drops the high bits. The generator is a class whose field is the seed `srandom` was last given. Before any call it is 1, which is how POSIX says `random` behaves when never seeded.

C strings are NUL-free `string`s (`CStrings.CStr`), so `strlen` is `|s|`. `CStrings.Denoted` reads a buffer back as the C string up to its first NUL.

The seed combination is sometimes described as a 29-bit rotation of the seconds. The code does a plain left shift, and the model follows the code. As a consequence, only the seconds modulo 8 reach the seed (`Rng.SeedRepeatsEveryEightSeconds`).

## Model

| member | source | states |
|---|---|---|
| `Validators.VfyHex` | src/util.c:37-46 | returns 1 or 0; 1 exactly when `\|s\| == sz` and every character is in `0-9` or `a-f`; 0 whenever the length differs from `sz` |
| `Validators.VfyBase32` | src/util.c:50-59 | returns 1 or 0; 1 exactly when `\|s\| == sz` and every character is in `a-z` or `2-7`; 0 whenever the length differs from `sz` |
| `Validators.HexValue` | src/util.c:42 | each accepted hex character stands for a digit value below 16 |
| `Validators.HexSymbol` | src/util.c:42 | the symbol of each value below 16 is accepted by the hex check |
| `Validators.HexAlphabetIsSixteenSymbols` | src/util.c:41-43 | value and symbol are inverse: the accepted hex characters are exactly the 16 lowercase digit symbols |
| `Validators.Base32Value` | src/util.c:55 | each accepted base-32 character stands for a value below 32 |
| `Validators.Base32Symbol` | src/util.c:55 | the symbol of each value below 32 (RFC 4648 section 6, lowercase) is accepted by the base-32 check |
| `Validators.Base32AlphabetIsRfc4648` | src/util.c:54-56 | value and symbol are inverse: the accepted characters are exactly the 32 RFC 4648 symbols, lowercased; the pad character `=` is rejected |
| `Validators.RejectedCharacters` | src/util.c:41-56 | an uppercase letter anywhere makes both checks fail; a `0`, `1`, `8` or `9` makes the base-32 check fail |
| `Validators.EmptyString` | src/util.c:37-59 | the empty string passes both checks exactly when `sz == 0` |
| `Validators.SampleInputs` | src/util.c:37-59 | `a1b2c3` is 6 hex digits but `A1B2C3` is not, and it is not 5; `abcdefgh` is 8 base-32 characters but `abcdefg1` and `ABCDEFGH` are not |
| `CStrings.Denoted` | src/util.c:80 | the C string read from a buffer is a NUL-free prefix of it, followed by a NUL when shorter than the buffer |
| `CStrings.DenotedTerminated` | src/util.c:80 | a buffer holding `s`, a NUL, and anything after denotes exactly `s` |
| `Env.StrNCopy` | src/util.c:79 | `strncpy` writes the first `n` characters of the source (NUL-padded) at the offset and changes nothing else |
| `Env.StrCopy` | src/util.c:80 | `strcpy` writes the source and its NUL at the offset and changes nothing else |
| `Env.AllocEnv` | src/util.c:63-83 | an unset variable exits with `NotSet(name)` and no buffer; a failed `malloc` exits with `MallocFailed`; otherwise a fresh buffer of length `\|value\| + \|suffix\| + 1` holding value, then suffix, then NUL |
| `Env.AllocatedStringIsValueThenSuffix` | src/util.c:73-82 | the C string in the returned buffer is `value + suffix`, one shorter than the buffer |
| `Rng.ToUnsigned` | src/util.c:91 | `(unsigned)` on a 64-bit word is the word modulo 2^32 |
| `Rng.Seed` | src/util.c:91 | bits 0..28 of the seed are those of `(unsigned) nsec`; bits 29..31 are the seconds' three low bits XOR bits 29..31 of `(unsigned) nsec` |
| `Rng.SeedOfValidTimespec` | src/util.c:91 | for `nsec < 10^9`, the seed's low 29 bits are `nsec`'s low 29 bits and its top two bits are bits 1 and 2 of the seconds |
| `Rng.SeedSeparatesNanoseconds` | src/util.c:91 | within one second, different valid nanosecond counts give different seeds |
| `Rng.SeedRepeatsEveryEightSeconds` | src/util.c:91 | seconds eight apart give the same seed, since the shift truncates rather than rotates |
| `Rng.Generator.Init` | src/util.c:87-94 | on a successful clock read the generator is seeded with `Seed(sec, nsec)` and nothing is logged; on a failed read the seed is unchanged and a warning is logged |

## Left out

- `syslog_init` and `flog` (src/util.c:15-33): output only, through printf-style formatting. The model keeps only the fact that a log line is written: the `Exit` outcome of `alloc_env` and the `warned` result of `rand_init`. The text of the messages and `%m`/`errno` are not modelled.
- `getenv`, `malloc`, `clock_gettime`, `srandom` and `exit` are calls into the C library. Each is an input or an outcome here: an environment map, a `mallocFails` flag, a `ClockRead` value, the `seed` field and the `Exit` outcome. `malloc` may fail or not for any input, so the flag is a free parameter of `AllocEnv`.
- `rand_shift` (src/util.c:98-100) and `getmontime` (src/util.c:104-113): floating-point arithmetic. The `[-1, 1]` bound of `rand_shift` depends on `random()`'s range and on double rounding. That the monotonic clock never decreases is a property of the operating system, not of this code.
- `sleepsec` (src/util.c:119-130): blocking, signal interaction (`EINTR`) and float-to-`timespec` conversion. It does nothing when `sec <= 0` (src/util.c:123).
- Ownership of the buffer returned by `alloc_env`: the caller frees it, and nothing here tracks that beyond `fresh`.
- Concurrent use of the generator: one thread is assumed.
