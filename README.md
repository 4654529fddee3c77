# cuid2 identifier generator — a Dafny model

This project models the core of the cuid2 library (`src/index.js`). The library makes
collision-resistant identifiers. Each identifier is:

- a random lower-case letter;
- followed by characters of a SHA3-512 hex digest;
- the digest is taken over four parts: the current time in base 36, a random base-36 salt
  of `max(length, 0)` characters for the configured `length`, the value of a session counter, and a fingerprint of the host.

The model also covers the validator `isCuid`, which checks a string's length and its
character set `[0-9a-z]`.

The project has two modules:

- `JsText` (`js_text.dfy`) defines the JavaScript string behaviour the code relies on, exactly
  as JavaScript does it:
  - `Number.prototype.toString(36)`, for non-negative and negative integers;
  - `Array.prototype.toString`, a comma join;
  - `String.prototype.substring`, which clamps its bounds and swaps them when start > end;
  - `String.prototype.slice` with one argument.
- `Cuid` (`cuid.dfy`) defines the library itself:
  - `createEntropy` is a method with a `while` loop over a `RandomSource` object, proved
    against the function `Entropy`.
  - `hash`, `randomLetter`, the fingerprint computation and the identifier's shape are
    functions.
  - `createFingerprint` is a method that draws 32 times.
  - `createCounter` is a `Counter` class whose `Next` post-increments its `count` field.
  - `init` is the constructor of a `Generator` class; the `cuid2` closure it returns is
    `Generator.Next`.
  - `isCuid` is a predicate.

Randomness is modelled as follows:

- A random source is a `RandomSource` object: an infinite tape of draws and a position that
  each `Random()` call advances.
- A draw stands for the double returned by `random()`. It is the exact fraction `n / 2^53`
  with `0 <= n < 2^53`, the grid on which `Math.random` returns its values.
- So `Math.floor(random() * k)` becomes the integer `n * k / 2^53`. It is always below `k`.

SHA3-512 is a parameter of type `Sha3`: any function from strings to 128 lower-case hex
characters. `Date.now()` is the parameter `now` of `Generator.Next`.

Three consequences of the code as written are stated and proved here. In each, the code
does something other than its calls suggest: `.toString(36)` looks like a base conversion,
`length` looks like the identifier's length, and the name `isCuid` suggests the shape of
a generated identifier:

- `hash` calls `.toString(36)` on the digest. The digest is already a string, so this does
  nothing. The hash is therefore the hex digest minus its first character: 127 hex
  characters (`Hash`).
- Identifiers are cut with `substring(1, length)`:
  - a `length` of 0 or less still gives a two-character identifier;
  - a `length` above 127 gives 127 characters (`IdLength`, `CuidShape`).
- `isCuid` does not require a leading letter. `"123"` is accepted (`LeadingDigitIsCuid`).

## Model

| member | source | states |
|---|---|---|
| JsText.ToString36 | src/index.js:72-73 | `n.toString(36)` is non-empty and over `[0-9a-z]`; it is one character exactly when `n < 36`; it starts with `0` only for zero |
| JsText.ToString36RoundTrip | src/index.js:72-73 | reading the base-36 rendering back yields the original number |
| JsText.ToString36Injective | src/index.js:72 | different clock readings give different base-36 strings |
| JsText.IntToString36 | src/index.js:73 | `count.toString(36)` is non-empty and starts with a minus sign exactly when the count is negative |
| JsText.IntToString36Injective | src/index.js:73 | different counts, negative ones included, give different base-36 strings |
| JsText.JoinLength | src/index.js:42 | the length of the joined key names is the total length of the keys plus one comma between each pair |
| JsText.JoinHoldsParts | src/index.js:42 | the joined key names hold every key at its offset, with a comma just before every key but the first |
| JsText.JoinEmptyIff | src/index.js:42-43 | the joined key string is empty exactly when there are no keys or a single empty key, which decides the branch taken at line 43 |
| JsText.SubstringInRange | src/index.js:47 | `substring` with in-range ordered bounds is the slice between them |
| JsText.SubstringSymmetric | src/index.js:81 | `substring` gives the same result whichever bound comes first |
| JsText.SliceFrom | src/index.js:19 | `slice(start)` yields a suffix of the string; from an in-range start it has `|s| - start` characters, from a negative start `min(-start, |s|)` |
| Cuid.FloorTimes | src/index.js:11 | `Math.floor(random() * k)` on a draw is a natural below `k` |
| Cuid.FloorTimesIsFloor | src/index.js:11 | that natural is the floor of the draw's exact product with `k` |
| Cuid.RandomSource.constructor | src/index.js:62 | a random source starts at the first draw of its tape |
| Cuid.RandomSource.Random | src/index.js:62 | each `random()` call returns the next draw and consumes exactly one |
| Cuid.Entropy | src/index.js:7-14 | `n` draws give exactly `n` base-36 characters |
| Cuid.EntropyAt | src/index.js:10-12 | character `i` of the entropy is the base-36 digit of `floor(36 * draw i)` |
| Cuid.CreateEntropy | src/index.js:7-14 | the loop builds exactly `Entropy` of the next `max(length, 0)` draws and consumes that many draws |
| Cuid.Hash | src/index.js:16-20 | the hash is 127 hex characters: the SHA3-512 digest with its first character removed |
| Cuid.AlphabetIsLowercase | src/index.js:22-24 | the alphabet is `a`..`z` in order; a character is in it exactly when it is a lower-case letter |
| Cuid.RandomLetter | src/index.js:26-27 | the first letter is always a lower-case letter of the alphabet |
| Cuid.EveryLetterDrawable | src/index.js:26-27 | every lower-case letter is the result of some draw |
| Cuid.FingerprintSource | src/index.js:42-45 | the entropy alone is hashed exactly when the host has no keys or a single empty key name (whose join is empty); otherwise the joined keys come first, then the entropy |
| Cuid.FingerprintShape | src/index.js:47 | the fingerprint is the first 32 characters of the hash of its source, so 32 hex characters |
| Cuid.EmptyGlobalsUseEntropyOnly | src/index-test.js:98-111 | an empty global object falls back on entropy alone and still gives 32 characters |
| Cuid.CreateFingerprint | src/index.js:35-48 | `createFingerprint` hashes the keys and 32 fresh draws; the result is 32 hex characters, and 32 draws are consumed |
| Cuid.Counter.constructor | src/index.js:50 | `createCounter(count)` starts from `count` |
| Cuid.Counter.Next | src/index.js:50-52 | each call returns the current count and then increments it by one |
| Cuid.CountFromTen | src/index-test.js:70-82 | four calls of a counter created at 10 return `[10, 11, 12, 13]` |
| Cuid.HashInputInjective | src/index.js:72-79 | for one clock reading and fingerprint and salts of one length, the hash input determines both the salt and the count |
| Cuid.SuccessiveCallsHashDifferently | src/index.js:72-79 | two successive calls in the same millisecond hash different inputs whatever their salts (of the one configured length), since the count has moved on |
| Cuid.CuidShape | src/index.js:67-82 | an identifier has `IdLength(length)` characters: a lower-case letter, then hex characters |
| Cuid.CuidBody | src/index.js:79-81 | for `1 <= length <= 127` the identifier has exactly `length` characters: the drawn letter, then hash characters 1 to `length - 1` |
| Cuid.ConfiguredLengths | src/index-test.js:26-67 | the default length (24), 10 and 32 give identifiers of exactly those lengths |
| Cuid.Generator.constructor | src/index.js:58-66 | `init` keeps the supplied options; a missing counter starts at `floor(random() * 476782367)` from one draw; a missing fingerprint is `createFingerprint` over the host keys |
| Cuid.Generator.Next | src/index.js:67-82 | `cuid2()` draws a letter, post-increments the counter, draws a salt of `max(length, 0)` characters and returns the letter plus the clamped substring of the hash of time, salt, count and fingerprint; the result is a lower-case letter followed by base-36 characters |
| Cuid.MatchesIdPatternIff | src/index.js:89 | `/^[0-9a-z]+$/` matches exactly the non-empty strings over `[0-9a-z]` |
| Cuid.IsCuidIff | src/index.js:87-103 | `isCuid` holds exactly when the string is non-empty, over `[0-9a-z]`, and its length is within `minLength..maxLength` |
| Cuid.EmptyIsNotCuid | src/index-test.js:139-149 | the empty string is rejected, whatever the bounds |
| Cuid.ThreeIdsAreNotCuid | src/index-test.js:127-137 | three default-length identifiers run together (72 characters) are rejected |
| Cuid.LeadingDigitIsCuid | src/index.js:89-96 | a string beginning with a digit is accepted; no leading letter is required |
| Cuid.GeneratedIdIsCuidIff | src/index-test.js:115-125 | a generated identifier passes `isCuid` with the default bounds exactly when the configured length is at most 0 or between 2 and 32 |

## Left out

- SHA3-512 itself (`js-sha3`) is not modelled. It is the parameter `sha3`, which returns 128 lower-case hex characters. The UTF-8 encoding of its input is part of that function.
- Floating point is not modelled. A draw is the exact fraction `n / 2^53`, and `random() * k` is the exact product, so IEEE rounding of that product is left out. Draws from a caller's `random` that are not on this grid are also left out. The code does not clamp such draws: a `random()` that returned 1 would make `createEntropy` append `"10"`, which can overshoot `length`, and make `randomLetter` return `undefined`, so the identifier would start with `"undefined"`.
- `Date.now()` is the parameter `now` of `Generator.Next`, a non-negative integer.
- The default `globalObj` (`global`, then `window`, then `{}`) comes from host introspection. It is not modelled: the host's key names are the parameter `globals`, and `Object.keys` ordering is whatever the caller passes. A caller-supplied `globalObj` is the same parameter.
- `Math.random` used inside `createFingerprint` is the separate source `hostRandom`. It may be the same object as `random`. Its draws follow the same model.
- `createId` (the module-level generator) and `module.exports` are not modelled. `createId` is `init()` with every default, which is the `Generator` constructor with `None` options.
- Cuid.Counter.Next: the counter is an unbounded integer, so the loss of precision beyond `2^53` in a JavaScript number is not modelled.
- A caller-supplied `counter` option may be any function. Only counters made by `createCounter` are modelled.
- Cuid.Generator.constructor: `length` is an integer. Fractional, `NaN` or non-number lengths are not modelled.
- The default `length = 4` of `createEntropy` is never used by the library. Its default `random = Math.random` is used by `createFingerprint`, which passes only a length; that default is the source `hostRandom`. `CreateEntropy` always takes both arguments.
- `isCuid` on non-string inputs is not modelled; `IsCuid` takes a string. In the code, `id.length` is read before the `typeof` test, so `null` or `undefined` would throw rather than return false. The empty `try`/`finally` changes nothing.
- JavaScript string lengths count UTF-16 code units, and the model counts characters. The two differ only on characters outside `[0-9a-z]`, which `isCuid` rejects anyway, and on the non-emptiness test of the joined keys, where they agree.
- `getConstants` is `GetConstants`, a plain record of 24 and 32. It has no contract of its own. Its values are used in `ConfiguredLengths`.
- The collision and histogram statistics claimed in comments (the ~22k-host estimate at line 54, the bias that dropping the first digest character avoids) are probabilistic. They are not stated.
- The test harness, its `info` logging, and the collision test script are not modelled.
