/**
 * The cuid2 identifier generator: entropy from a random source, a hash that
 * drops the first digest character, a host fingerprint, a post-increment
 * counter, the generator built from them, and the validator `isCuid`.
 *
 * What the host provides is injected: the SHA3-512 digest (as a function whose
 * every output is 128 lowercase hex characters), the stream of `random()`
 * draws, the clock reading, and the key names of the global object.
 */
module Cuid {
  import opened JsText

  datatype Option<T> = None | Some(value: T)

  const DefaultLength: int := 24
  const BigLength: int := 32
  /** The default counter seed is drawn below this bound. */
  const InitialCountMax: nat := 476782367

  datatype Constants = Constants(defaultLength: int, bigLength: int)

  /** `getConstants()`. */
  function GetConstants(): Constants
  {
    Constants(DefaultLength, BigLength)
  }

  // ---------------------------------------------------------------------------
  // Random draws

  /**
   * A value of `random()` in [0, 1), held exactly as the fraction
   * `n / Resolution` (a multiple of 2^-53, as a double in [0, 1) drawn by a
   * uniform generator is).
   */
  const Resolution: nat := 0x20_0000_0000_0000
  type Draw = n: nat | n < Resolution

  /** `Math.floor(random() * k)` for the draw `u`, computed exactly. */
  function FloorTimes(u: Draw, k: nat): (r: nat)
    requires 0 < k
    ensures r < k
  {
    u * k / Resolution
  }

  /** `FloorTimes(u, k)` is the largest `r` with `r <= (u / Resolution) * k`. */
  lemma FloorTimesIsFloor(u: Draw, k: nat)
    requires 0 < k
    ensures FloorTimes(u, k) * Resolution <= u * k < (FloorTimes(u, k) + 1) * Resolution
  {
  }

  /**
   * A `random` function: the infinite sequence of values it returns, and how
   * many of them have been consumed so far.
   */
  class RandomSource {
    const tape: nat -> Draw
    var position: nat

    constructor (tape: nat -> Draw)
      ensures this.tape == tape && position == 0
    {
      this.tape := tape;
      position := 0;
    }

    /** One call of `random()`. */
    method Random() returns (u: Draw)
      modifies this
      ensures u == tape(old(position))
      ensures position == old(position) + 1
    {
      u := tape(position);
      position := position + 1;
    }
  }

  // ---------------------------------------------------------------------------
  // createEntropy

  /**
   * The string `createEntropy` builds from `n` draws starting at `start`:
   * each draw scaled to a digit below 36 and rendered in base 36.
   */
  function Entropy(tape: nat -> Draw, start: nat, n: nat): (e: string)
    ensures |e| == n
    ensures AllBase36(e)
  {
    if n == 0 then ""
    else Entropy(tape, start, n - 1) + ToString36(FloorTimes(tape(start + n - 1), 36))
  }

  /** Character `i` of the entropy is the base-36 digit of draw `start + i`. */
  lemma {:induction false} EntropyAt(tape: nat -> Draw, start: nat, n: nat, i: nat)
    requires i < n
    ensures Entropy(tape, start, n)[i] == DigitChar(FloorTimes(tape(start + i), 36))
  {
    if i < n - 1 {
      EntropyAt(tape, start, n - 1, i);
    }
  }

  /**
   * `createEntropy(length, random)`: appends one base-36 digit per call of
   * `random()` until the string is `length` characters long.
   */
  method CreateEntropy(length: int, random: RandomSource) returns (entropy: string)
    modifies random
    ensures entropy == Entropy(random.tape, old(random.position), Max(length, 0))
    ensures random.position == old(random.position) + Max(length, 0)
  {
    entropy := "";
    while |entropy| < length
      invariant |entropy| <= Max(length, 0)
      invariant random.position == old(random.position) + |entropy|
      invariant entropy == Entropy(random.tape, old(random.position), |entropy|)
      decreases length - |entropy|
    {
      var u := random.Random();
      entropy := entropy + ToString36(FloorTimes(u, 36));
    }
  }

  // ---------------------------------------------------------------------------
  // hash

  const DigestLength: nat := 128

  /** A SHA3-512 digest as js-sha3 renders it: 128 lowercase hex characters. */
  predicate IsDigestText(s: string)
  {
    |s| == DigestLength && AllHex(s)
  }

  /** A digest: 128 lowercase hex characters. */
  type DigestText = s: string | IsDigestText(s) witness seq(DigestLength, _ => '0')

  /**
   * The digest function `sha3_512`, an injected parameter of the model: any
   * total function from strings to digests.
   */
  type Sha3 = string -> DigestText

  /**
   * `hash(input)`: the digest with its first character dropped.
   * (`toString(36)` on a string returns the string unchanged.)
   */
  function Hash(sha3: Sha3, input: string): (h: string)
    ensures |h| == DigestLength - 1
    ensures AllHex(h)
    ensures sha3(input) == sha3(input)[..1] + h
  {
    SliceFrom(sha3(input), 1)
  }

  // ---------------------------------------------------------------------------
  // alphabet and randomLetter

  /** `alphabet`: the 26 letters from character code 97 on. */
  function Alphabet(): seq<char>
  {
    seq(26, i requires 0 <= i < 26 => ('a' as int + i) as char)
  }

  lemma AlphabetIsLowercase()
    ensures Alphabet() == "abcdefghijklmnopqrstuvwxyz"
    ensures forall c :: c in Alphabet() <==> IsLowerLetter(c)
  {
  }

  /** `randomLetter(random)` for the draw `u`: the letter at `floor(u * 26)`. */
  function RandomLetter(u: Draw): (c: char)
    ensures c in Alphabet()
    ensures IsLowerLetter(c)
  {
    Alphabet()[FloorTimes(u, |Alphabet()|)]
  }

  /** Every letter is the pick of some draw. */
  lemma EveryLetterDrawable(c: char)
    requires IsLowerLetter(c)
    ensures exists u: Draw :: RandomLetter(u) == c
  {
    var k := c as int - 'a' as int;
    var n := (k * Resolution + 25) / 26;
    assert n < Resolution;
    var u: Draw := n;
    assert FloorTimes(u, 26) == k;
    assert RandomLetter(u) == c;
  }

  // ---------------------------------------------------------------------------
  // createFingerprint

  /**
   * The string `createFingerprint` hashes: the joined global key names followed
   * by the entropy when the names join to a non-empty string, the entropy
   * alone otherwise. In terms of the key list, only no keys at all or a single
   * empty key name leave the entropy alone.
   */
  function FingerprintSource(globals: seq<string>, entropy: string): (source: string)
    ensures (|globals| == 0 || globals == [""]) ==> source == entropy
    ensures !(|globals| == 0 || globals == [""]) ==> source == Join(globals) + entropy
  {
    var keys := Join(globals);
    JoinEmptyIff(globals);
    if |keys| > 0 then keys + entropy else entropy
  }

  /** The fingerprint for the given key names and entropy. */
  function Fingerprint(sha3: Sha3, globals: seq<string>, entropy: string): string
  {
    Substring(Hash(sha3, FingerprintSource(globals, entropy)), 0, BigLength)
  }

  /** The fingerprint is the first 32 characters of the hash of its source. */
  lemma FingerprintShape(sha3: Sha3, globals: seq<string>, entropy: string)
    ensures Fingerprint(sha3, globals, entropy) == Hash(sha3, FingerprintSource(globals, entropy))[..BigLength]
    ensures |Fingerprint(sha3, globals, entropy)| == BigLength
    ensures AllHex(Fingerprint(sha3, globals, entropy))
  {
  }

  /** With no global keys (`{ globalObj: {} }`), only the entropy is hashed. */
  lemma EmptyGlobalsUseEntropyOnly(sha3: Sha3, entropy: string)
    ensures Fingerprint(sha3, [], entropy) == Hash(sha3, entropy)[..BigLength]
  {
  }

  /**
   * `createFingerprint({ globalObj })`, with the key names of `globalObj`
   * passed in and `random` standing for `Math.random`.
   */
  method CreateFingerprint(sha3: Sha3, globals: seq<string>, random: RandomSource) returns (fingerprint: string)
    modifies random
    ensures fingerprint == Fingerprint(sha3, globals, Entropy(random.tape, old(random.position), BigLength))
    ensures |fingerprint| == BigLength && AllHex(fingerprint)
    ensures random.position == old(random.position) + BigLength
  {
    var keys := Join(globals);
    var sourceString: string;
    if |keys| > 0 {
      var entropy := CreateEntropy(BigLength, random);
      sourceString := keys + entropy;
    } else {
      sourceString := CreateEntropy(BigLength, random);
    }
    fingerprint := Substring(Hash(sha3, sourceString), 0, BigLength);
    FingerprintShape(sha3, globals, Entropy(random.tape, old(random.position), BigLength));
  }

  // ---------------------------------------------------------------------------
  // createCounter

  /** `createCounter(count)`: the captured `count` and the closure that post-increments it. */
  class Counter {
    var count: int

    constructor (count: int)
      ensures this.count == count
    {
      this.count := count;
    }

    /** One call of the closure: `count++`. */
    method Next() returns (value: int)
      modifies this
      ensures value == old(count)
      ensures count == old(count) + 1
    {
      value := count;
      count := count + 1;
    }
  }

  /** Four calls of `createCounter(10)`. */
  method CountFromTen() returns (values: seq<int>)
    ensures values == [10, 11, 12, 13]
  {
    var counter := new Counter(10);
    var a := counter.Next();
    var b := counter.Next();
    var c := counter.Next();
    var d := counter.Next();
    values := [a, b, c, d];
  }

  // ---------------------------------------------------------------------------
  // init and cuid2

  /** The string `cuid2` hashes: time, salt, count and fingerprint, in that order. */
  function HashInput(time: nat, salt: string, count: int, fingerprint: string): string
  {
    ToString36(time) + salt + IntToString36(count) + fingerprint
  }

  /**
   * The identifier `cuid2` returns for the letter draw `letter`, the clock
   * reading `time`, the salt, the counter value and the fingerprint.
   */
  function IdFor(sha3: Sha3, length: int, letter: Draw, time: nat, salt: string, count: int, fingerprint: string): string
  {
    [RandomLetter(letter)] + Substring(Hash(sha3, HashInput(time, salt, count, fingerprint)), 1, length)
  }

  /**
   * For one clock reading and one fingerprint, the hash input determines the
   * salt and the counter value among salts of one length.
   */
  lemma HashInputInjective(time: nat, salt1: string, salt2: string, count1: int, count2: int, fingerprint: string)
    requires |salt1| == |salt2|
    requires HashInput(time, salt1, count1, fingerprint) == HashInput(time, salt2, count2, fingerprint)
    ensures salt1 == salt2 && count1 == count2
  {
    var t := ToString36(time);
    var a, b := IntToString36(count1), IntToString36(count2);
    var h := HashInput(time, salt1, count1, fingerprint);
    assert h == t + salt1 + a + fingerprint == t + salt2 + b + fingerprint;
    assert salt1 == h[|t|..|t| + |salt1|] == salt2;
    assert a == h[|t| + |salt1|..|t| + |salt1| + |a|] == b;
    IntToString36Injective(count1, count2);
  }

  /**
   * Two successive calls in the same millisecond hash different inputs,
   * whatever their salts, because the counter has moved on.
   */
  lemma SuccessiveCallsHashDifferently(time: nat, salt1: string, salt2: string, count: int, fingerprint: string)
    requires |salt1| == |salt2|
    ensures HashInput(time, salt1, count, fingerprint) != HashInput(time, salt2, count + 1, fingerprint)
  {
    if HashInput(time, salt1, count, fingerprint) == HashInput(time, salt2, count + 1, fingerprint) {
      HashInputInjective(time, salt1, salt2, count, count + 1, fingerprint);
    }
  }

  /**
   * The length of the identifiers for a configured `length`: `length` itself
   * from 1 to 127; 127 above that (the hash has only 127 characters); 2 at
   * `length <= 0`, where `substring(1, length)` swaps its bounds and keeps
   * the first hash character.
   */
  function IdLength(length: int): nat
  {
    if length <= 0 then 2 else Min(length, DigestLength - 1)
  }

  /**
   * Every identifier has `IdLength(length)` characters, a letter first, and
   * lowercase hex characters after it, taken from the hash from index 1 on.
   */
  lemma CuidShape(sha3: Sha3, length: int, letter: Draw, time: nat, salt: string, count: int, fingerprint: string)
    ensures var id := IdFor(sha3, length, letter, time, salt, count, fingerprint);
      && |id| == IdLength(length)
      && IsLowerLetter(id[0])
      && AllHex(id[1..])
      && AllBase36(id)
  {
  }

  /** For `1 <= length <= 127` the identifier is the letter and `hash(input)[1..length]`. */
  lemma CuidBody(sha3: Sha3, length: int, letter: Draw, time: nat, salt: string, count: int, fingerprint: string)
    requires 1 <= length <= DigestLength - 1
    ensures var id := IdFor(sha3, length, letter, time, salt, count, fingerprint);
      && |id| == length
      && id[0] == RandomLetter(letter)
      && id[1..] == Hash(sha3, HashInput(time, salt, count, fingerprint))[1..length]
  {
  }

  /** The lengths the generator's callers use: the default 24, and 10 and 32. */
  lemma ConfiguredLengths()
    ensures IdLength(GetConstants().defaultLength) == 24
    ensures IdLength(10) == 10 && IdLength(32) == 32
  {
  }

  /** `init(options)` and the `cuid2` function it returns. */
  class Generator {
    const sha3: Sha3
    const random: RandomSource
    const counter: Counter
    const length: int
    const fingerprint: string

    /**
     * `init({ random, counter, length, fingerprint })`. An absent counter is
     * `createCounter(floor(random() * 476782367))`; an absent fingerprint is
     * `createFingerprint()` over the host's global key names `globals`, whose
     * entropy comes from `hostRandom` (`Math.random`, which is also the
     * default `random`, so the two may be the same source).
     */
    constructor (sha3: Sha3, random: RandomSource, counter: Option<Counter>, fingerprint: Option<string>,
                 globals: seq<string>, hostRandom: RandomSource, length: int := DefaultLength)
      modifies random, hostRandom
      ensures this.sha3 == sha3 && this.random == random && this.length == length
      ensures counter.Some? ==> this.counter == counter.value && this.counter.count == old(counter.value.count)
      ensures counter.None? ==>
        fresh(this.counter) && this.counter.count == FloorTimes(random.tape(old(random.position)), InitialCountMax)
      ensures fingerprint.Some? ==> this.fingerprint == fingerprint.value
      ensures fingerprint.None? && (counter.Some? || hostRandom != random) ==>
        this.fingerprint == Fingerprint(sha3, globals, Entropy(hostRandom.tape, old(hostRandom.position), BigLength))
      ensures fingerprint.None? && counter.None? && hostRandom == random ==>
        this.fingerprint == Fingerprint(sha3, globals, Entropy(hostRandom.tape, old(hostRandom.position) + 1, BigLength))
      ensures random.position == old(random.position) + (if counter.None? then 1 else 0)
        + (if fingerprint.None? && hostRandom == random then BigLength else 0)
      ensures hostRandom != random ==>
        hostRandom.position == old(hostRandom.position) + (if fingerprint.None? then BigLength else 0)
    {
      this.sha3 := sha3;
      this.random := random;
      if counter.Some? {
        this.counter := counter.value;
      } else {
        var u := random.Random();
        this.counter := new Counter(FloorTimes(u, InitialCountMax));
      }
      this.length := length;
      if fingerprint.Some? {
        this.fingerprint := fingerprint.value;
      } else {
        var f := CreateFingerprint(sha3, globals, hostRandom);
        this.fingerprint := f;
      }
    }

    /**
     * One call of `cuid2()` at clock reading `now` (`Date.now()`): a letter
     * from one draw, the counter's value, a salt of `length` further draws,
     * and the hash of time, salt, count and fingerprint.
     */
    method Next(now: nat) returns (id: string)
      modifies random, counter
      ensures id == IdFor(sha3, length, random.tape(old(random.position)), now,
        Entropy(random.tape, old(random.position) + 1, Max(length, 0)), old(counter.count), fingerprint)
      ensures random.position == old(random.position) + 1 + Max(length, 0)
      ensures counter.count == old(counter.count) + 1
      ensures |id| == IdLength(length) && IsLowerLetter(id[0]) && AllBase36(id)
    {
      var u := random.Random();
      var firstLetter := RandomLetter(u);
      var time := ToString36(now);
      var c := counter.Next();
      var count := IntToString36(c);
      var salt := CreateEntropy(length, random);
      assert salt == Entropy(random.tape, old(random.position) + 1, Max(length, 0));
      var hashInput := time + salt + count + fingerprint;
      id := [firstLetter] + Substring(Hash(sha3, hashInput), 1, length);
      CuidShape(sha3, length, u, now, salt, c, fingerprint);
    }
  }

  // ---------------------------------------------------------------------------
  // isCuid

  /** The regular expression `/^[0-9a-z]+$/`: one character of the class, then more or none. */
  predicate MatchesIdPattern(s: string)
  {
    0 < |s| && IsBase36Char(s[0]) && (|s| == 1 || MatchesIdPattern(s[1..]))
  }

  lemma {:induction false} MatchesIdPatternIff(s: string)
    ensures MatchesIdPattern(s) <==> 0 < |s| && AllBase36(s)
  {
    if 1 < |s| {
      MatchesIdPatternIff(s[1..]);
      assert AllBase36(s) <==> IsBase36Char(s[0]) && AllBase36(s[1..]) by {
        assert forall i :: 1 <= i < |s| ==> s[i] == s[1..][i - 1];
      }
    }
  }

  /** `isCuid(id, { minLength, maxLength })`, with the defaults 2 and 32. */
  predicate IsCuid(id: string, minLength: int := 2, maxLength: int := BigLength)
  {
    |id| >= minLength && |id| <= maxLength && MatchesIdPattern(id)
  }

  /**
   * `isCuid` holds exactly of the non-empty strings over `[0-9a-z]` whose
   * length is within the bounds; a leading letter is not required.
   */
  lemma IsCuidIff(id: string, minLength: int, maxLength: int)
    ensures IsCuid(id, minLength, maxLength) <==>
      id != "" && minLength <= |id| <= maxLength && AllBase36(id)
  {
    MatchesIdPatternIff(id);
  }

  /** The empty string is rejected whatever the bounds. */
  lemma EmptyIsNotCuid(minLength: int, maxLength: int)
    ensures !IsCuid("", minLength, maxLength)
  {
  }

  /** Three default-length identifiers run together (72 characters) are rejected. */
  lemma ThreeIdsAreNotCuid(a: string, b: string, c: string)
    requires |a| == |b| == |c| == DefaultLength
    ensures !IsCuid(a + b + c)
  {
  }

  /** A string that starts with a digit is accepted. */
  lemma LeadingDigitIsCuid()
    ensures IsCuid("123")
  {
  }

  /**
   * A generated identifier passes `isCuid` with the default bounds exactly
   * when the configured length is at most 0 (two characters) or in 2..32.
   */
  lemma GeneratedIdIsCuidIff(sha3: Sha3, length: int, letter: Draw, time: nat, salt: string, count: int, fingerprint: string)
    ensures IsCuid(IdFor(sha3, length, letter, time, salt, count, fingerprint))
      <==> length <= 0 || 2 <= length <= BigLength
  {
    var id := IdFor(sha3, length, letter, time, salt, count, fingerprint);
    CuidShape(sha3, length, letter, time, salt, count, fingerprint);
    IsCuidIff(id, 2, BigLength);
  }
}
