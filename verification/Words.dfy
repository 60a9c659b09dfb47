/** Fixed-width unsigned words and the wrapping arithmetic of the devices. */
module Words {
  const U16_LIMIT := 0x1_0000
  const U32_LIMIT := 0x1_0000_0000
  const HALF_U32 := 0x8000_0000
  const U64_LIMIT := 0x1_0000_0000_0000_0000

  type U16 = x: int | 0 <= x < 0x1_0000
  type U32 = x: int | 0 <= x < 0x1_0000_0000
  type U64 = x: int | 0 <= x < 0x1_0000_0000_0000_0000
  newtype Byte = x: int | 0 <= x < 256

  datatype Option<+T> = None | Some(value: T)

  function Min(a: int, b: int): int {
    if a <= b then a else b
  }

  function SaturatingSub(a: int, b: int): int {
    if a <= b then 0 else a - b
  }

  function Wrap16(n: int): U16 {
    n % U16_LIMIT
  }

  function Wrap32(n: int): U32 {
    n % U32_LIMIT
  }

  predicate IsPowerOfTwo(n: nat) {
    n == 1 || (n > 1 && n % 2 == 0 && IsPowerOfTwo(n / 2))
  }

  /** The integer congruent to `word` that lies at most half the word range away from `base`. */
  function Nearest(word: nat, base: int): int {
    base + (word - base + HALF_U32) % U32_LIMIT - HALF_U32
  }

  /** `Nearest` is the only congruent integer in the half-open window around `base`. */
  lemma NearestIsUnique(word: U32, base: int, n: int)
    ensures base - HALF_U32 <= Nearest(word, base) < base + HALF_U32
    ensures Wrap32(Nearest(word, base)) == word
    ensures Wrap32(n) == word && base - HALF_U32 <= n < base + HALF_U32 ==> n == Nearest(word, base)
  {
  }

  lemma WrappedDifference(a: int, b: int)
    ensures Wrap32(Wrap32(a) - Wrap32(b)) == Wrap32(a - b)
    ensures 0 <= a - b < U32_LIMIT ==> Wrap32(a - b) == a - b
    ensures -U32_LIMIT <= a - b < 0 ==> Wrap32(a - b) == a - b + U32_LIMIT
  {
  }

  lemma WrapSmall(n: nat)
    requires n < U32_LIMIT
    ensures Wrap32(n) == n
  {
  }

  lemma WrappedSum(base: int, n: int)
    ensures Wrap32(Wrap32(base) + n) == Wrap32(base + n)
  {
  }
}
