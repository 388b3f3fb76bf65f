/** Vocabulary shared by every module: optional values, results, and the fixed-width
    integers of the contracts.

    `u32` and `u64` are subset types of the unbounded integers.  The release profile is
    built with overflow checks, so plain `+` in the contracts traps when a value leaves its
    type; here Dafny proves that each assignment stays inside the type, and the operations
    that saturate in the contracts are written out. */
module Prelude {
  datatype Option<+T> = None | Some(value: T) {
    function GetOr(default: T): T {
      match this
      case Some(v) => v
      case None => default
    }
  }

  datatype Result<+T, +E> = Ok(value: T) | Err(error: E)

  const U32_MAX: int := 0xFFFF_FFFF
  const U64_MAX: int := 0xFFFF_FFFF_FFFF_FFFF

  type u32 = n: int | 0 <= n <= 0xFFFF_FFFF
  type u64 = n: int | 0 <= n <= 0xFFFF_FFFF_FFFF_FFFF
  type byte = n: int | 0 <= n < 256

  function Min(a: int, b: int): int {
    if a <= b then a else b
  }

  /** `u32::clamp`. */
  function Clamp(n: u32, low: u32, high: u32): u32
    requires low <= high
  {
    if n < low then low else if n > high then high else n
  }

  /** A number in range is kept, one outside is moved to the nearer end. */
  lemma ClampKeepsInRange(n: u32, low: u32, high: u32)
    requires low <= high
    ensures low <= n <= high ==> Clamp(n, low, high) == n
    ensures n < low ==> Clamp(n, low, high) == low
    ensures n > high ==> Clamp(n, low, high) == high
  {
  }

  /** `u32::saturating_add`. */
  function SatAdd(a: u32, b: u32): u32 {
    if a + b > U32_MAX then U32_MAX else a + b
  }

  /** `u32::saturating_sub`. */
  function SatSub(a: u32, b: u32): u32 {
    if a < b then 0 else a - b
  }

  /** `u32::saturating_mul`. */
  function SatMul(a: u32, b: u32): u32 {
    if 0 <= a * b <= U32_MAX then a * b else U32_MAX
  }

  /** `u64::saturating_sub`. */
  function SatSub64(a: u64, b: u64): u64 {
    if a < b then 0 else a - b
  }

  /** No element occurs twice. */
  ghost predicate NoDuplicates<T>(s: seq<T>) {
    forall i, j :: 0 <= i < j < |s| ==> s[i] != s[j]
  }

  lemma ConcatNoDuplicates<T>(a: seq<T>, b: seq<T>)
    requires NoDuplicates(a) && NoDuplicates(b)
    requires forall x :: x in a ==> x !in b
    ensures NoDuplicates(a + b)
  {
    var c := a + b;
    forall i, j | 0 <= i < j < |c| ensures c[i] != c[j] {
      if i < |a| <= j {
        assert c[i] in a && c[j] in b;
      }
    }
  }
}
