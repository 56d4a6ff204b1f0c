/** Shared vocabulary of the canister: Rust's fixed-width integers, byte
    strings, principals and the `Result<T, String>` every endpoint returns. */
module Common {

  const U8_LIMIT: nat := 0x100
  const U32_LIMIT: nat := 0x1_0000_0000
  const U64_LIMIT: nat := 0x1_0000_0000_0000_0000
  /** `u128::MAX` */
  const U128_MAX: nat := 0xFFFF_FFFF_FFFF_FFFF_FFFF_FFFF_FFFF_FFFF

  /** `u8`, also the element type of byte strings. */
  type Byte = b: int | 0 <= b < U8_LIMIT
  type U32 = n: int | 0 <= n < U32_LIMIT
  type U64 = n: int | 0 <= n < U64_LIMIT
  type U128 = n: int | 0 <= n <= U128_MAX

  /** A principal is an opaque blob of bytes; only equality is used. */
  type Principal = seq<Byte>

  /** A ledger sub-account, `[u8; 32]` (its length is stated where it matters). */
  type Subaccount = seq<Byte>

  /** Rust's `Result<T, String>`. */
  datatype Result<+T> = Ok(value: T) | Err(error: string)

  datatype Option<+T> = None | Some(value: T)

  function Reverse<T>(s: seq<T>): (r: seq<T>)
    ensures |r| == |s|
    ensures forall i :: 0 <= i < |s| ==> r[i] == s[|s| - 1 - i]
  {
    if s == [] then [] else Reverse(s[1..]) + [s[0]]
  }

  /** Reversing `s + [x]` puts `x` first. */
  lemma ReverseSnoc<T>(s: seq<T>, x: T)
    ensures Reverse(s + [x]) == [x] + Reverse(s)
  {
    assert forall i :: 0 <= i < |s| + 1 ==> Reverse(s + [x])[i] == ([x] + Reverse(s))[i];
  }
}
