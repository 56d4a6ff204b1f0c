/** The deposit sub-account counter of the disbursement service and the
    32-byte sub-account it is encoded into (disburse.rs, lines 58-76). */
module Subaccounts {
  import opened Common

  /** The counter step of `get_new_subaccount_num`: `u128::MAX` wraps to 1,
      anything else is incremented. */
  function NextSubaccountNum(c: U128): (r: U128)
    ensures r != 0
    ensures c == U128_MAX ==> r == 1
    ensures c < U128_MAX ==> r == c + 1
  {
    if c == U128_MAX then 1 else c + 1
  }

  /** The counter after `k` calls, starting from `c`. */
  function NthSubaccountNum(c: U128, k: nat): U128 {
    if k == 0 then c else NextSubaccountNum(NthSubaccountNum(c, k - 1))
  }

  /** Closed form of `k` steps (for `1 <= k <= u128::MAX`): the counter walks
      the cycle 1, 2, ..., u128::MAX, treating 0 like u128::MAX. */
  lemma {:induction false} NthSubaccountNumClosedForm(c: U128, k: nat)
    requires 1 <= k <= U128_MAX
    ensures var start := if c == 0 then U128_MAX else c;
            NthSubaccountNum(c, k) == if start + k <= U128_MAX then start + k else start + k - U128_MAX
  {
    if k > 1 {
      NthSubaccountNumClosedForm(c, k - 1);
    }
  }

  /** Any `N <= u128::MAX` consecutive calls return `N` distinct numbers, none of them 0. */
  lemma SubaccountNumsDistinct(c: U128, i: nat, j: nat)
    requires 1 <= i < j <= U128_MAX
    ensures NthSubaccountNum(c, i) != NthSubaccountNum(c, j)
    ensures NthSubaccountNum(c, i) != 0
  {
    NthSubaccountNumClosedForm(c, i);
    NthSubaccountNumClosedForm(c, j);
  }

  function Pow256(k: nat): (p: nat)
    ensures p >= 1
  {
    if k == 0 then 1 else 256 * Pow256(k - 1)
  }

  lemma Pow256Of16()
    ensures Pow256(16) == U128_MAX + 1
  {
    assert Pow256(4) == 0x1_0000_0000;
    assert Pow256(8) == 0x1_0000_0000 * Pow256(4);
    assert Pow256(12) == 0x1_0000_0000 * Pow256(8);
    assert Pow256(16) == 0x1_0000_0000 * Pow256(12);
  }

  /** `n.to_le_bytes()` for a `k`-byte integer: least significant byte first. */
  function ToLeBytes(n: nat, k: nat): (r: seq<Byte>)
    ensures |r| == k
  {
    if k == 0 then [] else [n % 256] + ToLeBytes(n / 256, k - 1)
  }

  /** Byte `i` of `n.to_le_bytes()` is digit `i` of `n` in base 256. */
  lemma {:induction false} ToLeBytesDigits(n: nat, k: nat)
    ensures forall i :: 0 <= i < k ==> ToLeBytes(n, k)[i] == (n / Pow256(i)) % 256
  {
    if k > 0 {
      ToLeBytesDigits(n / 256, k - 1);
      forall i | 1 <= i < k
        ensures ToLeBytes(n, k)[i] == (n / Pow256(i)) % 256
      {
        DivDiv(n, 256, Pow256(i - 1));
      }
    }
  }

  /** Dividing twice is dividing by the product. */
  lemma DivDiv(n: nat, a: nat, b: nat)
    requires a > 0 && b > 0
    ensures n / a / b == n / (a * b)
  {
    var q, r := n / a, n % a;
    var q2, r2 := q / b, q % b;
    var rest := DivDivRemainder(n, a, b, q, r, q2, r2);
    DivUnique(n, a * b, q2, rest);
  }

  /** The arithmetic of DivDiv, free of division. */
  lemma DivDivRemainder(n: nat, a: nat, b: nat, q: nat, r: nat, q2: nat, r2: nat) returns (rest: nat)
    requires n == a * q + r && r < a
    requires q == b * q2 + r2 && r2 < b
    ensures n == (a * b) * q2 + rest && rest < a * b
  {
    rest := a * r2 + r;
    MulDistrib(a, b * q2, r2);
    MulAssoc(a, b, q2);
    MulLe(a, r2, b - 1);
    MulDistrib(a, b - 1, 1);
  }

  lemma MulDistrib(a: nat, x: nat, y: nat)
    ensures a * (x + y) == a * x + a * y
  {
  }

  lemma MulAssoc(a: nat, b: nat, c: nat)
    ensures a * (b * c) == (a * b) * c
  {
  }

  lemma MulLe(a: nat, x: nat, y: nat)
    requires x <= y
    ensures a * x <= a * y
  {
    MulDistrib(a, x, y - x);
  }

  /** Euclidean division has one quotient. */
  lemma DivUnique(n: nat, d: nat, q: nat, r: nat)
    requires d > 0 && r < d && n == d * q + r
    ensures n / d == q
  {
    var q', r' := n / d, n % d;
    if q' > q {
      MulDistrib(d, q, q' - q);
      MulLe(d, 1, q' - q);
      assert false;
    } else if q' < q {
      MulDistrib(d, q', q - q');
      MulLe(d, 1, q - q');
      assert false;
    }
  }

  function FromLeBytes(s: seq<Byte>): nat {
    if s == [] then 0 else s[0] + 256 * FromLeBytes(s[1..])
  }

  lemma {:induction false} LeBytesRoundTrip(n: nat, k: nat)
    requires n < Pow256(k)
    ensures FromLeBytes(ToLeBytes(n, k)) == n
  {
    if k > 0 {
      LeBytesRoundTrip(n / 256, k - 1);
      assert ToLeBytes(n, k)[1..] == ToLeBytes(n / 256, k - 1);
    }
  }

  /** The sub-account `get_transaction_subaccount` builds for counter value `n`:
      16 zero bytes, then `n` big-endian (byte 31 is the least significant). */
  function SubaccountBytes(n: U128): (s: Subaccount)
    ensures |s| == 32
  {
    seq(16, _ => 0) + Reverse(ToLeBytes(n, 16))
  }

  /** Reads the counter back out of a sub-account. */
  function SubaccountNum(s: Subaccount): nat
    requires |s| == 32
  {
    FromLeBytes(Reverse(s[16..]))
  }

  /** The layout of the encoding byte by byte. */
  lemma SubaccountLayout(n: U128)
    ensures forall i :: 0 <= i < 16 ==> SubaccountBytes(n)[i] == 0
    ensures forall i :: 0 <= i < 16 ==> SubaccountBytes(n)[31 - i] == ToLeBytes(n, 16)[i]
  {
  }

  /** A 32-byte string laid out as `SubaccountLayout` describes is the sub-account of `n`. */
  lemma SubaccountFromLayout(s: seq<Byte>, n: U128)
    requires |s| == 32
    requires forall i :: 0 <= i < 16 ==> s[i] == 0
    requires forall i :: 0 <= i < 16 ==> s[31 - i] == ToLeBytes(n, 16)[i]
    ensures s == SubaccountBytes(n)
  {
    SubaccountLayout(n);
    var t := SubaccountBytes(n);
    forall i | 0 <= i < 32
      ensures s[i] == t[i]
    {
      if i >= 16 {
        assert s[31 - (31 - i)] == t[31 - (31 - i)];
      }
    }
  }

  lemma SubaccountRoundTrip(n: U128)
    ensures SubaccountNum(SubaccountBytes(n)) == n
  {
    var s := SubaccountBytes(n);
    var le := ToLeBytes(n, 16);
    assert Reverse(s[16..]) == le;
    Pow256Of16();
    LeBytesRoundTrip(n, 16);
  }

  /** Distinct counter values give distinct sub-accounts. */
  lemma SubaccountBytesInjective(m: U128, n: U128)
    requires m != n
    ensures SubaccountBytes(m) != SubaccountBytes(n)
  {
    SubaccountRoundTrip(m);
    SubaccountRoundTrip(n);
  }
}
