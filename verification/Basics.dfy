/** Shared vocabulary: values that may be missing, keys, bytes, flags as numbers, and two facts about slices. */
module Basics {
  datatype Option<+T> = None | Some(value: T)

  type Key = seq<char>

  type Byte = x: int | 0 <= x < 256

  const TWO64: nat := 0x1_0000_0000_0000_0000

  function Bit(b: bool): int { if b then 1 else 0 }

  lemma Regroup<T>(a: seq<T>, b: seq<T>, c: seq<T>)
    ensures a + b + c == a + (b + c)
  {
  }

  lemma DropTwice<T>(q: seq<T>, a: nat, k: nat)
    requires a + k <= |q|
    ensures q[a..][k..] == q[a + k..]
  {
  }
}
