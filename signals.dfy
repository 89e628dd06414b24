/** Discrete-time signals as finite sample sequences that start at index 0
    and are silent everywhere outside their range. */
module Signals {

  /** Sample `t` of `x`, 0 outside `[0, |x|)`. */
  function XAt(x: seq<real>, t: int): real
  {
    if 0 <= t < |x| then x[t] else 0.0
  }

  /** `k` samples of silence. */
  function Zeros(k: nat): (z: seq<real>)
    ensures |z| == k && forall i :: 0 <= i < k ==> z[i] == 0.0
  {
    seq(k, _ => 0.0)
  }

  /** A unit impulse at index `s` in a signal of `len` samples. */
  function Impulse(len: nat, s: nat): seq<real>
  {
    seq(len, k => if k == s then 1.0 else 0.0)
  }

  /** `max(0, n)`: how often a loop `for (i = 0; i < n; ++i)` runs. */
  function Frames(n: int): nat
  {
    if n < 0 then 0 else n
  }

  /** The blocks of a stream joined end to end, in order. */
  function Flatten(blocks: seq<seq<real>>): seq<real>
  {
    if |blocks| == 0 then [] else Flatten(blocks[..|blocks| - 1]) + blocks[|blocks| - 1]
  }
}
