/** usize counters, wrap-around included. */
module Words {

  /** Number of values of a usize on a 64-bit target. */
  const WORD: nat := 0x1_0000_0000_0000_0000

  /** usize::MAX. */
  const USIZE_MAX: nat := WORD - 1

  /** fetch_add(1) */
  function Inc(x: nat): nat {
    if x == USIZE_MAX then 0 else x + 1
  }

  /** fetch_sub(1) */
  function Dec(x: nat): nat {
    if x == 0 then USIZE_MAX else x - 1
  }

  lemma IncWraps(x: int)
    ensures (x + 1) % WORD == Inc(x % WORD)
  {
  }

  lemma DecWraps(x: int)
    ensures (x - 1) % WORD == Dec(x % WORD)
  {
    IncWraps(x - 1);
  }
}
