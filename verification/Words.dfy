/** The u64 arithmetic the source relies on. */
module Words {

  import opened Options

  const U64_MAX: nat := 0xFFFF_FFFF_FFFF_FFFF

  function SaturatingAdd(a: nat, b: nat): nat {
    if a + b <= U64_MAX then a + b else U64_MAX
  }

  /** `checked_add(1)`: no value at the top instead of wrapping to zero. */
  function CheckedIncrement(n: nat): Option<nat> {
    if n < U64_MAX then Some(n + 1) else None
  }

}
