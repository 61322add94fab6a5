/**
 * `SnowflakeFactory.nextId()`, abstracted to what its callers rely on: every call yields a
 * new id. The generator is a counter whose value is rendered in decimal.
 */
module Snowflake {
  import opened Text

  /** The id issued for sequence number `n`. */
  function SnowflakeId(n: nat): (id: string)
    ensures 1 <= |id|
  {
    NatToString(n)
  }

  /** Ids issued for distinct sequence numbers are distinct. */
  lemma SnowflakeIdUnique(n: nat, m: nat)
    requires n != m
    ensures SnowflakeId(n) != SnowflakeId(m)
  {
    if SnowflakeId(n) == SnowflakeId(m) {
      NatToStringInjective(n, m);
    }
  }

  class SnowflakeFactory {
    var sequence: nat

    constructor ()
      ensures sequence == 0
    {
      sequence := 0;
    }

    method NextId() returns (id: string)
      modifies this
      ensures id == SnowflakeId(old(sequence))
      ensures sequence == old(sequence) + 1
    {
      id := SnowflakeId(sequence);
      sequence := sequence + 1;
    }
  }
}
