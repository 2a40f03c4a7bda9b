/** Counters read from the outside, which may restart between two readings. */
module Counters {

  /** The growth of a counter since `previous`; a smaller value means that it restarted. */
  function CounterDelta(current: nat, previous: nat): nat {
    if current >= previous then current - previous else current
  }
}
