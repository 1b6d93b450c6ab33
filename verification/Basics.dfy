/** An optional value: the source's missing annotations, unparsable stamps and "not found" results. */
module Options {
  datatype Option<+T> = None | Some(value: T)
}

/** Time as the controller persists it: whole seconds since the Unix epoch, in UTC. Dates are
    day numbers and "HH:MM" strings are minutes of the day; both order as the strings do. */
module Clock {
  function Day(t: int): int
  {
    t / 86400
  }

  function Minute(t: int): int
  {
    t % 86400 / 60
  }

  /** Stamps lose their fraction of a second (RFC 3339, section 5.6, without time-secfrac). A gate
      that measures nanoseconds against such a stamp decides exactly as one that reads whole
      seconds on both sides, and the true elapsed time is then within one second of the limit. */
  lemma StampTruncation(nowNs: nat, lastNs: nat, limit: int)
    ensures var second := 1_000_000_000;
            var stamp := lastNs / second * second;
            && (nowNs - stamp < limit * second <==> nowNs / second - lastNs / second < limit)
            && (nowNs - stamp >= limit * second ==> nowNs - lastNs > (limit - 1) * second)
  {
  }
}

/** What becomes of a remote call: it takes effect, or not, or takes effect and still reports an error. */
module Calls {
  datatype Outcome = Done | Fails | Unacknowledged
}
