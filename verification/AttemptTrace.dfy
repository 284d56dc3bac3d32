/** The bounded trace an attempt carries into its usage record. */
module AttemptTrace {

  const MAX_EVENTS := 200
  const TRUNCATED := "trace.truncated"

  /** What is kept of the phases offered: the first 200, and one marker if there were more. */
  function Kept(offered: seq<string>): (r: seq<string>)
    ensures |r| <= MAX_EVENTS + 1
  {
    if |offered| <= MAX_EVENTS then offered else offered[..MAX_EVENTS] + [TRUNCATED]
  }

  class UsageTrace {
    var phases: seq<string>
    ghost var offered: seq<string>

    ghost predicate Valid()
      reads this
    {
      TRUNCATED !in offered && phases == Kept(offered)
    }

    constructor ()
      ensures Valid() && offered == ["attempt.start"]
    {
      phases := ["attempt.start"];
      offered := ["attempt.start"];
    }

    method Append(phase: string)
      requires Valid() && phase != TRUNCATED
      modifies this
      ensures Valid() && offered == old(offered) + [phase]
      ensures phases == old(phases) + (if |old(offered)| < 200 then [phase]
                                       else if |old(offered)| == 200 then ["trace.truncated"] else [])
    {
      offered := offered + [phase];
      if |phases| >= MAX_EVENTS {
        if phases[|phases| - 1] != TRUNCATED {
          phases := phases + [TRUNCATED];
        }
        return;
      }
      phases := phases + [phase];
    }
  }
}
