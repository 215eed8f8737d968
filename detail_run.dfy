/**
 * The batch loop of `get_products` in shopee_pipeline.py (lines 232-258): it sends
 * the detail requests one after another and stops at the first one that raises,
 * because the script catches nothing there. It is stated over any request and record
 * types; `ShopeePipeline.GetProducts` instantiates it. A step gives
 * `None` when the request raised and `Some(records)` with the records its reply
 * yielded otherwise.
 */
module DetailRun {
  import opened Wrappers

  /** Where the loop stands: the requests sent, the records yielded, and whether an exception ended it. */
  datatype Run<Q, R> = Run(requests: seq<Q>, records: seq<R>, raised: bool)

  /** True when none of the first `count` requests raised. */
  predicate AllSucceeded<Q, R>(all: seq<Q>, step: Q -> Option<seq<R>>, count: nat)
    requires count <= |all|
  {
    count == 0 || (AllSucceeded(all, step, count - 1) && step(all[count - 1]).Some?)
  }

  /** The records the first `count` requests yield, those that raised yielding none. */
  function Records<Q, R>(all: seq<Q>, step: Q -> Option<seq<R>>, count: nat): seq<R>
    requires count <= |all|
  {
    if count == 0 then []
    else Records(all, step, count - 1) + step(all[count - 1]).GetOr([])
  }

  /**
   * The loop over the first `count` requests of `all`: each is sent in order, and the
   * first one that raises ends the run; nothing after it is sent.
   */
  function RunRequests<Q, R>(all: seq<Q>, step: Q -> Option<seq<R>>, count: nat): Run<Q, R>
    requires count <= |all|
  {
    if count == 0 then Run([], [], false)
    else
      var prev := RunRequests(all, step, count - 1);
      if prev.raised then prev
      else match step(all[count - 1])
        case None => Run(prev.requests + [all[count - 1]], prev.records, true)
        case Some(rs) => Run(prev.requests + [all[count - 1]], prev.records + rs, false)
  }

  /** Once a request has raised, later ones change nothing. */
  lemma {:induction false} RaisedRunStops<Q, R>(all: seq<Q>, step: Q -> Option<seq<R>>, c: nat, d: nat)
    requires c <= d <= |all|
    requires RunRequests(all, step, c).raised
    ensures RunRequests(all, step, d) == RunRequests(all, step, c)
    decreases d
  {
    if d > c {
      RaisedRunStops(all, step, c, d - 1);
    }
  }

  /**
   * The loop sends a prefix of the requests, in order. A run that did not raise sent
   * every request, none raised, and it yielded all their records. A run that raised
   * stopped at the first request that raised: no earlier one raised, and only their
   * records were yielded.
   */
  lemma {:induction false} RunOutcome<Q, R>(all: seq<Q>, step: Q -> Option<seq<R>>, count: nat)
    requires count <= |all|
    ensures var r := RunRequests(all, step, count);
      |r.requests| <= count && r.requests == all[..|r.requests|]
      && (!r.raised ==> |r.requests| == count && AllSucceeded(all, step, count)
                        && r.records == Records(all, step, count))
      && (r.raised ==> |r.requests| >= 1 && AllSucceeded(all, step, |r.requests| - 1)
                       && step(all[|r.requests| - 1]).None?
                       && r.records == Records(all, step, |r.requests| - 1))
  {
    if count > 0 {
      RunOutcome(all, step, count - 1);
      var prev := RunRequests(all, step, count - 1);
      if !prev.raised {
        assert all[..count] == all[..count - 1] + [all[count - 1]];
      }
    }
  }
}
