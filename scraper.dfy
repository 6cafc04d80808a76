/**
 * The `Scraper` contract (collector/scraper.go) seen from the outside: one run of a
 * scraper asks for some endpoints, sends samples to the channel, and returns an error
 * or nil. Samples already sent when a step fails stay sent.
 */
module Scraper {
  import opened Wrappers
  import opened Prom
  import opened Harbor

  /** `requested`: the endpoints asked for, in order; `sent`: the samples put on the
      channel, in order; `err`: the error `Scrape` returns. */
  datatype ScrapeResult = ScrapeResult(requested: seq<string>, sent: seq<Sample>, err: Option<Failure>)

  function Pass(requested: seq<string>, sent: seq<Sample>): ScrapeResult
  {
    ScrapeResult(requested, sent, None)
  }

  function Fail(requested: seq<string>, sent: seq<Sample>, e: Failure): ScrapeResult
  {
    ScrapeResult(requested, sent, Some(e))
  }

  /** `if err != nil { return err }` between two steps: the second step runs only
      when the first returned nil. */
  function Then(first: ScrapeResult, next: ScrapeResult): ScrapeResult
  {
    if first.err.Some? then first
    else ScrapeResult(first.requested + next.requested, first.sent + next.sent, next.err)
  }

  /** The shape of almost every step: GET `url`, decode, check the payload, and on
      success send one sample. */
  function Check<T>(url: string, reply: Reply<T>, accept: T -> bool, sample: Sample): (r: ScrapeResult)
    ensures r.requested == [url]
    ensures r.err.None? <==> Fetch(reply).Ok? && accept(Fetch(reply).value)
    ensures r.sent == if r.err.None? then [sample] else []
    ensures Fetch(reply).Err? ==> r.err == Some(Fetch(reply).error)
    ensures Fetch(reply).Ok? && !accept(Fetch(reply).value) ==> r.err == Some(NoData(url))
  {
    match Fetch(reply)
    case Err(e) => Fail([url], [], e)
    case Ok(data) => if accept(data) then Pass([url], [sample]) else Fail([url], [], NoData(url))
  }

  /** What a checked step returns: `None` when the fetch succeeds and the document is
      accepted, otherwise the error `Check` reports. */
  function Outcome<T>(url: string, reply: Reply<T>, accept: T -> bool): Option<Failure>
  {
    match Fetch(reply)
    case Err(e) => Some(e)
    case Ok(data) => if accept(data) then None else Some(NoData(url))
  }

  /** The index of the first failing step, or the number of steps when none fails. */
  function FirstFailure(outcomes: seq<Option<Failure>>): (i: nat)
    ensures i <= |outcomes|
    ensures forall j :: 0 <= j < i ==> outcomes[j].None?
    ensures i < |outcomes| ==> outcomes[i].Some?
  {
    if outcomes == [] then 0
    else if outcomes[0].Some? then 0
    else 1 + FirstFailure(outcomes[1..])
  }

  /**
   * A run of a chain of steps in which step `i` asks for `urls[i]`, returns
   * `outcomes[i]` and on success sends `samples[i]`: when every step passes, the run
   * asked for every URL and sent every sample; otherwise it stopped at the first
   * failing step, having asked for the URLs up to and including that step, sent the
   * samples of the steps before it, and returned that step's error.
   */
  predicate Chained(r: ScrapeResult, urls: seq<string>, samples: seq<Sample>, outcomes: seq<Option<Failure>>)
  {
    && |urls| == |outcomes|
    && |samples| == |outcomes|
    && var f := FirstFailure(outcomes);
       if f == |outcomes| then r == Pass(urls, samples)
       else r == Fail(urls[..f + 1], samples[..f], outcomes[f].value)
  }

  /** In a chain, a step that fails after steps that all passed ends the run. */
  lemma StopsAt(r: ScrapeResult, urls: seq<string>, samples: seq<Sample>, outcomes: seq<Option<Failure>>, i: nat)
    requires Chained(r, urls, samples, outcomes)
    requires i < |outcomes| && outcomes[i].Some?
    requires forall j :: 0 <= j < i ==> outcomes[j].None?
    ensures r.requested == urls[..i + 1]
    ensures r.sent == samples[..i]
    ensures r.err == outcomes[i]
  {
  }

  /** A single checked step is a chain of length one. */
  lemma CheckChained<T>(url: string, reply: Reply<T>, accept: T -> bool, sample: Sample)
    ensures Chained(Check(url, reply, accept, sample), [url], [sample], [Outcome(url, reply, accept)])
  {
  }

  lemma {:induction false} FirstFailureAppend(a: seq<Option<Failure>>, b: seq<Option<Failure>>)
    ensures FirstFailure(a + b) == if FirstFailure(a) < |a| then FirstFailure(a) else |a| + FirstFailure(b)
    decreases |a|
  {
    if a == [] {
      assert a + b == b;
    } else {
      assert (a + b)[0] == a[0];
      assert (a + b)[1..] == a[1..] + b;
      FirstFailureAppend(a[1..], b);
    }
  }

  /** Chaining two chains with `Then` gives the chain of their steps in order. */
  lemma {:induction false} ThenChained(a: ScrapeResult, ua: seq<string>, sa: seq<Sample>, oa: seq<Option<Failure>>,
                                       b: ScrapeResult, ub: seq<string>, sb: seq<Sample>, ob: seq<Option<Failure>>)
    requires Chained(a, ua, sa, oa) && Chained(b, ub, sb, ob)
    ensures Chained(Then(a, b), ua + ub, sa + sb, oa + ob)
  {
    FirstFailureAppend(oa, ob);
    var fa, fb := FirstFailure(oa), FirstFailure(ob);
    if fa < |oa| {
      assert (oa + ob)[fa] == oa[fa];
      assert (ua + ub)[..fa + 1] == ua[..fa + 1];
      assert (sa + sb)[..fa] == sa[..fa];
    } else if fb < |ob| {
      assert (oa + ob)[|oa| + fb] == ob[fb];
      assert (ua + ub)[..|oa| + fb + 1] == ua + ub[..fb + 1];
      assert (sa + sb)[..|oa| + fb] == sa + sb[..fb];
    }
  }
}
