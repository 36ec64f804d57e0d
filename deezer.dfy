/** `search_deezer_track`: a retry loop over Deezer's search endpoint with
    a fixed pause before every request and exponential backoff after a
    rate limit or an exception. The network is an oracle giving the
    outcome of the k-th request; sleeps are integer milliseconds. */
module Deezer {
  import opened Values

  /** `DEEZER_REQUEST_DELAY = 1.0 / DEEZER_RATE_LIMIT` with a limit of 50 per second. */
  const BaseDelayMs: nat := 20
  /** `time.sleep(2 ** attempt)` sleeps whole seconds. */
  const SecondMs: nat := 1000
  const DefaultMaxRetries := 3

  /** The outcome of one request: a response with its status code and the
      `data` list of its JSON body (empty when missing or null), or an
      exception from `requests.get` or `response.json()`. */
  datatype Attempt =
    | Reply(status: int, data: seq<Dict>)
    | Raised

  /** What a search did: the track it returned, the requests it sent and the
      pauses it made, in order. */
  datatype Run = Run(result: Option<Dict>, requests: nat, sleeps: seq<nat>)

  function Pow2(k: nat): nat
  {
    if k == 0 then 1 else 2 * Pow2(k - 1)
  }

  /** Pauses made before the rest of a run. */
  function After(pauses: seq<nat>, run: Run): Run
  {
    Run(run.result, run.requests, pauses + run.sleeps)
  }

  /** The loop from attempt `attempt` on, branch for branch as the code has it. */
  function SearchFrom(network: nat -> Attempt, maxRetries: int, attempt: nat): Run
    decreases maxRetries - attempt
  {
    if attempt >= maxRetries then Run(None, attempt, [])
    else match network(attempt)
      case Raised =>
        if attempt < maxRetries - 1 then
          After([BaseDelayMs, Pow2(attempt) * SecondMs], SearchFrom(network, maxRetries, attempt + 1))
        else Run(None, attempt + 1, [BaseDelayMs])
      case Reply(status, data) =>
        if status == 200 then
          if |data| > 0 then Run(Some(data[0]), attempt + 1, [BaseDelayMs])
          else After([BaseDelayMs], SearchFrom(network, maxRetries, attempt + 1))
        else if status == 403 || status == 429 then
          After([BaseDelayMs, Pow2(attempt) * BaseDelayMs], SearchFrom(network, maxRetries, attempt + 1))
        else Run(None, attempt + 1, [BaseDelayMs])
  }

  function Search(network: nat -> Attempt, maxRetries: int): Run
  {
    SearchFrom(network, maxRetries, 0)
  }

  /** `search_deezer_track(track_name, artist_name, max_retries)` */
  method SearchDeezerTrack(network: nat -> Attempt, maxRetries: int := DefaultMaxRetries)
    returns (found: Option<Dict>, requests: nat, sleeps: seq<nat>)
    ensures Run(found, requests, sleeps) == Search(network, maxRetries)
  {
    found, requests, sleeps := None, 0, [];
    var attempt: nat := 0;
    while attempt < maxRetries
      invariant attempt == 0 || attempt <= maxRetries
      invariant requests == attempt && found == None
      invariant Search(network, maxRetries) == After(sleeps, SearchFrom(network, maxRetries, attempt))
      decreases maxRetries - attempt
    {
      ghost var before := sleeps;
      ghost var here := SearchFrom(network, maxRetries, attempt);
      ghost var next := SearchFrom(network, maxRetries, attempt + 1);
      sleeps := sleeps + [BaseDelayMs];
      requests := requests + 1;
      match network(attempt) {
        case Raised =>
          if attempt < maxRetries - 1 {
            sleeps := sleeps + [Pow2(attempt) * SecondMs];
            assert here == After([BaseDelayMs, Pow2(attempt) * SecondMs], next);
            assert sleeps == before + [BaseDelayMs, Pow2(attempt) * SecondMs];
            AfterAssoc(before, [BaseDelayMs, Pow2(attempt) * SecondMs], next);
          } else {
            return;
          }
        case Reply(status, data) =>
          if status == 200 {
            if |data| > 0 {
              found := Some(data[0]);
              return;
            }
            assert here == After([BaseDelayMs], next);
            assert sleeps == before + [BaseDelayMs];
            AfterAssoc(before, [BaseDelayMs], next);
          } else if status == 403 || status == 429 {
            sleeps := sleeps + [Pow2(attempt) * BaseDelayMs];
            assert here == After([BaseDelayMs, Pow2(attempt) * BaseDelayMs], next);
            assert sleeps == before + [BaseDelayMs, Pow2(attempt) * BaseDelayMs];
            AfterAssoc(before, [BaseDelayMs, Pow2(attempt) * BaseDelayMs], next);
          } else {
            return;
          }
      }
      attempt := attempt + 1;
    }
  }

  lemma AfterAssoc(first: seq<nat>, second: seq<nat>, run: Run)
    ensures After(first, After(second, run)) == After(first + second, run)
  {
    assert first + (second + run.sleeps) == (first + second) + run.sleeps;
  }

  // An independent reading of the loop: each attempt either lets the loop
  // go on or ends it, and each attempt pauses by a fixed schedule.

  /** A 200 response whose `data` list is non-empty. */
  predicate IsHit(a: Attempt)
  {
    a.Reply? && a.status == 200 && |a.data| > 0
  }

  /** The loop goes on after attempt `k`: an empty 200, a 403 or 429, or an
      exception on any but the last attempt. */
  predicate Continues(a: Attempt, k: nat, maxRetries: int)
  {
    match a
    case Raised => k < maxRetries - 1
    case Reply(status, data) => (status == 200 && data == []) || status == 403 || status == 429
  }

  /** The pauses of attempt `k`: the rate-limit pause before the request,
      then 2^k times that pause after a 403 or 429, or 2^k seconds after an
      exception that will be retried. */
  function Delays(a: Attempt, k: nat, maxRetries: int): seq<nat>
  {
    [BaseDelayMs] +
    if a.Reply? && (a.status == 403 || a.status == 429) then [Pow2(k) * BaseDelayMs]
    else if a.Raised? && k < maxRetries - 1 then [Pow2(k) * SecondMs]
    else []
  }

  /** The pauses of attempts `lo` up to `hi`, in order. */
  function Schedule(network: nat -> Attempt, lo: nat, hi: nat, maxRetries: int): seq<nat>
    decreases hi
  {
    if hi <= lo then [] else Schedule(network, lo, hi - 1, maxRetries) + Delays(network(hi - 1), hi - 1, maxRetries)
  }

  lemma {:induction false} ScheduleCons(network: nat -> Attempt, lo: nat, hi: nat, maxRetries: int)
    requires lo < hi
    ensures Schedule(network, lo, hi, maxRetries) ==
            Delays(network(lo), lo, maxRetries) + Schedule(network, lo + 1, hi, maxRetries)
    decreases hi
  {
    if hi > lo + 1 {
      ScheduleCons(network, lo, hi - 1, maxRetries);
    }
  }

  /** An attempt that lets the loop go on pauses by its delays, then the run goes on. */
  lemma StepContinues(network: nat -> Attempt, maxRetries: int, k: nat)
    requires k < maxRetries && Continues(network(k), k, maxRetries)
    ensures SearchFrom(network, maxRetries, k) ==
            After(Delays(network(k), k, maxRetries), SearchFrom(network, maxRetries, k + 1))
  {
  }

  /** An attempt that ends the loop pauses by its delays and returns the
      first data element of a hit, None otherwise. */
  lemma StepStops(network: nat -> Attempt, maxRetries: int, k: nat)
    requires k < maxRetries && !Continues(network(k), k, maxRetries)
    ensures SearchFrom(network, maxRetries, k) ==
            Run(if IsHit(network(k)) then Some(network(k).data[0]) else None, k + 1,
                Delays(network(k), k, maxRetries))
  {
  }

  /** The run from attempt `k` on: it makes requests `k` up to `requests`,
      every one but the last letting the loop go on; it stops before
      `maxRetries` only on an attempt that ends the loop; it returns the
      first element of a hit, and only of a hit; it pauses by the schedule. */
  lemma {:induction false} SearchFromOutcome(network: nat -> Attempt, maxRetries: int, k: nat)
    ensures var r := SearchFrom(network, maxRetries, k);
            && k <= r.requests
            && (r.requests <= maxRetries || r.requests == k)
            && (forall j :: k <= j < r.requests - 1 ==> Continues(network(j), j, maxRetries))
            && (r.requests < maxRetries ==> k < r.requests && !Continues(network(r.requests - 1), r.requests - 1, maxRetries))
            && (r.result.Some? <==> k < r.requests && IsHit(network(r.requests - 1)))
            && (r.result.Some? ==> r.result.value == network(r.requests - 1).data[0])
            && r.sleeps == Schedule(network, k, r.requests, maxRetries)
    decreases maxRetries - k
  {
    if k < maxRetries {
      if Continues(network(k), k, maxRetries) {
        var rest := SearchFrom(network, maxRetries, k + 1);
        StepContinues(network, maxRetries, k);
        SearchFromOutcome(network, maxRetries, k + 1);
        ScheduleCons(network, k, rest.requests, maxRetries);
      } else {
        StepStops(network, maxRetries, k);
        assert Schedule(network, k, k + 1, maxRetries) == Delays(network(k), k, maxRetries);
      }
    }
  }

  /** The whole search: at most `maxRetries` requests, none at all when
      `maxRetries <= 0`; a found track is the first `data` element of the
      last request, which was a hit, every earlier attempt having let the
      loop go on; the pauses follow the schedule. */
  lemma SearchOutcome(network: nat -> Attempt, maxRetries: int)
    ensures var r := Search(network, maxRetries);
            && (maxRetries <= 0 ==> r == Run(None, 0, []))
            && (maxRetries > 0 ==> r.requests <= maxRetries)
            && (forall j :: 0 <= j < r.requests - 1 ==> Continues(network(j), j, maxRetries))
            && (r.requests < maxRetries ==> 0 < r.requests && !Continues(network(r.requests - 1), r.requests - 1, maxRetries))
            && (r.result.Some? <==> 0 < r.requests && IsHit(network(r.requests - 1)))
            && (r.result.Some? ==> r.result.value == network(r.requests - 1).data[0])
            && r.sleeps == Schedule(network, 0, r.requests, maxRetries)
  {
    SearchFromOutcome(network, maxRetries, 0);
  }

  /** The first attempt that does not let the loop go on decides the search:
      a hit returns its first `data` element, anything else (another status,
      an exception on the last attempt) returns None; either way after
      exactly `k + 1` requests. */
  lemma FirstStopDecides(network: nat -> Attempt, maxRetries: int, k: nat)
    requires k < maxRetries
    requires forall j :: 0 <= j < k ==> Continues(network(j), j, maxRetries)
    requires !Continues(network(k), k, maxRetries)
    ensures Search(network, maxRetries).requests == k + 1
    ensures Search(network, maxRetries).result ==
            if IsHit(network(k)) then Some(network(k).data[0]) else None
  {
    SearchOutcome(network, maxRetries);
  }

  /** When every attempt lets the loop go on, all `maxRetries` requests are
      made and the search returns None. */
  lemma ExhaustedReturnsNone(network: nat -> Attempt, maxRetries: int)
    requires maxRetries > 0
    requires forall j :: 0 <= j < maxRetries ==> Continues(network(j), j, maxRetries)
    ensures Search(network, maxRetries).requests == maxRetries
    ensures Search(network, maxRetries).result == None
  {
    SearchOutcome(network, maxRetries);
  }
}
