/**
 * Types of the connection infrastructure (libsignal_net_infra) that the
 * connect orchestrator consumes at their interface: results, timeouts,
 * connect errors, error classes, control-flow decisions, WebSocket routes
 * with their headers, per-route outcome updates, and the outcome ledger
 * (`ConnectionOutcomes`).
 *
 * The ledger's own decay and backoff arithmetic is not part of this model.
 * Here it is represented by its construction parameters and the sequence of
 * outcome batches applied to it; `Recorded` is the multiset of stamped
 * outcomes it has received, which is what the orchestrator is responsible
 * for delivering.
 */
module Infra {

  /** A span of time, in whole ticks of the runtime clock. */
  type Duration = nat

  /** A point in time, in whole ticks of the runtime clock. */
  type Instant = nat

  datatype Option<T> = None | Some(value: T)

  datatype Result<T, E> = Ok(value: T) | Err(error: E)

  /** `std::ops::ControlFlow<B, ()>`: keep going, or stop with a value. */
  datatype ControlFlow<B> = Continue | Break(value: B)

  /** What an error classifier says about a failed attempt. */
  datatype ErrorClass = Intermittent | RetryAt(when: Instant) | Fatal

  /** The ways a multi-route connect can fail short of a timeout. */
  datatype ConnectError<E> = NoResolvedRoutes | AllAttemptsFailed | FatalConnect(error: E)

  /** An error, or the overall deadline having passed. */
  datatype TimeoutOr<E> = Timeout(attemptDuration: Duration) | Other(error: E)

  /** One HTTP header; a header map is the ordered list of its entries. */
  datatype Header = Header(name: string, value: string)

  datatype WebSocketRouteFragment<Cfg> =
    WebSocketRouteFragment(wsConfig: Cfg, endpoint: string, headers: seq<Header>)

  /**
   * A WebSocket route: the WebSocket-level fragment over an inner route
   * (the HTTP fragment and the transport route beneath it).
   */
  datatype WebSocketRoute<Cfg, Inner> =
    WebSocketRoute(fragment: WebSocketRouteFragment<Cfg>, inner: Inner)

  /** A route paired with its log-safe description. */
  datatype WithLoggableDescription<R, D> = WithLoggableDescription(route: R, description: D)

  /** The outcome of trying one route. */
  datatype RouteOutcome = Success | Failure

  /** The per-route outcomes of one connect attempt, and when it finished. */
  datatype OutcomeUpdates<R, D> = OutcomeUpdates(
    outcomes: seq<(WithLoggableDescription<R, D>, RouteOutcome)>,
    finishedAt: Instant)

  /**
   * What racing the multi-route connect against the connect timeout yields:
   * either the deadline passed first, or the connect finished with its
   * result (connection and the winning route's description, or an error)
   * and the outcome updates it collected.
   */
  datatype TimedAttempt<C, D, E, R> =
    | Elapsed
    | Finished(result: Result<(C, D), ConnectError<E>>, updates: OutcomeUpdates<R, D>)

  /** Parameters of the outcome ledger (`ConnectionOutcomeParams`). */
  datatype ConnectionOutcomeParams = ConnectionOutcomeParams(
    ageCutoff: Duration,
    cooldownGrowthFactor: real,
    countGrowthFactor: real,
    maxCount: nat,
    maxDelay: Duration)

  /** One `apply_outcome_updates` call: route outcomes and their common timestamp. */
  datatype OutcomeBatch<R> = OutcomeBatch(updates: seq<(R, RouteOutcome)>, finishedAt: Instant)

  /** One stamped outcome as the ledger receives it. */
  datatype Entry<R> = Entry(route: R, outcome: RouteOutcome, finishedAt: Instant)

  /** The outcome ledger: its parameters and the batches applied so far. */
  datatype ConnectionOutcomes<R> = ConnectionOutcomes(
    params: ConnectionOutcomeParams,
    batches: seq<OutcomeBatch<R>>)
  {
    /** Everything the ledger has been told, irrespective of order. */
    ghost function Recorded(): multiset<Entry<R>> {
      RecordedOf(batches)
    }

    /** `apply_outcome_updates(updates, finished_at)`. */
    function ApplyOutcomeUpdates(updates: seq<(R, RouteOutcome)>, finishedAt: Instant): (r: ConnectionOutcomes<R>)
      ensures r.params == params
      ensures r.batches == batches + [OutcomeBatch(updates, finishedAt)]
      ensures r.Recorded() == Recorded() + StampAll(updates, finishedAt)
    {
      var r := ConnectionOutcomes(params, batches + [OutcomeBatch(updates, finishedAt)]);
      assert r.batches[..|r.batches| - 1] == batches;
      r
    }
  }

  /** `ConnectionOutcomes::new(params)`: a ledger with no history. */
  function NewOutcomes<R>(params: ConnectionOutcomeParams): (r: ConnectionOutcomes<R>)
    ensures r.params == params && r.Recorded() == multiset{}
  {
    ConnectionOutcomes(params, [])
  }

  /** The entries of a batch of updates, each stamped with `finishedAt`. */
  ghost function StampAll<R>(updates: seq<(R, RouteOutcome)>, finishedAt: Instant): multiset<Entry<R>> {
    if updates == [] then multiset{}
    else multiset{Entry(updates[0].0, updates[0].1, finishedAt)} + StampAll(updates[1..], finishedAt)
  }

  ghost function RecordedOf<R>(bs: seq<OutcomeBatch<R>>): multiset<Entry<R>> {
    if bs == [] then multiset{}
    else RecordedOf(bs[..|bs| - 1]) + StampAll(bs[|bs| - 1].updates, bs[|bs| - 1].finishedAt)
  }

  /**
   * A batch contributes exactly its updates, in whatever multiplicity they
   * occur, each stamped with the batch's finishing time.
   */
  lemma {:induction false} StampAllStampsEach<R>(updates: seq<(R, RouteOutcome)>, finishedAt: Instant)
    ensures StampAll(updates, finishedAt)
      == multiset(seq(|updates|, i requires 0 <= i < |updates| => Entry(updates[i].0, updates[i].1, finishedAt)))
  {
    if updates != [] {
      var tail := updates[1..];
      StampAllStampsEach(tail, finishedAt);
      var whole := seq(|updates|, i requires 0 <= i < |updates| => Entry(updates[i].0, updates[i].1, finishedAt));
      var rest := seq(|tail|, i requires 0 <= i < |tail| => Entry(tail[i].0, tail[i].1, finishedAt));
      assert whole == [Entry(updates[0].0, updates[0].1, finishedAt)] + rest;
    }
  }

  lemma {:induction false} RecordedConcat<R>(a: seq<OutcomeBatch<R>>, b: seq<OutcomeBatch<R>>)
    ensures RecordedOf(a + b) == RecordedOf(a) + RecordedOf(b)
  {
    if b == [] {
      assert a + b == a;
    } else {
      var n := |b| - 1;
      assert (a + b)[..|a + b| - 1] == a + b[..n];
      assert (a + b)[|a + b| - 1] == b[n];
      RecordedConcat(a, b[..n]);
    }
  }

  /**
   * The order in which batches reach the ledger does not change what it has
   * recorded: any two orderings of the same batches record the same entries.
   */
  lemma {:induction false} RecordedPermutation<R>(xs: seq<OutcomeBatch<R>>, ys: seq<OutcomeBatch<R>>)
    requires multiset(xs) == multiset(ys)
    ensures RecordedOf(xs) == RecordedOf(ys)
  {
    if xs == [] {
      assert |ys| == |multiset(ys)| == 0;
    } else {
      var n := |xs| - 1;
      var x := xs[n];
      assert xs == xs[..n] + [x];
      assert x in multiset(ys);
      var j :| 0 <= j < |ys| && ys[j] == x;
      assert ys == ys[..j] + [x] + ys[j + 1..];
      var rest := ys[..j] + ys[j + 1..];
      assert multiset(rest) == multiset(ys) - multiset{x};
      assert multiset(xs[..n]) == multiset(xs) - multiset{x};
      RecordedPermutation(xs[..n], rest);
      RecordedConcat(ys[..j] + [x], ys[j + 1..]);
      RecordedConcat(ys[..j], [x]);
      RecordedConcat(ys[..j], ys[j + 1..]);
      RecordedConcat(xs[..n], [x]);
      assert RecordedOf([x]) == StampAll(x.updates, x.finishedAt) by {
        assert [x][..0] == [];
      }
    }
  }

  /**
   * Two ledgers that were sent the same batches, in whatever order, have
   * recorded the same outcomes.
   */
  lemma ApplyOrderIrrelevant<R>(l1: ConnectionOutcomes<R>, l2: ConnectionOutcomes<R>)
    requires multiset(l1.batches) == multiset(l2.batches)
    ensures l1.Recorded() == l2.Recorded()
  {
    RecordedPermutation(l1.batches, l2.batches);
  }
}
