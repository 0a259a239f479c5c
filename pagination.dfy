/**
 * The paginator of `fetch_all_movies` as a function of the endpoint's
 * answers: which requests it issues, which records it collects, why it
 * stops, and what it remembers as the declared total.
 */
module Pagination {
  import opened Wrappers
  import opened Shapes
  import opened DateFormat
  import opened Mapper

  /** The page size every request asks for; the offset advances by it. */
  const Limit: nat := 50

  /** The catalogue partition every request names. */
  const Universe: string := "movie"

  /** The variables of the request issued at `offset`. */
  function RequestAt(username: string, offset: nat): Request {
    Request(username, Universe, Limit, offset)
  }

  /** The two ways an iteration raises instead of breaking out of the loop. */
  datatype RaiseCause =
    | NilCollection  // `collection['total']` on a null collection while no total is known
    | NilTotal       // `offset >= total` while no total is known

  /** Why the loop ended. */
  datatype StopReason =
    | TransportFailed
    | GraphQLErrors(messages: seq<string>)
    | UserMissing
    | NoProducts
    | ReachedTotal
    | Raised(cause: RaiseCause)
  {
    /** Whether the last iteration had appended its page before the loop ended. */
    predicate AppendedLastPage() {
      this == ReachedTotal || this == Raised(NilTotal)
    }
  }

  /** The outcome of running the loop: records appended, requests issued, stop reason, remembered total. */
  datatype Run = Run(records: seq<MovieRecord>, requests: seq<Request>, stop: StopReason, total: Option<int>)

  /** `collection&.dig('products') || []`: the products a response carries, empty where any level is missing. */
  function PageProducts(response: Response): seq<RawProduct> {
    match response
    case Failed => []
    case Ok(body) =>
      if body.user.Some? && body.user.value.collection.Some? then
        body.user.value.collection.value.products.GetOr([])
      else []
  }

  /** The amount still to fetch before the declared total is reached. */
  function Remaining(offset: nat, total: Option<int>): nat {
    if total.Some? && total.value > offset then total.value - offset else 0
  }

  /** What one iteration decides from its response, before it appends anything. */
  datatype Step =
    | Halt(stop: StopReason, known: Option<int>)          // a check fired: break without appending
    | Append(products: seq<RawProduct>, known: Option<int>)  // a non-empty page to append

  /**
   * The checks of one iteration, in the order the loop makes them: a failed
   * request, a GraphQL `errors` array, a missing user, then (reading the
   * total while none is known) an empty page.
   */
  function Inspect(response: Response, total: Option<int>): (step: Step)
    ensures step.Append? ==> step.products != [] && step.products == PageProducts(response)
    ensures step.Halt? ==> !step.stop.AppendedLastPage()
    ensures total.Some? ==> step.known == total
  {
    match response
    case Failed => Halt(TransportFailed, total)
    case Ok(body) =>
      if body.errors.Some? then Halt(GraphQLErrors(body.errors.value), total)
      else if body.user.None? then Halt(UserMissing, total)
      else if total.None? && body.user.value.collection.None? then Halt(Raised(NilCollection), total)
      else
        var known := if total.Some? then total else body.user.value.collection.value.total;
        var products := PageProducts(response);
        if products == [] then Halt(NoProducts, known) else Append(products, known)
  }

  /**
   * The loop of `fetch_all_movies` from the iteration that requests `offset`,
   * with `total` as remembered so far: it appends the page `Inspect` lets
   * through, advances the offset and stops once it reaches the total.
   */
  function Fetch(server: Server, parse: TimeParser, username: string, offset: nat, total: Option<int>): (run: Run)
    ensures |run.requests| >= 1 && run.requests[0] == RequestAt(username, offset)
    ensures total.Some? ==> run.total == total
    decreases if total.None? then 1 else 0, Remaining(offset, total)
  {
    var request := RequestAt(username, offset);
    match Inspect(server(request), total)
    case Halt(stop, known) => Run([], [request], stop, known)
    case Append(products, known) =>
      var page := ParsePage(parse, products);
      var next := offset + Limit;
      if known.None? then Run(page, [request], Raised(NilTotal), known)
      else if next >= known.value then Run(page, [request], ReachedTotal, known)
      else
        var rest := Fetch(server, parse, username, next, known);
        Run(page + rest.records, [request] + rest.requests, rest.stop, rest.total)
  }

  /** A run preceded by iterations that appended `records` and issued `requests`. */
  function After(records: seq<MovieRecord>, requests: seq<Request>, run: Run): Run {
    Run(records + run.records, requests + run.requests, run.stop, run.total)
  }

  lemma ConcatAssoc<T>(a: seq<T>, b: seq<T>, c: seq<T>)
    ensures (a + b) + c == a + (b + c)
  {
  }

  lemma AfterAfter(records: seq<MovieRecord>, requests: seq<Request>, page: seq<MovieRecord>, issued: seq<Request>, run: Run)
    ensures After(records, requests, After(page, issued, run)) == After(records + page, requests + issued, run)
  {
    assert records + (page + run.records) == (records + page) + run.records;
    assert requests + (issued + run.requests) == (requests + issued) + run.requests;
  }

  /** The loop as the exporter starts it: offset 0, no total known. */
  function FetchAll(server: Server, parse: TimeParser, username: string): Run {
    Fetch(server, parse, username, 0, None)
  }

  /** How many of a run's requests had their page appended. */
  function Processed(run: Run): nat
    requires |run.requests| >= 1
  {
    if run.stop.AppendedLastPage() then |run.requests| else |run.requests| - 1
  }

  /** The records of the pages answered to `requests`, concatenated in request order. */
  function Harvest(server: Server, parse: TimeParser, requests: seq<Request>): seq<MovieRecord> {
    if requests == [] then []
    else ParsePage(parse, PageProducts(server(requests[0]))) + Harvest(server, parse, requests[1..])
  }

  /** The number of products the pages answered to `requests` carry. */
  function PagesSize(server: Server, requests: seq<Request>): nat {
    if requests == [] then 0 else |PageProducts(server(requests[0]))| + PagesSize(server, requests[1..])
  }

  /**
   * The checks of one iteration fire in a fixed order and the first that
   * fires ends the loop without appending anything.
   */
  lemma CheckOrder(server: Server, parse: TimeParser, username: string, offset: nat, total: Option<int>)
    ensures var run := Fetch(server, parse, username, offset, total);
      var response := server(RequestAt(username, offset));
      && (response.Failed? ==>
            run == Run([], [RequestAt(username, offset)], TransportFailed, total))
      && (response.Ok? && response.body.errors.Some? ==>
            run == Run([], [RequestAt(username, offset)], GraphQLErrors(response.body.errors.value), total))
      && (response.Ok? && response.body.errors.None? && response.body.user.None? ==>
            run == Run([], [RequestAt(username, offset)], UserMissing, total))
      && (response.Ok? && response.body.errors.None? && response.body.user.Some? && PageProducts(response) == [] ==>
            run.records == [] && |run.requests| == 1 && (run.stop == NoProducts || run.stop == Raised(NilCollection)))
  {
  }

  /**
   * An iteration that gets past every check appends its page and either
   * stops (at the total, or raising on a total that is still unknown) or
   * goes on at the next offset with the total it now knows.
   */
  lemma PageAppended(server: Server, parse: TimeParser, username: string, offset: nat, total: Option<int>)
    requires Inspect(server(RequestAt(username, offset)), total).Append?
    ensures var step := Inspect(server(RequestAt(username, offset)), total);
      var page := ParsePage(parse, step.products);
      var run := Fetch(server, parse, username, offset, total);
      var request := RequestAt(username, offset);
      && (step.known.None? ==> run == Run(page, [request], Raised(NilTotal), step.known))
      && (step.known.Some? && offset + Limit >= step.known.value ==> run == Run(page, [request], ReachedTotal, step.known))
      && (step.known.Some? && offset + Limit < step.known.value ==>
            var rest := Fetch(server, parse, username, offset + Limit, step.known);
            run == Run(page + rest.records, [request] + rest.requests, rest.stop, rest.total))
  {
  }

  /** The `i`-th of `requests` asks for offset `offset + 50 * i`. */
  ghost predicate SteppedFrom(requests: seq<Request>, username: string, offset: nat) {
    forall i :: 0 <= i < |requests| ==> requests[i] == RequestAt(username, offset + Limit * i)
  }

  /** The requests go to offsets `offset`, `offset + 50`, `offset + 100`, and so on. */
  lemma {:induction false} RequestOffsets(server: Server, parse: TimeParser, username: string, offset: nat, total: Option<int>)
    ensures SteppedFrom(Fetch(server, parse, username, offset, total).requests, username, offset)
    decreases if total.None? then 1 else 0, Remaining(offset, total)
  {
    var run := Fetch(server, parse, username, offset, total);
    if |run.requests| > 1 {
      var known := Inspect(server(RequestAt(username, offset)), total).known;
      var rest := Fetch(server, parse, username, offset + Limit, known);
      RequestOffsets(server, parse, username, offset + Limit, known);
      assert run.requests == [RequestAt(username, offset)] + rest.requests;
      forall i | 1 <= i < |run.requests|
        ensures run.requests[i] == RequestAt(username, offset + Limit * i)
      {
        assert run.requests[i] == rest.requests[i - 1];
        assert offset + Limit + Limit * (i - 1) == offset + Limit * i;
      }
    }
  }

  /** Offsets strictly increase from one request to the next. */
  lemma RequestsIncrease(server: Server, parse: TimeParser, username: string)
    ensures var run := FetchAll(server, parse, username);
      forall i, j :: 0 <= i < j < |run.requests| ==> run.requests[i].offset < run.requests[j].offset
  {
    var run := FetchAll(server, parse, username);
    RequestOffsets(server, parse, username, 0, None);
    forall i, j | 0 <= i < j < |run.requests|
      ensures run.requests[i].offset < run.requests[j].offset
    {
      assert run.requests[i].offset == Limit * i && run.requests[j].offset == Limit * j;
      assert Limit * i < Limit * j;
    }
  }

  /**
   * The records are the pages of the processed iterations mapped and
   * concatenated in arrival order: nothing dropped, merged or reordered.
   */
  lemma {:induction false} RecordsArePages(server: Server, parse: TimeParser, username: string, offset: nat, total: Option<int>)
    ensures var run := Fetch(server, parse, username, offset, total);
      run.records == Harvest(server, parse, run.requests[..Processed(run)])
    decreases if total.None? then 1 else 0, Remaining(offset, total)
  {
    var run := Fetch(server, parse, username, offset, total);
    var request := RequestAt(username, offset);
    if |run.requests| == 1 {
      if run.stop.AppendedLastPage() {
        assert run.requests[..1] == [request];
        assert Harvest(server, parse, [request][1..]) == [];
      } else {
        assert run.requests[..0] == [];
      }
    } else {
      var known := Inspect(server(request), total).known;
      var rest := Fetch(server, parse, username, offset + Limit, known);
      RecordsArePages(server, parse, username, offset + Limit, known);
      assert run.requests[..Processed(run)] == [request] + rest.requests[..Processed(rest)];
      assert ([request] + rest.requests[..Processed(rest)])[1..] == rest.requests[..Processed(rest)];
    }
  }

  lemma {:induction false} HarvestSize(server: Server, parse: TimeParser, requests: seq<Request>)
    ensures |Harvest(server, parse, requests)| == PagesSize(server, requests)
  {
    if requests != [] {
      HarvestSize(server, parse, requests[1..]);
    }
  }

  /** The number of records is the sum of the sizes of the processed pages. */
  lemma RecordCount(server: Server, parse: TimeParser, username: string)
    ensures var run := FetchAll(server, parse, username);
      |run.records| == PagesSize(server, run.requests[..Processed(run)])
  {
    var run := FetchAll(server, parse, username);
    RecordsArePages(server, parse, username, 0, None);
    HarvestSize(server, parse, run.requests[..Processed(run)]);
  }

  /**
   * The total is remembered from the first page that reaches the user's
   * collection; the totals later pages declare are never read.
   */
  lemma TotalFromFirstPage(server: Server, parse: TimeParser, username: string)
    requires var response := server(RequestAt(username, 0));
      && response.Ok? && response.body.errors.None? && response.body.user.Some?
      && response.body.user.value.collection.Some?
    ensures FetchAll(server, parse, username).total == server(RequestAt(username, 0)).body.user.value.collection.value.total
  {
  }

  /** Each of `requests` but the last left the next offset below the known total. */
  ghost predicate BelowTotal(requests: seq<Request>, total: Option<int>) {
    |requests| > 1 ==> total.Some? && forall i :: 0 <= i < |requests| - 1 ==> requests[i].offset + Limit < total.value
  }

  /**
   * Every iteration but the last went on because the next offset was still
   * below the total; the loop ends at the total only once the next offset
   * reaches it.
   */
  lemma {:induction false} ContinuedBelowTotal(server: Server, parse: TimeParser, username: string, offset: nat, total: Option<int>)
    ensures var run := Fetch(server, parse, username, offset, total);
      && BelowTotal(run.requests, run.total)
      && (run.stop == ReachedTotal ==>
            run.total.Some? && run.requests[|run.requests| - 1].offset + Limit >= run.total.value)
    decreases if total.None? then 1 else 0, Remaining(offset, total)
  {
    var run := Fetch(server, parse, username, offset, total);
    var request := RequestAt(username, offset);
    var step := Inspect(server(request), total);
    if step.Halt? {
      assert run == Run([], [request], step.stop, step.known);
    } else {
      PageAppended(server, parse, username, offset, total);
      if step.known.Some? && offset + Limit < step.known.value {
        var rest := Fetch(server, parse, username, offset + Limit, step.known);
        ContinuedBelowTotal(server, parse, username, offset + Limit, step.known);
        assert run.requests == [request] + rest.requests;
        assert run.total == rest.total == step.known;
        forall i | 1 <= i < |run.requests| - 1
          ensures run.requests[i].offset + Limit < run.total.value
        {
          assert run.requests[i] == rest.requests[i - 1];
        }
        assert run.requests[|run.requests| - 1] == rest.requests[|rest.requests| - 1];
      }
    }
  }

  /** `max(1, ceil(total / 50))`: the most iterations a declared total allows. */
  function MaxIterations(total: int): nat {
    if total <= Limit then 1 else (total + Limit - 1) / Limit
  }

  /**
   * The loop always ends, and once a total is known it runs at most
   * `max(1, ceil(total / 50))` iterations; without one it runs exactly one.
   */
  lemma IterationBound(server: Server, parse: TimeParser, username: string)
    ensures var run := FetchAll(server, parse, username);
      |run.requests| <= if run.total.Some? then MaxIterations(run.total.value) else 1
  {
    var run := FetchAll(server, parse, username);
    var n := |run.requests|;
    ContinuedBelowTotal(server, parse, username, 0, None);
    if n > 1 {
      RequestOffsets(server, parse, username, 0, None);
      var t := run.total.value;
      assert run.requests[n - 2].offset == Limit * (n - 2);
      assert Limit * (n - 1) < t;
      assert (t + Limit - 1) / Limit >= n;
    }
  }
}
