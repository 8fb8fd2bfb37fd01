/** The request handler: `AverageCalculatorController`.

    One GET of `/numbers?numberid=<id>` resolves the id to an upstream URL,
    fetches a batch of integers from it, and, unless the fetch failed or was
    too slow, merges the batch into the shared window and reports the window
    before and after together with its average.

    The HTTP call and the clock are not modelled: the caller passes in
    `upstream`, which gives for each URL what the fetch returned (the list,
    or nothing when any exception was caught) and how many milliseconds it
    took. */
module Controller {
  import opened Results
  import opened SlidingWindow

  /** The exception `getApiUrl` throws on an unknown id. */
  datatype Error = IllegalArgument(message: string)

  /** What one upstream call produced: the `numbers` list, or `None` when the
      call threw (network error, bad status, missing body), and the elapsed
      wall-clock time in milliseconds. */
  datatype Fetch = Fetch(numbers: Option<seq<int32>>, duration: int)

  /** The 200 response body. */
  datatype ResponseData = ResponseData(
    numbers: seq<int32>,
    windowPrevState: seq<int32>,
    windowCurrState: seq<int32>,
    avg: Average)

  /** A `ResponseEntity`: 200 with a body, or another status with a message. */
  datatype Response = Ok(body: ResponseData) | Status(code: int, message: string)

  const BASE_URL: string := "http://20.244.56.144/test/"
  const TIMEOUT_MILLIS: int := 500
  const TIMEOUT_MESSAGE: string := "Timeout or error fetching numbers from server"
  const INVALID_ID_MESSAGE: string := "Invalid number ID"

  /** `getApiUrl`: the four categories (prime, fibonacci, even, random) and
      their upstream endpoints; any other id throws. */
  function GetApiUrl(numberId: string): (r: Result<string, Error>)
    ensures r.Success? <==> numberId in {"p", "f", "e", "r"}
    ensures r.Success? ==> |BASE_URL| < |r.value| && r.value[..|BASE_URL|] == BASE_URL
    ensures r.Failure? ==> r.error == IllegalArgument(INVALID_ID_MESSAGE)
  {
    match numberId
    case "p" => Success("http://20.244.56.144/test/primes")
    case "f" => Success("http://20.244.56.144/test/fibo")
    case "e" => Success("http://20.244.56.144/test/even")
    case "r" => Success("http://20.244.56.144/test/rand")
    case _ => Failure(IllegalArgument(INVALID_ID_MESSAGE))
  }

  /** Each category has its own endpoint. */
  lemma ApiUrlInjective(a: string, b: string)
    requires GetApiUrl(a).Success? && GetApiUrl(b).Success?
    requires GetApiUrl(a).value == GetApiUrl(b).value
    ensures a == b
  {
  }

  /** The failure gate: no list, or a call slower than 500 ms. */
  predicate FetchFailed(f: Fetch)
  {
    f.numbers.None? || f.duration > TIMEOUT_MILLIS
  }

  class AverageCalculatorController {
    /** The `LinkedHashSet<Integer>` window, oldest member first. */
    var numberWindow: seq<int32>
    /** The URLs fetched so far, in call order: a record of when the
        upstream call happens, not state of the source. */
    ghost var fetchedUrls: seq<string>
    /** `window.size` from the configuration. */
    const windowSize: nat

    /** The window is a set that never exceeds its capacity. */
    ghost predicate Valid()
      reads this
    {
      windowSize <= INT_MAX && Distinct(numberWindow) && |numberWindow| <= windowSize
    }

    constructor (windowSize: nat)
      requires windowSize <= INT_MAX
      ensures Valid()
      ensures this.windowSize == windowSize && numberWindow == [] && fetchedUrls == []
    {
      fetchedUrls := [];
      this.windowSize := windowSize;
      numberWindow := [];
    }

    /** Lines 36-44 of `getNumbers`: snapshot the window, add the batch
        value by value, and when the window has grown past its size rebuild
        it from its newest `windowSize` members. */
    method UpdateWindow(batch: seq<int32>) returns (prev: seq<int32>, curr: seq<int32>)
      requires Valid()
      modifies this
      ensures Valid()
      ensures prev == old(numberWindow) && fetchedUrls == old(fetchedUrls)
      ensures curr == numberWindow == MergeWindow(old(numberWindow), batch, windowSize)
    {
      prev := numberWindow;
      var i := 0;
      while i < |batch|
        invariant 0 <= i <= |batch|
        invariant numberWindow == AddAll(prev, batch[..i])
        invariant fetchedUrls == old(fetchedUrls)
      {
        assert batch[..i + 1][..i] == batch[..i];
        if batch[i] !in numberWindow {
          numberWindow := numberWindow + [batch[i]];
        }
        i := i + 1;
      }
      assert batch[..i] == batch;
      if |numberWindow| > windowSize {
        var windowList := numberWindow;
        numberWindow := windowList[|windowList| - windowSize..];
      }
      MergeKeepsInvariant(prev, batch, windowSize);
      curr := numberWindow;
    }

    /** `getNumbers`: resolve the id (throwing before anything else on an
        unknown one), fetch, answer 504 without touching the window when the
        fetch failed or took over 500 ms, and otherwise merge and answer 200
        with the raw batch, both snapshots and the average. */
    method GetNumbers(numberId: string, upstream: string -> Fetch) returns (r: Result<Response, Error>)
      requires Valid()
      modifies this
      ensures Valid()
      ensures GetApiUrl(numberId).Failure? ==>
        r == Failure(IllegalArgument(INVALID_ID_MESSAGE)) && numberWindow == old(numberWindow)
      ensures GetApiUrl(numberId).Failure? ==> fetchedUrls == old(fetchedUrls)
      ensures GetApiUrl(numberId).Success? ==> fetchedUrls == old(fetchedUrls) + [GetApiUrl(numberId).value]
      ensures GetApiUrl(numberId).Success? && FetchFailed(upstream(GetApiUrl(numberId).value)) ==>
        r == Success(Status(504, TIMEOUT_MESSAGE)) && numberWindow == old(numberWindow)
      ensures GetApiUrl(numberId).Success? && !FetchFailed(upstream(GetApiUrl(numberId).value)) ==>
        var batch := upstream(GetApiUrl(numberId).value).numbers.value;
        numberWindow == MergeWindow(old(numberWindow), batch, windowSize) &&
        r == Success(Ok(ResponseData(batch, old(numberWindow), numberWindow, AverageOf(numberWindow))))
    {
      var apiUrl := GetApiUrl(numberId);
      if apiUrl.Failure? {
        return Failure(apiUrl.error);
      }
      fetchedUrls := fetchedUrls + [apiUrl.value];
      var fetched := upstream(apiUrl.value);
      if FetchFailed(fetched) {
        return Success(Status(504, TIMEOUT_MESSAGE));
      }
      var numbersFromServer := fetched.numbers.value;
      var windowPrevState, windowCurrState := UpdateWindow(numbersFromServer);
      var average := AverageOf(numberWindow);
      r := Success(Ok(ResponseData(numbersFromServer, windowPrevState, windowCurrState, average)));
    }
  }

  /** Capacity 3: `[2,3,5,3]` into an empty window keeps `[2,3,5]`; the
      repeated 3 is ignored and nothing is evicted. */
  lemma MergeExampleNoEviction()
    ensures MergeWindow([], [2, 3, 5, 3], 3) == [2, 3, 5]
    ensures AverageOf([2, 3, 5]) == Quotient(10, 3)
  {
    var b: seq<int32> := [2, 3, 5, 3];
    assert b[..0] == [];
    assert AddAll([], b[..1]) == [2];
    assert AddAll([], b[..2]) == [2, 3] by { assert b[..2][..1] == b[..1]; }
    assert AddAll([], b[..3]) == [2, 3, 5] by { assert b[..3][..2] == b[..2]; }
    assert AddAll([], b) == [2, 3, 5] by { assert b[..3] == [2, 3, 5]; }
    var w: seq<int32> := [2, 3, 5];
    assert Sum(w[..1]) == 2 by { assert w[..1][..0] == []; }
    assert Sum(w[..2]) == 5 by { assert w[..2][..1] == w[..1]; }
    assert Sum(w) == 10 by { assert w[..2] == [2, 3]; }
  }

  /** Capacity 3: `[7,11]` into `[2,3,5]` overflows; the union `[2,3,5,7,11]`
      loses its two oldest members and `[5,7,11]` is kept. */
  lemma MergeExampleEviction()
    ensures MergeWindow([2, 3, 5], [7, 11], 3) == [5, 7, 11]
    ensures AverageOf([5, 7, 11]) == Quotient(23, 3)
  {
    var b: seq<int32> := [7, 11];
    var w: seq<int32> := [2, 3, 5];
    assert b[..0] == [];
    assert AddAll(w, b[..1]) == [2, 3, 5, 7];
    assert AddAll(w, b) == [2, 3, 5, 7, 11];
    var v: seq<int32> := [5, 7, 11];
    assert Sum(v[..1]) == 5 by { assert v[..1][..0] == []; }
    assert Sum(v[..2]) == 12 by { assert v[..2][..1] == v[..1]; }
    assert Sum(v) == 23 by { assert v[..2] == [5, 7]; }
  }

  /** Four calls on a fresh controller of capacity 3: a successful one, an
      unknown id and a slow fetch, which both leave the window as it was, and
      a successful one with an empty batch, which reports that same window as
      its previous and its current state. */
  method FailuresLeaveWindowUnchanged(upstream: string -> Fetch)
    returns (responses: seq<Result<Response, Error>>)
    requires upstream("http://20.244.56.144/test/primes") == Fetch(Some([2, 3, 5, 3]), 10)
    requires upstream("http://20.244.56.144/test/even") == Fetch(Some([13]), 501)
    requires upstream("http://20.244.56.144/test/rand") == Fetch(Some([]), 0)
    ensures responses == [
      Success(Ok(ResponseData([2, 3, 5, 3], [], [2, 3, 5], Quotient(10, 3)))),
      Failure(IllegalArgument(INVALID_ID_MESSAGE)),
      Success(Status(504, TIMEOUT_MESSAGE)),
      Success(Ok(ResponseData([], [2, 3, 5], [2, 3, 5], Quotient(10, 3))))]
  {
    MergeExampleNoEviction();
    assert GetApiUrl("p") == Success("http://20.244.56.144/test/primes");
    assert GetApiUrl("x").Failure?;
    assert GetApiUrl("e") == Success("http://20.244.56.144/test/even");
    assert GetApiUrl("r") == Success("http://20.244.56.144/test/rand");
    var c := new AverageCalculatorController(3);
    var r1 := c.GetNumbers("p", upstream);
    assert c.numberWindow == [2, 3, 5];
    var r2 := c.GetNumbers("x", upstream);
    var r3 := c.GetNumbers("e", upstream);
    assert c.numberWindow == [2, 3, 5];
    var r4 := c.GetNumbers("r", upstream);
    assert AddAll([2, 3, 5], []) == [2, 3, 5];
    responses := [r1, r2, r3, r4];
  }
}
