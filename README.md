# Sliding-window average controller, modelled in Dafny

The modelled system is a small Spring controller, `AverageCalculatorController`.
It answers `GET /numbers?numberid=<id>` in five steps:

1. It maps the id (`p`, `f`, `e`, `r`: prime, fibonacci, even, random) to an upstream URL.
2. It fetches a list of integers from that URL.
3. If the fetch produced no list, or took more than 500 ms, it answers 504 and stops.
4. Otherwise it merges the list into one shared window: a `LinkedHashSet<Integer>` of at most `window.size` recently seen numbers, oldest first.
5. It answers with the raw list, the window before and after the merge, and the window's average.

The project has three files:

- `results.dfy`: `Option` and `Result`.
- `window.dfy` (module `SlidingWindow`): the window as a value. It is a sequence without duplicates. The file defines what `addAll` and the trim do to it (`Add`, `AddAll`, `Trim`, `MergeWindow`) and the sum and average (`Sum`, `AverageOf`). `NewValues` is a second, front-to-back definition of the values a batch adds, and `AddAllIsWindowThenNewValues` proves the two agree. It proves the window's properties: no duplicates, the capacity bound, old members keep their place, new members come in first-occurrence order, eviction removes exactly the oldest members, unchanged on a batch with nothing new, and bounds on the average.
- `controller.dfy` (module `Controller`): `GetApiUrl`, the response datatypes, and the class `AverageCalculatorController`. The class holds the `numberWindow` field. `UpdateWindow` performs the merge with a loop that appends each new batch value and then trims from the front. `GetNumbers` is the whole request, including the failure gate.

The HTTP fetch and the clock are parameters. `GetNumbers` takes `upstream: string -> Fetch`. For each URL this gives what the call returned (`None` when any exception was caught) and how many milliseconds it took. `GetNumbers` consults it only for the URL it resolved, and only after the id was accepted. The ghost field `fetchedUrls` logs every URL handed to `upstream`, so that the contract of `GetNumbers` can state which calls were made.

Java `Integer` values are the newtype `int32`. The `double` average is kept exact, as the sum and the count of the window (`Average.Quotient`), or `NoElements` where the source uses `orElse(0.0)`.

## Model

| member | source | states |
|---|---|---|
| `SlidingWindow.Add` | controller.java:39 | `LinkedHashSet.add` on one value: the old window is a prefix of the result, the value is present afterwards, and the window grows by one exactly when the value was absent |
| `SlidingWindow.AddAll` | controller.java:39 | `numberWindow.addAll(batch)`: the union is at least as long as the window and grows by at most the batch length |
| `SlidingWindow.AddAllConcat` | controller.java:39 | adding a batch in two parts equals adding the first part and then the second |
| `SlidingWindow.AddAllFirstPresent` | controller.java:39 | a first batch value already in the window changes neither the union nor the new values |
| `SlidingWindow.AddAllFirstAbsent` | controller.java:39 | a first batch value not yet in the window joins it and heads the new values |
| `SlidingWindow.AddAllIsWindowThenNewValues` | controller.java:39-40 | the union equals the old window followed by `NewValues`: the batch values not yet present, each at its first occurrence, read front to back |
| `SlidingWindow.AddAllKeepsPrefix` | controller.java:39 | values already in the window do not move: the old window is a prefix of the union |
| `SlidingWindow.AddAllElements` | controller.java:39 | the union holds exactly the old members and the batch values |
| `SlidingWindow.AddAllNewValues` | controller.java:39 | every member past the old prefix is a batch value that was not in the window |
| `SlidingWindow.AddAllDistinct` | controller.java:19 | adding a batch to a duplicate-free window leaves it duplicate-free (set semantics) |
| `SlidingWindow.AddAllFirstOccurrenceOrder` | controller.java:39 | new members are ordered by the position of their first occurrence in the batch |
| `SlidingWindow.AddAllNothingNew` | controller.java:39 | a batch whose values are all present (or an empty one) leaves the union equal to the window |
| `SlidingWindow.Trim` | controller.java:40-44 | the result has at most `n` members; it is the input when that is small enough; otherwise it has exactly `n` members and the input is the dropped oldest `size - n` members followed by it |
| `SlidingWindow.MergeWindow` | controller.java:39-44 | the window after one merge (add the batch, then trim) has at most `windowSize` members, all of them old members or batch values |
| `SlidingWindow.MergeKeepsInvariant` | controller.java:39-44 | after a merge the window is duplicate-free and within `windowSize` |
| `SlidingWindow.MergeEvictsOldest` | controller.java:40-44 | with no overflow the new window is the union and starts with the old window; on overflow it is the union's last `windowSize` members and the dropped ones are exactly the oldest |
| `SlidingWindow.MergeNothingNew` | controller.java:39-44 | an empty batch, or one with only present values, leaves a valid window unchanged |
| `SlidingWindow.MemberBounds` | controller.java:46 | a non-empty window has a smallest and a largest member, found at the two returned positions |
| `SlidingWindow.AverageBetweenMembers` | controller.java:46 | the average of a non-empty window has the window size as its count and lies between its smallest and largest member |
| `SlidingWindow.SumBounds` | controller.java:46 | bounds on every member bound the sum by count times the bound |
| `SlidingWindow.AverageWithinBounds` | controller.java:46 | when the members lie within given bounds, so does the average: its count is the window size and sum / count lies between them |
| `SlidingWindow.SumFitsInLong` | controller.java:46 | the `long` sum behind `average()` cannot overflow on a window of at most `Integer.MAX_VALUE` ints |
| `Controller.GetApiUrl` | controller.java:51-63 | succeeds exactly for `p`, `f`, `e` and `r`, with a URL under the upstream base; any other id fails with `IllegalArgument("Invalid number ID")` |
| `Controller.ApiUrlInjective` | controller.java:53-60 | the four ids map to four distinct URLs |
| `Controller.MergeExampleNoEviction` | controller.java:39-46 | capacity 3: merging `[2,3,5,3]` into `[]` gives `[2,3,5]`, average 10/3 |
| `Controller.MergeExampleEviction` | controller.java:39-46 | capacity 3: merging `[7,11]` into `[2,3,5]` evicts the two oldest and gives `[5,7,11]`, average 23/3 |
| `Controller.FailuresLeaveWindowUnchanged` | controller.java:25-48 | four calls on a fresh controller of capacity 3: a success, then an unknown id (the exception) and a slow fetch (504) leave the window at `[2,3,5]`, and a later success with an empty batch reports `[2,3,5]` as both its previous and current state |
| `Controller.AverageCalculatorController.constructor` | controller.java:19-22 | the window starts empty, with the configured size |
| `Controller.AverageCalculatorController.UpdateWindow` | controller.java:36-44 | returns the old window as the previous state; the new window, returned as the current state, is `Trim(AddAll(old, batch), windowSize)`; the window stays duplicate-free and within capacity |
| `Controller.AverageCalculatorController.GetNumbers` | controller.java:25-48 | unknown id: the exception, window unchanged, nothing fetched (the fetch log is unchanged); a valid id: the log records exactly its URL; no list or a fetch over 500 ms: 504 with its message, window unchanged; otherwise 200 with the raw batch (duplicates kept), the old window, the merged window and that window's average |

## Left out

- The HTTP layer (`RestTemplate`, JSON binding of `NumbersResponse`, `ResponseEntity` headers, the Spring annotations): these are library calls. The fetch is the `upstream` parameter. A thrown fetch is `None`.
- `System.currentTimeMillis`: the elapsed time is the `duration` field of `Fetch`.
- Concurrency: the source's window is an unsynchronized field with no lock. The model covers single-threaded, sequential calls only.
- Floating point: the average is reported as an exact sum and count. The rounding of the `double` division is not modelled.
- Negative `window.size`: the constructor requires `0 <= windowSize <= Integer.MAX_VALUE`. With a negative size the source clears the window at line 42, and `subList` then throws at line 43, on every request that passes the gate. A size of 0 is allowed, as in the source: the window then stays empty.
- `null` elements inside the fetched list are not modelled. The batch is a sequence of ints.
- The aliasing of `numbers` with the upstream list: sequences are values here, and the controller never mutates that list.
