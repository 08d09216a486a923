# Port scanner core, modelled in Dafny

This project models the scanning core of a Python port scanner with a web front end
(`port_scanner.py`). It covers the `PortScanner` class and the validation and dispatch
logic of the `/api/scan` endpoint. The socket, the thread pool, the clock and the name
resolver are replaced by values the caller supplies. Everything that remains is
deterministic and is proved here.

- `services.dfy` (module `Services`) holds the fixed service-name table behind
  `get_service_name`, with the `'Unknown'` fallback.
- `probing.dfy` (module `Probing`) holds the classification step of `scan_port`. The
  connection attempt arrives as a `ProbeOutcome`: `connect_ex` returned a code, or the
  attempt raised with a message. Code 0 gives `open` with the table's service name. Any
  other code gives `closed` with service `unknown`. An exception gives `error` with service
  `error` and the message.
- `profiles.dfy` (module `Profiles`) holds the port lists and worker settings. These are
  the 23-port `common_ports`, the 16-port quick list (50 workers, 0.5 s), ports 1..1000
  (200 workers, 1 s), and the inclusive `range(start, end + 1)` with no bounds check.
- `aggregation.dfy` (module `Aggregation`) holds what the collecting loop of `scan_host`
  reads and builds. The pool's completions arrive as a sequence in completion order. Each
  one either yields the probe's record or raises when its result is fetched. The module
  proves the partition, size and order lemmas about the three status buckets.
- `scanner.dfy` (module `Scanner`) holds the `PortScanner` class with its `results` and
  `scanning` fields. `ScanHost` resets both fields and then runs the collecting loop,
  proved against `Collected` and `Summarize`. `ScanPortRange`, `QuickScan` and
  `ComprehensiveScan` call it the way the source does.
- `api.dfy` (module `Api`) holds `scan_ports`. It reads the request fields with their
  defaults and applies Python's `str.strip` to the host. It rejects a blank host before
  resolving it, maps a resolver failure to a 400, and takes the `if/elif` dispatch over
  `scan_type`. The imperative `ScanPorts` runs the chosen scanner method on the shared
  scanner and is proved against the pure `Route` and `Answer`.
- `wrappers.dfy` (module `Wrappers`) holds `Option` and `Result`.

The model follows the code, including in these behaviours:

- Port lists are not de-duplicated. `total_ports` is the list's length, duplicates
  included, and one probe is submitted per element.
- An inverted range is not rejected. It scans nothing and reports `total_ports == 0`.
- A custom scan with an empty list is not an error. It falls back to the 23 default
  ports, like an unknown scan type does.
- A missing `scan_type` means `quick`.
- `max_threads` is not validated. A value below 1 makes `ThreadPoolExecutor` raise
  `ValueError("max_workers must be greater than 0")` (line 87). By then `scanning` is
  already set and `results` already cleared (lines 74-75). The endpoint answers 500 with
  that message.
- `scanning` is set at the start of every scan, and nothing ever clears it.
- Only `socket.gaierror` from the resolver gives the 400 `'Invalid hostname or IP
  address'`. Any other exception it raises reaches the outer handler and gives a 500
  with its message.

## Model

| member | source | states |
|---|---|---|
| `Services.ServiceName` | port_scanner.py:57-67 | a listed port gets its table label; a port has a label other than `Unknown` exactly when it is in the table; exactly 8080, 8888, 9090 and 8000 give `HTTP-Alt` |
| `Probing.ScanPort` | port_scanner.py:26-55 | the record echoes the port and the clock reading; `open` exactly for code 0, with the table's service name; `closed` exactly for a non-zero code, with service `unknown`; `error` exactly when the attempt raised, with service `error` and the message in the error field; only error records have an error field |
| `Probing.OpenServiceIsDistinct` | port_scanner.py:34-55 | a record is open exactly when its service is neither `unknown` nor `error`, so no table label collides with those two |
| `Profiles.PortRange` | port_scanner.py:134 | `range(start, end + 1)` has `end - start + 1` elements when `start <= end` and none otherwise, and element `i` is `start + i` |
| `Profiles.PortRangeMembers` | port_scanner.py:134 | a port is in the range exactly when it lies between the bounds inclusive, and the list strictly ascends |
| `Profiles.QuickPlan` | port_scanner.py:137-140 | the quick scan probes 16 ports with 50 workers and a 0.5 s timeout; every quick port is a default port and has a service name |
| `Profiles.ComprehensivePlan` | port_scanner.py:142-145 | the comprehensive scan probes ports 1..1000 in order (1000 ports) with 200 workers and a 1 s timeout |
| `Profiles.RangePlan` | port_scanner.py:132-135 | an inverted range scans nothing; otherwise the list has `end - start + 1` ports, port `i` is `start + i`, and it ends at `end`; the caller's workers and timeout are passed on unchanged |
| `Profiles.CommonPortsAreNamed` | port_scanner.py:21-24 | the default list has 23 distinct ports, and they are exactly the ports the service table names |
| `Aggregation.Collected` | port_scanner.py:95-99 | the collected records number at most the completions; a future that raised on fetch contributes no record |
| `Aggregation.WithStatus` | port_scanner.py:101-107 | a bucket is no longer than the record list it is taken from |
| `Aggregation.WithStatusMembers` | port_scanner.py:101-107 | a bucket holds exactly the records of the given status |
| `Aggregation.CollectedAppend` | port_scanner.py:95-99 | collecting a later batch of completions appends its records after the earlier ones |
| `Aggregation.Yield` | port_scanner.py:96-110 | a completed future gives exactly one record and a future whose fetch raised gives none |
| `Aggregation.CollectedStep` | port_scanner.py:95-99 | one more completion appends its record if it yielded one, and nothing otherwise |
| `Aggregation.WithStatusAppend` | port_scanner.py:99-107 | bucketing distributes over concatenation, so later arrivals come later in their bucket |
| `Aggregation.WithStatusStep` | port_scanner.py:99-107 | one more record is appended to the bucket of its status and to no other |
| `Aggregation.BucketSizes` | port_scanner.py:99-107 | the open, closed and error buckets together are exactly as long as the record list |
| `Aggregation.BucketKeepsOrder` | port_scanner.py:99-107 | each bucket is a subsequence of the record list, so it keeps the completion order |
| `Aggregation.CollectedAllCompleted` | port_scanner.py:95-99 | when every future yields, there is one record per completion, and record `i` classifies completion `i` |
| `Scanner.Summarize` | port_scanner.py:122-130 | the summary echoes the host, and `total_ports` is the list's length; each bucket holds exactly the collected records of its status, as a subsequence of the records in completion order; the buckets' sizes sum to the number of records |
| `Scanner.DefaultScanIsNamedPorts` | port_scanner.py:71-72 | a scan given no list probes 23 distinct ports, exactly the ports the service table names |
| `Aggregation.RecordsMatchPorts` | port_scanner.py:89-99 | when the completions are the submitted ports in some order and each yields, there is one record per list element, and the records' ports equal the list as a multiset, duplicates included |
| `Scanner.EveryPortAccounted` | port_scanner.py:89-125 | under the same conditions the bucket sizes sum to `total_ports`, the list's length |
| `Scanner.CollectedRecords` | port_scanner.py:95-99 | every collected record classifies the outcome of some completion that yielded |
| `Scanner.BucketLabels` | port_scanner.py:99-107 | open records carry the table name and no error field; closed records carry `unknown` and no error field; error records carry `error` and an error message |
| `Scanner.PortScanner.constructor` | port_scanner.py:18-20 | a new scanner has no records and is not scanning |
| `Scanner.PortScanner.ScanHost` | port_scanner.py:69-130 | the scanning flag is set; with a worker count below 1 the records are empty and the pool's error is returned; otherwise the records are the yielded results in completion order and the summary's buckets partition them |
| `Scanner.PortScanner.ScanPortRange` | port_scanner.py:132-135 | as ScanHost over `start..end` inclusive, with the caller's workers and timeout |
| `Scanner.PortScanner.QuickScan` | port_scanner.py:137-140 | always succeeds, over the 16 quick ports; the flag is set and the records are the yielded results |
| `Scanner.PortScanner.ComprehensiveScan` | port_scanner.py:142-145 | always succeeds, over ports 1..1000; the flag is set and the records are the yielded results |
| `Api.TrimLeft` | port_scanner.py:162 | the result is a suffix of the input that does not start with whitespace, and everything removed is whitespace |
| `Api.TrimRight` | port_scanner.py:162 | the result is a prefix of the input that does not end with whitespace, and everything removed is whitespace |
| `Api.StripEmpty` | port_scanner.py:162-171 | the stripped host is empty exactly when every character of the host is whitespace |
| `Api.StripIsInnerRun` | port_scanner.py:162 | the stripped host is the contiguous run left after removing a whitespace prefix and a whitespace suffix |
| `Api.StripIsTrimmed` | port_scanner.py:162 | the stripped host neither starts nor ends with whitespace |
| `Api.SelectPlan` | port_scanner.py:179-189 | each branch is taken exactly for its input: quick for `quick`, comprehensive for `comprehensive`, custom for `custom` with a non-empty list, range for `range`, and the default list for everything else; custom scans the caller's list, range scans `start..end`; quick and comprehensive use their fixed plans; every other branch passes the caller's workers and timeout on |
| `Api.RouteAdmits` | port_scanner.py:162-177 | a request reaches the scanner exactly when its stripped host is non-empty and resolves; `Host is required` is returned exactly for an all-whitespace or missing host, whatever the resolver would say; the scanned host is the stripped one |
| `Api.RequestDefaults` | port_scanner.py:161-168 | a request without `max_threads` or `timeout` gets 100 workers and a 1 s timeout on the non-fixed branches; a range request without bounds scans ports 1..1000; a request without `ports` never takes the custom branch |
| `Api.RouteResolverFailures` | port_scanner.py:173-200 | an unresolvable host gives the 400 `Invalid hostname or IP address`; any other resolver exception gives a 500 carrying its message |
| `Api.MissingTypeIsQuick` | port_scanner.py:163-181 | a request without `scan_type` gets the quick scan |
| `Api.EmptyCustomFallsBack` | port_scanner.py:184-189 | a custom scan with an empty list is the same scan as an unknown type: the 23 default ports with the caller's workers and timeout |
| `Api.FixedProfilesIgnoreSettings` | port_scanner.py:180-183 | quick and comprehensive scans are the same whatever ports, bounds, workers and timeout the request carries, and they use at least 50 workers |
| `Api.EmptyPlanOnlyForInvertedRange` | port_scanner.py:179-189 | the port list is empty exactly for a range scan with `start > end` |
| `Api.PoolFailureNeedsCallerThreads` | port_scanner.py:167-189 | the worker count is below 1 exactly when the caller gave one below 1 to a branch other than quick and comprehensive |
| `Api.AnswerAccountsForEveryPort` | port_scanner.py:185-194 | when the pool starts and every probe of the chosen list yields, the answer is a scan result whose buckets sum to `total_ports`, the list's length |
| `Api.ResponseStatus` | port_scanner.py:170-200 | the answer's status is 400 exactly for a blank or unresolvable host; 200 exactly when the host resolves and the pool starts; 500 exactly for another resolver exception or a worker count below 1 |
| `Api.ScanPorts` | port_scanner.py:158-200 | the answer is the one `Respond` gives; a rejected request is answered with the routing error and leaves the scanner untouched; an admitted one sets the flag and gives the 200 summary or the 500 pool error; it leaves the scanner's records equal to the yielded results, or empty when the pool refused |

## Left out

- Socket creation, `settimeout`, `connect_ex` and `close` (lines 29-32) are network I/O.
  Their result is the `ProbeOutcome` input. The socket the source leaves unclosed when
  `connect_ex` raises is not modelled. A negative timeout makes `settimeout` raise, and
  that arrives as a `Raised` outcome.
- `ThreadPoolExecutor` and `as_completed` (lines 87-95) are concurrency. The completion
  order is the caller's `Completion` sequence. `ScanHost` accepts any such sequence. The
  fact that the pool delivers each submitted port exactly once is the hypothesis of
  `EveryPortAccounted` and `AnswerAccountsForEveryPort`.
- `time.time()`, `scan_duration` and `datetime.now().isoformat()` (lines 39, 85, 112-113,
  129) read clocks. Elapsed time and timestamps are inputs carried through unchanged.
- Timeouts are floating-point numbers in the source. Here they are `real` values that
  are only passed on, never computed with.
- `socket.gethostbyname` (line 175) is an oracle from host to `ResolveOutcome`.
- The shared scanner is updated by one request at a time. Two requests running at once
  on the same scanner are not modelled.
- JSON parsing is not modelled. The request is already a typed value, and a field is
  either present with the right type or absent. A missing or malformed body, a `null`
  field and a value of the wrong type are left out. Depending on the field, Python would
  answer such values with a 500, take the default branch, use the pool's default size,
  use blocking sockets, or turn every port into an error record.
- The status strings are an enumeration. The `else` branch of the loop (line 106)
  receives exactly the `error` records, which is everything `scan_port` can produce
  besides `open` and `closed`.
- Flask routing, `render_template`, CORS, the `/api/scan/status` endpoint, every
  `print`, and the `__main__` banner (lines 147-155, 202-222) are transport, UI and
  logging.
- `Api.Route`, `Api.Answer`, `Api.Respond`, `Api.Strip`, `Api.IsSpace` (the character
  set of Python's `str.isspace`) and `Aggregation.Subsequence` are specification
  functions without contracts of their own. Their properties are the
  lemmas in the table above.
