# proberesponder, modelled in Dafny

proberesponder keeps the Kubernetes-style health state of a Go service. That
state is three "not ok" flags (startup, ready, live) and a map of diagnostic
messages, with an optional change listener. The `depprober` extension checks
the service's dependencies once per cycle. It ANDs their outcomes per signal
and writes the result into that state. Two HTTP layers report the state. The
root package picks a format by a substring test on the Accept header. The
`extensions/http` package weighs the Accept entries by quality value. Both
render the diagnostics as HTML, plain text, XML (extension only) or JSON.

The model has one Dafny module per source file, plus helpers:

- `HealthState` models `proberesponder.go`. `ProbeResponder` is a class with
  the three flags, the `msgPayload` map and the listener. The listener is an
  identity, and a log field `notified` records every call made to it. Go's
  nil receiver is the `Handle` datatype (`Nil | Ref(pr)`). Every public
  operation is a member of `Handle`, so the nil case is stated in each
  contract.
- `DepProber` models `extensions/depprober/depprober.go`. One cycle runs
  sequentially. Each prober's check result (`CheckRun`) is an input. The
  channel may deliver outcomes in any order, so that order is an arbitrary
  choice and results are stated up to permutation (`multiset`). `AllOK` is
  the per-signal AND. Lemmas prove it order-independent, dominated by a
  single failure, and healthy when no outcome affects the signal.
- `HttpExtension` models `extensions/http/http.go`, and `RootHttp` models
  `http.go`. This is a loose form of section 5.3.2 of RFC 7231 (Accept),
  with quality values as in section 5.3.1. It departs from the RFC in
  several ways:
  - an entry without `q=` weighs 0, not 1;
  - ties keep the earlier entry;
  - the first entry is taken whatever its weight, so an entry with q=0,
    which the RFC calls not acceptable, can still be chosen
    (`Accept: text/html;q=0` alone gets HTML);
  - media types are matched by case-sensitive substring, so ranges such as
    `text/*` and spellings such as `TEXT/HTML` get JSON.

  The number parser is a parameter, `parse: string -> real`.
- Helper modules:
  - `Strings` holds the Go `strings` functions used: `Contains`, `Split`
    and `TrimSpace`.
  - `Rendering` holds the row-per-entry rendering shared by the renderers,
    the HTML table both HTTP layers draw (`Html` and `ResponseAsHTML`,
    defined once and called by both), and the response `Body`.
    Go's map iteration order is unspecified, so every renderer returns a
    ghost `order` that is proved to enumerate the map exactly once.
  - `Wrappers` holds `Option`, and `NetHttp` holds the two status codes.

`probe` calls all three setters on every cycle. A signal that no prober
affects therefore becomes healthy (`false`) instead of keeping its old value.
`DepProber.UnaffectedSignalIsHealthy` and `DepProber.RunProbeCycle` state
this. Only `Start` with zero probers leaves the state alone.

## Model

| member | source | states |
|---|---|---|
| `HealthState.IsHealthOKExactly` | proberesponder.go:15-38 | IsHealthOK holds exactly for "OK"; "NOT OK" is not healthy; the status keys are "startup", "ready" and "live" |
| `HealthState.HealthText` | proberesponder.go:82-86 | the status text is the healthy one exactly when the flag is false |
| `HealthState.StatusMessageRoundTrip` | proberesponder.go:82-91 | a diagnostic ("OK: time" or "NOT OK: time") can be read back as its flag and timestamp; it starts "NOT OK: " exactly when the flag is set |
| `HealthState.ProbeKeysDistinct` | proberesponder.go:88-89 | the keys "probe->startup", "probe->ready" and "probe->live" are pairwise distinct |
| `HealthState.Notify` | proberesponder.go:93-97 | a set listener is called once with (status, value); with no listener nothing is called |
| `HealthState.ProbeResponder.constructor` | proberesponder.go:162-165 | a fresh responder has an empty map, no listener and no calls made |
| `HealthState.ProbeResponder.AppendWithoutLock` | proberesponder.go:63-65 | sets one map entry and nothing else |
| `HealthState.ProbeResponder.OnChange` | proberesponder.go:82-98 | records "probe->"+status as "OK: t"/"NOT OK: t", then notifies the listener if one is set; the flags stay as they are |
| `HealthState.Handle.NotReady` | proberesponder.go:149-151 | true only for a non-nil responder whose ready flag is set; nil reads as ready |
| `HealthState.Handle.NotLive` | proberesponder.go:153-155 | true only for a non-nil responder whose live flag is set; nil reads as live |
| `HealthState.Handle.NotStarted` | proberesponder.go:157-159 | true only for a non-nil responder whose startup flag is set; nil reads as started |
| `HealthState.Handle.AppendHealthResponse` | proberesponder.go:53-61 | payload[key] := value (last write wins); no flag, listener or other key changes; nil is a no-op |
| `HealthState.Handle.HealthResponse` | proberesponder.go:67-80 | nil gives nil; otherwise a copy equal to the current payload, a value that later mutations do not reach |
| `HealthState.Handle.SetNotReady` | proberesponder.go:100-110 | NotReady becomes b, "probe->ready" records it, the listener gets exactly (ready, b); the other flags and keys are unchanged; nil is a no-op |
| `HealthState.Handle.SetNotLive` | proberesponder.go:112-122 | NotLive becomes b, "probe->live" records it, the listener gets exactly (live, b); the other flags and keys are unchanged; nil is a no-op |
| `HealthState.Handle.SetNotStarted` | proberesponder.go:124-134 | NotStarted becomes b, "probe->startup" records it, the listener gets exactly (startup, b); the other flags and keys are unchanged; nil is a no-op |
| `HealthState.Handle.SetListener` | proberesponder.go:136-147 | replaces the listener (none switches notification off); flags, payload and past calls are unchanged; nil is a no-op |
| `HealthState.InitialPayloadShape` | proberesponder.go:161-172 | a new responder's payload has exactly the three probe keys, each "NOT OK: …" |
| `HealthState.New` | proberesponder.go:161-172 | a new responder is not started, not ready and not live, with the initial payload (each probe key stamped by its own setter call) and no listener |
| `DepProber.Checker.Check` | extensions/depprober/depprober.go:32-36 | a CheckerFunc's check answers exactly what the wrapped function answers |
| `DepProber.Probe.ServiceID` | extensions/depprober/depprober.go:44-46 | returns the ID field unchanged |
| `DepProber.Probe.AffectsStatuses` | extensions/depprober/depprober.go:48-50 | returns the AffectedStatuses field unchanged |
| `DepProber.Probe.Check` | extensions/depprober/depprober.go:52-58 | no checker means success; otherwise the checker's answer |
| `DepProber.Outcome` | extensions/depprober/depprober.go:77-91 | a status copies the prober's ID and affected statuses; it is "OK" exactly when Check returned nil and "NOT OK" otherwise |
| `DepProber.Outcomes` | extensions/depprober/depprober.go:76-92 | one status per prober |
| `DepProber.ProbeDependencies` | extensions/depprober/depprober.go:67-104 | exactly len(probers) statuses, a permutation of the per-prober outcomes (any arrival order), also for zero probers |
| `DepProber.CollectAsWritten` | extensions/depprober/depprober.go:94-101 | the receive loop as written never returns with zero probers; otherwise it returns a permutation of what was sent |
| `DepProber.AllOKIff` | extensions/depprober/depprober.go:146-156 | the derived signal is healthy exactly when every outcome that affects it is "OK" |
| `DepProber.AllOKOrderIndependent` | extensions/depprober/depprober.go:146-156 | outcomes in any order derive the same signal |
| `DepProber.OneFailureDominates` | extensions/depprober/depprober.go:146-156 | one failing outcome affecting a signal makes it unhealthy, however many others succeed |
| `DepProber.UnaffectedSignalIsHealthy` | extensions/depprober/depprober.go:136-161 | a signal that no outcome affects is derived healthy, also with no outcomes at all |
| `DepProber.CycleVerdict` | extensions/depprober/depprober.go:136-161 | a signal is derived unhealthy exactly when some prober affecting it failed its check |
| `DepProber.RecordedKeys` | extensions/depprober/depprober.go:140-145 | recording outcomes adds exactly their IDs as keys and leaves every other key as it was |
| `DepProber.RecordedUnique` | extensions/depprober/depprober.go:140-145 | an outcome whose ID is unique leaves payload[ID] == "<status>: <time>" |
| `DepProber.ApplyOutcome` | extensions/depprober/depprober.go:146-155 | an outcome ANDs its health into exactly the signals it lists; a signal it does not list keeps its value |
| `DepProber.RecordOutcomes` | extensions/depprober/depprober.go:140-157 | each outcome's "<status>: <time>" diagnostic is recorded in arrival order, the flags and listener log are untouched, and the three results are the per-signal AND |
| `DepProber.ReportSignals` | extensions/depprober/depprober.go:159-161 | the three flags take the given values, each probe key gets its message with its own timestamp, and the listener sees startup, ready, live in that order |
| `DepProber.RunProbeCycle` | extensions/depprober/depprober.go:135-162 | every outcome is recorded; NotStarted/NotReady/NotLive become "some affecting prober failed"; the listener sees exactly startup, ready, live in that order |
| `DepProber.Start` | extensions/depprober/depprober.go:110-133 | zero probers: no stopper, state untouched; otherwise (a positive period required, as `time.NewTicker` demands) a stopper is returned, and the first cycle has run when it returns: its outcomes are a permutation of the probers' outcomes, each flag says whether some affecting prober failed, the diagnostics are the cycle's payload, the listener is unchanged and it has seen startup, ready, live in that order |
| `HttpExtension.Clamp` | extensions/http/http.go:103-105 | a q value in [0, 1] is kept; one above 1 or below 0 becomes 0 |
| `HttpExtension.QParamHasEquals` | extensions/http/http.go:101-102 | a part containing "q=" or "Q=" splits on '=' into at least two pieces, so the value index never fails |
| `HttpExtension.QFold` | extensions/http/http.go:97-107 | an entry's quality value always lies in [0, 1] |
| `HttpExtension.NoQParamMeansZero` | extensions/http/http.go:97-107 | an entry without a q parameter weighs 0 |
| `HttpExtension.LastQParamWins` | extensions/http/http.go:99-106 | the last q parameter of an entry decides its (clamped) weight |
| `HttpExtension.QualityOf` | extensions/http/http.go:98-107 | the parameter loop computes the entry's quality value, in [0, 1] |
| `HttpExtension.SelectNext` | extensions/http/http.go:109-112 | entries are weighed one at a time in header order |
| `HttpExtension.SelectFindsFirstMax` | extensions/http/http.go:95-113 | with no empty entry, the choice is the earliest of the heaviest entries, with its weight |
| `HttpExtension.SelectPicksFirstMax` | extensions/http/http.go:93-113 | the entry whose q is highest, earliest among ties, is chosen |
| `HttpExtension.DispatchType` | extensions/http/http.go:115-127 | text/html if the choice contains it, else text/plain, else application/xml, else application/json; always one of the four |
| `HttpExtension.EmptyAcceptIsJson` | extensions/http/http.go:93-127 | an empty Accept header gets application/json |
| `HttpExtension.XmlShowsEveryEntry` | extensions/http/http.go:154-163 | the XML starts "<statuses>" and holds one status element per map entry |
| `Rendering.AppendRows` | extensions/http/http.go:136-141 | the renderers' loop appends exactly one row per map entry, each entry once, in an order it does not fix |
| `HttpExtension.ResponseAsPlainText` | extensions/http/http.go:146-152 | "k: v" then a bar with a space on each side, per entry in some enumeration of the map; every entry's text appears; empty for no entries |
| `HttpExtension.ResponseAsXML` | extensions/http/http.go:154-163 | "<statuses>", one status element per entry in some enumeration of the map, "</statuses>"; every entry's element appears; an empty map gives "<statuses></statuses>" |
| `HttpExtension.Dispatch` | extensions/http/http.go:115-129 | renders the payload in the type the chosen entry names |
| `HttpExtension.ContentNegotiator` | extensions/http/http.go:93-130 | the content type is the negotiated one, always one of the four offered, and the body is the payload rendered in it |
| `HttpExtension.Respond` | extensions/http/http.go:77-91 | renders the responder's snapshot in the negotiated type |
| `HttpExtension.HTTPStartup` | extensions/http/http.go:44-53 | 503 exactly when not started, 200 otherwise |
| `HttpExtension.HTTPReady` | extensions/http/http.go:55-64 | 503 exactly when not ready, 200 otherwise |
| `HttpExtension.HTTPLive` | extensions/http/http.go:66-75 | 503 exactly when not live, 200 otherwise |
| `Rendering.HtmlShowsEveryEntry` | http.go:82-92 | the HTML starts "<table><tbody>" and holds the row of every map entry |
| `RootHttp.HtmlOfNothing` | http.go:82-100 | no entries give only the table wrapper, and empty plain text |
| `Rendering.ResponseAsHTML` | http.go:82-92 | "<table><tbody>", one row per entry in some enumeration of the map, "</tbody></table>"; the row of every entry appears; an empty map gives only the wrapper (extensions/http/http.go:132-144 renders the same table, and the extension calls this member too) |
| `RootHttp.ResponseAsPlainText` | http.go:94-100 | "k: v" then a bar with no spaces around it, per entry in some enumeration of the map; every entry's text appears; empty for no entries |
| `RootHttp.NegotiatedType` | http.go:65-80 | text/html whenever the header contains it (even with text/plain), else text/plain, else JSON; there is no XML |
| `RootHttp.NoTextTypeMeansJson` | http.go:65-80 | an Accept header with no '/' in it (a missing or empty one included) names no media type and gets application/json |
| `RootHttp.ContentNegotiator` | http.go:65-80 | the content type is the negotiated one and the body is the payload rendered in it |
| `RootHttp.Respond` | http.go:56-63 | renders the responder's snapshot in the negotiated type |
| `RootHttp.HTTPStartup` | http.go:20-30 | 503 exactly when not started, 200 otherwise; the HTML body is the table of every diagnostic and the plain body one "k: v" entry and a bar per diagnostic, all on one line |
| `RootHttp.HTTPReady` | http.go:32-42 | 503 exactly when not ready, 200 otherwise; the HTML body is the table of every diagnostic and the plain body one "k: v" entry and a bar per diagnostic, all on one line |
| `RootHttp.HTTPLive` | http.go:44-54 | 503 exactly when not live, 200 otherwise; the HTML body is the table of every diagnostic and the plain body one "k: v" entry and a bar per diagnostic, all on one line |

## Left out

- Concurrency in the prober: the goroutines, the buffered channel, `context.WithTimeout` and the ticker loop are not modelled. One cycle runs sequentially. Each check's answer is an input, and a timeout is one more error answer. Channel arrival order is an arbitrary choice, and results are stated up to permutation.
- DepProber.Start: only the guard and the first cycle are modelled. The later periodic cycles and `Stop` belong to `time.Ticker`, which is not part of this model. Go runs the first cycle in a goroutine and returns the ticker at once, so a caller may observe the state before that cycle. Here the first cycle runs before `Start` returns, so its postcondition describes the state once that goroutine has finished. `time.NewTicker` panics for a period that is not positive. That panic is a precondition of `Start`, which applies only when there is at least one prober.
- The `sync.Mutex`: every operation is atomic and sequential.
- The zero value `&ProbeResponder{}`, whose nil mutex and nil map make the mutators and `HealthResponse` panic (the `Not*` readers touch neither and return false). A `Handle` is either nil or a responder built by `New` or the constructor.
- The listener as arbitrary code: the model keeps only which listener was called, with what, and in what order. Re-entrancy, and the deadlock it would cause under the lock, are not modelled.
- Time: `time.Now` and RFC 3339 formatting. Each clock reading is an opaque string parameter, one per setter call (three for `New`, three for a cycle, one per outcome). Nothing relates these readings to one another, so the model does not promise that they are ordered in time.
- `strconv.ParseFloat` (float32 rounding, error values): the parsed quality value is the `parse` parameter. A failed parse is whatever `parse` returns for that text.
- HttpExtension.QFold, HttpExtension.QualityOf: a quality value is a `real`, so the [0, 1] bound does not cover NaN. `strconv.ParseFloat("NaN", 32)` returns NaN with no error. NaN fails both clamping tests, so the entry keeps q = NaN. A NaN entry chosen while no type is chosen yet keeps the choice against every later entry, because no quality compares greater than NaN. A NaN entry met after a type is chosen is never chosen. `parse` cannot return NaN, so the model covers none of this.
- `json.Marshal`: a JSON body is the `Json(payload)` value, and its bytes are not modelled.
- Go's map iteration order: the renderers are stated over a ghost enumeration of the map. No particular pair order is asserted.
- HTTP plumbing: the response headers, `WriteHeader`/`Write`, `log.Println`, `ServeMux` routing, `Handlers`, `Server`, `StartHTTPServer` and `ListenAndServe`. Because of this, the model does not capture that the root handlers call `WriteHeader` before `respond` adds the Content-Type header, which net/http then ignores.
- `Statuskey.String` and `healthstatus.String`: both are the identity, since the types are plain strings here.
- HttpExtension.SelectPicksFirstMax: stated only for headers without empty entries. An empty entry that is chosen first is replaced by the next entry whatever its weight. `Select` itself models that case as written.

## Findings

| source | as written | input that shows it | evidently intended | confidence | as-written member | corrected member |
|---|---|---|---|---|---|---|
| extensions/depprober/depprober.go:94-101 | `for h := range statuses` receives before it compares the list length with `total`, and the channel is closed only after the loop | `ProbeDependencies(timeout)` with zero probers: nothing is ever sent, so the first receive blocks forever | return an empty list (`Start` already avoids the call for zero probers) | not executed | `DepProber.CollectAsWritten` | `DepProber.ProbeDependencies` |
