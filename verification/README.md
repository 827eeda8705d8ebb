# Debug control plane: a verified model

A debug control plane lets a Python client drive an app that is under development.  A Kotlin server in the
app keeps a registry of capabilities and dispatches requests to them, a Flutter plugin bridges capabilities
written in Dart and decides who is authorized, and a Python client discovers devices, asks for
authorization, mirrors what each device offers and forwards calls.

The project models the parts of that system whose behaviour is hardest to see from any single function and
proves what they keep.

| file | models |
|---|---|
| `Lifecycle.dfy` | start, stop, bind and close of the control plane as freely interleaved atomic steps |
| `EventPipes.dfy` | which event pipes are alive over whole runs of starts and stops |
| `Registry.dfy` | the scoped registry, its monotone revision and its change events |
| `Routing.dfy` | path matching, dispatch, the route index sent to Dart, and the authorization gate |
| `Selector.dfy` | the capability selector from a `/hello` entry through Python and back into the app |
| `Text.dfy` | digits, trimming and the range of a Long |
| `OrderedJson.dfy` | the order-preserving JSON printer and a reader written from RFC 8259 |
| `Sse.dfy` | the event stream: frames printed by the app, lines read by Python |
| `DebugAuth.dfy`, `AuthManager.dfy` | tokens, bearer headers, and the request, approve, deny, claim, revoke protocol |
| `AuthStore.dfy` | the token file: what is written, and what a load makes of it |
| `AuthRestart.dfy` | manager calls whose write may fail, and restarts, over whole runs |
| `Coordinator.dfy` | the Python coordinator running against the app's own manager, and the protected call |
| `ReverseInvoke.dfy` | the table of calls from the native side into Dart |
| `CrossIdentify.dfy` | matching of USB and LAN candidates in layers over pools that shrink in place |
| `Augmenting.dfy` | when a greedy layer joins as many pairs as possible |
| `Mirror.dfy` | the capability mirror, its change signal and the aggregated tool list |
| `Scopes.dfy`, `Wrappers.dfy`, `Histories.dfy` | the two kinds of scope, the option type, what began in a run and has not ended |

Concurrent parts are step systems: a state, an enabling condition, a step function and runs over any list
of steps, so a theorem about `Run(steps)` is a theorem about every interleaving.  The objects of the source
are classes with the same fields.  A method that is one atomic section is proved to take exactly the step it
stands for, and one that runs several (a teardown, a fill-in, a write through the store, a client's flow)
exactly those steps in turn.  Loops of the source are loops with invariants, proved equal to a function whose
properties are lemmas.

## What does not hold, and when it does

Some promises one would read into the code or its documentation are broken by the code.  For each there is a
concrete run or input on which it fails and a theorem with the exact condition under which it holds.

- All joiners of one start get the same outcome (`ControlPlane.kt:159-175`).  `Lifecycle.JoinersMayDisagree`
  stops the plane after the job cached its URI and before it completed; `Lifecycle.JoinersAgree` says that
  nothing else separates two joiners.
- A stopped plane leaves no server.  `Lifecycle.LostBindLeavesOrphan` has `withContext` throw over a transport
  that has just bound; `Lifecycle.SettledStopLeavesNoServer` says that a settled stop leaves a server exactly
  in that case.
- A cached URI is served.  `Lifecycle.CachedUriMayBeUnbound` lets the close of an older stop land late;
  `Lifecycle.CachedUriServedIffNotCut` and `Lifecycle.CutByClose` say that exactly such a close can unbind it,
  and `Lifecycle.SettledStartServes` gives a condition to check before the start.
- Restarts leak no event pipe (`ControlPlane.kt:228-229`).  `stop` cancels the tracked pipe and forgets it in
  two accesses without the lock.  In `EventPipes.TwoPipesAlive` a start tracks its pipe between them, and
  after the next stop and start every event is broadcast twice; `EventPipes.StrayIff` is an equivalence over
  all runs, and `EventPipes.AtMostOnePipe` the promise for runs in which no start falls between.
- A served plane delivers its events.  `EventPipes.ServedPlaneIsSilent` lets the cancel of an older stop land
  late; `EventPipes.CachedUriHeardIffNotSilenced` says that exactly this can silence it, and
  `EventPipes.SettledStartIsHeard` gives a condition to check before the start.
- The event stream delivers every event.  `Sse.SeparatorBreaksTheStream` sends U+2028, which Android's
  `JSONObject.quote` leaves as it is and httpx splits at; `Sse.WireRoundTrip` is an equivalence.
- Change events rebuild the registry.  `Registry.StopLeavesStaleEvents` registers and stops; over all runs
  `Registry.ReplayIffNothingDiscarded` and `Registry.DiscardedByStop` say that they do exactly if no stop
  found anything registered.  A client that keys its replay by scoped key recovers once every lost key is
  registered again: `Registry.KeyedReplayIffNoneStale` and `Registry.StaleIff`.
- The selector of an advertised capability reaches it.  `Selector.UntrimmedIdMisses` has an id that begins
  with a space; `Selector.SelectorRoundTrip` is an equivalence.
- A revoked token stays revoked.  `AuthRestart.FailedWriteRevivesToken` loses the write of the revocation,
  which the store only logs, and restarts; `AuthRestart.RevivedIff` is an equivalence over all runs.
- A USB candidate whose address contradicts the host is not merged (`cross_identify.py:157-168`).
  `CrossIdentify.BridgeJoinsStalePair` leaves two hosts, so that the check of the single pair is never
  reached; `CrossIdentify.StaleJoinIff` is an equivalence, and `CrossIdentify.NoStaleMatchNoStaleJoin` a
  condition on the input.
- The layers join as many candidates as possible.  The address layer does (`CrossIdentify.IpLayerIsMaximum`).
  `CrossIdentify.BridgeLayerNotMaximum` is an input on which the bridge layer does not;
  `Augmenting.BridgeLayerMaximumIff` is an equivalence, and `Augmenting.BridgeLayerMaximumUnshared` a
  condition on the input.
- A client that lists the tools again on every notification is current.  `Mirror.SelectorCallHidesTool` has a
  selector call list a device for the first time, whose change signal is dropped (`server.py:622-627`);
  `Mirror.SelectorProbeShowsIff` says exactly when such a call hides a name, and `Mirror.ClientStaysCurrent`
  is the promise for runs that drop no signal that matters.
- `refresh` answers false when `/hello` fails (`capability_mirror.py:466-476`).  `Mirror.FailureReported` has
  a device that stops answering; `Mirror.FailureReportedIffCached` says that the answer is true exactly if an
  entry was dropped, which is what makes the signal sound.  The model follows the code.

## Model

| member | source | states |
|---|---|---|
| Lifecycle.InvAlways | kotlin/src/main/kotlin/com/pantas/debug/controlplane/ControlPlane.kt:177-278 | every interleaving of start, stop, bind, stale check, close, cache write and each access to the tracked pipe keeps the lifecycle invariant |
| Lifecycle.BoundServerIsOwed | kotlin/src/main/kotlin/com/pantas/debug/controlplane/ControlPlane.kt:214-244 | a bound transport always belongs to the current attempt, or its own stale check or an unfinished stop still owes it a close, unless `withContext` threw over it |
| Lifecycle.SettledStopLeavesNoServer | kotlin/src/main/kotlin/com/pantas/debug/controlplane/ControlPlane.kt:255-278 | once every start and stop has run to its end and a stop was last, the transport is bound if and only if `withContext` threw over the job that bound it; with no such throw it is unbound |
| Lifecycle.LostBindLeavesOrphan | kotlin/src/main/kotlin/com/pantas/debug/controlplane/ControlPlane.kt:217-226 | the exception is real: one bind lost to cancellation leaves the port bound for good |
| Lifecycle.CachedUriMayBeUnbound | kotlin/src/main/kotlin/com/pantas/debug/controlplane/ControlPlane.kt:270 | a run in which a late close of an older stop unbinds a server whose URI is cached |
| Lifecycle.CachedUriServedIffNotCut | kotlin/src/main/kotlin/com/pantas/debug/controlplane/ControlPlane.kt:177-206 | over every run a cached URI is served, by the job that returned it and at its port, if and only if no close has taken down what that job bound |
| Lifecycle.CutByClose | kotlin/src/main/kotlin/com/pantas/debug/controlplane/ControlPlane.kt:236-241 | a job's server was taken down exactly if some close of a stop or of a stale start came while that job had the transport bound |
| Lifecycle.SettledStartServes | kotlin/src/main/kotlin/com/pantas/debug/controlplane/ControlPlane.kt:177-244 | started once everything before had settled, and not stopped since, a plane serves the URI it cached, in every interleaving of callers and binds |
| EventPipes.StrayIff | kotlin/src/main/kotlin/com/pantas/debug/controlplane/ControlPlane.kt:228-272 | over every run a live pipe that nobody tracks is there if and only if some stop cancelled the tracked pipe, then the start of this pipe tracked it, then that stop forgot it while nothing had ended its time, and its own attempt has not found itself stale since |
| EventPipes.TrackedLiveIff | kotlin/src/main/kotlin/com/pantas/debug/controlplane/ControlPlane.kt:228-272 | a pipe is tracked and alive exactly if its start tracked it and no later start, stop or stale attempt has ended that |
| EventPipes.AtMostOnePipe | kotlin/src/main/kotlin/com/pantas/debug/controlplane/ControlPlane.kt:228-272 | if no start's write falls between the cancel and the write of a stop, restarts leak no pipe: at most one is alive, the tracked one or the one a start is opening |
| EventPipes.TwoPipesAlive | kotlin/src/main/kotlin/com/pantas/debug/controlplane/ControlPlane.kt:271-272 | a run of two stops and three starts that ends with two live pipes, the stray one for good |
| EventPipes.CachedUriHeardIffNotSilenced | kotlin/src/main/kotlin/com/pantas/debug/controlplane/ControlPlane.kt:271 | over every run a plane whose URI is cached delivers events if and only if no stop has cancelled the pipe of the job that returned it |
| EventPipes.SettledStartIsHeard | kotlin/src/main/kotlin/com/pantas/debug/controlplane/ControlPlane.kt:227-244 | started once everything before had settled, and not stopped since, a plane whose URI is cached has a live pipe |
| EventPipes.ServedPlaneIsSilent | kotlin/src/main/kotlin/com/pantas/debug/controlplane/ControlPlane.kt:271 | a run in which a late cancel of an older stop leaves a served plane without a pipe |
| Lifecycle.OneBindPerAttempt | kotlin/src/main/kotlin/com/pantas/debug/controlplane/ControlPlane.kt:185-206 | at most one bind job carries a given attempt token |
| Lifecycle.OutcomeIsFinal | kotlin/src/main/kotlin/com/pantas/debug/controlplane/ControlPlane.kt:190-205 | over any continuation a job never binds again and its outcome never changes |
| Lifecycle.CacheIsCurrentOutcome | kotlin/src/main/kotlin/com/pantas/debug/controlplane/ControlPlane.kt:192-203 | result and failure are never both cached, and what is cached is the outcome of the current attempt's only job |
| Lifecycle.JoinersAgree | kotlin/src/main/kotlin/com/pantas/debug/controlplane/ControlPlane.kt:159-175 | two answered callers of one attempt got the same outcome if and only if it is not the case that one was served from the cache, the other awaited, and a stop cancelled the job between its cache write and its completion |
| Lifecycle.JoinersMayDisagree | kotlin/src/main/kotlin/com/pantas/debug/controlplane/ControlPlane.kt:188-206 | a run in which two joiners of one attempt get different outcomes |
| Lifecycle.ControlPlane.Start | kotlin/src/main/kotlin/com/pantas/debug/controlplane/ControlPlane.kt:177-233 | the lock section up to the new pipe, as an update of the fields, is the start step of the protocol |
| Lifecycle.ControlPlane.TrackOwnPipe | kotlin/src/main/kotlin/com/pantas/debug/controlplane/ControlPlane.kt:234 | the write that tracks the new pipe ends the lock section |
| Lifecycle.ControlPlane.Bind | kotlin/src/main/kotlin/com/pantas/debug/controlplane/HttpSseTransport.kt:71-97 | throws for a port other than the constructor's and for a transport already bound, leaving it alone, else binds |
| Lifecycle.ControlPlane.CheckStale | kotlin/src/main/kotlin/com/pantas/debug/controlplane/ControlPlane.kt:236 | detects exactly a rotated token, as the stale-check step |
| Lifecycle.ControlPlane.CancelStalePipe | kotlin/src/main/kotlin/com/pantas/debug/controlplane/ControlPlane.kt:238 | a stale attempt cancels its own pipe, tracked or not |
| Lifecycle.ControlPlane.ForgetStalePipe | kotlin/src/main/kotlin/com/pantas/debug/controlplane/ControlPlane.kt:239 | and forgets it only while it is the tracked one |
| Lifecycle.ControlPlane.CloseStale | kotlin/src/main/kotlin/com/pantas/debug/controlplane/ControlPlane.kt:240-241 | the self-clean is the stale-close step |
| Lifecycle.ControlPlane.CacheOutcome | kotlin/src/main/kotlin/com/pantas/debug/controlplane/ControlPlane.kt:191-205 | only the current attempt writes a cache |
| Lifecycle.ControlPlane.Stop | kotlin/src/main/kotlin/com/pantas/debug/controlplane/ControlPlane.kt:257-269 | the lock section of stop is the rotate step |
| Lifecycle.ControlPlane.StopTransport | kotlin/src/main/kotlin/com/pantas/debug/controlplane/ControlPlane.kt:270 | the close of a stop is its own step, after the lock |
| Lifecycle.ControlPlane.CancelPipe | kotlin/src/main/kotlin/com/pantas/debug/controlplane/ControlPlane.kt:271 | a stop cancels the pipe tracked at this moment |
| Lifecycle.ControlPlane.ForgetPipe | kotlin/src/main/kotlin/com/pantas/debug/controlplane/ControlPlane.kt:272 | and, as a step of its own, forgets the pipe tracked by then |
| Registry.OrderAlways | kotlin/src/main/kotlin/com/pantas/debug/controlplane/ControlPlane.kt:111-153 | over every run registry order is strictly increasing revision order with distinct keys, and a revision names one registration |
| Registry.PinnedReachesItsRegistration | kotlin/src/main/kotlin/com/pantas/debug/controlplane/ControlPlane.kt:522-549 | a request pinned to an advertised key and revision selects that very registration while it is there, else gets 409, 410 or 404 |
| Registry.PinnedSelectsNoOther | kotlin/src/main/kotlin/com/pantas/debug/controlplane/ControlPlane.kt:522-549 | whatever key it names, a request with an advertised revision selects that registration or none |
| Registry.EventsAlways | kotlin/src/main/kotlin/com/pantas/debug/controlplane/ControlPlane.kt:111-153 | in any interleaving, emitted and still owed events together are exactly the updates, revision r being the r-th, and without a discarding stop replaying them gives the registry |
| Registry.SortRestores | kotlin/src/main/kotlin/com/pantas/debug/controlplane/ControlPlane.kt:593-613 | revision order alone restores the update log from any emission order |
| Registry.EventsRebuildRegistry | kotlin/src/main/kotlin/com/pantas/debug/controlplane/ControlPlane.kt:593-613 | with no event owed, the log carries each revision from 1 to the current once, and replaying it in revision order rebuilds keys, revisions and order |
| Registry.ReplayIffNothingDiscarded | kotlin/src/main/kotlin/com/pantas/debug/controlplane/ControlPlane.kt:273-277 | over every run, also one that goes on after a stop, replaying all updates as a list in registration order gives the registry if and only if no stop ever threw a registration away |
| Registry.DiscardedByStop | kotlin/src/main/kotlin/com/pantas/debug/controlplane/ControlPlane.kt:273-277 | that has happened exactly if some stop found something registered |
| Registry.KeyedReplayIffNoneStale | kotlin/src/main/kotlin/com/pantas/debug/controlplane/ControlPlane.kt:273-277 | a replay that keeps one revision per scoped key gives the registry if and only if no key is stale |
| Registry.StaleIff | kotlin/src/main/kotlin/com/pantas/debug/controlplane/ControlPlane.kt:273-277 | a key is stale exactly if some stop found it registered and nobody has registered it since |
| Registry.StopLeavesStaleEvents | kotlin/src/main/kotlin/com/pantas/debug/controlplane/ControlPlane.kt:273-277 | a run in which every event was delivered and they show a registration that is gone |
| Registry.ControlPlaneRegistry.Register | kotlin/src/main/kotlin/com/pantas/debug/controlplane/ControlPlane.kt:111-136 | inserts last under the next revision, or refuses a known scoped key and changes nothing |
| Registry.ControlPlaneRegistry.UnregisterScoped | kotlin/src/main/kotlin/com/pantas/debug/controlplane/ControlPlane.kt:144-153 | removes one scoped key and counts the revision up; a missing key changes nothing |
| Registry.ControlPlaneRegistry.EmitScopeChanged | kotlin/src/main/kotlin/com/pantas/debug/controlplane/ControlPlane.kt:593-613 | emission happens after the lock, one owed event at a time |
| Registry.ControlPlaneRegistry.Clear | kotlin/src/main/kotlin/com/pantas/debug/controlplane/ControlPlane.kt:273-277 | the registry part of stop |
| Routing.Match | kotlin/src/main/kotlin/com/pantas/debug/controlplane/RoutePath.kt:22-39 | true exactly if the lengths are equal and each declared segment is the actual one or a name in braces; the caller's map holds the captures up to the first mismatch |
| Routing.LastCaptureWins | kotlin/src/main/kotlin/com/pantas/debug/controlplane/RoutePath.kt:28-33 | a name is captured exactly if a placeholder has it, and the last such placeholder decides its value |
| Routing.CapturedOver | kotlin/src/main/kotlin/com/pantas/debug/controlplane/RoutePath.kt:28-33 | captures overwrite what the caller's map held under their names and keep all else of it |
| Routing.CapturesRebuildPath | kotlin/src/main/kotlin/com/pantas/debug/controlplane/RoutePath.kt:22-39 | the captures of a match rebuild the actual path if and only if placeholders of one name saw one value |
| Routing.DispatchDecls | kotlin/src/main/kotlin/com/pantas/debug/controlplane/ControlPlane.kt:569-591 | the first declaration of one capability that serves the request, with its captures |
| Routing.DispatchFlat | kotlin/src/main/kotlin/com/pantas/debug/controlplane/ControlPlane.kt:551-567 | the nested loops find the first declaration, in registration then declaration order, that serves the request: for a GET among the resources, for a POST among the commands, with this method and a path that fits; nothing only if none does, and for other methods nothing |
| Routing.FirstMatchIsUnique | kotlin/src/main/kotlin/com/pantas/debug/controlplane/ControlPlane.kt:551-591 | the flat search has one answer |
| Routing.RouteIndexIsMatched | flutter_debug_control_plane/android/src/main/kotlin/com/pantas/debug/controlplane/flutter/DartCapabilityRegistry.kt:173-177 | the index found by equality is the index that matched, even among equal declarations |
| Routing.AggregateState | kotlin/src/main/kotlin/com/pantas/debug/controlplane/ControlPlane.kt:480-491 | asks exactly the app capabilities, in registration order, and merges what they report key by key |
| Routing.LastRegistrationWins | kotlin/src/main/kotlin/com/pantas/debug/controlplane/ControlPlane.kt:480-491 | in the flat state the last registered app capability that reports a key decides its value |
| Routing.NobodyReports | kotlin/src/main/kotlin/com/pantas/debug/controlplane/ControlPlane.kt:480-491 | a key no app capability reports is not in the flat state |
| Routing.DispatchBehindGate | kotlin/src/main/kotlin/com/pantas/debug/controlplane/ControlPlane.kt:304-310 | without a selector header the first match over all registrations runs; with one the first match over the registration the headers name; a page key that is gone gives 410, any other missing key 404, another revision 409, and none of these runs a handler |
| Routing.Dispatch | kotlin/src/main/kotlin/com/pantas/debug/controlplane/ControlPlane.kt:289-314 | whenever the manager denies, no handler and no state function runs, whatever the spelling of the method; otherwise the literal paths of hello, state, events and the three auth routes get their part, and every other request, after one question to the manager unless it is a misspelled hello or auth request, the first match among all or the named registrations |
| Routing.SystemPaths | kotlin/src/main/kotlin/com/pantas/debug/controlplane/ControlPlane.kt:316-327 | the six system routes are exactly GET /hello, /state and /events and POST /auth/request, /auth/status and /auth/claim |
| Routing.ReadsEveryApp | kotlin/src/main/kotlin/com/pantas/debug/controlplane/ControlPlane.kt:480-491 | the state route reads every registration of an app capability once, in registry order, and no page |
| Routing.OnlySpelledDifferently | kotlin/src/main/kotlin/com/pantas/debug/controlplane/DebugAuth.kt:100-114 | only methods spelled neither GET nor POST pass without a check, because classification upper-cases and system routes do not |
| Routing.PinnedRequestReaches | kotlin/src/main/kotlin/com/pantas/debug/controlplane/ControlPlane.kt:522-549 | headers of an entry advertised at any earlier time reach that registration or are refused with 404, 409 or 410, whatever trimming does to its ids; if trimming leaves them, they reach it exactly while it is there |
| Routing.PinnedReachesNoOther | kotlin/src/main/kotlin/com/pantas/debug/controlplane/ControlPlane.kt:522-549 | a request whose revision header reads as an advertised revision reaches no other registration, whatever else its headers say |
| Selector.EntryReadsBack | kotlin/src/main/kotlin/com/pantas/debug/controlplane/ControlPlane.kt:506-520 | an entry printed as JSON, read back and parsed by Python yields its own id, scope, page id, revision and declarations |
| Selector.ParseDecls | python/debug_control_plane/mcp_plane/capability_mirror.py:681-710 | malformed declarations are skipped one by one, the others kept in order |
| Selector.DeclsReadBack | python/debug_control_plane/mcp_plane/capability_mirror.py:681-710 | every printed declaration list is parsed back, an empty description becoming none |
| Selector.ArgsAccepted | python/debug_control_plane/mcp_plane/server.py:1054-1087 | the arguments of any valid entry are accepted, unless its id is empty, and give back its fields |
| Selector.ArgsDecide | python/debug_control_plane/mcp_plane/server.py:1054-1087 | arguments without the three selector keys send no selector header; any others are accepted if and only if the id is a non-empty text, the scope app or page, the page id a non-empty text exactly for a page and null for an app, and the revision null or an integer, and these are the values passed on |
| Selector.HeadersRead | python/debug_control_plane/mcp_plane/bridge_client.py:577-594 | each selector field arrives under its own header name |
| Selector.FindHeader | kotlin/src/main/kotlin/com/pantas/debug/controlplane/ControlPlane.kt:696-705 | the first header of that name in any case, trimmed, nothing if that is empty |
| Selector.ParsedSelector | kotlin/src/main/kotlin/com/pantas/debug/controlplane/ControlPlane.kt:663-694 | what the app parses from the headers of a full selector: trimmed ids, and the revision exactly if it is a Long |
| Selector.SelectorRoundTrip | kotlin/src/main/kotlin/com/pantas/debug/controlplane/ControlPlane.kt:657-706 | entry to schema to arguments to headers to selector reaches exactly that entry while it is registered, if and only if trimming leaves the capability id and page id unchanged |
| Selector.UntrimmedIdMisses | kotlin/src/main/kotlin/com/pantas/debug/controlplane/ControlPlane.kt:663-694 | a registered capability that its own selector does not reach |
| Text.DecimalRoundTrip | kotlin/src/main/kotlin/com/pantas/debug/controlplane/RouteResult.kt:98-100 | decimal printing of a natural reads back |
| Text.NumeralRoundTrip | kotlin/src/main/kotlin/com/pantas/debug/controlplane/ControlPlane.kt:692 | digits without a leading zero are the ones printed for their value |
| Text.LongIff | kotlin/src/main/kotlin/com/pantas/debug/controlplane/ControlPlane.kt:692 | a header's revision is read as an integer exactly if it is an optional sign and digits that denote it, within 64 bits |
| Text.TrimIs | kotlin/src/main/kotlin/com/pantas/debug/controlplane/ControlPlane.kt:700 | trimming takes the white space off both ends, all of it, and nothing else |
| Text.LongRoundTrip | kotlin/src/main/kotlin/com/pantas/debug/controlplane/ControlPlane.kt:692 | a printed revision parses back exactly if it is in the range of a Long |
| OrderedJson.EncodeOrdered | kotlin/src/main/kotlin/com/pantas/debug/controlplane/RouteResult.kt:94-119 | the printer by cases equals the recursive specification |
| OrderedJson.EncodeMap | kotlin/src/main/kotlin/com/pantas/debug/controlplane/RouteResult.kt:101-108 | the appending loop over a map prints its members in iteration order |
| OrderedJson.EncodeCollection | kotlin/src/main/kotlin/com/pantas/debug/controlplane/RouteResult.kt:109-116 | the appending loop over a collection prints its items in order |
| OrderedJson.ValueReadsBack | kotlin/src/main/kotlin/com/pantas/debug/controlplane/RouteResult.kt:94-119 | a reader written from RFC 8259 reads each printed value back, key order kept, and stops where it ends |
| OrderedJson.QuoteReadsBack | kotlin/src/main/kotlin/com/pantas/debug/controlplane/RouteResult.kt:96 | a quoted string reads back under section 7 of RFC 8259, with either org.json |
| OrderedJson.QuotedAsItIsIff | kotlin/src/main/kotlin/com/pantas/debug/controlplane/RouteResult.kt:96 | a text is printed as it is, between quotation marks, if and only if it has no quotation mark, backslash, control character nor slash that this org.json escapes |
| OrderedJson.DocumentReadsBack | kotlin/src/main/kotlin/com/pantas/debug/controlplane/RouteResult.kt:94-119 | the whole printed text is one JSON value, the one printed |
| Sse.EncodeClean | kotlin/src/main/kotlin/com/pantas/debug/controlplane/RouteResult.kt:94-119 | printed JSON is one line exactly if no key or string holds a line boundary that the printer leaves and the reader splits at |
| Sse.IterSse | python/debug_control_plane/mcp_plane/bridge_client.py:610-657 | the line loop yields what the line-by-line specification yields |
| Sse.LinesSplit | python/debug_control_plane/mcp_plane/bridge_client.py:630-631 | what stands before the first boundary is the first line, and the rest is read on from behind it, a carriage return with its line feed being one boundary |
| Sse.BlockReads | python/debug_control_plane/mcp_plane/bridge_client.py:610-657 | whatever lines come between two blank ones, the reader delivers the values of their data lines joined by line feeds, under the last event name, and nothing where no data line is |
| Sse.FramesReadBack | kotlin/src/main/kotlin/com/pantas/debug/controlplane/HttpSseTransport.kt:113-121 | the frames read back as the printed (data, type) list if and only if every data text is one line |
| Sse.EventLayout | kotlin/src/main/kotlin/com/pantas/debug/controlplane/DebugEvent.kt:25-30 | type first, sequence second, then the payload in its own order |
| Sse.WireRoundTrip | kotlin/src/main/kotlin/com/pantas/debug/controlplane/HttpSseTransport.kt:205-214 | the first frame and the broadcasts read back as exactly the (data, type) list if and only if no event exposes a line boundary, and each data text reads back as the event's JSON |
| Sse.NeverExposed | python/debug_control_plane/mcp_plane/bridge_client.py:610-617 | a reader that splits at CR and LF only, or the JVM's quoting, exposes nothing: the round trip holds for all events |
| Sse.SeparatorBreaksTheStream | python/debug_control_plane/mcp_plane/bridge_client.py:630 | with httpx lines and Android quoting an event holding U+2028 is not delivered as sent |
| DebugAuth.BearerRoundTrip | kotlin/src/main/kotlin/com/pantas/debug/controlplane/DebugAuth.kt:123-130 | every token the manager can mint survives the Authorization header unchanged |
| DebugAuth.BearerIff | kotlin/src/main/kotlin/com/pantas/debug/controlplane/DebugAuth.kt:123-130 | a header carries a token if and only if it is the prefix and then that token, not empty and without white space |
| AuthManager.InvAlways | flutter_debug_control_plane/android/src/main/kotlin/com/pantas/debug/controlplane/flutter/PluginDebugAuth.kt:319-430 | any run of requests, claims, approvals, denials and revocations keeps tokens, requests and log consistent |
| AuthManager.AcceptedIffGranted | flutter_debug_control_plane/android/src/main/kotlin/com/pantas/debug/controlplane/flutter/PluginDebugAuth.kt:289-293 | a bearer token is accepted exactly if an earlier approve granted it, nothing later revoked it or all, and it has not expired |
| AuthManager.RefusalTellsWhy | kotlin/src/main/kotlin/com/pantas/debug/controlplane/DebugAuth.kt:138-158 | over every run the log decides the answer: no token is authorization_required, one nobody was granted invalid_token, one revoked since its grant token_revoked, one past its expiry token_expired, every other is accepted |
| AuthManager.AskOpens | flutter_debug_control_plane/android/src/main/kotlin/com/pantas/debug/controlplane/flutter/PluginDebugAuth.kt:319-353 | without a live request of the nonce the manager opens one: pending until now plus the pending time-to-live, or under the auto policy approved with a token of at least one tick |
| AuthManager.AskRepeats | flutter_debug_control_plane/android/src/main/kotlin/com/pantas/debug/controlplane/flutter/PluginDebugAuth.kt:324-331 | a live request of the nonce is answered again and nothing changes, unless the auto policy finds it still pending |
| AuthManager.ClaimedOnceAfterGrant | flutter_debug_control_plane/android/src/main/kotlin/com/pantas/debug/controlplane/flutter/PluginDebugAuth.kt:361-380 | each request hands its plaintext out at most once, only after its approve and not after a denial, with its digest stored under the returned token id |
| AuthManager.GrantedOncePerRequest | flutter_debug_control_plane/android/src/main/kotlin/com/pantas/debug/controlplane/flutter/PluginDebugAuth.kt:382-415 | a request is approved at most once, after it was made and never after a denial |
| AuthManager.PluginDebugAuthManager.TokenByHash | flutter_debug_control_plane/android/src/main/kotlin/com/pantas/debug/controlplane/flutter/PluginDebugAuth.kt:63-64 | the loop finds the one record with that digest, or none exists |
| AuthManager.PluginDebugAuthManager.PendingByNonceHash | flutter_debug_control_plane/android/src/main/kotlin/com/pantas/debug/controlplane/flutter/PluginDebugAuth.kt:54-55 | finds a request with that nonce digest, or none exists |
| AuthManager.PluginDebugAuthManager.Authorize | flutter_debug_control_plane/android/src/main/kotlin/com/pantas/debug/controlplane/flutter/PluginDebugAuth.kt:289-293 | decides as the specification does on the current tokens |
| AuthManager.PluginDebugAuthManager.RequestAuthorization | flutter_debug_control_plane/android/src/main/kotlin/com/pantas/debug/controlplane/flutter/PluginDebugAuth.kt:319-353 | answers a live request of the same nonce and changes nothing, or opens one with the given pairing code and label, pending until now plus the pending time-to-live or approved at once under the auto policy; the reply tells code, expiry and label; a body without a nonce is refused and changes nothing |
| AuthManager.PluginDebugAuthManager.Approve | flutter_debug_control_plane/android/src/main/kotlin/com/pantas/debug/controlplane/flutter/PluginDebugAuth.kt:382-415 | grants a pending request a token under the given id, valid for the given or configured time but at least one tick, whether or not the request has expired, and touches no other request or token |
| AuthManager.PluginDebugAuthManager.MatchingPending | flutter_debug_control_plane/android/src/main/kotlin/com/pantas/debug/controlplane/flutter/PluginDebugAuth.kt:441-446 | the request of that id if the body names both and the nonce is its own, else nothing |
| AuthManager.PluginDebugAuthManager.AuthorizationStatus | flutter_debug_control_plane/android/src/main/kotlin/com/pantas/debug/controlplane/flutter/PluginDebugAuth.kt:355-359 | tells the holder of the nonce, and nobody else, whether the request is pending and its expiry not reached, with code, expiry and label, changing nothing |
| AuthManager.PluginDebugAuthManager.ClaimAuthorization | flutter_debug_control_plane/android/src/main/kotlin/com/pantas/debug/controlplane/flutter/PluginDebugAuth.kt:361-380 | in exactly the claimable case answers with the plaintext, the token id and its expiry and erases the plaintext; else 401, 403 or 401 with its code in the order of the source, changing nothing |
| AuthManager.PluginDebugAuthManager.Deny | flutter_debug_control_plane/android/src/main/kotlin/com/pantas/debug/controlplane/flutter/PluginDebugAuth.kt:417-420 | turns a known request down whatever its status, keeping all else of it and every other request |
| AuthManager.PluginDebugAuthManager.Revoke | flutter_debug_control_plane/android/src/main/kotlin/com/pantas/debug/controlplane/flutter/PluginDebugAuth.kt:422-430 | marks the named token, or all, as revoked at this instant and no other; refuses a call naming neither |
| AuthStore.TokenFileReadsBack | flutter_debug_control_plane/android/src/main/kotlin/com/pantas/debug/controlplane/flutter/PluginDebugAuth.kt:225-269 | the text of a token file, quoted by either org.json, is one JSON value that parses back to exactly the records written, in order |
| AuthStore.RecordReadIff | flutter_debug_control_plane/android/src/main/kotlin/com/pantas/debug/controlplane/flutter/PluginDebugAuth.kt:231-250 | an entry of the file is read as a record if and only if its members say each field of that record, absent and null standing for nothing |
| AuthStore.EntriesReadIff | flutter_debug_control_plane/android/src/main/kotlin/com/pantas/debug/controlplane/flutter/PluginDebugAuth.kt:231-250 | the entries are read in order, or the whole list is refused with any of them |
| AuthStore.DocumentRead | flutter_debug_control_plane/android/src/main/kotlin/com/pantas/debug/controlplane/flutter/PluginDebugAuth.kt:225-231 | a document of another version is refused, one without a list of tokens is an empty store |
| AuthStore.RestartRebuilds | flutter_debug_control_plane/android/src/main/kotlin/com/pantas/debug/controlplane/flutter/PluginDebugAuth.kt:179-204 | loading a persisted file rebuilds the token map without the records already expired |
| AuthStore.RestartAcceptsTheSame | flutter_debug_control_plane/android/src/main/kotlin/com/pantas/debug/controlplane/flutter/PluginDebugAuth.kt:179-204 | from the restart on the reloaded store accepts exactly the bearer tokens of the old one; only the refusal of a dropped token changes, to invalid_token |
| AuthStore.FileBackedPluginDebugAuthStore.Snapshot | flutter_debug_control_plane/android/src/main/kotlin/com/pantas/debug/controlplane/flutter/PluginDebugAuth.kt:50 | lists every record of the map once |
| AuthStore.FileBackedPluginDebugAuthStore.Persist | flutter_debug_control_plane/android/src/main/kotlin/com/pantas/debug/controlplane/flutter/PluginDebugAuth.kt:207-217 | a successful persist leaves the file holding the map; a failed one leaves the file |
| AuthStore.FileBackedPluginDebugAuthStore.PutToken | flutter_debug_control_plane/android/src/main/kotlin/com/pantas/debug/controlplane/flutter/PluginDebugAuth.kt:143-148 | memory always takes the record, the file follows if the disk works |
| AuthStore.FileBackedPluginDebugAuthStore.MarkRevoked | flutter_debug_control_plane/android/src/main/kotlin/com/pantas/debug/controlplane/flutter/PluginDebugAuth.kt:150-155 | memory always marks the record, the file follows if the disk works |
| AuthStore.FileBackedPluginDebugAuthStore.MarkAllRevoked | flutter_debug_control_plane/android/src/main/kotlin/com/pantas/debug/controlplane/flutter/PluginDebugAuth.kt:157-162 | memory always marks every record, the file follows if the disk works |
| AuthRestart.InvAlways | flutter_debug_control_plane/android/src/main/kotlin/com/pantas/debug/controlplane/flutter/PluginDebugAuth.kt:143-217 | over any run of manager calls, failing writes and restarts, memory and file each hold what their part of the history grants and revokes |
| AuthRestart.AcceptedIffGranted | flutter_debug_control_plane/android/src/main/kotlin/com/pantas/debug/controlplane/flutter/PluginDebugAuth.kt:289-293 | in any such run, with any number of restarts, a token is accepted exactly if the history the process stands for grants it and does not revoke it and it has not expired |
| AuthRestart.FileHoldsMemory | flutter_debug_control_plane/android/src/main/kotlin/com/pantas/debug/controlplane/flutter/PluginDebugAuth.kt:207-217 | if every write reached the file, the file decodes to the token map in memory after any run |
| AuthRestart.RestartKeepsWhoIsAccepted | flutter_debug_control_plane/android/src/main/kotlin/com/pantas/debug/controlplane/flutter/PluginDebugAuth.kt:179-204 | if every write reached the file, a restart after any run changes for no token whether it is accepted |
| AuthRestart.FileHoldsLastWrite | flutter_debug_control_plane/android/src/main/kotlin/com/pantas/debug/controlplane/flutter/PluginDebugAuth.kt:207-217 | after any run the file decodes to the tokens of the state right after the last move that wrote it |
| AuthRestart.RestartAcceptsSaved | flutter_debug_control_plane/android/src/main/kotlin/com/pantas/debug/controlplane/flutter/PluginDebugAuth.kt:179-204 | a restart after any run accepts exactly what the history up to the last successful write grants |
| AuthRestart.RevivedIff | flutter_debug_control_plane/android/src/main/kotlin/com/pantas/debug/controlplane/flutter/PluginDebugAuth.kt:207-217 | a restart brings a refused token back if and only if a written grant of it was revoked and no write since reached the file |
| AuthRestart.ForgottenIff | flutter_debug_control_plane/android/src/main/kotlin/com/pantas/debug/controlplane/flutter/PluginDebugAuth.kt:207-217 | a restart refuses an accepted token if and only if it was granted after the last write that reached the file |
| AuthRestart.FailedWriteRevivesToken | flutter_debug_control_plane/android/src/main/kotlin/com/pantas/debug/controlplane/flutter/PluginDebugAuth.kt:150-155 | a run of request, approve and revoke whose last write fails: the token is refused, and accepted again after a restart |
| AuthRestart.ServeThroughStore | flutter_debug_control_plane/android/src/main/kotlin/com/pantas/debug/controlplane/flutter/PluginDebugAuth.kt:143-162 | the store object takes exactly the move of the manager call it serves |
| AuthRestart.Reopen | flutter_debug_control_plane/android/src/main/kotlin/com/pantas/debug/controlplane/flutter/PluginDebugAuth.kt:179-204 | a new store over the file is the restarted process |
| Coordinator.TurnKeepsOurs | flutter_debug_control_plane/android/src/main/kotlin/com/pantas/debug/controlplane/flutter/PluginDebugAuth.kt:319-430 | whatever the host and other clients call, a client's own request stays its own and, once approved, can only become denied |
| Coordinator.ClaimSettles | python/debug_control_plane/mcp_plane/authorization.py:85-93 | a claim of an approved request returns a token granted for it after it was made, and stores it, or reports a denial, or an expiry that had passed when the App answered |
| Coordinator.StatusSettles | python/debug_control_plane/mcp_plane/authorization.py:83-106 | a status reply lets the client claim only an approved request, or ends the flow for a true reason: denied, or pending past its expiry when the App answered |
| Coordinator.AuthorizationCoordinator.Absorb | python/debug_control_plane/mcp_plane/bridge_client.py:498-537 | a claimed token replaces the row; an error removes it exactly with status 401 or 403 and a clearing code |
| Coordinator.AuthorizationCoordinator.AuthRequest | python/debug_control_plane/mcp_plane/bridge_client.py:470-487 | with a fresh nonce the App opens exactly this request; a reply that came instead is passed on as it is |
| Coordinator.AuthorizationCoordinator.AuthClaim | python/debug_control_plane/mcp_plane/bridge_client.py:498-515 | the claim call with its effect on the App and on the stored row |
| Coordinator.AuthorizationCoordinator.PollOnce | python/debug_control_plane/mcp_plane/authorization.py:83-106 | against the App one poll lets the client claim exactly if the request is approved by then, waits exactly if it is pending, and else ends the flow settled |
| Coordinator.AuthorizationCoordinator.PollUntilVerdict | python/debug_control_plane/mcp_plane/authorization.py:81-112 | at most ceil(timeout / interval) polls, and a timeout only once the time is up; against the App the claim follows the first verdict in time if that is an approval, otherwise no token can come, and a timeout means the request was pending and unexpired when last polled |
| Coordinator.AuthorizationCoordinator.PollAndClaim | python/debug_control_plane/mcp_plane/authorization.py:81-112 | at most ceil(timeout / interval) polls and one claim whatever replies arrive, each such reply heeded like one of the App; against the App the flow ends settled, with a token if and only if some poll grants it |
| Coordinator.ApprovedInTimeIsGranted | python/debug_control_plane/mcp_plane/authorization.py:81-93 | progress, whatever else the host and other clients call: if the first decision on the request is an approval before a poll that is in time, nobody denies it before the claim and the claim comes before the approval expires, that poll grants the token |
| Coordinator.ClaimGrantsIff | python/debug_control_plane/mcp_plane/authorization.py:85-93 | the App's reply to a claim gives the client a token exactly in the claimable case |
| Coordinator.AuthorizationCoordinator.Authorize | python/debug_control_plane/mcp_plane/authorization.py:53-112 | against the App itself the three invalid-response errors cannot happen, a returned token was approved for this very request between its request and its claim, and one is returned if and only if some poll grants it; a reply that comes in place of one of the App is heeded like it |
| Coordinator.AuthorizationCoordinator.ProtectedCall | python/debug_control_plane/mcp_plane/bridge_client.py:521-537 | the answer is the decision on the stored unexpired token; the row is removed exactly on a refusal with invalid_token, token_expired or token_revoked; without a row nothing is sent and the refusal is authorization_required |
| Coordinator.HeaderCarries | python/debug_control_plane/mcp_plane/bridge_client.py:521-528 | the App reads a token from the header exactly if it is the stored one, has not expired by the client's clock, and is neither empty nor holds white space |
| Coordinator.OpenedWaits | flutter_debug_control_plane/android/src/main/kotlin/com/pantas/debug/controlplane/flutter/PluginDebugAuth.kt:319-359 | an opened request, whatever other clients do and as long as the host leaves it alone, is reported as pending exactly while the clock is before its opening plus the pending time-to-live, and as expired from then on, with its pairing code, that expiry and the label of the client |
| Coordinator.StatusVerdicts | python/debug_control_plane/mcp_plane/authorization.py:82-106 | any reply to a poll lets the client claim, go on or stop with the error that its status code or its status text says |
| Coordinator.ClaimOutcomes | python/debug_control_plane/mcp_plane/bridge_client.py:498-537 | any reply to a claim gives the token it carries and stores it with its id and expiry, or the error of its status code, forgetting the row exactly on the three codes of a dead token |
| Coordinator.RetryCarriesGrant | python/debug_control_plane/mcp_plane/bridge_client.py:521-528 | after a granted flow and another turn of the world, the header carries that token unless the client's clock has it expired, and it is accepted exactly while its grant is valid |
| Coordinator.AuthorizationCoordinator.RunProtected | python/debug_control_plane/mcp_plane/server.py:657-690 | an authorization follows if and only if the first call was refused with authorization_required, invalid_token, token_expired or token_revoked, so always for a client without a row; the operation runs a second time if and only if that authorization gave a token, and the retry is accepted exactly if the grant is still valid |
| ReverseInvoke.OwnerRoundTrip | flutter_debug_control_plane/android/src/main/kotlin/com/pantas/debug/controlplane/flutter/NativeControlPlaneBridge.kt:228-263 | the owner read back from a call's arguments is the identity the call was made for |
| ReverseInvoke.OwnerReads | flutter_debug_control_plane/android/src/main/kotlin/com/pantas/debug/controlplane/flutter/NativeControlPlaneBridge.kt:228-233 | over all arguments: no scope means an app, an unknown scope throws, a missing page id stays missing and a missing capability id is empty |
| ReverseInvoke.InvAlways | flutter_debug_control_plane/android/src/main/kotlin/com/pantas/debug/controlplane/flutter/NativeControlPlaneBridge.kt:102-263 | every interleaving of calls, fill-ins, channel errors, timeouts and teardowns keeps ids, deferreds and table in step; an id that left the table is settled, about to be, or its call is over; and what a call returns is what settled it |
| ReverseInvoke.SettledOnlyByItsOwn | flutter_debug_control_plane/android/src/main/kotlin/com/pantas/debug/controlplane/flutter/NativeControlPlaneBridge.kt:170-255 | what settled a call is a step of the run: a fill-in of its own request id, its own channel reply, or a teardown of its owner that collected it |
| ReverseInvoke.ResultIsItsOwn | flutter_debug_control_plane/android/src/main/kotlin/com/pantas/debug/controlplane/flutter/NativeControlPlaneBridge.kt:211-224 | a call that returned got what its own fill-in, channel reply or teardown brought: the error of the envelope with its status, code and message, 500, internal_error or unknown error for what is missing, or the value, an empty map for none; or it timed out or was rejected and failed with the internal error |
| ReverseInvoke.NothingIsUndone | flutter_debug_control_plane/android/src/main/kotlin/com/pantas/debug/controlplane/flutter/NativeControlPlaneBridge.kt:211-224 | over any continuation settlements and results never change, ids are not reused, and a finished call's id never returns to the table |
| ReverseInvoke.FillInTouchesOneCall | flutter_debug_control_plane/android/src/main/kotlin/com/pantas/debug/controlplane/flutter/NativeControlPlaneBridge.kt:240-255 | a fill-in whose id is not pending changes nothing; a pending one touches that call alone |
| ReverseInvoke.ScanBegan | flutter_debug_control_plane/android/src/main/kotlin/com/pantas/debug/controlplane/flutter/NativeControlPlaneBridge.kt:102-109 | the walk of a teardown began at a step of the run, and what is due to it are the calls of its identity in the table then |
| ReverseInvoke.ScanCollects | flutter_debug_control_plane/android/src/main/kotlin/com/pantas/debug/controlplane/flutter/NativeControlPlaneBridge.kt:102-109 | a teardown that has walked the table has collected every call of its identity that was there when the walk began and still is, and only calls of its identity |
| ReverseInvoke.VisitFails | flutter_debug_control_plane/android/src/main/kotlin/com/pantas/debug/controlplane/flutter/NativeControlPlaneBridge.kt:110-114 | its visit of a call that is still pending takes that call out and fails it, and no other |
| ReverseInvoke.TeardownClearsItsOwn | flutter_debug_control_plane/android/src/main/kotlin/com/pantas/debug/controlplane/flutter/NativeControlPlaneBridge.kt:102-115 | after a finished teardown each call of its identity that was in the table when it began, and each it collected, has left the table and is settled, about to be settled, or over; those it failed are of its identity |
| ReverseInvoke.VisitsTearDown | flutter_debug_control_plane/android/src/main/kotlin/com/pantas/debug/controlplane/flutter/NativeControlPlaneBridge.kt:102-115 | the walk and the visits in any order, run without interleaving, remove and fail exactly the pending calls of the identity |
| ReverseInvoke.NativeControlPlaneBridge.ReverseInvoke | flutter_debug_control_plane/android/src/main/kotlin/com/pantas/debug/controlplane/flutter/NativeControlPlaneBridge.kt:170-176 | allocates id and deferred and registers them before the post |
| ReverseInvoke.NativeControlPlaneBridge.Return | flutter_debug_control_plane/android/src/main/kotlin/com/pantas/debug/controlplane/flutter/NativeControlPlaneBridge.kt:211-224 | the caller gets the value, or the failure of the envelope with its own status, code and message, that settled its deferred, or the internal error after a timeout or a rejection, and the id leaves the table |
| ReverseInvoke.NativeControlPlaneBridge.Complete | flutter_debug_control_plane/android/src/main/kotlin/com/pantas/debug/controlplane/flutter/NativeControlPlaneBridge.kt:240-255 | takes the id out and settles, as two steps; true exactly if the id was pending and nothing had settled its deferred before |
| ReverseInvoke.NativeControlPlaneBridge.TeardownCapability | flutter_debug_control_plane/android/src/main/kotlin/com/pantas/debug/controlplane/flutter/NativeControlPlaneBridge.kt:102-115 | is the walk over the table followed by one visit for each collected call, and together they remove and fail exactly the pending calls of this identity |
| CrossIdentify.RemoveIndices | python/debug_control_plane/device_discovery/discovery/cross_identify.py:229-233 | popping the collected indices in descending order leaves the pool without exactly those positions, in order |
| CrossIdentify.GreedyIsMatching | python/debug_control_plane/device_discovery/discovery/cross_identify.py:215-227 | the pairs join distinct USB positions to distinct LAN positions that the layer allows |
| CrossIdentify.GreedyIsMaximal | python/debug_control_plane/device_discovery/discovery/cross_identify.py:215-227 | no allowed pair of unmatched positions is left |
| CrossIdentify.AddressPairs | python/debug_control_plane/device_discovery/discovery/cross_identify.py:200-234 | for every address the number of pairs is the smaller of the Android candidates reporting it and the LAN candidates at it |
| CrossIdentify.IpLayerIsMaximum | python/debug_control_plane/device_discovery/discovery/cross_identify.py:200-234 | no matching of addresses to hosts has more pairs than the greedy one |
| CrossIdentify.BridgeLayerIsExhausted | python/debug_control_plane/device_discovery/discovery/cross_identify.py:240-284 | running the bridge layer again on what it left, with keys counted anew, matches nothing |
| CrossIdentify.BridgeLayerNotMaximum | python/debug_control_plane/device_discovery/discovery/cross_identify.py:266-278 | an input on which the bridge layer joins one pair and another matching has two |
| Augmenting.MaximumIffNoChain | python/debug_control_plane/device_discovery/discovery/cross_identify.py:215-227 | a matching is a maximum one if and only if no chain of re-assignments makes room for one more pair |
| Augmenting.BridgeLayerMaximumIff | python/debug_control_plane/device_discovery/discovery/cross_identify.py:240-284 | so the bridge layer joins as many pairs as any matching if and only if no such chain starts at a candidate it left out |
| Augmenting.BridgeLayerMaximumUnshared | python/debug_control_plane/device_discovery/discovery/cross_identify.py:240-284 | in particular it does whenever no LAN candidate is matched by the models of two USB candidates |
| CrossIdentify.CountKeys | python/debug_control_plane/device_discovery/discovery/cross_identify.py:261-264 | the counting loop gives the number of LAN candidates of each joint key |
| CrossIdentify.MatchAndroidIpStrong | python/debug_control_plane/device_discovery/discovery/cross_identify.py:200-234 | the nested loops with in-place removal produce the greedy matching, leave both pools without it, and each record holds the fields of its pair |
| CrossIdentify.MatchBridgeFields | python/debug_control_plane/device_discovery/discovery/cross_identify.py:240-284 | likewise for the bridge layer over keys unique in the LAN pool |
| CrossIdentify.IdentifyWithReason | python/debug_control_plane/device_discovery/discovery/cross_identify.py:126-194 | one record per origin, in the order of the layers, with the early returns; each record described field by field |
| CrossIdentify.RenderDescribes | python/debug_control_plane/device_discovery/discovery/cross_identify.py:320-380 | a joined record has the USB candidate's id and platform, the host, hardware name and machine id of the LAN one, the hardware name or else the model as its label, and needs no human; an ambiguous one has no host and needs one |
| CrossIdentify.BridgeMatchesIff | python/debug_control_plane/device_discovery/discovery/cross_identify.py:292-314 | a candidate matches exactly if it has a machine id and the normalized model occurs anywhere in the normalized id |
| CrossIdentify.OnlyBlanksGo | python/debug_control_plane/device_discovery/discovery/cross_identify.py:383-390 | normalizing takes out every blank and nothing else; the lower-casing is the library's |
| CrossIdentify.ChainIsPartialMatching | python/debug_control_plane/device_discovery/discovery/cross_identify.py:126-194 | each USB position gives at most one record, each LAN position joins at most one, and every join satisfies what its layer demands |
| CrossIdentify.NobodyIsForgotten | python/debug_control_plane/device_discovery/discovery/cross_identify.py:153-192 | a USB candidate without a record means every LAN candidate is taken, or only a stale pair was left |
| CrossIdentify.StalePairsAreBridged | python/debug_control_plane/device_discovery/discovery/cross_identify.py:161-177 | only the bridge layer ever joins an Android candidate to a host other than the address it reports |
| CrossIdentify.BridgeJoinsStalePair | python/debug_control_plane/device_discovery/discovery/cross_identify.py:266-278 | an input on which it does |
| CrossIdentify.StaleJoinIff | python/debug_control_plane/device_discovery/discovery/cross_identify.py:153-192 | some candidate is joined to a host other than the address it reports if and only if the address layer leaves both pools non-empty and not one each, and the bridge layer then picks such a pair |
| CrossIdentify.NoStaleMatchNoStaleJoin | python/debug_control_plane/device_discovery/discovery/cross_identify.py:266-278 | so none is if no candidate's model matches a host other than its own address |
| Mirror.CapabilityMirror.Refresh | python/debug_control_plane/mcp_plane/capability_mirror.py:462-514 | true exactly if the device's cache entry, absent or a list, changed; an authorization error keeps the entry and a failure drops it |
| Mirror.CapabilityMirror.RefreshAuthorized | python/debug_control_plane/mcp_plane/server.py:629-655 | what it reports as changed is what changed over both probes, and nothing changed when it raises, and carries the error of the first probe, or of the second after an authorization |
| Mirror.CapabilityMirror.RefreshAll | python/debug_control_plane/mcp_plane/server.py:755-770 | notifies exactly if the entry of some device changed |
| Mirror.FailureReportedIffCached | python/debug_control_plane/mcp_plane/capability_mirror.py:462-514 | a failed probe is reported as a change if and only if the device had an entry, which is then gone |
| Mirror.CapabilityMirror.BuildSugar | python/debug_control_plane/mcp_plane/capability_mirror.py:581-592 | the tools are those built by the first provider that matches the schema, and none if no provider matches |
| Mirror.CapabilityMirror.BuildTools | python/debug_control_plane/mcp_plane/capability_mirror.py:540-579 | the floor, then one unbroken block per cached schema in their order, each what the first claiming provider built for it; a tool is listed if and only if it is in the floor or was built so for some cached schema |
| Mirror.ListedIffBuilt | python/debug_control_plane/mcp_plane/capability_mirror.py:540-579 | a tool is listed exactly if it is static or the first provider that claims some cached schema built it for that one |
| Mirror.CapabilityMirror.AggregateToolSpecs | python/debug_control_plane/mcp_plane/server.py:792-827 | the floor, then one unbroken part per device in pool order, each the floor and a block per cached schema; of these tools exactly those are listed that share their name with no earlier one, in this order; skipping uncached devices changes nothing |
| Mirror.FloorNamesDistinct | python/debug_control_plane/mcp_plane/capability_mirror.py:229-380 | the names of the static tools are distinct |
| Mirror.FirstsDistinct | python/debug_control_plane/mcp_plane/server.py:819-826 | names in the aggregated list are distinct |
| Mirror.FirstsAreFirst | python/debug_control_plane/mcp_plane/server.py:819-826 | listed exactly are the tools that share their name with no earlier one |
| Mirror.FirstsInOrder | python/debug_control_plane/mcp_plane/server.py:819-826 | the list keeps the order of the first occurrences |
| Mirror.SameAddsSameListing | python/debug_control_plane/mcp_plane/server.py:819-826 | the change of one entry does not show in the list if the device adds the same tools under names that neither the floor nor an earlier device offers |
| Mirror.LastDeviceShowsIff | python/debug_control_plane/mcp_plane/server.py:819-826 | for the last device of the pool the change shows if and only if what it adds changes |
| Mirror.NewNameShows | python/debug_control_plane/mcp_plane/server.py:819-826 | a name that appears or disappears always shows |
| Mirror.ClientStaysCurrent | python/debug_control_plane/mcp_plane/capability_mirror.py:462-514 | over any run of successes, authorization errors, outages and discoveries a client that re-lists on every notification holds the current list, even if changes by which a device adds the same tools go unnotified |
| Mirror.DroppedSignalShows | python/debug_control_plane/mcp_plane/server.py:622-627 | a change by which a name appears or disappears and that is not notified leaves the client with an outdated list |
| Mirror.SelectorProbeShowsIff | python/debug_control_plane/mcp_plane/server.py:594-627 | after the probe of a selector call, which drops the change signal, the client lacks a name if and only if the probed schemas bring one that neither the floor nor any other device of the pool offers |
| Mirror.SelectorCallHidesTool | python/debug_control_plane/mcp_plane/server.py:594-627 | a run of one discovery and one selector call after which the client lacks a tool |
| Mirror.CapabilityMirror.SelectorSnapshot | python/debug_control_plane/mcp_plane/server.py:594-627 | only a device of which nothing is cached is probed, and what changed is not reported |

## Left out

- Sockets, NanoHTTPD, httpx transport, pipes, thread pools, subprocesses and network interfaces: I/O; of the transport only the bind guard, the close and the frame text are modelled.
- Coroutine cancellation inside `withContext`: the two steps at which it can throw over a transport are kept apart as `BindLost` and `CloseLost`, when it happens is not modelled.
- What `await` of a cancelled job yields: taken from the coroutine library, a cancelled job that returned answers its awaiting callers with the cancellation.
- The memory model: the field of the tracked pipe is not volatile, its accesses are taken to be sequentially consistent.
- Two manager calls at the same time: each call is one step; likewise a bind and a close are one step each.
- The notification of the host about a pending request.
- The transport takes `GET /events` over before dispatch, behind the same decision of the manager; only the fallback inside dispatch is modelled.
- Schemas of apps that list capability tags only, and entries of the list that are not objects.
- SHA-256, random ids, tokens and nonces, instants as text, file renames: an injective constructor, fresh values, an invertible text, an atomic write.
- The buffering of the event bus, which may drop its oldest events: only the emitted log is modelled.
- Event subscriptions of capabilities and the sequence numbers of forwarded events.
- Floating-point numbers, collections other than lists and keys other than strings in payloads, and lone surrogates.
- UTF-8 decoding and the chunking of the response body before lines are split.
- Escaping by org.json: both the rule of Android and the rule of the JVM artifact are written out from the libraries, which are not part of the repository.
- Overflow of 64-bit revisions, request ids and expiry instants.
- Digits other than ASCII in a header's revision.
- How a header value travels: the four selector headers are assumed to arrive with the values sent, in any order and spelling of names, among any others.
- Which fields a model client copies from a listed schema: it copies the selector fields, and leaves out those that are absent.
- The token file of the Python provider: its rows in memory are modelled, their file is not.
- Time is counted in integer ticks; the coordinator's clock never goes back.
- `optInt` and `getString` of org.json coerce numbers and text: the store reads only files of the documented shape or falls back to empty.
- Library lower-casing and upper-casing are arbitrary functions, assumed only where a theorem says so.
- `DevicePool`, LAN and USB scanning, adb and flutter output: easy members.
- Error message texts, result normalization and the MCP wiring.
- The Dart registry: it and the plane's registry may differ after a rejected duplicate or a stop.
- AuthManager.PluginDebugAuthManager.PendingByNonceHash: which of several requests with one nonce is found is left open, as the map's order is.
- Coordinator.FileTokenProvider.SaveToken: keeps the expiry as an instant, and none where the text reads as no instant; the other fields the source copies into the row are not modelled.
- CrossIdentify.IdentifyWithReason: the record's time-to-live, source tag and note text are constants and are not modelled.
- ReverseInvoke.NativeControlPlaneBridge.Return: how a channel failure or an unreadable fill-in becomes a failure is a parameter of the step that brings it.
- Routing.Dispatch: a handler that throws is mapped to an error reply by the source; here its effect is that it ran.
- OrderedJson.EncodeOrdered: floating-point numbers, arrays, and objects printed by their own `toString` are not modelled.
- AuthStore.TokenFileReadsBack: members are printed in insertion order, as Android's org.json does; the JVM artifact may order them otherwise, and the lookups do not depend on it.
- AuthRestart.AcceptedIffGranted: the clock read by a check is at or after every restart before it; an expired record dropped at a restart does not come back when a clock is set back.
- ReverseInvoke.NativeControlPlaneBridge.Complete: the table access and the settlement are two steps, each of them atomic.
- Mirror.ClientStaysCurrent: a device outside the pool is never probed with success, and devices do not leave the pool.
