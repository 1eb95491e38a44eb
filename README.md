# DNS failover engine

This project models the decision engine of a DNS failover service. The
service watches a set of configured servers. Each one has a name, an
address, a port and a priority, where a lower value is preferred. The
service keeps a managed DNS record pointing at one of them, the *active
server*. The engine keeps two pieces of state:

- a map from server name to a count of consecutive failed probes;
- the name of the active server.

It offers five operations:

- **Construction.** Every count starts at 0. The active server is read off the record: it is the first server whose address equals the record's content, or, when there is none, the first server of least priority.
- **Health check.** A server is probed; the probe is a TCP connect, or an HTTP GET when the method is `http` in any letter case, and the GET counts as up on any status below 500. A healthy probe resets the server's count to 0 and a failed one adds 1.
- **Candidate selection.** The servers are walked in ascending priority order. The walk skips the active server, probes each other server and stops at the first healthy one.
- **Switch.** The record is re-read and an update is sent pointing it at the candidate's address. The active server and the candidate's reset count are committed only when the store confirms the update.
- **Cycle.** The active server is probed. Once its count reaches the threshold, a candidate is selected and switched to.

A status snapshot probes every server and reports one line per server.

The model has six modules:

- `Wrappers` holds `Option`.
- `Config` holds the typed configuration and name lookup.
- `Probe` holds the probe's decision predicates over an abstract network.
- `Priority` holds the stable priority order and `min` by priority.
- `FailoverSpec` holds the engine as functions of its state, and the lemmas about whole cycles and runs of cycles.
- `Failover` holds the engine as a class with the source loops. `CheckHealth`, `NextAvailable`, `SwitchTo` and `CheckAndFailover` are proved equal to `Tally`, `Select`, `Switch` and `Cycle`. The constructor and `GetStatus` state their results directly.

A few modelling choices:

- The configuration's server mapping becomes a sequence in configuration (insertion) order, with unique names. Python's `min` returns the first minimal entry and `sorted` is stable, so with this order both are deterministic. Equal priorities are ordered by configuration position.
- The probe takes a `Network` value that answers a TCP connect and an HTTP GET, giving an optional status code.
- The DNS store is a `Store` value: the answer to the record read, and which updates the store confirms. Both are fixed for the duration of one engine call.
- The source's logged outcomes become the `Outcome` returned by a cycle, together with the update sent, if any.

Four behaviours of the code that are easy to misread; the model follows the code:

- Equal minimal priorities are not broken by name. The model takes the first such server in configuration order, as `min` and the stable `sorted` do.
- Selection probes candidates through the health check, so each probed candidate's count moves. When no candidate is healthy, every other server's count therefore rises by one. A failed switch leaves the counts as selection left them, not as they were before the cycle.
- The status snapshot probes every server and so changes every count.
- The cycle does nothing when the active name is empty (`if not self.current_active_server`). A selected candidate with an empty name is treated as no candidate (`if next_server:`).

## Model

| member | source | states |
|---|---|---|
| Config.IndexOf | dns_failover.py:190 | the looked-up entry carries the requested name, and no earlier entry does |
| Config.IndexOfName | dns_failover.py:190 | with unique names, looking up a configured server's name returns that server |
| Probe.Scheme | dns_failover.py:95 | the probe uses https exactly on port 443, http otherwise |
| Probe.IsHttpMethodSpellings | dns_failover.py:107-110 | the HTTP probe is selected exactly by the four-letter spellings of "http" in any letter case |
| Probe.ProbeVerdicts | dns_failover.py:92-110 | with no method, or a method that is not a spelling of "http", the verdict is the TCP connect's; with any spelling of "http" it is up exactly when a response arrived with a status below 500 |
| Probe.HttpOk | dns_failover.py:99 | a response below 500 is a success; its property for every status is stated by ProbeVerdicts |
| Probe.IsHttpMethod | dns_failover.py:107 | the lower-cased method equals "http"; IsHttpMethodSpellings states which strings those are |
| Probe.CheckServer | dns_failover.py:105-110 | HTTP check for an "http" method, TCP connect otherwise; ProbeVerdicts states the verdict for every method and response |
| Probe.ServerUp | dns_failover.py:193-198 | the probe of one server with the defaults "tcp" and "/"; ProbeVerdicts states its verdict |
| Failover.Verdicts | dns_failover.py:193-198 | the verdict of each configured server's probe, by index; CheckHealth's contract ties it to the probe it runs |
| Priority.PriorityOrderIsStableSort | dns_failover.py:172-175 | the candidate order lists every server exactly once, in non-decreasing priority, equal priorities in configuration order |
| Priority.PriorityOrder | dns_failover.py:172-175 | the stable sort of the servers by priority, as indices; PriorityOrderIsStableSort states that it is one |
| Priority.HighestPriority | dns_failover.py:164-167 | the default server has the least priority, and every earlier entry has a strictly greater one |
| Priority.HighestPriorityLeadsOrder | dns_failover.py:164-175 | the default server is the first server of the candidate order |
| FailoverSpec.Tally | dns_failover.py:200-204 | a healthy verdict leaves the count at 0 and only then; a failed one adds one; no other server's count changes |
| FailoverSpec.ProbeRun | dns_failover.py:178-184 | the counts after a walk probes the visited servers in turn, each through the tally of lines 200-204; ProbeRunEffect states the effect on each server |
| FailoverSpec.FirstUp | dns_failover.py:178-184 | the walk stops at the first position whose server is not the active one and probes healthy |
| FailoverSpec.ProbeRunEffect | dns_failover.py:178-184 | after a run of probes, each server's count is tallied once with its verdict if it was visited and is not active, and is unchanged otherwise |
| FailoverSpec.Select | dns_failover.py:169-186 | the candidate chosen by the priority walk and the counts after it; SelectChoosesBest and SelectProbes state which server and which counts |
| FailoverSpec.SelectChoosesBest | dns_failover.py:169-186 | the chosen server is not active, is healthy and comes before every other healthy non-active server; nothing is chosen exactly when every other server is down |
| FailoverSpec.SelectProbes | dns_failover.py:178-184 | selection probes exactly the non-active servers up to the chosen one, all of them when none is chosen, and their counts move by the verdict |
| FailoverSpec.Switch | dns_failover.py:212-249 | re-read, update, commit on confirmation; SwitchCommitsOnlyOnConfirm states its result |
| FailoverSpec.SwitchCommitsOnlyOnConfirm | dns_failover.py:212-249 | a switch writes exactly when the record is read; the write carries the record's id and the server's address; it commits exactly on confirmation; otherwise the state is unchanged |
| FailoverSpec.Tripped | dns_failover.py:268-281 | counts stay keyed by the servers; the active server changes only through a confirmed write carrying its address |
| FailoverSpec.Cycle | dns_failover.py:251-284 | the invariant (one count per server, the active server configured) holds; the active server changes only on a confirmed update carrying its address; no write means the same active server |
| FailoverSpec.HealthyCycle | dns_failover.py:261-265 | a healthy active server ends at count 0, stays active, and nothing is written |
| FailoverSpec.DegradedCycle | dns_failover.py:261-268 | a failed active server below the threshold gains one failure and nothing else happens |
| FailoverSpec.NoCandidateCycle | dns_failover.py:268-281 | at the threshold with every other server down, the active server stays, nothing is written, and every count rises by one |
| FailoverSpec.SwitchCycle | dns_failover.py:268-279 | at the threshold, with a best healthy alternative and a confirmed update, the cycle switches to it, resets its count, leaves the old count raised, and writes its address into the fetched record |
| FailoverSpec.ActiveFailureCounts | dns_failover.py:204 | a failed probe of the active server adds exactly one to its count, whatever branch follows |
| FailoverSpec.DegradedFinal | dns_failover.py:251-268 | N consecutive failures below the threshold add N to the active count and keep the active server and every other count |
| FailoverSpec.DegradedWrites | dns_failover.py:251-268 | N consecutive failures below the threshold write nothing to the record |
| FailoverSpec.FailoverAfterThreshold | dns_failover.py:251-284 | an active server failing until its count reaches the threshold is replaced on that cycle by the best healthy alternative; that single write carries the alternative's address, the alternative's count is 0 and the old count equals the threshold |
| Failover.InitialCounts | dns_failover.py:129-131 | one zero count for every configured name and no other key |
| Failover.DetermineActive | dns_failover.py:137-162 | the first entry whose address matches the record's content, else the default server |
| Failover.Engine.constructor | dns_failover.py:116-135 | the invariant holds; every count is 0; the active server is the first address match or the default |
| Failover.Engine.CheckHealth | dns_failover.py:188-210 | the verdict is the probe's on that server, and the counts are tallied with it; the active server is unchanged |
| Failover.Engine.NextAvailable | dns_failover.py:169-186 | the result and the new counts are those of the selection function; the result is configured and not active |
| Failover.Engine.SwitchTo | dns_failover.py:212-249 | the new state is the switch function's; it writes exactly when the record is read, commits exactly on confirmation, and otherwise changes nothing |
| Failover.Engine.CheckAndFailover | dns_failover.py:251-284 | the new state, outcome and write are the cycle function's on the probe verdicts; the active server changes only on a confirmed write |
| Failover.Engine.GetStatus | dns_failover.py:286-304 | one line per server in configuration order, each carrying the probe verdict and the count after that probe; every count is tallied; the active server is reported unchanged |
| Failover.Engine.StatusLine | dns_failover.py:295-302 | one server's line carries its configuration, the probe verdict and the count after that probe; only that server's count moves |

## Left out

- The Cloudflare client's HTTP requests, JSON decoding and authentication headers (dns_failover.py:9-70) are left out as network I/O. The client becomes the `Store` value: an optional record for the read, and a confirmation predicate for the update.
- The socket and `requests` probe code (dns_failover.py:80-103) is left out as network I/O, along with its timeout. It becomes the `Network` value. Only the `< 500` test, the `https`-on-port-443 scheme choice and the method dispatch are kept.
- Probe.ProbeVerdicts, Failover.Verdicts: each `Network` value gives one answer per endpoint within one engine call, so two servers sharing an address and port get the same verdict in that call. Each server is probed at most once per call, so servers on distinct endpoints are unconstrained.
- Probe.Lower: `str.lower()` is modelled on ASCII letters only. That is exact for the comparison against "http", since no non-ASCII character lowercases to h, t or p.
- A `check_method` explicitly set to null would raise in `.lower()`. The model treats the setting as absent or a string.
- The timestamp of the status snapshot and every logging call are left out as wall-clock and side-channel output.
- Failover.Engine.GetStatus: the snapshot's dictionary keyed by name is modelled as a sequence of lines in configuration order, each line carrying the server's name.
- The broad exception handlers are replaced by explicit results. A failed read is `None`, and a rejected update is an unconfirmed request. The cycle's `Outcome` names the branch taken.
- Configuration validation is left out: the engine assumes a non-empty server list with unique names, which a dictionary guarantees and `min` needs.
- dns_verify.py is not part of this model: it shells out to `nslookup`, queries public resolvers, sleeps in a loop and uses a floating-point ratio.
- test.py is not part of this model: it holds live integration checks and YAML plumbing.
- main.py is not part of this model: it is the scheduler loop, signal handling, logging setup, YAML loading and console formatting.
