# A model of the kimchi gateway data plane

kimchi is an HTTP gateway. It loads routers, services and policies from a directory of JSON files, compiles
routing tables, and serves each request with a chain of filters around a handler that calls an upstream server.
This project models that path in Dafny and proves what it keeps: from the files, through the choice of router and
the filter chain, to the bytes sent in both directions.

Check it with `dafny verify dfyconfig.toml`.

| file | models |
|---|---|
| Prelude.dfy | options, partial maps over sequences, first hits, arrangements a sort may leave |
| Config.dfy | the configuration resources |
| Loader.dfy | JSON documents to resources, a directory to a store |
| Routing.dfy | routing tables, lookup, and the plain scan they stand for |
| Http.dfy, Printing.dfy | header lists, messages, the texts the gateway prints |
| Layers.dfy | what each filter does to a request, and what a chain lets through |
| Upstream.dfy | the upstream client as a machine over Proxygen's callbacks, and as a class |
| Chain.dfy | the filter objects, the terminal handler, and one request from first event to last callback |
| PolicyEngine.dfy | key sets fetched at startup, and the chain built for a router |
| Factory.dfy | the handler factory: tables, service cache, choice of handler |
| OrderFree.dfy | when the order of files and the outcome of sorts can be seen |
| Process.dfy | startup, and reloads interleaved with requests |

## How the outside world appears

Regular expressions, address resolution, the JSON text parser, the token library, the key-set fetch, the rate-limit
store, the two random words of a request id and the two uses of `std::sort` are function-valued parameters, so every
result holds for all of them. A function that may throw returns `None` or `Throw`. `std::sort` is not stable: a sort is any
function whose result is an ordered permutation (`Prelude.Sorts`), and lemmas about tables quantify over every such
arrangement. A `char` in a body stands for one octet. JSON integers are unbounded; the casts to 16 and 32 bits are explicit.

Proxygen is an environment stated in `Upstream.Next` and `Chain.Exchange`: one connect outcome, one final header block,
then body and trailers, then EOM; an error ends ingress; detachTransaction comes last and once; a client request is its
message, then chunks and upgrades, then its end. `Chain.RunClient`, `Chain.Serve`, `Upstream.DeliverAll`, `Process.StartTwice` and
`Process.Interleave` play that environment.

## Results that go against a first reading

- Host and address: `onEOM` names the first target in Host, the factory dials the first target that resolves. In what is
  sent and dialled for a request they agree exactly when the first target resolves
  (`Factory.GatewayHandlerFactory.HostNamesDialledTargetIff`, `Factory.HostMismatchWitness`).
- An identity header the accepted token does not set stays the client's: all of them without a JWT layer, and the issuer
  when the token has none (`Layers.Identified`, `Layers.TerminalHeaders`).
- Repeated policy names: a reference takes the first policy of a name, the key set is that of the last JWT policy of the
  name (`PolicyEngine.NoLayerDropped` gives the exact condition, `PolicyEngine.RepeatedNameCounterexample` an input).
- Two JWT layers on one router let nothing through (`Layers.ReachesTerminalIff`).
- An upgrade is answered with 400 without stopping the later end of the request, so a response stays well formed exactly when
  there was no upgrade, or one and the upstream call has sent nothing (`Chain.UpgradeSpoilsResponse`, `Chain.UpgradeSpoilsWitness`).
- The order of files is visible in more than the choice of router: `OrderFree.OutcomeOrderFreeIff` gives the exact condition.
- An upstream error after its headers sends nothing, so the client's response stays unfinished: `Chain.Finished` counts only an
  upstream EOM or an early failure.
- `sendErrorResponse` does not set `headersSent_`, so the rule that an error ends ingress is needed
  (`Upstream.RepeatedErrors`).
- doc/POLICY_SYSTEM.md shows rules without a path type as regular expressions; the code's default is Prefix, and the model follows the
  code. The chain holds no AuthFilter, and a reload does not reach the data plane.

## Model

| member | source | states |
|---|---|---|
| Routing.LookupRefinesScan | src/handler/gateway_handler_factory.cpp:134-169 | for every arrangement of the prefix routes the lookup ends at a router the plain scan over methods and paths may pick, in range; it fails exactly when no rule matches |
| Routing.EveryPickIsReachable | src/handler/gateway_handler_factory.cpp:86-89 | whatever the plain scan may pick, some arrangement makes the lookup pick it |
| Routing.PicksAgree | src/handler/gateway_handler_factory.cpp:86-156 | two possible picks have the same path type and path, and outside the prefix tier are the same rule |
| Routing.TieBreakHarmlessIff | src/handler/gateway_handler_factory.cpp:86-89 | all arrangements give the same answer exactly when all possible picks belong to one router |
| Routing.EveryRuleTabledOnce | src/handler/gateway_handler_factory.cpp:60-85 | every rule is tabled as often as it is configured, except a regex that does not compile, which is not tabled |
| Routing.MissIsIrrelevant | src/handler/gateway_handler_factory.cpp:123-169 | deleting a rule that does not match a request keeps the possible picks, the 404s and every unambiguous choice |
| Routing.MoreRulesNeverLoseAMatch | src/handler/gateway_handler_factory.cpp:137-169 | a configuration with at least the same rules answers every request the other answers |
| Factory.GatewayHandlerFactory.constructor | src/handler/gateway_handler_factory.cpp:52-118 | the tables, the service cache and the policy engine are those of the snapshot, for any sorts, and the engine keeps a sort that orders |
| Factory.GatewayHandlerFactory.CollectRoutes | src/handler/gateway_handler_factory.cpp:61-85 | the three tables hold the rules of their kind in configuration order |
| Factory.GatewayHandlerFactory.AddRule | src/handler/gateway_handler_factory.cpp:64-83 | one more rule is one more entry of its own table, or none for an invalid regex |
| Factory.GatewayHandlerFactory.CacheServices | src/handler/gateway_handler_factory.cpp:92-111 | every name is answered by the first service of that name with its resolvable addresses in order |
| Factory.GatewayHandlerFactory.Match | src/handler/gateway_handler_factory.cpp:137-165 | the three loops compute the three-tier lookup |
| Factory.GatewayHandlerFactory.Choose | src/handler/gateway_handler_factory.cpp:167-183 | 404, the two 502s, or router, service and address |
| Factory.GatewayHandlerFactory.OnRequest | src/handler/gateway_handler_factory.cpp:130-185 | the error handler, or a fresh open chain around a terminal for the chosen router, service and address, with the key sets of the active policies by ascending order |
| Factory.GatewayHandlerFactory.Handle | src/handler/gateway_handler_factory.cpp:130-185 | for any request, configuration, chunking, upgrades and upstream run: what both sides are sent; the response is well formed exactly when the gateway refused or at most one has begun, complete exactly when one has ended; the decided address is dialled once when the request is not refused and has ended, and nothing else is |
| Factory.GatewayHandlerFactory.SentUpstream | src/handler/gateway_handler.cpp:34-73 | what goes upstream for a handled request is one complete request with the client's method, the client's URL or the rewritten one, the configured Host, its other headers in order and the bytes of its chunks; with a verifier that keeps its word it names the configured issuer |
| Factory.GatewayHandlerFactory.HandledCodes | src/handler/gateway_handler_factory.cpp:130-185 | the status codes the client reads: 404, 502, 401, 429, a 400 per upgrade, 502 on early failure or the upstream server's own, each exactly when |
| Factory.UpstreamReachedIff | src/policy/policy_engine.cpp:39-58 | the upstream server is sent anything exactly when the request is complete, connected, allowed by the limiter, and unguarded or carrying a good bearer for its one JWT layer |
| Factory.DispatchInRange | src/handler/gateway_handler_factory.cpp:171-184 | every dispatch is in range of the snapshot, has a destination and a target, and its service is the one named |
| Factory.DialledTarget | src/handler/gateway_handler_factory.cpp:95-105 | the dialled address is that of the first target that resolves |
| Factory.OneAddressPerTarget | src/handler/gateway_handler_factory.cpp:95-105 | there is one address per target exactly when all targets resolve |
| Factory.GatewayHandlerFactory.HostNamesDialledTargetIff | src/handler/gateway_handler.cpp:35-72 | for what was sent and dialled for a request: Host is printed from the first target and the address is that of the first target that resolves; without a host rewrite these are one host and port exactly when the first target resolves, and for a colon-free host exactly when the Host sent reads back to the dialled address |
| Factory.HostMismatchWitness | src/handler/gateway_handler.cpp:35-72 | a service whose request goes to one target with another in Host |
| Upstream.StepKeepsInv | src/handler/upstream_client.cpp:24-89 | every callback the environment allows keeps the relation between phase, client and traffic |
| Upstream.EveryRunIsOneResponse | src/handler/upstream_client.cpp:24-89 | over every run: a prefix of headers, body*, EOM; one 502 on early failure with the text of that failure, else exactly what arrived; complete just when ended; one complete request sent exactly when connected; the object deleted once |
| Upstream.BytesConserved | src/handler/upstream_client.cpp:50-65 | the body chunks sent to the client are those received from upstream |
| Upstream.RequestIsWhole | src/handler/upstream_client.cpp:24-32 | the parts sent upstream are headers, exactly the body, EOM, and nothing after |
| Upstream.RunCodes | src/handler/upstream_client.cpp:34-80 | the client of a run reads 502 on early failure and else the upstream status |
| Upstream.FullResponseReads | src/handler/upstream_client.cpp:82-89 | a full response reads back to its status, its body and one JSON content type |
| Upstream.RepeatedErrors | src/handler/upstream_client.cpp:74-89 | n errors before headers send n responses, well formed just for n at most one |
| Upstream.UpstreamClient.ConnectSuccess | src/handler/upstream_client.cpp:24-32 | headers, the stored body if any, and EOM go out on the transaction |
| Upstream.UpstreamClient.ConnectError | src/handler/upstream_client.cpp:34-39 | one 502 goes out and the object is deleted |
| Upstream.UpstreamClient.DetachTransaction | src/handler/upstream_client.cpp:46-48 | the object is deleted and nothing else changes |
| Upstream.UpstreamClient.OnHeadersComplete | src/handler/upstream_client.cpp:50-54 | the headers are relayed and recorded as sent |
| Upstream.UpstreamClient.OnBody | src/handler/upstream_client.cpp:56-58 | the chunk is relayed |
| Upstream.UpstreamClient.OnEOM | src/handler/upstream_client.cpp:63-65 | the end is relayed |
| Upstream.UpstreamClient.OnError | src/handler/upstream_client.cpp:74-80 | a 502 goes out only before headers |
| Upstream.DeliverAll | src/handler/upstream_client.cpp:24-89 | a whole allowed run on the object, after anything already sent, is the run of the machine appended to it, and no callback reaches a deleted object |
| Upstream.RunFrames | src/handler/upstream_client.cpp:24-89 | a client neither reads nor disturbs what its downstream was sent before |
| Chain.Filter.OnRequest | src/filter/filter_base.h:29-38 | the request reaches the terminal with the composed edits, or exactly the refusing filter is marked and one full answer goes out |
| Chain.Filter.OnBody | src/filter/filter_base.h:17-19 | a chunk reaches the terminal exactly when no filter has blocked |
| Chain.Filter.OnEOM | src/filter/filter_base.h:21-23 | the end reaches the terminal, and starts one client, exactly when no filter has blocked |
| Chain.Filter.OnUpgrade | src/filter/filter_base.h:25-27 | an upgrade reaches the terminal exactly when no filter has blocked |
| Chain.GatewayHandler.OnRequest | src/handler/gateway_handler.cpp:18-23 | the request is stored |
| Chain.GatewayHandler.OnBody | src/handler/gateway_handler.cpp:25-32 | the chunk is appended to the stored body |
| Chain.GatewayHandler.OnEOM | src/handler/gateway_handler.cpp:34-73 | one client is started at the handler's address with the rewritten request and the whole body |
| Chain.GatewayHandler.OnUpgrade | src/handler/gateway_handler.cpp:75-79 | a 400 goes out |
| Chain.RunClient | src/filter/filter_base.h:17-38 | over every request: exactly one filter blocks and the terminal sees nothing, or none does and it sees the same events |
| Chain.Serve | src/handler/gateway_handler.cpp:34-79 | chain plus upstream client, upgrades included: the answers and the relayed run, the upstream traffic, exactly when the response is well formed and when it is complete, and the one address dialled |
| Chain.AbsorbedIs | src/handler/gateway_handler.cpp:18-32 | the terminal has seen the events of the exchange in order and answered each upgrade |
| Chain.RequestBytesConserved | src/handler/gateway_handler.cpp:25-32 | the bytes sent upstream are the client's chunks joined in order, for any chunking |
| Chain.UpstreamHeaders | src/handler/gateway_handler.cpp:51-67 | the upstream headers agree with the client's in order and duplicates outside the edited names; Host and ids are single, ids not empty, and every identity header is exactly the accepted token's or the client's |
| Chain.UpgradeSpoilsResponse | src/handler/gateway_handler.cpp:75-79 | after the answers to the upgrades and any allowed upstream run, the response is well formed exactly when there was no upgrade, or one and nothing relayed; complete exactly when one response has ended |
| Chain.UpgradeSpoilsWitness | src/handler/gateway_handler.cpp:75-79 | one upgrade and a failed connection leave a response that is not well formed |
| Chain.SentCodes | src/handler/gateway_handler.cpp:75-79 | the status codes of an exchange: the refusal's, or 400 per upgrade and then those of the upstream run |
| Layers.BearerPassesIff | src/policy/jwt_policy.cpp:18-35 | a JWT layer passes a request exactly when it carries one Authorization header, a bearer with a good non-empty token |
| Layers.SecondBearerRefused | src/policy/jwt_policy.cpp:81-91 | after one JWT layer has passed a request every further one refuses it |
| Layers.ReachesTerminalIff | src/policy/policy_engine.cpp:42-58 | a request reaches the terminal exactly when the limiter allows it and there is no JWT layer, or one and a good bearer |
| Layers.RefusedWith | src/policy/policy_engine.cpp:39-58 | a refused request gets 401 with the reason when it lacks the bearer its JWT layer asks for, whatever the limiter says, and 429 otherwise |
| Layers.RefusalSaysWhy | src/policy/jwt_policy.cpp:37-101 | which of the four texts a refused token gets, told by key ids, key set and verifier |
| Layers.DemandsEnforced | src/policy/jwt_policy.cpp:70-81 | with a verifier that keeps its word, the configured issuer is the issuer header of whatever passes, and its token was meant for the configured audience |
| Layers.VerifyToken | src/policy/jwt_policy.cpp:37-101 | decode, the first key of the token's id, x5c, verifier with the configured issuer and audience, and claims, call by call, accept exactly the good tokens for the subject and issuer they name; a refusal says why |
| Layers.AuthorizeBearer | src/policy/jwt_policy.cpp:13-102 | a request passes exactly when it carries one good bearer token, and then has the token's identity headers and no Authorization; every other one is answered 401 |
| Layers.CheckRate | src/filter/rate_limit_filter.cpp:5-29 | a request passes unchanged exactly when the store allows it, or throws under FAIL_OPEN; else 429 |
| Layers.StampIds | src/filter/header_filter.cpp:8-21 | both ids end with one non-empty value, and an id the client sent is kept |
| Layers.KeyUntouched | src/filter/rate_limit_filter.cpp:8-20 | the limiter sees the tenant and route of the client's own request |
| Layers.TerminalHeaders | src/policy/jwt_policy.cpp:83-91 | what reaches the terminal agrees with the client's headers outside the edited names; behind a JWT layer subject and method are the token's, the issuer its own or else the client's, and Authorization is gone; without one all four are the client's |
| Printing.RewrittenUrlSplits | src/handler/gateway_handler.cpp:42-49 | a rewritten URL splits back into path and query exactly when the configured path has no question mark |
| Printing.HostReads | src/handler/gateway_handler.cpp:56-67 | Host reads back to host and port exactly when the host has no colon |
| Printing.RequestIdReads | src/filter/header_filter.cpp:23-27 | the two halves of a request id read back to its two words |
| Printing.RequestId | src/filter/header_filter.cpp:23-27 | a request id is 32 lower-case hexadecimal digits |
| PolicyEngine.FetchKeySets | src/main.cpp:33-46 | startup goes on exactly when every JWT policy's key set is fetched, and each name then has that of its last JWT policy |
| PolicyEngine.NoLayerDropped | src/policy/policy_engine.cpp:47-56 | each reference to a JWT policy yields a layer; its key set is the policy's own exactly when no later JWT policy of the name differs |
| PolicyEngine.RepeatedNameCounterexample | src/main.cpp:41 | two JWT policies of one name with which startup succeeds and the layer of the first uses the key set of the other |
| PolicyEngine.GuardsAreJwtReferences | src/policy/policy_engine.cpp:26-56 | the policies with a layer are exactly those behind JWT references, one per reference |
| PolicyEngine.LayersByOrder | src/policy/policy_engine.cpp:34-56 | the layers belong to a permutation of the effective policies by ascending order |
| PolicyEngine.ReferenceOrderIrrelevant | src/policy/policy_engine.cpp:25-37 | with distinct orders the chain does not depend on the order of the references or on the sort |
| PolicyEngine.Engine.FindActive | src/policy/policy_engine.cpp:25-33 | each reference contributes the first policy of its name, in order |
| PolicyEngine.Engine.WrapPolicies | src/policy/policy_engine.cpp:45-56 | the reverse loop puts the JWT layers in order around the limiter |
| PolicyEngine.Engine.BuildChain | src/policy/policy_engine.cpp:20-59 | the chain flattens to the header layer, one JWT layer for each of a permutation of the effective policies by ascending order, the limiter and the terminal, all unblocked |
| PolicyEngine.LayersAreOwn | src/policy/policy_engine.cpp:26-56 | with unique names the layers belong to a permutation of the policies behind the JWT references, and every layer holds the key set fetched with its own policy's configuration |
| Loader.RouterRoundTrip | src/config/loader.cpp:110-171 | every router reads back from its document |
| Loader.ServiceRoundTrip | src/config/loader.cpp:82-108 | every service reads back from its document |
| Loader.PolicyRoundTrip | src/config/loader.cpp:173-200 | every policy reads back from its document |
| Loader.RouterReadsIff | src/config/loader.cpp:110-171 | a document converts to a router exactly when it says it: fields, defaults for absent or mistyped ones, casts up to their width, lists in order |
| Loader.ServiceReadsIff | src/config/loader.cpp:82-108 | the same of services |
| Loader.PolicyReadsIff | src/config/loader.cpp:173-200 | the same of policies |
| Loader.RouterConvertsIff | src/config/loader.cpp:110-171 | a Router document converts exactly when it, its spec and its sections have the required shapes |
| Loader.ServiceConvertsIff | src/config/loader.cpp:82-108 | a Service document converts exactly when it, its spec, its load balancing and its targets have the required shapes |
| Loader.PolicyConvertsIff | src/config/loader.cpp:173-200 | a Policy document converts exactly when it, its spec, its security and its jwt section have the required shapes |
| Loader.ReadAll | src/config/loader.cpp:125-142 | a push_back loop yields all conversions in order or throws when one of them throws |
| Loader.ReadRouter | src/config/loader.cpp:110-171 | the field-by-field reading with its loops is the conversion that RouterRoundTrip inverts |
| Loader.ReadService | src/config/loader.cpp:82-108 | the field-by-field reading with its loop is the conversion that ServiceRoundTrip inverts |
| Loader.LoadEntryAdds | src/config/loader.cpp:239-268 | a document adds to at most one list, and one that fails changes nothing |
| Loader.LoadIsPartition | src/config/loader.cpp:278-302 | each list holds exactly the successful conversions of its kind in order, the gateway is the last one |
| Loader.LoadsWhatIsSaid | src/config/loader.cpp:239-302 | a directory loads to what the documents of its files say, kind by kind and in order |
| Loader.EveryDirectory | src/config/loader.cpp:270-302 | every directory can be told that way |
| Loader.WrittenDirectoryLoads | src/config/loader.cpp:239-302 | files with the written documents of routers, services and policies load to exactly these, in order |
| Loader.DispatchThrowsIff | src/config/loader.cpp:239-268 | a document is rejected exactly when it is no object or of one of the five kinds and does not convert |
| Loader.LoadConcat | src/config/loader.cpp:278-302 | loading A then B is loading A+B |
| Loader.ConfigLoader.Dispatch | src/config/loader.cpp:239-268 | the store after one document, and the old one when a conversion throws |
| Loader.ConfigLoader.LoadFromDirectory | src/config/loader.cpp:270-303 | the store after all entries; the empty store for a missing directory |
| OrderFree.ChosenIsTop | src/handler/gateway_handler_factory.cpp:137-169 | the chosen router has an unbeaten matching rule, and none is chosen only when there is no such router |
| OrderFree.TopMayBeChosen | src/config/loader.cpp:278-300 | moving a top candidate's file to the front makes it the choice |
| OrderFree.ChoiceOrderFreeIff | src/config/loader.cpp:278-300 | file order and sort are invisible in the choice of router exactly when all top candidates are one router |
| OrderFree.GivesPlan | src/handler/gateway_handler_factory.cpp:167-185 | the outcomes a gateway may give are exactly its plan, told by router and service values, with the layers a sort may leave |
| OrderFree.PlanIsPossible | src/config/loader.cpp:278-300 | whatever the order of the files, the plan is some top candidate with some service of its destination's name |
| OrderFree.PlanComesAbout | src/config/loader.cpp:278-300 | each such plan is that of a gateway started from the same files in some order |
| OrderFree.TiesShow | src/policy/policy_engine.cpp:34-37 | two JWT policies of one order and different configurations let the sort leave two different sequences of layers |
| OrderFree.FileOrderIrrelevant | src/config/loader.cpp:278-300 | gateways started from the same files in any two orders give a decided request the same outcome |
| OrderFree.OutcomeOrderFreeIff | src/config/loader.cpp:278-300 | with unique policy names router, service, address and layers are the same for every file order and sort exactly when all possible plans are one and its JWT policies of one order have one configuration, or the process cannot start |
| OrderFree.UniqueNamesDecide | src/config/loader.cpp:278-300 | unique service names, one top candidate and distinct orders are enough for that |
| Process.StartTwice | src/main.cpp:29-70 | the same of two started processes: both start or neither, and their factories' handlers for a decided request have one router, service, address and layers, or one error |
| Process.Start | src/main.cpp:29-70 | startup lives exactly when the walk does not throw and all key sets are fetched, and then holds a gateway for the files with the given sort |
| Process.AdmittedIff | src/policy/policy_engine.cpp:26-56 | what the layers of a router admit, told by its JWT references and their own key sets |
| Process.StartAndHandle | src/main.cpp:29-70 | from the files to the wire: anything goes upstream exactly when the request is dispatched, complete, connected and allowed, and its router has no JWT reference, or one and a bearer good for that policy's own key set |
| Process.AdminHandler.OnEOM | src/handler/admin_handler.cpp:21-64 | a reload loads the directory and swaps the shared configuration, a walk that throws leaves it; the answer to every admin request |
| Process.AdminCodes | src/handler/admin_handler.cpp:21-64 | 200 exactly for health checks and reloads that succeed, 500 for a reload whose walk throws, else 404 |
| Process.Interleave | src/handler/admin_handler.cpp:34-57 | over every interleaving each request gets a handler, with its layers, of the one snapshot, and the shared configuration is what the directory of the last successful reload loads to |
| Process.ProxiedFromSnapshot | src/handler/gateway_handler_factory.cpp:92-94 | every proxied request goes to a router and service of the snapshot that onEOM can index, and the service is the one named |

## Left out

- OutcomeOrderFreeIff: asks for unique policy names; for repeated ones PolicyEngine.NoLayerDropped says which key set a layer gets, not when file order shows.
- Sockets, DNS, event loops, timers, threads, locks and server binding: I/O plumbing.
- The regex engine, the JSON text parser, jwt-cpp, OpenSSL and Proxygen's base classes: parameters or environment rules.
- Lifetimes of handler objects other than the upstream client, and client aborts while an upstream call is open.
- Informational (1xx) responses from upstream: the environment has one header block.
- Contents of Listener and Gateway resources: they are copied through or logged, so their conversions are parameters of the loader.
- The elements inside a converted array (rules, destinations, targets) are converted by functions on values; the loops over them are ReadAll.
- src/filter/auth_filter.cpp: not in the build list and never placed in a chain.
- Rate-limit quotas, weighted load balancing, retries, circuit breaking, caching and transform policies: documented only; the store is a stub.
- Logging, route counters and response trailers, which are dropped.
- src/policy/folly_jwt_traits.h and the HTTP code of src/policy/jwks_cache.cpp: an adapter and a fetch that is a parameter here.
