# HopVault: a verified model

HopVault is a small onion-routing system. A client asks a directory server for a circuit of one node
(a guard) or three (guard, relay, exit), gives each node a session key under a circuit id, wraps a
destination request in one sealed layer per hop, posts it to the guard's `/onion`, and peels the
reply, which every hop re-sealed on the way back. Nodes register with the directory and send
heartbeats; clients retry, and some watch node health and rebuild.

This project models that protocol in Dafny and proves what it is for: answers never get mixed up
whatever interleaves, forwarding ends, effects are bounded, keys agree exactly when they should, and
failed nodes are told from live ones within exact time bounds.

## How the model is built

| file | what it models |
|---|---|
| `Wire.dfy` | byte strings with symbolic ciphertexts (`Sealed(key, nonce, plain)` opens under `key` only), JSON objects as records of fields that may be absent, null, well typed or badly typed, and the decoders and encoders over them |
| `Keys.dfy` | a node's key store, a class over byte buffers, and the endpoints `/key` and `/setup` that write it |
| `Handlers.dfy` | what a node does with an onion, as functions and as a method whose store is overwritten while it waits |
| `DataPlane.dfy` | the network as a step system: any number of sends, key writes, losses, visits and replies in any order, and the invariant every step keeps |
| `Onion.dfy` | building and peeling for hop lists of any length, the coded one- and three-hop forms, and the Python client's form |
| `EndToEnd.dfy`, `RoundTrip.dfy` | what every run of the network promises a client |
| `Circuits.dfy` | the key exchange over a hop list as a log of key writes: each POST may fail before or after its key is stored, one given up may still land later, and other clients write in between; and how such a log sits in a run of the network |
| `Retry.dfy`, `Client.dfy` | the Go client's retry loop with its rebuild log, alone and over the network |
| `HealthCheck.dfy` | the Go client's background checker |
| `PythonUser.dfy` | the load generator's user and its polling thread's flag |
| `Uuid.dfy`, `Registry.dfy`, `Directory.dfy` | node ids, the node registry, and the directory server over timed runs |
| `Ramp.dfy`, `Backoff.dfy` | the throughput ramp controller and the registration backoff |
| `Wrappers.dfy` | `Option`, `Result` and substring facts |

Code that changes state in place is a class or a method with the state as fields; each such method is
proved against functions of the old state, and the lemmas are about those functions. AES-GCM has a
12-byte nonce and a 16-byte tag (NIST SP 800-38D); key transport is RSAES-OAEP (section 7.1 of
RFC 8017), kept abstract; base64 sizes follow section 4 of RFC 4648.

Everything outside the program is a parameter: what the network and the destination answer, the
directory's answers, the clock, random keys, nonces and picks, and the fates of POSTs (reached a node
whose reply came back or did not, turned away, or missed) with the other writes that land meanwhile.

## What turned out false of the code

Each of the first five has a lemma with a failing input and, beside it, the exact condition.

- An exit answers 502 for a destination it cannot reach only if the transport's message spells
  neither "invalid destination request" nor "exit layer"; a URL with such a query gets a 400
  (`Handlers.UnreachableReportedAsBadRequest`, `Handlers.BrokenDestinationIsBadGateway`).
- A setup that reports success does not always leave the hops with the client's keys. With fresh keys
  it does exactly when no two hops share host and port and no POST that was given up earlier under the
  same circuit id lands at a hop after the hop's own. `HandleSetup` stores without asking whether the
  client still waits, and the Go client reuses one circuit id, so both failing inputs can happen
  (`Circuits.SharedAddressBreaksAgreement`, `Circuits.LatePostBreaksAgreement`,
  `Circuits.SetupAgreement`, `Circuits.FreshLasts`, `Client.RetriedSetupAgreement`).
- A proactive rebuild that fails has not always left the current circuit alone: it keeps its
  agreement exactly when no key landed at a node that belongs to it
  (`HealthCheck.FailedRebuildCanBreakAgreement`, `HealthCheck.FailureKeepsAgreementExactly`).
- The directory's UUID check accepts strings outside ASCII that are no UUIDs; on ASCII strings it is
  exact (`Uuid.NonAsciiAccepted`, `Uuid.AsciiUUIDs`).
- A heartbeat whose clock reading is applied late moves last-seen backwards and can get a live node
  marked (`Directory.LateHeartbeatAges`). Gaps between heartbeats are harmless exactly when gap and
  lag together fit into the timeout (`Directory.LagIsExact`), and m lost heartbeats exactly when
  m + 1 periods and the lag do (`Directory.ToleranceIsExact`).

Two comments in the sources promise more than the code does.

- `identifyFailedHop` is said to determine which hop failed. For send failures the error text always
  names the guard, so the guard is blamed (`Client.SendFailureBlamesGuard`); a failed key setup is
  blamed on its hop exactly when the text speaks of no earlier hop (`Client.SetupFailureBlame`).
- The ramp is said to sample after each window until the maximum is reached. The last step the maximum
  allows is never recorded, because the tick after its window stops first
  (`Ramp.ThroughputRampShape.TopStepIsNeverRecorded`).

## Main results

- Data plane: `EndToEnd.NoMixUp`, `EndToEnd.CodedClientGetsItsAnswer`, `EndToEnd.OneVisitPerSend`,
  `EndToEnd.ForwardingEnds`, `EndToEnd.StatusMeaning`, `RoundTrip.SendOverHeldKeys`,
  `RoundTrip.CanComplete`, all resting on `DataPlane.RunsKeepInv`.
- Onions: `Onion.PeelUndoesBuild`, `Onion.PeelReplyUndoesSealing`, `Onion.ClientsInterchange`.
- Keys and retries: `Circuits.SetupAgreement` with `Circuits.FreshLasts`,
  `Retry.ExecuteRequestWithRebuildTracking`, `Client.CallVisits`, `Client.RetriedSetupAgreement`,
  `Client.AttemptRoundTrip`, `HealthCheck.AgreementOverRounds`, `PythonUser.FailureRecoveryUser.Live`.
- Directory: `Registry.NodeRegistry.List`, `Registry.NodeRegistry.MarkUnhealthy`,
  `Directory.DirectoryServer.CircuitHandler`, `Directory.HandedOutIsFresh`,
  `Directory.ToleranceIsExact`, `Uuid.NodeIDs`.
- Ramp and backoff: `Ramp.ThroughputRampShape.Tick`, `Backoff.TotalWait`.

The other rows below are the steps that lead to these.

## Model

| member | source | states |
|---|---|---|
| `Wire.OnlyEmptyHasNoBytes` | shared/onion/onion.go:124-126 | the decoders' length-zero test is the same as being the empty byte string |
| `Wire.LayerDecodes` | shared/onion/onion.go:120-128 | a document decodes as a layer exactly if both fields are there and not empty |
| `Wire.ExitLayerDecodes` | shared/onion/exit.go:41-49 | a document decodes as an exit request exactly if URL and method are there and not empty and nothing is mistyped |
| `Wire.ResponseDecodes` | client/client.go:555-559 | a document decodes as a response exactly if nothing is mistyped |
| `Wire.EmptyFieldsAreOmitted` | shared/onion/exit.go:18-31 | the encoders leave out headers and bodies exactly if they are empty |
| `Wire.Base64IsTight` | shared/onion/onion.go:34-38 | the text of a binary field is the shortest run of whole four-character groups that can hold it |
| `Wire.DecodersInvertEncoders` | shared/onion/onion.go:114-129 | decoding recovers every layer, exit request and response that was encoded; dropping empty headers and bodies loses nothing |
| `Wire.EncodedDocsAreTold` | shared/onion/onion.go:215-218 | an encoded forwarding layer never passes for an exit request nor the reverse, so "try a layer, else an exit layer" cannot go wrong |
| `Wire.ForwardedPayloadShrinks` | shared/onion/onion.go:114-129 | what a node forwards has at most three quarters of the bytes it received, less nonce and tag, whatever the peer sent |
| `Keys.KeyStore.Store` | shared/onion/onion.go:57-63 | the circuit gets a new buffer with a copy of the key; all other circuits, and all buffers handed out earlier, stay as they were |
| `Keys.KeyStore.Get` | shared/onion/onion.go:66-71 | answers the stored buffer itself, and answers at all exactly for known circuits |
| `Keys.KeyStore.HandleKey` | shared/onion/onion.go:157-183 | 204 exactly when the request is well formed with a 32-byte key, and then only that circuit changes; otherwise nothing does; buffers in use keep their bytes |
| `Keys.KeyStore.HandleSetup` | shared/onion/keyexchange.go:65-105 | the same for an encrypted key, which must open under this node's own key pair |
| `Handlers.OnionNode.HandleOnion` | shared/onion/onion.go:188-278 | the reply is the one the key store of the request's start calls for, although other requests rewrite the store while the node waits |
| `Handlers.OnionNode.WriteKeys` | shared/onion/onion.go:57-71 | whatever other requests store, a buffer a handler holds keeps its bytes |
| `Handlers.PeelingKeysCanSeal` | shared/onion/onion.go:267-272 | a key that opened an onion can seal its reply, so the internal-error branch is dead; nodes that refuse answer 400 or 401 |
| `Handlers.RefusalsMean` | shared/onion/onion.go:202-229 | 401 exactly for a complete request of a circuit the node has no key for; 400 exactly if a field is missing or the key opens nothing the role may act on |
| `Handlers.ForwardingFails` | shared/onion/onion.go:243-264 | a forwarding node that can seal answers 502 exactly unless a decodable 200 came back |
| `Handlers.FailedRequestStatuses` | shared/onion/exit.go:80-83 | a destination request that cannot be made is a 400 at an exit, and every failure is a 400 at a guard |
| `Handlers.StatusOfPrefixed` | shared/onion/exit.go:200-207 | the order of the phrase tests matters only through the transport's message: 502 exactly when it has neither bad-request phrase |
| `Handlers.BrokenDestinationIsBadGateway` | shared/onion/exit.go:88-97 | an unreachable or broken-off destination is reported as 502 exactly when the transport's message has neither bad-request phrase |
| `Handlers.UnreachableReportedAsBadRequest` | shared/onion/exit.go:199-207 | the failing input: an unreachable destination reported as 400 |
| `DataPlane.PeelIsPeeled` | shared/onion/onion.go:202-230 | whatever keys a node holds, what it decides is what one key made of this very payload, and only roles that may do so forward or carry out |
| `DataPlane.SizeBoundStep` | shared/onion/onion.go:236 | one forwarding keeps the bound 4^depth * size <= 3^depth * first size |
| `DataPlane.OthersStayOk` | shared/onion/onion.go:188-278 | a step of one call leaves the invariant of every other call intact |
| `DataPlane.ForwardedCallOk` | shared/onion/onion.go:236-244 | the call a forwarding creates is at the named next hop, with the inner onion and the same circuit id, one deeper, within the size bound |
| `DataPlane.DispatchKeepsToken` | shared/onion/onion.go:208-244 | peeling passes on, or ends, the one chance per send to reach a destination |
| `DataPlane.DispatchKeepsInv` | shared/onion/onion.go:202-244 | reading the key, peeling and forwarding keep the network invariant |
| `DataPlane.VisitKeepsToken` | shared/onion/exit.go:54-71 | a visit uses up the one chance of its send |
| `DataPlane.VisitKeepsInv` | shared/onion/exit.go:54-71 | carrying the request out keeps it: the reply is sealed under the peeling key and stands for a recorded visit |
| `DataPlane.ReturnKeepsInv` | shared/onion/onion.go:252-277 | passing a reply back keeps it: it is the next hop's reply sealed under the key that peeled the request |
| `DataPlane.LoseKeepsInv` | shared/onion/onion.go:244-249 | losing a forwarded request or its reply keeps it, as a 502 |
| `DataPlane.SendKeepsInv` | client/client.go:583-604 | a new client send keeps it |
| `DataPlane.WriteKeyKeepsInv` | shared/onion/onion.go:157-183 | a key overwritten at any node at any time keeps it |
| `DataPlane.FailuresAreNot200` | shared/onion/onion.go:252-257 | no failing node replies 200, so a failure is never wrapped as an answer |
| `DataPlane.StepKeepsInv` | shared/onion/onion.go:188-278 | every step of the network keeps the invariant |
| `DataPlane.RunsKeepInv` | shared/onion/onion.go:188-278 | the invariant holds at every point of every run |
| `Onion.PeelUndoesBuild` | client/client.go:465-510 | peeling hop by hop recovers the route and the request, for paths of any length and either client's JSON |
| `Onion.PeelReplyUndoesSealing` | client/client.go:526-560 | a reply sealed by every hop peels to the response it carries and is 28 bytes longer per hop |
| `Onion.CodedBuildIsRecursive` | client/client.go:465-510 | the coded builder is the recursion at lengths one and three and cannot fail with AES keys |
| `Onion.CodedPeelIsRecursive` | client/client.go:526-560 | the coded peeler is the recursion at lengths one and three |
| `Onion.FirstHopDispatch` | shared/onion/onion.go:215-225 | with the right key a guard or relay only ever forwards a longer onion, and a guard or exit only ever carries out a one-hop onion; the other combinations are refused |
| `Onion.BothDocsDecode` | experiments/locust/circuit_client.py:141-183 | the Go and the Python document both decode to the request, and neither passes for a forwarding layer |
| `Onion.DocsReadAlike` | experiments/locust/circuit_client.py:141-183 | the nodes' decoders cannot tell the two documents apart, even for requests they reject |
| `Onion.ClientsInterchange` | experiments/locust/circuit_client.py:141-183 | whatever keys a Go-built and a Python-built onion are unwrapped with, right or wrong, at any depth, the result is the same |
| `Onion.ClientsPeelAlike` | experiments/locust/circuit_client.py:204-228 | both clients peel a reply to the same JSON object or both fail |
| `Onion.BuildIsInjective` | client/client.go:465-510 | equal onions were built for the same keys, route and request |
| `EndToEnd.LastCallAnswers` | shared/onion/exit.go:173-218 | a node that answered a one-hop onion did so from its destination, for the request in it |
| `EndToEnd.MiddleCallAnswers` | shared/onion/onion.go:243-277 | a node that answered a longer onion sealed what the named next hop answered to the rest of it |
| `EndToEnd.AnswerFollowsOnion` | shared/onion/onion.go:208-277 | down the chain of calls the reply is sealed under the onion's own keys, in order, around the destination's answer |
| `EndToEnd.NoMixUp` | shared/onion/onion.go:208-277 | in every run: a send that returns 200 for an onion built with some keys peels, with those keys, to what a destination answered to that request of that send, whoever overwrote which key meanwhile |
| `EndToEnd.CodedClientGetsItsAnswer` | client/client.go:526-560 | the same for the coded builder and peeler: after a 200 the client's decryption succeeds with its own answer |
| `EndToEnd.OneVisitPerSend` | shared/onion/exit.go:54-71 | two destination visits of one send are the same visit |
| `EndToEnd.VisitsAreRecorded` | shared/onion/exit.go:88-97 | every destination request that was made counts as a visit of its send, also one that was unreachable or broke off |
| `EndToEnd.ForwardingEnds` | shared/onion/onion.go:236-244 | the calls of one send form one chain of growing depth, logarithmic in the size of its onion, even when next-hop addresses run in a circle |
| `EndToEnd.SucceededIffDelivered` | shared/onion/onion.go:252-277 | a call succeeds exactly when every hop from it on peeled and the destination answered |
| `EndToEnd.StatusMeaning` | shared/onion/onion.go:243-264 | 200 exactly when delivered; every failure behind a forwarding node is 502; a node that did not forward answers 400 or 401, and a 502 of its own only as an exit whose destination failed |
| `RoundTrip.DecidesAsPlanned` | shared/onion/onion.go:208-225 | a node on the path that holds the client's key does what the client planned for it |
| `RoundTrip.StepStaysOnTrack` | shared/onion/onion.go:188-278 | any step that spares the path's keys keeps all calls of a send on their planned hop with the right rest of the onion |
| `RoundTrip.StaysOnTrack` | shared/onion/onion.go:188-278 | the same from the send on, over the rest of any run |
| `RoundTrip.FailureHasCause` | shared/onion/onion.go:243-264 | a failed call of such a send has a lost or destination-failed call of that send behind it |
| `RoundTrip.EndsOneWay` | shared/onion/onion.go:243-264 | a finished send that stayed on track has its answer or such a cause |
| `RoundTrip.SendOverHeldKeys` | client/client.go:583-604 | a finished send over hops that hold its keys returned the destination's answer, or one of its own calls was lost, or the destination failed; there is no other way to fail |
| `RoundTrip.CanComplete` | shared/onion/onion.go:208-277 | such a call can always be completed with any answer of the destination, without touching another call |
| `Circuits.Network.SendSetupKey` | client/client.go:430-451 | the node reached stores the key exactly when it accepts the posted body, a 32-byte key sealed for its own key pair; the client learns of it only if the reply comes back, so an error does not mean that nothing was stored |
| `Circuits.AddressReads` | client/client.go:420 | an address is the host, a colon, and digits that read back as the port |
| `Circuits.SameAddress` | client/client.go:617-620 | two nodes share an address exactly when they share host and port |
| `Circuits.DistinctAddressesMean` | client/client.go:617-620 | distinct addresses are pairwise different hosts or ports |
| `Circuits.AcceptedCircuits` | client/client.go:344-371 | a circuit is accepted exactly if the directory sent one, the hop count is 1 or 3, and every hop that will be used has a node id |
| `Circuits.SetupErrorMeans` | client/client.go:415-426 | a setup has no error exactly if every hop's node opened a 32-byte key with its registered pair and its reply came back |
| `Circuits.FirstToFail` | client/client.go:415-424 | otherwise its error is that of the first hop for which this is not so |
| `Circuits.Network.SetupCircuitWithHops` | client/client.go:379-427 | the loop over hops stops at the first failure; stores and result are those of the recursive log of writes that the lemmas below are about |
| `Circuits.ReplayHolds` | shared/onion/onion.go:57-63 | after any writes, by whomever, an address holds the last key written there under an id, and everything else is as before |
| `Circuits.HeldIffLasts` | client/client.go:415-426 | after a setup without error a hop holds its key exactly when what landed there after its own POST, if anything, ends with the same key |
| `Circuits.SetupAgreement` | client/client.go:415-426 | whatever leftovers there were and whatever landed meanwhile, a setup without error makes all hops agree with the client exactly when this holds of every hop |
| `Circuits.QuietLasts` | client/client.go:415-426 | with nobody else on the id, exactly when hops that share an address share a key |
| `Circuits.FreshLasts` | client/client.go:384-426 | with freshly drawn keys, exactly when the addresses are pairwise distinct and no other POST under the id lands at a hop after the hop's own |
| `Circuits.SharedAddressBreaksAgreement` | client/client.go:415-426 | the failing input: two node ids at one address, a setup without error, no agreement |
| `Circuits.LatePostBreaksAgreement` | shared/onion/keyexchange.go:101 | the failing input with distinct addresses: a POST the first setup gave up on lands after the second setup's own, which had no error |
| `Circuits.RunReplays` | shared/onion/keyexchange.go:65-105 | in a run of the network the key stores are the key writes among its steps, replayed in order |
| `Retry.TryCircuit` | client/client.go:156-207 | one attempt leaves the keys and sends the onions the account of attempts says, under the one circuit id of the call |
| `Retry.SendAndPeel` | client/client.go:174-196 | building cannot fail, and the end of the attempt is the one that `AttemptEnds` characterises: send errors are retried, decryption errors are final |
| `Retry.AttemptEnds` | client/client.go:156-207 | an attempt is retried exactly if it found a circuit and then lacked a setup or a decodable 200, done exactly if the keys of its path peel what came back, and final otherwise |
| `Retry.RetriedMeans` | client/client.go:139-191 | the attempts retried are the leading ones of that kind |
| `Retry.Open` | client/client.go:140-154 | the event a rebuild opens has the next attempt number and describes the failure and the circuit of the attempt before it |
| `Retry.Close` | client/client.go:165-170 | filling in the last event leaves the closed ones as they were; under a monotone clock intervals stay disjoint and in order, and the recorded milliseconds are the measured time rounded down |
| `Retry.LoggedAttempt` | client/client.go:139-208 | a round of the loop keeps the log in step with the attempts made |
| `Retry.MakeAttempts` | client/client.go:135-211 | the loop ends at the first attempt that is not retried, or after the last, with that attempt's response or error |
| `Retry.ExecuteRequestWithRebuildTracking` | client/client.go:127-211 | the attempts retried are the leading ones that found a circuit and then lacked a setup or a decodable 200, and the next decides: a response exactly if its payload peels; a response on attempt k comes with k - 1 events, the i-th about attempt i + 1's failure, only the last successful, disjoint in time; attempts never exceed the limit, 3 by default; the error, the onions sent and the key writes are exactly those of the attempts made |
| `Retry.CodedOnion` | client/client.go:174-178 | the coded call builds the onion of the recursive builder for the circuit's own addresses |
| `Client.VisitsAtMostSends` | shared/onion/exit.go:54-71 | a set of sends has brought about at most as many destination visits |
| `Client.OnionsCounted` | client/client.go:162-191 | a call sends one onion for each attempt whose setup succeeded, and at least one if it has a response |
| `Client.NetworkRepliesDecrypt` | client/client.go:193-196 | a 200 of the network for an attempt's onion always ends the call with the destination's answer to this send |
| `Client.CallVisits` | client/client.go:139-208 | over any run, the sends of one whole client call cause at most one destination visit per attempt whose setup succeeded; if the call returns a response they caused at least one, and it gave this response |
| `Client.ResponseWasVisited` | client/client.go:193-207 | a call that returns a response sent the deciding attempt's onion, and that send's destination gave the response |
| `Client.RetriedSetupAgreement` | client/client.go:139-172 | after any history of failed and partial attempts under the reused circuit id, the attempt that sets up leaves its hops holding the keys it sends with, exactly when nothing that landed after a hop's own POST replaced its key; spelled out for an id nobody else uses and for fresh keys |
| `Client.RunSetupAgreement` | client/client.go:139-182 | the same of the nodes of a run at the moment of the send, the setup POSTs being steps of the run |
| `Client.AttemptRoundTrip` | client/client.go:139-207 | the whole round trip, setup POSTs and send in one run: if the setup had no error and nothing that lands late replaces a key of its hops, a finished send returned the destination's answer, or a call was lost, or the destination failed |
| `Client.SendFailureBlamesGuard` | client/client.go:214-229 | for every circuit and message a send failure is attributed to the guard |
| `Client.SetupFailureBlame` | client/client.go:162-172 | an attempt whose setup fails is retried with the error of the first hop that did not open its key, and that hop is blamed exactly when the text mentions no hop before it, so always at the guard |
| `Client.UnknownHop` | client/client.go:214-229 | nobody is blamed exactly for a text that mentions no hop |
| `HealthCheck.CircuitState.CheckAndRebuild` | client/client.go:270-336 | the state changes only by committing the fetched circuit together with the keys of its own setup; node stores change whenever a setup was tried, committed or not, and whenever something lands meanwhile |
| `HealthCheck.RebuildsWhen` | client/client.go:272-334 | a round rebuilds exactly if the state is ready, the poll arrived and some hop in use is on none of its three lists, and commits exactly if then every hop of the offered circuit opens its key |
| `HealthCheck.FindMissing` | client/client.go:303-310 | whatever order the map is walked in, the early exit answers whether some current node is not healthy |
| `HealthCheck.CommitRestoresAgreement` | client/client.go:317-334 | a committed circuit agrees with its nodes exactly when its addresses are distinct and nothing landed late in its setup, whatever was true before |
| `HealthCheck.FailureKeepsAgreementExactly` | client/client.go:317-326 | a round that does not commit keeps the old circuit, and keeps its agreement exactly when no key landed at one of its nodes |
| `HealthCheck.FailedRebuildCanBreakAgreement` | client/client.go:322-326 | the failing input, for any six fresh 32-byte keys: a setup that fails at the second node has already replaced the guard's key |
| `HealthCheck.AgreementOverRounds` | client/client.go:253-267 | over any sequence of rounds the circuit agrees exactly when its last commit had distinct addresses and no late landing, and nothing touched it in a later round |
| `PythonUser.HealthChecker.SetCircuitNodes` | experiments/experiment3/locustfile.py:109-112 | watching new nodes forgets earlier polls and lowers the flag |
| `PythonUser.HealthChecker.Poll` | experiments/experiment3/locustfile.py:125-147 | the flag is up exactly when some poll since the nodes were set missed one of them; failed polls change nothing |
| `PythonUser.HealthChecker.PollAll` | experiments/experiment3/locustfile.py:125-147 | polls that come while the user is busy raise the flag exactly if one of them misses a node |
| `PythonUser.FailureRecoveryUser.OnStart` | experiments/experiment3/locustfile.py:171-192 | a started user holds keys that agree with its first circuit, and its checker, if it has one, watches exactly that circuit |
| `PythonUser.FailureRecoveryUser.SetupCircuit` | experiments/experiment3/locustfile.py:198-204 | ends with keys that agree with the stored circuit under the stored new id, or, if anything raised, with no keys; it raises exactly if the directory or a POST fails |
| `PythonUser.FailureRecoveryUser.ExchangeKeys` | experiments/locust/circuit_client.py:114-136 | the writes are those of the Go setup; although others write between the POSTs, the nodes end up agreeing on a fresh id exactly when hops that share an address share a key |
| `PythonUser.FailureRecoveryUser.UpdateHealthCheckerNodes` | experiments/experiment3/locustfile.py:206-213 | the checker watches exactly the nodes of the current circuit, with the flag down |
| `PythonUser.FailureRecoveryUser.RebuildCircuit` | experiments/experiment3/locustfile.py:215-222 | from any state, even a broken one, ends in agreement or without keys; the flag is lowered only by a rebuild that succeeded, and polls in the meantime count if it failed |
| `PythonUser.FailureRecoveryUser.RebuildIfAsked` | experiments/experiment3/locustfile.py:229-248 | rebuilds exactly when the flag is up, and a failed one leaves no keys |
| `PythonUser.FailureRecoveryUser.TrySend` | experiments/experiment3/locustfile.py:257-271 | an onion leaves only with keys at hand, built for the stored circuit under keys its nodes hold |
| `PythonUser.FailureRecoveryUser.SendRequest` | experiments/experiment3/locustfile.py:225-305 | each task, whatever fails in it and whenever polls come, keeps the agreement of keys, circuit and id and the meaning of the flag, and adds one row that tells what became of it, and of a success whether a rebuild came before it |
| `PythonUser.FailureRecoveryUser.Drift` | experiments/experiment3/locustfile.py:198-204 | writes under other ids, also late ones of this user's earlier rebuilds, never disturb the agreement |
| `PythonUser.FailureRecoveryUser.Live` | experiments/experiment3/locustfile.py:162-305 | over a whole run of tasks, polls and other writes in any order, the keys held agree with the circuit held, the flag means what it should, there is one row per task, and every onion left under keys its nodes held |
| `Uuid.AsciiScan` | directory-server/main.go:404-415 | on ASCII strings the scan tests each place for dash or hexadecimal digit |
| `Uuid.HexDigitsAre` | directory-server/main.go:420-422 | the digits are 0 to 9 and a to f in both cases, nothing else |
| `Uuid.AsciiUUIDs` | directory-server/main.go:399-418 | an accepted ASCII string is exactly one in the 8-4-4-4-12 hexadecimal form |
| `Uuid.NonAsciiAccepted` | directory-server/main.go:404-412 | the failing inputs: any UUID with its first two digits replaced by the two-byte character U+0130, whose low byte is a digit, is accepted |
| `Uuid.GenerateNodeID` | shared/node/registration.go:45-55 | any 16 random bytes give an id that the directory accepts |
| `Uuid.PrintAt` | shared/node/registration.go:53-54 | byte k's two digits stand at k's place, whatever the other bytes are |
| `Uuid.PrintedIsCanonical` | shared/node/registration.go:53-54 | every 16 bytes print in the canonical form |
| `Uuid.PrintIsInjective` | shared/node/registration.go:53-54 | different bytes print differently |
| `Uuid.NodeIDs` | shared/node/registration.go:45-55 | ids carry version 4 and variant 10 (section 4.4 of RFC 4122), and two ids are equal exactly when the random bytes agree on the 122 free bits |
| `Registry.StrLessTotal` | directory-server/main.go:141-143 | byte order of ids is total and antisymmetric, so sorting by id has one result |
| `Registry.StrLessTransitive` | directory-server/main.go:141-143 | and transitive |
| `Registry.StrLessMeans` | directory-server/main.go:141-143 | the order is that of the first character in which two ids differ, a proper prefix coming first |
| `Registry.AcceptedRegistrations` | directory-server/main.go:369-388 | a registration is accepted exactly with a UUID, one of three types, a host and key that are not blank, and a port from 1 to 65535 |
| `Registry.ListingIsUnique` | directory-server/main.go:129-146 | there is one ascending listing of given records, so the answer does not depend on map order |
| `Registry.SortByID` | directory-server/main.go:141-143 | sorting records collected in any order lists exactly those records by strictly ascending id |
| `Registry.NodeRegistry.Upsert` | directory-server/main.go:88-100 | the node's record becomes the given one, healthy and seen now; all others stay |
| `Registry.NodeRegistry.Heartbeat` | directory-server/main.go:102-115 | refreshes a known node and nothing else; an unknown id changes nothing |
| `Registry.NodeRegistry.Delete` | directory-server/main.go:117-127 | removes exactly that record, and says whether it was there |
| `Registry.NodeRegistry.List` | directory-server/main.go:129-146 | answers the unique ascending listing of the matching records |
| `Registry.NodeRegistry.MarkUnhealthy` | directory-server/main.go:169-192 | answers exactly the healthy records past the timeout, ascending, marks those and changes nothing else |
| `Registry.SecondSweepIsIdle` | directory-server/main.go:169-192 | a second sweep at the same time finds nothing and changes nothing |
| `Registry.SweepReportsChanges` | directory-server/main.go:169-192 | a sweep reports exactly the records it changes, as it leaves them; a listing that includes unhealthy nodes leaves none out |
| `Directory.UUIDsKeepTheirForm` | directory-server/main.go:276-283 | trimming never changes an accepted id, so a node's own heartbeats reach its record |
| `Directory.TrimSpaceTrims` | directory-server/main.go:277 | trimming takes off white space at both ends and nothing else |
| `Directory.BlankTrims` | directory-server/main.go:277-281 | and leaves nothing exactly of blank strings |
| `Directory.DirectoryServer.RegisterHandler` | directory-server/main.go:253-274 | the handler is the register event of the timed runs; 201 exactly for valid registrations |
| `Directory.DirectoryServer.HeartbeatHandler` | directory-server/main.go:276-290 | the handler is the heartbeat event; 400 for blank ids, 404 for unknown ones |
| `Directory.DirectoryServer.DeregisterHandler` | directory-server/main.go:292-308 | the handler is the deregister event, which `RemovedIsGone` is about; 400 for blank ids, 404 for unknown ones |
| `Directory.RemovedIsGone` | directory-server/main.go:292-302 | a removed node is not registered until it registers again |
| `Directory.RemovedIsNotHandedOut` | directory-server/main.go:314-346 | and no circuit handed out until then has it |
| `Directory.OthersUntouched` | directory-server/main.go:88-127 | an event about one node leaves every other record as it was |
| `Directory.DirectoryServer.CleanupUnhealthyNodes` | directory-server/main.go:247-251 | a tick is the sweep event |
| `Directory.DirectoryServer.GroupByType` | directory-server/main.go:148-167 | the groups are the listing's records of each type, in its order |
| `Directory.DirectoryServer.CircuitHandler` | directory-server/main.go:314-346 | whatever the random picks, the answer fits the request and one moment's registry: refused exactly for wrong parameters, short exactly when a needed type has no healthy node, else healthy registered nodes of the right types with distinct ids |
| `Directory.GroupMeans` | directory-server/main.go:148-167 | a group holds exactly the healthy records of its type and is empty exactly when there are none |
| `Directory.GroupsPartition` | directory-server/main.go:155-164 | the three groups together hold every record as often as the listing does |
| `Directory.RunGroupsPartition` | directory-server/main.go:148-167 | at every point of every run the three groups hold each healthy node once and nothing else |
| `Directory.RunsAreWellFormed` | directory-server/main.go:253-308 | at every point of every run records sit under their own id and are valid |
| `Directory.FreshAfterSweep` | directory-server/main.go:233-251 | after a sweep, whoever is healthy was seen within the timeout before it, and that stays so |
| `Directory.HandedOutIsFresh` | directory-server/main.go:314-346 | if the last sweep is at most an interval back, every node handed out was last seen within timeout plus interval plus lag |
| `Directory.SeenSince` | directory-server/main.go:102-115 | each refresh of a node that is not removed shows in its last-seen time from then on |
| `Directory.RefreshRevives` | directory-server/main.go:102-115 | after a registration or an accepted heartbeat a node is healthy and seen at the reading's time, whatever its record was |
| `Directory.NoFalseAlarm` | directory-server/main.go:169-192 | a node refreshed within timeout less lag before each sweep is never marked |
| `Directory.LostHeartbeatsTolerated` | shared/node/registration.go:247-265 | a node that beats every period and never has more than m beats in a row lost is never marked when (m + 1) periods and the lag fit into the timeout |
| `Directory.ToleranceIsExact` | shared/node/registration.go:247-265 | with clock readings applied up to a lag late, m lost beats in a row are tolerated in all runs if and only if (m + 1) periods and the lag fit into the timeout |
| `Directory.MarkedLiveNode` | directory-server/main.go:169-192 | the run in which a live node is marked when they do not fit |
| `Directory.LagIsExact` | directory-server/main.go:283 | nodes refreshed within a gap before every sweep are never marked, in all runs, if and only if gap and lag fit into the timeout |
| `Directory.PastTimeoutIsMarked` | directory-server/main.go:175-184 | after a sweep a node is unhealthy exactly if it was or was last seen before the tick less the timeout |
| `Directory.LateHeartbeatAges` | directory-server/main.go:283 | the failing input, a schedule with lag 2: a clock reading applied late gets a node marked within the timeout of its last heartbeat |
| `Ramp.StepsGrow` | experiments/locust/throughput_scaling.py:97 | step numbers do not go back while elapsed time does not |
| `Ramp.StepIsCurrent` | experiments/locust/throughput_scaling.py:97 | the step is the one whose window the elapsed time lies in |
| `Ramp.ThroughputRampShape.UsersGrow` | experiments/locust/throughput_scaling.py:98 | user counts start at the minimum and grow by the step size |
| `Ramp.ThroughputRampShape.VerdictMeans` | experiments/locust/throughput_scaling.py:122-150 | a step is judged exactly if there was traffic, and out of bounds exactly if the percentile exceeds its threshold or more than the tolerated share of the requests failed |
| `Ramp.CeilingIsNearTheEnd` | experiments/locust/throughput_scaling.py:144-157 | the last record within bounds is the last record, or the one before it once the last broke a bound |
| `Ramp.ThroughputRampShape.TopStepIsNeverRecorded` | experiments/locust/throughput_scaling.py:90-113 | a step is recorded only if one step more is still allowed |
| `Ramp.ThroughputRampShape.Tick` | experiments/locust/throughput_scaling.py:90-113 | over any ticks with non-decreasing time: steps are sampled at most once and in order; on a sampling tick with traffic the ramp is breached exactly if the raw totals exceed a bound; recorded user counts increase, at most one record is out of bounds and it is the last, the ceiling is the last record within bounds, and after a breach every tick stops and records nothing |
| `Ramp.ThroughputRampShape.SampleStep` | experiments/locust/throughput_scaling.py:115-157 | a sample adds one record if there was traffic, and breach and ceiling follow from the records |
| `Backoff.StartWithBackoff` | shared/node/registration.go:273-295 | the k-th wait is 2^k seconds or a minute if that is less, and no try is made after an accepted one |
| `Backoff.TotalWait` | shared/node/registration.go:273-295 | n failures cost 2^n - 1 seconds for n up to 6 and 63 + 60(n - 6) from then on |

## Left out

- HTTP transport, redirects, connection reuse and automatic retries, timeouts, logging, flag and environment parsing, address discovery, scripts and infrastructure: plumbing without a property of its own.
- JSON text syntax, and strings that are not well-formed Unicode: values are records; only a lower bound on the length of a JSON text is modelled, which is what the shrinking bound needs.
- AES, GCM, RSA-OAEP and PEM internals, the quality of randomness and nonce uniqueness: ciphertexts are symbolic, and freshness of keys is a stated precondition where a property needs it, and so is that each POST takes effect at most once.
- Secrecy and dishonest nodes: only correctness between honest nodes. A next-hop address at which something other than an onion node answers counts as a loss in the step system; `Handlers.OnionNode.HandleOnion` itself allows any answer.
- The Go request loop and the health checker at work on one client at once, and other writers of `CircuitState` between its snapshot and its commit: `runClient` never starts the checker.
- The time a poll of the Python checker takes: its answer is applied in one step under the lock, at any point of a task, whatever moment it describes.
- Re-registration after a heartbeat is answered 404: the code does not do it.
- The Python helper `execute_circuit`, which retries after any exception at all, with its attempts made afresh each time: it would repeat the setup, build and peel results.
- Latencies and times in CSV rows and request events; and the second row that a reply whose body is not a string would add after the success row: replies of HopVault nodes have string bodies.
- The path `/forward/echo`, the echo server, the debug listing and `RegisterKey`: no hard property.
- Saturation of `time.Sub` at the ends of its range: times are unbounded integers.
- Floating-point rounding in the ramp: times, percentiles and rates are reals.
- Uuid.GenerateNodeID: the bit masks of the source are written as remainder and sum, which are equal on bytes.
- Handlers.OnionNode.HandleOnion: one handler stands for the forwarding and the exit handler, which differ in role only; the key writes of other requests happen while it waits for its answer, not between its other statements, which touch no shared state.
- Directory.DirectoryServer.RegisterHandler: bodies that are no JSON, have unknown fields or trailing data are refused before the modelled part.
- Backoff.StartWithBackoff: stops at the end of the given outcomes, where the source stops when its context is cancelled.
