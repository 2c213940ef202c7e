# A verified model of the tunnel server and client

The program is a reverse tunnel. Clients behind a firewall connect to a public server over TLS and
ask it for tunnels; the server opens listeners and routes web hosts for them, and sends what arrives
there back to the client over its one connection. This project models the parts of the program that
keep state or transform text, and proves what they are for.

`dafny verify dfyconfig.toml` checks the whole project.

## What is modelled

**The server's state and the operations on it.** `Registry` is the registry of subscribed clients
with its two maps: items by client, and the index from trimmed host names to clients. `Pool` is the
table of live connections keyed by spelled client IDs, with the clean-up a close sets off. `Tunnels`
is the batch of listeners and hosts made from a client's tunnels. `Handling` is `handleClient` as
one call. Each module gives the operations as functions; the classes `ClientRegistry`,
`Disconnector`, `ConnPool` and `Server` carry them out in place, loops, early exits and rollback
included, and every method's contract is that it computes the function.

**The laws of these operations.** `RegistryLaws` and `HostIndex` state when registration is
accepted, that clearing undoes it, when the order of tunnels matters, and exactly when the index and
the items stay in agreement. `HandlingLaws` says what whole visits and removals keep on a server
that is used one operation at a time (a *settled* server), and exactly which visits are accepted.

**The session lifecycle under concurrency.** `Lifecycle` is a step machine: any number of
`handleClient` runs, connections found dead, and two-step unsubscriptions, interleaved in every way,
with one lock-protected region per step and all outcomes of the network nondeterministic.
`Conservation`, `Sessions` and `Registration` prove what holds over every run of it. `Serialised`
and `SerialisedLaws` prove the stronger properties that hold when no other step that changes the
same client falls between its entry into the pool and the end of its handler. `Matching` says
exactly when items and pooled connections match without that discipline, `Ownership` when a client's
item is the one its present session made, and `Overwriting` when a registration meets the overwrite
error; `Orphans` gives runs in which things go wrong, put together from the blocks of `Scenarios`.
`Sequential` and `Visits` tie the machine to the calls: steps taken without interruption do exactly
what `addTunnels` and `handleClient` do as functions.

**The device-ID codec.** `Base32`, `Luhn`, `DeviceId`, `IdText` and `ErrorDetection` model the text
form of a 32-byte ID down to the arithmetic of blocks, and the tolerant parser back. Everything is
parametric in the check function, except error detection, which is proved for Luhn mod 32 as the
vendored library computes it. The pool depends on the codec: a close learns whose connection it was
by parsing the pool key.

**The way of a request.** `HostPort` models `net.SplitHostPort` and `trimPort`; `Auth` the
configured and the presented credentials (section 2 of RFC 7617); `Routing` puts server lookup,
credentials check, control message and the client's choice of a local URL together, over every run
of the lifecycle.

**The client and the upgraded stream.** `Client` and `Dial` model the reconnect loop and the dial
loop with backoff; `Upgrade` the two writers, the reader and the early closes of an upgraded
connection's pipe.

## Where the code differs from what one would expect

These are results, proved in the model as the code stands.

* An item does not always come with a pooled connection, nor a connection with an item. Both failures
  are characterised exactly, over every interleaving. An item without a connection arises exactly
  when a batch is registered for a client that is not pooled any more (`Matching.RunOrphansIff`), as
  when its connection dies between entering the pool and registration (`Orphans.DeathMidway`,
  `Orphans.OrphanReachable`). It stands until the client is unsubscribed or connects again, and until
  then the client's batches are refused (`Matching.OrphanEndsIff`); the rejection that follows clears
  it (`Orphans.RejectionRepairs`). A connected client without an item arises exactly when an
  unsubscription comes to its second half with the client connected again (`Matching.RunBareIff`,
  `Orphans.LateRemovalReachable`).
* An evicted handler's batch can be accepted while its successor's connection is pooled. Then requests
  for the client go to the successor's connection by the predecessor's item, and the successor is
  refused (`Orphans.UsurperReachable`). Together with removals that find the client served this is
  the exact obstacle to a client having an item exactly while it is served, and its own session's
  (`Ownership.RunFitIff`). The overwrite error has exactly such causes, or an item left standing
  without a connection (`Overwriting.OverwriteIff`).
* Removal deletes hosts as written, the index holds them trimmed. `HostIndex.UnsubscribeAgreesIff`
  gives the exact condition under which removal keeps index and items in agreement,
  `HostIndex.RemovalDamage` which routes go wrong, and `Orphans.LateRemovalReachable` a run with
  both kinds. With hosts that carry no port the index agrees over every run
  (`Registration.FixedHostsAgree`), and in serialised runs the item removed is always void already
  (`SerialisedLaws.RemovedIsVoid`), so the mismatch never shows.
* `trimPort` is not idempotent, for exactly the texts `[host:port]:port`
  (`HostPort.TrimPortIdempotentIff`).
* Normalising an ID text twice can differ from once, exactly when padding is shielded from the
  trimming by hyphens or spaces (`ErrorDetection.NormalizeAgain`).
* With a host listed twice, whose credentials win depends on the order of a Go map
  (`RegistryLaws.OrderIndependentIff`).
* On the client, a port that is itself a tunnel host takes precedence over the host
  (`Routing.ClientResolves`, `Routing.PortPrecedence`), so server and client agree exactly when that
  URL is the same (`Routing.EndToEnd`).

## Model

| member | source | states |
|---|---|---|
| Base32.DecodeEncode | id/id.go:35-50 | decoding an encoding gives back the bytes, through 5-byte blocks of eight symbols and the two-byte tail (section 6 of RFC 4648) |
| Base32.EncodeDecode | id/id.go:91-98 | re-encoding decoded symbols clears the four spare bits of the last symbol and changes nothing else (section 3.5 of RFC 4648) |
| Base32.DecodeKernel | id/id.go:91-98 | two symbol strings decode alike iff they differ at most in the four spare bits of the last symbol |
| Base32.EncodeValue | id/id.go:36 | independent definition of the encoding: the bytes as one big-endian number, times 16, written in base 32 |
| Base32.Alphabet | id/id.go:36 | the characters are those of section 6 of RFC 4648, in its order |
| Luhn.GenerateBase32 | vendor/github.com/calmh/luhn/luhn.go:22-47 | the loop over the text, with its alternating factor, computes the check symbol function Luhn32 on the group's symbols, or fails iff some character is outside the alphabet; which symbol that is, Luhn.GeneratedTotal says |
| Luhn.CheckedTotal | vendor/github.com/calmh/luhn/luhn.go:22-47 | the check symbol is the one symbol that completes a group of any length to a total divisible by 32, the total being counted from the right: the last symbol as it is, the one before as the digit sum of its double, and so on in turn |
| Luhn.GeneratedTotal | vendor/github.com/calmh/luhn/luhn.go:22-47 | the same of what is generated for a text: a character is generated iff text and character are of the alphabet and together have such a total |
| Luhn.Luhn32DetectsSubstitution | vendor/github.com/calmh/luhn/luhn.go:22-47 | changing any one of thirteen symbols changes the check symbol |
| Luhn.Luhn32Transposition | vendor/github.com/calmh/luhn/luhn.go:22-47 | swapping neighbours goes unnoticed iff they are equal or are the first and last symbol of the alphabet, in a group of any length |
| IdText.Luhnify | id/id.go:102-122 | the loop gives the four checked groups, or fails iff some character is outside the alphabet |
| IdText.Unluhnify | id/id.go:126-151 | the loop gives the data of all four groups, or the first group's fault in order, or the length error |
| IdText.ID.String | id/id.go:35-50 | the receiver's canonical spelling |
| IdText.ID.UnmarshalText | id/id.go:71-99 | the receiver becomes the parsed ID, or keeps its value and the fault is returned |
| DeviceId.UnchunkifyChunkify | id/id.go:153-165 | removing separators undoes chunking of any text without hyphens and spaces |
| DeviceId.LuhnifiedPasses | id/id.go:102-151 | a luhnified string of any data passes every group check and gives the data back, for every check function |
| DeviceId.RoundTrip | id/id.go:35-99 | every 32-byte ID parses back from its spelling, for every check function |
| DeviceId.SpellInjective | id/id.go:35-50 | different IDs have different spellings |
| DeviceId.Acceptance | id/id.go:71-99 | a text is accepted iff its normal form is 56 alphabet characters with the right check symbols, and as which ID; the base32 error cannot occur |
| DeviceId.RejectedIff | id/id.go:71-151 | with which error a text is rejected: the length of its normal form, or the first group that does not pass, by a bad character or a wrong check symbol |
| DeviceId.SameIdIff | id/id.go:71-99 | two accepted texts name the same ID iff their data agree on 51 symbols and the 52nd share the top bit |
| DeviceId.CheckedByData | id/id.go:126-151 | an accepted normal form is determined by its data: luhnify after unluhnify is the identity |
| DeviceId.Reencoding | id/id.go:35-99 | an accepted text's ID has one canonical spelling, which parses to the same ID |
| DeviceId.CanonicalIff | id/id.go:71-99 | an accepted text is canonical up to normalisation iff its last data symbol has the four spare bits clear |
| ErrorDetection.SpellShape | id/id.go:153-158 | a spelling is 63 characters: eight chunks of seven symbols with hyphens between, and which symbol stands where |
| ErrorDetection.SubstitutionDetected | id/id.go:71-151 | replacing a symbol of any accepted text, padded on the outside or not, by a character that normalises differently is rejected, if the check function notices substitutions |
| ErrorDetection.CanonicalProtected | id/id.go:71-151 | with the library's Luhn mod 32 each of the 56 symbols of a canonical spelling is protected |
| ErrorDetection.CaseAndLooks | id/id.go:75-76 | every text reads the same in small letters, and with the digits 0, 1 and 8 for the letters they look like |
| ErrorDetection.SeparatorsIgnored | id/id.go:160-165 | a hyphen or space put anywhere into a text without padding makes no difference |
| ErrorDetection.SpellingTolerated | id/id.go:35-99 | every ID is read back from its spelling in small letters, with look-alike digits, or both |
| ErrorDetection.NormalizeAgain | id/id.go:75-78 | normalising twice equals once iff the text, trimmed of outer padding, neither begins nor ends with padding once hyphens and spaces are left out |
| ErrorDetection.NormalizeUnstable | id/id.go:75-78 | the text -=- , on which normalising twice differs |
| HostPort.SplitIff | registry.go:188-194 | SplitHostPort accepts exactly host:port and [host]:port and returns their parts |
| HostPort.TrimPortFixed | registry.go:188-194 | trimming changes a text only by cutting a non-empty host out of one of the two shapes |
| HostPort.TrimPortIdempotentIff | registry.go:188-194 | trimming twice differs from once iff the text is [host:port]:port |
| HostPort.TrimPortNotIdempotent | registry.go:188-194 | [a:80]:90, the concrete text on which it differs |
| Auth.NewAuthParts | auth.go:16-30 | the configured text is user, colon, password, split at the first colon; no text means no protection |
| Auth.AuthorisedIff | server.go:687-691 | a pair with a user is matched by exactly one text of credentials |
| Auth.ConfiguredIff | server.go:687-691 | from the configured text: the credentials let through are that text, completed by a colon if it has none |
| Auth.AbsentCredentials | registry.go:140-142 | absent or colon-less credentials match only the pair of empty texts, which registration refuses |
| Registry.ClientRegistry.DoSubscribe | registry.go:56-71 | a new client gets the void item, a known one keeps its own |
| Registry.ClientRegistry.DoUnsubscribe | registry.go:95-119 | the item and the hosts as written are removed and the item returned; an unknown client changes nothing |
| Registry.ClientRegistry.CheckHosts | registry.go:138-146 | the first conflict in list order, with nothing changed |
| Registry.ClientRegistry.AddHosts | registry.go:148-154 | the index grows by the list's entries, later ones overriding earlier |
| Registry.ClientRegistry.DoSet | registry.go:121-160 | the batch is registered, or the first fault returned and nothing changed |
| Registry.ClientRegistry.DoClear | registry.go:162-186 | the trimmed hosts and the item go and the item is returned; a void or absent item changes nothing |
| RegistryLaws.SetAllOrNothing | registry.go:121-160 | a batch is accepted iff the client holds the void item, every protected host has a user and no trimmed host is indexed; a refusal changes nothing |
| RegistryLaws.SetFaultIff | registry.go:131-146 | which error a refused batch gets: not subscribed, overwrite, or the conflict of its first offending host in list order, a missing user before an occupied host, which is named as written |
| RegistryLaws.ClearUndoesSet | registry.go:121-186 | clear after a successful set restores both maps exactly and returns the item, repeated hosts or not |
| RegistryLaws.IndexLast | registry.go:149-154 | the credentials indexed for a host are those of its last entry |
| RegistryLaws.IndexFrom | registry.go:149-154 | every indexed host has a last entry listing it, whose credentials are the indexed ones |
| RegistryLaws.OrderIndependentIff | server.go:452-500 | the index is the same for every order of the tunnels iff no host is listed twice with different credentials |
| RegistryLaws.AcceptanceOrderIndependent | server.go:452-500 | whether a batch is accepted never depends on the order |
| HostIndex.ResolvedIff | registry.go:82-92 | when index and items agree, a lookup returns a client and credentials iff that client's live item lists the trimmed host and the last entry to do so has these credentials |
| HostIndex.NoSharedHost | registry.go:143-145 | no two clients list the same host |
| HostIndex.SubscribeAgrees | registry.go:56-71 | subscribing keeps index and items in agreement |
| HostIndex.SetAgrees | registry.go:121-160 | so does set |
| HostIndex.ClearAgrees | registry.go:162-186 | so does clear |
| HostIndex.ClearedHosts | registry.go:178-182 | clear takes away exactly the hosts indexed to the client |
| HostIndex.UnsubscribeAgreesIff | registry.go:95-119 | removal keeps the agreement iff every trimmed host of the item was also written that way and no host as written is another client's index key |
| HostIndex.FixedIsClean | registry.go:110-114 | hosts that trimming leaves alone are always removed cleanly |
| HostIndex.RemovalDamage | registry.go:110-114 | route by route: a host stays routed to the removed client iff it is a trimmed host that was not also written so, and another client's host is lost iff the removed client wrote it |
| HostIndex.UncleanRemoval | registry.go:95-119 | the same two effects on a registry built by subscribe and set alone |
| HostIndex.OperationsGuarded | registry.go:139-155 | every operation keeps: each indexed pair of credentials has a user without a colon |
| Pool.IdentifierOfAddr | pool.go:134-142 | the client recovered from a pool key is the one it was made for, for every ID |
| Pool.AddrInjective | pool.go:134-136 | different clients have different pool keys |
| Pool.AddrText | pool.go:134-136 | a pool key is the spelled ID with :443, 67 characters |
| Pool.CloseExact | pool.go:126-132 | a close removes one pool entry and clears that client's item, hosts and listeners; other clients keep their entries, items and, where the index agrees, exactly their hosts |
| Pool.DeleteExact | pool.go:93-102 | deleting by client is the close if there is an entry and changes nothing otherwise, so that an item without a connection stays |
| Pool.AddConnIff | pool.go:67-91 | a predecessor that answers refuses the connection and nothing changes; any other is closed and its client's item cleared before the connection enters, unless HTTP/2 cannot be set up; and which error is returned |
| Tunnels.BuildListeners | server.go:452-495 | a batch, finished or broken off, holds exactly the listeners opened for it, each once |
| Tunnels.BuildHosts | server.go:453-456 | a finished batch lists the hosts of the HTTP tunnels with their parsed credentials, in order |
| Tunnels.BuildCounts | server.go:453-495 | a finished batch has a host for each HTTP tunnel and a listener for each of the others |
| Tunnels.BuildFails | server.go:453-495 | a batch fails iff some tunnel has an unsupported protocol, cannot be listened for, or needs the muxer and there is none |
| Tunnels.AddTunnelsIff | server.go:446-515 | a subscribed client's batch is accepted iff every tunnel can be provided and every web host has a user if protected and is not taken |
| Tunnels.AddTunnelsFault | server.go:446-515 | which error a refused batch gets: a tunnel that cannot be added, before the registry is asked, or the registry's own |
| Tunnels.AddTunnelsAtomic | server.go:446-515 | on an error the registry and the set of open listeners are as before; on success the new open listeners are those of the item |
| Server.Network.CloseAll | server.go:508-511 | every listener of the list is closed once |
| Server.Disconnector.Disconnected | server.go:174-194 | clears the client's item and closes its listeners, or does nothing if there is none |
| Server.ConnPool.DoClose | pool.go:126-132 | the entry goes, its connection is closed, and the client parsed from the key is cleaned up |
| Server.ConnPool.DoDeleteConn | pool.go:93-102 | closes the client's entry if there is one |
| Server.ConnPool.DoAddConn | pool.go:67-91 | a live predecessor refuses, a dead one is evicted, and the connection enters unless HTTP/2 cannot be set up |
| Server.ConnPool.MarkDead | pool.go:55-65 | the search in any order closes the entry holding the connection, or changes nothing if none does |
| Server.Server.DoAddTunnels | server.go:446-515 | the loop with its rollback computes the batch operation |
| Server.Server.DoAdmit | server.go:287-304 | auto-subscription, the known client and the subscription listener's decision |
| Server.Server.DoHandleClient | server.go:241-417 | the long sequence with its jumps to the rejection computes the visit |
| Server.Server.DoUnsubscribe | server.go:518-524 | disconnects first, then removes and returns what is left of the item |
| HandlingLaws.HandleSettled | server.go:241-417 | a visit to a settled server leaves it settled (item iff pooled, open listeners exactly those of items, index agrees, no closed connection pooled); accepted, the client's connection and hosts are those of the visit; rejected, its connection is closed; no other client is touched |
| HandlingLaws.AcceptedIff | server.go:241-417 | exactly which visits are accepted, read off the server before the visit; a client's own former hosts and dead connection are no obstacle |
| HandlingLaws.SubscribedIff | server.go:287-304 | a visit subscribes its client iff clients are subscribed by themselves or the listener lets this one in, accepted in the end or not, and nobody else |
| HandlingLaws.RemovalSettled | server.go:518-524 | unsubscribing keeps the server settled, leaves nothing of the client and touches no other |
| HandlingLaws.DeadSettled | pool.go:55-65 | letting go of a dead connection is deleting the client its key spells, and keeps the server settled and every other client as it is |
| HandlingLaws.ReachedSettled | server.go:241-417 | every server reached from the initial one by visits, deaths and removals in any order is settled, and every pool key is some client's |
| Sequential.UninterruptedIsCall | server.go:446-515 | the machine's steps from the first tunnel on, uninterrupted, end in the world and outcome of the addTunnels call |
| Visits.UninterruptedIsVisit | server.go:241-417 | the machine's steps of a whole handler, uninterrupted, end in the world and outcome of the visit |
| Conservation.Accounting | server.go:446-515 | every step that opens nothing moves the listeners of one place, if any, to one other place and keeps every other count |
| Conservation.StepConserves | server.go:174-194 | every step keeps: each listener opened is in exactly one batch, item, returned item or the closed ones, once |
| Conservation.RunConserves | server.go:446-524 | hence in every state of every run |
| Conservation.ClosedOnce | server.go:174-194 | no listener is closed twice, and none held by an item, a batch or a returned item is closed |
| Sessions.RunSound | pool.go:67-132 | over every run each pool entry is the open connection of a handler for the client the key spells |
| Sessions.ClosedNotPooled | server.go:405-417 | over every run a connection the server has closed is not in the pool |
| Sessions.RejectedLeavesNothing | server.go:405-417 | over every run a rejected handler's connection is closed and not pooled, and every listener it opened is closed |
| Sessions.StepAgreesIff | registry.go:56-186 | a step of the machine keeps index and items in agreement iff it is not an unclean removal |
| Sessions.RunAgrees | registry.go:56-186 | over every run with clean removals the index agrees with the items |
| Sessions.RunGuarded | registry.go:139-142 | over every run, clean or not, every protected host has a user that a request can present |
| Registration.RunAsAsked | server.go:446-500 | over every run each live item was made in full from all the tunnels some connected handler of that client asked for: their hosts in order, a listener for each of the others, and those listeners exactly the ones that handler opened |
| Registration.FixedHostsAgree | registry.go:95-155 | if every web host asked for is written as it is indexed, index and items agree over every run, however removals are interleaved |
| Serialised.RunOrdered | server.go:241-417 | over every serialised run, client by client: a handler or removal under way owns it alone with no item, and otherwise it has an item iff it is pooled; connections turned away without effect may come at any time |
| Serialised.ItemIffPooled | server.go:241-417 | in a serialised run a client with nothing under way has an item iff its key is pooled |
| Serialised.NeverOverwrites | registry.go:135-137 | in a serialised run no handler meets the overwrite error |
| SerialisedLaws.RejectionLeavesNoItem | server.go:405-417 | in a serialised run a handler rejected after entering the pool leaves its client without item and connection |
| SerialisedLaws.RemovedIsVoid | server.go:518-524 | in a serialised run the item an unsubscription removes is void and the client not pooled |
| SerialisedLaws.RemovalsClean | registry.go:95-119 | in a serialised run every removal is clean, so that Routing.EndToEnd holds with no condition on removals |
| SerialisedLaws.SerialAgrees | registry.go:56-186 | in a serialised run the index agrees with the items, with no condition on hosts |
| SerialisedLaws.UnsubscribedGone | server.go:518-524 | when an unsubscription completes the client is in no map, not in the pool, and no host leads to it |
| SerialisedLaws.UnsubscribeLeavesNoTrace | server.go:518-524 | over a serialised run with other clients' steps between the two halves: the exact effect of each half, the client in no map, not pooled and unrouted at the end, its listeners closed from the first half on, nothing of anybody else changed, whatever ports the hosts carried |
| SerialisedLaws.NothingHanded | server.go:518-524 | in a serialised run no open listener is handed back to a caller |
| SerialisedLaws.OpenExactly | server.go:174-194 | in a serialised run the open listeners are exactly those of batches under way and of pooled clients' items |
| SerialisedLaws.OpenOfPooled | server.go:174-194 | with no handler in its critical stretch, exactly those of pooled clients |
| Matching.StepClient | pool.go:55-132 | what any step does to any one client: an item comes with registration and goes with removal or with the connection, and a pool entry is let go or made |
| Matching.StepOrphansIff | server.go:497-500 | a step from a state without orphans makes one iff it registers a batch for a client that is not pooled any more |
| Matching.RunOrphansIff | server.go:314-500 | over every run: no state has an item without a pooled connection iff no registration was late |
| Matching.OrphanEndsIff | registry.go:131-137 | an orphan stands until the client is unsubscribed or connects again, and meanwhile every batch of the client is refused as an overwrite |
| Matching.StepBareIff | server.go:518-524 | a step makes the first connected client without an item iff it is the second half of an unsubscription that finds the client connected |
| Matching.RunBareIff | server.go:518-524 | over every run: no client is connected without an item iff no unsubscription came to its second half with the client connected |
| Matching.Matched | server.go:241-524 | over every run without late registrations and late removals, a client with no handler at work has an item iff it is pooled |
| Ownership.ServedAfter | pool.go:67-132 | a client is served (its pooled connection's handler is connected) from that handler's registration until the connection is let go, and by no other step |
| Ownership.StepOwnedIff | server.go:518-524 | a step parts a served client from an item of its own session's making iff it is the second half of an unsubscription that finds it served |
| Ownership.RunOwnedIff | server.go:241-524 | over every run and client by client: whenever the client is served its item was made by the handler of its pooled connection, iff no removal completed while it was served |
| Ownership.StepFitIff | server.go:497-500 | from a state in which the client has an item exactly while served, and its own session's, a step breaks this iff it is such a removal or the accepted registration of a handler whose connection is not the client's pool entry |
| Ownership.RunFitIff | server.go:241-524 | the run form of that condition, client by client |
| Overwriting.LiveIff | registry.go:121-186 | over every run a client has an item iff it had one that nothing took away since, or a registration since then stands |
| Overwriting.OverwriteIff | registry.go:135-137 | over every run a handler meets the overwrite error iff an item stood without a connection when its connection entered the pool and still stands, or another handler's registration since then stands; one made while this handler held the pool entry was an evicted handler's |
| Orphans.DeathMidway | server.go:314-321 | a connection found dead just before registration leaves an item without a pooled connection |
| Orphans.OrphanReachable | server.go:497-500 | for every client there is a run that ends so |
| Orphans.UsurperReachable | pool.go:67-91 | for every client there is a run in which an evicted handler's batch is accepted while its successor is pooled, and the successor's own batch is then refused |
| Orphans.LateRemovalReachable | server.go:518-524 | for any two clients there is a run in which an unsubscription overtaken by a connection leaves one connected without an item and its host routed though it is in no item, and the other, served, without the route of a host it lists |
| Orphans.RejectionRepairs | server.go:411-414 | the rejection that follows clears it, if the rejected connection is the pooled one |
| Routing.TunnelsFor | cmd/tunnel/tunnel.go:156-169 | the loop, in any order, sends for every configured tunnel its protocol, host and credentials and its remote address |
| Routing.ProxyMaps | cmd/tunnel/tunnel.go:171-194 | the loop, in any order, files every HTTP tunnel by host and every TCP or SNI tunnel by its key, and each entry leads to the address of a tunnel with that key |
| Routing.ListeningAgree | cmd/tunnel/tunnel.go:156-194 | the map sent to the server and the client's own agree on listening tunnels: each TCP tunnel is asked for at its remote address and each SNI tunnel by its host; whatever is asked for leads to the local address of a tunnel asked for so; and the client's map holds nothing else |
| Routing.ListeningOwn | cmd/tunnel/tunnel.go:156-194 | a listening tunnel that shares its address or host with no other leads to its own local address |
| Routing.LookupOrder | httpproxy.go:165-188 | the lookup in any map for any host: host and port as they came, then the port, then the host, then the default; a host that does not split is looked up under the empty text |
| Routing.TargetIff | client.go:233-268 | a message leads to a URL iff it is complete, for the proxy action and an HTTP protocol, and the lookup of its host does |
| Routing.ClientResolves | httpproxy.go:165-188 | for a request host that trims to a tunnel host the client picks that tunnel's URL, unless the request's port is a tunnel host, which then wins |
| Routing.PortPrecedence | httpproxy.go:165-188 | with tunnels for a and 80 a request for a:80 is the server's a and the client's 80 |
| Routing.EndToEnd | server.go:675-717 | over every run with clean removals, whatever the client's earlier sessions asked for: if the client a host resolves to is served and no unsubscription of it completed while it was, the request belongs to a tunnel of the session now serving it, is forwarded iff it carries that tunnel's credentials, and the client picks that tunnel's URL iff no port that is a tunnel host leads elsewhere |
| Routing.Answered | server.go:675-717 | over every run with clean removals, in terms of the items: the client is not subscribed iff no live item lists the host; else the request is forwarded to the one client whose item does, by the last entry that lists it, iff it carries that entry's credentials, with its own host and https iff it came over TLS or says so |
| Routing.ResolvedServed | server.go:675-679 | over every run with clean removals in which no handler without the client's pool entry registered for it either, a client that a host resolves to is served |
| Routing.ProtectedIff | server.go:687-693 | over every run, clean or not, a protected host is proxied for exactly one text of credentials |
| Dial.Dial | client.go:151-231 | the loop's trace is k rounds of failure, answer and sleep and then its end, for the one k at which the attempts and the policy end it |
| Dial.OutcomeIff | client.go:203-231 | dialing returns a connection iff the attempt that ended it made that one, and else the attempt's error or that the policy gave up |
| Dial.TraceAccounts | client.go:208-230 | total sleep is the sum of the k answers, none is negative, and the policy is reset once on success and never otherwise |
| Dial.TraceAt | client.go:208-230 | each round of a trace is a failure, the policy's answer for that round and a sleep of that length |
| Dial.TraceEnd | client.go:213-222 | a trace ends in a success and one reset, or in a failure and an answer below zero |
| Dial.StopsOnce | client.go:208-230 | the round in which the loop ends is determined by the attempts and the policy |
| Client.Client.DoConnect | client.go:134-149 | refuses when connected; else dials, and holds the connection returned iff that succeeds |
| Client.Client.DoDisconnect | client.go:114-130 | the verdict of a session's end, and the reset of all three fields |
| Client.ReconnectRate | client.go:93-132 | over every run the disconnects j to k that Start survives span at least 5(k-j) seconds, Stop and error reports interleaved |
| Client.RateTight | client.go:93-132 | the bound is attained: for every n there is a run in which Start survives n sessions five seconds apart, each ended by Stop |
| Client.ReportReturned | client.go:114-130 | and one in which it then returns the error the server reports |
| Client.ServingHeld | client.go:134-149 | over every run: while a session is served, the client holds the connection dialed last until Stop is first called, and none after |
| Client.DialLeads | client.go:99-103 | a dial leads to a session over the connection it made, which the client then holds, or to Start's return with its error |
| Client.ServingStops | client.go:313-326 | while a session is served the first Stop closes exactly its connection and later ones nothing, and a connect in between is refused iff Stop has not been called |
| Client.NeverAlreadyConnected | client.go:134-140 | over every run Start's own connect never fails as already connected |
| Client.ReportKept | client.go:276-289 | the error remembered is the latest reported since a session last ended |
| Client.SessionEnd | client.go:114-130 | a session's end returns the latest report, else being cut if under five seconds have passed since the last survived one, else goes round; and the connection and the report are forgotten |
| Upgrade.RunInOrder | server.go:719-785 | under every interleaving what is delivered plus what the writers hold is the request bytes followed by the bytes received |
| Upgrade.DeliveredPrefix | server.go:729-758 | under every interleaving and early close the bytes delivered are a prefix of the request bytes followed by those read from the connection |
| Upgrade.NothingLost | server.go:733-758 | while the pipe is open, everything received has been delivered whenever the copy asks for more and when it ends |
| Upgrade.StoppedIff | server.go:742-758 | with the pipe open, the copy has stopped iff the end of the connection has been read and everything has been handed over |
| Upgrade.ReadingIff | server.go:742-758 | with the pipe open, the copy is at the connection for more iff the first writer has signalled, the end has not been read, and everything so far has been handed over |
| Upgrade.WrittenIff | server.go:733-736 | with the pipe open, the first writer is done iff the reader has met it and all the request bytes have been handed over |
| Upgrade.PipeState | server.go:729-731 | the pipe is closed from the first close on, and every hand-over uses up a read of its own |
| Upgrade.ClosedDelivers | server.go:729-731 | after a close nothing more is delivered but to the read then under way |
| Upgrade.ClosedWrites | server.go:729-736 | a write begun after the close hands over nothing |
| Upgrade.CopyStoppedIff | server.go:742-750 | whatever becomes of the pipe, the copy has stopped iff it failed to write or has read the end of the connection and holds no chunk any more |
| Upgrade.FirstDoneIff | server.go:733-736 | whatever becomes of the pipe, the first writer is done iff its write gave up, found the pipe closed or handed over the last of the request bytes, and the copy waits until it has then signalled |
| Upgrade.Completes | server.go:719-785 | for all request bytes and whatever chunks the connection sends there is a run that hands over all of it in order and in which the copy stops after the last chunk and is back at the connection after every other |

## Left out

- Text is ASCII. Go's upper-casing of other letters (dotless i and long s become ASCII letters) is not modelled.
- HostPort.SplitIff: which error a text that does not split gets is not stated, because every caller drops it.
- Of the vendored Luhn library only Generate over the base-32 alphabet is modelled; Validate and other alphabets are not used.
- Base32 is modelled for the shape that occurs, whole blocks and a two-byte tail, and decoding for text that carries its padding at the end. Line breaks inside base32 input cannot reach the decoder, because every character has passed the check digits' alphabet by then.
- TLS, certificates and their hash, HTTP/2, the virtual-host muxer, keepalive, pings and timeouts are foreign code: their outcomes are inputs, nondeterministic in the machines.
- A connection and the HTTP/2 client connection made from it are one number in the pool, since each connection is offered once. Pooled connections are not reached through the request path (GetClientConn, Ping).
- The void item is a constructor of its own in place of the shared pointer, and items are values: aliasing between an item held by a caller and the registry is not captured.
- Under the pool's lock a close, the clearing of the item and the closing of its listeners are one step of the machine. The lookups that take only a read lock change nothing and are no steps.
- handleClient appears twice: as a method that runs without interruption, and as a machine for interleavings; the machine's handlers are values, not goroutines.
- Serialised.ItemIffPooled: the equivalence of item and pooled connection is stated for serialised runs, because it is not a property of the code under every interleaving; Matching.RunOrphansIff and Matching.RunBareIff say exactly when it is.
- notifyError sends a message and changes no state. A tunnel that is null in the client's JSON makes the server panic; tunnels are values here.
- The tunnels of a client reach the server in the order in which a Go map is walked: an arbitrary sequence.
- Routing.EndToEnd: tunnel hosts are names, non-empty, without colons and brackets, and distinct, as host patterns otherwise collide with the port syntax; local URLs are represented by the address they are parsed from, since a parse failure ends the program at start.
- Director's rewriting of paths and queries, normalizeURL and the copying of headers are decided by library code. The control message is carried over unchanged, and rejected when a header is empty.
- TCPProxy's choice of a local address repeats the HTTP one on other keys; only the building of its map is modelled.
- Client.ReconnectRate: the clock does not run backwards, and one Start loop runs at a time. Seconds are compared in whole nanoseconds, with Go's cap on durations, in place of a floating-point quotient.
- Dial.Dial: the loop ends because some round ends it; a policy that never gives up on attempts that never succeed loops for ever in the source as well, and has no result to state.
- Start's endless loop is a machine with its locked regions as methods. Liveness, goroutine leaks and real time are not modelled.
- The server's Start, listen, ServeHTTP and Stop, logging, flags, configuration files and banners are plumbing.
