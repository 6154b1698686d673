# fxTunnel: a verified model

fxTunnel publishes local services under public names and ports. Clients keep a control connection to
a server; the server keeps registries of clients, tunnels, names, ports and captured traffic, sells
plans by subscription, and synchronises client settings. This project models the parts where several
registries, several threads or several points in time have to agree, and proves what they keep.

`dafny verify dfyconfig.toml` checks everything. Nothing here runs the program.

## How it is laid out

| files | what they model |
|---|---|
| `Registry`, `RegistryOwnership`, `RegistryRuns`, `RegistryUsers`, `RegistryLimits`, `RegistryAdmission`, `RegistryIndex`, `RegistryAlone`, `RegistryStranding`, `RegistryExamples`, `RegistryParty` | the server's registries as a machine whose steps are the lock-protected sections of the source; message loops, administrative closes, client closes and accept loops interleave freely |
| `Sessions`, `TunnelServer`, `Routing` | the same registries with every handler as one step (what the machine above does when a handler's sections run without interruption, by `RegistryAlone`), the server's objects that carry those steps out, and the way from creating a tunnel to a request that reaches it |
| `Ports`, `RingBuffer`, `UdpTable`, `RoundRobin`, `Hosts`, `Text` | port allocation, the buffer of captured exchanges, UDP replies, stream selection, host names |
| `Streams`, `Framing`, `StreamHeader` | the two wire formats over readers that deliver arbitrary chunks |
| `Billing`, `BillingRuns`, `BillingInvariants`, `BillingEffects`, `BillingInvoices`, `BillingStatus`, `BillingRaces`, `BillingCalls`, `BillingService` | subscriptions and payments over time |
| `Lww`, `Sync` | last-writer-wins synchronisation |
| `Migrations`, `OneTimeStore` | the migration runner and the OAuth store |
| `Wrappers`, `Arithmetic`, `Sums` | shared definitions and facts about remainders and finite sums |

A machine is a state, a type of steps, `Enabled`, `Next`, `Legal` (a run) and `Final` (where it ends).
Its main results are about every legal run. Where the source works by changing fields, arrays or maps
in place there is a class whose methods, loops included, are proved equal to the machine's functions.

Findings the proofs turned up, each stated below as a lemma with its exact condition:

- bundles without a time stamp can make synchronisation depend on the order and on the clock
  (`Sync.UnstampedOrderMatters`). It does not exactly when every name that is sent passes a test without
  a clock: with a row there, nothing sent is newer than it or the newest bundles agree; without one,
  every bundle of the name is stamped and the newest agree (`Sync.ConvergesIffSettled`);
- a settings request that repeats a key keeps its last value, not its newest. It is the merge exactly
  when for every key the last entry newer than the row is also the newest (`Sync.RequestIsJoinIff`);
- a plan limit of L tunnels admits up to L - 1 + n for n clients of a user, and no more
  (`RegistryLimits.PlanLimitHolds`, reached for every L and n: `RegistryExamples.PlanLimitIsTight`);
- a client closed between being added and being linked stays on its user's list for good, though no
  count sees it. It stays exactly when its linking came after its unlinking
  (`RegistryStranding.StrandedIffLinkedAfterUnlink`), which can happen only in the sweep that closes all
  clients at shutdown (internal/server/server.go:400-428): everywhere else closing follows linking;
- an invoice number is given out twice exactly when the payment with the greatest number is deleted, by
  the cleanup or with its user, and another payment follows (`BillingInvoices.NumberFallsIffTopRemoved`,
  `BillingInvoices.NumberGivenTwiceIff`). In each such run, and in no other, a late webhook can meet
  another payment than its own (`BillingInvoices.WebhookMeetsAnotherIff`), which can be another
  customer's (`BillingCalls.LatePaymentPaysForAnother`);
- a user who orders twice before paying can have two active subscriptions
  (`BillingStatus.TwoActiveArePossible`; exactly when: `BillingStatus.OneActiveIff`), and once the
  scheduler has no older row of it a cancelled subscription is never expired
  (`BillingStatus.CancelledIsNeverExpired`);
- the scheduler stores whole rows that it may have read long before. It undoes a cancellation or an
  extension exactly when it holds a row read before it and reaches that row's write
  (`BillingRaces.ChangeIsUndoneIff`), as when a subscription is cancelled while its renewal is charged
  (`BillingRaces.CancellationIsUndone`);
- a payment that a webhook settles while the scheduler is still waiting for the provider's answer to the
  same autopayment is stored as pending again when that answer is not yet a success
  (`BillingEffects.PaidIsReopened`). A settled payment stays settled over exactly the runs in which this
  does not happen to it and its user is not deleted (`BillingEffects.SettledStaysIff`);
- a crash while an untracked database is being bootstrapped makes the next start run later migrations a
  second time, up to the first that cannot be repeated (`Migrations.CutBootstrapRepeats`). For the shipped
  list such a crash is final: no later start completes it (`Migrations.CutBootstrapIsFinal`). An
  untracked database with an older schema never gets the migrations that its bootstrap recorded
  unseen (`Migrations.RecordedHasRunIff`);
- a round-robin call whose counter wraps skips one session unless the number of sessions divides 2^32
  (`RoundRobin.CoverageIffEven`);
- an accepted custom domain under an alias of the server is never reached
  (`Hosts.AliasShadowsCustomDomain`), and tunnels named `www` or `www.*` are not reachable under the
  address that is advertised for them (`Hosts.AdvertisedHostRoundTrip`).

The comment on the expiry step speaks of non-recurring or cancelled subscriptions
(internal/scheduler/scheduler.go:114), but its query selects active ones only
(internal/database/subscription_repo.go:128); the model follows the query.

## Model

| member | source | states |
|---|---|---|
| `Ports.AllocationIsRight` | `internal/server/port_allocator.go:27-53` | a grant is free, in range and what was asked for; automatic choice gives the least free port and is refused exactly when the range is full; an asked port is refused as outside the range or as taken, each exactly when it is |
| `Ports.FirstFreeIsLeast` | `internal/server/port_allocator.go:44-52` | the linear search finds the least free port from its start on, and fails only when there is none |
| `Ports.PortAllocator.Allocate` | `internal/server/port_allocator.go:27-53` | the search loop answers as specified and adds exactly the granted port to the used set |
| `Ports.PortAllocator.Release` | `internal/server/port_allocator.go:56-60` | takes exactly that port out |
| `Ports.PortAllocator.AllocatePort` | `internal/server/tcp_manager.go:31-44` | a port that cannot be bound is given back, leaving the table as if nothing had been asked |
| `RegistryRuns.RoutesHaveOneOwner` | `internal/server/server.go:737-788` | in every reachable state under every lock-level interleaving a router entry exists exactly when it has an owner (unfinished creation, a client's map, unfinished close), has only one, and leads to that owner's tunnel |
| `RegistryRuns.BuffersHaveOneOwner` | `internal/inspect/manager.go:54-87` | the same for inspect buffers, and a user is filed only for a tunnel that has a buffer; with inspection on, every owner has its buffer |
| `RegistryUsers.BuffersAreFiledUnderTheirUser` | `internal/inspect/manager.go:79-87` | in every reachable state the user filed for a tunnel is the user of the client that owns it; with inspection on every HTTP tunnel in a client's map that still has its buffer is filed |
| `RegistryUsers.StepKeepsFiled` | `internal/server/server.go:752-762` | every step keeps the filed users right |
| `RegistryRuns.UnregisterRemovesOwnTunnel` | `internal/server/server.go:885-918` | unregistering by name, in closeTunnel and in Close, removes the closer's own tunnel and leaves every other owner's entry alone |
| `RegistryRuns.UnregisterTouchesOneEntry` | `internal/server/http_router.go:67-74` | the unregistering section is run by the owner of the entry and removes that entry only |
| `RegistryRuns.PortsHaveOneOwner` | `internal/server/tcp_manager.go:31-58` | the used ports are exactly those held by unfinished allocations and running loops, each has one holder and lies in its range; no two running loops share a port |
| `RegistryRuns.GrantsMatchReleases` | `internal/server/udp_manager.go:45-75` | over any run a port is granted as often as it is released, plus once while it is in use |
| `RegistryRuns.AutomaticPortFailsOnlyWhenFull` | `internal/server/port_allocator.go:43-52` | in every reachable state an automatic request is refused exactly when each port of the range is held by somebody |
| `RegistryRuns.RunKeepsOwned` | `internal/server/server.go:885-918` | every run keeps the ownership invariant of tunnels, routes, buffers and ports |
| `RegistryOwnership.StepHome` | `internal/server/server.go:764-772` | every step moves a tunnel between holders only as it should: no tunnel gets two holders or loses its only one |
| `RegistryOwnership.StepRoute` | `internal/server/http_router.go:51-74` | every step keeps each router entry with its tunnel's holder |
| `RegistryOwnership.StepBuffer` | `internal/inspect/manager.go:140-151` | every step keeps each inspect buffer with its tunnel's holder |
| `RegistryOwnership.StepPort` | `internal/server/tcp_manager.go:52-58` | every step keeps each used port with one holder |
| `RegistryLimits.PlanLimitHolds` | `internal/server/server.go:673-713` | when all clients of a user connected with the plan limit L, or without a plan and L is 10: a user's tunnels and requests past the plan test are at most L - 1 plus the number of the user's clients that have one, in every reachable state, with the plan test, the token test and everything else interleaving |
| `RegistryAdmission.RequestPassesIff` | `internal/server/server.go:681-725` | in every reachable state: a client that was connected with Plan(n) passes the plan's test exactly when n is not positive or fewer than n tunnels are counted, one without a plan exactly when fewer than 10 are, and the token's test exactly when the token has no limit or more than the client's own tunnels |
| `RegistryLimits.TokenLimitHolds` | `internal/server/server.go:694-725` | a client's own tunnels, with its admitted request, never exceed a positive token limit, nor, when it has no user, a positive plan limit, nor 10 when it has no plan |
| `RegistryLimits.CountCovers` | `internal/server/client_manager.go:214-233` | the count by index is at least the total of what the listed, connected clients hold |
| `RegistryLimits.AdmissionBoundsExcess` | `internal/server/server.go:710-713` | passing the check bounds what all the user's clients hold beyond one tunnel each |
| `RegistryExamples.PlanLimitIsTight` | `internal/server/server.go:701-713` | the bound is reached for every L > 0 and every number n of clients: a run in which n clients of one user end with L - 1 + n tunnels, all opened |
| `RegistryExamples.FixedPlanFromEnd` | `internal/server/server.go:701-708` | the clients of the last state tell with which plans all of them connected |
| `RegistryIndex.IndexHoldsUnderInterleaving` | `internal/server/client_manager.go:68-99` | in every reachable state a user's list has no duplicates, has each of the user's clients that is linked and not yet unlinking, has no other user's client, and its count is the total over its connected clients |
| `RegistryIndex.CountIsScan` | `internal/server/client_manager.go:214-233` | whenever none of a user's connected clients is being linked or unlinked, the count by index is the count by a scan of all clients, whatever else is under way |
| `RegistryStranding.StrandedIffLinkedAfterUnlink` | `internal/server/client_manager.go:57-99` | over every run from the start, a client that has been unlinked is on its user's list exactly when its linking came after its unlinking and it has a user |
| `RegistryIndex.StrandedStays` | `internal/server/client_manager.go:80-99` | a removed client that is still listed is never taken off the list by a later step |
| `RegistryStranding.StrandingIsPossible` | `internal/server/server.go:400-428` | from any state: a run in which a shutdown closes a new client between its addition and its linking, and it stays listed |
| `Sessions.IndexAgreesWithScan` | `internal/server/client_manager.go:102-164` | with handlers atomic, for every user but 0: the list is duplicate-free and exactly the user's connected clients; the listing by user is the listing of everything filtered by user, as multisets; the count is its size |
| `Sessions.UserClosesOwnTunnelsOnly` | `internal/server/client_manager.go:186-211` | a user can close by number exactly the tunnels of the own listing; closing takes that tunnel and no other out of the listing of everything |
| `Sessions.RoutesLeadToConnectedClients` | `internal/server/http_router.go:117-132` | with handlers atomic a name is routed exactly when one connected client has a tunnel of that name, and to that tunnel |
| `Sessions.CloseLeavesNothing` | `internal/server/server.go:967-1018` | with handlers atomic, after Close no list, route or buffer of the client is left and those of all other clients are as before |
| `Sessions.CallsKeepAgreement` | `internal/server/server.go:632-671` | every sequence of calls keeps index, tunnel numbers, routes and buffers in agreement with the clients' own maps |
| `Sessions.CountIsListed` | `internal/server/client_manager.go:214-233` | on any list of clients the count is the size of the listing |
| `RegistryAlone.OpeningAlone` | `internal/server/server.go:715-772` | an admitted request for an HTTP tunnel whose sections run without interruption is the one step Sessions.OpenedHttp, taken name included, whatever unfinished work of other threads surrounds it |
| `RegistryAlone.OpeningSocketAlone` | `internal/server/server.go:790-815` | the same for a TCP or UDP tunnel, whose port is then used and served by a running loop |
| `RegistryAlone.ConnectingAlone` | `internal/server/auth_handler.go:98-103` | the same for connecting and linking |
| `RegistryAlone.ClosingAlone` | `internal/server/server.go:885-907` | the same for a close request |
| `RegistryAlone.DisconnectingAlone` | `internal/server/server.go:967-1018` | the same for Client.Close with any number of tunnels, wherever the message loop stands |
| `RegistryIndex.WithoutIsExact` | `internal/server/client_manager.go:88-94` | dropping the first occurrence from a duplicate-free list takes out that client and nothing else |
| `TunnelServer.HTTPRouter.RegisterTunnel` | `internal/server/http_router.go:51-64` | refuses exactly a taken name, otherwise adds that one entry, under the name in lower case |
| `TunnelServer.HTTPRouter.UnregisterTunnel` | `internal/server/http_router.go:67-74` | removes exactly that entry |
| `TunnelServer.HTTPRouter.GetTunnel` | `internal/server/http_router.go:77-83` | finds the entry of the name in lower case, if there is one |
| `TunnelServer.InspectManager.GetOrCreate` | `internal/inspect/manager.go:54-76` | a disabled manager gives nothing; an existing buffer is kept; otherwise a new empty one is filed |
| `TunnelServer.InspectManager.GetOrCreateWithUser` | `internal/inspect/manager.go:79-87` | also files the user, unless the manager is disabled |
| `TunnelServer.InspectManager.Remove` | `internal/inspect/manager.go:140-151` | removes the buffer and the user of that tunnel only, and closes that buffer |
| `TunnelServer.ClientManager.LinkUserClient` | `internal/server/client_manager.go:68-77` | appends the client to its user's list; user 0 has none |
| `TunnelServer.ClientManager.UnlinkUserClient` | `internal/server/client_manager.go:80-99` | takes the first occurrence off the list and drops an empty list |
| `TunnelServer.Splice` | `internal/server/client_manager.go:88-94` | the search loop and the splice drop the first occurrence |
| `TunnelServer.ClientManager.GetTunnelsByUserID` | `internal/server/client_manager.go:102-136` | the nested loops return, as a multiset, the tunnels of each listed connected client |
| `TunnelServer.ClientManager.GetAllTunnels` | `internal/server/client_manager.go:139-164` | the nested loops return each tunnel of each connected client once |
| `TunnelServer.ClientManager.CountTunnelsByUserID` | `internal/server/client_manager.go:214-233` | the loop adds up the tunnels of the listed connected clients |
| `TunnelServer.ClientManager.AdminCloseTunnel` | `internal/server/client_manager.go:167-183` | succeeds exactly when some connected client has the tunnel, and then does what that client's closeTunnel does; otherwise changes nothing |
| `TunnelServer.ClientManager.CloseTunnelByID` | `internal/server/client_manager.go:186-211` | succeeds exactly when a listed connected client of the user has the tunnel, and then closes it there; otherwise changes nothing |
| `TunnelServer.Client.CreateHTTPTunnel` | `internal/server/server.go:737-788` | takes the asked name in lower case or a random one; the whole server is then as after a successful opening, as after a refused one, or, when the token forbids the name, unchanged |
| `TunnelServer.Client.CreateSocketTunnel` | `internal/server/server.go:797-812` | adds one tunnel with a new number to the client's map and changes nothing else |
| `TunnelServer.Client.CloseTunnel` | `internal/server/server.go:885-907` | removes the tunnel with its route and buffer, or changes nothing when the client does not have it |
| `TunnelServer.Client.CloseTunnels` | `internal/server/server.go:971-990` | the loop empties the client's map and removes exactly its tunnels' routes and buffers |
| `TunnelServer.Client.Close` | `internal/server/server.go:967-1018` | the first call disconnects the client from all registries; later calls change nothing |
| `TunnelServer.Server.Connect` | `internal/server/auth_handler.go:238-275` | adds a client with a new number and no tunnels and links it to its user |
| `Routing.AdvertisedHostReachesTunnel` | `internal/server/http_router.go:87-132` | in every reachable state a request for the host advertised for a tunnel, with or without a port, reaches exactly that tunnel, whatever aliases and custom domains there are |
| `Routing.ClosedTunnelIsNotReached` | `internal/server/http_router.go:117-124` | after the tunnel is closed, or its client, the same request finds no tunnel |
| `Hosts.ExtractSubdomain` | `internal/server/http_router.go:345-369` | the loop gives the subdomain under the first domain that claims the host, in lower case, or nothing |
| `Hosts.EmptyIffUnclaimed` | `internal/server/http_router.go:358-368` | nothing comes out exactly when no domain of the server claims the host |
| `Hosts.ClaimsExactly` | `internal/server/http_router.go:358-366` | a domain claims exactly the hosts that are a name, a dot and the domain, where the name is neither empty nor "www" |
| `Hosts.FirstClaimDecides` | `internal/server/http_router.go:358-368` | the first domain that claims the host decides: the name before it comes out, in lower case |
| `Hosts.AdvertisedHostRoundTrip` | `internal/server/http_router.go:345-369` | the advertised host leads back to its subdomain exactly when that is not "www", does not start with "www." and, without a port, has no colon |
| `Hosts.AliasesDoNotInterfere` | `internal/server/http_router.go:354-366` | aliases never take such a host away from its subdomain |
| `Hosts.CustomDomainIsReached` | `internal/tls/verify.go:74-96` | every accepted domain without a colon, in any letter case and with or without a port, finds its cached entry, and falls through the subdomain search exactly when no alias claims it |
| `Hosts.ValidateExactly` | `internal/tls/verify.go:74-96` | accepted is exactly a name with a dot that is no IP address and neither the base domain nor localhost nor under one of them, in any letter case |
| `Hosts.BaseDoesNotClaim` | `internal/tls/verify.go:87-89` | the base domain claims no host that spells an accepted domain |
| `Hosts.AliasShadowsCustomDomain` | `internal/tls/verify.go:87-89` | an accepted domain directly under an alias is taken for a subdomain |
| `Hosts.CustomRequestsReachTheirTarget` | `internal/server/http_router.go:100-124` | a request for a verified custom domain goes to its target's tunnel |
| `Hosts.UnverifiedIsNotRouted` | `internal/server/http_router.go:100-124` | a request for an accepted custom domain that is not verified, or was removed, finds no tunnel |
| `Hosts.RequestsReachTheirTunnel` | `internal/server/http_router.go:100-124` | a request for an advertised host goes to the tunnel registered under its name, whatever the cache holds |
| `Hosts.DomainCache.Route` | `internal/server/http_router.go:99-124` | the routing part of ServeHTTP: subdomain first, then a verified custom domain, then the router |
| `Hosts.DomainCache.LookupCustomDomain` | `internal/server/server.go:238-246` | looks the host up in lower case and without its port |
| `Hosts.DomainCache.AddCustomDomain` | `internal/server/server.go:249-253` | files exactly that domain, in lower case |
| `Hosts.DomainCache.RemoveCustomDomain` | `internal/server/server.go:256-260` | removes exactly that domain |
| `RingBuffers.RingBuffer.Add` | `internal/inspect/buffer.go:27-47` | the array, write index and count keep holding the last `capacity` items added since Clear; indices stay in range |
| `RingBuffers.RingBuffer.List` | `internal/inspect/buffer.go:50-70` | the index loop returns as many of the kept items after the offset as the limit allows, and the i-th of them is the i-th newest after the offset |
| `RingBuffers.RingBuffer.Get` | `internal/inspect/buffer.go:73-84` | returns the newest kept item with the id, or nothing exactly when there is none |
| `RingBuffers.RingBuffer.Len` | `internal/inspect/buffer.go:87-91` | the number of kept items |
| `RingBuffers.RingBuffer.Clear` | `internal/inspect/buffer.go:94-102` | empties every slot and starts over |
| `RingBuffers.RingBuffer.Close` | `internal/inspect/buffer.go:135-144` | marks the buffer closed and leaves its items |
| `RingBuffers.PagesJoin` | `internal/inspect/buffer.go:50-70` | two consecutive pages are one longer page |
| `RingBuffers.AddShifts` | `internal/inspect/buffer.go:27-33` | adding puts the item in front and, at capacity, pushes the oldest one out |
| `RingBuffers.SlotByRemainder` | `internal/inspect/buffer.go:66-66` | the remainders in List and Get are the slot of the j-th newest item |
| `Framing.Codec.EncodeBytes` | `internal/protocol/codec.go:139-164` | writes the length, most significant byte first, and the payload, whatever the pooled buffer held, exactly when the payload is at most 1 MiB and the connection takes it all; refuses exactly larger payloads and then writes nothing |
| `Framing.Codec.DecodeRaw` | `internal/protocol/codec.go:111-125` | takes one frame off a reader that delivers arbitrary chunks, with the error that the bytes call for |
| `Framing.Codec.ReadMessages` | `internal/server/server.go:643-671` | the message loop receives every payload up to the first error |
| `Framing.FrameRoundTrip` | `internal/protocol/codec.go:74-108` | one frame is read back whole and nothing after it is touched |
| `Framing.FramesRoundTrip` | `internal/protocol/codec.go:111-164` | any list of payloads of at most 1 MiB comes back as it was sent, with nothing left over |
| `Framing.FrameLayout` | `internal/protocol/codec.go:139-164` | a frame is four bytes that spell the payload's length, most significant first, and the payload |
| `Framing.OversizedIsRefused` | `internal/protocol/codec.go:111-125` | exactly a spelled length over 1 MiB is refused as too large, and nothing after the four bytes is read |
| `Framing.ReceivedWasFramed` | `internal/protocol/codec.go:111-125` | every accepted message was one frame of at most 1 MiB |
| `Framing.CutStreamDeliversPrefix` | `internal/protocol/codec.go:111-125` | a stream cut at any byte delivers exactly the messages complete by then; the error is a clean end exactly when the cut falls between frames |
| `Streams.ReadFull` | `internal/protocol/codec.go:77-79` | fills the buffer with the next bytes whatever chunks come, and tells an empty stream from a cut one |
| `Streams.NumberOfBigEndian` | `internal/protocol/codec.go:157-157` | the length prefix is read back as it was written |
| `StreamHeader.WriteStreamHeader` | `internal/protocol/stream_header.go:18-36` | refuses exactly texts over 255 bytes, the tunnel number first, with the error of the text at fault; otherwise writes both with their lengths, and succeeds exactly when the connection takes them all |
| `StreamHeader.ReadStreamHeader` | `internal/protocol/stream_header.go:39-70` | reads one header off a reader that delivers arbitrary chunks |
| `StreamHeader.ReadField` | `internal/protocol/stream_header.go:42-52` | reads one length and that many bytes, or fails |
| `StreamHeader.HeaderRoundTrip` | `internal/protocol/stream_header.go:18-70` | a header is read back whole and leaves exactly what follows it |
| `StreamHeader.EncodedLayout` | `internal/protocol/stream_header.go:28-32` | a header is one byte of length and the tunnel number, then one byte of length and the address |
| `StreamHeader.NoProperPrefix` | `internal/protocol/stream_header.go:28-32` | no header encoding is a proper prefix of another |
| `StreamHeader.DecodedWasEncoded` | `internal/protocol/stream_header.go:39-70` | whatever is accepted was an encoding of the header that comes out |
| `StreamHeader.CutHeaderIsBroken` | `internal/protocol/stream_header.go:39-70` | a stream cut inside a header is an error |
| `UdpTable.ReplyGoesToLatest` | `internal/server/udp_manager.go:195-203` | for every history of packets and evictions: a reply goes to the latest address of the sender of the most recent packet with its hash, unless an eviction since found that sender silent for over 60 seconds; otherwise it is dropped |
| `UdpTable.ReplyGoesToItsHash` | `internal/server/udp_manager.go:140-149` | when every sender keeps to one form of its address, a reply is dropped or goes to the address of the most recent packet with its hash, which has that hash |
| `UdpTable.SameLengthIsOneForm` | `internal/server/udp_manager.go:139-140` | sockets that report all addresses in the same length keep to one form |
| `UdpTable.TablesHaveSameKeys` | `internal/server/udp_manager.go:106-112` | the address and last-seen tables always have the same keys |
| `UdpTable.EvictionOnlyDrops` | `internal/server/udp_manager.go:100-115` | evictions at any times only turn deliveries into drops |
| `UdpTable.MixedFormsMissTheHash` | `internal/server/udp_manager.go:209-217` | why the address form matters: the two forms of every IPv4 address have the same key and different hashes, and no single socket sends both |
| `UdpTable.TunnelReply` | `internal/server/udp_manager.go:131-207` | on a tunnel, whose socket reports addresses of one length, a reply is delivered exactly when some packet had its hash and its sender was not evicted since, and then to the sender of the last packet with that hash |
| `UdpTable.HashAddr` | `internal/server/udp_manager.go:209-217` | the loop computes bytes[0] * 31^n + ... + bytes[n-1] * 31 + port, in 32 bits |
| `UdpTable.PortsDiffer` | `internal/server/udp_manager.go:209-217` | two addresses with the same IP address have the same hash exactly when they have the same port |
| `UdpTable.NeighboursKeepTheirReplies` | `internal/server/udp_manager.go:195-217` | for every history of a tunnel's socket: a reply to one of two senders behind one IP address never goes to the other |
| `UdpTable.ReplyTable.Receive` | `internal/server/udp_manager.go:138-147` | records the packet in the three tables |
| `UdpTable.ReplyTable.EvictStale` | `internal/server/udp_manager.go:104-114` | the loop removes exactly the senders last seen over 60 seconds ago from the two tables |
| `UdpTable.ReplyTable.Lookup` | `internal/server/udp_manager.go:195-199` | looks the hash up, then the key |
| `RoundRobin.StreamPool.OpenStreamRoundRobin` | `internal/server/stream_pool.go:25-42` | advances the counter by one modulo 2^32 and takes the session of the first round that can open a stream; when no round can, the primary one, if that can; else none |
| `RoundRobin.CoverageIffEven` | `internal/server/stream_pool.go:31-39` | for every counter value all n sessions are tried exactly when n divides 2^32 or the rounds do not cross the wrap |
| `RoundRobin.EvenTriesEachOnce` | `internal/server/stream_pool.go:31-39` | such a call tries every session exactly once |
| `RoundRobin.UnevenSkips` | `internal/server/stream_pool.go:31-39` | any other call leaves out the session named by Skipped, which is never the primary one |
| `RoundRobin.StreamWheneverPossible` | `internal/server/stream_pool.go:31-41` | a stream is returned whenever some session can open one exactly for those calls; the last resort does not help |
| `RoundRobin.SixteenSessionsAreCovered` | `internal/client/client.go:55-56` | the usual 1 + 15 sessions are always covered |
| `RoundRobin.TurnsAreFairIff` | `internal/server/stream_pool.go:25-42` | while all n sessions work, n calls in a row give one stream of every session exactly when a call in the place of the first is even |
| `BillingInvariants.AutopaymentsAreSpaced` | `internal/scheduler/scheduler.go:179-350` | over every run two autopayments settled for one subscription are at least 28 * 24 * 3600 - 3600 seconds apart, whatever webhooks, plan changes, cancellations, extensions and restarts happen between them |
| `BillingInvariants.PaymentsAreSafe` | `internal/database/payment_repo.go:112-123` | in every reachable state a subscription has at most one pending payment, its payments belong to its user, and invoice numbers are unique among the payments there are |
| `BillingInvariants.PeriodsAreSound` | `internal/api/handlers_payment.go:402-415` | in every reachable state a period's start and end are set together and in order, an active subscription has a period, and it reaches 28 days past every renewal settled for it |
| `BillingEffects.TablesFromHistory` | `internal/scheduler/scheduler.go:131-435` | over every run: each user's plan, each subscription and each payment is exactly what the last step that wrote it wrote, unless a later step deleted it; what every kind of step writes and deletes is spelled out field by field (`Writes`, `Deletes`) |
| `BillingEffects.ItemAfterStep` | `internal/api/handlers_admin.go:756-866` | the same for one step of any kind from any state that satisfies the invariant |
| `BillingEffects.ExpiryDowngrades` | `internal/scheduler/scheduler.go:139-160` | a row of the expiry loop that is not active and recurring: its subscription is expired and its owner is on the default plan; every other user keeps the plan and every other subscription is as before |
| `BillingEffects.PaymentsLeaveIff` | `internal/database/payment_repo.go:183-207` | in every reachable state, for every step: a payment is removed exactly when its user is deleted or a cleanup finds it pending and created before a cutoff at least 24 hours back |
| `BillingEffects.SettledStaysIff` | `internal/scheduler/scheduler.go:250-296` | over every run: a paid or failed payment stays in the table as such exactly when its user is not deleted and the scheduler does not store it as pending again |
| `BillingEffects.PaidIsReopened` | `internal/scheduler/scheduler.go:250-285` | from any state in which an autopayment is being charged: the webhook settles it, the provider's answer is not yet a success, and it is pending again |
| `BillingEffects.ClockAndLog` | `internal/scheduler/scheduler.go:300-322` | the log has exactly the autopayments that succeeded, with their times |
| `BillingEffects.ChecksInOrder` | `internal/scheduler/scheduler.go:111-128` | the loops of a check come one after another, each over the rows it read, one by one; the provider is called exactly for a recurring row with a card, a priced plan and no pending payment; the cutoff is 24 hours back |
| `BillingEffects.RowsAreDue` | `internal/database/subscription_repo.go:107-150` | what the loops read, unless a read fails: exactly the active subscriptions past their end; the active recurring ones ending within 3600 seconds; those with a plan change past their end |
| `BillingEffects.LatestIsNewest` | `internal/database/subscription_repo.go:61-79` | a handler acts on a newest active or cancelled subscription of the user, and on none exactly when there is none |
| `BillingEffects.InvoiceIsNext` | `internal/database/payment_repo.go:151-164` | a new payment's number is one more than the greatest in use, or 100001 |
| `BillingInvariants.RunKeeps` | `internal/scheduler/scheduler.go:111-128` | every run keeps the invariant, with the scheduler working from rows that may be stale |
| `BillingInvariants.StepKeeps` | `internal/api/handlers_admin.go:756-853` | every single step keeps it |
| `BillingInvariants.SettleKeeps` | `internal/scheduler/scheduler.go:324-350` | settling an autopayment from a stale row keeps it |
| `BillingInvariants.RenewKeeps` | `internal/scheduler/scheduler.go:190-253` | charging a stale row keeps it |
| `BillingInvariants.CheckoutKeeps` | `internal/api/handlers_payment.go:130-182` | a checkout keeps it |
| `BillingInvariants.PaymentSucceededKeeps` | `internal/api/handlers_payment.go:366-429` | a successful payment keeps it |
| `BillingInvariants.StartCleaningKeeps` | `internal/database/payment_repo.go:187-196` | deleting stale pending subscriptions keeps it |
| `BillingInvariants.FinishCleaningKeeps` | `internal/database/payment_repo.go:198-206` | deleting stale pending payments keeps it, with anything happening in between |
| `BillingCalls.CleanupIsExact` | `internal/database/payment_repo.go:183-207` | an undisturbed cleanup keeps a payment exactly when it is not pending or at most 24 hours old, unchanged in status, number and user; it deletes exactly the pending subscriptions of the payments it deletes and changes no other |
| `BillingInvoices.CleanupReusesNumbersIff` | `internal/database/payment_repo.go:151-207` | in every reachable state the next invoice number after a cleanup is above every number there was exactly when the payment with the greatest number is not pending or at most 24 hours old |
| `BillingInvoices.StepEvolves` | `internal/database/payment_repo.go:151-207` | for every step: a payment keeps its number and user until a cleanup finds it stale or its user is deleted; a new one gets the next number, and then none is removed |
| `BillingInvoices.NumberFallsIffTopRemoved` | `internal/database/payment_repo.go:151-164` | in every reachable state, for every step: the next number falls to or below one in use exactly when the step deletes the payment with the greatest number, as stale or with its user |
| `BillingInvoices.NumberGivenTwiceIff` | `internal/database/payment_repo.go:151-164` | over every run: some number is given to two payments exactly when a step deletes the payment with the greatest number and a later step makes a payment |
| `BillingInvoices.WebhookMeetsAnotherIff` | `internal/api/handlers_payment.go:359-373` | over every run: a webhook that looks its payment up by number can, at some later time of the run, meet another payment exactly when a step deletes the payment with the greatest number and a later step makes a payment |
| `BillingInvoices.GivenIsMade` | `internal/api/handlers_payment.go:138-182` | every payment made along a run is in the table just after the step that makes it, with its number |
| `BillingStatus.SecondActiveIff` | `internal/api/handlers_payment.go:130-182` | a step gives a user a second active subscription exactly when it activates one beside an active one |
| `BillingStatus.OneActiveIff` | `internal/api/handlers_payment.go:366-429` | over every run: a user never has two active subscriptions exactly when no step does that |
| `BillingStatus.TwoActiveArePossible` | `internal/api/handlers_payment.go:130-182` | a run in which a user who orders twice before paying has two |
| `BillingStatus.CancelledIsNeverExpired` | `internal/database/subscription_repo.go:123-135` | over every run, once no row read before is left in the scheduler: a cancelled subscription stays cancelled, however far its period is over, exactly until a payment or an extension revives it or its user is deleted |
| `BillingStatus.PlanChangesAreDue` | `internal/scheduler/scheduler.go:376-404` | in every reachable state a plan change is applied only when the period that was read is over and each autopayment settled for it is 28 days old; the period is over after it too, so an extension that came after the read is lost |
| `BillingRaces.ChangeIsUndoneIff` | `internal/scheduler/scheduler.go:139-159` | in every reachable state, for every later run in which no call changes a subscription: the scheduler undoes what is stored for it exactly when it holds a row of it that was read before and the round of that row reaches its write |
| `BillingRaces.UndoneMeans` | `internal/scheduler/scheduler.go:324-350` | what is left then: a renewal makes the subscription active again, the other loops store the period that was read, and the expiry loop ends it |
| `BillingRaces.CancellationIsUndone` | `internal/scheduler/scheduler.go:250-350` | a run in which a subscription that is cancelled while its renewal is charged is active again after it |
| `BillingCalls.LatePaymentPaysForAnother` | `internal/api/handlers_payment.go:345-373` | a run in which a lapsed checkout's number goes to another user's checkout, and the webhook found by that number pays for the other user |
| `BillingService.Service.GetByUserID` | `internal/database/subscription_repo.go:61-79` | a newest active or cancelled subscription of the user, or none exactly when there is none |
| `BillingService.Service.GetNextInvoiceID` | `internal/database/payment_repo.go:151-164` | one more than the greatest number in use, or 100001 |
| `BillingService.Service.GetByInvoiceID` | `internal/database/payment_repo.go:57-71` | a payment with the invoice number, or none exactly when there is none |
| `BillingService.Service.HasPendingPayment` | `internal/database/payment_repo.go:112-123` | whether the subscription has a pending payment |
| `BillingService.Service.Select` | `internal/database/subscription_repo.go:107-150` | every row that satisfies the condition, once, and no other |
| `BillingService.Service.HandleCheckout` | `internal/api/handlers_payment.go:125-182` | is the machine's checkout step, with the latest subscription and the next invoice number |
| `BillingService.Service.HandlePaymentSucceeded` | `internal/api/handlers_payment.go:359-429` | finds the payment by its invoice number and is the machine's success step for it |
| `BillingService.Service.HandlePaymentCanceled` | `internal/api/handlers_payment.go:475-499` | finds the payment by its invoice number and is the machine's failure step for it |
| `BillingService.Service.HandleCancelSubscription` | `internal/api/handlers_payment.go:531-558` | is the machine's cancellation step |
| `BillingService.Service.HandleChangePlan` | `internal/api/handlers_payment.go:586-632` | is the machine's plan-change step |
| `BillingService.Service.HandleAdminCancel` | `internal/api/handlers_admin.go:769-792` | is the machine's administrative cancellation |
| `BillingService.Service.HandleAdminExtend` | `internal/api/handlers_admin.go:826-866` | is the machine's extension step |
| `BillingService.Service.ExpireOne` | `internal/scheduler/scheduler.go:139-159` | one round of the expiry loop is a machine step; when the row is not recurring its subscription, if there still, is expired and its owner, if there still, is on the default plan, if there is one; everything else in the two tables is as before |
| `BillingService.Service.RenewOne` | `internal/scheduler/scheduler.go:190-248` | one round of the renewal loop up to the provider call is a machine step |
| `BillingService.Service.SettleOne` | `internal/scheduler/scheduler.go:250-350` | the rest of the round is a machine step |
| `BillingService.Service.RenewAndSettle` | `internal/scheduler/scheduler.go:190-296` | a whole round is a run of one or two machine steps, with the price of the row's plan and, when the provider is called, the provider's answer for that payment |
| `BillingService.Service.GetExpired` | `internal/database/subscription_repo.go:123-135` | reads the active subscriptions whose period has ended, each once, as the machine step does |
| `BillingService.Service.GetExpiring` | `internal/database/subscription_repo.go:107-120` | reads the active recurring subscriptions whose period ends within the hour, each once |
| `BillingService.Service.GetWithPendingPlanChange` | `internal/database/subscription_repo.go:138-150` | reads the subscriptions with a plan change whose period has ended, each once |
| `BillingService.Service.DeleteStaleSubscriptions` | `internal/database/payment_repo.go:186-196` | deletes the pending subscriptions of stale pending payments |
| `BillingService.Service.DeleteStalePayments` | `internal/database/payment_repo.go:198-206` | deletes the stale pending payments |
| `BillingService.Service.ChangeOne` | `internal/scheduler/scheduler.go:383-418` | one round of the plan-change loop is a machine step |
| `BillingService.Service.ProcessExpiredSubscriptions` | `internal/scheduler/scheduler.go:131-176` | the whole loop is a run of the machine; after it the owner of every non-recurring row that was read is on the default plan, if there is one, and the row's subscription is expired; every other user keeps the plan and every other subscription is as before |
| `BillingService.Service.ProcessRecurringRenewals` | `internal/scheduler/scheduler.go:179-297` | the whole loop is a run of the machine that reads every row that is due, prices each by its plan and settles each charge by the provider's answer, whatever prices and answers there are; without a provider nothing is read |
| `BillingService.Service.ApplyPlanChanges` | `internal/scheduler/scheduler.go:376-435` | the whole loop is a run of the machine that reads every row that is due and applies the change exactly when the new plan is found |
| `BillingService.Service.CleanupStalePendingPayments` | `internal/scheduler/scheduler.go:509-519` | the cleanup is the machine's two cleanup steps |
| `BillingService.Service.RunChecks` | `internal/scheduler/scheduler.go:111-128` | an hourly check is a run of the machine from rest to rest, from reading every expired subscription to the end of the cleanup; every read is complete and every outside answer is used; it keeps the invariant |
| `Lww.JoinAllPicksNewest` | `internal/database/user_bundle_repo.go:278-286` | the merge keeps, for each key, one of the candidates, and none is newer |
| `Lww.JoinAllConverges` | `internal/database/user_bundle_repo.go:258-291` | any order and repetition of the same entries merges to the same table when equal stamps mean equal values |
| `Lww.JoinAllConcat` | `internal/database/user_bundle_repo.go:258-291` | two merges in a row are one merge of both |
| `Sync.StampedMergeIsJoin` | `internal/database/user_bundle_repo.go:258-385` | on stamped bundles SyncBulk is the last-writer-wins merge of content and stamp, whatever the clock says |
| `Sync.MergeAllConcat` | `internal/database/user_bundle_repo.go:258-291` | batching does not matter |
| `Sync.BundlesConverge` | `internal/database/user_bundle_repo.go:258-291` | stamped bundles in any order, repetition and batching leave the same type, ports, subdomain, auto-connect flag and stamp |
| `Sync.FirstInsertKept` | `internal/database/user_bundle_repo.go:366-385` | id and creation time stay those of the first insertion and stamps never go back |
| `Sync.FirstArrivalMakesRow` | `internal/database/user_bundle_repo.go:332-364` | the first bundle of a name makes its row, with the clock for a zero time |
| `Sync.IdsStayDifferent` | `internal/database/user_bundle_repo.go:332-364` | row numbers are never given twice, and each new row takes one |
| `Sync.ConvergesIffSettled` | `internal/database/user_bundle_repo.go:332-364` | with unstamped bundles allowed, all orders, repetitions and courses of the clock agree exactly when every name passes the test Settled, which does not depend on the clock |
| `Sync.UnstampedOrderMatters` | `internal/database/user_bundle_repo.go:332-345` | a zero stamp becomes the clock on insertion only, so two orders can end differently |
| `Sync.BundleRepository.SyncBulk` | `internal/database/user_bundle_repo.go:258-291` | the loop over the table is the merge of the list |
| `Sync.SettingsRequestIsJoin` | `internal/database/user_settings_repo.go:157-204` | one settings request with distinct keys is the last-writer-wins merge |
| `Sync.SettingsConverge` | `internal/database/user_settings_repo.go:157-204` | settings converge however the same entries are ordered, repeated and cut into such requests |
| `Sync.RequestsAreJoin` | `internal/database/user_settings_repo.go:157-204` | a series of such requests is one merge |
| `Sync.RequestIsJoinIff` | `internal/database/user_settings_repo.go:157-204` | one settings request, keys repeated or not, is the last-writer-wins merge exactly when for every key the last entry newer than the row has the version of the first of the newest |
| `Sync.RequestKeepsLast` | `internal/database/user_settings_repo.go:187-195` | what a request leaves for a key: its last entry that is newer than the row |
| `Sync.MergeKeepsNewest` | `internal/database/user_settings_repo.go:187-195` | what the merge leaves for a key: the first of its newest entries, if newer than the row |
| `Sync.RepeatedSettingLosesNewest` | `internal/database/user_settings_repo.go:187-195` | an instance: a repeated key is compared with the old row only, so its last value wins |
| `Sync.SettingsRepository.SyncBulk` | `internal/database/user_settings_repo.go:157-204` | the snapshot and the loop are the upserts of the list |
| `Migrations.MigrationsRunOnceInOrder` | `internal/database/database.go:103-191` | from an empty database, over any number of starts cut off anywhere and with any failing migrations: the recorded versions are 1..k, each ran exactly once in order, and the bootstrap is never taken |
| `Migrations.FullStartCatchesUp` | `internal/database/database.go:157-187` | a start that is not cut off and meets no failing migration brings the database up to its list |
| `Migrations.CutBootstrapRepeats` | `internal/database/database.go:145-154` | for an untracked database: an undisturbed start after one cut at row i of n runs migrations i + 1..m again, up to the first that cannot be run twice; nothing exactly when i is 0 or n or migration i + 1 cannot |
| `Migrations.StuckForGood` | `internal/database/database.go:157-187` | no later start gets past a migration that keeps failing |
| `Migrations.CutBootstrapIsFinal` | `internal/database/database.go:340-530` | for the shipped list a cut at any row 0 < i < 26 is final: over any later starts migration 26 is never recorded |
| `Migrations.UntrackedRunsTheRest` | `internal/database/database.go:145-187` | over any number of starts of an untracked database, cut off anywhere and with any failing migrations: the recorded versions are 1..k, and those after the rows of the bootstrap have run, once each and in order |
| `Migrations.RecordedHasRunIff` | `internal/database/database.go:145-154` | for an untracked database of any age: a recorded version has run exactly when its schema already had it or it is above the rows of the bootstrap; so all have exactly when the schema had every version recorded unseen |
| `Migrations.Database.Migrate` | `internal/database/database.go:103-191` | the two loops over a database that may be cut off after any write |
| `Migrations.MigratedInOrder` | `internal/database/database.go:157-187` | a start carries on after the last committed migration |
| `OneTimeStore.AnswerFromHistory` | `internal/api/oauth_store.go:74-88` | a token is given out exactly when the last event of its nonce is its creation, at most the life time ago, and with what was stored then |
| `OneTimeStore.GivenOutOnce` | `internal/api/oauth_store.go:110-124` | with fresh nonces each state or code is given out at most once, only within its life time and with exactly the stored entry |
| `OneTimeStore.FirstUseSucceeds` | `internal/api/oauth_store.go:74-88` | the first use within the life time succeeds |
| `OneTimeStore.CleanupIsInvisible` | `internal/api/oauth_store.go:127-151` | the answers are those of a store that never cleans |
| `OneTimeStore.OAuthStore.CreateState` | `internal/api/oauth_store.go:59-71` | records the creation of a state in the table |
| `OneTimeStore.OAuthStore.ConsumeState` | `internal/api/oauth_store.go:74-88` | gives the stored entry out exactly when it is at most 600 seconds old, and removes the nonce in any case |
| `OneTimeStore.OAuthStore.CreateCode` | `internal/api/oauth_store.go:91-107` | records the creation of a code in the table |
| `OneTimeStore.OAuthStore.ExchangeCode` | `internal/api/oauth_store.go:110-124` | gives the stored entry out exactly when it is at most 120 seconds old, and removes the nonce in any case |
| `OneTimeStore.OAuthStore.CleanupTick` | `internal/api/oauth_store.go:133-146` | one tick leaves exactly the states of at most 1200 and the codes of at most 240 seconds |
| `OneTimeStore.Sweep` | `internal/api/oauth_store.go:136-140` | the loop leaves exactly the entries of at most twice the life time, unchanged |

## Left out

- Foreign parts: sockets, yamux, zstd, TLS and ACME, SMTP, the payment provider's and the OAuth providers' HTTP calls. Their outcomes are arbitrary parameters or choices.
- JSON, the SQL engine, password hashing: payloads are byte sequences, tables are maps. A single database write that fails, other than on a foreign key, is not modelled, nor is a failing count query at the start of the migrations.
- The graphical and web clients, the command line, configuration, metrics, logging, audit logs, response bodies and the limited writer of captured bodies.
- RegistryLimits.PlanLimitHolds: the count of a user's tunnels is one atomic read; the source locks the clients one after another. The slice that `unlinkUserClient` shifts in place while a reader still holds its header is not modelled either.
- RegistryRuns.RoutesHaveOneOwner: numbers from the connection counter are unbounded; the wrap-around of the 64-bit counter is not modelled. The existence test of an administrative close is left out, which only allows more interleavings.
- RegistryRuns.BuffersHaveOneOwner: the inspect manager's own Close, which empties both of its tables at the end of a shutdown (internal/server/server.go:434), is not a step; creations that are unfinished then would find their buffers gone.
- RegistryRuns.GrantsMatchReleases: why an accept or packet loop ends (closed listener, cancelled client, ten temporary errors) is left open: it may end at any step.
- Sessions.CloseLeavesNothing: holds with handlers atomic; under interleaving a creation between its registration and its map insertion outlives Close, which `RegistryRuns.RoutesHaveOneOwner` covers as an unfinished owner.
- TunnelServer.Client.CreateHTTPTunnel: for a connected client; the one message a loop can still handle after its client was closed is in `Registry`.
- TunnelServer.Client.CreateSocketTunnel: the port is taken in `Ports`; the listener and the accept loop are in `Registry`.
- Hosts.AdvertisedHostRoundTrip: text is ASCII, so case folding is that of ASCII letters; the configured base domain has no colon.
- RingBuffers.RingBuffer.Close: only the flag is modelled; subscribers and their channels are left out.
- RingBuffers.RingBuffer.Add: sending to subscribers is left out; capacity is at least 1, offsets and limits are not negative.
- Framing.Codec.DecodeRaw: the frame only; decoding its JSON is left out. `Encode` and `Decode` share the same framing and differ in the JSON step.
- UDP frames between server and client: the two sides use headers of different sizes, so there is no round trip to prove; the datagrams' contents are not modelled.
- RoundRobin.StreamPool.OpenStreamRoundRobin: whether a session can open a stream is fixed during one call; the pool of streams opened in advance is left out.
- Billing: a month is any length from 28 to 31 days in a zone without clock changes; handlers are atomic, the scheduler is not. That a user has one active subscription and that cancelled subscriptions are downgraded are promises the code does not keep; `BillingStatus` says exactly when. Merging users is left out.
- Sync.BundlesConverge: bundles are not deleted (there are no tombstones) and no stamp lies before the zero time.
- The device-login store, backup codes, wildcard matching, version comparison, backoff and client reconnects.
- Client-side code apart from the number of its data connections.
