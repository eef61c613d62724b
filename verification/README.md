# Verified model of the libbitdht DHT and the RetroShare chat-lobby gossip

This project models, in Dafny, the distributed parts of RetroShare: the three-party connection handshake
between a source, a proxy and a destination; the requests that work through a list of proxies; the flooding
of chat-lobby messages among friends; the Kademlia routing table; the iterative query; and the bencoded
messages that carry all this. Each class in the model updates its fields where the program updates its own,
and is proved against functions on the whole state of the object. The main results are lemmas about those
functions: over every run of a network of nodes, over every sequence of operations, for every tree or message.

## Layout

- `Collections`: an optional value and the size of a subset, which all parts use.
- `Ids`: node ids, the byte-wise order, the XOR metric, buckets, disguised targets.
- `ConnectTypes`, `ConnectSpec`, `ConnectManager`: records and messages of the handshake, what each operation does
  to a node, and the class that does it in place.
- `Handshake`, `HandshakeRuns`: the invariant of the protocol and safety over whole runs of a network.
- `HandshakeSteps`, `CompleteHandshake`: what each message, decision and timer visit does, field by field, and a run in
  which the handshake succeeds.
- `Refusals`, `RequestEnds`: refusals on their way to the source, what they mean for the request there, and when a
  request has ended for good.
- `ConnectionTable`, `StartPackets`: the life of a table entry, the ids it is filed under, and the START packets it
  causes.
- `RequestSteps`, `RequestRuns`, `AttemptBound`, `OverloadRuns`: what happens to a request, how many attempts it can
  make in any run of the network, and runs that make that many.
- `LobbySpec`, `LobbyService`, `LobbyEffects`, `LobbyRuns`, `Flooding`: one lobby service, what an object does to it,
  its runs, and a network of them.
- `Ordered`, `RoutingSpec`, `RoutingInvariant`, `RoutingSearch`, `RoutingScan`, `NetworkSize`, `RoutingTable`: the
  routing table.
- `QuerySpec`, `QueryInvariant`, `ProxyLists`, `IterativeQuery`, `QueryAnswers`, `QueryPeers`, `QueryStart`: one
  iterative query.
- `Bencode`, `BencodeGrammar`, `BencodeRoundTrip`, `BencodeReader`, `BencodeWriter`: the codec.
- `Messages`, `MessageRoundTrip`, `MessageBuilders`, `PacketSizes`, `DhtNode`: the messages, how they are put
  together and read, and the node that answers searches.

## How the system is modelled

- Time is a parameter of every operation. The safety of the handshake and the bound on attempts hold for any clock
  readings; where lifetimes and windows are at stake, and in the runs that reach a bound, time does not go back. The
  lobby network has one clock.
- The network of the handshake never forgets a packet: any packet that any node ever sent may be delivered, any
  number of times and in any order. Loss, duplication and reordering are therefore included. A packet arrives at
  the node whose id it is addressed to and carries the id of its real sender; its address may be any.
- The upper layer answers an authorisation request with the mode and point it was asked about, and a look-up in the
  routing table finds entries of the id asked for. The theorems about the handshake ask in addition that no node uses
  itself as its proxy (`HandshakeRuns.ProxiesAreOthers`).
- The relay mode is an arbitrary start value of the manager, because the program's constructor leaves it unset.
- The order in which a map is walked is a parameter of the operation. Entries of the connection table are values,
  as they are stored by value in the program.
- Signatures, reputation, random numbers and the lists of proxies gathered from queries are arbitrary inputs.
- Flags and status words are 32-bit vectors, ids and addresses are bytes, and sums that the program computes in
  64-bit words are variables of a type that holds no more.
- Numbers that the program compares as unsigned words are compared as numbers; limits computed in floating point are
  real numbers.

## Where the code differs from what one would expect

- A request with m proxies ever inserted makes at most 3m + 2f + 1 attempts, where f attempts to the same target were
  still open when it was made (`AttemptBound.AttemptsBounded`). The f is needed: an upcall finds the request by its
  target only, so the late refusal of an attempt that an earlier, cancelled request made is charged to the new one,
  which then recycles more proxies than it makes attempts (`OverloadRuns.EarlierAttemptCounts`: 6 attempts and 7
  recyclings with m = 1, f = 1). With f = 0, which can be checked before asking, the bound is 3m + 1, and overloaded
  relays reach it (`OverloadRuns.BoundIsReached`).
- A request that has ended is brought back by the late failure of an attempt that is still open, because the failure
  decides its state anew. That can happen exactly as long as an attempt is open (`RequestEnds.RevivedExactly`), and a
  request that its user has cancelled then tries again (`OverloadRuns.CancelledTriesAgain`). Without an open attempt a
  target stays at rest until the user asks for it again (`RequestEnds.StaysAtRest`).
- A failed attempt is noted under the proxy that the request is asking at the moment, which need not be the one that
  has failed (`Refusals.FailureExactly`).
- The closest list of a query turns a message away before it looks whether the peer is listed: if fifteen peers are
  listed, none of them overdue and none farther than the sender, even the answer of a listed peer is lost
  (libbitdht/src/bitdht/bdquery.cc:320-332; `QueryAnswers.AnswerIsRecorded`, `QueryAnswers.AnswerIsLost`).
- A query whose target has answered ends in success only if the entry of the target at the head of the list has
  answered and stays. It stays exactly until it is asked again and is overdue then; another address of the target that
  was listed earlier hides it (`QueryAnswers.AnsweredTargetSucceeds`, `QueryAnswers.AskedAgainIsLost`,
  `QueryAnswers.OtherAddressHides`).
- A numeral without digits is read as 0, so `ie` is the number 0 and a lone colon is an empty key
  (`BencodeGrammar.DecodesGrammar`).
- A direct connection is filed under its peer on either side: the consent to it is looked up with the source in the
  place of the proxy (`Handshake.Consent`).
- A temporarily unavailable answer falls through to the case of a duplicate and ends a request from any source
  (libbitdht/src/bitdht/bdconnection.cc:1286-1320).
- The ids stored in the entry of a request do not always agree with the key it is filed under;
  `ConnectionTable.RequestIds` gives the exact condition for all modes. They disagree for a direct request from another
  peer than the source it names, for a proxied request that reaches the destination straight from its source, and for
  a proxied request from a third party to a node that is neither end (`ConnectionTable.DirectFromAnother`,
  `ConnectionTable.ProxiedWithoutProxy`, `ConnectionTable.ProxiedToBystander`).
- A lobby message that is used more than 100 seconds before its own send time can be used again after its record
  has expired; `LobbyRuns.UsedTwiceExactly` says that this is the only way.
- The limit of the flood check is computed from a product that wraps at 32 bits.
- An id is taken for the target of a query, when proxies are looked for, if it falls into bucket 0; that bucket holds
  the target and the one id at distance 1, although the comment asks for an exact match
  (libbitdht/src/bitdht/bdquery.cc:810-816; `Ids.TakenForTarget`).
- The estimate of the network size is cut to 32 bits on return (libbitdht/src/bitdht/bdpeer.cc:1091-1100).
- A malformed string decodes to a node without a string. Such a node encodes as an empty string, and a key is cut at
  its first NUL; `BencodeRoundTrip.RoundTrip` states that these are the only trees that do not come back.
- The write token of a reply or an announcement has to be present but is never read: the transaction id is read a
  second time in its place (libbitdht/src/bitdht/bdnode.cc:1419-1422). So exactly the messages without a write token
  are determined by what is received (`MessageRoundTrip.ReceivedDetermines`), although the token can be read back from
  the tree (`MessageRoundTrip.TokenBackInTree`).

## Model

| member | source | states |
|---|---|---|
| Ids.LessThan | libbitdht/src/bitdht/bdpeer.cc:83-112 | the byte loop decides the lexicographic order |
| Ids.LessIsNumeric | libbitdht/src/bitdht/bdpeer.cc:83-112 | that order is the order of the ids as numbers, and equality is equality of the numbers |
| Ids.LessIsStrictTotal | libbitdht/src/bitdht/bdpeer.cc:83-168 | the order on ids is irreflexive, transitive, asymmetric and total |
| Ids.Distance | libbitdht/src/bitdht/bdstddht.cc:105-115 | the loop fills the array with the XOR of the two ids |
| Ids.DistIdentity | libbitdht/src/bitdht/bdstddht.cc:105-115 | distance is symmetric, and zero exactly between equal ids |
| Ids.Triangle | libbitdht/src/bitdht/bdstddht.cc:105-115 | the distance as a number obeys the triangle inequality |
| Ids.DistInjective | libbitdht/src/bitdht/bdstddht.cc:105-115 | seen from one target, different ids are at different distances |
| Ids.BucketDistance | libbitdht/src/bitdht/bdstddht.cc:230-257 | the scan yields the b below 160 with 2^b <= distance < 2^(b+1), and 0 for distance 0 |
| Ids.BucketUnique | libbitdht/src/bitdht/bdstddht.cc:230-257 | a distance lies in one bucket only |
| Ids.RandomMidId | libbitdht/src/bitdht/bdstddht.cc:117-139 | the disguised target is strictly closer to the target than the queried peer, unless the peer is the target |
| Ids.TakenForTarget | libbitdht/src/bitdht/bdstddht.cc:230-257 | bucket 0 holds the target and exactly one other id, the one that differs in the last bit |
| Ids.UpdateSimilar | libbitdht/src/bitdht/bdstddht.cc:90-102 | the port is taken over, the result stays similar, and a change is reported exactly if there is one |
| ConnectTypes.CreateErrorCode | libbitdht/src/bitdht/bdconnection.cc:3341-3368 | an error code is never the code for acceptance |
| ConnectTypes.ErrorCodeFields | libbitdht/src/bitdht/bdconnection.cc:3341-3368 | the type field is the given error or the fallback, the source field names the point |
| ConnectManager.Manager.constructor | libbitdht/src/bitdht/bdconnection.cc:70-79 | empty tables and the default options |
| ConnectManager.Manager.FindSimilarConnection | libbitdht/src/bitdht/bdconnection.cc:1918-1930 | finds a connection between the two ends through any proxy, if there is one |
| ConnectManager.Manager.StartAttempt | libbitdht/src/bitdht/bdconnection.cc:1438-1523 | refuses a disallowed mode, an existing and an opposite connection; otherwise installs an entry and sends one REQUEST |
| ConnectManager.Manager.AuthConnectionOk | libbitdht/src/bitdht/bdconnection.cc:1525-1631 | moves a waiting entry on and sends the REPLY or REQUEST that follows |
| ConnectManager.Manager.AuthConnectionNo | libbitdht/src/bitdht/bdconnection.cc:1633-1701 | sends an error to the source or proxy and drops the entry |
| ConnectManager.Manager.RecvedConnectionRequest | libbitdht/src/bitdht/bdconnection.cc:2083-2304 | refuses or installs, authorises at once as an automatic proxy, and as a relay server reports a destination it has no address for |
| ConnectManager.Manager.RecvedConnectionReply | libbitdht/src/bitdht/bdconnection.cc:2306-2458 | upgrades a proxy's entry on acceptance; any other reply ends the connection, and a proxy passes it on to the source as `Refusals.ProxyPassesOn` states |
| ConnectManager.Manager.RecvedConnectionStart | libbitdht/src/bitdht/bdconnection.cc:2460-2573 | acknowledges, completes once and tells the request that caused the connection |
| ConnectManager.Manager.RecvedConnectionAck | libbitdht/src/bitdht/bdconnection.cc:2575-2668 | notes which side has acknowledged and finishes when both have |
| ConnectManager.Manager.IterateConnections | libbitdht/src/bitdht/bdconnection.cc:1703-1806 | the sweep over the table with its deferred erasing |
| ConnectManager.Manager.CallbackConnectRequest | libbitdht/src/bitdht/bdconnection.cc:1053-1436 | how the outcome of an attempt changes its request: it ends, or pauses and goes on, in the cases of `Refusals.FailureExactly` |
| ConnectManager.Manager.IterateConnectionRequests | libbitdht/src/bitdht/bdconnection.cc:767-950 | the sweep over the requests |
| ConnectManager.Manager.StartRequest | libbitdht/src/bitdht/bdconnection.cc:952-1051 | takes the next proxy off the list and starts an attempt through it |
| ConnectManager.Manager.RequestConnection | libbitdht/src/bitdht/bdconnection.cc:159-206 | creates a request unless the mode is not allowed, the target is the node itself or already asked for |
| ConnectManager.Manager.KillConnectionRequest | libbitdht/src/bitdht/bdconnection.cc:224-275 | marks a request as done by the user |
| ConnectManager.Manager.AddPotentialConnectionProxy | libbitdht/src/bitdht/bdconnection.cc:639-735 | offers a peer that runs the engine to the request for the target |
| ConnectManager.Manager.UpdatePotentialConnectionProxy | libbitdht/src/bitdht/bdconnection.cc:737-756 | promotes a potential proxy that has answered, in every request |
| ConnectManager.AddGoodProxy | libbitdht/src/bitdht/bdconnection.cc:3137-3206 | a proxy is listed unless it is being tried, was tried or is listed already |
| HandshakeRuns.RunOk | libbitdht/src/bitdht/bdconnection.cc:1438-2668 | the protocol invariant holds after every run of the network, over all interleavings, losses and duplicates |
| HandshakeRuns.CompletedNeedsConsent | libbitdht/src/bitdht/bdconnection.cc:1525-1628 | a completed connection is at an end, and its destination authorised exactly this source, proxy and destination earlier in the run |
| HandshakeRuns.ProxyFinishMeansBothCompleted | libbitdht/src/bitdht/bdconnection.cc:2575-2668 | a proxy that drops a connection on an acknowledgement does so after both ends were in the completed state |
| HandshakeRuns.RefusalEndsConnection | libbitdht/src/bitdht/bdconnection.cc:2306-2458 | a refusal removes its entry, sends at most that refusal on, and reports nothing but a failure |
| Refusals.FailureExactly | libbitdht/src/bitdht/bdconnection.cc:1166-1400 | a failed attempt ends its request if and only if the destination is unavailable or the connection known (from anywhere), or the destination itself does not support the mode, denies it or, in proxy mode, cannot be reached; else the request pauses, and its proxy is recycled exactly if a relay has no room |
| Refusals.CodeSays | libbitdht/src/bitdht/bdconnection.cc:3341-3368 | the status of a refusal tells the reason given, or else the fallback, and the point that refused |
| Refusals.ProxyPassesOn | libbitdht/src/bitdht/bdconnection.cc:2407-2444 | in every state a run can reach a refusal at a proxy removes the entry and adds exactly one packet, from the proxy to the source, about the same two ends, with the same status |
| Refusals.RefuserDrops | libbitdht/src/bitdht/bdconnection.cc:1633-1701 | whoever refuses drops the connection and sends one REPLY with the reason, the destination to its proxy and all others to the source |
| Refusals.SourceLearns | libbitdht/src/bitdht/bdconnection.cc:2322-2376 | a refusal takes the attempt away at the source and changes exactly the request for its destination |
| Refusals.RefusalReachesSource | libbitdht/src/bitdht/bdconnection.cc:1633-1701 | in every run, whatever happens in between, a refusal by the destination ends the connection there, at the proxy and at the source as the two REPLYs arrive; a denial leaves the request of the source Done |
| Refusals.PeersRefusalReachesSource | libbitdht/src/bitdht/bdconnection.cc:1633-1701 | the same for a refusal by a proxy, after which the request pauses with this proxy noted and the others listed, and by the destination of a direct connection |
| Refusals.AcceptanceOutOfTurn | libbitdht/src/bitdht/bdconnection.cc:2407-2444 | an acceptance that a proxy does not wait for ends the connection, and the source is told of a broken protocol |
| RequestEnds.ActAtRest | libbitdht/src/bitdht/bdconnection.cc:767-1436 | no action but a new request of the user gets a target out of its rest |
| RequestEnds.StaysAtRest | libbitdht/src/bitdht/bdconnection.cc:767-1523 | in every run in which the user does not ask again, a target without an open attempt whose request is over stays so: no later attempt is started |
| RequestEnds.DeniedForGood | libbitdht/src/bitdht/bdconnection.cc:1220-1232 | a denial by the destination that reaches the only open attempt ends the request, and no later attempt is started in any run |
| RequestEnds.RevivedExactly | libbitdht/src/bitdht/bdconnection.cc:1375-1391 | some message brings a request back that is over if and only if an attempt to its target is still open |
| OverloadRuns.CancelledTriesAgain | libbitdht/src/bitdht/bdconnection.cc:1053-1100 | in some run a cancelled request is brought back by the late refusal of its attempt and makes another |
| RequestSteps.TimeDoes | libbitdht/src/bitdht/bdconnection.cc:813-889 | what the passing of time does to a request in each state, with its limits and reasons |
| RequestSteps.DueStartsOrEnds | libbitdht/src/bitdht/bdconnection.cc:787-812 | a due request makes its attempt exactly if a proxy is listed, the mode is allowed and nothing known stands in the way; else it is given up |
| RequestSteps.OfferedExactly | libbitdht/src/bitdht/bdconnection.cc:3137-3206 | a proxy is listed last unless it is being asked, was tried or is listed, and is then looked out for no more |
| RequestSteps.HeardExactly | libbitdht/src/bitdht/bdconnection.cc:737-756 | only a peer that is looked out for is offered when it is heard of |
| RequestSteps.AskedExactly | libbitdht/src/bitdht/bdconnection.cc:159-206 | exactly when a request is made, and when it is due |
| HandshakeSteps.SourceAsks | libbitdht/src/bitdht/bdconnection.cc:952-1051 | the attempt that is due takes the first proxy, and one REQUEST goes to it with what is left of the delay |
| HandshakeSteps.ProxyFiles | libbitdht/src/bitdht/bdconnection.cc:2083-2304 | a proxy files a request and asks its upper layer, or passes it on at once |
| HandshakeSteps.DestinationAgrees | libbitdht/src/bitdht/bdconnection.cc:1571-1589 | the answer of the destination carries its address and the time it needs |
| HandshakeSteps.ProxyPrepares | libbitdht/src/bitdht/bdconnection.cc:2384-2406 | with the answer the proxy knows both addresses and the larger delay |
| HandshakeSteps.ProxyStarts | libbitdht/src/bitdht/bdconnection.cc:1752-1800 | the proxy tells each side to start, with the addresses of both |
| HandshakeSteps.SourceStarts | libbitdht/src/bitdht/bdconnection.cc:2460-2573 | the source thanks the proxy, completes with the addresses to use, and its request and upper layer learn of it |
| HandshakeSteps.StartAgain | libbitdht/src/bitdht/bdconnection.cc:2460-2573 | a START that comes again is acknowledged again and changes nothing |
| HandshakeSteps.AckExactly | libbitdht/src/bitdht/bdconnection.cc:2575-2668 | an acknowledgement counts for the side it comes from and only where it is expected; the second ends the entry |
| HandshakeSteps.RequestAnswered | libbitdht/src/bitdht/bdconnection.cc:2083-2304 | exactly when a REQUEST is turned down, with which reason and point, and that nothing else happens then |
| HandshakeSteps.VisitExactly | libbitdht/src/bitdht/bdconnection.cc:1703-1806 | when a timer visit drops an entry, with or without an upcall, and what it sends otherwise |
| HandshakeSteps.SourceStartsDirectly | libbitdht/src/bitdht/bdconnection.cc:2460-2573 | without a proxy the source completes with the address the destination gave, or else the one it had asked |
| HandshakeSteps.DestinationIsThanked | libbitdht/src/bitdht/bdconnection.cc:2628-2650 | thanked by the source of a direct connection, the destination drops the entry and connects |
| CompleteHandshake.HandshakeCompletes | libbitdht/src/bitdht/bdconnection.cc:1438-2668 | for all ids, addresses, delays and clock readings that leave the proxy its twenty seconds there is a run in which both ends complete the same connection with the same addresses, the request learns of it and the proxy keeps nothing |
| HandshakeRuns.EntriesInPlace | libbitdht/src/bitdht/bdconnection.cc:2679-3064 | in every run an entry sits at the node its key names, under its own ids, in one of the states its point allows |
| Handshake.StartAttemptOk | libbitdht/src/bitdht/bdconnection.cc:1438-1523 | starting an attempt keeps the invariant |
| Handshake.AuthOkOk | libbitdht/src/bitdht/bdconnection.cc:1525-1631 | authorising keeps it, and consent is recorded exactly where the destination gives it |
| Handshake.RecvRequestOk | libbitdht/src/bitdht/bdconnection.cc:2083-2304 | REQUEST keeps it, at the proxy and at the destination |
| Handshake.RecvReplyOk | libbitdht/src/bitdht/bdconnection.cc:2306-2458 | REPLY keeps it; only an acceptance of the destination moves a proxy on |
| Handshake.RecvStartOk | libbitdht/src/bitdht/bdconnection.cc:2460-2573 | START keeps the invariant, and what it completes is recorded |
| Handshake.ProxyFinishesAfterBoth | libbitdht/src/bitdht/bdconnection.cc:2575-2668 | the step of the proxy's finish in the invariant |
| ConnectionTable.TickConnVisit | libbitdht/src/bitdht/bdconnection.cc:1703-1806 | a visit of the timer sends START once to each side that has not acknowledged, counts the round, and tells which entries expire |
| ConnectionTable.TickConnsSweeps | libbitdht/src/bitdht/bdconnection.cc:1703-1806 | the loop with its erase list equals one simultaneous pass over the table in any order |
| ConnectionTable.ActMoves | libbitdht/src/bitdht/bdconnection.cc:2679-3064 | no action overwrites an entry: within its state only retries and acknowledgements go on, otherwise it moves to a higher state under the same ids, point and mode; new entries are fresh, and two opposite connections never coexist |
| ConnectionTable.ConnectionsDie | libbitdht/src/bitdht/bdconnection.cc:1703-1806 | in every run with sweeps at most `gap` apart a connection lives at most 3(20 + gap) seconds and counts at most START_MAX_RETRY + 1 rounds |
| StartPackets.OnlySweepsStart | libbitdht/src/bitdht/bdconnection.cc:1703-1806 | a sweep sends the due START round of each entry as it was before the sweep and nothing else; no other action sends a START |
| StartPackets.StartsBounded | libbitdht/src/bitdht/bdconnection.cc:1752-1800 | in every run at most START_MAX_RETRY + 1 START packets go to each side of a connection since its entry was created |
| StartPackets.SilentOnceHeard | libbitdht/src/bitdht/bdconnection.cc:1775-1800 | once a side's acknowledgement is noted, no START goes to that side while the entry lives |
| ConnectionTable.RequestIds | libbitdht/src/bitdht/bdconnection.cc:2083-2304 | for every mode exactly when the ids stored for a request agree with the key it is filed under |
| ConnectionTable.DirectFromAnother | libbitdht/src/bitdht/bdconnection.cc:2743-2770 | a direct request whose sender is not the named source is filed under ids that are not its key's |
| ConnectionTable.ProxiedWithoutProxy | libbitdht/src/bitdht/bdconnection.cc:2772-2804 | so is a proxied request that comes straight from its source to the destination |
| ConnectionTable.ProxiedToBystander | libbitdht/src/bitdht/bdconnection.cc:2806-2833 | and a proxied request from a third party at a node that is neither end |
| RequestRuns.ActIsStep | libbitdht/src/bitdht/bdconnection.cc:767-1436 | whatever a node does changes a request only by one of seven events |
| RequestRuns.ProxiesConserved | libbitdht/src/bitdht/bdconnection.cc:787-889 | listed proxies plus attempts equal inserted plus recycled ones, in every history of a request |
| AttemptBound.ActPays | libbitdht/src/bitdht/bdconnection.cc:1053-1436 | no action of a node raises the sum of recycled proxies and open attempts, except by one when it takes a proxy off the list |
| AttemptBound.AlwaysBalanced | libbitdht/src/bitdht/bdconnection.cc:767-1523 | in every run of the network recycled proxies plus open attempts stay within attempts made plus attempts open before |
| AttemptBound.AttemptsBounded | libbitdht/src/bitdht/bdconnection.cc:787-1007 | in every run of the network a request with m proxies inserted starts at most 3m + 2f + 1 attempts, f being the attempts to its target open when it was made |
| OverloadRuns.BoundIsReached | libbitdht/src/bitdht/bdconnection.cc:1369-1394 | some run of the network, from its start and with time going forward, makes 3m + 1 attempts over overloaded relays before the request is given up, for every m > 0 |
| OverloadRuns.EarlierAttemptCounts | libbitdht/src/bitdht/bdconnection.cc:1053-1100 | some run makes 6 attempts and recycles 7 times with m = 1, because an attempt of a cancelled request was still open |
| LobbyService.ChatService.BouncingObjectCheck | libretroshare/src/chat/distributedchat.cc:342-403 | pops stale times, refuses above the limit, notes the time otherwise |
| LobbyService.ChatService.BounceLobbyObject | libretroshare/src/chat/distributedchat.cc:813-885 | cache, friends, nicknames, flood check, and a copy to each connected participant except the sender |
| LobbyService.ChatService.HandleRecvLobbyMsgItem | libretroshare/src/chat/distributedchat.cc:113-212 | a message is used if it is in the time window, passes the checks and is new |
| LobbyService.ChatService.HandleRecvLobbyEventItem | libretroshare/src/chat/distributedchat.cc:623-775 | the same for events, which also update the nicknames |
| LobbyService.ChatService.CleanLobbyCaches | libretroshare/src/chat/distributedchat.cc:1742-1833 | drops exactly the expired records and reports the lobbies that need a packet |
| LobbyEffects.HandledExactly | libretroshare/src/chat/distributedchat.cc:113-212 | an object is used if and only if it is in time, passes the checks, is new and not one too many; what it does to each field of the lobby in every case |
| LobbyEffects.CleanedExactly | libretroshare/src/chat/distributedchat.cc:1742-1833 | what a cleaning keeps of each table, and when a sign of life or a challenge is due |
| LobbyRuns.UsedAtMostOnce | libretroshare/src/chat/distributedchat.cc:846-860 | a message used no earlier than 100 seconds before its send time is never used again, however often the cache is cleaned |
| LobbyRuns.UsedTwiceExactly | libretroshare/src/chat/distributedchat.cc:124-139 | some run uses a message again if and only if it was used more than 100 seconds before its send time |
| LobbyRuns.RecentIsWindow | libretroshare/src/chat/distributedchat.cc:391-392 | on an ordered list popping from the front removes exactly the times before the window |
| LobbyRuns.FloodBound | libretroshare/src/chat/distributedchat.cc:342-403 | in every run no window of ten seconds holds more than floor(limit) + 1 objects of one peer in one lobby |
| Flooding.ForwardedOnce | libretroshare/src/chat/distributedchat.cc:813-885 | in every run of the network each peer uses and forwards a message at most once |
| Flooding.NoEcho | libretroshare/src/chat/distributedchat.cc:864-876 | in every run a delivery puts in one copy for each connected participant except the sender if it is used, none otherwise, and nothing goes back to where it came from |
| Flooding.FloodStops | libretroshare/src/chat/distributedchat.cc:867-880 | copies sent, and so deliveries, are bounded by the friend-set sizes of distinct peers, less one for each that did not send the message itself; all copies are accounted for |
| Flooding.EverybodyIsReached | libretroshare/src/chat/distributedchat.cc:813-885 | when no copy is left under way, everybody linked by a path to a user of the message has used it |
| RoutingTable.Space.constructor | libbitdht/src/bitdht/bdpeer.cc:190-201 | the new table is empty and in order |
| RoutingTable.Space.AddPeer | libbitdht/src/bitdht/bdpeer.cc:679-815 | the bucket of the id changes as specified, no other; an ordered table stays ordered |
| RoutingTable.Space.FlagPeer | libbitdht/src/bitdht/bdpeer.cc:818-858 | only the similar entry of the one bucket gains flags |
| RoutingTable.Space.CleanNodeFlags | libbitdht/src/bitdht/bdpeer.cc:448-480 | the flags are cleared in every entry, and the result counts the entries that had any of them |
| RoutingTable.Space.ScanOutOfDatePeers | libbitdht/src/bitdht/bdpeer.cc:486-583 | pings, discards and updates the attached peers in one pass; the ids returned are those of the entries that are due, in table order |
| RoutingTable.Space.UpdateAttachedPeers | libbitdht/src/bitdht/bdpeer.cc:593-656 | marks peers from the back of each bucket but the first |
| RoutingTable.Space.FindNearestNodesWithFlags | libbitdht/src/bitdht/bdpeer.cc:223-318 | inserts the nearest matching entries; from an empty result it returns exactly these |
| RoutingTable.Space.FindNode | libbitdht/src/bitdht/bdpeer.cc:333-402 | the matching ids of the one bucket in order |
| RoutingTable.Space.CalcNetworkSize | libbitdht/src/bitdht/bdpeer.cc:1026-1101 | the estimate for the table as it is |
| RoutingTable.Space.Clear | libbitdht/src/bitdht/bdpeer.cc:204-213 | empties every bucket |
| RoutingInvariant.AlwaysOk | libbitdht/src/bitdht/bdpeer.cc:486-858 | after every sequence of operations each entry is in the bucket of its distance, no bucket is too long or holds similar ids, each is ordered by last contact |
| RoutingInvariant.EvictsOnlyForCause | libbitdht/src/bitdht/bdpeer.cc:747-815 | a full bucket gives up its stale front, or the oldest of its lowest entries if they are below the newcomer, and nothing else; exactly when it takes a newcomer in |
| RoutingInvariant.AddKnown | libbitdht/src/bitdht/bdpeer.cc:711-736 | a known peer moves to the back with its flags and the new ones, the time and the port; a new port marks it unstable; the others keep their order |
| RoutingSearch.NearestIsNearest | libbitdht/src/bitdht/bdpeer.cc:223-318 | min(number, matching) entries in distance order, and no matching entry left out is strictly closer |
| RoutingSearch.MatchingHolds | libbitdht/src/bitdht/bdpeer.cc:247-265 | the matching entries are those of the table that carry every flag asked for |
| RoutingSearch.OneBucketSuffices | libbitdht/src/bitdht/bdpeer.cc:333-402 | in an ordered table one bucket holds every entry with the id |
| RoutingSearch.ScanKeepsAlive | libbitdht/src/bitdht/bdpeer.cc:524-568 | a scan keeps exactly the living entries and notes its pings |
| RoutingSearch.ScanLeavesQuiet | libbitdht/src/bitdht/bdpeer.cc:524-568 | after a scan every entry is alive and no ping is overdue |
| RoutingScan.ScanReturns | libbitdht/src/bitdht/bdpeer.cc:486-583 | a scan returns exactly the ids of the entries that are due by their times and flags, bucket by bucket, and leaves the living entries, each with its send time set exactly if it was due |
| RoutingScan.PingedOnce | libbitdht/src/bitdht/bdpeer.cc:519-543 | in an ordered table no id is returned twice, and an entry is pinged if and only if it is due |
| RoutingSearch.AttachedExactly | libbitdht/src/bitdht/bdpeer.cc:593-656 | an entry ends up attached exactly if it has the flags and fewer than the wanted number come before it |
| RoutingInvariant.AddNew | libbitdht/src/bitdht/bdpeer.cc:747-815 | with room left a newcomer goes to the back, unasked and just heard of |
| RoutingInvariant.FlagsGained | libbitdht/src/bitdht/bdpeer.cc:818-858 | flagging adds both words of flags to the similar entries and changes nothing else |
| RoutingInvariant.FlagsCleared | libbitdht/src/bitdht/bdpeer.cc:448-480 | clearing takes away the flags of the mask and no others |
| RoutingSearch.UpdateAttaches | libbitdht/src/bitdht/bdpeer.cc:593-656 | as many peers as wanted end up attached, or all that match; the first bucket is left alone |
| NetworkSize.CalcNetworkSize | libbitdht/src/bitdht/bdpeer.cc:1026-1101 | with fewer than 32 entries in each bucket no 64-bit value overflows, and the result is the average over the unbroken run of buckets, cut to 32 bits |
| NetworkSize.TableSizesFit | libbitdht/src/bitdht/bdpeer.cc:747-814 | an ordered table meets what the estimate needs |
| IterativeQuery.Query.constructor | libbitdht/src/bitdht/bdquery.cc:55-96 | the start list in distance order; valid if it holds no similar peers |
| IterativeQuery.Query.NextQuery | libbitdht/src/bitdht/bdquery.cc:117-279 | asks the closest peer that is to be asked, disguised if wanted; ends exactly when it is old, or full, answered and at rest |
| IterativeQuery.Query.AddClosestPeer | libbitdht/src/bitdht/bdquery.cc:281-426 | adds, updates or refuses, in the cases of `QueryAnswers.AnswerIsRecorded` and `QueryAnswers.NewcomerIsThere`; keeps the query valid |
| IterativeQuery.Query.UpdatePotentialPeer | libbitdht/src/bitdht/bdquery.cc:559-634 | adds or updates a potential peer; keeps the query valid |
| IterativeQuery.Query.TrimPotentialPeersToClosest | libbitdht/src/bitdht/bdquery.cc:656-686 | drops from the end what is farther than the last of the closest |
| IterativeQuery.Query.RemoveOldPotentialPeers | libbitdht/src/bitdht/bdquery.cc:699-740 | drops the peers not heard of in time |
| IterativeQuery.Query.UpdateProxyList | libbitdht/src/bitdht/bdquery.cc:881-929 | moves a known proxy to the front of the list its flags call for, also within one list |
| IterativeQuery.Query.AddProxy | libbitdht/src/bitdht/bdquery.cc:803-864 | takes the source of an answer as a proxy if the answer names an id of bucket 0 |
| IterativeQuery.Query.UpdateProxy | libbitdht/src/bitdht/bdquery.cc:867-876 | updates a proxy in whichever list holds it, then trims |
| IterativeQuery.Query.TrimProxies | libbitdht/src/bitdht/bdquery.cc:933-947 | keeps the ten most recent of each list |
| IterativeQuery.Query.AddPeer | libbitdht/src/bitdht/bdquery.cc:446-452 | a message from a peer updates all three lists |
| IterativeQuery.Query.AddPotentialPeer | libbitdht/src/bitdht/bdquery.cc:454-466 | a peer that was named updates the proxies, and the potential peers if it is worth it |
| IterativeQuery.Query.WorthyPotentialPeer | libbitdht/src/bitdht/bdquery.cc:491-534 | the look into the closest list |
| QueryInvariant.WorthyExactly | libbitdht/src/bitdht/bdquery.cc:491-534 | worth a ping unless the peer is in the closest list, or ten or more peers there are all strictly closer |
| QueryInvariant.AddClosestKeeps | libbitdht/src/bitdht/bdquery.cc:281-426 | the closest list stays ordered, keyed by true distance, free of similar peers and at most 15 long |
| QueryInvariant.DisplacedForCause | libbitdht/src/bitdht/bdquery.cc:361-403 | an entry that leaves was asked, has not answered since for more than ten seconds, or is strictly farther than the newcomer |
| QueryInvariant.RefusedExactly | libbitdht/src/bitdht/bdquery.cc:302-326 | a message is refused exactly if 15 peers are listed, none of them overdue and none farther |
| QueryInvariant.AddedIsThere | libbitdht/src/bitdht/bdquery.cc:328-425 | whoever is not refused is in the list afterwards |
| QueryAnswers.AnswerIsRecorded | libbitdht/src/bitdht/bdquery.cc:320-357 | a message of a listed peer changes its entry and no other: an answer sets the time and joins the flags, the time of asking stays; exactly if the list is closed it is lost |
| QueryAnswers.AnswerIsLost | libbitdht/src/bitdht/bdquery.cc:320-332 | the answer of the last of fifteen listed peers is lost if the others have answered |
| QueryAnswers.NewcomerIsThere | libbitdht/src/bitdht/bdquery.cc:403-425 | an accepted newcomer is listed, heard of at once only if it answered, and nobody else is new |
| QueryAnswers.SilentGo | libbitdht/src/bitdht/bdquery.cc:361-386 | of the peers that are not farther than an accepted newcomer exactly the overdue ones go |
| QueryAnswers.FarthestGo | libbitdht/src/bitdht/bdquery.cc:388-403 | of the farther ones only an end of the list goes, and only if fifteen are listed then |
| QueryAnswers.AsksClosest | libbitdht/src/bitdht/bdquery.cc:141-205 | the peer that is asked is the closest one never asked or, by a query that goes on when idle, asked too long ago |
| QueryAnswers.EndsExactly | libbitdht/src/bitdht/bdquery.cc:207-238 | a query with nobody to ask ends exactly after five minutes, or after ten seconds with ten peers of whom the ten closest have answered |
| QueryAnswers.AnsweredTargetSucceeds | libbitdht/src/bitdht/bdquery.cc:256-279 | over every sequence of messages and turns, once the target has answered, known by one address and not asked again, the query ends in success; a query that does not go on when idle does not ask it again |
| QueryAnswers.AskedAgainIsLost | libbitdht/src/bitdht/bdquery.cc:361-386 | a target that had answered before it was asked is displaced when it stays silent |
| QueryAnswers.OtherAddressHides | libbitdht/src/bitdht/bdquery.cc:256-263 | an older entry with the id of the target at another address hides the answer of the target |
| QueryPeers.KnownPotential | libbitdht/src/bitdht/bdquery.cc:570-600 | a known potential peer changes in its own entry, and is pinged for being named at most every five minutes |
| QueryPeers.NewPotential | libbitdht/src/bitdht/bdquery.cc:602-686 | an unknown one is put in its place and pinged; of more than ten exactly those beyond the closest list go, down to ten |
| QueryPeers.FreshExactly | libbitdht/src/bitdht/bdquery.cc:699-740 | which potential peers a cleaning forgets, and when there is one |
| QueryPeers.KnownProxy | libbitdht/src/bitdht/bdquery.cc:881-929 | a message of a known proxy joins its flags and moves it to the front of the list it then belongs to |
| QueryPeers.UnknownProxy | libbitdht/src/bitdht/bdquery.cc:803-876 | an unknown proxy is entered only for naming the target |
| QueryInvariant.UpdatePotentialKeeps | libbitdht/src/bitdht/bdquery.cc:559-686 | potential peers stay ordered and distinct, and beyond ten reach no farther than the closest list |
| ProxyLists.AlwaysConsistent | libbitdht/src/bitdht/bdquery.cc:803-947 | after every sequence of updates no peer is listed twice, the flagged list holds exactly the peers with all required flags, both are most recent first and at most ten long |
| ProxyLists.MoveConserves | libbitdht/src/bitdht/bdquery.cc:881-929 | a move neither loses nor invents a proxy |
| QueryStart.NearestStartsQuery | libbitdht/src/bitdht/bdquerymgr.cc:183-203 | the nearest peers of an ordered table meet what a query asks of its start list |
| BencodeReader.Reader.DecodeInt | libbitdht/src/bitdht/bencode.c:48-59 | reads a number and keeps cursor plus remaining length at the end of the input |
| BencodeReader.Reader.DecodeStr | libbitdht/src/bitdht/bencode.c:69-141 | reads a string or leaves the cursor behind its length |
| BencodeReader.Reader.Decode | libbitdht/src/bitdht/bencode.c:143-297 | terminates on every input that ends in a NUL; a node that is found has used up at least one byte |
| BencodeReader.Reader.DecodeItems | libbitdht/src/bitdht/bencode.c:158-196 | the list loop, which decreases the remaining length |
| BencodeReader.Reader.DecodeEntries | libbitdht/src/bitdht/bencode.c:199-246 | the dictionary loop, which decodes a value even after a malformed key |
| BencodeWriter.EncodeInto | libbitdht/src/bitdht/bencode.c:434-488 | with room for the encoding and a NUL nothing is cut off, and no other byte of the buffer changes |
| BencodeGrammar.DecodesGrammar | libbitdht/src/bitdht/bencode.c:48-302 | a tree without a missing string is decoded from a text, to its end, if and only if the text is one of the grammar for that tree |
| BencodeRoundTrip.RoundTrip | libbitdht/src/bitdht/bencode.c:48-302 | an encoded tree followed by any bytes decodes to itself, using exactly its encoding, if and only if no string is missing and no key holds a NUL |
| BencodeRoundTrip.PrefixFree | libbitdht/src/bitdht/bencode.c:434-488 | encoding is injective and no encoding is a prefix of another |
| MessageRoundTrip.Classified | libbitdht/src/bitdht/bdmsgs.cc:534-666 | every message built is classified as intended, the reply to an announcement as a pong |
| MessageRoundTrip.CompactIdsBack | libbitdht/src/bitdht/bdmsgs.cc:707-840 | a list of compact ids reads back in order |
| MessageRoundTrip.FieldsBack | libbitdht/src/bitdht/bdnode.cc:1217-1565 | everything that the receiver reads of a message is what was put in, negative numbers through unsigned words included; the write token is not among it |
| MessageRoundTrip.ReceivedSameButToken | libbitdht/src/bitdht/bdnode.cc:1402-1422 | two messages are received as the same if and only if they differ in nothing but the write token |
| MessageRoundTrip.ReceivedDetermines | libbitdht/src/bitdht/bdnode.cc:1402-1422 | a message is determined by what is received if and only if it has no write token |
| MessageRoundTrip.TokenUnread | libbitdht/src/bitdht/bdnode.cc:1419-1422 | two announcements with different write tokens are received as the same |
| MessageRoundTrip.TokenBackInTree | libbitdht/src/bitdht/bdmsgs.cc:281-414 | the write token reads back from the tree of every message that has one, and of no other |
| MessageRoundTrip.PacketRoundTrip | libbitdht/src/bitdht/bdmsgs.cc:55-460 | the packet of a message, followed by anything, decodes to its tree and to the fields that are read |
| MessageBuilders.LookupAdded | libbitdht/src/bitdht/bencode.c:567-612 | an added entry is found unless an earlier one has its key, and every other look-up stays as it was |
| MessageBuilders.PingMsg | libbitdht/src/bitdht/bdmsgs.cc:55-96 | a ping that the receiver reads back as such, with the version only if there is one |
| MessageBuilders.ResponsePingMsg | libbitdht/src/bitdht/bdmsgs.cc:103-137 | a pong that reads back with its version |
| MessageBuilders.FindNodeMsg | libbitdht/src/bitdht/bdmsgs.cc:145-186 | a search that reads back with its target, and with the local option only if wanted |
| MessageBuilders.RespNodeMsg | libbitdht/src/bitdht/bdmsgs.cc:194-231 | an answer that reads back with its nodes |
| MessageBuilders.GetPeersMsg | libbitdht/src/bitdht/bdmsgs.cc:239-273 | a search for peers that reads back with its hash |
| MessageBuilders.PeersReplyHashMsg | libbitdht/src/bitdht/bdmsgs.cc:281-318 | an answer that reads back with its peers, and its write token from the tree |
| MessageBuilders.PeersReplyClosestMsg | libbitdht/src/bitdht/bdmsgs.cc:327-365 | an answer that reads back with its closest nodes, and its write token from the tree |
| MessageBuilders.AnnouncePeersMsg | libbitdht/src/bitdht/bdmsgs.cc:375-414 | an announcement that reads back with its hash and port, and its write token from the tree |
| MessageBuilders.ReplyAnnounceMsg | libbitdht/src/bitdht/bdmsgs.cc:427-456 | its answer, which reads back as a pong without a version |
| MessageBuilders.ConnectGenmsg | libbitdht/src/bitdht/bdmsgs.cc:979-1028 | a connect message that reads back with all its arguments |
| MessageBuilders.MakeCompactPeerIds | libbitdht/src/bitdht/bdmsgs.cc:722-733 | the list of peers reads back as it was |
| MessageBuilders.MakeCompactNodeIdString | libbitdht/src/bitdht/bdmsgs.cc:707-720 | the string reads back as the list |
| MessageBuilders.BeMsgGetListBdIds | libbitdht/src/bitdht/bdmsgs.cc:735-756 | reads as many ids as the string holds whole |
| MessageBuilders.BeMsgGetDictNode | libbitdht/src/bitdht/bdmsgs.cc:465-483 | the first entry with the key |
| MessageBuilders.BeMsgMatchString | libbitdht/src/bitdht/bdmsgs.cc:487-505 | true exactly for a string equal to the word |
| DhtNode.ProcessAnswers | libbitdht/src/bitdht/bdnode.cc:661-795 | a cycle answers exactly the recent searches it takes off the queue, in order, at most five, and stops early only on an empty queue |
| DhtNode.AnswerFits | libbitdht/src/bitdht/bdnode.cc:696-742 | an answer is shorter than a packet and reads back as the nearest peers, at most eight |
| DhtNode.Node.ProcessRemoteQuery | libbitdht/src/bitdht/bdnode.cc:661-795 | the loop does this, and keeps every waiting packet short enough |
| DhtNode.Node.MsgoutReplyFindNode | libbitdht/src/bitdht/bdnode.cc:962-989 | encodes into its buffer without cutting and queues the packet |
| DhtNode.Node.MsgoutConnectGenmsg | libbitdht/src/bitdht/bdnode.cc:2114-2157 | every connect message fits into a packet |
| DhtNode.Node.OutgoingMsg | libbitdht/src/bitdht/bdnode.cc:804-837 | hands out the first packet; with a full-size buffer it is never cut |

## Left out

- The graphical interface, sockets, threads, files, statistics and the history of messages.
- Signatures, identities, reputation and serialisation of chat items: the outcome of a check is an input.
- The query manager, the hash tables, the bloom filter, the friend list and the account: bookkeeping.
- The safety results over all runs are about ids; the addresses that a connection carries are followed through the
  steps of a handshake that succeeds.
- The consent and the completion that the safety results find may belong to an earlier connection under the same
  source, proxy and destination, because the messages of the handshake carry nothing to tell the two apart.
- The decision which proxies a new request starts with: the list is an input of `RequestConnection`.
- The challenge messages between friends of a lobby, invitations and the list of public lobbies beyond its counts.
- `operator<` on whole peer ids: it repeats one of its tests and is no order; ids alone are compared here.
- A decoder input without a NUL behind it, and nodes whose kind entry is a missing string: both are preconditions.
- Two reads of an empty container in a query: that the container is not empty when the read is reached is a precondition
  (libbitdht/src/bitdht/bdquery.cc:265 and 662).
- Trees are values: that the program links nodes by pointers and frees them is not modelled.
- Allocation failures, and an encoding that does not fit its buffer.
- The size estimate restricted to flagged peers, which repeats the one modelled.
- Dictionary keys come in the order in which they were added; no order of keys is claimed.
