# A verified model of the VPN service

This project models the parts of the VPN client and server that hold state over time, and
proves what every run of them keeps.  `dafny verify dfyconfig.toml` checks all of it.

The modules follow the program:

| module | what it models |
|---|---|
| `SessionRecord`, `SessionObject` | the session record of `lib/session.py`: as functions on values, and as the class whose methods change it in place, proved equal to them |
| `SessionTable` | the `sessions` table: columns beside a JSON blob, saves, removes, cleanups, queries |
| `Contributions`, `Ledger` | the arithmetic of contributions; the ledger under any stream of transfers |
| `Lifecycle` | server and client as one transition system: any number of processes holding copies of records |
| `WalletScan`, `WalletCredit`, `WalletStale` | the wallet's rescan loop, and what a run of overlapping windows credits, also against stale saves |
| `SessionsRefresh` | the server's periodic refresh |
| `Messages`, `Payout`, `PayoutRun` | message framing and routing; Stripe manager, router and wallet; all their interleavings |
| `VdpStore`, `VdpImport` | the revision-gated descriptor store; the import and export of documents |
| `Forest`, `ProxyObject` | reachability through child links; the proxy's connection and process lists |
| `WgDump`, `WgPool`, `WgTable` | the reader of `wg show ... dump`; the address allocator and its runs; from the text to the peer table |
| `WgServer`, `WgReconcile` | one gate's reconcile loop and the rekey handler; where the passes lead |

`Basics` and `Text` hold shared datatypes and string splitting.

## Conventions

Coins are `real`, times are `int` seconds and every step reads the clock once.  The external
commands an activation runs either work or raise (`Tool`); the wallet's transfer, Stripe's
acceptance of a mark, the height and transfers a scan reads, the processes a connect starts
and the connections found dead are parameters of the steps.  A method that works in place is
proved equal to a function of its inputs and the old state; laws over runs are proved about
those functions.  Automatic induction is switched off:
every induction is written out.  `hide` statements keep solver effort small.

## What the code does that a reader may not expect

Each of these is a theorem of the model, not a remark:

* A refused transfer is never retried: the UNPAID notice is not read, the outstanding entry
  stays, and a later payment with the same content is taken for outstanding as well
  (`PayoutRun.RefusedIsNeverRetried`).
* A mark that Stripe does not take lets the next poll pay the same payment again
  (`PayoutRun.FailedMarkPaysAgain`).
* A transfer whose RPC answer timed out is reported as sent, and a refused balance request
  raises (`Payout.Transfer`).
* A transfer without payment id is credited to every live session
  (`WalletScan.ProcessPayment`, where `Hits` says which rows a transfer selects).
* A first scan that reads the height but gets no transfers narrows the window for good, and
  history further back is not credited (`WalletCredit.FailedFirstFetchLosesHistory`).
* Loading is not the identity: every load applies the contribution list to the price once
  more, so on a server a stored record that is loaded and saved gets cheaper each time
  (`Contributions.RepeatedApplication`).
* `Gateway.activate_client` has no path that returns a true value, so no client activates a
  session by itself (`Lifecycle.ClientNeverActivates`).
* Nothing keeps the number of days positive, and with a negative one and a percentage among
  the contributions a session can be paid and not cover its price
  (`Lifecycle.NegativeDaysBreakTheLaw`).  The law survives a request exactly when the
  contributions offered of its first price are not negative in sum, or the session comes to
  zero days or less on a gate other than WireGuard: that one is never stored paid or active
  (`Lifecycle.LawSurvivesIff`).
* Rekeying an expired session answers 200 and changes nothing; rekeying while the pool is
  full stores a session without address, and the gate's service raises at its next pass
  (`WgReconcile.RekeyHandover`, `WgReconcile.FullPoolStopsService`).
* Importing an exported document fails exactly when a live object refers to one that has
  expired or is missing (`VdpImport.ExportImportRoundTrip`).
* A save lowers a stored revision exactly when the incoming one is zero or negative and the
  stored one is greater (`VdpStore.RevisionLoweredIff`).
* A connection whose process died takes only its direct children along; what hangs below
  them stays listed (`ProxyObject.Proxy.RemoveDead`).

Where code and documentation differ the model follows the code: the exit message is
addressed to everybody, so the main loop's own test for it is never reached
(`Payout.Router.Route`).

## Model

| member | source | states |
|---|---|---|
| SessionObject.Session.GetPayment | lib/session.py:231-235 | the loop over the payments returns their sum |
| SessionObject.Session.GetContributionsPrice | lib/session.py:130-134 | the loop over the contributions returns the sum of their prices |
| SessionObject.Session.AddContributions | lib/session.py:96-128 | the nested loops append exactly the offered contributions whose purpose is new and move the price by the sum of the whole list |
| SessionObject.Session.Activate | lib/session.py:159-182 | activation in place and its save equal the record function, refusals and raised errors included |
| SessionObject.Session.IsProcessed | lib/session.py:242-246 | true exactly when a payment of that height and transaction is in the ledger |
| SessionObject.Session.AddPayment | lib/session.py:240-256 | the credited record, the saves on the way and the answer equal the record function; a known transfer changes nothing |
| SessionObject.Session.Generate | lib/session.py:44-94 | a new record in place equals the record function: default days, free sessions, list price with contributions |
| SessionObject.Session.Load | lib/session.py:17-42 | what the constructor does to a stored record: activation of a free WireGuard session, otherwise contributions once more (`Contributions.LoadWhen`) |
| SessionTable.SessionDb.Save | lib/session.py:291-322 | delete and insert under the id when the record is unexpired, nothing otherwise |
| SessionTable.SessionDb.Remove | lib/session.py:324-332 | a remove sets the deletion mark of that row, keeps its record, and leaves every other row alone |
| SessionTable.SessionDb.Find | lib/sessions.py:76-123 | the rows of a query are exactly the matching ones, each once |
| SessionTable.WritesKeepIndexed | lib/session.py:291-332 | every sequence of saves, removes and cleanups keeps the columns equal to the blob's fields |
| SessionTable.IndexAgreement | lib/sessions.py:76-123 | in every reachable table, selecting on the columns selects exactly the undeleted rows whose stored record satisfies the same conditions, for every combination of filters |
| SessionTable.StoredIsLastSaved | lib/session.py:291-332 | a row holds the record of the last unexpired save, whatever removes and cleanups came between |
| SessionTable.CleanupOfRow | lib/sessions.py:16-24 | a cleanup drops a row exactly when it expired 30 days ago, marked before or not, leaves live exactly the live unexpired ones, and a second one at the same time changes nothing |
| SessionTable.CleanupHolds | lib/sessions.py:16-24 | after a cleanup at t, no later saves, removes or cleanups bring back a live row that expires before t |
| Contributions.AppliedOnceCovers | lib/session.py:117-124 | after one application every offered purpose is in the list |
| Contributions.CoveredAddsNothing | lib/session.py:117-128 | on a complete list a further application appends nothing and moves the price by the list's sum, down on a server and up on a client |
| Contributions.RepeatedApplication | lib/session.py:34-42 | with the setting fixed, the list is unchanged from the second application on and n applications move the price by n times its sum |
| Contributions.RepeatedIsProduct | lib/session.py:125-128 | the n-fold sum is the product with n |
| Contributions.ContributionsWrittenOut | lib/session.py:105-128 | an application appends, for every setting whose purpose was not listed, the entry it asks for, written out: wallet, purpose with the site's suffix, the percentage of the price or the coins; and nothing else |
| Contributions.GeneratedPrice | lib/session.py:86-94 | after generating a paid session, price plus contributions (server) or price minus contributions (client) is (space price + gate price) times the days, the days are the asked or the default ones, and only a server asked for no days fails |
| Contributions.GeneratedRecord | lib/session.py:44-94 | every field of a new record, paid or free: a free one has price zero and no contributions, and is active from now for its days exactly on a server, off WireGuard, when the commands work |
| Contributions.ServerThenClient | lib/session.py:34-42 | a client that loads the server's record is charged (space price + gate price) times the days plus its own contributions |
| Contributions.ServerLoadLowersPrice | lib/session.py:40-42 | on a server a load never raises the price and keeps the list non-negative |
| Contributions.ActivationWhen | lib/session.py:159-182 | on the fields: an activation goes through exactly on a server, for an inactive record that is paid for, with WireGuard data where the gate needs them, when the commands work; when it raises; and the record it leaves |
| Ledger.ReplayLedger | lib/session.py:240-256 | a fold of transfers ends with exactly the old keys plus the transfers' keys, each once with its amount, whatever is repeated |
| Ledger.SameKeysSameMultiset | lib/session.py:240-249 | two duplicate-free ledgers with the same keys hold the same payments |
| Ledger.TotalOfPermutation | lib/session.py:231-235 | the total does not depend on the order of the payments |
| Ledger.ReplayInvariance | lib/sessions.py:125-134 | streams with the same transfers, in any order and with any repetition, leave the same ledger up to order, the same total and the same paid flag |
| Ledger.ReplayIdempotent | lib/session.py:242-246 | replaying transfers that are already in the ledger leaves the whole record untouched |
| Ledger.RescanRestores | lib/sessions.py:125-134 | a stale copy that overwrote a newer one gets ledger and total back from a rescan covering what was lost; the paid flag says whether the total covers its price, which is the lost flag when the price was the same |
| Lifecycle.ServerLifecycle | lib/session.py:44-94 | in every run with non-negative payments, and non-negative contributions offered of each new price, every record the server stores or holds obeys the law: active implies payment covers price and expiry is activation plus the days, inactive implies the unpaid expiry, paid implies payment covers price; for any number of days |
| Lifecycle.ClientMirrorsServer | lib/sessions.py:26-38 | in every run whatever, an active record in a client's table has the activation stamp of a record of the same session the server committed, fully paid |
| Lifecycle.ClientNeverActivates | lib/gate.py:157-163 | no step local to a client sets an activation stamp |
| Lifecycle.ActivationIsFinal | lib/session.py:159-182 | payments, activations, loads and key changes in any order never move activation time, expiry or days of an active record |
| Lifecycle.ExpiredStayGone | lib/sessions.py:16-24 | in every interleaving after a cleanup, with any old copies saved later, every live server row expires at or after the cleanup |
| Lifecycle.LawSurvivesIff | lib/session.py:44-128 | the exact condition, for paid and free requests: the law survives every sane continuation, under the descriptors as they are, exactly when the contributions offered of the first price are not negative in sum, or the session comes to zero days or less on a gate other than WireGuard |
| Lifecycle.NonNegativeIsSane | lib/session.py:86-94 | the condition is met for non-negative prices, settings and days |
| Lifecycle.NegativeDaysBreakTheLaw | lib/session.py:86-94 | a concrete session of minus one day that is paid and does not cover its price after a load |
| WalletScan.ProcessPayment | lib/sessions.py:125-134 | the two loops over the found sessions load and credit exactly the live rows with the payment id, leave every other row alone, and answer with the credited sessions |
| WalletScan.UpdatedIsNew | lib/session.py:242-256 | a session is answered as credited exactly when its ledger did not hold the transfer |
| WalletCredit.CreditsInCoins | lib/wallet.py:165-169 | on the fields: a live row with the payment id and without the transfer gets one entry, of the transfer's amount times the coin unit, its height and transaction; every other ledger stays |
| WalletScan.WalletLoop.Turn | lib/wallet.py:144-177 | one turn of the loop: crediting of every returned transfer, and the narrowing of the window from 20000 blocks to 100 (`WindowInBlocks`) |
| WalletScan.ProcessedIndexed | lib/sessions.py:125-134 | crediting keeps columns and blob in agreement |
| WalletCredit.CreditedIffReturned | lib/wallet.py:144-177 | over any run of scans a live session's ledger holds exactly what it held before plus the matching transfers some scan returned, while other processes save, refresh and rekey sessions, this one included, without losing ledger entries |
| WalletCredit.WindowsCover | lib/wallet.py:155-164 | with heights at most 100 apart, every transfer from the skew the loop starts with below the first height up to the last height is returned by some scan |
| WalletCredit.SkewIsSkewAfter | lib/wallet.py:146-169 | the loop keeps the skew it started with until it has read a height, and carries the small one from then on |
| WalletCredit.CreditedExactlyOnce | lib/wallet.py:144-177 | end to end: such a transfer is in the session's ledger exactly once, with its amount times the coin unit, its height and transaction, however often the windows overlap |
| WalletCredit.FailedFirstFetchLosesHistory | lib/wallet.py:158-169 | after a first scan without transfers, nothing more than 100 below every height is ever credited |
| WalletStale.CreditedDespiteLosses | lib/sessions.py:125-134 | also when other processes save old copies over the session: a transfer that a scan returns, and returns again after every save that loses ledger entries, is in the ledger at the end, once |
| WalletStale.CreditedDespiteStaleSaves | lib/wallet.py:144-177 | end to end with stale saves: enough that the windows reach the transfer from the start and again after every losing save |
| SessionsRefresh.RefreshStatus | lib/sessions.py:26-65 | the server's refresh: cleanup, then load and activation of exactly the live, inactive, unexpired sessions |
| SessionsRefresh.RefreshActivates | lib/sessions.py:63-65 | a refresh makes a waiting session active exactly when what was paid covers the price it is loaded with, it has days, and WireGuard data if it needs them; otherwise the row stays as it is |
| SessionsRefresh.RefreshTouches | lib/sessions.py:16-65 | which rows a refresh keeps, which it loads and activates, and that every other one is only marked when it expired |
| Messages.DecodeEncode | lib/messages.py:76-84 | decoding an encoded message gives back its payload, for every codec that is faithful on that payload |
| Messages.EncodeInjective | lib/messages.py:49-68 | different framed messages have different texts, for every codec that is faithful on the payloads in the two, so the text can serve as key |
| Messages.StripMeans | lib/messages.py:49-68 | stripping a text takes exactly the blanks, tabs and line ends off both sides |
| Messages.RoutingOfText | lib/messages.py:93-111 | the text of a pay request starts with "Wallet/Pay:" and goes to the wallet, the others go to all, and "All/Paid:", "All/UnPaid:" and "All/Exit" are told apart |
| Payout.StripeManager.Poll | server/stripe.py:21-50 | on the fields of the payments: what is queued and entered is due for a succeeded payment of the list without a paid mark, to its wallet, of its amount times its rate, under its payment id; each once; every due payment of the list is outstanding afterwards; and nothing outstanding is lost |
| Payout.StripeManager.Confirm | server/stripe.py:53-62 | a notice settles its entry: marked at Stripe if that works, deleted from the table; any other message is dropped |
| Payout.StripeManager.SetAsPaid | server/stripe.py:86-97 | the payment is not payable any more, keeps its amount, and every other payment is untouched |
| Payout.Router.Route | server.py:188-212 | each message goes to the queues its prefix names (`Messages.RouteByPrefix`), or stops the loop |
| Payout.WalletService.Serve | lib/wallet.py:178-210 | a pay request is transferred once and answered by exactly one notice that carries it; the exit message ends the loop |
| Payout.Transfer | lib/wallet.py:235-275 | reports success exactly when the balance suffices and the call did not raise a wallet error, after waiting for locked coins; raises when a balance request is refused |
| Payout.ReportsTrueIff | lib/wallet.py:235-275 | success is reported exactly when, after readings that show enough coins of which some are locked, one shows enough unlocked coins, and the wallet answers with a result or not in time |
| PayoutRun.TransfersAccounted | server/stripe.py:21-65 | over every interleaving the transfers of a payment are: one if marked, one if its notice is on the way, plus one for each mark Stripe did not take |
| PayoutRun.AtMostOneTransfer | server/stripe.py:21-65 | if every mark is taken each payment is transferred at most once, and the transferred ones are exactly the marked ones and those with a notice on the way |
| PayoutRun.TransfersAreOwed | server/stripe.py:29-49 | every transfer of every run is for a payment that succeeded, to the wallet its metadata name, of its amount times their rate, under their payment id |
| PayoutRun.OneTokenPerMessage | server/stripe.py:41-50 | at most one request or notice per message is anywhere in the queues, and only for an outstanding entry |
| PayoutRun.RefusedIsNeverRetried | server/stripe.py:57-62 | after a refused transfer no later step transfers that message again |
| PayoutRun.RoundPays | lib/wallet.py:178-188 | from quiet queues a payable payment is transferred and marked by one round of steps |
| PayoutRun.NoneIsMerged | server/stripe.py:41-50 | any list of ready payments is carried out one by one, each exactly once, also when several have equal content |
| PayoutRun.FailedMarkPaysAgain | server/stripe.py:86-97 | a round whose mark is not taken leaves the payment ready, and the next round transfers it again |
| VdpStore.Db.Save | lib/vdpobject.py:137-180 | the in-place save equals the store function, with the refusal of an id of another kind; the row it leaves is written out on the descriptor's fields |
| VdpStore.SaveLeaves | lib/vdpobject.py:110-180 | on the fields: a newer row of the kind stays; any other is replaced by the descriptor with its revision or 0, its ttl or 30 days, and as expiry their sum, or 30 days from now when one is zero; no other id is touched |
| VdpStore.StoresNewest | lib/vdpobject.py:137-180 | after any sequence of saves with positive revisions the row of an id holds data, revision and ttl of the greatest revision received |
| VdpStore.ReplicasConverge | lib/vdpobject.py:137-180 | replicas that received the same descriptors in any order and with any repetition hold the same data, revision and ttl |
| VdpStore.RevisionLoweredIff | lib/vdpobject.py:137-180 | a save lowers the stored revision exactly when the incoming one is not positive and the stored one is greater |
| VdpStore.RevisionNeverDecreases | lib/vdpobject.py:137-180 | with positive revisions a stored revision never decreases |
| VdpImport.Import | lib/vdp.py:39-60 | the three loops import item by item until the first refusal and leave what was saved before |
| VdpImport.ItemsOf | lib/vdp.py:39-60 | the items are the document's providers, each its own provider, then its spaces, then its gates, with their fields |
| VdpImport.AdmittedWhen | lib/vdp.py:42-60 | on the fields: an item is saved exactly when its provider and all its spaces are live, otherwise the first one missing is the error; the saved row counts as own when its provider does |
| VdpImport.ListedForMonth | lib/vdpobject.py:116-126 | a descriptor with a positive revision and no ttl is listed exactly while less than 30 days have passed since its revision |
| VdpImport.ImportStaysClosed | lib/vdp.py:39-60 | import of any document keeps referential closure at every intermediate state, also where it raises |
| VdpImport.RefusalEndsImport | lib/vdp.py:46-60 | the first refused item ends the import with its error |
| VdpImport.FailureHasRefusal | lib/vdp.py:46-60 | a failed import was refused at some item |
| VdpImport.ImportedIsSound | lib/vdpobject.py:110-180 | imports leave rows whose revision, ttl and expiry follow from the fields of the stored descriptor |
| VdpImport.ExportImportRoundTrip | lib/vdp.py:143-158 | importing an exported database elsewhere succeeds exactly when live objects refer only to live objects, and then transfers exactly the live ones with their revisions |
| ProxyObject.Connections.Get | client/connection.py:226-230 | the first connection with the id, or none |
| ProxyObject.Connections.IsConnected | client/connection.py:232-236 | true exactly when some connection is to that gate and space |
| ProxyObject.Connections.FindByGateid | client/connection.py:260-263 | the id of the first connection to the gate |
| ProxyObject.Connections.Remove | client/connection.py:247-254 | removes every connection with the id and keeps the others in order |
| ProxyObject.Proxy.Disconnect | client/proxy.py:205-222 | removes and terminates exactly what is reachable through child links of listed connections, leaves the others in place and in order, and keeps the lists consistent |
| ProxyObject.Proxy.Connect | client/proxy.py:72-190 | answers, replaced connections, and the new entries in both lists, for every gate type (`LaunchesWhen`) and failure; never a second connection to a gate and space; keeps the lists consistent |
| ProxyObject.Proxy.ConnectInfo | client/proxy.py:256-267 | enters a forwarded connection in both lists and below its parent when that is listed, and raises with nothing changed when the record names no parent; keeps the lists consistent |
| ProxyObject.Proxy.RemoveDead | client/proxy.py:318-327 | drops the process entry, its connection and the direct children; keeps the lists consistent |
| ProxyObject.Proxy.CheckAlive | client/connection.py:273-277 | drops some connections and leaves the process list; keeps the lists consistent |
| ProxyObject.SecondDisconnect | client/proxy.py:205-222 | disconnecting the same id twice is disconnecting it once |
| ProxyObject.SoundIsAcyclic | client/proxy.py:256-267 | in every consistent state listed ids have process entries and no connection is below its own child |
| Forest.HitUnfold | client/proxy.py:212-213 | what a disconnect reaches is the id itself and what its children reach |
| Forest.HitBeside | client/proxy.py:212-213 | taking out what some children reach first does not change what a further one reaches besides |
| Forest.PathsGrowYounger | client/proxy.py:262-266 | along child links creation times grow, which ends the recursion |
| WgDump.ParseShowDump | lib/wg_engine.py:242-283 | an error exactly when a line after the first has neither eight fields nor one; otherwise the interface of the first line and the last line of each key |
| WgDump.LineMeans | lib/wg_engine.py:242-283 | which line is what by its number of fields, which field is which, and that (none) is an absent one |
| WgDump.RenderedReadsBack | lib/wg_engine.py:242-283 | reading a printed dump, with or without a final line break, gives back the interface and exactly the peers |
| WgDump.ReadsIsFunctional | lib/wg_engine.py:242-283 | that description admits one answer for each text |
| WgTable.DumpGivesTable | lib/wg_engine.py:242-290 | reading the printed dump of an interface gives back the peer table that allocator and passes work on, addresses and handshakes included |
| WgPool.FindFreeIp | server/wg_service.py:125-148 | the least address of the block that is not network, broadcast, gateway or some peer's single address, none exactly when there is none, an error when a peer has no allowed addresses |
| WgPool.PoolSize | server/wg_service.py:132-143 | a block of four addresses or more with an interior gateway has exactly the inner addresses but the gateway's to hand out, all but three of the number its prefix length gives |
| WgPool.SizeIsListed | server/wg_service.py:131-132 | the number of addresses of a block, by prefix length, against a table |
| WgPool.PoolRuns | server/wg_service.py:125-148 | along every run that installs each allocation before the next, from any interface with distinct usable addresses, addresses stay usable and pairwise distinct, and the allocator fails exactly when as many peers are installed as there are usable addresses |
| WgServer.WgService.FindPeersFromSessions | server/wg_service.py:59-67 | the loop builds the map from key to the last listed live active session of the gate |
| WgServer.NeededHolds | server/wg_service.py:59-67 | every needed key belongs to a stored live active session, and every such session's key is needed |
| WgServer.WgService.Pass | server/wg_service.py:27-51 | one pass as an outcome: peers kept, removed and added and sessions of stale free peers removed if it completes; exactly when it raises, and what is done by then |
| WgServer.WgService.RemoveSession | lib/session.py:324-332 | removes the session's peer, then marks its row |
| WgServer.WgService.RekeySession | server/http.py:239-250 | the answer code for every request, the peer installed when the load activates the session, the new record with a least free address after that, and what is stored |
| WgServer.ListedSame | server/wg_service.py:133-141 | the allocator sees the interface's addresses whatever the order of the dump |
| WgServer.LoadHereWhen | server/http.py:239-244 | when loading a session for a rekey activates it, when it raises, and the record it leaves |
| WgReconcile.OnePass | server/wg_service.py:27-51 | a pass, however it ends, makes the interface agree with the live active sessions exactly when it does not raise and no key it evicts is held by a second session |
| WgReconcile.OnePassOfDistinctKeys | server/wg_service.py:27-51 | with distinct keys one pass reaches agreement exactly when it does not raise |
| WgReconcile.NoneLeftToEvict | server/wg_service.py:37-44 | after a pass nothing is stale: kept peers were looked at and a new peer has no handshake |
| WgReconcile.SecondRaises | server/wg_service.py:46-51 | the pass after a complete one raises exactly when the next holder of an evicted key has no address |
| WgReconcile.TwoPasses | server/wg_service.py:27-51 | from any interface and table, at a fixed time without new handshakes, the service outlives any number of passes exactly when neither of the first two raises, and then two passes reach agreement and no later pass changes anything |
| WgReconcile.WhoIsRemoved | server/wg_service.py:36-44 | a pass removes a session only if it is live, active and free and its peer's last handshake is older than the timeout; with distinct keys, exactly then, and the peer goes too |
| WgReconcile.PaidPeersStay | server/wg_service.py:36-45 | the peer of a live paid session stays unchanged, however old its handshake |
| WgReconcile.PeersOutliveCleanup | server/wg_service.py:33-51 | after a cleanup at t and any further writes, every peer a pass leaves belongs to a live active session that expires at t or later |
| WgReconcile.PassInstalls | server/wg_service.py:97-111 | every peer a pass adds is allowed exactly the address of the session needed under its key and has no handshake, so that the next allocation finds the address occupied; a pass that completes adds all of them and no other |
| WgReconcile.LoadInstalls | server/wg_service.py:97-111 | a load that activates installs that session's peer with its own address, and leaves every other peer |
| WgReconcile.RekeyHandover | server/http.py:239-250 | the next pass completes with the new key installed exactly when the session was unexpired, an address was free and no other needed peer lacks one; and exactly when it raises; the peer under the new key is allowed exactly the new address |
| WgReconcile.RekeyKeepsOthers | server/wg_service.py:36-51 | however that pass ends, the old key is gone unless another session holds it, every other needed peer stays, and the new address differs from every address installed at the rekey |
| WgReconcile.FullPoolStopsService | server/wg_service.py:69-123 | after a rekey while the pool is full the next pass raises and ends in disagreement |

## Left out

- GUI, request parsing and schema validation, TLS and SSH proxying, sockets, subprocesses, RPC and market prices: I/O or library behaviour.
- SQL text and the database engine: tables are maps, and a save is one atomic step.
- Floating point: coins are `real`; the conversion of amounts to atomic units in a transfer is not modelled.
- Pickle and base64: an injective encoding without the separator (section 6.8 of RFC 2045).
- Parsing of the contributions setting: it is a list of wallet, purpose and amount, and a malformed setting is not modelled.
- `Session.reuse` and `get_pay_msgs`: the first stores a one-element tuple as price, the second repeats contributions.
- The filters `noparent`, `wg_public` and `needs_reuse`: a missing parent is stored as False, and no field is named `wg_public`.
- A session whose gate or space is unknown: its load raises in the source; here the catalogue is total.
- The client half of `refresh_status`: it appears as steps of the lifecycle (receiving the server's record, delete).
- The fields for a sent payment and for the parent session, and the hook commands run on activation.
- An activation that raises while the wallet scans or a refresh runs: it ends the process; both are modelled with activations that work, and in the lifecycle a call that raises leaves no copy behind.
- Blockchain reorganisations, cached RPC answers and process restarts.
- The end of the wallet process when a balance request raises: the pay message it was serving gets no notice.
- The listing window of Stripe: a poll takes any list of payments.
- Deactivating a client's WireGuard interface on disconnect, browser start and automatic reconnects; the refresh thread runs between the proxy's steps, not within them.
- A process that exits with code zero: the source never sees it as dead; here the caller names the dead entry.
- A failing `wg` command, preshared keys, IPv6 addresses, and the kernel's moving of an address claimed by two peers.
- Peers of other gates: each gate's service has its own interface, and a rekey is modelled for a session of that gate.
- Agreement of addresses between a session and a peer already installed: a pass never updates one.
- WgReconcile.TwoPasses: the query lists the rows in the same order in every pass; with an order that changes between passes a key shared by a free and a paid session may be evicted later, once.
- Lifecycle.ServerLifecycle: without `reuse`, and for non-negative payments.
- Lifecycle.LawSurvivesIff: for a positive unpaid expiry, and no change of gate and space descriptors after the request; `Lifecycle.ServerLifecycle` allows such changes.
- SessionObject.Session.Generate: user name, password, bearer, wallet and sent payment of a new record are not modelled, because no property reads them.
- SessionObject.Session.Load: a record without a contributions field and an unknown gate or space are not modelled.
- SessionTable.SessionDb.Find: answers ids; the loads of the found records are in `WalletScan` and `Lifecycle`, where they matter.
