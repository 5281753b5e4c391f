# simple-tls in Dafny

A model of the simple-tls protocol stack and proofs about it. The two handshakes are state
machines over arbitrary peer input, the record layer and its ciphers are objects with buffers and
counters, and hash functions, HKDF, HMAC, signatures, ciphers and key exchange are arbitrary
functions or free constructors. `dafny verify dfyconfig.toml` checks everything.

## How it is organised

| files | what they model |
|---|---|
| `HandshakeCore` | symbolic secrets and transcripts, the message buffer and cache, key installation, nonces: what both handshakes share |
| `ClientMachine`, `ClientInv`, `ClientProofs`, `ClientRuns`, `ClientTheorems`, `ClientConnection` | the client's dispatch table, its invariant, one lemma per handler, whole runs, what follows, and the connection's loop around it |
| `ServerMachine`, `ServerInv`, `ServerProofs`, `ServerRuns`, `ServerTheorems` | the same for the server |
| `Agreement`, `Honest`, `HonestRun` | both machines over FIFO channels, and a run of both from start to end, with ECH, a HelloRetryRequest and a resumed session |
| `KeyUpdate`, `UpdateLink` | key updates in both directions after the handshake, and why the two machines are such parties |
| `Bits`, `CbcPadding` | the constant-time padding and MAC removal in C, for any word width |
| `Cbc`, `Cipher`, `RecordCiphers`, `Hpke` | the four record protection modes and HPKE contexts |
| `Records`, `AppData`, `RecordPath` | records and messages out of chunked streams, `read()`, sealing into fixed buffers, and all of it from end to end |
| `Transcript`, `CodecObjects` | the transcript with its cached hash objects, the key schedule, parser and writer objects |
| `Wire`, `Messages` | formats that are bijections, from integers to hellos, certificates and ECH configurations |
| `EchHello`, `EchBuilder`, `EchAcceptance`, `EchExchange`, `PskBinder` | ECH compression and expansion, acceptance confirmation, the whole ECH exchange, PSK binders |
| `CertPath` | the certification path search and the checks on a chain |

A handler of the handshake is a function from the machine's state, the message it looks at and an
oracle to a new state. The oracle holds everything a handler does not compute itself (random
values, results of foreign checks, what a message contains beyond its type) and may be anything at
any step, so every statement about runs is about every peer. A run is any sequence of actions:
handler calls with what their status asks for, records delivered, writes and alerts at the points
where a user may write, and `update_key`. The dispatch loops and the connection's loop are methods
of classes that hold the state.

The invariant of each machine says, state by state, what is known: that all input is accounted for,
that the transcript is what the wire log says, which generation the key schedule is in and what the
secrets look like, which keys are installed, that nothing is pending or unread where keys change,
which checks have passed, and that no nonce came twice. Secrets are free terms, so equal verify
data means equal secrets and equal transcripts; agreement of the two parties follows from that. For
honest parties it is also shown without it: key shares, tickets and confirmations of ECH travel in the
messages, the two logs mirror each other, so both sides come to the same decisions, derive the same
secrets from the same transcripts, and both Finished messages verify. What a handler hashes and when it
rewrites the transcript is its own choice, as in the code; that the transcript is what the wire log
says is proved.

## Where the code does not do what one would expect

* The client asserts a resumed session once a server accepts early data, without having checked it.
  A server that answers `early_data` in a full handshake makes the assertion fail:
  `ClientTheorems.CrashExactly` says exactly when, over all runs, and `CrashIsReachable` gives one.
* `shutdown()` between `update_key()` and the next handshake call sends the alert after the
  KeyUpdate but under the old key, so the peer cannot read it: `KeyUpdates.CloseReadableIff`,
  `CloseOverUpdateBreaks`.
* After a HelloRetryRequest that did not confirm ECH the client builds an outer hello, computes its
  binders over random identities and then puts the real ones in, so the binders do not verify:
  `PskBinder.BinderVerifiesIff` says exactly when, `GreasedBinderFails` gives a case. This
  repository's own server does not notice: it checks a second hello's binder only if it took a key
  from the first one, whose outer identities are random too.
* The path search remembers an edge by the subject of its lower end, so of two certificates with
  one subject only the first is extended to a given issuer. A valid chain can be missed:
  `CertPath.RenewedIssuerLoses`; `CertPath.AllFoundIff` says exactly when every path is looked at.
* A receiving HPKE context uses up a sequence number for a message that does not open
  (`Hpke.Context.Open`); section 5.2 of RFC 9180 advances it after a successful one only.
* The path length test compares before the child is counted, as the code has it; the wording of
  section 4.2.1.9 of RFC 5280 is not used.
* `read()` with a negative length returns all but the last octets of what is pending.
* The CBC open methods want a block more room than the ciphertext, so records within one block of
  the largest length that the header check admits find their buffer too small; honest ones are far
  below (`Sealing.HonestFitsReadBuffer`).

## Model

| member | source | states |
|---|---|---|
| `Agreement.SecretsAgreeWhenDone` | src/simple_tls/tls/handshake_client.py:1303-1372 | in every joint run over FIFO channels where both parties are done and the client speaks TLS 1.3, the server does too; the handshake secrets are equal in opposite roles; each application secret is, on either side, the generation of one common secret that is counted by the KeyUpdates that side has put into use, and no side has read more updates than the other sent; both hashed the same transcript at either Finished; both schedules started from the same early secret |
| `Agreement.SecretsEqualWhenQuiet` | src/simple_tls/tls/handshake.py:785-799 | with nothing under way each side's application write secret is the other's read secret, whatever updates there were |
| `Agreement.AgreeOnFinished` | src/simple_tls/tls/handshake_client.py:1523-1563 | the same agreement of secrets and transcripts as soon as the client has accepted a Finished that the server sent, with no other assumption about the network |
| `Agreement.AgreeOnClosing` | src/simple_tls/tls/handshake_server.py:1711-1735 | the client Finished that the server accepted covers the transcript at which the client computed it |
| `Honest.HonestFinishedVerifies` | src/simple_tls/tls/handshake_client.py:1533-1541 | in every joint run, when the client looks at a Finished: the server runs TLS 1.3 too, both agree on retry, resumption and whether ECH is on, hold the same handshake secret and transcript, and the Finished verifies. Assumed is only that the client's key is the one in its ticket, if the server can open that |
| `Honest.HonestClosingVerifies` | src/simple_tls/tls/handshake_server.py:1719-1729 | in every joint run, when the server looks at a Finished of the client, it verifies: the client speaks TLS 1.3, and both hashed the same messages up to there |
| `HonestRun.FinishedIsReached` | src/simple_tls/tls/handshake_client.py:1523-1533 | there is a joint run in which the client looks at the server's Finished, after a HelloRetryRequest, with ECH accepted and a session resumed, so the hypotheses above can be met |
| `HonestRun.ClosingIsReached` | src/simple_tls/tls/handshake_server.py:1711-1719 | the same run gets to where the server looks at the client's |
| `HonestRun.DoneIsReached` | src/simple_tls/tls/handshake_client.py:1629-1653 | and to where both are done with nothing under way |
| `Honest.Mirror` | src/simple_tls/tls/handshake.py:570-605 | over FIFO channels the logs of both sides up to the server's Finished hold the same messages in the same order, retried alike |
| `Honest.SameHandshakeSecret` | src/simple_tls/tls/handshake_server.py:1441-1456 | logs that mirror each other settle retry, resumption, ECH, hash, key exchange and the transcript at the ServerHello alike |
| `Honest.SameTicket` | src/simple_tls/tls/handshake_server.py:1031-1056 | the server finds the ticket where the client put it, in the inner hello exactly if ECH is on, so the schedules start from one key |
| `Honest.SameClosing` | src/simple_tls/tls/handshake_server.py:1601-1735 | after the server's Finished both logs hold the same reply, up to the client's Finished |
| `Honest.SamePlace` | src/simple_tls/tls/handshake.py:570-595 | the first Finished of a stream is in one place only |
| `Agreement.RunReaches` | src/simple_tls/tls/connection.py:301-332 | each party of a joint run is in a state of a run of its own, so everything proved against arbitrary peers holds for it |
| `Agreement.FinishedFromPeer` | src/simple_tls/tls/handshake.py:570-595 | over a FIFO channel a Finished that one side consumed is one the other side sent |
| `Agreement.VerifyDataInjective` | src/simple_tls/tls/utils.py:269-280 | verify data determines hash, secret and transcript |
| `Agreement.KeysAgree` | src/simple_tls/tls/utils.py:313-338 | secrets that grew from one handshake secret and one transcript agree in opposite roles |
| `Agreement.UpdatesArrive` | src/simple_tls/tls/handshake.py:801-812 | over a FIFO channel no more KeyUpdates are read than were written |
| `ClientTheorems.AuthenticatedWhenDone` | src/simple_tls/tls/handshake_client.py:1443-1543 | against any peer: done in TLS 1.3 means an offered session was resumed, or chain (for the configured name), CertificateVerify and Finished were checked in this order; ECH is not rejected; at most one HelloRetryRequest was accepted |
| `ClientTheorems.MessagesCountedOnce` | src/simple_tls/tls/handshake.py:570-605 | all input is consumed, being looked at, or waiting, in order; what the handlers chose to hash and to rewrite amounts to this: each hashed message is in the transcript exactly once and in wire order, with everything before a HelloRetryRequest folded into a message hash, and inner hellos in place of outer ones after ECH acceptance |
| `ClientTheorems.KeysChangeAtBoundaries` | src/simple_tls/tls/connection.py:459-463 | no write key is ever installed over pending messages, no TLS 1.3 read key inside or before an unread message, and only one assertion can fail |
| `ClientTheorems.NoncesNeverRepeat` | src/simple_tls/tls/connection.py:577-589 | no two records of a connection share key and sequence number, although the TLS 1.2 client installs its write key twice |
| `ClientTheorems.CrashExactly` | src/simple_tls/tls/handshake_client.py:1380-1407 | in every run, at every state and for every action of the connection: an assertion of the client fails exactly if it is a handler call in ReadEncryptedExtensions13, the next message is an EncryptedExtensions that passes the other checks and accepts early data, and early data was offered in the first flight, without a retry, for a session that was not resumed |
| `ClientTheorems.CrashIsReachable` | src/simple_tls/tls/handshake_client.py:1399-1402 | a run of eleven actions in which that assertion fails |
| `ClientTheorems.CyclicWithoutFlag` | src/simple_tls/tls/handshake_client.py:1020-1084 | no number per state goes down with every handler: whatever the numbers, some handler in some run goes on to another state without lowering it, since full and resumed TLS 1.2 handshakes run through the states in different orders |
| `ClientTheorems.FullRun` | src/simple_tls/tls/handshake_client.py:1020-1084 | a full TLS 1.2 handshake runs from SendChangeCipherSpec through SendClientFinished and FinishFlight to ReadSessionTicket |
| `ClientTheorems.ResumedRun` | src/simple_tls/tls/handshake_client.py:1020-1084 | a resumed one runs from ReadSessionTicket through ProcessChangeCipherSpec and ReadServerFinished to SendChangeCipherSpec |
| `ClientTheorems.Handshake.DoHandshake` | src/simple_tls/tls/handshake.py:510-522 | the dispatch loop ends, done or with a status the connection acts upon, keeping the invariant |
| `ClientConnection.Connection.DoHandshake` | src/simple_tls/tls/connection.py:301-332 | the connection's loop ends, keeps the invariant, and its assertions hold: without a status the handshake is done, and neither that nor an early return happens with ECH rejected |
| `ClientRuns.ReachableInv` | src/simple_tls/tls/handshake_client.py:278-318 | the invariant holds in every state of every run, whatever the peer sends |
| `ClientRuns.ApplyKeeps` | src/simple_tls/tls/connection.py:301-332 | every action of the connection (handler, record, change_cipher_spec, write or alert, update_key) keeps the invariant |
| `ClientRuns.StepKeeps` | src/simple_tls/tls/handshake_client.py:278-318 | every handler keeps the invariant and, unless it waits, lowers the rank or uses up a message; none leads to a state without a handler |
| `ClientRuns.SettleKeeps` | src/simple_tls/tls/connection.py:301-332 | acting on the returned status keeps the invariant and leaves nothing pending where nothing may |
| `ClientRuns.SendKeeps` | src/simple_tls/tls/connection.py:524-531 | writing at a point where the user may write keeps the invariant |
| `ClientRuns.FeedKeeps` | src/simple_tls/tls/handshake.py:539-540 | feeding a record of handshake data keeps the invariant |
| `ClientRuns.RequestKeeps` | src/simple_tls/tls/handshake_client.py:334-338 | update_key keeps the invariant |
| `ClientRuns.PeekKeeps` | src/simple_tls/tls/handshake.py:570-586 | peeking at the next message keeps the invariant |
| `ClientProofs.StartKeeps` | src/simple_tls/tls/handshake_client.py:340-440 | sending the first hello: one message in the log, inner transcript set up, nothing keyed |
| `ClientProofs.EnterEarlyKeeps` | src/simple_tls/tls/handshake_client.py:442-478 | the early write key is installed over an empty flight and is fresh |
| `ClientProofs.ServerHelloKeeps` | src/simple_tls/tls/handshake_client.py:484-636 | the version is fixed without touching the transcript; TLS 1.2 rejects ECH and goes on unkeyed |
| `ClientProofs.CompatKeeps` | src/simple_tls/tls/handshake_client.py:1086-1093 | only the state changes, the ServerHello stays cached |
| `ClientProofs.RetriedKeeps` | src/simple_tls/tls/handshake_client.py:1127-1199 | both transcripts are rewritten by the handler and stay the wire's two views, ECH is decided, early data ends with an unkeyed writer |
| `ClientProofs.HrrKeeps` | src/simple_tls/tls/handshake_client.py:1095-1199 | a ServerHello followed by unread data is refused; otherwise the schedule starts at generation 0 |
| `ClientProofs.SecondHelloKeeps` | src/simple_tls/tls/handshake_client.py:1201-1211 | the second hello enters both transcripts |
| `ClientProofs.AgreedKeys` | src/simple_tls/tls/handshake_client.py:1271-1352 | both handshake secrets come from one schedule of generation 2, started from the offered PSK exactly when resumed |
| `ClientProofs.ProceedKeeps` | src/simple_tls/tls/handshake_client.py:1354-1378 | read key installed on a drained buffer, write key only without early data on offer |
| `ClientProofs.RetrySeen` | src/simple_tls/tls/handshake_client.py:1144-1161 | the check of the request's confirmation decides as the log does |
| `ClientProofs.HelloSeen` | src/simple_tls/tls/handshake_client.py:1238-1268 | so does the check of the ServerHello's |
| `ClientProofs.ClientSettles` | src/simple_tls/tls/handshake_client.py:1271-1352 | the secret derived at the ServerHello is the one the log amounts to: its hash, transcript, key exchange, confirmation and resumption |
| `ClientProofs.ServerHello13Keeps` | src/simple_tls/tls/handshake_client.py:1213-1379 | on confirmation the inner transcript, which is the wire's inner view, takes over |
| `ClientProofs.EncryptedExtensionsKeeps` | src/simple_tls/tls/handshake_client.py:1381-1441 | early data is settled; the write key is the early or the handshake one accordingly |
| `ClientProofs.CertificateRequestKeeps` | src/simple_tls/tls/handshake_client.py:1443-1473 | a message of another type stays cached and uncounted |
| `ClientProofs.CertificateKeeps` | src/simple_tls/tls/handshake_client.py:1475-1501 | chain check recorded for the hostname, or for the public name when ECH is rejected |
| `ClientProofs.CertificateVerifyKeeps` | src/simple_tls/tls/handshake_client.py:1503-1521 | signature check recorded after the chain check |
| `ClientProofs.ServerFinishedKeeps` | src/simple_tls/tls/handshake_client.py:1523-1563 | only matching verify data passes; application secrets follow from the transcript that includes it; the buffer is drained |
| `ClientProofs.EndOfEarlyDataKeeps` | src/simple_tls/tls/handshake_client.py:1565-1574 | the early-data assertion holds and EndOfEarlyData leaves under the early key |
| `ClientProofs.ClientExtensionsKeeps` | src/simple_tls/tls/handshake_client.py:1576-1597 | after accepted early data the handshake write key is installed over an empty flight |
| `ClientProofs.ClientCertificateKeeps` | src/simple_tls/tls/handshake_client.py:1599-1607 | certificate messages enter the log once |
| `ClientProofs.ClientFinishedKeeps` | src/simple_tls/tls/handshake_client.py:1609-1620 | the one handshake Finished covers the transcript so far under the client's handshake secret |
| `ClientProofs.CompleteKeeps` | src/simple_tls/tls/handshake_client.py:1622-1627 | both application keys installed, reading on a drained buffer, writing over an empty flight with a fresh key |
| `ClientProofs.FinishKeeps` | src/simple_tls/tls/handshake_client.py:1629-1653 | never done with ECH rejected |
| `ClientProofs.KeyUpdateKeeps` | src/simple_tls/tls/handshake_client.py:1737-1771 | the read secret moves one generation on a drained buffer, a requested update is queued once |
| `ClientProofs.PostHandshakeKeeps` | src/simple_tls/tls/handshake_client.py:1680-1775 | tickets are not hashed, post-handshake Finished uses the application secret, anything else is refused |
| `ClientProofs.CompleteUpdateKeeps` | src/simple_tls/tls/handshake_client.py:1670-1673 | the write secret moves to a generation never used before |
| `ClientRuns.LegacyCertificateKeeps` | src/simple_tls/tls/handshake_client.py:638-665 | TLS 1.2 certificate consumed once |
| `ClientRuns.LegacyMessageKeeps` | src/simple_tls/tls/handshake_client.py:667-843 | each awaited TLS 1.2 message is consumed once, each absent optional one stays cached |
| `ClientRuns.LegacyCertificateSent` | src/simple_tls/tls/handshake_client.py:845-894 | the certificate waits for the flight |
| `ClientRuns.LegacyExchangeSent` | src/simple_tls/tls/handshake_client.py:896-965 | traffic keys exist from here on |
| `ClientRuns.LegacyVerifySent` | src/simple_tls/tls/handshake_client.py:967-991 | the flight is packed before keys change |
| `ClientRuns.LegacyWriteKey` | src/simple_tls/tls/handshake_client.py:993-997 | first install of the write key with nothing sealed before |
| `ClientRuns.LegacyFinishedSent` | src/simple_tls/tls/handshake_client.py:999-1018 | second install of the same key, still with nothing sealed in between |
| `ClientRuns.LegacyFlight` | src/simple_tls/tls/handshake_client.py:1020-1028 | the order of flights depends on resumption |
| `ClientRuns.LegacyReadKey` | src/simple_tls/tls/handshake_client.py:1054-1058 | the read key exists when change_cipher_spec is processed |
| `ClientRuns.SkipKeeps` | src/simple_tls/tls/handshake_client.py:480-482 | handlers that skip only change the state |
| `ClientRuns.SkipLegacy` | src/simple_tls/tls/handshake_client.py:638-646 | TLS 1.2 handlers that skip only change the state |
| `ClientRuns.SkipFinal` | src/simple_tls/tls/handshake_client.py:1666-1668 | a waiting KeyUpdate goes out before the key changes |
| `ServerTheorems.AuthenticatedWhenDone` | src/simple_tls/tls/handshake_server.py:1658-1735 | done in TLS 1.3 means the client Finished was checked, after chain and CertificateVerify if a certificate came, which it must when required in a full handshake |
| `ServerTheorems.MessagesCountedOnce` | src/simple_tls/tls/handshake_server.py:1149-1204 | conservation of input, each hashed message once and in wire order, at most one HelloRetryRequest |
| `ServerTheorems.KeysChangeAtBoundaries` | src/simple_tls/tls/handshake_server.py:1609-1617 | no key change over pending or unread messages, and no assertion ever fails |
| `ServerTheorems.NoncesNeverRepeat` | src/simple_tls/tls/connection.py:577-589 | no two records of a connection share key and sequence number |
| `ServerTheorems.Handshake.DoHandshake` | src/simple_tls/tls/handshake_server.py:255-296 | the server's dispatch loop ends and keeps the invariant |
| `ServerRuns.ReachableInv` | src/simple_tls/tls/handshake_server.py:255-296 | the invariant holds in every state of every run |
| `ServerRuns.ApplyKeeps` | src/simple_tls/tls/connection.py:301-332 | every action of the connection keeps the invariant, also records fed by read() during early data |
| `ServerRuns.StepKeeps` | src/simple_tls/tls/handshake_server.py:255-296 | every handler keeps the invariant and, unless it waits, lowers the rank or uses up a message |
| `ServerProofs.ClientHelloKeeps` | src/simple_tls/tls/handshake_server.py:322-441 | version and ECH view are chosen while nothing is hashed; an inner hello that negotiates below TLS 1.3 is refused |
| `ServerProofs.SelectKeeps` | src/simple_tls/tls/handshake_server.py:976-1209 | trailing data is refused; schedule of generation 1 from the accepted PSK or from none; early data only when resumed without retry |
| `ServerProofs.RetryKeeps` | src/simple_tls/tls/handshake_server.py:1211-1247 | the one HelloRetryRequest goes out behind the transcript that was rewritten one handler earlier, and the log agrees again |
| `ServerProofs.RetrySends` | src/simple_tls/tls/handshake_server.py:1211-1247 | the request names a group exactly if another share is wanted, and confirms the inner hello exactly if ECH is on |
| `ServerProofs.SecondTakes` | src/simple_tls/tls/handshake_server.py:1338-1356 | the share in use is one that was offered for it, in the second hello if a group was asked for |
| `ServerProofs.ServerSettles` | src/simple_tls/tls/handshake_server.py:1398-1456 | the secret derived at the ServerHello is the one the log amounts to: its hash, transcript, key exchange, confirmation and resumption |
| `ServerProofs.SecondHelloKeeps` | src/simple_tls/tls/handshake_server.py:1255-1396 | the second hello enters in the same view as the first, and nothing may follow it |
| `ServerProofs.HelloKeys` | src/simple_tls/tls/handshake_server.py:1402-1456 | both handshake secrets come from one schedule of generation 2 and the transcript with the ServerHello |
| `ServerProofs.ServerHelloKeeps` | src/simple_tls/tls/handshake_server.py:1398-1459 | the assertion on generation 1 holds; the hello is packed before keys change |
| `ServerProofs.ExtensionsKeeps` | src/simple_tls/tls/handshake_server.py:1470-1555 | the write key is installed over an empty flight before EncryptedExtensions |
| `ServerProofs.ServerFinishedKeeps` | src/simple_tls/tls/handshake_server.py:1557-1584 | the assertion on generation 2 holds; the only Finished covers the transcript so far; application secrets include it |
| `ServerProofs.SecondFlightKeeps` | src/simple_tls/tls/handshake_server.py:1586-1599 | write key fresh and over an empty flight; the early read key only on a drained buffer |
| `ServerProofs.EndOfEarlyDataKeeps` | src/simple_tls/tls/handshake_server.py:1601-1620 | EndOfEarlyData must be last; then the handshake read key on a drained buffer |
| `ServerProofs.NoEarlyDataKeeps` | src/simple_tls/tls/handshake_server.py:1601-1620 | without early data the handshake read key on a drained buffer |
| `ServerProofs.ClientExtensionsKeeps` | src/simple_tls/tls/handshake_server.py:1622-1656 | client extensions consumed once |
| `ServerProofs.CertificateKeeps` | src/simple_tls/tls/handshake_server.py:1658-1685 | a required certificate must come, and its chain is checked |
| `ServerProofs.CertificateVerifyKeeps` | src/simple_tls/tls/handshake_server.py:1687-1709 | signature check recorded after the chain check |
| `ServerProofs.ClientFinishedKeeps` | src/simple_tls/tls/handshake_server.py:1711-1735 | only matching verify data passes, as the last message; then the application read key |
| `ServerProofs.TicketKeeps` | src/simple_tls/tls/handshake_server.py:1737-1784 | the assertion on generation 3 holds; tickets are not hashed |
| `ServerProofs.CompleteUpdateKeeps` | src/simple_tls/tls/handshake_server.py:1812-1815 | the write secret moves to a generation never used before |
| `ServerProofs.PostHandshakeKeeps` | src/simple_tls/tls/handshake_server.py:1822-1855 | a KeyUpdate must be last; the read secret moves one generation |
| `ServerRuns.SelectLegacyKeeps` | src/simple_tls/tls/handshake_server.py:443-585 | the assertion that ECH was not accepted holds |
| `ServerRuns.LegacyHelloSent` | src/simple_tls/tls/handshake_server.py:587-630 | TLS 1.2 hello waits for the flight |
| `ServerRuns.LegacyCertificateSent` | src/simple_tls/tls/handshake_server.py:632-646 | certificate waits for the flight |
| `ServerRuns.LegacyExchangeSent` | src/simple_tls/tls/handshake_server.py:648-695 | key exchange waits for the flight |
| `ServerRuns.LegacyHelloDoneSent` | src/simple_tls/tls/handshake_server.py:697-744 | the flight is flushed |
| `ServerRuns.LegacyCertificateKeeps` | src/simple_tls/tls/handshake_server.py:746-766 | a required certificate must come |
| `ServerRuns.LegacyExchangeKeeps` | src/simple_tls/tls/handshake_server.py:777-851 | traffic keys exist from here on |
| `ServerRuns.LegacyMessageKeeps` | src/simple_tls/tls/handshake_server.py:853-936 | each awaited TLS 1.2 message is consumed once |
| `ServerRuns.LegacyReadKey` | src/simple_tls/tls/handshake_server.py:886-889 | the read key exists when change_cipher_spec is processed |
| `ServerRuns.LegacyTicketSent` | src/simple_tls/tls/handshake_server.py:938-951 | the flight is packed before keys change |
| `ServerRuns.LegacyFinishedSent` | src/simple_tls/tls/handshake_server.py:957-974 | the write key is installed over an empty flight with nothing sealed before |
| `HandshakeCore.ConsumeLog` | src/simple_tls/tls/handshake.py:588-595 | consuming a message keeps conservation and the transcript's agreement with the wire, if the caller's `update_hash` is right for it |
| `HandshakeCore.RetryLog` | src/simple_tls/tls/handshake_client.py:1135-1191 | rewriting the transcript and then hashing the HelloRetryRequest is what the wire's transcript asks for |
| `HandshakeCore.AddRetryLog` | src/simple_tls/tls/handshake_server.py:1202-1244 | the same for the server, which rewrites one handler before it sends the request |
| `HandshakeCore.AddLog` | src/simple_tls/tls/handshake.py:597-605 | the same for sending one |
| `HandshakeCore.InstallNonces` | src/simple_tls/tls/connection.py:409-463 | a key of higher rank than all before it brings no nonce back |
| `ClientProofs.UpdateWriteKeeps` | src/simple_tls/tls/handshake.py:785-799 | a key update moves the write secret one generation up and installs it; secrets keep their root |
| `ClientProofs.UpdateReadKeeps` | src/simple_tls/tls/handshake.py:785-799 | the same for reading, on a drained buffer |
| `Transcripts.KeySchedule.Extract` | src/simple_tls/tls/utils.py:323-338 | the object goes through exactly the schedules the handshake model uses |
| `KeyUpdates.EveryRecordOpens` | src/simple_tls/tls/handshake_client.py:1744-1771 | from parties in step, over any interleaving of writes, reads and key updates in both directions, every record opens with the key and sequence number it was sealed with |
| `UpdateLink.RecordsOpen` | src/simple_tls/tls/connection.py:339-345 | from any joint run that has brought both machines to be done with nothing under way: whatever calls follow on either side, write, update_key, do_handshake and reading one record, in any interleaving, each record finds the reading machine with the key it was sealed under, and the records that the machines sealed are those of the parties |
| `UpdateLink.MachinesFollow` | src/simple_tls/tls/connection.py:339-345 | by induction over any sequence of calls on either side: the two machines stay reachable and do what the two parties do |
| `UpdateLink.DoneFollows` | src/simple_tls/tls/connection.py:339-345 | two machines that a joint run has brought to be done, with nothing under way, are parties in step |
| `UpdateLink.ClientFollows` | src/simple_tls/tls/handshake_client.py:1655-1771 | one call on the client, as a sequence of machine actions, does what the step of the party does: same keys, same records sealed, same update pending |
| `UpdateLink.ServerFollows` | src/simple_tls/tls/handshake_server.py:1797-1855 | the same for the server |
| `UpdateLink.ClientSettles` | src/simple_tls/tls/handshake_client.py:1655-1673 | do_handshake of the client with an update pending lets the KeyUpdate out and moves the write key |
| `UpdateLink.ClientRequests` | src/simple_tls/tls/handshake_client.py:334-338 | update_key() of the client machine is that of the party |
| `UpdateLink.ClientFlushes` | src/simple_tls/tls/handshake_client.py:1666-1668 | the client's first update handler lets the waiting KeyUpdate out under the old key, as the party does |
| `UpdateLink.ClientRekeys` | src/simple_tls/tls/handshake_client.py:1670-1673 | its second one moves the write key, as the party does |
| `UpdateLink.ClientSends` | src/simple_tls/tls/connection.py:524-531 | writing and alerts of the client machine are those of the party |
| `UpdateLink.ClientTakes` | src/simple_tls/tls/handshake_client.py:1737-1771 | a KeyUpdate delivered to the client machine and handled is one read by the party, with its answer |
| `UpdateLink.ServerSettles` | src/simple_tls/tls/handshake_server.py:1797-1815 | do_handshake of the server with an update pending |
| `UpdateLink.ServerRequests` | src/simple_tls/tls/handshake_server.py:312-316 | update_key() of the server machine |
| `UpdateLink.ServerFlushes` | src/simple_tls/tls/handshake_server.py:1808-1810 | the server's waiting KeyUpdate goes out under the old key |
| `UpdateLink.ServerRekeys` | src/simple_tls/tls/handshake_server.py:1812-1815 | the server's write key moves |
| `UpdateLink.ServerSends` | src/simple_tls/tls/connection.py:524-531 | writing and alerts of the server machine |
| `UpdateLink.ServerTakes` | src/simple_tls/tls/handshake_server.py:1822-1855 | a KeyUpdate delivered to the server machine and handled |
| `KeyUpdates.GenerationsCountUpdates` | src/simple_tls/tls/handshake.py:785-799 | that key is of the generation counted by the KeyUpdates before the record, and the number counts the records since the last one |
| `KeyUpdates.CloseReadableIff` | src/simple_tls/tls/connection.py:334-337 | a close_notify can be read exactly when no update of the closing party waits |
| `KeyUpdates.CloseOverUpdateBreaks` | src/simple_tls/tls/connection.py:334-345 | update_key, shutdown, two reads by the peer: the second fails |
| `KeyUpdates.ReadLinks` | src/simple_tls/tls/connection.py:227-233 | the next record opens and a requested update is answered at once, both directions staying in step |
| `CbcPadding.PaddingMask` | ext/utils.c:187-211 | for every buffer the mask is zero exactly for well-formed padding, and all ones when the length octet is impossible |
| `CbcPadding.MacStart` | ext/utils.c:128-135 | the MAC position never underflows and lies inside the last 320 octets; for good padding it is the true one |
| `CbcPadding.GetMac` | ext/utils.c:117-167 | for good padding the MAC array is the true slice, for an impossible length the random one; nothing else is written |
| `CbcPadding.RemovePadAndMac` | ext/utils.c:169-215 | the whole routine refines the direct specification, with its error codes |
| `CbcPadding.ScanFor` | ext/utils.c:151-162 | the masked scan extracts exactly the octet wanted |
| `ConstantTime.Lt` | ext/utils.c:42-45 | all ones exactly when a < b, for any word width |
| `ConstantTime.Gt` | ext/utils.c:48-51 | all ones exactly when a > b |
| `ConstantTime.Le` | ext/utils.c:54-57 | all ones exactly when a <= b |
| `ConstantTime.IsZero` | ext/utils.c:66-69 | all ones exactly for zero |
| `ConstantTime.Eq` | ext/utils.c:72-75 | all ones exactly for equal words |
| `ConstantTime.Msb` | ext/utils.c:36-39 | the top bit spread over the word |
| `ConstantTime.SelectU8` | ext/utils.c:77-80 | picks by an all-zero or all-one mask |
| `Cbc.DecryptEncrypt` | src/simple_tls/tls/cipher.py:372-408 | CBC decryption in step with encryption gives the plaintext back |
| `Cbc.EncryptMore` | src/simple_tls/tls/cipher.py:357-361 | chaining in two goes equals one |
| `CipherParts.Encryptor.UpdateAll` | src/simple_tls/tls/cipher.py:401-406 | feeding pieces with partial blocks held back gives what one call would, and has room |
| `CipherParts.PadFills` | src/simple_tls/tls/cipher.py:268-271 | the padding fills whole blocks |
| `CipherParts.PadWellFormed` | src/simple_tls/tls/cipher.py:268-271 | the padding is what the constant-time removal accepts and strips exactly |
| `BlockRecords.SealMte` | src/simple_tls/tls/cipher.py:372-408 | MAC-then-encrypt: the CBC encryption of IV, text, MAC and padding, of exactly the predicted length, advancing the chain |
| `BlockRecords.OpenMte` | src/simple_tls/tls/cipher.py:552-599 | the result is determined by a direct specification where that is defined: what a peer sealed at this point comes back, and the chains stay in step |
| `BlockRecords.SealEtm` | src/simple_tls/tls/cipher.py:332-370 | encrypt-then-MAC: layout, exact length, chain |
| `BlockRecords.OpenEtm` | src/simple_tls/tls/cipher.py:497-550 | what a peer sealed comes back; nothing is accepted or decrypted whose MAC is wrong |
| `BlockRecords.MteShape` | src/simple_tls/tls/cipher.py:229-260 | the predicted length is the length produced, and fills whole blocks |
| `BlockRecords.EtmShape` | src/simple_tls/tls/cipher.py:229-260 | the same for encrypt-then-MAC |
| `BlockRecords.Strip` | src/simple_tls/tls/cipher.py:581-599 | good padding: accepted exactly when the MAC is right |
| `BlockRecords.HonestText` | src/simple_tls/tls/cipher.py:552-599 | MAC-then-encrypt: that specification accepts every sealed record and gives its text back |
| `BlockRecords.HonestEtmText` | src/simple_tls/tls/cipher.py:497-550 | encrypt-then-MAC: the same |
| `StreamRecords.KeyStream.Seal` | src/simple_tls/tls/cipher.py:410-446 | stream suites: masked text and MAC, exact length |
| `StreamRecords.KeyStream.Open` | src/simple_tls/tls/cipher.py:601-643 | accepted is exactly what a peer seals at this position, and it opens to that text |
| `AeadRecords.OpenSeal` | src/simple_tls/tls/cipher.py:448-495 | an AEAD record opens to what was sealed, for all three nonce and additional-data layouts |
| `AeadRecords.Seal` | src/simple_tls/tls/cipher.py:289-330 | exact length, and refusal exactly without room |
| `AeadRecords.NoncesDiffer` | src/simple_tls/tls/cipher.py:310-316 | different sequence numbers give different nonces, xored or appended |
| `Hpke.NonceAtInjective` | src/simple_tls/crypto/hpke.py:416-421 | HPKE nonces of different messages differ |
| `Hpke.Context.ComputeNonce` | src/simple_tls/crypto/hpke.py:403-421 | never the same nonce twice, refused after 2^64 messages |
| `Hpke.Context.Open` | src/simple_tls/crypto/hpke.py:431-435 | the number is used up whether or not the message opens |
| `Hpke.InStep` | src/simple_tls/crypto/hpke.py:424-435 | sender and receiver in step agree on every message and stay in step |
| `Hpke.DecapEncap` | src/simple_tls/crypto/hpke.py:135-158 | decapsulation gives the secret that was encapsulated, from the commutativity of the group alone |
| `Hpke.Setup` | src/simple_tls/crypto/hpke.py:523-537 | the context that a receiver sets up from the encapsulated key is in step with the sender's |
| `RecordStream.RecordReader.OpenRecord` | src/simple_tls/tls/connection.py:607-654 | the answer depends on the unread bytes alone, not on their chunking or on earlier attempts; records come in order and none complete is left when more is wanted |
| `RecordStream.RecordReader.BioWrite` | src/simple_tls/tls/connection.py:185-189 | chunks are appended |
| `RecordStream.Reassembler.ReadHandshake` | src/simple_tls/tls/handshake.py:570-586 | the first unconsumed message, the same however often asked; none only if none is complete |
| `RecordStream.Reassembler.NextHandshake` | src/simple_tls/tls/handshake.py:588-595 | messages are consumed in order, each once |
| `RecordStream.Reassembler.FeedData` | src/simple_tls/tls/handshake.py:539-540 | bytes are appended |
| `RecordStream.PackFlight` | src/simple_tls/tls/connection.py:495-510 | the flight is cut into non-empty fragments within the limit that join to it |
| `RecordStream.FragmentsReassemble` | src/simple_tls/tls/connection.py:495-510 | messages survive being joined, cut and fed record by record |
| `Framing.FramesAfter` | src/simple_tls/tls/handshake.py:570-586 | a stream that starts with known frames has them first, whatever follows |
| `AppReading.AppBuffer.Read` | src/simple_tls/tls/connection.py:206-266 | what was returned followed by what is pending is what was opened, on every path, for every length and buffer |
| `AppReading.AppBuffer.Take` | src/simple_tls/tls/connection.py:252-266 | slicing off pending data, negative lengths included |
| `Sealing.WriteState.SealRecord` | src/simple_tls/tls/connection.py:533-554 | one record or 1/n-1 split: texts join to the input, numbers run on, every record has room in the fixed buffer and a length that fits 16 bits |
| `Sealing.WriteState.SealOne` | src/simple_tls/tls/connection.py:556-598 | inner content type, sequence number, room behind the header |
| `Sealing.Unpad` | src/simple_tls/tls/connection.py:789-799 | finds the last octet that is not zero |
| `Sealing.UnpadHidden` | src/simple_tls/tls/connection.py:789-799 | whatever zero padding follows, exactly the type and text come back |
| `Sealing.BlockSlack` | src/simple_tls/tls/connection.py:139-150 | no CBC suite needs more than 128 octets beyond the text |
| `Sealing.HonestFitsReadBuffer` | src/simple_tls/tls/cipher.py:565-566 | honest CBC records fit the buffer they are opened into |
| `RecordPath.ReadAll` | src/simple_tls/tls/connection.py:607-756 | any chunks that make up a beginning of a sealed stream, fed one by one with every complete record opened and put through the checks on outer type, plaintext length, empty contents and alerts: nothing fails, the contents come out in order with their types, and all of them once all has arrived; for every mode whose open undoes its seal in step |
| `RecordPath.ReadData` | src/simple_tls/tls/connection.py:524-551 | the same from writes to text, with 1/n-1 splitting or without: the application data read is a beginning of the data written, and all of it once all has arrived |
| `RecordPath.OneOpens` | src/simple_tls/tls/connection.py:556-756 | one record of application data or handshake messages: header, sealed content and hidden type make a frame within the limits, which opens, passes the checks and gives type and text |
| `RecordPath.AeadModeOk` | src/simple_tls/tls/cipher.py:289-330 | every AEAD suite, of TLS 1.3 and before, is such a mode, within the real buffers |
| `RecordPath.MteModeOk` | src/simple_tls/tls/cipher.py:372-408 | so is every CBC suite with MAC-then-encrypt, with explicit or chained initial vectors |
| `RecordPath.EtmModeOk` | src/simple_tls/tls/cipher.py:332-370 | and with encrypt-then-MAC |
| `RecordPath.StreamModeOk` | src/simple_tls/tls/cipher.py:410-446 | and every stream or null cipher with a MAC |
| `RecordPath.FramesOfPart` | src/simple_tls/tls/connection.py:607-654 | the records found in a beginning of a stream are the first records of the stream |
| `Transcripts.Transcript.UpdateHash` | src/simple_tls/tls/utils.py:215-218 | every cached hash object goes on agreeing with the whole buffer |
| `Transcripts.Transcript.Digest` | src/simple_tls/tls/utils.py:231-238 | the digest is the hash of the whole buffer, cached or not |
| `Transcripts.Transcript.RetryRewrite` | src/simple_tls/tls/utils.py:220-226 | the buffer becomes the message hash, with no stale object |
| `Transcripts.Transcript.Copy` | src/simple_tls/tls/utils.py:240-248 | a copy agrees and shares no object |
| `Transcripts.CopyIsIndependent` | src/simple_tls/tls/utils.py:240-248 | updating one leaves the digests of the other |
| `CodecObjects.Parser.ReadBytes` | src/simple_tls/codec.py:47-60 | takes exactly so many octets or fails without moving |
| `CodecObjects.Parser.ReadInt` | src/simple_tls/codec.py:62-63 | a big-endian number |
| `CodecObjects.Parser.ReadPrefixedBytes` | src/simple_tls/codec.py:65-67 | a length and that many octets |
| `CodecObjects.Parser.ReadExtensions` | src/simple_tls/tls/extensions.py:87-115 | the loop accepts exactly what the format accepts: items that end where their block ends, all types different |
| `CodecObjects.DifferentTypes` | src/simple_tls/tls/extensions.py:112-113 | comparing the sizes of list and set finds exactly the repeated types |
| `CodecObjects.Writer.WriteInt` | src/simple_tls/codec.py:123-129 | refuses exactly the numbers that do not fit |
| `CodecObjects.Writer.WritePrefixedBytes` | src/simple_tls/codec.py:131-136 | length then data |
| `CodecObjects.Writer.WriteExtensions` | src/simple_tls/tls/extensions.py:117-123 | writes exactly the format, or nothing |
| `Wire.RoundTrip` | src/simple_tls/codec.py:47-143 | a lawful format is a bijection between well-formed writable values and accepted strings |
| `Wire.BlockLawful` | src/simple_tls/codec.py:79-89 | nested length blocks are consumed exactly |
| `Wire.ListLawful` | src/simple_tls/codec.py:69-89 | lists inside blocks round-trip both ways |
| `Messages.ExtensionsLawful` | src/simple_tls/tls/extensions.py:87-123 | extension lists round-trip both ways, types unique |
| `Messages.ClientHelloReads` | src/simple_tls/tls/messages.py:79-117 | a serialised ClientHello parses back |
| `Messages.ClientHelloWrites` | src/simple_tls/tls/messages.py:79-117 | an accepted ClientHello re-serialises to itself, but for an explicit empty extensions block |
| `Messages.ServerHelloRoundTrip` | src/simple_tls/tls/messages.py:143-183 | the same for ServerHello, both directions |
| `Messages.CertificateLawful` | src/simple_tls/tls/messages.py:454-478 | TLS 1.3 certificates round-trip both ways |
| `Messages.PskLawful` | src/simple_tls/tls/extensions.py:828-875 | PSK extensions round-trip both ways |
| `Messages.EchConfigLawful` | src/simple_tls/tls/extensions.py:935-999 | ECH configurations round-trip both ways |
| `EchCompression.ExpandUndoesCompress` | src/simple_tls/tls/handshake_server.py:2106-2136 | the server's expansion of the compressed list is the list the client hashed: kept, then compressed, then PSK |
| `EchCompression.SplitInner` | src/simple_tls/tls/handshake_client.py:1825-1833 | the loop splits into kept, compressible and PSK |
| `EchCompression.ExpandLoop` | src/simple_tls/tls/handshake_server.py:2111-2133 | the loop refuses duplicates and missing references, and otherwise appends what the outer hello holds |
| `EchBuilder.BuildersAgree` | src/simple_tls/tls/handshake_client.py:2013-2182 | inner and outer builder agree on every compressible extension |
| `EchBuilder.PaddingLength` | src/simple_tls/tls/handshake_client.py:1877-1889 | the padded encoding is a multiple of 32 and hides the name's length |
| `EchBuilder.InnerRecovered` | src/simple_tls/tls/handshake_server.py:2079-2154 | the server recovers exactly the inner hello, whatever the padding |
| `EchAcceptance.HelloObject.Apply` | src/simple_tls/tls/handshake_server.py:2169-2203 | the hello it leaves confirms itself and differs only in the place of the confirmation |
| `EchAcceptance.HelloObject.Check` | src/simple_tls/tls/handshake_client.py:2194-2231 | true exactly for a hello that confirms itself, and every field is as it was |
| `EchExchange.Exchange` | src/simple_tls/tls/handshake_client.py:1872-1926 | the whole exchange on octets, with or without HelloRetryRequest: the client encapsulates, builds, compresses, pads and seals its hello; the server parses it, sets up its context, opens and recovers the inner hello; it confirms in its hellos with the recovered random over its own transcript; the client finds every confirmation right over its own, and in the end both transcripts are the same octets, those of the inner hellos |
| `EchExchange.Build` | src/simple_tls/tls/handshake_client.py:1804-1926 | the hello sent is the blank outer hello, over which the encoded inner one was sealed, with the payload in its place; the inner hello enters the inner transcript |
| `EchExchange.OuterReads` | src/simple_tls/tls/handshake_server.py:2156-2167 | the server reads the sent hello as it was made and authenticates the octets that the client did |
| `EchExchange.InnerComesOut` | src/simple_tls/tls/handshake_server.py:2079-2154 | what opens is recovered to exactly the inner hello that the client hashed |
| `EchExchange.OpenFirst` | src/simple_tls/tls/handshake_server.py:2007-2064 | the server's context comes from the key in the hello, and both transcripts hold the inner hello |
| `EchExchange.OpenSecond` | src/simple_tls/tls/handshake_server.py:1268-1313 | the second hello passes the server's checks, with the contexts one message further |
| `EchExchange.Answer` | src/simple_tls/tls/handshake_server.py:2169-2203 | a confirmation made over the server's transcript is found right over the client's, through serialising and parsing, and both transcripts take the hello in, rewritten before a retry |
| `EchExchange.EchRoundTrip` | src/simple_tls/tls/extensions.py:1017-1057 | the ECH extension of an outer hello parses back |
| `PskBinder.BinderVerifiesIff` | src/simple_tls/tls/handshake_client.py:1777-1802 | a binder verifies at the server unless ECH was offered and a HelloRetryRequest did not confirm it; then exactly if the random identities equal the real ones or the MAC collides; for any list of keys, any hello and any earlier transcript |
| `PskBinder.SameInputIff` | src/simple_tls/tls/handshake_client.py:1942-1965 | client and server compute the MAC over the same octets exactly if the draft was not an outer hello, or its random identities are the real ones |
| `PskBinder.GreasedBinderFails` | src/simple_tls/tls/handshake_client.py:1777-1802 | a key and random identities for which the binder fails, whatever the rest of the hello |
| `PskBinder.GreasedHelloExists` | src/simple_tls/tls/handshake_client.py:1777-1802 | a ClientHello that can be written with them |
| `PskBinder.PrefixAgreesIff` | src/simple_tls/tls/handshake_server.py:1857-1868 | hashed prefixes agree exactly when the identities do |
| `PskBinder.PackHelloIs` | src/simple_tls/tls/handshake.py:561-568 | the packed hello is the serialised ClientHello behind its header |
| `PskBinder.SelectPsk` | src/simple_tls/tls/handshake_server.py:1031-1051 | the first identity whose ticket opens decides, by its binder |
| `CertPath.CandidateChains` | src/simple_tls/crypto/verification.py:296-353 | the search ends and yields, in nondecreasing length, linked chains from the leaf into the store within the depth bound |
| `CertPath.SweepLoop` | src/simple_tls/crypto/verification.py:327-353 | one round over possible issuers never uses an edge twice |
| `CertPath.TakeOne` | src/simple_tls/crypto/verification.py:314-353 | one turn of the queue keeps what is explored, seen and waiting |
| `CertPath.CandidatesSound` | src/simple_tls/crypto/verification.py:296-353 | every chain starts at the leaf, links issuer to subject and ends in the store |
| `CertPath.CandidatesComplete` | src/simple_tls/crypto/verification.py:296-353 | with distinct subject and serial pairs, for every candidate chain the search yields one to the same anchor that is no longer |
| `CertPath.AllFoundIff` | src/simple_tls/crypto/verification.py:314-353 | the search looks at every path within the depth limit exactly if no two of them have the same last edge (subject, issuing subject, issuing serial number) |
| `CertPath.UniqueFound` | src/simple_tls/crypto/verification.py:327-353 | one half: then every path is enqueued |
| `CertPath.RoundsOnce` | src/simple_tls/crypto/verification.py:337-341 | the other half: in every round each edge was recorded for one enqueued chain alone |
| `CertPath.EndsOnce` | src/simple_tls/crypto/verification.py:314-353 | the search is deterministic |
| `CertPath.VerifyChain` | src/simple_tls/crypto/verification.py:355-418 | accepted exactly when every signature, validity and policy check passes and for each k the non-self-issued CA certificates at 0..k-2 number at most the path length of k |
| `CertPath.Verify` | src/simple_tls/crypto/verification.py:269-292 | a returned chain is linked, trusted and passes every check; if no two paths share their last edge, or subjects are distinct, one is returned exactly if a valid chain exists; with unique edges or serials the untrusted-root error comes exactly if there is no candidate chain |
| `CertPath.ValidFound` | src/simple_tls/crypto/verification.py:331-340 | if no two paths share their last edge a valid chain is always among those tried |
| `CertPath.ValidFoundByName` | src/simple_tls/crypto/verification.py:331-340 | the same with distinct subjects, cycles or not |
| `CertPath.RenewedIssuerLoses` | src/simple_tls/crypto/verification.py:337-340 | two certificates of one issuer, the expired one first: two paths share their last edge, and verification fails although a chain through the other certificate passes every check |
| `CertPath.RenewalExample` | src/simple_tls/crypto/verification.py:337-340 | concrete certificates for that case |

## Left out

- The socket, `ssl`-module and file wrappers, the command line examples and scripts.
- Cryptographic primitives: they are constructors of a term algebra in the handshake model and
  arbitrary functions with inverse or length laws elsewhere. The timing of the C code.
- X.509 parsing, PEM, certificate compression, clocks, hostname matching and extension policies:
  results of foreign checks. Certificates are records.
- What follows an alert: it ends a run after its own record has been sealed.
- The bodies of TLS 1.0 to 1.2 key exchange messages and the computation of their keys; states,
  flags, key installs and flights of these versions are modelled. In those versions a read key may
  be installed while data is unread, as the code does not look; only TLS 1.3 promises otherwise.
- Early data after the ServerHello has been read, and the counters of skipped or accepted early
  data. Key agreement for the early secret is not stated.
- Negotiation of cipher suites, groups, signature algorithms and application protocols, cookies,
  GREASE randomness, padding of the ClientHello to 512 octets: oracle choices.
- Handlers of both handshakes are functions on records and not methods of one object per handshake:
  what the model does not capture by that is aliasing of session and key-schedule objects. The
  dispatch loops, transcript, key schedule, parser, writer, contexts and buffers are objects.
- Message contents in the handshake model are opaque beyond the fields that handlers test; their
  formats are proved in `Messages`, and the ECH and binder computations on octets in their own files.
- Output buffers of seal and open are returned as values with the room they need checked; the
  memory views themselves are not modelled.
- ClientTheorems.KeysChangeAtBoundaries: the read-key half speaks of TLS 1.3 only, see above; the
  assertions carried are those on the resumed session, key schedule and generation, traffic keys, the
  offered pre-shared key and open early data, not those that other optional attributes are set.
- ClientTheorems.CrashExactly: the same assertions are carried.
- BlockRecords.OpenMte: for malformed padding only that nothing out of bounds is read is known; that
  the replacement MAC never matches by chance is not a theorem.
- CbcPadding.GetMac: for padding that is malformed without an impossible length the mask has not all
  bits set, so the MAC array is only known to stay in bounds.
- CertPath.Verify: one clock reading serves all chains, while the code reads the clock for each chain;
  the loop over chains is modelled after the search has run to its end, while the code's generator
  runs only as far as needed.
- ServerTheorems.KeysChangeAtBoundaries: of the assertions those on key schedule generations, traffic
  keys, early data and ECH acceptance are carried in the model, assertions on optional attributes are not.
- ServerTheorems.Handshake.DoHandshake: the dispatch loop only; the connection's loop is modelled around
  the client, in `ClientConnection`.
- ServerProofs.ClientHelloKeeps: the refusal is a guard here; the check on supported_versions that
  causes it is in `EchBuilder.CheckVersions`, on octets.
- ServerRuns.SelectLegacyKeeps: rests on the same guard.
- EchExchange.Exchange: one ECH key at the server, while the code tries several in turn; the hellos'
  own key shares, versions and extensions beyond ECH are not negotiated there.
- EchExchange.OpenFirst: the same single ECH key.
- RecordPath.ReadAll: contents are application data or handshake messages, each of which opens under one
  key; that handshake fragments are not mixed with other records, and the skipping of early data, are
  left out. Alerts are refused there, not acted upon.
- RecordPath.OneOpens: as above.
- Sealing.WriteState.SealRecord: the ciphertext length is a parameter and no cipher is called; cipher,
  splitting and record are joined in `RecordPath`, on values.
- Sealing.WriteState.SealOne: as above.
- AppReading.AppBuffer.Read: handshake records and do_handshake inside the loop of read() are not part
  of it.
- UpdateLink.RecordsOpen: the machines have no counter for reading, so the reading counters of the
  parties are set from the peer's writing ones; a flight is one record; each call of a user is one step,
  made of the machine actions that it consists of; tickets and post-handshake authentication are not
  among the steps.
- An alert leaves a machine's state as it was before the handler that raised it, but for the record of
  the alert; the code may by then have changed transcript, flags and key schedule of the dead connection.
