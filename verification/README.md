# KNoT gateway: a verified model of the trust and session protocol

The gateway keeps a map from node sockets to reference-counted *trust* objects, and drives
registration, authentication, schema upload, configuration and set/get-data acknowledgement
against a cloud driver. This project models that engine, the session objects in front of it,
the parts of the two cloud drivers it depends on, and the IPv4 border router.

Each stateful component appears twice. A state machine on values (`Engine`, `Sessions`, and the
state machines in `WebSockets`, `HttpWatches` and `BorderRouter`) has one step for every request,
pushed document and callback; the theorems are about all its runs. Beside it stand classes with
the program's own objects, fields and loops (`Gateway`, `SessionManager`, and the `Driver` and
`Router` classes), whose methods are proved to do to the objects what the state machine does to
values, and to follow no pointer to freed memory. The `Turn` and `Run` methods tie the two: in
any run the objects pass through the states the theorems speak of, and what they send is what
the steps say.

| file | contents |
|---|---|
| `Json`, `Protocol`, `Sequences`, `Counting` | JSON trees, protocol data, filtering and first matches |
| `Documents`, `Decimal`, `Readings` | JSON printers and parsers, the scanning and rebuilding of doubles, entries key by key |
| `ConfigRules`, `Limits`, `Draining` | configuration validity and deltas, decimal limits, lists of pending writes and reads |
| `Engine` | the state machine of `src/msg.c` |
| `Ownership`, `Reclamation` | exact reference counts, what disconnecting gives back |
| `Tenure` | how long a socket keeps a trust and what the trust records meanwhile |
| `Requests` | what each request and callback gets, asks and leaves, said of its fields and of the cloud's answer |
| `SchemaHistory`, `ConfigHistory`, `Delivery`, `Credentials`, `Exchange`, `Reconnection` | theorems over whole runs |
| `Gateway` | the objects of `src/msg.c`, updated in place |
| `Sessions`, `SessionManager` | `src/session.c` |
| `WebSockets`, `HttpWatches`, `BorderRouter` | `src/proto-ws.c`, `src/proto-http.c`, `inetbr/inet4.c` |

`dafny verify dfyconfig.toml` checks the whole project.

## How the outside world enters

The answers of the cloud, of the kernel and of the libraries are part of the events, so every
theorem over runs holds for all of them. `Enabled` in each state machine states what the
libraries promise about callbacks: a channel's disconnect handler runs once, before its destroy
handler, which runs once; a document arrives while its watch and the watch's node channel exist;
a newly connected unix socket is none of the open ones. Hash maps are maps: inserting a key that is
there replaces its entry. Sizes, flag positions, type codes, the
readings of the value union and the unit check come from protocol headers that are not part of
this model: they are fields of `Params`, constrained only by `Params.Valid`: the type
codes are distinct, a cleared union reads as zeros and a decimal reads as the two numbers written
into it. A configuration's
checksum is the JSON entry itself, which makes it injective.

## Where the code departs from what it promises

- `schema_tmp` is never allocated in the source (src/msg.c:293-298, 425-445), so as the code
  stands no fragment is ever kept. The comment at src/msg.c:1661-1664 says what is meant. The
  parameter `queueOnAdd` covers both: true is the intent (the queue is created on the first
  add), false the code as shown. `SchemaHistory.SchemaCommit` shows that the schema is the one
  committed exactly when the parameter is true or nothing was committed.
- A "config" list that cannot be read is taken for an empty list, passes the checks and replaces
  the stored one (src/msg.c:1216-1231): `ConfigHistory.UnreadableListForgets`.
- Confirmations are not carried into a newly received list (src/msg.c:895, 1230-1231), so an
  acknowledgement lasts for one poll: `ConfigHistory.WithheldNeedsNewAck`.
- Limits are compared as whole part and number after the point, not as numbers: 1.25 counts as
  above 1.5 (`Limits.LongerFractionPasses`), negative limits with the same whole part count the
  other way round (`Limits.NegativeLimitsAreReversed`), and a minus sign before a zero whole part
  is not seen. `Limits.AcceptedIffAbove` says exactly when acceptance is the order of the
  numbers; `Limits.Misjudged` lists the failing limits.
- The comparison of limits subtracts ints and can overflow; it means "upper above lower" exactly
  when it does not: `ConfigRules.LimitsMeanOrder`, `Limits.OverflowIsAccepted`.
- A peer pid of zero is stored as `INT32_MAX` (src/msg.c:1493): a retransmitted registration is
  recognised exactly when the pid is not zero: `Credentials.RecognisedIffPidKnown`, and over runs
  `Credentials.RecognisedOverRun`, `Credentials.PidZeroIsNeverRecognised`.
- An accepted UNREGISTER, and a second registration on the same socket, leave the device watch of
  the displaced trust running. Counts stay exact, but the trust outlives its node channel, and
  exactly then: `Reclamation.OutlivesChannelIffStranded`, `Reclamation.UnregisterLeavesWatch`.
  A document of such a watch becomes the configuration of whatever trust is on the socket now:
  `Reclamation.StaleWatchFeedsNewTrust`, `Reclamation.DocumentFeedsOwnTrustIffNotStranded`.
- Forwarded sensor ids are cut to a byte and answers are compared with the whole integer, so a
  list drains completely exactly when its ids are bytes: `Draining.AnsweringAllEmpties`.
- A double survives being split and rebuilt exactly when its fraction is zero, or it is not
  negative and the fraction does not start with a zero: `Decimal.DecimalFidelity`.
- `conn_index` advances on failed connects (src/proto-ws.c:896-913): a descriptor finds its own
  websocket exactly when none failed before it: `WebSockets.OwnWebsocketIffNoFailure`.
- `next_timeout_id` wraps around (`HttpWatches.ClashHappens`); a watch whose id is taken over is
  never told that it was destroyed, and this is the only way to lose one:
  `HttpWatches.AllToldIffNoClash`.

## Model

| member | source | states |
|---|---|---|
| `Ownership.CountsAreExact` | src/msg.c:280-393 | in every reachable state a trust's count is the number of map entries, node channels and watches holding it; it is allocated iff that is not zero, has been freed exactly once otherwise, and no step touched a freed trust |
| `Ownership.StepKeeps` | src/msg.c:211-393 | every event, whatever the cloud answers, keeps the ownership invariant |
| `Ownership.CreateKeeps` | src/msg.c:365-393 | creating a trust adds one trust with three holders and takes one reference from the trust it displaces, if any |
| `Ownership.TeardownIs` | src/msg.c:321-345 | the disconnect handler leaves the trust unmapped, unwatched and with one reference, whether the rollback succeeded, failed or was not needed |
| `Ownership.DropWatchIs` | src/msg.c:211-217 | dropping a watch clears the trust's pointer and frees the trust iff the watch was its last holder |
| `Reclamation.AdriftIffStranded` | src/msg.c:321-345 | in every run a watch's trust is unmapped exactly when a request displaced that trust while it was watched and the driver has not dropped the watch since |
| `Reclamation.OutlivesChannelIffStranded` | src/msg.c:347-351 | once its channel is destroyed a trust stays allocated iff a request displaced it while watched and the watch has not been dropped since; otherwise it was freed exactly once |
| `Reclamation.StrandedIsKept` | src/msg.c:287-291 | a trust displaced while watched stays allocated until its watch is dropped |
| `Reclamation.SparedTrustIsReclaimed` | src/msg.c:321-393 | a trust that no request displaced, whatever other nodes did, is allocated exactly while its node channel exists and was freed exactly once afterwards |
| `Reclamation.DocumentFeedsOwnTrustIffNotStranded` | src/msg.c:180-209 | a document reaches the trust of its own watch iff that trust was not displaced while watched |
| `Reclamation.StaleWatchFeedsNewTrust` | src/msg.c:287-291 | after a second registration the first device's watch still runs and its document becomes the new trust's configuration |
| `Reclamation.DestroyFreesUnlessWatched` | src/msg.c:347-351 | destroying a disconnected channel frees its trust iff the watch is gone |
| `Reclamation.DisconnectLetsGo` | src/msg.c:321-345 | after a disconnect the mapped trust is held by its channel alone |
| `Reclamation.UnregisterLeavesWatch` | src/msg.c:494-516 | after an accepted UNREGISTER, disconnect and destroy, the trust lives on, held by a watch whose channel is gone, until the driver drops it |
| `Tenure.SocketSteps` | src/msg.c:1438-1553 | after any event a mapped socket either kept its trust, changed only as its own events say, or was just given one by a granted sign-in |
| `Tenure.TenureHasNoGap` | src/msg.c:280-291 | a socket mapped to the same trust at two moments was mapped to it throughout |
| `Tenure.RecordFollows` | src/msg.c:1632-1687 | rollback flag, schemas and configuration of a trust are the fold of the events on its own socket |
| `Tenure.HistoryOf` | src/msg.c:365-393 | every mapped trust was installed by one event on its socket and records what followed |
| `Tenure.OriginIsUnique` | src/msg.c:365-393 | there is only one event that installed the trust a socket has |
| `SchemaHistory.SchemaCommit` | src/msg.c:1632-1687 | in every reachable state the schema is the first-wins deduplication of the last batch whose END the cloud accepted since the event that installed the trust, or the schema installed, iff the pending queue is created on demand or nothing was committed; pending fragments have distinct sensors |
| `SchemaHistory.FirstWinsMeans` | src/msg.c:417-432 | the deduplication has exactly the sensors named, each once, with its first fragment, in the order of these fragments |
| `SchemaHistory.RetransmissionHasNoEffect` | src/msg.c:1661-1675 | in any run, sending a fragment of the open batch again, other than END, is answered with success, changes no state and calls nothing |
| `SchemaHistory.RefusedEndIsInvisible` | src/msg.c:1676-1684 | an END the cloud refuses is answered with a failure and drops the pending fragments of its trust; the schema and everything else stay |
| `ConfigHistory.StoredConfig` | src/msg.c:447-469 | the stored list is the last one accepted since the event that installed the trust, with exactly the first entry of each sensor acknowledged since then confirmed |
| `ConfigHistory.PollDelivers` | src/msg.c:1202-1236 | an accepted poll sends, in order, exactly the received entries the node does not already have, and stores the received list |
| `Delivery.DueEntriesAreSent` | src/msg.c:1155-1236 | in any run, an accepted document makes the gateway send, in order and field by field, exactly those entries of its JSON array whose first equal entry in the last accepted array is missing, is not the first for its sensor, or was not acknowledged since |
| `Delivery.ChangedEntryIsSent` | src/msg.c:1155-1168 | in any run, an entry of an accepted document is sent when it differs as JSON from all entries of the last accepted array, or when its sensor was not acknowledged since |
| `Delivery.TurnedDown` | src/msg.c:1202-1231 | a document's list is turned down iff all its entries can be read and some entry is not acceptable |
| `ConfigHistory.WithheldNeedsNewAck` | src/msg.c:1161-1168 | at any moment of a run, an entry of an accepted document that is not sent has its hash in the stored list on a confirmed entry whose sensor the node acknowledged, on this trust, since the last accepted list |
| `ConfigHistory.StoredListSurvivesIff` | src/msg.c:1216-1231 | in any run a document changes nothing iff its list fails the checks or is the stored one, an unreadable list counting as empty; when it fails, the other two lists still go out |
| `ConfigHistory.UnreadableListForgets` | src/msg.c:904-909 | after a list that cannot be read the trust stores nothing until the next accepted list, all of which is then sent |
| `ConfigHistory.StoredConfigsAreValid` | src/msg.c:1530-1544 | every stored configuration is valid in every reachable state |
| `ConfigHistory.PushedConfigsAreValid` | src/msg.c:1170-1236 | every configuration pushed to a node is valid |
| `Limits.AcceptedMeans` | src/msg.c:534-603 | without overflow, accepted means one of the five known flags or no flag at all, a time iff the time flag, and thresholds only with upper above lower |
| `Limits.DecimalLimitsMean` | src/msg.c:576-628 | for an entry with decimal limits, thresholds are accepted iff the upper limit's whole part is larger, or equal with a larger number after the point |
| `Limits.ThresholdsMean` | src/msg.c:576-599 | an entry that sets thresholds is judged by that order of digits iff the difference of the whole parts fits an int |
| `Limits.DigitsOrderIffNotMisjudged` | src/msg.c:581-593 | the order of digits is the order of the numbers written iff the limits are not of the misjudged kind, for fractions of any lengths and both signs |
| `Limits.AcceptedIffAbove` | src/msg.c:576-599 | acceptance of an entry that sets thresholds is the order of the numbers written iff the whole parts do not overflow and the limits are not misjudged |
| `Limits.SameLengthIsNeverMisjudged` | src/msg.c:581-593 | limits that are not negative and have as many decimals are never misjudged |
| `Limits.LongerFractionPasses` | src/msg.c:581-593 | 1.5 is refused as above 1.25, and 1.25 accepted as above 1.5 |
| `Limits.NegativeLimitsAreReversed` | src/msg.c:581-593 | -1.2 is refused as above -1.5, and -1.5 accepted as above -1.2 |
| `ConfigRules.ConfigIsValid` | src/msg.c:534-603 | the loop accepts a list iff every entry satisfies the validity predicate |
| `ConfigRules.LimitsMeanOrder` | src/msg.c:576-599 | the test on limits is the lexicographic order iff no difference overflows |
| `ConfigRules.HasBitMeans` | src/msg.c:534-576 | the flag test is on the binary digit: flags is a higher part, that digit and a lower part |
| `Limits.OverflowIsAccepted` | src/msg.c:581-593 | an entry with lower limit 2147483647.0 and upper limit -2147483648.0 is accepted |
| `ConfigRules.ExistsAndConfirmed` | src/msg.c:1155-1168 | true iff the first stored entry with the same hash is confirmed |
| `ConfigRules.GetChangedConfig` | src/msg.c:1170-1195 | the messages are those of the entries not withheld, in order |
| `ConfigRules.ConfirmConfig` | src/msg.c:453-469 | marks the first entry of the sensor and no other |
| `ConfigRules.ConfirmAdds` | src/msg.c:461-469 | confirming a sensor is adding it to the set of acknowledged sensors |
| `ConfigRules.WithheldMeans` | src/msg.c:1161-1168 | withheld iff the first entry with that hash is first for its sensor and acknowledged |
| `Documents.ReadList` | src/msg.c:808-909 | reading a list gives the order-preserving image of all its entries or nothing |
| `Documents.ParseDeviceSchema` | src/msg.c:673-780 | reads entries up to the first that cannot be read |
| `Documents.SchemaPrefix` | src/msg.c:700-780 | the schema read is the longest readable prefix of the array |
| `Documents.CreateSchemaListObject` | src/msg.c:1583-1595 | prints every schema, in order, with its name up to the NUL |
| `Documents.SchemaRoundTrip` | src/msg.c:1555-1595 | parsing what was printed gives back ids, types, units and names, in order |
| `Documents.PrintedFields` | src/msg.c:1555-1581 | the printed object has the sensor's id, its three codes and its name under their own keys |
| `Readings.IntegerRead` | src/msg.c:608-640 | only a JSON integer reads as an integer, and then as the nearest one of 32 bits |
| `Readings.ValueRead` | src/msg.c:605-640 | a value is unreadable iff it is there and is neither a number nor a truth value; otherwise it is what is written, a decimal by its digits, and one without a point is cleared |
| `Readings.ConfigEntryRead` | src/msg.c:788-897 | an entry is read iff its integers and optional fields have their types; every field comes from its own key, and the checksum from the whole entry |
| `Readings.WriteEntryRead` | src/msg.c:918-996 | a pending write is read iff it has a sensor id and a readable value, and keeps both |
| `Readings.SchemaEntryRead` | src/msg.c:700-769 | a schema entry is read iff its five keys have their types; ids and codes are cut to their widths, the name at its terminator or at the buffer |
| `Decimal.ScanReadsNumeral` | src/msg.c:619-628 | scanning "i.w" yields the signed whole part and the fraction's digits as a number |
| `Decimal.DecimalError` | src/msg.c:1784-1800 | the rebuilt number has the fraction un-negated and ten times larger for each leading zero |
| `Decimal.DecimalFidelity` | src/msg.c:1784-1800 | the rebuilt number is the written one iff the fraction is zero, or the number is not negative and the fraction does not start with a zero |
| `Decimal.PrintFitsBuffer` | src/msg.c:1784-1789 | every printed int32 and its terminator fit twelve bytes, and one fills them |
| `Draining.RemoveSensor` | src/msg.c:1731-1755 | the loop writes back the entries of other sensors, in order, up to a null entry |
| `Draining.RemainingOfAnyList` | src/msg.c:1731-1755 | of any list, well formed or not, exactly the entries before the first null with an id other than the sensor's remain, in order |
| `Draining.AnswersDrain` | src/msg.c:1731-1755 | after any sequence of answers a well-formed list holds exactly the unanswered entries, in order |
| `Draining.RemovalsCommute` | src/msg.c:1994-2015 | two removals commute |
| `Draining.AnswersInAnyOrder` | src/msg.c:1994-2015 | only the set of answered sensors matters |
| `Draining.RemovalShrinks` | src/msg.c:1731-1755 | a removal shortens the list iff the sensor was on it |
| `Draining.AnsweringAllEmpties` | src/msg.c:1035-1045 | answering every forwarded sensor empties the list iff every id is between 0 and 255 |
| `Draining.ForwardedIsParsed` | src/msg.c:998-1057 | a list of reads is forwarded, as its ids cut to bytes, iff it is well formed |
| `Credentials.Provenance` | src/msg.c:1438-1553 | every call made for a socket uses the credential of the trust mapped there, installed by an earlier granted sign-in with that credential on that socket, without interruption since |
| `Credentials.RollbackExact` | src/msg.c:1645-1650 | a mapped trust is marked for rollback iff it came from a registration and no fragment arrived since |
| `Credentials.DisconnectRollsBack` | src/msg.c:321-345 | a disconnect issues one removal with the trust's credential iff the trust is marked, and unmaps the socket either way |
| `Credentials.RecognisedIffPidKnown` | src/msg.c:1464-1493 | right after a registration the same request is recognised iff the peer's pid is not zero |
| `Credentials.RecognisedOverRun` | src/msg.c:1464-1493 | as long as a trust has its socket, exactly the registrations with its device and the pid of the one that made it, a pid of zero counting as 0x7fffffff, are recognised |
| `Credentials.PidZeroIsNeverRecognised` | src/msg.c:1464-1493 | while a registered trust has the socket, every valid registration from pid 0 is unrecognised and asks the cloud for another device |
| `Credentials.RegistrationIsIdempotent` | src/msg.c:1464-1496 | repeats of a successful registration, among traffic that preserves it, give the same reply, and one device is created in all |
| `Exchange.DispatcherAnswers` | src/msg.c:2097-2176 | a request is refused with -22 and without effect iff its lengths do not fit, a response is swallowed, and every other known request is answered by the reply of its own kind, spelled out kind by kind with both values of END, within the output buffer, with the result its socket and the cloud's answer call for and, unless it registered, nothing else |
| `Requests.IncompleteIsRefused` | src/msg.c:2097-2130 | a PDU that is too short, of another length than it says, or without room for a reply gives -22, no reply and no effect |
| `Requests.NamelessIsRefused` | src/msg.c:1448-1453 | a registration without a name is answered with InvalidDeviceName and has no effect |
| `Requests.NameIsSent` | src/msg.c:1286-1301 | the cloud is asked for the name in the field, up to its terminator and cut at the length sent and at the buffer |
| `Requests.RepeatIsAnswered` | src/msg.c:1464-1471 | a registration of the device and peer already there gets the stored credential again, and the cloud is asked nothing |
| `Requests.GrantedRegistration` | src/msg.c:1438-1505 | the device id and name sent ask the cloud for a device; the uuid and token of its document go, each in its place, into the sign-in, the watch, the reply and the new trust |
| `Requests.FailedRegistration` | src/msg.c:1336-1385 | when no device is made, or its document lacks a uuid or a token of the right length, the node gets CloudFailure and no trust, and the cloud is not signed in to |
| `Requests.RefusedRegistration` | src/msg.c:1393-1426 | when the sign-in with the new device's credential fails, the node gets CloudFailure or CredentialUnauthorized by the cloud's answer, and no trust |
| `Requests.UnregistrationOutcome` | src/msg.c:494-516 | the trust's device is removed from the cloud; the socket is unmapped iff the cloud accepted, and the reply says which |
| `Requests.UngrantedAuthentication` | src/msg.c:1507-1528 | a mapped socket is answered with success at once; otherwise a sign-in that fails leaves no trust and gives CloudFailure or CredentialUnauthorized |
| `Requests.GrantedAuthentication` | src/msg.c:1519-1553 | a granted sign-in without a schema is refused with SchemaEmpty; with one, a trust for the credential sent, with the schema and the acceptable configuration of the document, is watched |
| `Requests.FragmentOutcome` | src/msg.c:1632-1687 | a fragment is refused without a trust; otherwise it succeeds, and at END the schema is put once under the trust's credential and the cloud's answer is the result |
| `Requests.DataOutcome` | src/msg.c:1776-1930 | data for a sensor whose first schema entry has an acceptable unit is published exactly once, as the integer, boolean, multiplied decimal or nothing by the declared type, before a report and after a response is taken off its list; of any other type nothing is published and the result is InvalidData |
| `Requests.UnusableData` | src/msg.c:1881-1914 | data without a trust, for an unknown sensor or with a wrong unit is refused with the right result and without effect |
| `Requests.OtherOutcomes` | src/msg.c:2147-2172 | an acknowledged configuration is not answered and asks nothing, and an unknown request is answered with an error and has no effect |
| `Requests.CallbackOutcome` | src/msg.c:211-351 | which map entries, channels and watches each callback leaves; a document for a socket without a trust has no effect |
| `Requests.DisconnectionCalls` | src/msg.c:321-345 | a disconnection removes the node from the cloud iff it is marked, and then ends the watch iff there is one, both through the trust's own cloud socket |
| `Exchange.CredentialMeansRegistered` | src/msg.c:1428-1436 | a credential is handed out iff a registration succeeded |
| `Exchange.PushOrder` | src/msg.c:180-209 | a node is written changed configurations, then writes, then reads, each the image of its array, read key by key, with the right header, and an unreadable list contributes nothing |
| `Exchange.DataFollowsSchema` | src/msg.c:1881-1930 | in any run, data published for a socket is for a sensor of the schema its node last committed, with an acceptable unit, and its value is the integer, the boolean, the multiplied decimal or nothing, by the type declared there |
| `Reconnection.AuthRestores` | src/msg.c:1507-1553 | authenticating against a document with the list last printed restores that schema |
| `Reconnection.SchemaOfLastCommit` | src/msg.c:1600-1687 | after a commit the cloud keeps the image of the schema the trust has from then on, which is empty iff the pending queue is never created |
| `Reconnection.OthersKeepSchema` | src/msg.c:1600-1630 | an event that commits no schema for a device leaves what the cloud keeps for it |
| `Reconnection.SchemaSurvivesReconnection` | src/msg.c:1507-1553 | against a cloud that keeps the last schema accepted for each device, a later sign-in with the credential of a trust that had committed restores the schema that trust had, and reports success, iff the pending queue is created on demand; otherwise it reports an empty schema |
| `Exchange.AnswerIsStored` | src/msg.c:1881-1930 | an answer leaves in the cloud the list without its sensor |
| `Exchange.ListsDrain` | src/msg.c:1956-2031 | over any run against a cloud that keeps what was written, a list is its entries for the sensors not yet answered, in order |
| `Gateway.TrustGateway.TrustUnref` | src/msg.c:307-319 | gives one reference back and frees the object iff it was the last |
| `Gateway.TrustGateway.TrustMapRemove` | src/msg.c:280-285 | removes the entry and the reference it held |
| `Gateway.TrustGateway.TrustCreate` | src/msg.c:365-393 | the objects end as the state machine's creation says |
| `Gateway.TrustGateway.OnDeviceWatchDestroyed` | src/msg.c:211-217 | the objects end as dropping the watch says |
| `Gateway.TrustGateway.OnNodeChannelDisconnected` | src/msg.c:321-345 | the calls and the objects are those of the disconnect step, and the read of the watch after a rollback is of a live trust |
| `Gateway.TrustGateway.OnNodeChannelDestroyed` | src/msg.c:347-351 | the objects end as destroying the channel says |
| `Gateway.Trust.AddFragment` | src/msg.c:1645-1668 | clears the rollback mark and appends the fragment unless its sensor is pending |
| `Gateway.FindSensor` | src/msg.c:395-423 | finds the first entry of the sensor, if there is one |
| `Gateway.TrustGateway.MsgRegister` | src/msg.c:1438-1505 | result, credential, calls and objects are those of the registration step |
| `Gateway.TrustGateway.MsgUnregister` | src/msg.c:494-516 | result, calls and objects are those of the unregistration step |
| `Gateway.TrustGateway.MsgAuth` | src/msg.c:1507-1553 | result, calls and objects are those of the authentication step |
| `Gateway.TrustGateway.SignInConfig` | src/msg.c:1530-1534 | keeps the list read at sign-in iff it is valid |
| `Gateway.TrustGateway.MsgSchema` | src/msg.c:1632-1687 | result, calls and objects are those of the upload step |
| `Gateway.TrustGateway.MsgData` | src/msg.c:1881-1930 | publishes, then writes back the list of reads; no object changes |
| `Gateway.TrustGateway.MsgSetDataResp` | src/msg.c:2037-2094 | writes back the list of writes, then publishes; no object changes |
| `Gateway.TrustGateway.UpdateList` | src/msg.c:1692-1771 | fetches, and writes back the rest of the list iff it was an array |
| `Gateway.TrustGateway.MsgConfigResp` | src/msg.c:1932-1950 | confirms the sensor in the stored list |
| `Gateway.TrustGateway.MsgConfig` | src/msg.c:1202-1236 | without a trust on the socket, or with an invalid list, nothing changes and nothing is sent; otherwise the received list is stored and the changed entries are sent |
| `Gateway.TrustGateway.MsgSetData` | src/msg.c:1090-1120 | one message with the right header for each entry, in order, or none; none without a trust on the socket |
| `Gateway.TrustGateway.MsgGetData` | src/msg.c:1059-1088 | one message with the right header for each entry, in order, or none; none without a trust on the socket |
| `Gateway.TrustGateway.OnDeviceChanged` | src/msg.c:180-209 | messages and objects are those of the push step |
| `Gateway.TrustGateway.MsgProcess` | src/msg.c:2097-2176 | octets, reply, calls and objects are those of the dispatcher |
| `Gateway.TrustGateway.Serve` | src/msg.c:180-393 | every enabled event keeps all counts exact and does to the objects what the step does to their state |
| `Gateway.TrustGateway.Turn` | src/msg.c:180-393 | turn k of a run takes the objects from its k-th state to the next and sends what the step says |
| `Gateway.TrustGateway.Run` | src/msg.c:180-393 | over any run the objects pass through its states, and replies, cloud calls and messages are those of its steps |
| `Sessions.CountsAreExact` | src/session.c:57-132 | in every reachable state a session's count is its node side plus its cloud channels not yet destroyed; it is allocated iff that is not zero and was freed exactly once otherwise |
| `Sessions.ProtoIsTheConnected` | src/session.c:83-115 | the cloud channel pointer is set iff one of the session's cloud channels is connected, and is that one |
| `Sessions.ListedWhileNodeLives` | src/session.c:126-132 | a session is on the list, once, exactly while its node channel is not destroyed |
| `Sessions.DataGoesThroughOwnChannel` | src/session.c:175-185 | data is handed on only through the one connected channel of its own session; a failed reconnection changes nothing |
| `Sessions.NodeLeavingClosesCloud` | src/session.c:253-264 | when a node leaves, exactly its connected cloud channels are closed |
| `Sessions.EventOutcome` | src/session.c:57-293 | what each event of a run does to the list of sessions and to both tables of channels |
| `SessionManager.Manager.SessionUnref` | src/session.c:75-81 | gives one reference back and frees the session iff it was the last |
| `SessionManager.Manager.ConnectProto` | src/session.c:236-251 | a connection adds a channel, a reference and the pointer; a refusal nothing |
| `SessionManager.Manager.SessionCreate` | src/session.c:266-293 | the session is listed and connected, or freed again |
| `SessionManager.Manager.OnNodeChannelData` | src/session.c:156-185 | reconnects iff there is no cloud channel, and names the channel used |
| `SessionManager.Manager.OnProtoChannelDisconnected` | src/session.c:83-95 | forgets the cloud channel and keeps the node |
| `SessionManager.Manager.OnProtoChannelDestroyed` | src/session.c:97-102 | gives the channel's reference back |
| `SessionManager.Manager.OnNodeChannelDisconnected` | src/session.c:117-124 | asks for the cloud channel to be closed and forgets the node channel |
| `SessionManager.Manager.OnNodeChannelDestroyed` | src/session.c:126-132 | takes the session off the list and gives the node's reference back |
| `SessionManager.Manager.Turn` | src/session.c:57-132 | turn k of a run takes the objects from its k-th state to the next |
| `SessionManager.Manager.Run` | src/session.c:57-185 | over any run the objects pass through its states with every count exact, and carriers and closed channels are those of its steps |
| `WebSockets.IndexIsPositionPlusFailures` | src/proto-ws.c:887-918 | an entry's index is its websocket's queue position plus the failed connects before it |
| `WebSockets.OwnWebsocketIffNoFailure` | src/proto-ws.c:115-125 | a descriptor finds its own websocket iff no connect failed before it was opened |
| `WebSockets.WithoutFailuresAllIsWell` | src/proto-ws.c:887-918 | without failures the next index is the queue length and every entry finds its own websocket |
| `WebSockets.LookupIsStable` | src/proto-ws.c:132-139 | what a descriptor finds never shifts while its entry is in the table |
| `WebSockets.Driver.QueueAt` | src/proto-ws.c:115-125 | the walk returns the entry at the index, or nothing past the end |
| `WebSockets.Driver.QueueRemove` | src/proto-ws.c:127-139 | only says whether the websocket is in the queue |
| `WebSockets.Driver.WsConnect` | src/proto-ws.c:856-918 | the index is consumed in any case; queue and table grow only on success |
| `WebSockets.Driver.WsClose` | src/proto-ws.c:247-273 | removes the table entry only and signals the websocket found |
| `WebSockets.Driver.Run` | src/proto-ws.c:247-273 | any history of connects and closes leaves the driver in the state of that history, every answer being that of the history before it |
| `HttpWatches.CallbackRunsOnce` | src/proto-http.c:561-609 | while no id was taken over, a watch's destroy callback ran once if its channel is destroyed and not at all otherwise, and the watch is polled exactly before |
| `HttpWatches.NeverPolledAfterwards` | src/proto-http.c:538-568 | in any run the callback runs at most once and no poll follows it |
| `HttpWatches.EventOutcome` | src/proto-http.c:538-609 | each event of a run opens one channel, closes one and, without a clash, runs its callback, or changes nothing |
| `HttpWatches.ClashLosesOne` | src/proto-http.c:86-96 | a watch whose id is taken over never has its callback run |
| `HttpWatches.ClashHappens` | src/proto-http.c:58-96 | a run in which the counter wraps around while all watches are open and the first watch's id is taken over |
| `HttpWatches.AllToldIffNoClash` | src/proto-http.c:86-104 | once all channels are destroyed, every callback ran exactly once iff no id was taken over |
| `HttpWatches.FewWatchesNeverClash` | src/proto-http.c:58-96 | ids do not clash before they wrap around |
| `HttpWatches.Driver.HttpAsync` | src/proto-http.c:579-603 | registers a timer, its id and a channel that removes it |
| `HttpWatches.Driver.OnProtoDestroyed` | src/proto-http.c:570-574 | removes the timer found by the id and runs its destroy callback |
| `HttpWatches.Driver.HttpAsyncStop` | src/proto-http.c:605-609 | destroying the channel goes through the whole chain |
| `HttpWatches.Driver.Run` | src/proto-http.c:538-609 | over any run the driver passes through its states and polls the watches whose timers fire |
| `BorderRouter.TableAndSourcesAreInverse` | inetbr/inet4.c:55-161 | in every reachable state there is one unix socket for each peer and one peer for each unix socket |
| `BorderRouter.SocketStays` | inetbr/inet4.c:118-148 | a peer's socket stays the same until that socket hangs up |
| `BorderRouter.UplinkUsesOneSocket` | inetbr/inet4.c:97-161 | all datagrams of a peer between two hang-ups are written to one socket |
| `BorderRouter.AddressIsLatest` | inetbr/inet4.c:150-150 | the address kept for a peer is the source of its latest datagram |
| `BorderRouter.PeerOrigin` | inetbr/inet4.c:118-148 | a known peer has the unix socket and the datagram socket of the one datagram that opened it |
| `BorderRouter.DownlinkFindsThePeer` | inetbr/inet4.c:62-95 | what comes back on a unix socket goes to the most recent address of the peer whose datagrams are written there, through the datagram socket by which the datagram that opened it came, with no hang-up of that peer since |
| `BorderRouter.EventOutcome` | inetbr/inet4.c:55-161 | what each event of a run writes, opens and closes: a new peer's datagram goes to the socket opened for it or is lost, a known peer's changes no socket, a hang-up removes its own peer and no other |
| `BorderRouter.Router.ReadInet4` | inetbr/inet4.c:97-161 | output and table are those of the datagram step |
| `BorderRouter.Router.Downlink4` | inetbr/inet4.c:62-95 | data is sent to the peer's stored address, if the peer is known |
| `BorderRouter.Router.Downlink4Destroy` | inetbr/inet4.c:55-60 | the peer leaves the table with its source |
| `BorderRouter.Router.Run` | inetbr/inet4.c:55-161 | over any run the objects pass through its states, and what is written and sent is what the steps say |

## Left out

- Callbacks that run inside a cloud call: the engine's steps are atomic, except for the chain
  from the disconnect handler through the driver to the watch's destroy callback.
- Node channels and device watches are library tables with values in `Gateway` and
  `SessionManager`; trusts and sessions are the objects updated in place.
- JSON text: parsing and printing work on trees. SHA-1 is an injective hash.
- A list whose "fetch" fails leaves `jobj` uninitialised in the source (src/msg.c:1692-1771,
  1956-2031); a failed fetch is modelled as doing nothing further.
- A peer pid that the kernel does not provide is uninitialised in the source; here it is any pid.
- Payloads shorter than their request type are read past their end in the source; a request
  carries all its fields here, and the length checks that exist are modelled.
- The type of a reply to an unknown request is uninitialised in the source; here it is absent.
- The layout of the value union: the readings of its bytes are the parameter `views`.
- "%d" on digits beyond 32 bits is undefined in C; the scan is on unbounded integers, and the
  fidelity theorems are about numerals within 32 bits. Doubles are reals: rounding is left out.
- `conn_index` overflowing an int, and watch ids passed as pointers cut to 32 bits.
- A document for a watch whose node channel is gone makes the source read a freed channel; such
  events are not enabled. `Reclamation.UnregisterLeavesWatch` shows when the situation arises.
- `owner_uuid`, `msg_start`, `msg_stop`, out-of-memory results and the result variable of
  `on_device_changed` that nobody reads.
- The data-error timer of `src/session.c` and `session_destroy_all`: they depend on library
  iteration and timers. A failed reconnection only leaves the state as it was.
- `http_remove`, the http requests, the websocket requests, Engine.IO and the blocking flags.
- `inet4_start`, `inet4_stop`, and `inetbr/inet6.c`, which repeats the algorithm of `inet4.c`.
- Startup, options, D-Bus and the thin wrappers `src/main.c`, `src/settings.c`, `src/manager.c`,
  `src/dbus.c`, `src/device.c`, `src/proxy.c`, `src/node*.c`.
