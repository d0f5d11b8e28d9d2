# Cordiale core: a verified model

This project models the parts of the `cordiale-core` crate that keep a property over whole runs, and proves
those properties with Dafny 4.11. `dafny verify dfyconfig.toml` checks all of it.

## What is modelled

**Pairing (X1).** A holder of a master key grants a new device over a relay: `hello`, `offer`, `join`, `signed`
and `done`.

- `PairingSpec` gives every step of a session as a function of its state. `PairingSessions.PairingSession` is the
  session object; each of its methods changes the fields in place and is proved against its step.
- `PairingDriver` gives the driver steps (`pump`, `confirm`, `finish_creator`, `finish_joiner`, `refuse`,
  `cancel`, `tick`, a close) over a session, its store and the server. `PairingDevices.PairingDevice` is the same
  driver as an object, proved against these functions.
- A system is a holder, a joiner that may not be there yet, two stores, the relay log, the list on the server and
  a history of what happened. A run is any sequence of steps. The relay serves any part of its log, in any order
  and repeated. Every call and every access to a store works or fails, as a free choice of each step (`Luck`).
  A post and the put of the list have a third outcome: they take effect and their answer is lost.
- `PairingSteps` and `PairingOutcomes` spell out what each step leaves behind, by places, numbers and literal answers,
  and `PairingExpiry` follows the lifetime of a pairing over whole runs.
- `PairingHistory` says what must have happened before each thing; `PairingHolder` and `PairingJoiner` show that
  both sides keep to it; `PairingAgreement`, `PairingTermination` and `PairingCompletes` draw the conclusions.
- `PairingHostile` lets the relay serve any initial message, any message of any other channel and any other text.
  A message of the channel of the two devices it can only repeat. `PairingElsewhere` is a holder whose channel is then
  with a stranger, `PairingHostileLimits` bounds the log, and `PairingStranger` is a run with such a stranger.

Cryptography is symbolic. A signature is the pair of its signer and the exact signed text, and the signed texts
are real strings, so injectivity and the separation of the kinds of text are proved (`Wire`). The channel of two
ephemeral keys is their pair, with a counter at each end; it opens only the next message of the peer. The check
code is any function of the channel, and the JSON length of a message is any function of the message.

**Signed lists and the peer directory.** `Devices`, `Grants`, `ListMigration`, `PeerManagement` and
`PeerConvergence`: canonical signing, the version rule, revocation, the SAS rule, and the migration between two
orders of the keys. `KeyBytes` gives the 32 bytes of a key text, and `WireTexts` and `ListChecks` say what the checks
and the signed texts mean without the steps that compute them.

**Pacing.** `Limiters`, `OneTimeKeys`, `KeyRequests` and `OutgoingQueues`: each mutable structure is a class
whose methods are proved against a state function, and that function is proved to refine a naive reading of the
full history. Time is a natural number of seconds. `QueueOrders` is the order of the waiting messages over runs of the
flush of the engine, which takes by nickname and puts its retries back in reverse.

**Replay, time and waits.** `Replay` is the window of accepted ids. `Calendar`, `Timestamps` and `HttpDates` are
the two copies of the date formula and the parsers of RFC 3339 and `Retry-After`; `HttpTexts` says which texts
the second one takes, and `DateTables` and `TextTables` spell out the tables behind them. `Backoffs` is the wait
between attempts, over real numbers. `PairingLinks` reads what a user pastes.

## Where code and comments differ

- `is_iso_timestamp` names `Z` and `+HH:MM`; the code also takes `z`, `t` and `-HH:MM`. The model follows the code.
- The window limiter promises at most `limit` events "in any window". The code keeps it for half-open spans
  (`Limiters.NoSpanOverflows`). With both ends counted, a grant exactly one window after another one is in its span
  (`Limiters.ClosedSpanHoldsTwo`); `Limiters.ClosedSpans` gives the exact condition.
- A queued message is said to be dropped when it reaches its deadline; the code drops it two seconds before
  (`OutgoingQueues.TakenInTime`).
- `OUTGOING_QUEUE_MAX` is said to bound the waiting messages of a nickname; `restore` does not look at it, and a
  change of the mapping can join two nicknames (`OutgoingQueues.RestorePassesTheLimit`,
  `OutgoingQueues.NewMappingPassesTheLimit`). `OutgoingQueues.SixteenForEach` and `OutgoingQueues.LimitedWhenRoom`
  say exactly when the limit holds.
- `peer_device_key` joins network, nickname and `did` with NUL and does not check them itself
  (`Replay.NulSharesKey`). `Replay.KeyIsItsOwn` says exactly which arguments share no key. The targets of requests and
  sends are refused with a NUL elsewhere (`rest.rs:847-853` and `rest.rs:902-906`).
- The messages of a peer are queued "in order of arrival". They wait in that order (`QueueOrders.PushOrder`), but a
  retry lets a later message of the same flush pass (`QueueOrders.RetryIsOvertaken`; exactly none does under the
  condition of `QueueOrders.SendOrder`).
- A holder that sent its offer takes `done` for the end even when no join came (`PairingStranger.DoneWithNothingPut`);
  `PairingHostile.HolderDoneMeans` says what its end means then.
- The reader of an offer takes days beyond the end of their month, which the check of a timestamp refuses
  (`Timestamps.ReaderIgnoresMonthLength`, exactly when: `Timestamps.ReadIsAccepted`).
- The reader of HTTP dates computes in 64 bits without a check of the year. Its arithmetic overflows for the far
  years and dates that `HttpDates.YearsThatFit`, `LastYearByDate`, `FirstYearByDate` and `NoDateFits` delimit.

## Model

| member | source | states |
|---|---|---|
| PairingAgreement.Agreement | crates/cordiale-core/src/e2e_pairing_flow.rs:1344-1376 | In every run, with any call or write failing: when either device is done, the server took the list of one grant, the holder built that grant from its own list for the joining device and stores its list, the joiner stores its list and certificate, and offer, join, put, store, answer, store and done happened in this order after the holder's user typed the right code |
| PairingAgreement.NothingEarly | crates/cordiale-core/src/e2e_pairing_flow.rs:1497-1532 | Before a list is put or an answer with a list enters the relay, both users typed the check code, the offer of the master went out, and a join came in that the new device signed for that master |
| PairingAgreement.ReachableOk | crates/cordiale-core/src/e2e_pairing_flow.rs:1329-1376 | Every reachable state of the two devices, their stores and the relay keeps the joint invariant: each channel counts what was sealed and opened, each flag and each stored value has its cause in the history |
| PairingAgreement.StorySoFar | crates/cordiale-core/src/e2e_pairing_flow.rs:1497-1551 | Whatever part of the protocol happened, all the parts before it happened earlier, one after the other |
| PairingHostile.HostileReachableOk | crates/cordiale-core/src/e2e_pairing_flow.rs:1329-1604 | Over a relay that may serve anything but new messages of the channel of the two devices, every reachable state is one of the honest invariant, or one whose holder holds a channel with somebody else |
| PairingHostile.PutIsBacked | crates/cordiale-core/src/e2e_pairing_flow.rs:1497-1532 | Over such a relay every list that is put is for the joining device, with both codes typed, the offer and the verified join before it; or the holder holds another channel whose code its user typed before, and the grant is from its own list for exactly the device it read there, with an id signature that verifies for its master |
| PairingHostile.OtherCodePutsNothing | crates/cordiale-core/src/e2e_pairing_flow.rs:819-845 | When the user of the holder types only the code that the joiner shows and the channel of the holder has another code, no list is ever put and the holder is never done |
| PairingHostile.HostileAgreement | crates/cordiale-core/src/e2e_pairing_flow.rs:1344-1551 | Over such a relay, when the joiner is done, both devices hold what the holder granted, in the order of the protocol |
| PairingHostile.HolderDoneMeans | crates/cordiale-core/src/e2e_pairing_flow.rs:1344-1376 | Over such a relay, when the holder is done, both devices agree exactly when it is not on another channel whose code its user typed; there it has at most the one grant for the device it read |
| PairingHostile.OneListPut | crates/cordiale-core/src/e2e_pairing_flow.rs:1497-1532 | Over such a relay the server takes the list of one grant only |
| PairingElsewhere.ForeignStep | crates/cordiale-core/src/e2e_pairing_flow.rs:1329-1604 | Any driver step of a holder on another channel keeps its invariant: at most an offer and an answer sealed, one put for the device it read, after its user typed the code |
| PairingHostileLimits.HostileFiveMessages | crates/cordiale-core/src/e2e_pairing_flow.rs:1344-1551 | Over such a relay the log holds at most five messages in every run |
| PairingHostileLimits.HostileSlotIffActive | crates/cordiale-core/src/e2e_pairing_flow.rs:1109-1125 | Over such a relay, with working storage, each slot is full exactly while its session is active |
| PairingStranger.DoneWithNothingPut | crates/cordiale-core/src/e2e_pairing_flow.rs:715-721 | A concrete run over such a relay: a stranger whose code was typed sends `done` at once, and the holder is done with nothing put |
| PairingHolder.HolderStep | crates/cordiale-core/src/e2e_pairing_flow.rs:1329-1604 | Any driver step of the holder keeps its own invariant and the one of the world, and adds only things that the holder does |
| PairingHolder.HolderUntouched | crates/cordiale-core/src/e2e_pairing_flow.rs:1329-1604 | What the joiner does leaves the invariant of the holder standing |
| PairingJoiner.JoinerStep | crates/cordiale-core/src/e2e_pairing_flow.rs:1329-1604 | Any driver step of the joiner keeps its own invariant and the one of the world, and adds only things that the joiner does |
| PairingJoiner.JoinerUntouched | crates/cordiale-core/src/e2e_pairing_flow.rs:1329-1604 | What the holder does leaves the invariant of the joiner standing |
| PairingJoiner.AnswerReadsBack | crates/cordiale-core/src/e2e_pairing_flow.rs:789-813 | The joiner reads out of `signed` exactly the grant that the holder sealed |
| PairingHistory.OnePut | crates/cordiale-core/src/e2e_pairing_flow.rs:1522-1526 | In one pairing the server takes the list of one grant only |
| PairingTermination.FiveMessages | crates/cordiale-core/src/e2e_pairing_flow.rs:1344-1551 | In every run the relay holds at most five messages: hello, join and done of the joiner and the offer and one answer of the holder, each at most once and in this order for each device |
| PairingTermination.StepLowersMeasure | crates/cordiale-core/src/e2e_pairing_flow.rs:1329-1604 | A step that changes anything but the history lowers a natural number |
| PairingTermination.FewChanges | crates/cordiale-core/src/e2e_pairing_flow.rs:1329-1604 | However long a run is, at most 24 of its steps change a session, a store, the relay or the list on the server |
| PairingTermination.SlotIffActive | crates/cordiale-core/src/e2e_pairing_flow.rs:1109-1125 | With working storage, between driver calls the pairing slot of each store is full exactly while its session is active |
| PairingTermination.AcceptSortedReads | crates/cordiale-core/src/e2e_pairing_flow.rs:638-663 | A batch without a later sequence number changes nothing; reading seals nothing and only an error ends the session |
| PairingCompletes.Completes | crates/cordiale-core/src/e2e_pairing_flow.rs:1286-1551 | From every first state of a holder that can grant and a joiner on its network without another master, when the limits of the relay have room for the five messages, eight steps with working calls and the shown code typed on both devices make both done |
| PairingCompletes.SomePairingFinishes | crates/cordiale-core/src/e2e_pairing_flow.rs:1286-1551 | For any master, any device on its first list and any other device there is a pairing that meets the conditions of `Completes` |
| PairingCompletes.JoinInEitherOrder | crates/cordiale-core/src/e2e_pairing_flow.rs:847-877 | Typing the code before the offer arrives or after it leads to the same session, store, relay and answer, wherever the offer stands in the log and whatever becomes of the later calls; nothing is posted before both are there, then one `join`, or the pairing ends |
| PairingExpiry.TickMeans | crates/cordiale-core/src/e2e_pairing_flow.rs:1588-1599 | After a tick a device is active exactly when it was active and is younger than 300 seconds; a tick that ends it leaves it timed out without its keys and empties its slot when the store works; else nothing changes |
| PairingExpiry.TimedOutMeans | crates/cordiale-core/src/e2e_pairing_flow.rs:614-620 | Over any run from any state a device is timed out only when one of its ticks came 300 seconds or more after its start, and after such a tick it is never active again |
| PairingSessions.PairingSession.Accept | crates/cordiale-core/src/e2e_pairing_flow.rs:638-663 | The loop over the sorted messages leaves the session and gives the events or the error that `PairingSpec.Accept` says |
| PairingSessions.PairingSession.AcceptOne | crates/cordiale-core/src/e2e_pairing_flow.rs:643-661 | An old message changes nothing, an own one only the last sequence, a new one of the peer is counted and taken in; the whole new state is that of the specification |
| PairingSessions.PairingSession.TakeHello | crates/cordiale-core/src/e2e_pairing_flow.rs:672-697 | The initial message opens the channel and gives the code, once |
| PairingSessions.PairingSession.TakeSealed | crates/cordiale-core/src/e2e_pairing_flow.rs:700-728 | A payload is opened only as the next message of the peer and read for the role of this side |
| PairingSessions.PairingSession.TakeOffer | crates/cordiale-core/src/e2e_pairing_flow.rs:732-766 | The offer chooses the network, gives its master and names the rest as left out; a second offer or no master ends the session |
| PairingSessions.PairingSession.TakeJoin | crates/cordiale-core/src/e2e_pairing_flow.rs:770-786 | The join gives the device and its signature after the own offer only, and once |
| PairingSessions.PairingSession.TakeSigned | crates/cordiale-core/src/e2e_pairing_flow.rs:789-813 | The answer gives the grant for the own device under the offered master |
| PairingSessions.PairingSession.Seal | crates/cordiale-core/src/e2e_pairing_flow.rs:970-991 | A message is sealed with the next number of the channel within the limits of the relay, and counted |
| PairingSessions.PairingSession.Confirm | crates/cordiale-core/src/e2e_pairing_flow.rs:819-845 | A wrong code ends the session; the right one confirms, and the creator seals its offer |
| PairingSessions.PairingSession.SealJoin | crates/cordiale-core/src/e2e_pairing_flow.rs:857-877 | The join is sealed only with the code confirmed and the master known, and once |
| PairingSessions.PairingSession.SealSigned | crates/cordiale-core/src/e2e_pairing_flow.rs:908-926 | The answer is sealed only for a confirmed device |
| PairingSessions.PairingSession.SealRefusal | crates/cordiale-core/src/e2e_pairing_flow.rs:930-944 | A refusal is sealed only for a confirmed device and a known reason, and ends the session |
| PairingSessions.PairingSession.SealDone | crates/cordiale-core/src/e2e_pairing_flow.rs:948-957 | `done` is sealed only by a joiner that sent its join |
| PairingSessions.PairingSession.End | crates/cordiale-core/src/e2e_pairing_flow.rs:600-606 | The first end reason stays, and neither key remains |
| PairingSessions.PairingSession.Finish | crates/cordiale-core/src/e2e_pairing_flow.rs:960-966 | An active session is done, and neither key remains |
| PairingSessions.PairingSession.Expire | crates/cordiale-core/src/e2e_pairing_flow.rs:614-620 | The session ends when its lifetime is over, by a subtraction that saturates |
| PairingSessions.PairingSession.SetMaster | crates/cordiale-core/src/e2e_pairing_flow.rs:629-633 | Only a key text becomes the master |
| PairingSessions.PairingSession.BindDevice | crates/cordiale-core/src/e2e_pairing_flow.rs:568-570 | The own device changes and nothing else |
| PairingSteps.ExpireMeans | crates/cordiale-core/src/e2e_pairing_flow.rs:614-620 | A session ends by its age exactly when it is active and 300 seconds old, however far apart the two clocks are; then it is timed out and both keys are gone, else it is unchanged |
| PairingSteps.OfferMeans | crates/cordiale-core/src/e2e_pairing_flow.rs:732-766 | An offer is taken exactly when it is the first and names the network of the joiner or one it can pair; the master is that of the last entry of the chosen network, and all entries of other networks are left out in their order |
| PairingSteps.OwnNetworkStays | crates/cordiale-core/src/e2e_pairing_flow.rs:736-741 | An offer that names the network of the joiner leaves it there |
| PairingSteps.MovesToFirstFit | crates/cordiale-core/src/e2e_pairing_flow.rs:742-750 | An offer without it moves the joiner to the network of the first entry that it can pair |
| PairingSteps.NothingToPair | crates/cordiale-core/src/e2e_pairing_flow.rs:763-765 | An offer without any such entry fails the pairing as not offered |
| PairingSteps.JoinMeans | crates/cordiale-core/src/e2e_pairing_flow.rs:770-786 | The device is that of the first entry of the network, with its two keys in their places, after the own offer and once |
| PairingSteps.SignedMeans | crates/cordiale-core/src/e2e_pairing_flow.rs:789-813 | The grant is put together from the first entry of the network, the own device and the offered master |
| PairingSteps.SortIsStable | crates/cordiale-core/src/e2e_pairing_flow.rs:639-640 | A batch is read by ascending sequence number, and messages of one number in the order of the batch |
| PairingSteps.AcceptOneMeans | crates/cordiale-core/src/e2e_pairing_flow.rs:643-661 | An old message changes nothing, an own one only the last number, one of more than 16384 bytes fails the pairing, and any other is counted and read for the stage |
| PairingSteps.PeerSignatureMeans | crates/cordiale-core/src/e2e_pairing_flow.rs:894-905 | The id signature is valid exactly when the device of the join signed the id text of its own curve key and the master of the holder |
| PairingLaws.ReachableIsWellFormed | crates/cordiale-core/src/e2e_pairing_flow.rs:395-420 | After any steps in any order exactly one of ephemeral key and channel is held while active and neither afterwards, the flags are in their order, and an end reason or done is never replaced |
| PairingLaws.AcceptErrorEnds | crates/cordiale-core/src/e2e_pairing_flow.rs:635-663 | Any error of the catch-up leaves the session ended |
| PairingLaws.Accounting | crates/cordiale-core/src/e2e_pairing_flow.rs:644-660 | While active, the totals have grown by exactly the messages sealed and the new messages of the peer, each once |
| PairingLaws.SealedMessageFits | crates/cordiale-core/src/e2e_pairing_flow.rs:970-991 | The size that is checked before sealing is 4 to 6 bytes above the real one, so the second check before the post never refuses a sealed message |
| PairingLaws.ShownCodeConfirms | crates/cordiale-core/src/e2e_pairing_flow.rs:582-592 | The code is shown exactly by an active session that is not confirmed, and typed back it is never the wrong one |
| PairingCatchUp.OnlyNewMessagesCount | crates/cordiale-core/src/e2e_pairing_flow.rs:638-663 | Two batches with the same new messages lead to the same state and events, whatever their order, repeats and old messages |
| PairingCatchUp.CatchUpIsSafe | crates/cordiale-core/src/e2e_pairing_flow.rs:635-663 | However a stream is cut into overlapping batches, the session ends as after one batch, and the events are the concatenation |
| PairingDevices.PairingDevice.Pump | crates/cordiale-core/src/e2e_pairing_flow.rs:1329-1341 | Session, store and server after a fetch with all its events, or after the abort, are those of the driver function that the run theorems are about |
| PairingDevices.PairingDevice.HandleAll | crates/cordiale-core/src/e2e_pairing_flow.rs:1358-1374 | The events are handled in order up to the first failure |
| PairingDevices.PairingDevice.Handle | crates/cordiale-core/src/e2e_pairing_flow.rs:1358-1374 | What one event makes the driver do; an offer for another network waits |
| PairingDevices.PairingDevice.FinishCreator | crates/cordiale-core/src/e2e_pairing_flow.rs:1497-1532 | Refusals, grant, put, store and answer in the order and with the failures of the driver function |
| PairingDevices.PairingDevice.Publish | crates/cordiale-core/src/e2e_pairing_flow.rs:1522-1531 | The list is put, then stored, then answered; each failure leaves exactly what was done before it |
| PairingDevices.PairingDevice.FinishJoiner | crates/cordiale-core/src/e2e_pairing_flow.rs:1537-1551 | Check, store, provision, done and end, with each failure leaving what was done before it |
| PairingDevices.PairingDevice.Apply | crates/cordiale-core/src/e2e_pairing_flow.rs:1048-1076 | List and certificate are saved after every check, the list first |
| PairingDevices.PairingDevice.SendJoinIfReady | crates/cordiale-core/src/e2e_pairing_flow.rs:1459-1478 | The join goes out with the id signature over the offered master |
| PairingDevices.PairingDevice.Refuse | crates/cordiale-core/src/e2e_pairing_flow.rs:1481-1491 | A refusal is posted, and the slot emptied once it went out |
| PairingDevices.PairingDevice.Confirm | crates/cordiale-core/src/e2e_pairing_flow.rs:1422-1441 | The typed code with its failures: a wrong one cleans up, a failed post aborts |
| PairingDevices.PairingDevice.PrepareHolder | crates/cordiale-core/src/e2e_pairing_flow.rs:1410-1419 | The holder takes its master key once |
| PairingDevices.PairingDevice.Post | crates/cordiale-core/src/e2e_pairing_flow.rs:1204-1220 | A call that fails adds nothing; one whose answer is lost adds the message and fails |
| PairingDevices.PairingDevice.Cancel | crates/cordiale-core/src/e2e_pairing_flow.rs:1578-1585 | The session ends and the slot is emptied |
| PairingDevices.PairingDevice.Tick | crates/cordiale-core/src/e2e_pairing_flow.rs:1588-1599 | The session ends and the slot is emptied when the lifetime is over |
| PairingDevices.PairingDevice.OnClosed | crates/cordiale-core/src/e2e_pairing_flow.rs:1565-1572 | A close of the server ends the session and empties the slot |
| PairingOutcomes.GrantMeans | crates/cordiale-core/src/e2e_pairing_flow.rs:1514-1531 | The holder tells a listed device that it is paired and a new one that the list is full, stops for a bad key and for a list it did not sign, and else publishes the grant; each failure on the way leaves the list put, kept or neither |
| PairingOutcomes.PublishMeans | crates/cordiale-core/src/e2e_pairing_flow.rs:1520-1531 | What server, store and history hold when the put, the save or the answer of a grant fails |
| PairingOutcomes.PumpMeans | crates/cordiale-core/src/e2e_pairing_flow.rs:1329-1341 | A failed fetch, a bad message and a failed event each leave a failed session without keys and the slot emptied when the store works; what was done before stays |
| PairingOutcomes.ConfirmCodeMeans | crates/cordiale-core/src/e2e_pairing_flow.rs:1422-1453 | A wrong code empties the slot, another fault of the code leaves the pairing open, and a failed post or join fails it |
| PairingOutcomes.StartMeans | crates/cordiale-core/src/e2e_pairing_flow.rs:1286-1311 | What a joiner that starts has in its session, store and relay for every fate of its calls |
| Grants.BuildGrantMeans | crates/cordiale-core/src/e2e_pairing_flow.rs:996-1042 | A grant is given exactly for a valid device key, a list signed by the master, a next version and room for a third device; it adds the device and nothing else, may be published, and its certificate verifies |
| Grants.ApplyGrantMeans | crates/cordiale-core/src/e2e_pairing_flow.rs:1048-1076 | A grant is kept exactly when every check passes and the store works; a grant that fails a check changes nothing |
| Grants.BuiltGrantApplies | crates/cordiale-core/src/e2e_pairing_flow.rs:1048-1076 | A device accepts the grant built for it unless it holds another master |
| Grants.GrantIs | crates/cordiale-core/src/e2e_pairing_flow.rs:996-1042 | A grant holds the next version, the keys in ascending plain text with the signature of the master over the text of that list, and the certificate of the device for that version with the signature over its text |
| Grants.NoGrantMeans | crates/cordiale-core/src/e2e_pairing_flow.rs:996-1042 | Why there is no grant, as an iff for each error: a bad device key, then a list the master did not sign, then the last version or a full list |
| Grants.GrantSaved | crates/cordiale-core/src/e2e_pairing_flow.rs:1048-1076 | The order of the faults of a grant, and what of it is in the store after each: nothing, the list, or the list and the certificate |
| Wire.CheckListDevicesMeans | crates/cordiale-core/src/e2e_wire.rs:414-429 | A list passes exactly with one to four distinct valid keys |
| Orders.PlainTextMeans | crates/cordiale-core/src/e2e_wire.rs:358-367 | The order of a list is the plain order of its texts: at the first place where two of them differ the smaller character comes first, and a text comes before its continuations |
| KeyBytes.BytesHaveKey | crates/cordiale-core/src/e2e_wire.rs:210-225 | Each 32 bytes have a key text, and only one; `KeyHasBytes` gives the bytes of each key text |
| KeyBytes.RawBytesMean | crates/cordiale-core/src/e2e_wire.rs:384-405 | The order of the older client is the order of the 32 bytes that the key texts stand for |
| WireTexts.ListTextMeans | crates/cordiale-core/src/e2e_wire.rs:375-382 | A list has a text exactly with a version of 31 bits and valid keys: the prefix, the plain version, and the keys in ascending plain text with commas between them |
| WireTexts.ListFails | crates/cordiale-core/src/e2e_wire.rs:414-429 | A list fails by its number of keys first, else by its first place with a bad or repeated key |
| Wire.ListTextInjective | crates/cordiale-core/src/e2e_wire.rs:375-382 | A list text stands for one version and one set of keys, in either order of the keys |
| Wire.ListTextCanonical | crates/cordiale-core/src/e2e_wire.rs:362-382 | The order in which a caller passes the keys has no influence on the text |
| Wire.DeviceTextInjective | crates/cordiale-core/src/e2e_wire.rs:320-330 | A certificate text stands for one version and one device |
| Wire.IdTextInjective | crates/cordiale-core/src/e2e_wire.rs:295-298 | An id text stands for one pair of keys |
| Wire.SignedTextsApart | crates/cordiale-core/src/e2e_wire.rs:295-382 | A text of one kind is never a text of another kind |
| Wire.DecideListMeans | crates/cordiale-core/src/e2e_wire.rs:444-467 | A list replaces exactly when it is newer or the first, and is a repeat exactly with the same version and keys |
| ListChecks.SignedListMeans | crates/cordiale-core/src/e2e_device.rs:261-270 | The answer of the check of a signed list with its faults in their order: it passes exactly when the master signed the text of the version and of the keys in ascending plain text |
| Devices.OneSignatureOneList | crates/cordiale-core/src/e2e_device.rs:261-270 | Two lists under one signature have one version and one set of keys, in any order |
| Devices.BuiltSignatureVerifies | crates/cordiale-core/src/e2e_device.rs:248-258 | What a master signs verifies, whatever the order of the keys |
| Devices.OneSignatureOneCertificate | crates/cordiale-core/src/e2e_device.rs:193-244 | Changing version or device under the same signature makes a certificate fail |
| ListChecks.CertificateMeans | crates/cordiale-core/src/e2e_device.rs:216-244 | The answer of the check of a certificate: it passes exactly when an approved master signed the text of its version and device; each fault in its order |
| ListChecks.PeerDeviceMeans | crates/cordiale-core/src/e2e_device.rs:120-155 | A remote device is accepted exactly when its key texts are valid, its did is that of its key, the key is approved and signed the id text; the answer holds its own did and both keys in their places, and a refusal the first fault |
| Devices.ListState.Apply | crates/cordiale-core/src/e2e_device.rs:281-298 | The new state and the answer of the version rule, with its errors |
| ListChecks.PutRequestMeans | crates/cordiale-core/src/e2e_identity_routes.rs:247-269 | A list leaves the client exactly when its keys stand in ascending plain text and its master signed the text of that list; each fault in its order |
| ListChecks.OrderMeans | crates/cordiale-core/src/e2e_list_migration.rs:56-74 | The current order is that of a list signed over ascending plain text, the older one that of a list signed over ascending bytes and not over plain text, and no other list has an order |
| ListChecks.MigrationIs | crates/cordiale-core/src/e2e_list_migration.rs:76-101 | A list signed over ascending plain text stays, exactly one signed over ascending bytes only is signed again and may be published, and any other list is the error of its check |
| ListChecks.MigratedListIs | crates/cordiale-core/src/e2e_list_migration.rs:83-101 | The list signed again has the same version and the same keys, in ascending plain text, with the signature of the master over that text |
| PeerManagement.PeerDirectory.ApplySignedList | crates/cordiale-core/src/e2e_manage.rs:117-140 | The new directory and the answer of one signed list, errors included |
| PeerManagement.PeerDirectory.RevokeDropped | crates/cordiale-core/src/e2e_manage.rs:132-136 | The loop adds exactly the dropped keys that were not revoked yet |
| PeerManagement.PeerDirectory.AcceptNewMaster | crates/cordiale-core/src/e2e_manage.rs:146-152 | The list and the confirmation go, the revoked keys stay |
| PeerManagement.PeerDirectory.ConfirmSas | crates/cordiale-core/src/e2e_manage.rs:110-112 | Only the confirmation changes |
| PeerManagement.ApplySignedMeans | crates/cordiale-core/src/e2e_manage.rs:117-140 | When a list is taken, refused or repeated, and its exact effect on list and revoked keys |
| PeerManagement.ExactRevocation | crates/cordiale-core/src/e2e_manage.rs:117-152 | In every history the keys accepted under the current master are the disjoint union of the current list and the keys revoked under it; the revoked keys of earlier masters stay |
| PeerManagement.RevokedForever | crates/cordiale-core/src/e2e_manage.rs:130-152 | Revoked keys stay revoked in every later state, in their place |
| PeerManagement.VerifiedMeansSas | crates/cordiale-core/src/e2e_manage.rs:110-152 | The directory is verified exactly when the user confirmed a SAS since the current master was set |
| PeerManagement.AcceptedExactly | crates/cordiale-core/src/e2e_manage.rs:156-164 | Over every history a device is accepted exactly when a SAS for the current master stands, its key is not revoked and its id block passes every check against the current list; the answer holds its own did, its signing key and its curve key |
| PeerManagement.AcceptanceMeans | crates/cordiale-core/src/e2e_manage.rs:156-164 | When a directory accepts a device, and the first reason when it does not |
| PeerConvergence.Convergence | crates/cordiale-core/src/e2e_manage.rs:117-140 | Any order, loss and repetition of the lists of a master, mixed with forged ones, leaves a fresh directory with the version and key set of the newest genuine list that arrived |
| PeerConvergence.SameDeliveriesSameKeys | crates/cordiale-core/src/e2e_manage.rs:117-140 | Two directories that received the same genuine lists hold the same keys |
| Nicks.FoldTwice | crates/cordiale-core/src/isupport.rs:41-57 | A folded name folds to itself |
| Nicks.FoldTable | crates/cordiale-core/src/isupport.rs:41-57 | Letters of ASCII fold under every mapping, the three brackets under the two of RFC 1459, the tilde under the plain one of them, and nothing else folds |
| Nicks.CoarserMapping | crates/cordiale-core/src/isupport.rs:41-57 | Who is one user under a mapping stays one user under a coarser mapping |
| Limiters.IntervalLimiter.TryAcquire | crates/cordiale-core/src/e2e_pacing.rs:198-208 | The new state and the answer of the per-nick interval, a changed mapping clearing it first |
| Limiters.IntervalLimiter.Forget | crates/cordiale-core/src/e2e_pacing.rs:210-213 | The nickname is forgotten, a changed mapping clearing the rest |
| Limiters.TracksAsk | crates/cordiale-core/src/e2e_pacing.rs:195-208 | The map refines the history: a grant exactly when the interval since the last grant of the folded nickname has passed, and a refusal leaves no trace |
| Limiters.TracksForget | crates/cordiale-core/src/e2e_pacing.rs:210-213 | A forget removes exactly this nickname from what is remembered |
| Limiters.GrantsAreSpaced | crates/cordiale-core/src/e2e_pacing.rs:169-208 | Two grants of one nickname are an interval apart while mapping and memory stay |
| Limiters.WindowLimiter.IsReady | crates/cordiale-core/src/e2e_pacing.rs:248-257 | The loop drops exactly the old events at the front, and the answer compares the rest with the limit |
| Limiters.WindowLimiter.TryAcquire | crates/cordiale-core/src/e2e_pacing.rs:259-265 | The deque and the answer of a try |
| Limiters.DropOldMeans | crates/cordiale-core/src/e2e_pacing.rs:248-257 | What is dropped stands in front, is as old as the window, and ends before the first younger event, wherever the clock went |
| Limiters.WindowIsExact | crates/cordiale-core/src/e2e_pacing.rs:248-265 | For every window and a clock that never goes back, a look finds exactly the grants of the whole run that are younger than the window, and a try is granted exactly with fewer than the limit of them |
| Limiters.NoSpanOverflows | crates/cordiale-core/src/e2e_pacing.rs:230-265 | No half-open span of the window's length ever holds more grants than the limit |
| Limiters.ClosedSpans | crates/cordiale-core/src/e2e_pacing.rs:230-265 | With both ends of the span counted, no span holds more than the limit exactly when every grant was given with fewer than the limit of grants not older than the window |
| Limiters.ClosedSpanHoldsTwo | crates/cordiale-core/src/e2e_pacing.rs:248-265 | A concrete run with a limit of one: grants at 0 and exactly one window later, so that closed span holds two |
| OneTimeKeys.OneTimeKeyPacer.Choose | crates/cordiale-core/src/e2e_pacing.rs:288-298 | The new state and the choice; the last global try never fails |
| OneTimeKeys.ChooseRefines | crates/cordiale-core/src/e2e_pacing.rs:288-298 | A one-time key exactly when both limits are open by the whole history; a fallback uses neither |
| OneTimeKeys.AnswerIsRight | crates/cordiale-core/src/e2e_pacing.rs:288-298 | In every run each answer is the one that the answers before it call for |
| OneTimeKeys.OneTimeKeysAreSpaced | crates/cordiale-core/src/e2e_pacing.rs:268-298 | One-time keys for one nickname are a minute apart while the mapping stays |
| OneTimeKeys.AtMostThirtyInAnHour | crates/cordiale-core/src/e2e_pacing.rs:268-298 | At most thirty one-time keys in any hour, even across changes of the mapping |
| KeyRequests.ReassemblyGate.Note | crates/cordiale-core/src/e2e_pacing.rs:336-351 | Old fragments of the nickname are pruned and the timer of the message restarts |
| KeyRequests.ReassemblyGate.Finish | crates/cordiale-core/src/e2e_pacing.rs:355-364 | The message goes, and the nickname with its last message |
| KeyRequests.ReassemblyGate.Active | crates/cordiale-core/src/e2e_pacing.rs:376-385 | Whether any fragment of the nickname is younger than the timeout |
| KeyRequests.GateKeepsUp | crates/cordiale-core/src/e2e_pacing.rs:336-385 | Pruning is invisible: after every event the gate agrees with the whole history |
| KeyRequests.ActiveMeansAssembling | crates/cordiale-core/src/e2e_pacing.rs:376-385 | The gate is closed exactly when some message of the nickname has a latest fragment younger than the timeout with no later finish, forget or change of the mapping |
| KeyRequests.KeyReqPacer.Send | crates/cordiale-core/src/e2e_pacing.rs:446-461 | The new state of both halves and the answer |
| KeyRequests.KeyReqPacer.Forget | crates/cordiale-core/src/e2e_pacing.rs:465-469 | Interval and fragments of the nickname go |
| KeyRequests.AnswersAreRight | crates/cordiale-core/src/e2e_pacing.rs:446-461 | In every run a request is refused while an answer is put together, else while the interval runs, else granted, by the whole history |
| KeyRequests.RequestsAreSpaced | crates/cordiale-core/src/e2e_pacing.rs:400-461 | Requests to one nickname are thirty seconds apart while mapping and memory stay; a refusal uses no interval |
| KeyRequests.OneMapping | crates/cordiale-core/src/e2e_pacing.rs:420-425 | Both halves always stand under one mapping |
| KeyRequests.NoEmptyNick | crates/cordiale-core/src/e2e_pacing.rs:336-369 | In no run does the gate keep a nickname without a message |
| KeyRequests.HistoryIsOfCalls | crates/cordiale-core/src/e2e_pacing.rs:336-469 | The history that the answers are read from holds each call of the run as it was, with its time, mapping, nickname and message |
| OutgoingQueues.OutgoingQueue.LenFor | crates/cordiale-core/src/e2e_pacing.rs:832-840 | The number of waiting messages for a folded target |
| OutgoingQueues.OutgoingQueue.Push | crates/cordiale-core/src/e2e_pacing.rs:842-854 | Refused exactly at the limit, else appended with its deadline |
| OutgoingQueues.OutgoingQueue.Expire | crates/cordiale-core/src/e2e_pacing.rs:856-872 | Exactly the late messages leave, as drops in their order |
| OutgoingQueues.OutgoingQueue.TakeMatching | crates/cordiale-core/src/e2e_pacing.rs:880-899 | Late ones leave first, ready ones are taken, the others stay, all in their order |
| OutgoingQueues.OutgoingQueue.TakeReady | crates/cordiale-core/src/e2e_pacing.rs:874-878 | Everything live is taken |
| OutgoingQueues.OutgoingQueue.Targets | crates/cordiale-core/src/e2e_pacing.rs:901-910 | Each target of the queue once |
| OutgoingQueues.OutgoingQueue.Remove | crates/cordiale-core/src/e2e_pacing.rs:912-917 | Every message of the key leaves, and the answer tells whether there was one |
| OutgoingQueues.OutgoingQueue.Restore | crates/cordiale-core/src/e2e_pacing.rs:919-922 | The message is at the front with its first deadline |
| OutgoingQueues.OutgoingQueue.EndSession | crates/cordiale-core/src/e2e_pacing.rs:924-934 | Every message leaves as a drop, in order |
| OutgoingQueues.NothingIsLost | crates/cordiale-core/src/e2e_pacing.rs:842-934 | Over any run every accepted message is exactly one of queued, taken, late, removed and ended |
| OutgoingQueues.FilterInterleaves | crates/cordiale-core/src/e2e_pacing.rs:880-899 | What is taken and what is kept stand at disjoint ascending places that cover the queue |
| OutgoingQueues.TakenInTime | crates/cordiale-core/src/e2e_pacing.rs:482-488 | Every message that is handed out was pushed less than 88 seconds before, also after a restore |
| OutgoingQueues.SixteenForEach | crates/cordiale-core/src/e2e_pacing.rs:842-922 | Under one mapping no nickname ever has more than sixteen messages waiting exactly when every restore of the run is made while its nickname has fewer than sixteen waiting |
| OutgoingQueues.LimitedWhenRoom | crates/cordiale-core/src/e2e_pacing.rs:832-922 | Over any run, whatever the mappings, the limit holds under a mapping exactly when every restore, and every push that is not refused, finds fewer than sixteen waiting there |
| OutgoingQueues.RestorePassesTheLimit | crates/cordiale-core/src/e2e_pacing.rs:842-922 | A concrete run with a restore leaves seventeen waiting; its restore does not meet the condition of `SixteenForEach` |
| OutgoingQueues.NewMappingPassesTheLimit | crates/cordiale-core/src/e2e_pacing.rs:832-854 | A concrete run whose mapping changes leaves thirty-two waiting for one user |
| QueueOrders.RestoreMeans | crates/cordiale-core/src/e2e_pacing.rs:919-922 | After a restore the queue is one longer, the message is its first, and the rest is the queue before |
| QueueOrders.ExpireMeans | crates/cordiale-core/src/e2e_pacing.rs:856-872 | Exactly the messages whose deadline is two seconds away or nearer leave, and the others keep their order |
| QueueOrders.RemoveMeans | crates/cordiale-core/src/e2e_pacing.rs:912-917 | Exactly the messages of the key leave, and the others keep their order |
| QueueOrders.UndoneTake | crates/cordiale-core/src/e2e_engine.rs:2738-2740 | When everything that a take handed out is put back in reverse, the queue is what was live before |
| QueueOrders.PushOrder | crates/cordiale-core/src/e2e_engine.rs:2663-2740 | In any run of pushes, expiries, removals and flushes by nickname whose retries are put back in reverse, the messages of each nickname wait in the order of their pushes |
| QueueOrders.PushOrderOfName | crates/cordiale-core/src/e2e_engine.rs:2663-2740 | The same when the mapping changes between the flushes of a run, for names that are one nickname under every mapping |
| QueueOrders.SendOrder | crates/cordiale-core/src/e2e_engine.rs:2663-2740 | When no flush of a run sends a message past an earlier one of its nickname that goes back, everything leaves in the order of its pushes |
| QueueOrders.RetryIsOvertaken | crates/cordiale-core/src/e2e_engine.rs:2724-2740 | A concrete flush of two messages: the first is put back for a busy relay, the second goes out |
| Replay.ReplayState.AcceptFirstMessage | crates/cordiale-core/src/e2e_peer.rs:299-309 | The windows of both kinds and the answer after a first message |
| Replay.ReplayState.AcceptNewSession | crates/cordiale-core/src/e2e_peer.rs:311-321 | The windows of both kinds and the answer after a new session |
| Replay.RecordId | crates/cordiale-core/src/e2e_peer.rs:324-340 | The search and the trim give the window of the specification |
| Replay.KeyInjective | crates/cordiale-core/src/e2e_peer.rs:66-68 | Devices of networks and nicknames without NUL never share a key |
| Replay.KeyIsItsOwn | crates/cordiale-core/src/e2e_peer.rs:66-68 | A device whose `did` has no NUL, as every `did` is, shares its key with no other such device exactly when neither its network nor its nickname holds a NUL |
| Replay.NulSharesKey | crates/cordiale-core/src/e2e_peer.rs:66-68 | For every `did`, two possible arguments that share a key: a NUL in the nickname of one and in the network of the other |
| Replay.KeySpells | crates/cordiale-core/src/e2e_peer.rs:66-68 | The key spells network, nickname and `did` in this order, with the character of number 0 between them |
| Replay.WindowIsExact | crates/cordiale-core/src/e2e_peer.rs:324-340 | In every run an id is accepted exactly when it is not among the last 256 ids accepted for its device and kind |
| Replay.OtherKept | crates/cordiale-core/src/e2e_peer.rs:324-340 | Other devices and the other kind are untouched |
| Replay.AcceptedTwiceFarApart | crates/cordiale-core/src/e2e_peer.rs:324-340 | Two acceptances of one id are at least 256 other acceptances of the device apart |
| Calendar.FormulaCounts | crates/cordiale-core/src/backoff.rs:206-214 | The formula equals plain counting of year and month lengths from 1970-01-01, in both of its copies |
| Calendar.BothCopiesAgree | crates/cordiale-core/src/e2e_pairing.rs:415-424 | The second copy gives the same days |
| Calendar.NextDayAddsOne | crates/cordiale-core/src/backoff.rs:206-214 | The next day has the next number |
| Calendar.FormulaKeepsOrder | crates/cordiale-core/src/backoff.rs:206-214 | The formula keeps the order of dates both ways, so no two dates share a number |
| Timestamps.IsIsoTimestamp | crates/cordiale-core/src/e2e_identity_routes.rs:140-198 | The scan with its moving index decides the check of the specification |
| Timestamps.IsoIsDateTime | crates/cordiale-core/src/e2e_identity_routes.rs:140-198 | The check accepts exactly the `date-time` production of section 5.6 of RFC 3339 with month lengths and leap years, second 60 always allowed |
| Timestamps.ParseUtcMeans | crates/cordiale-core/src/e2e_pairing.rs:374-424 | The reader takes exactly the texts with `T`, a zero offset and fields in their loose ranges, and the fraction does not change the value |
| Timestamps.AcceptedIsRead | crates/cordiale-core/src/e2e_pairing.rs:374-424 | An accepted text is read exactly with `T`, a second below 60 and a zero offset |
| Timestamps.ReadIsAccepted | crates/cordiale-core/src/e2e_pairing.rs:374-424 | A text that is read is accepted by the check exactly when its day is in its month |
| Timestamps.ReaderIgnoresMonthLength | crates/cordiale-core/src/e2e_pairing.rs:405-414 | A concrete text that is read and not accepted: the thirtieth of February |
| Timestamps.IsoRoundTrip | crates/cordiale-core/src/e2e_pairing.rs:374-424 | Every time up to the end of 9999, printed as `YYYY-MM-DDTHH:MM:SSZ`, is read back and accepted |
| DateTables.SecondsMean | crates/cordiale-core/src/e2e_pairing.rs:405-424 | The fields that the reader takes are the seconds since 1970 by plain counting of days, with a day beyond its month counted on |
| DateTables.EpochMeans | crates/cordiale-core/src/backoff.rs:190-203 | A date and a clock are the seconds since 1970 by plain counting of days, and nothing before that |
| HttpDates.ImfRoundTrip | crates/cordiale-core/src/backoff.rs:176-203 | Every time up to the end of 9999, printed as IMF-fixdate (section 5.6.7 of RFC 9110), is read back |
| HttpDates.HttpDateReadsBack | crates/cordiale-core/src/backoff.rs:176-203 | A date is read as its seconds, whatever the name of the day and the length of the month |
| HttpDates.BothReadersAgree | crates/cordiale-core/src/e2e_pairing.rs:374-424 | Both readers give one number for the two forms of one time |
| HttpDates.RetryAfterSeconds | crates/cordiale-core/src/backoff.rs:137-141 | Digits, with any leading zeros and any white space around them, are that many seconds, and nothing above 64 bits |
| HttpDates.RetryAfterDate | crates/cordiale-core/src/backoff.rs:142-144 | A date ahead is the time until then, a past one no wait |
| HttpDates.YearsThatFit | crates/cordiale-core/src/backoff.rs:199-214 | For every date and clock of a year each value of the formula stays within 64 bits exactly for the years from -292277022656 to 292277026595 |
| HttpDates.LastYearByDate | crates/cordiale-core/src/backoff.rs:199-214 | In the year 292277026596 exactly the dates up to 4 December, 15:30:07, fit 64 bits |
| HttpDates.FirstYearByDate | crates/cordiale-core/src/backoff.rs:199-214 | In the year -292277022657 exactly the dates from 28 January on fit 64 bits |
| HttpDates.NoDateFits | crates/cordiale-core/src/backoff.rs:199-214 | In every year beyond those two no date fits |
| HttpDates.HeaderFits | crates/cordiale-core/src/backoff.rs:176-214 | A header with any plain year that itself fits 64 bits reaches the formula, which stays within 64 bits exactly up to the year 292277026596 |
| HttpTexts.WordsMean | crates/cordiale-core/src/backoff.rs:176-188 | A text splits into words exactly when it is these words with white space between and around them |
| HttpTexts.ParseHttpDateMeans | crates/cordiale-core/src/backoff.rs:176-203 | The reader takes exactly the texts of six words in this form: any word, a day from 1 to 31, a month name, a year of 64 bits, a clock in range and `GMT`; and gives their seconds from 1970 on |
| Backoffs.Backoff.NextDelay | crates/cordiale-core/src/backoff.rs:74-92 | The new count of failures and the wait |
| Backoffs.NominalDoubles | crates/cordiale-core/src/backoff.rs:97-101 | The nominal wait starts at a second and doubles up to a minute |
| Backoffs.DelayBounds | crates/cordiale-core/src/backoff.rs:74-112 | A wait is within a quarter of the nominal one; a hint is a floor up to five minutes, and no wait is longer than that |
| Backoffs.NominalWaits | crates/cordiale-core/src/backoff.rs:97-101 | The waits before the spread are 1, 2, 4, 8, 16 and 32 seconds, and 60 from then on |
| Backoffs.JitterMeans | crates/cordiale-core/src/backoff.rs:106-120 | A random number from 0 to 1 moves the wait evenly from three to five quarters of the nominal one; beyond these ends it counts as the end, and what is no number as the middle |
| Backoffs.JitterGrows | crates/cordiale-core/src/backoff.rs:106-120 | A larger random number waits longer |
| Backoffs.DelayMeans | crates/cordiale-core/src/backoff.rs:74-92 | The exact wait: without a hint the spread one, with a hint the longer of the spread wait and the spread hint, cut at five minutes |
| Backoffs.FailuresAreCounted | crates/cordiale-core/src/backoff.rs:74-92 | In every run the counter is the number of drops since the last stable connection, up to 32 bits |
| Backoffs.WaitCountsSinceStable | crates/cordiale-core/src/backoff.rs:74-101 | In every run the nominal wait is set by the drops since the last stable connection alone |
| PairingLinks.ParseMeans | crates/cordiale-core/src/e2e_pairing.rs:275-287 | A text is a link exactly when its code is the code of that link |
| PairingLinks.CodeReadsBack | crates/cordiale-core/src/e2e_pairing.rs:298-301 | The bare code is read back |
| PairingLinks.LinkReadsBack | crates/cordiale-core/src/e2e_pairing.rs:273-287 | So are `pair=` with the code and any URL with it as its fragment |
| PairingLinks.PastedCodeMeans | crates/cordiale-core/src/e2e_pairing.rs:275-287 | The code in a pasted text is the first part after the first `#` that starts with `pair=`, or else all that stands there |
| Text.ShownCodeReadsBack | crates/cordiale-core/src/e2e_pairing_flow.rs:819-845 | The check code that the window shows, typed back, is that code |
| TextTables.TypedCodeMeans | crates/cordiale-core/src/e2e_pairing_flow.rs:819-830 | A typed text is taken for a code exactly when it is, with white space around it, an optional plus sign and digits of that value |

## Left out

- `bind_joiner`, and a pairing whose offer names another network than the one of the joiner's store: its record
  would live in two stores. An offer for another network is modelled up to the point where the driver waits.
- A restart in the middle of a pairing, and `take_stale_pairing`: the channel lives in memory only, so a restart
  ends the session.
- HTTP, URLs and JSON: a call is a step that works, fails, or loses its answer. Closing the rendezvous on the
  server has no effect that the devices see in the model.
- `provision_device` is a call that works or fails and leaves list and certificate alone; its inside is left out.
- Real cryptography: Ed25519, ECIES and SHA-256 are symbolic. A `did` stands for its key, so the collision of two
  `did` texts, which `check_list_devices` also refuses, cannot happen. A key text is any canonical text of 32
  bytes; the check that it is a point of the curve is left out.
- `start_creator`: the check for a full list, the open call and the failed save of the slot. A run starts with the
  rendezvous open and the slot saved, for any list of the holder.
- The bound on the changes (`PairingTermination.FewChanges`) and the end of a pairing are for a relay that serves its
  log only, in any order, missing or repeated; a hostile one can raise the last sequence number as often as it likes.
- HttpDates.ParseHttpDate: computes with unbounded integers; `HttpDates.YearsThatFit` and the lemmas beside it say
  for which dates the 64-bit arithmetic of the source gives the same.
- Backoffs.Delay: is over real numbers; the rounding of `mul_f64` and of `Duration` is left out.
- Limiters.Age: takes times as unbounded natural numbers; the overflow of `Duration` is left out.
- PairingCompletes.Completes: asks that the offer names the network of the joiner's store; for another network the
  driver waits for `bind_joiner`, see above.
- `SendBook`, `SendTracker` and the reading of drop events: a map whose entries change once, easy members.
- The `verify` doors of `e2e_peer.rs` over `PeerTrust`, the account protocol, SAS, frames and fragments of the wire.
- `PairingOffer::is_current`, `rate_limit_wait` and `display_seconds`: one comparison or one rounding each.
- Random numbers and clocks are parameters. Zeroizing, `Debug` output, file permissions and the sealed file of the
  store are left out; a store is its fields.
