# Vendotek payment-terminal driver, modelled in Dafny

This project models the handshake core of the Vendotek card-terminal driver
(`software/v1-enlight/dia_vendotek.cpp`) and proves properties of that model.

- **The generic stage executor `do_stage`.** It builds a request from a
  zero-terminated descriptor table and hands it to the link. Unless the stage is
  fire-and-forget, it then waits for one response and checks it descriptor by
  descriptor:
  - required vs optional fields;
  - expected text, compared case-insensitively;
  - expected integers, compared after a `%ld` parse;
  - output slots.

  Last comes the end-of-stream rule.
- **The four stage bodies and the sequencing in `do_payment`.** The stage bodies
  are IDL init, VRP, FIN and the final IDL. `do_payment` runs IDL → VRP → FIN,
  stopping at the first failure, then a best-effort teardown. The sequencing is
  modelled together with the `PaymentStage` guard.
- **`do_ping` and `do_abort`.**
- **The driver's bookkeeping.** This covers the program and confirmation thread
  bodies, `DiaVendotek_Ping` and the ping thread, and the entry points:
  - `StartPing`, `PerformTransaction`, `ConfirmTransaction`;
  - `StopDriver`, `AbortTransaction`;
  - `GetTransactionStatus`, `GetAvailableStatus`.

**Modules:**

| module | file | contents |
|---|---|---|
| `Wrappers` | `wrappers.dfy` | `Option` |
| `CInt` | `cint.dfy` | 32-bit `int` arithmetic |
| `Messages` | `messages.dfy` | A decoded message as a list of `(id, text)` parameters, with find-by-id, `"%ld"` printing and parsing, and `strcasecmp` |
| `Stage` | `stage.dfy` | Descriptors, request building, the response-validation loop, `do_stage` |
| `Tables` | `tables.dfy` | The descriptor tables of each stage, with what each stage sends and accepts |
| `Machine` | `machine.dfy` | The state machine on values: stage bodies, `do_payment`, thread bodies, entry points, ping |
| `Vendotek` | `driver.dfy` | `class Driver` with the fields the code updates, and its methods, each proved equal to the corresponding `Machine` function |
| `Api` | `api.dfy` | The entry points taking a possibly null driver |
| `Scenarios` | `scenarios.dfy` | Whole-driver scenarios |

**The environment is supplied as inputs:**
- Each exchange with the terminal is given as a `Reply`:
  - whether the send succeeded;
  - what `poll` returned;
  - whether the receive succeeded;
  - the decoded message;
  - the end-of-stream flag.
- A run consumes replies in order. Past the supplied replies, the link counts as down.
- The connection attempt's result (`vtk_net_set`) and the success of `pthread_create` are parameters.
- The unset `payment_t.opnum` is a parameter.

## Where the code and its intended design differ

Where the code and the intended behaviour disagree, the model follows the code:

- A stage body whose `PaymentStage` guard fails returns -1, not success. It performs no exchange and leaves the stage alone (lines 216, 224-255, and the same pattern in VRP and FIN).
- Each stage body gets `payment_t` **by value**, so values captured by IDL's response are not seen by VRP or FIN. In particular:
  - VRP sends and expects the caller's operation number plus one, with its own poll timeout `timeout * 1000` (lines 271-272).
  - FIN sends and expects the caller's operation number itself (line 318).
  - A terminal that echoes VRP's number in FIN is therefore rejected (`Machine.FinRejectsVrpNumber`, `Scenarios.FinEchoOfVrpNumber`).
- `do_payment` never sets `opnum` (lines 161-167), so the model takes it as an input.
- Within one `do_payment` run, a stage that fails leaves `PaymentStage` at that stage (2, 3 or 4). A stage whose guard refuses leaves it unchanged. Inside a run, only the final IDL teardown resets it to 0 (lines 351-353), and a thread reaches that teardown only after FIN succeeds. Outside `do_payment`, `PerformTransaction` sets it to 1 (line 660) and `StopDriver` resets any stage below 4 to 0 (lines 710-714).
- IDL init requires fields 1, 3, 6 and 8 in the answer; none of its descriptors is optional (lines 242-251).
- FIN sends no product-name field 0xf (lines 314-323).
- `DiaVendotek_ConfirmTransaction` lowers the amount and starts the *program* thread, not the confirmation thread (lines 688-694).
- The confirmation thread acts only when the transaction is separated (lines 499-500).
- `DiaVendotek_ConfirmTransaction` reads `specificDriver` while its parameter is spelled `specficDriver` (lines 679-681); the model uses the parameter.
- The stage bodies use an out-of-scope `driver`; the model treats it as the shared driver object.
- With no money handler registered, a successful run leaves `RequestedMoney` as it is (lines 477-479).
- On success with a handler, the amount reported is `RequestedMoney` as it stands at the report (line 472), not the amount read when the thread started.
- `StopDriver` treats any stage below 4 other than 0 as a transaction in flight. This includes negative values.
- A thread publishes `_PaymentOpts` after the connection attempt, whether or not the attempt succeeded (lines 437-439).
- The price `sum * 100` is computed in 32-bit `int` (line 427), modelled by `CInt.Wrap32`. The same applies to `RequestedMoney -= money` (line 688).

## Model

| member | source | states |
|---|---|---|
| CInt.Wrap32 | software/v1-enlight/dia_vendotek.cpp:427 | The 32-bit result of an `int` computation agrees with the exact value modulo 2^32 and equals it when the exact value fits |
| Messages.Find | software/v1-enlight/dia_vendotek.cpp:112 | Looking a field up yields nothing exactly when no parameter has that id; otherwise it yields the text of the first parameter with that id |
| Messages.ParseDec | software/v1-enlight/dia_vendotek.cpp:114 | A value reads as an integer exactly when it is an optional sign followed by one or more digits; a minus sign gives a non-positive result and no minus a non-negative one |
| Messages.ParseFormat | software/v1-enlight/dia_vendotek.cpp:114 | Any integer printed with `"%ld"` reads back as the same integer |
| Messages.EqualsIgnoreCase | software/v1-enlight/dia_vendotek.cpp:128 | Two texts compare equal exactly when they have the same length and agree character by character after ASCII lower-casing |
| Stage.Payment.Set | software/v1-enlight/dia_vendotek.cpp:125-126 | Writing through an output slot sets that payment member and leaves every other member unchanged |
| Stage.BuildRequest | software/v1-enlight/dia_vendotek.cpp:61-73 | The request-building loop produces exactly the message the descriptor table specifies |
| Stage.RequestHasField | software/v1-enlight/dia_vendotek.cpp:63-72 | Every descriptor before the terminator that has an integer or a string contributes `(id, text)`. The text is the integer in decimal when an integer is set, and otherwise the string |
| Stage.RequestOnlyFields | software/v1-enlight/dia_vendotek.cpp:63-72 | Every parameter of the request comes from a descriptor before the terminator with that id and text; a descriptor with neither integer nor string contributes nothing |
| Stage.RequestStopsAtTerminator | software/v1-enlight/dia_vendotek.cpp:63 | Descriptors after the first id 0 have no effect on the request |
| Stage.RequestAppend | software/v1-enlight/dia_vendotek.cpp:63-73 | Descriptors contribute in table order: a terminator-free prefix contributes its parameters before those of the rest |
| Stage.IntegerFieldRoundTrip | software/v1-enlight/dia_vendotek.cpp:64-66 | An integer descriptor's value appears in the request as decimal text, which the response parser reads back as the same integer |
| Stage.ValidateResponse | software/v1-enlight/dia_vendotek.cpp:109-138 | The validation loop's verdict, the payment after its writes through the slots, and the rebound string slots are those of the table-walk specification |
| Stage.CheckedTable | software/v1-enlight/dia_vendotek.cpp:122-124 | Validation changes only the descriptors' string slots. A changed slot was set before, is still set, and now holds the text of the field with the descriptor's id; a descriptor whose field is absent from the response is left unchanged |
| Stage.RejectedFieldFails | software/v1-enlight/dia_vendotek.cpp:116-137 | Any of these before the terminator fails the whole response: an absent required field, a present field whose text differs from the expected text, or one whose expected integer does not parse |
| Stage.CheckedTableAccepted | software/v1-enlight/dia_vendotek.cpp:109-138 | A response that passes has no such rejecting descriptor before the terminator |
| Stage.StopsAtFirstFailure | software/v1-enlight/dia_vendotek.cpp:116-137 | Once a descriptor fails, later descriptors neither rescue the response nor write to the payment |
| Stage.CheckIndependent | software/v1-enlight/dia_vendotek.cpp:109-138 | For a table that only captures integers or only compares them, the response passes exactly when each descriptor before the terminator passes on its own |
| Stage.SlotKept | software/v1-enlight/dia_vendotek.cpp:119-127 | An integer slot keeps its value unless some descriptor targeting it finds its field present with parseable text |
| Stage.SlotSource | software/v1-enlight/dia_vendotek.cpp:114-126 | A changed integer slot was written by a descriptor before the terminator whose field was present, and the new value is that field's text read as an integer |
| Stage.SlotWritten | software/v1-enlight/dia_vendotek.cpp:119-127 | In a passing check, a live descriptor that targets an integer slot and finds its field with parseable text leaves that integer in the slot, unless a later descriptor targeting the slot also finds parseable text |
| Stage.StringSlotWritten | software/v1-enlight/dia_vendotek.cpp:119-124 | In a passing check, a live descriptor with a string slot whose field is present gets that field's text in its slot |
| Stage.StageResult | software/v1-enlight/dia_vendotek.cpp:54-146 | A stage returns 0 or -1 and nothing else |
| Stage.DoStage | software/v1-enlight/dia_vendotek.cpp:54-146 | The executor hands the table's request to the link with the stage's timeout, and its return code, payment and response table are those of the stage specification |
| Stage.FailsBeforeValidation | software/v1-enlight/dia_vendotek.cpp:77-105 | A failed send, or (when a response is awaited) a poll result ≤ 0 or a failed receive, fails the stage before any descriptor is inspected: the payment and table are left unchanged |
| Stage.FireAndForget | software/v1-enlight/dia_vendotek.cpp:77-83 | Without a response table the stage succeeds exactly when the send succeeds |
| Stage.ReceivedResponse | software/v1-enlight/dia_vendotek.cpp:109-145 | Once a response is received, the stage succeeds exactly when every descriptor passes and the end-of-stream flag is clear or end-of-stream is allowed |
| Tables.ExpectPasses | software/v1-enlight/dia_vendotek.cpp:128-132 | An expected-text descriptor passes exactly when its field is present with that text, ignoring case |
| Tables.CapturePasses | software/v1-enlight/dia_vendotek.cpp:116-127 | A required capture descriptor passes exactly when its field is present |
| Tables.MatchPasses | software/v1-enlight/dia_vendotek.cpp:133-137 | An expected-integer descriptor passes exactly when its field is present and reads as the payment's value |
| Tables.IdlAccepts | software/v1-enlight/dia_vendotek.cpp:242-253 | IDL init passes exactly when the answer was received, names "IDL", carries fields 3, 6 and 8, and the link stayed open unless end-of-stream is allowed |
| Tables.VrpAccepts | software/v1-enlight/dia_vendotek.cpp:271-295 | VRP passes exactly when the answer was received, names "VRP", and echoes the caller's operation number plus one and the price; the link must stay open unless allowed |
| Tables.FinAccepts | software/v1-enlight/dia_vendotek.cpp:313-333 | FIN passes exactly when the answer was received, names "FIN", and echoes the caller's operation number and the price; the link may close with the answer |
| Tables.IdleAccepts | software/v1-enlight/dia_vendotek.cpp:340-349 | The teardown (and ping) exchange passes exactly when the answer was received, names "IDL", and the link stayed open unless allowed |
| Tables.IdlRequestText | software/v1-enlight/dia_vendotek.cpp:227-240 | IDL init sends its name, then the event number and name only when an event name is set, then the product id and name only when a product name is set, then the price |
| Tables.VrpRequestText | software/v1-enlight/dia_vendotek.cpp:272-284 | VRP sends its name, the caller's operation number plus one, the product id and name when a product name is set, and the price |
| Tables.FinRequestText | software/v1-enlight/dia_vendotek.cpp:314-323 | FIN sends its name, the caller's operation number, the product id when a product name is set, and the price |
| Tables.FinOmitsProductName | software/v1-enlight/dia_vendotek.cpp:314-323 | No FIN request carries the product-name field, while VRP carries it whenever a product name is set |
| Tables.IdleAndAbortText | software/v1-enlight/dia_vendotek.cpp:340-343 | The teardown and ping request is just "IDL"; the abort request is just "ABR" |
| Machine.ChainResult | software/v1-enlight/dia_vendotek.cpp:190-207 | The run succeeds exactly when the stage was started and IDL, VRP and FIN each passed. Success sends the four exchanges and leaves the stage at 0. Failure returns -1 having sent a prefix of the three; the stage is then one more than the number sent, or unchanged when nothing was started |
| Machine.AllRunResult | software/v1-enlight/dia_vendotek.cpp:190-207 | The same, in terms of the three stage verdicts on the replies of the run |
| Machine.AllRunAccepts | software/v1-enlight/dia_vendotek.cpp:190-207 | The `ALL` path succeeds exactly when all of the following hold: the stage was started; IDL's answer names "IDL" with fields 3, 6 and 8 on an open link; VRP's names "VRP" and echoes the caller's number plus one and the price on an open link; FIN's names "FIN" and echoes the caller's number and the price |
| Machine.GuardFails | software/v1-enlight/dia_vendotek.cpp:217-255 | With the stage not above 0, IDL, VRP and FIN each return -1, send nothing and leave the stage unchanged |
| Machine.TeardownIgnored | software/v1-enlight/dia_vendotek.cpp:205-207 | The teardown's reply has no bearing on the `ALL` path's result, stage or exchanges |
| Machine.MissingOpNumShortCircuits | software/v1-enlight/dia_vendotek.cpp:193-195 | An IDL answer without the operation number ends the run after IDL at stage 2, with no VRP or FIN exchange |
| Machine.FinRejectsVrpNumber | software/v1-enlight/dia_vendotek.cpp:314-332 | FIN rejects any answer that echoes the operation number VRP sent |
| Machine.UnknownKeyFails | software/v1-enlight/dia_vendotek.cpp:208-209 | An unknown key returns -1 and does nothing |
| Machine.RunStage | software/v1-enlight/dia_vendotek.cpp:177-211 | Every `do_payment` leaves the stage where it was or at 0, 2, 3 or 4 |
| Machine.SettleSpec | software/v1-enlight/dia_vendotek.cpp:469-484 | After a run: success with a handler reports the amount currently requested once and zeroes it; success without a handler changes nothing; failure zeroes the amount and reports nothing. No other field changes |
| Machine.ProgramThreadAll | software/v1-enlight/dia_vendotek.cpp:433-484 | A connected, unsplit program thread is the `ALL` run on the amount read at its start, followed by withdrawing the session and settling |
| Machine.FullTransactionReports | software/v1-enlight/dia_vendotek.cpp:412-488 | For a connected, unsplit transaction with a handler, the thread reports the requested amount exactly when IDL, VRP and FIN all pass. It ends with the amount zero and the session withdrawn; on success the stage is idle and the four exchanges were sent |
| Machine.ThreadEndsSettled | software/v1-enlight/dia_vendotek.cpp:412-566 | Every path of either thread ends with the session withdrawn. The amount is kept exactly when the payment part returned 0 and no handler is registered, and is zero otherwise, so a failed connection always zeroes it; the confirmation thread of an unsplit transaction changes nothing |
| Machine.SplitProgramPath | software/v1-enlight/dia_vendotek.cpp:449-452 | On the split path the program thread succeeds exactly when IDL and then VRP pass; it then leaves the stage at 3, having sent just those two exchanges |
| Machine.SplitConfirmationPath | software/v1-enlight/dia_vendotek.cpp:529-532 | The confirmation thread succeeds exactly when FIN passes, and then leaves the stage at 0 having sent FIN and the teardown |
| Machine.PerformTransactionSpec | software/v1-enlight/dia_vendotek.cpp:655-676 | A zero amount is refused with the null-parameter status and changes nothing. Otherwise the stage becomes 1 and the amount is recorded. Exactly when thread creation succeeds, the program thread starts and the status is no-error; otherwise the status is 1 |
| Machine.ConfirmTransactionSpec | software/v1-enlight/dia_vendotek.cpp:681-699 | A zero amount is refused with the null-parameter status and changes nothing. Otherwise the amount drops by `money` modulo 2^32 and nothing else changes, even when thread creation then fails with status 1. Exactly when creation succeeds, the status is no-error and the program thread (not the confirmation thread) starts |
| Machine.StartPingSpec | software/v1-enlight/dia_vendotek.cpp:638-646 | Starting the ping thread changes no driver field. Exactly when thread creation succeeds, the ping thread starts and the status is no-error; otherwise the status is 5 |
| Machine.StopDriverSpec | software/v1-enlight/dia_vendotek.cpp:710-731 | With a transaction in flight, stopping resets the stage, sends ABR exactly when a session is published, zeroes the amount and succeeds. With the stage 0 or at least 4, it fails with -1 and changes nothing. It starts no thread |
| Machine.ApplyStaysInRange | software/v1-enlight/dia_vendotek.cpp:177-211 | A payment run keeps `PaymentStage` within 0..4 and `Available` within 0..1 |
| Machine.EntryPointsStayInRange | software/v1-enlight/dia_vendotek.cpp:652-732 | So do `PerformTransaction`, `ConfirmTransaction` and `StopDriver` |
| Machine.ProgramPaymentStage | software/v1-enlight/dia_vendotek.cpp:446-454 | The program thread's payment leaves the stage where it was or at 0, 2, 3 or 4 |
| Machine.ConfirmationPaymentStage | software/v1-enlight/dia_vendotek.cpp:529-532 | The confirmation thread's payment leaves it where it was or at 0 or 4 |
| Machine.ThreadsStayInRange | software/v1-enlight/dia_vendotek.cpp:412-566 | Both thread bodies keep the driver's fields in range |
| Machine.PingAvailability | software/v1-enlight/dia_vendotek.cpp:588-610 | `Available` becomes 1 exactly when the ping returns 0, and otherwise 0. The ping returns 0 exactly when the connection succeeded and the terminal answered "IDL" on an open link. It touches no other field than `Available` and the link |
| Machine.PingDelay | software/v1-enlight/dia_vendotek.cpp:619-623 | The ping thread sleeps 120000 ms exactly after a good ping and 1000 ms exactly after a bad one |
| Machine.PingDelays | software/v1-enlight/dia_vendotek.cpp:616-624 | The ping thread chooses one delay per round |
| Machine.PingDelaysAt | software/v1-enlight/dia_vendotek.cpp:616-624 | The delay after round `i` is determined by that round's ping result |
| Machine.PingRoundsLast | software/v1-enlight/dia_vendotek.cpp:616-624 | After one or more rounds, `Available` reflects the last round alone, and no field other than `Available` and the link changes |
| Vendotek.DoPing | software/v1-enlight/dia_vendotek.cpp:358-383 | The ping sends "IDL" with the caller's timeout and returns 0 or -1, returning 0 exactly when the teardown-style exchange passes |
| Vendotek.DoAbort | software/v1-enlight/dia_vendotek.cpp:385-405 | The abort sends "ABR" with a one-second timeout and waits for no answer: it returns 0 exactly when the send succeeds |
| Vendotek.Driver.ExecIdl | software/v1-enlight/dia_vendotek.cpp:214-256 | The IDL init body on the driver: its code, stage and exchanges are those of the guarded stage |
| Vendotek.Driver.ExecVrp | software/v1-enlight/dia_vendotek.cpp:258-298 | The same for VRP, on its own copy of the payment |
| Vendotek.Driver.ExecFin | software/v1-enlight/dia_vendotek.cpp:300-336 | The same for FIN, with end-of-stream allowed |
| Vendotek.Driver.ExecIdlFinal | software/v1-enlight/dia_vendotek.cpp:338-356 | The teardown always returns 0 and resets the stage to 0 |
| Vendotek.Driver.RunAll | software/v1-enlight/dia_vendotek.cpp:190-207 | The step-by-step `ALL` path matches the specification whose properties are in `Machine.ChainResult` |
| Vendotek.Driver.DoPayment | software/v1-enlight/dia_vendotek.cpp:148-212 | `do_payment` on the driver matches its specification for every key |
| Vendotek.Driver.PublishSession | software/v1-enlight/dia_vendotek.cpp:438-440 | Publishing the session sets the published flag and nothing else |
| Vendotek.Driver.WithdrawSession | software/v1-enlight/dia_vendotek.cpp:456-464 | Withdrawing clears it and nothing else |
| Vendotek.Driver.PayProgram | software/v1-enlight/dia_vendotek.cpp:442-454 | The program thread's payment part: the connection error is kept as is, or the unsplit or split run is performed |
| Vendotek.Driver.PayConfirmation | software/v1-enlight/dia_vendotek.cpp:525-538 | The confirmation thread's payment part: FIN, then the teardown when FIN passed |
| Vendotek.Driver.ReportResult | software/v1-enlight/dia_vendotek.cpp:469-484 | The end-of-thread result handling, with the properties in `Machine.SettleSpec` |
| Vendotek.Driver.ExecuteProgramThread | software/v1-enlight/dia_vendotek.cpp:412-488 | The program thread body on the driver matches its specification (properties in `Machine.FullTransactionReports` and `Machine.ThreadEndsSettled`), and keeps the driver's fields in range |
| Vendotek.Driver.ExecuteConfirmationThread | software/v1-enlight/dia_vendotek.cpp:491-566 | The confirmation thread body on the driver matches its specification, and keeps the driver's fields in range |
| Vendotek.Driver.Ping | software/v1-enlight/dia_vendotek.cpp:568-611 | The ping on the driver returns the ping's code and updates `Available` as `Machine.PingAvailability` states, and keeps the driver's fields in range |
| Vendotek.Driver.RunPingThread | software/v1-enlight/dia_vendotek.cpp:614-628 | The ping loop over its rounds leaves the driver as the rounds in order do, and returns the delay chosen after each; it keeps the driver's fields in range |
| Api.StartPing | software/v1-enlight/dia_vendotek.cpp:630-647 | A null driver gets the null-parameter status; otherwise the call behaves as `Machine.StartPingSpec` states |
| Api.PerformTransaction | software/v1-enlight/dia_vendotek.cpp:652-677 | A null driver gets the null-parameter status; otherwise the call behaves as `Machine.PerformTransactionSpec` states, keeping the driver's fields in range |
| Api.ConfirmTransaction | software/v1-enlight/dia_vendotek.cpp:679-700 | A null driver gets the null-parameter status; otherwise the call behaves as `Machine.ConfirmTransactionSpec` states, keeping the driver's fields in range |
| Api.StopDriver | software/v1-enlight/dia_vendotek.cpp:704-732 | A null driver gets the null-parameter status; otherwise the call behaves as `Machine.StopDriverSpec` states, whatever the reply to ABR |
| Api.AbortTransaction | software/v1-enlight/dia_vendotek.cpp:735-741 | Aborting is stopping with the status dropped; with a null driver it does nothing |
| Api.GetTransactionStatus | software/v1-enlight/dia_vendotek.cpp:747-759 | The amount still requested, or -1 without a driver |
| Api.GetAvailableStatus | software/v1-enlight/dia_vendotek.cpp:761-774 | `Available`, or -1 without a driver |
| Scenarios.Price500 | software/v1-enlight/dia_vendotek.cpp:427 | 500 roubles are asked for as 50000 kopecks |
| Scenarios.IdlAnswerPasses | software/v1-enlight/dia_vendotek.cpp:242-253 | A typical IDL answer with operation number, timeout and event number passes IDL init |
| Scenarios.EchoesPass | software/v1-enlight/dia_vendotek.cpp:286-292 | A VRP answer passes exactly when it echoes the caller's number plus one and the price; a FIN answer exactly when it echoes the caller's number and the price |
| Scenarios.FullPayment | software/v1-enlight/dia_vendotek.cpp:412-488 | A 500-rouble payment the terminal goes along with reports 500 once, leaves nothing requested and the stage idle, and sends four requests |
| Scenarios.FullPaymentWithoutTeardownAnswer | software/v1-enlight/dia_vendotek.cpp:205 | The same payment succeeds even when the teardown goes unanswered |
| Scenarios.PriceMismatch | software/v1-enlight/dia_vendotek.cpp:286-295 | A VRP answer with another price fails the payment at stage 3 after IDL and VRP; nothing is reported and the amount is zeroed |
| Scenarios.IdlTimeout | software/v1-enlight/dia_vendotek.cpp:92-100 | A terminal that never answers IDL fails the payment at stage 2 after one request; nothing is reported |
| Scenarios.AbortWhileReserving | software/v1-enlight/dia_vendotek.cpp:704-732 | A stop between IDL and VRP of a split transaction sends ABR on the published session and zeroes the amount. The VRP that follows is refused by its guard, and the thread then reports nothing |
| Scenarios.StopWhenIdle | software/v1-enlight/dia_vendotek.cpp:715-718 | Stopping an idle driver fails with -1 and changes nothing |
| Scenarios.FinEchoOfVrpNumber | software/v1-enlight/dia_vendotek.cpp:325-333 | A terminal echoing VRP's operation number in FIN fails the payment at stage 4 with nothing reported |
| Scenarios.FullPaymentOnDriver | software/v1-enlight/dia_vendotek.cpp:412-488 | On the driver object, a started and completed 500-rouble payment has reported 500, has nothing left requested, and is idle |

## Left out

- Concurrency: the mutexes `StateLock`, `MoneyLock` and `OperationLock`, thread creation, `pthread_join` and `pthread_exit`. Each entry point and thread body is one atomic step over the driver. An entry point returns which thread it would start instead of running it, so interleavings appear only where a scenario composes the steps by hand.
- Sockets, `poll` and the `vtk_net_*` calls. Their outcomes are inputs: the connection result, and one `Reply` per exchange.
- The internals of the `vtk_msg_*` codec, `vtk_msg_print` and `vtk_msg_stringify`. A message is a list of `(id, text)` pairs.
- All logging, and the `verbose` option that only controls it.
- The timing of `delay` in the ping loop. Only the choice of 120000 or 1000 ms is modelled.
- `ToBeDeleted`: the ping loop is given the rounds that run before the flag is set.
- Messages.ParseDec: stricter than `sscanf("%ld")`. It rejects leading whitespace and trailing characters, both of which the C library accepts.
- The 64-bit `long` range of `%ld` and of `valint`: integers in the message layer are unbounded.
- The products `timeout * 1000` (lines 171, 271, 363, 437, 520, 588) are left unwrapped. Every one of them multiplies the thread bodies' constant timeout of 2 seconds, because IDL's captured timeout lands in its own copy of the payment; only `sum * 100` and `RequestedMoney -= money` are wrapped to 32 bits.
- The connection and message handles in `payment_opts_t`, `price_confirmed`, and the host and port strings.
- The `DiaVendotek` constructor and the header `dia_vendotek.h`: they are not part of this model. The initial driver state is taken to be idle. The numeric values of `DIA_VENDOTEK_NO_ERROR` and `DIA_VENDOTEK_NULL_PARAMETER` are kept symbolic.
- The "driver is empty" branches of `do_payment` and the thread bodies only log before using the pointer; a null driver there is not modelled. The explicit null checks of the entry points are modelled.
- The default arm of `do_payment`'s switch stands for any key value outside the five named ones.
