/**
  * The payment state machine of the driver, stated on values: the guarded stage
  * bodies, `do_payment`'s sequencing, the thread bodies and the entry points, each as
  * a function from the driver state before to the driver state after. The class in
  * the Vendotek module runs the same steps imperatively and is proved equal to these
  * functions; the lemmas here say what the steps promise.
  */
module Machine {
  import opened Wrappers
  import opened CInt
  import opened Messages
  import opened Stage
  import opened Tables

  /** `VendotekStage`: which part of the handshake `do_payment` runs; `Unknown` is any other value. */
  datatype Key = RcIdl | RcVrp | RcFin | RcIdlEnd | All | Unknown

  /** `payment_opts_t` without its link handles. */
  datatype PaymentOpts = PaymentOpts(timeout: int, evnum: int, evname: Option<string>,
                                     prodid: int, prodname: Option<string>, price: int)

  /** The `payment_t` that `do_payment` fills in; it never sets `opnum`, so that value is supplied. */
  function PaymentOf(o: PaymentOpts, opnum: int): Payment {
    Payment(opnum, o.evnum, o.evname, o.prodid, o.prodname, o.price, o.timeout)
  }

  /** `do_payment`'s stage options: the timeout in milliseconds and no end-of-stream allowed. */
  function StageOptsOf(o: PaymentOpts): StageOpts {
    StageOpts(o.timeout * 1000, false)
  }

  /** The effect of running stage bodies: return code, `PaymentStage` afterwards, requests handed to the link. */
  datatype Run = Run(rc: int, stage: int, sent: seq<Exchange>)

  /** Past the replies supplied, the link is taken to be down. */
  const LinkDown: Reply := Reply(false, 0, false, [], false)

  /** The reply to the `k`-th exchange of a run. */
  function At(rs: seq<Reply>, k: nat): Reply {
    if k < |rs| then rs[k] else LinkDown
  }

  /** The replies left after `k` exchanges. */
  function Drop(rs: seq<Reply>, k: nat): (d: seq<Reply>)
    ensures forall j: nat :: At(d, j) == At(rs, k + j)
  {
    if k <= |rs| then rs[k..] else []
  }

  // ---- the stage bodies (lines 214-356) ----

  /**
    * A guarded stage body: it runs only when `PaymentStage` is above 0, after moving
    * it to `next`, performs exchange `x` and returns 0 when the exchange passed.
    * Otherwise it returns -1 and touches nothing.
    */
  function Guarded(stage: int, next: int, ok: bool, x: Exchange): Run {
    if stage > 0 then Run(if ok then 0 else -1, next, [x]) else Run(-1, stage, [])
  }

  /** `exec_idl_stage` moves the stage to 2. */
  function IdlRun(p: Payment, st: StageOpts, stage: int, r: Reply): Run {
    Guarded(stage, 2, IdlOk(p, st, r), IdlX(p, st))
  }

  /** `exec_vrp_stage` moves the stage to 3. */
  function VrpRun(p: Payment, st: StageOpts, stage: int, r: Reply): Run {
    Guarded(stage, 3, VrpOk(p, st, r), VrpX(p, st))
  }

  /** `exec_fin_stage` moves the stage to 4. */
  function FinRun(p: Payment, st: StageOpts, stage: int, r: Reply): Run {
    Guarded(stage, 4, FinOk(p, st, r), FinX(p, st))
  }

  /** `exec_idl_final_stage`: always exchanges "IDL", ignores the outcome, resets the stage and returns 0. */
  function IdlFinalRun(st: StageOpts): Run {
    Run(0, 0, [IdleX(st)])
  }

  /** IDL, VRP and FIN in turn, stopping at the first -1, then the teardown (lines 190-208). */
  function Chain(stage: int, ok1: bool, ok2: bool, ok3: bool, x1: Exchange, x2: Exchange, x3: Exchange, st: StageOpts): Run {
    var a := Guarded(stage, 2, ok1, x1);
    if a.rc == -1 then a
    else
      var b := Guarded(a.stage, 3, ok2, x2);
      if b.rc == -1 then Run(-1, b.stage, a.sent + b.sent)
      else
        var c := Guarded(b.stage, 4, ok3, x3);
        if c.rc == -1 then Run(-1, c.stage, a.sent + b.sent + c.sent)
        else
          var d := IdlFinalRun(st);
          Run(0, d.stage, a.sent + b.sent + c.sent + d.sent)
  }

  /** The chain's outcome, case by case. */
  lemma ChainCases(stage: int, ok1: bool, ok2: bool, ok3: bool, x1: Exchange, x2: Exchange, x3: Exchange, st: StageOpts)
    ensures Chain(stage, ok1, ok2, ok3, x1, x2, x3, st) ==
              if stage <= 0 then Run(-1, stage, [])
              else if !ok1 then Run(-1, 2, [x1])
              else if !ok2 then Run(-1, 3, [x1, x2])
              else if !ok3 then Run(-1, 4, [x1, x2, x3])
              else Run(0, 0, [x1, x2, x3, IdleX(st)])
  {
  }

  /** The chain succeeds exactly when its stage was started and each verdict's condition holds. */
  lemma ChainSucceeds(stage: int, ok1: bool, ok2: bool, ok3: bool, c1: bool, c2: bool, c3: bool,
                      x1: Exchange, x2: Exchange, x3: Exchange, st: StageOpts)
    requires (ok1 <==> c1) && (ok2 <==> c2) && (ok3 <==> c3)
    ensures Chain(stage, ok1, ok2, ok3, x1, x2, x3, st).rc == 0 <==> stage > 0 && c1 && c2 && c3
  {
  }

  /** The `ALL` path of `do_payment`. */
  function AllRun(p: Payment, st: StageOpts, stage: int, rs: seq<Reply>): Run {
    Chain(stage, IdlOk(p, st, At(rs, 0)), VrpOk(p, st, At(rs, 1)), FinOk(p, st, At(rs, 2)),
          IdlX(p, st), VrpX(p, st), FinX(p, st), st)
  }

  /**
    * The chain succeeds exactly when the stage was started and all three passed, and
    * then sent the four exchanges and reset the stage; otherwise it returns -1 having
    * sent a prefix of the three, and the stage names the one that failed.
    */
  lemma ChainResult(stage: int, ok1: bool, ok2: bool, ok3: bool, x1: Exchange, x2: Exchange, x3: Exchange, st: StageOpts)
    ensures var r := Chain(stage, ok1, ok2, ok3, x1, x2, x3, st);
            (r.rc == 0 || r.rc == -1) && (r.rc == 0 <==> stage > 0 && ok1 && ok2 && ok3)
    ensures var r := Chain(stage, ok1, ok2, ok3, x1, x2, x3, st);
            r.rc == 0 ==> r.stage == 0 && r.sent == [x1, x2, x3, IdleX(st)]
    ensures var r := Chain(stage, ok1, ok2, ok3, x1, x2, x3, st);
            r.rc == -1 ==> |r.sent| <= 3 && r.sent == [x1, x2, x3][..|r.sent|] &&
                           r.stage == (if stage > 0 then 1 + |r.sent| else stage) &&
                           (stage > 0 <==> r.sent != [])
  {
    if stage > 0 && ok1 && ok2 && !ok3 {
      assert [x1] + [x2] + [x3] == [x1, x2, x3][..3];
    } else if stage > 0 && ok1 && !ok2 {
      assert [x1] + [x2] == [x1, x2, x3][..2];
    }
  }

  /** `do_payment` (lines 148-212). */
  function PaymentRun(o: PaymentOpts, key: Key, opnum: int, stage: int, rs: seq<Reply>): Run {
    var p := PaymentOf(o, opnum);
    var st := StageOptsOf(o);
    match key
    case RcIdl => IdlRun(p, st, stage, At(rs, 0))
    case RcVrp => VrpRun(p, st, stage, At(rs, 0))
    case RcFin => FinRun(p, st, stage, At(rs, 0))
    case RcIdlEnd => IdlFinalRun(st)
    case All => AllRun(p, st, stage, rs)
    case Unknown => Run(-1, stage, [])
  }

  /** A stage body whose guard fails performs no exchange, leaves the stage alone and returns -1. */
  lemma GuardFails(p: Payment, st: StageOpts, stage: int, r: Reply)
    requires stage <= 0
    ensures IdlRun(p, st, stage, r) == Run(-1, stage, [])
    ensures VrpRun(p, st, stage, r) == Run(-1, stage, [])
    ensures FinRun(p, st, stage, r) == Run(-1, stage, [])
  {
  }

  /** The `ALL` path's result in terms of the three stage verdicts. */
  lemma AllRunResult(p: Payment, st: StageOpts, stage: int, rs: seq<Reply>)
    ensures var r := AllRun(p, st, stage, rs);
            (r.rc == 0 || r.rc == -1) &&
            (r.rc == 0 <==> stage > 0 && IdlOk(p, st, At(rs, 0)) && VrpOk(p, st, At(rs, 1)) && FinOk(p, st, At(rs, 2)))
    ensures var r := AllRun(p, st, stage, rs);
            r.rc == 0 ==> r.stage == 0 && r.sent == [IdlX(p, st), VrpX(p, st), FinX(p, st), IdleX(st)]
    ensures var r := AllRun(p, st, stage, rs);
            r.rc == -1 ==> |r.sent| <= 3 && r.sent == [IdlX(p, st), VrpX(p, st), FinX(p, st)][..|r.sent|] &&
                           r.stage == (if stage > 0 then 1 + |r.sent| else stage) &&
                           (stage > 0 <==> r.sent != [])
  {
    ChainResult(stage, IdlOk(p, st, At(rs, 0)), VrpOk(p, st, At(rs, 1)), FinOk(p, st, At(rs, 2)),
                IdlX(p, st), VrpX(p, st), FinX(p, st), st);
  }

  /** The teardown's reply has no bearing on the `ALL` path's result. */
  lemma TeardownIgnored(p: Payment, st: StageOpts, stage: int, rs: seq<Reply>, rs': seq<Reply>)
    requires forall k: nat :: k < 3 ==> At(rs, k) == At(rs', k)
    ensures AllRun(p, st, stage, rs) == AllRun(p, st, stage, rs')
  {
    assert At(rs, 0) == At(rs', 0) && At(rs, 1) == At(rs', 1) && At(rs, 2) == At(rs', 2);
  }

  /** What IDL, VRP and FIN accept, stated for the payment `do_payment` builds from its options. */
  predicate IdlAnswered(r: Reply) {
    Received(r) && !r.eof && TextIs(r.msg, IdName, "IDL") &&
    Find(r.msg, IdOpNum).Some? && Find(r.msg, IdTimeout).Some? && Find(r.msg, IdEvNum).Some?
  }

  predicate VrpAnswered(o: PaymentOpts, opnum: int, r: Reply) {
    Received(r) && !r.eof && TextIs(r.msg, IdName, "VRP") &&
    NumberIs(r.msg, IdOpNum, opnum + 1) && NumberIs(r.msg, IdAmount, o.price)
  }

  predicate FinAnswered(o: PaymentOpts, opnum: int, r: Reply) {
    Received(r) && TextIs(r.msg, IdName, "FIN") &&
    NumberIs(r.msg, IdOpNum, opnum) && NumberIs(r.msg, IdAmount, o.price)
  }

  lemma IdlVerdict(o: PaymentOpts, opnum: int, r: Reply)
    ensures IdlOk(PaymentOf(o, opnum), StageOptsOf(o), r) <==> IdlAnswered(r)
  {
    IdlAccepts(PaymentOf(o, opnum), StageOptsOf(o), r);
  }

  lemma VrpVerdict(o: PaymentOpts, opnum: int, r: Reply)
    ensures VrpOk(PaymentOf(o, opnum), StageOptsOf(o), r) <==> VrpAnswered(o, opnum, r)
  {
    VrpAccepts(PaymentOf(o, opnum), StageOptsOf(o), r);
  }

  lemma FinVerdict(o: PaymentOpts, opnum: int, r: Reply)
    ensures FinOk(PaymentOf(o, opnum), StageOptsOf(o), r) <==> FinAnswered(o, opnum, r)
  {
    FinAccepts(PaymentOf(o, opnum), StageOptsOf(o), r);
  }

  /**
    * The `ALL` path in the terminal's terms: it succeeds exactly when the stage was
    * started, the IDL answer names "IDL" and carries fields 3, 6 and 8, the VRP answer
    * names "VRP" and echoes the caller's operation number plus one and the price, the
    * FIN answer names "FIN" and echoes the caller's operation number itself and the
    * price, and the link stayed open for IDL and VRP.
    */
  lemma AllRunAccepts(o: PaymentOpts, opnum: int, stage: int, rs: seq<Reply>)
    ensures AllRun(PaymentOf(o, opnum), StageOptsOf(o), stage, rs).rc == 0 <==>
              stage > 0 && IdlAnswered(At(rs, 0)) && VrpAnswered(o, opnum, At(rs, 1)) && FinAnswered(o, opnum, At(rs, 2))
  {
    var p := PaymentOf(o, opnum);
    var st := StageOptsOf(o);
    var r0, r1, r2 := At(rs, 0), At(rs, 1), At(rs, 2);
    IdlVerdict(o, opnum, r0);
    VrpVerdict(o, opnum, r1);
    FinVerdict(o, opnum, r2);
    ChainSucceeds(stage, IdlOk(p, st, r0), VrpOk(p, st, r1), FinOk(p, st, r2),
                  IdlAnswered(r0), VrpAnswered(o, opnum, r1), FinAnswered(o, opnum, r2),
                  IdlX(p, st), VrpX(p, st), FinX(p, st), st);
  }

  /** An IDL answer without the operation number ends the run after IDL: no VRP or FIN exchange. */
  lemma MissingOpNumShortCircuits(o: PaymentOpts, opnum: int, stage: int, rs: seq<Reply>)
    requires stage > 0 && Find(At(rs, 0).msg, IdOpNum).None?
    ensures PaymentRun(o, All, opnum, stage, rs) == Run(-1, 2, [IdlX(PaymentOf(o, opnum), StageOptsOf(o))])
  {
    IdlAccepts(PaymentOf(o, opnum), StageOptsOf(o), At(rs, 0));
  }

  /**
    * However the terminal answers, FIN fails when it echoes the operation number VRP
    * sent: VRP sends the caller's number plus one, FIN the caller's number.
    */
  lemma FinRejectsVrpNumber(o: PaymentOpts, opnum: int, r: Reply)
    requires NumberIs(r.msg, IdOpNum, opnum + 1)
    ensures !FinOk(PaymentOf(o, opnum), StageOptsOf(o), r)
  {
    FinAccepts(PaymentOf(o, opnum), StageOptsOf(o), r);
  }

  /** `do_payment` with a key it does not know returns -1 and does nothing. */
  lemma UnknownKeyFails(o: PaymentOpts, opnum: int, stage: int, rs: seq<Reply>)
    ensures PaymentRun(o, Unknown, opnum, stage, rs) == Run(-1, stage, [])
  {
  }

  /** Every run leaves `PaymentStage` where it was or at 0, 2, 3 or 4. */
  lemma RunStage(o: PaymentOpts, key: Key, opnum: int, stage: int, rs: seq<Reply>)
    ensures var s := PaymentRun(o, key, opnum, stage, rs).stage;
            s == stage || s == 0 || s == 2 || s == 3 || s == 4
  {
  }

  // ---- the driver (lines 412-774) ----

  /**
    * The driver fields the thread bodies and entry points use: `PaymentStage`,
    * `RequestedMoney`, `Available`, whether `_PaymentOpts` is published,
    * `IsTransactionSeparated`, whether a money handler is registered, the amounts
    * reported to the handler, and every request handed to the link.
    */
  datatype DriverState = DriverState(stage: int, money: Int32, available: int, published: bool,
                                     separated: bool, hasHandler: bool, reported: seq<int>,
                                     sent: seq<Exchange>)

  /** The fields that hold an in-range value at all times. */
  predicate InRange(s: DriverState) {
    0 <= s.stage <= 4 && (s.available == 0 || s.available == 1)
  }

  function Initial(separated: bool, hasHandler: bool): (s: DriverState)
    ensures InRange(s)
  {
    DriverState(0, 0, 0, false, separated, hasHandler, [], [])
  }

  /** The driver after a run of stage bodies. */
  function Apply(s: DriverState, r: Run): DriverState {
    s.(stage := r.stage, sent := s.sent + r.sent)
  }

  /** Result handling at the end of a thread body (lines 469-484, 547-562). */
  function Settle(s: DriverState, rcode: int): DriverState {
    if rcode == 0 then
      if s.hasHandler then s.(reported := s.reported + [s.money], money := 0) else s
    else s.(money := 0)
  }

  /** `popts` of the thread bodies: a 2-second timeout, empty event and product names, the amount in kopecks. */
  function ProgramOpts(sum: Int32): PaymentOpts {
    PaymentOpts(2, 0, Some(""), 0, Some(""), Wrap32(sum * 100))
  }

  /** The program thread's payment: `ALL`, or IDL then VRP on the split path (lines 446-454). */
  function ProgramPayment(o: PaymentOpts, separated: bool, stage: int, opnum1: int, opnum2: int, rs: seq<Reply>): Run {
    if !separated then PaymentRun(o, All, opnum1, stage, rs)
    else
      var a := PaymentRun(o, RcIdl, opnum1, stage, rs);
      if a.rc >= 0 then
        var b := PaymentRun(o, RcVrp, opnum2, a.stage, Drop(rs, 1));
        Run(b.rc, b.stage, a.sent + b.sent)
      else a
  }

  /** The confirmation thread's payment: FIN, then the teardown if FIN passed (lines 529-532). */
  function ConfirmationPayment(o: PaymentOpts, stage: int, opnum1: int, opnum2: int, rs: seq<Reply>): Run {
    var a := PaymentRun(o, RcFin, opnum1, stage, rs);
    if a.rc >= 0 then
      var b := PaymentRun(o, RcIdlEnd, opnum2, a.stage, Drop(rs, 1));
      Run(b.rc, b.stage, a.sent + b.sent)
    else a
  }

  /** The result of a thread body's payment part and the driver after it. */
  datatype Answer = Answer(rc: int, state: DriverState)

  /** A thread body publishes its `popts` once the connection attempt has been made. */
  function Publish(s: DriverState): DriverState {
    s.(published := true)
  }

  function Unpublish(s: DriverState): DriverState {
    s.(published := false)
  }

  /** The payment part of the program thread, given the connection result and the amount read at its start. */
  function ProgramPart(s: DriverState, sum: Int32, connectRc: int, opnum1: int, opnum2: int, rs: seq<Reply>): Answer {
    if connectRc < 0 then Answer(connectRc, s)
    else
      var r := ProgramPayment(ProgramOpts(sum), s.separated, s.stage, opnum1, opnum2, rs);
      Answer(r.rc, Apply(s, r))
  }

  /** The payment part of the confirmation thread. */
  function ConfirmationPart(s: DriverState, sum: Int32, connectRc: int, opnum1: int, opnum2: int, rs: seq<Reply>): Answer {
    if connectRc < 0 then Answer(connectRc, s)
    else
      var r := ConfirmationPayment(ProgramOpts(sum), s.stage, opnum1, opnum2, rs);
      Answer(r.rc, Apply(s, r))
  }

  /** `DiaVendotek_ExecuteDriverProgramThread` (lines 412-488), run without interruption. */
  function ProgramThreadRun(s: DriverState, connectRc: int, opnum1: int, opnum2: int, rs: seq<Reply>): DriverState {
    var a := ProgramPart(Publish(s), s.money, connectRc, opnum1, opnum2, rs);
    Settle(Unpublish(a.state), a.rc)
  }

  /** `DiaVendotek_ExecutePaymentConfirmationDriverProgramThread` (lines 491-566): nothing unless the transaction is split. */
  function ConfirmationThreadRun(s: DriverState, connectRc: int, opnum1: int, opnum2: int, rs: seq<Reply>): DriverState {
    if !s.separated then s
    else
      var a := ConfirmationPart(Publish(s), s.money, connectRc, opnum1, opnum2, rs);
      Settle(Unpublish(a.state), a.rc)
  }

  /**
    * A thread body's last step: on success with a handler the amount still requested
    * is reported once and then zeroed; on success without a handler nothing changes;
    * on failure the amount is zeroed and nothing is reported.
    */
  lemma SettleSpec(s: DriverState, rcode: int)
    ensures var t := Settle(s, rcode);
            t.money == (if rcode == 0 && !s.hasHandler then s.money else 0) &&
            t.reported == (if rcode == 0 && s.hasHandler then s.reported + [s.money] else s.reported) &&
            t.(money := s.money, reported := s.reported) == s
  {
  }

  /** The unsplit program thread, once connected, is the `ALL` run followed by the report. */
  lemma ProgramThreadAll(s: DriverState, connectRc: int, opnum1: int, opnum2: int, rs: seq<Reply>)
    requires !s.separated && connectRc >= 0
    ensures var o := ProgramOpts(s.money);
            var r := AllRun(PaymentOf(o, opnum1), StageOptsOf(o), s.stage, rs);
            ProgramThreadRun(s, connectRc, opnum1, opnum2, rs) ==
              Settle(s.(stage := r.stage, sent := s.sent + r.sent, published := false), r.rc)
  {
  }

  /**
    * A full (unsplit) transaction with a handler, started and connected, reports the
    * requested amount exactly when IDL, VRP and FIN all pass; the amount is zero
    * afterwards either way, the session is withdrawn, and on success the stage is idle.
    */
  lemma FullTransactionReports(s: DriverState, connectRc: int, opnum1: int, opnum2: int, rs: seq<Reply>)
    requires !s.separated && s.hasHandler && connectRc >= 0
    ensures var t := ProgramThreadRun(s, connectRc, opnum1, opnum2, rs);
            var o := ProgramOpts(s.money);
            var p := PaymentOf(o, opnum1);
            var st := StageOptsOf(o);
            var ok := s.stage > 0 && IdlOk(p, st, At(rs, 0)) && VrpOk(p, st, At(rs, 1)) && FinOk(p, st, At(rs, 2));
            t.money == 0 && !t.published &&
            t.reported == (if ok then s.reported + [s.money] else s.reported) &&
            (ok ==> t.stage == 0 && t.sent == s.sent + [IdlX(p, st), VrpX(p, st), FinX(p, st), IdleX(st)])
  {
    var o := ProgramOpts(s.money);
    AllRunResult(PaymentOf(o, opnum1), StageOptsOf(o), s.stage, rs);
  }

  /**
    * Whatever path a thread body takes, it ends with the session withdrawn, and the amount
    * is kept only when its payment part succeeded without a handler; in particular a failed
    * connection always zeroes it. The confirmation thread of an unsplit transaction changes nothing.
    */
  lemma ThreadEndsSettled(s: DriverState, connectRc: int, opnum1: int, opnum2: int, rs: seq<Reply>)
    ensures var t := ProgramThreadRun(s, connectRc, opnum1, opnum2, rs);
            var a := ProgramPart(Publish(s), s.money, connectRc, opnum1, opnum2, rs);
            !t.published && t.money == (if a.rc == 0 && !s.hasHandler then s.money else 0) &&
            (connectRc < 0 ==> t.money == 0)
    ensures var t := ConfirmationThreadRun(s, connectRc, opnum1, opnum2, rs);
            var b := ConfirmationPart(Publish(s), s.money, connectRc, opnum1, opnum2, rs);
            (!s.separated ==> t == s) &&
            (s.separated ==> !t.published && t.money == (if b.rc == 0 && !s.hasHandler then s.money else 0) &&
                             (connectRc < 0 ==> t.money == 0))
  {
    var a := ProgramPart(Publish(s), s.money, connectRc, opnum1, opnum2, rs);
    SettleSpec(Unpublish(a.state), a.rc);
    if s.separated {
      var b := ConfirmationPart(Publish(s), s.money, connectRc, opnum1, opnum2, rs);
      SettleSpec(Unpublish(b.state), b.rc);
    }
  }

  /**
    * On the split path the program thread performs at most IDL and VRP, and on success
    * leaves the stage at 3, ready for FIN.
    */
  lemma SplitProgramPath(o: PaymentOpts, stage: int, opnum1: int, opnum2: int, rs: seq<Reply>)
    requires stage > 0
    ensures var r := ProgramPayment(o, true, stage, opnum1, opnum2, rs);
            var p := PaymentOf(o, opnum1);
            var q := PaymentOf(o, opnum2);
            var st := StageOptsOf(o);
            (r.rc == 0 <==> IdlOk(p, st, At(rs, 0)) && VrpOk(q, st, At(rs, 1))) &&
            (r.rc == 0 ==> r.stage == 3 && r.sent == [IdlX(p, st), VrpX(q, st)])
  {
    var p, q, st := PaymentOf(o, opnum1), PaymentOf(o, opnum2), StageOptsOf(o);
    var a := PaymentRun(o, RcIdl, opnum1, stage, rs);
    assert a == Guarded(stage, 2, IdlOk(p, st, At(rs, 0)), IdlX(p, st));
    assert At(Drop(rs, 1), 0) == At(rs, 1);
    if a.rc >= 0 {
      var b := PaymentRun(o, RcVrp, opnum2, a.stage, Drop(rs, 1));
      assert b == Guarded(2, 3, VrpOk(q, st, At(rs, 1)), VrpX(q, st));
    }
  }

  /** The confirmation thread then performs FIN and, if FIN passed, the teardown. */
  lemma SplitConfirmationPath(o: PaymentOpts, stage: int, opnum1: int, opnum2: int, rs: seq<Reply>)
    requires stage > 0
    ensures var r := ConfirmationPayment(o, stage, opnum1, opnum2, rs);
            var p := PaymentOf(o, opnum1);
            var st := StageOptsOf(o);
            (r.rc == 0 <==> FinOk(p, st, At(rs, 0))) &&
            (r.rc == 0 ==> r.stage == 0 && r.sent == [FinX(p, st), IdleX(st)])
  {
    var p, st := PaymentOf(o, opnum1), StageOptsOf(o);
    var a := PaymentRun(o, RcFin, opnum1, stage, rs);
    assert a == Guarded(stage, 4, FinOk(p, st, At(rs, 0)), FinX(p, st));
    if a.rc >= 0 {
      assert PaymentRun(o, RcIdlEnd, opnum2, a.stage, Drop(rs, 1)) == IdlFinalRun(st);
    }
  }

  // ---- entry points (lines 630-774) ----

  /** Status codes; the numeric values of the two named ones belong to the header, which is not part of this model. */
  datatype Status = NoError | NullParameter | Code(n: int)

  /** The threads an entry point can hand to `pthread_create`. */
  datatype Worker = ProgramWorker | ConfirmationWorker | PingWorker

  /** An entry point's status, the driver after it, and the thread it started, if any. */
  datatype Call = Call(status: Status, state: DriverState, spawned: Option<Worker>)

  /** `DiaVendotek_PerformTransaction` on a driver (lines 652-677); thread creation succeeds when `spawnOk`. */
  function PerformTransaction(s: DriverState, money: Int32, spawnOk: bool): Call {
    if money == 0 then Call(NullParameter, s, None)
    else
      var t := s.(stage := 1, money := money);
      if spawnOk then Call(NoError, t, Some(ProgramWorker)) else Call(Code(1), t, None)
  }

  /** `DiaVendotek_ConfirmTransaction` on a driver (lines 679-700): the requested amount drops by `money` in 32-bit arithmetic. */
  function ConfirmTransaction(s: DriverState, money: Int32, spawnOk: bool): Call {
    if money == 0 then Call(NullParameter, s, None)
    else
      var t := s.(money := Wrap32(s.money - money));
      if spawnOk then Call(NoError, t, Some(ProgramWorker)) else Call(Code(1), t, None)
  }

  /** `DiaVendotek_StopDriver` on a driver (lines 704-732); the ABR exchange goes out only on a published session. */
  function StopDriver(s: DriverState): Call {
    var stage := s.stage;
    var t := if stage < 4 then s.(stage := 0) else s;
    if stage == 0 || stage > 3 then Call(Code(-1), t, None)
    else
      var u := if t.published then t.(sent := t.sent + [AbortX]) else t;
      Call(NoError, u.(money := 0), None)
  }

  /** `DiaVendotek_StartPing` on a driver (lines 630-647). */
  function StartPing(s: DriverState, spawnOk: bool): Call {
    if spawnOk then Call(NoError, s, Some(PingWorker)) else Call(Code(5), s, None)
  }

  /** A transaction with a zero amount is refused and changes nothing; otherwise it starts the stage machine and records the amount. */
  lemma PerformTransactionSpec(s: DriverState, money: Int32, spawnOk: bool)
    ensures var c := PerformTransaction(s, money, spawnOk);
            (money == 0 ==> c == Call(NullParameter, s, None)) &&
            (money != 0 ==> c.state == s.(stage := 1, money := money) &&
                            (c.status == NoError <==> spawnOk) &&
                            c.spawned == (if spawnOk then Some(ProgramWorker) else None) &&
                            (!spawnOk ==> c.status == Code(1)))
  {
  }

  /**
    * A confirmation with a zero amount is refused and changes nothing. Otherwise the
    * amount drops by `money` modulo 2^32 before the thread is created, so it stays
    * lowered even when creation fails (status 1); on success it starts the program
    * thread again, not the confirmation thread.
    */
  lemma ConfirmTransactionSpec(s: DriverState, money: Int32, spawnOk: bool)
    ensures var c := ConfirmTransaction(s, money, spawnOk);
            (money == 0 ==> c == Call(NullParameter, s, None)) &&
            (money != 0 ==> (c.state.money as int - (s.money as int - money as int)) % Modulus == 0 &&
                            c.state.(money := s.money) == s &&
                            (c.status == NoError <==> spawnOk) &&
                            c.spawned == (if spawnOk then Some(ProgramWorker) else None) &&
                            (!spawnOk ==> c.status == Code(1)))
  {
  }

  /** Starting the ping thread changes no field; creation failure gives status 5. */
  lemma StartPingSpec(s: DriverState, spawnOk: bool)
    ensures var c := StartPing(s, spawnOk);
            c.state == s && (c.status == NoError <==> spawnOk) &&
            c.spawned == (if spawnOk then Some(PingWorker) else None) &&
            (!spawnOk ==> c.status == Code(5))
  {
  }

  /**
    * Stopping while a transaction is in flight (a stage below 4 other than 0, in
    * practice 1, 2 or 3) resets the stage, sends ABR exactly when a session is
    * published, zeroes the amount and succeeds. Stopping with the stage idle, at FIN
    * or beyond fails and changes nothing, sending nothing.
    */
  lemma StopDriverSpec(s: DriverState)
    ensures var c := StopDriver(s);
            (s.stage < 4 && s.stage != 0 ==>
               c.status == NoError &&
               c.state == s.(stage := 0, money := 0, sent := s.sent + (if s.published then [AbortX] else []))) &&
            (s.stage == 0 || s.stage >= 4 ==> c.status == Code(-1) && c.state == s) &&
            c.spawned == None
  {
  }

  /** Every run leaves an in-range driver in range. */
  lemma ApplyStaysInRange(s: DriverState, o: PaymentOpts, key: Key, opnum: int, rs: seq<Reply>)
    requires InRange(s)
    ensures InRange(Apply(s, PaymentRun(o, key, opnum, s.stage, rs)))
  {
    RunStage(o, key, opnum, s.stage, rs);
  }

  /** The entry points keep `PaymentStage` in 0..4 and `Available` in 0..1. */
  lemma EntryPointsStayInRange(s: DriverState, money: Int32, spawnOk: bool)
    requires InRange(s)
    ensures InRange(PerformTransaction(s, money, spawnOk).state)
    ensures InRange(ConfirmTransaction(s, money, spawnOk).state)
    ensures InRange(StopDriver(s).state)
  {
  }

  lemma ProgramPaymentStage(o: PaymentOpts, separated: bool, stage: int, opnum1: int, opnum2: int, rs: seq<Reply>)
    ensures var s := ProgramPayment(o, separated, stage, opnum1, opnum2, rs).stage;
            s == stage || s == 0 || s == 2 || s == 3 || s == 4
  {
    RunStage(o, All, opnum1, stage, rs);
    RunStage(o, RcIdl, opnum1, stage, rs);
    RunStage(o, RcVrp, opnum2, PaymentRun(o, RcIdl, opnum1, stage, rs).stage, Drop(rs, 1));
  }

  lemma ConfirmationPaymentStage(o: PaymentOpts, stage: int, opnum1: int, opnum2: int, rs: seq<Reply>)
    ensures var s := ConfirmationPayment(o, stage, opnum1, opnum2, rs).stage;
            s == stage || s == 0 || s == 4
  {
    RunStage(o, RcFin, opnum1, stage, rs);
  }

  /** So do the thread bodies. */
  lemma ThreadsStayInRange(s: DriverState, connectRc: int, opnum1: int, opnum2: int, rs: seq<Reply>)
    requires InRange(s)
    ensures InRange(ProgramThreadRun(s, connectRc, opnum1, opnum2, rs))
    ensures InRange(ConfirmationThreadRun(s, connectRc, opnum1, opnum2, rs))
  {
    var o := ProgramOpts(s.money);
    ProgramPaymentStage(o, s.separated, s.stage, opnum1, opnum2, rs);
    ConfirmationPaymentStage(o, s.stage, opnum1, opnum2, rs);
    var a := ProgramPart(Publish(s), s.money, connectRc, opnum1, opnum2, rs);
    SettleSpec(Unpublish(a.state), a.rc);
    var b := ConfirmationPart(Publish(s), s.money, connectRc, opnum1, opnum2, rs);
    SettleSpec(Unpublish(b.state), b.rc);
  }

  // ---- availability (lines 568-628) ----

  /** `DiaVendotek_Ping` uses a 2-second timeout and no end-of-stream. */
  const PingOpts: StageOpts := StageOpts(2000, false)

  /** What `DiaVendotek_Ping` returns: the connection result, or the ping exchange's when connected. */
  function PingRc(connectRc: int, r: Reply): int {
    if connectRc < 0 then connectRc else if IdleOk(PingOpts, r) then 0 else -1
  }

  /** `DiaVendotek_Ping` on a driver: `Available` follows the result. */
  function Ping(s: DriverState, connectRc: int, r: Reply): Answer {
    var rc := PingRc(connectRc, r);
    var sent := if connectRc < 0 then s.sent else s.sent + [IdleX(PingOpts)];
    Answer(rc, s.(available := if rc == 0 then 1 else 0, sent := sent))
  }

  /** The terminal is marked available exactly when the connection succeeded and it answered the ping with "IDL" on an open link. */
  lemma PingAvailability(s: DriverState, connectRc: int, r: Reply)
    ensures var a := Ping(s, connectRc, r);
            (a.state.available == 1 <==> a.rc == 0) &&
            (a.state.available == 0 || a.state.available == 1) &&
            (a.rc == 0 <==> connectRc >= 0 && Received(r) && !r.eof && TextIs(r.msg, IdName, "IDL")) &&
            a.state.(available := s.available, sent := s.sent) == s
  {
    IdleAccepts(PingOpts, r);
  }

  /** The ping thread waits two minutes after a good ping and one second after a bad one (lines 619-623). */
  function PingDelay(rc: int): (ms: int)
    ensures ms == 120000 <==> rc == 0
    ensures ms == 1000 <==> rc != 0
  {
    if rc == 0 then 120000 else 1000
  }

  /** Rounds of the ping thread, each with its connection result and reply; the driver after them. */
  function PingRounds(s: DriverState, rounds: seq<(int, Reply)>): DriverState
    decreases |rounds|
  {
    if rounds == [] then s
    else PingRounds(Ping(s, rounds[0].0, rounds[0].1).state, rounds[1..])
  }

  /** The delay the ping thread sleeps after each round. */
  function PingDelays(rounds: seq<(int, Reply)>): (ds: seq<int>)
    ensures |ds| == |rounds|
    decreases |rounds|
  {
    if rounds == [] then [] else [PingDelay(PingRc(rounds[0].0, rounds[0].1))] + PingDelays(rounds[1..])
  }

  /** Round `i` is followed by a 120-second sleep when its ping succeeded and a 1-second one otherwise. */
  lemma {:induction false} PingDelaysAt(rounds: seq<(int, Reply)>, i: nat)
    requires i < |rounds|
    ensures PingDelays(rounds)[i] == PingDelay(PingRc(rounds[i].0, rounds[i].1))
    decreases i
  {
    if i > 0 {
      PingDelaysAt(rounds[1..], i - 1);
    }
  }

  lemma PingDelaysStep(rounds: seq<(int, Reply)>, i: nat)
    requires i < |rounds|
    ensures PingDelays(rounds[..i + 1]) == PingDelays(rounds[..i]) + [PingDelay(PingRc(rounds[i].0, rounds[i].1))]
    decreases i
  {
    if i > 0 {
      assert rounds[..i + 1][1..] == rounds[1..][..i];
      assert rounds[..i][1..] == rounds[1..][..i - 1];
      PingDelaysStep(rounds[1..], i - 1);
    }
  }

  /** Running the rounds from position `i` is running round `i` and then the rest. */
  lemma PingRoundsAt(s: DriverState, rounds: seq<(int, Reply)>, i: nat)
    requires i < |rounds|
    ensures PingRounds(s, rounds[i..]) == PingRounds(Ping(s, rounds[i].0, rounds[i].1).state, rounds[i + 1..])
  {
    assert rounds[i..][0] == rounds[i] && rounds[i..][1..] == rounds[i + 1..];
  }

  /** After at least one round, `Available` reflects the last round alone. */
  lemma {:induction false} PingRoundsLast(s: DriverState, rounds: seq<(int, Reply)>)
    requires rounds != []
    ensures var last := rounds[|rounds| - 1];
            PingRounds(s, rounds).available == Ping(s, last.0, last.1).state.available
    ensures PingRounds(s, rounds).(available := s.available, sent := s.sent) == s
    decreases |rounds|
  {
    if |rounds| > 1 {
      var t := Ping(s, rounds[0].0, rounds[0].1).state;
      PingRoundsLast(t, rounds[1..]);
      assert rounds[1..][|rounds[1..]| - 1] == rounds[|rounds| - 1];
    }
  }
}
