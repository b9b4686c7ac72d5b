/**
  * The driver object (`DiaVendotek`) and the code that updates it in place: the
  * guarded stage bodies, `do_payment`, the two payment threads and the ping thread.
  * Each thread body runs here without interruption; `ExecuteProgramThread` is also
  * available in its pieces so that a caller can interleave an abort between them.
  */
module Vendotek {
  import opened Wrappers
  import opened CInt
  import opened Stage
  import opened Tables
  import opened Machine

  /** `do_ping` (lines 358-383): one "IDL" exchange that must be answered with "IDL". */
  method DoPing(st: StageOpts, r: Reply) returns (rc: int, sent: Exchange)
    ensures sent == IdleX(st)
    ensures rc == 0 || rc == -1
    ensures rc == 0 <==> IdleOk(st, r)
  {
    var code, x, _, _ := DoStage(st, IdleRequest(), Some(IdleResponse()), r, NoPayment);
    sent := x;
    if code < 0 {
      return -1, sent;
    }
    rc := 0;
  }

  /** `do_abort` (lines 385-405): "ABR" with a one-second timeout and no answer awaited. */
  method DoAbort(r: Reply) returns (rc: int, sent: Exchange)
    ensures sent == AbortX
    ensures rc == (if r.sendOk then 0 else -1)
  {
    var code, x, _, _ := DoStage(AbortOpts, AbortRequest(), None, r, NoPayment);
    sent := x;
    if code < 0 {
      return -1, sent;
    }
    rc := 0;
  }

  class Driver {
    var paymentStage: int
    var requestedMoney: Int32
    var available: int
    /** Whether `_PaymentOpts` points at a live session. */
    var published: bool
    var isTransactionSeparated: bool
    /** Whether `IncomingMoneyHandler` is set. */
    var hasHandler: bool
    /** The amounts passed to the money handler, in order. */
    var reported: seq<int>
    /** Every request handed to the link, in order. */
    var sent: seq<Exchange>

    function State(): DriverState
      reads this
    {
      DriverState(paymentStage, requestedMoney, available, published,
                  isTransactionSeparated, hasHandler, reported, sent)
    }

    predicate Valid()
      reads this
    {
      InRange(State())
    }

    constructor(separated: bool, handler: bool)
      ensures State() == Initial(separated, handler)
      ensures Valid()
    {
      paymentStage, requestedMoney, available, published := 0, 0, 0, false;
      isTransactionSeparated, hasHandler := separated, handler;
      reported, sent := [], [];
    }

    // ---- stage bodies ----

    /** `exec_idl_stage` (lines 214-256). */
    method ExecIdl(p: Payment, st: StageOpts, r: Reply) returns (rc: int)
      modifies this`paymentStage, this`sent
      ensures var x := IdlRun(p, st, old(paymentStage), r);
              rc == x.rc && paymentStage == x.stage && sent == old(sent) + x.sent
    {
      var state := paymentStage;
      if state > 0 {
        paymentStage := 2;
      }
      var passed := false;
      if state > 0 {
        var code, x, _, _ := DoStage(st, IdlRequest(p), Some(IdlResponse()), r, p);
        sent := sent + [x];
        passed := code >= 0;
      }
      rc := if passed then 0 else -1;
    }

    /** `exec_vrp_stage` (lines 258-298): its own timeout and operation number, on its copy of the payment. */
    method ExecVrp(p: Payment, st: StageOpts, r: Reply) returns (rc: int)
      modifies this`paymentStage, this`sent
      ensures var x := VrpRun(p, st, old(paymentStage), r);
              rc == x.rc && paymentStage == x.stage && sent == old(sent) + x.sent
    {
      var state := paymentStage;
      if state > 0 {
        paymentStage := 3;
      }
      var passed := false;
      if state > 0 {
        var stopts := st.(timeout := p.timeout * 1000);
        var payment := p.(opnum := p.opnum + 1);
        var code, x, _, _ := DoStage(stopts, VrpRequest(payment), Some(VrpResponse()), r, payment);
        sent := sent + [x];
        passed := code >= 0;
      }
      rc := if passed then 0 else -1;
    }

    /** `exec_fin_stage` (lines 300-336): end-of-stream allowed. */
    method ExecFin(p: Payment, st: StageOpts, r: Reply) returns (rc: int)
      modifies this`paymentStage, this`sent
      ensures var x := FinRun(p, st, old(paymentStage), r);
              rc == x.rc && paymentStage == x.stage && sent == old(sent) + x.sent
    {
      var state := paymentStage;
      if state > 0 {
        paymentStage := 4;
      }
      var passed := false;
      if state > 0 {
        var stopts := st.(allowEof := true);
        var code, x, _, _ := DoStage(stopts, FinRequest(p), Some(FinResponse()), r, p);
        sent := sent + [x];
        passed := code >= 0;
      }
      rc := if passed then 0 else -1;
    }

    /** `exec_idl_final_stage` (lines 338-356). */
    method ExecIdlFinal(st: StageOpts, r: Reply) returns (rc: int)
      modifies this`paymentStage, this`sent
      ensures var x := IdlFinalRun(st);
              rc == x.rc && paymentStage == x.stage && sent == old(sent) + x.sent
    {
      var _, x, _, _ := DoStage(st, IdleRequest(), Some(IdleResponse()), r, NoPayment);
      sent := sent + [x];
      paymentStage := 0;
      rc := 0;
    }

    /** The `ALL` path of `do_payment` (lines 190-208): IDL, VRP, FIN, stopping at the first -1, then the teardown. */
    method RunAll(p: Payment, st: StageOpts, rs: seq<Reply>) returns (rc: int)
      modifies this`paymentStage, this`sent
      ensures var x := AllRun(p, st, old(paymentStage), rs);
              rc == x.rc && paymentStage == x.stage && sent == old(sent) + x.sent
    {
      ghost var stage0, sent0 := paymentStage, sent;
      ghost var x1, x2, x3, x4 := IdlX(p, st), VrpX(p, st), FinX(p, st), IdleX(st);
      ChainCases(stage0, IdlOk(p, st, At(rs, 0)), VrpOk(p, st, At(rs, 1)), FinOk(p, st, At(rs, 2)), x1, x2, x3, st);
      rc := ExecIdl(p, st, At(rs, 0));
      if rc == -1 {
        return;
      }
      assert sent == sent0 + [x1];
      rc := ExecVrp(p, st, At(rs, 1));
      assert sent == sent0 + [x1] + [x2] == sent0 + [x1, x2];
      if rc == -1 {
        return;
      }
      rc := ExecFin(p, st, At(rs, 2));
      assert sent == sent0 + [x1, x2] + [x3] == sent0 + [x1, x2, x3];
      if rc == -1 {
        return;
      }
      rc := ExecIdlFinal(st, At(rs, 3));
      assert sent == sent0 + [x1, x2, x3] + [x4] == sent0 + [x1, x2, x3, x4];
      rc := 0;
    }

    /** `do_payment` (lines 148-212); the `k`-th exchange of the run gets reply `At(rs, k)`. */
    method DoPayment(o: PaymentOpts, key: Key, opnum: int, rs: seq<Reply>) returns (rc: int)
      modifies this`paymentStage, this`sent
      ensures var x := PaymentRun(o, key, opnum, old(paymentStage), rs);
              rc == x.rc && paymentStage == x.stage && sent == old(sent) + x.sent
    {
      var p := PaymentOf(o, opnum);
      var st := StageOptsOf(o);
      match key
      case RcIdl =>
        rc := ExecIdl(p, st, At(rs, 0));
      case RcVrp =>
        rc := ExecVrp(p, st, At(rs, 0));
      case RcFin =>
        rc := ExecFin(p, st, At(rs, 0));
      case RcIdlEnd =>
        rc := ExecIdlFinal(st, At(rs, 0));
      case All =>
        rc := RunAll(p, st, rs);
      case Unknown =>
        rc := -1;
    }

    // ---- the payment threads ----

    /** The thread publishes `_PaymentOpts` once the connection attempt has been made (line 439). */
    method PublishSession()
      modifies this
      ensures State() == Publish(old(State()))
    {
      published := true;
    }

    /** The thread withdraws `_PaymentOpts` before it reports (lines 456, 463). */
    method WithdrawSession()
      modifies this
      ensures State() == Unpublish(old(State()))
    {
      published := false;
    }

    /** The program thread's payment: `ALL`, or IDL and then VRP when the transaction is split (lines 442-454). */
    method PayProgram(sum: Int32, connectRc: int, opnum1: int, opnum2: int, rs: seq<Reply>) returns (rcode: int)
      modifies this
      ensures var a := ProgramPart(old(State()), sum, connectRc, opnum1, opnum2, rs);
              rcode == a.rc && State() == a.state
    {
      rcode := connectRc;
      if rcode >= 0 {
        var o := ProgramOpts(sum);
        if !isTransactionSeparated {
          rcode := DoPayment(o, All, opnum1, rs);
        } else {
          ghost var s0 := State();
          rcode := DoPayment(o, RcIdl, opnum1, rs);
          if rcode >= 0 {
            ghost var s1 := State();
            rcode := DoPayment(o, RcVrp, opnum2, Drop(rs, 1));
            assert sent == s0.sent + (s1.sent[|s0.sent|..] + sent[|s1.sent|..]);
          }
        }
      }
    }

    /** The confirmation thread's payment: FIN, then the teardown if FIN passed (lines 525-538). */
    method PayConfirmation(sum: Int32, connectRc: int, opnum1: int, opnum2: int, rs: seq<Reply>) returns (rcode: int)
      modifies this
      ensures var a := ConfirmationPart(old(State()), sum, connectRc, opnum1, opnum2, rs);
              rcode == a.rc && State() == a.state
    {
      rcode := connectRc;
      if rcode >= 0 {
        var o := ProgramOpts(sum);
        ghost var s0 := State();
        rcode := DoPayment(o, RcFin, opnum1, rs);
        if rcode >= 0 {
          ghost var s1 := State();
          rcode := DoPayment(o, RcIdlEnd, opnum2, Drop(rs, 1));
          assert sent == s0.sent + (s1.sent[|s0.sent|..] + sent[|s1.sent|..]);
        }
      }
    }

    /** Reporting or zeroing the requested amount (lines 469-484). */
    method ReportResult(rcode: int)
      modifies this
      ensures State() == Settle(old(State()), rcode)
    {
      if rcode == 0 {
        if hasHandler {
          var sum := requestedMoney;
          reported := reported + [sum];
          requestedMoney := 0;
        }
      } else {
        requestedMoney := 0;
      }
    }

    /**
      * `DiaVendotek_ExecuteDriverProgramThread` (lines 412-488): read the amount,
      * connect (`connectRc`), publish the session, pay, withdraw it, report.
      */
    method ExecuteProgramThread(connectRc: int, opnum1: int, opnum2: int, rs: seq<Reply>)
      requires Valid()
      modifies this
      ensures State() == ProgramThreadRun(old(State()), connectRc, opnum1, opnum2, rs)
      ensures Valid()
    {
      ThreadsStayInRange(State(), connectRc, opnum1, opnum2, rs);
      var sum := requestedMoney;
      PublishSession();
      var rcode := PayProgram(sum, connectRc, opnum1, opnum2, rs);
      WithdrawSession();
      ReportResult(rcode);
    }

    /** `DiaVendotek_ExecutePaymentConfirmationDriverProgramThread` (lines 491-566). */
    method ExecuteConfirmationThread(connectRc: int, opnum1: int, opnum2: int, rs: seq<Reply>)
      requires Valid()
      modifies this
      ensures State() == ConfirmationThreadRun(old(State()), connectRc, opnum1, opnum2, rs)
      ensures Valid()
    {
      ThreadsStayInRange(State(), connectRc, opnum1, opnum2, rs);
      if !isTransactionSeparated {
        return;
      }
      var sum := requestedMoney;
      PublishSession();
      var rcode := PayConfirmation(sum, connectRc, opnum1, opnum2, rs);
      WithdrawSession();
      ReportResult(rcode);
    }

    // ---- availability ----

    /** `DiaVendotek_Ping` (lines 568-611). */
    method Ping(connectRc: int, r: Reply) returns (rcode: int)
      requires Valid()
      modifies this
      ensures rcode == PingRc(connectRc, r)
      ensures State() == Machine.Ping(old(State()), connectRc, r).state
      ensures Valid()
    {
      rcode := connectRc;
      if rcode >= 0 {
        var x;
        rcode, x := DoPing(PingOpts, r);
        sent := sent + [x];
      }
      if rcode == 0 {
        available := 1;
      } else {
        available := 0;
      }
    }

    /**
      * `DiaVendotek_ExecutePingThread` (lines 614-628) for as many rounds as run before
      * `ToBeDeleted` is set; each round has its connection result and reply, and the
      * delays chosen after the rounds are returned.
      */
    method RunPingThread(rounds: seq<(int, Reply)>) returns (delays: seq<int>)
      requires Valid()
      modifies this
      ensures State() == PingRounds(old(State()), rounds)
      ensures delays == PingDelays(rounds)
      ensures Valid()
    {
      delays := [];
      var i := 0;
      while i < |rounds|
        invariant 0 <= i <= |rounds|
        invariant PingRounds(old(State()), rounds) == PingRounds(State(), rounds[i..])
        invariant delays == PingDelays(rounds[..i])
        invariant Valid()
      {
        PingRoundsAt(State(), rounds, i);
        PingDelaysStep(rounds, i);
        var res := Ping(rounds[i].0, rounds[i].1);
        if res == 0 {
          delays := delays + [120000];
        } else {
          delays := delays + [1000];
        }
        i := i + 1;
      }
      assert rounds[..i] == rounds;
    }
  }
}
