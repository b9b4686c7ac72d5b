/**
  * Whole-driver scenarios: a terminal that goes along with a payment, one that
  * disagrees on the price, one that never answers, an abort while the payment is
  * under way, and a terminal that echoes VRP's operation number in FIN. The
  * operation number `do_payment` leaves unset is a parameter throughout.
  */
module Scenarios {
  import opened Wrappers
  import opened CInt
  import opened Messages
  import opened Stage
  import opened Tables
  import opened Machine
  import Vendotek
  import Api

  /** An IDL answer with operation number 1, a 2-second timeout and event number 0. */
  const IdlAnswer: Reply := Reply(true, 1, true, [(IdName, "IDL"), (IdOpNum, "1"), (IdTimeout, "2"), (IdEvNum, "0")], false)

  /** A VRP answer echoing operation number `n` and amount `price`. */
  function VrpAnswer(n: int, price: int): Reply {
    Reply(true, 1, true, [(IdName, "VRP"), (IdOpNum, FormatDec(n)), (IdAmount, FormatDec(price))], false)
  }

  /** A FIN answer echoing `n` and `price`, after which the terminal closes the link. */
  function FinAnswer(n: int, price: int): Reply {
    Reply(true, 1, true, [(IdName, "FIN"), (IdOpNum, FormatDec(n)), (IdAmount, FormatDec(price))], true)
  }

  const IdleAnswer: Reply := Reply(true, 1, true, [(IdName, "IDL")], false)

  /** A link on which the IDL answer never arrives: `poll` times out. */
  const Silent: Reply := Reply(true, 0, false, [], false)

  /** The options of a thread body for 500 roubles: 50000 kopecks. */
  lemma Price500()
    ensures ProgramOpts(500).price == 50000
  {
  }

  /** The fields of an IDL answer, found by id. */
  lemma IdlFields(name: string, opnum: string, timeout: string, evnum: string)
    ensures var m := [(IdName, name), (IdOpNum, opnum), (IdTimeout, timeout), (IdEvNum, evnum)];
            Find(m, IdName) == Some(name) && Find(m, IdOpNum) == Some(opnum) &&
            Find(m, IdTimeout) == Some(timeout) && Find(m, IdEvNum) == Some(evnum)
  {
    var m := [(IdName, name), (IdOpNum, opnum), (IdTimeout, timeout), (IdEvNum, evnum)];
    FindFirst(m, 0);
    FindFirst(m, 1);
    FindFirst(m, 2);
    FindFirst(m, 3);
  }

  lemma IdlAnswerPasses(p: Payment, st: StageOpts)
    requires !st.allowEof
    ensures IdlOk(p, st, IdlAnswer)
  {
    IdlFields("IDL", "1", "2", "0");
    EqualsIgnoreCaseReflexive("IDL");
    assert TextIs(IdlAnswer.msg, IdName, "IDL");
    IdlAccepts(p, st, IdlAnswer);
  }

  /** The fields of an answer echoing `n` and `price`, found by id. */
  lemma EchoFields(name: string, n: int, price: int)
    ensures var m := [(IdName, name), (IdOpNum, FormatDec(n)), (IdAmount, FormatDec(price))];
            Find(m, IdName) == Some(name) && Find(m, IdOpNum) == Some(FormatDec(n)) &&
            Find(m, IdAmount) == Some(FormatDec(price))
  {
    var m := [(IdName, name), (IdOpNum, FormatDec(n)), (IdAmount, FormatDec(price))];
    FindFirst(m, 0);
    FindFirst(m, 1);
    FindFirst(m, 2);
  }

  /** The VRP and FIN answers pass exactly when they echo what was sent. */
  lemma EchoesPass(o: PaymentOpts, opnum: int, n: int, price: int)
    ensures VrpOk(PaymentOf(o, opnum), StageOptsOf(o), VrpAnswer(n, price)) <==> n == opnum + 1 && price == o.price
    ensures FinOk(PaymentOf(o, opnum), StageOptsOf(o), FinAnswer(n, price)) <==> n == opnum && price == o.price
  {
    var p := PaymentOf(o, opnum);
    EchoFields("VRP", n, price);
    EchoFields("FIN", n, price);
    EqualsIgnoreCaseReflexive("VRP");
    EqualsIgnoreCaseReflexive("FIN");
    ParseFormat(n);
    ParseFormat(price);
    assert NumberIs(VrpAnswer(n, price).msg, IdOpNum, p.opnum + 1) <==> n == opnum + 1;
    assert NumberIs(FinAnswer(n, price).msg, IdOpNum, p.opnum) <==> n == opnum;
    VrpAccepts(p, StageOptsOf(o), VrpAnswer(n, price));
    FinAccepts(p, StageOptsOf(o), FinAnswer(n, price));
  }

  /**
    * `PerformTransaction(500)` against a terminal that echoes the operation numbers
    * the driver sends: the handler receives 500, nothing stays requested, the stage
    * is idle, and the four exchanges went out.
    */
  lemma FullPayment(opnum: int)
    ensures var c := PerformTransaction(Initial(false, true), 500, true);
            var t := ProgramThreadRun(c.state, 0, opnum, opnum,
                                      [IdlAnswer, VrpAnswer(opnum + 1, 50000), FinAnswer(opnum, 50000), IdleAnswer]);
            c.status == NoError && c.spawned == Some(ProgramWorker) &&
            t.reported == [500] && t.money == 0 && t.stage == 0 && |t.sent| == 4
  {
    var rs := [IdlAnswer, VrpAnswer(opnum + 1, 50000), FinAnswer(opnum, 50000), IdleAnswer];
    var o := ProgramOpts(500);
    var p, st := PaymentOf(o, opnum), StageOptsOf(o);
    assert AllRun(p, st, 1, rs) == Run(0, 0, [IdlX(p, st), VrpX(p, st), FinX(p, st), IdleX(st)]) by {
      IdlAnswerPasses(p, st);
      EchoesPass(o, opnum, opnum + 1, 50000);
      EchoesPass(o, opnum, opnum, 50000);
      ChainCases(1, IdlOk(p, st, At(rs, 0)), VrpOk(p, st, At(rs, 1)), FinOk(p, st, At(rs, 2)),
                 IdlX(p, st), VrpX(p, st), FinX(p, st), st);
    }
    var c := PerformTransaction(Initial(false, true), 500, true);
    ProgramThreadAll(c.state, 0, opnum, opnum, rs);
  }

  /** The teardown's answer does not matter: with the link down for it the payment is reported all the same. */
  lemma FullPaymentWithoutTeardownAnswer(opnum: int)
    ensures var c := PerformTransaction(Initial(false, true), 500, true);
            var t := ProgramThreadRun(c.state, 0, opnum, opnum,
                                      [IdlAnswer, VrpAnswer(opnum + 1, 50000), FinAnswer(opnum, 50000)]);
            t.reported == [500] && t.money == 0 && t.stage == 0
  {
    var rs := [IdlAnswer, VrpAnswer(opnum + 1, 50000), FinAnswer(opnum, 50000)];
    var o := ProgramOpts(500);
    var p, st := PaymentOf(o, opnum), StageOptsOf(o);
    assert AllRun(p, st, 1, rs) == Run(0, 0, [IdlX(p, st), VrpX(p, st), FinX(p, st), IdleX(st)]) by {
      IdlAnswerPasses(p, st);
      EchoesPass(o, opnum, opnum + 1, 50000);
      EchoesPass(o, opnum, opnum, 50000);
      ChainCases(1, IdlOk(p, st, At(rs, 0)), VrpOk(p, st, At(rs, 1)), FinOk(p, st, At(rs, 2)),
                 IdlX(p, st), VrpX(p, st), FinX(p, st), st);
    }
    var c := PerformTransaction(Initial(false, true), 500, true);
    ProgramThreadAll(c.state, 0, opnum, opnum, rs);
  }

  /** VRP answered with 40000 for 50000: nothing is reported, the amount is zeroed, FIN is never sent. */
  lemma PriceMismatch(opnum: int)
    ensures var c := PerformTransaction(Initial(false, true), 500, true);
            var t := ProgramThreadRun(c.state, 0, opnum, opnum,
                                      [IdlAnswer, VrpAnswer(opnum + 1, 40000), FinAnswer(opnum, 50000), IdleAnswer]);
            var o := ProgramOpts(500);
            t.reported == [] && t.money == 0 && t.stage == 3 &&
            t.sent == [IdlX(PaymentOf(o, opnum), StageOptsOf(o)), VrpX(PaymentOf(o, opnum), StageOptsOf(o))]
  {
    var rs := [IdlAnswer, VrpAnswer(opnum + 1, 40000), FinAnswer(opnum, 50000), IdleAnswer];
    var o := ProgramOpts(500);
    var p, st := PaymentOf(o, opnum), StageOptsOf(o);
    assert AllRun(p, st, 1, rs) == Run(-1, 3, [IdlX(p, st), VrpX(p, st)]) by {
      IdlAnswerPasses(p, st);
      EchoesPass(o, opnum, opnum + 1, 40000);
      ChainCases(1, IdlOk(p, st, At(rs, 0)), VrpOk(p, st, At(rs, 1)), FinOk(p, st, At(rs, 2)),
                 IdlX(p, st), VrpX(p, st), FinX(p, st), st);
    }
    var c := PerformTransaction(Initial(false, true), 500, true);
    ProgramThreadAll(c.state, 0, opnum, opnum, rs);
  }

  /**
    * IDL's answer never arrives: nothing is reported and the amount is zeroed, but
    * the stage stays at 2, since the failure path does not reset it.
    */
  lemma IdlTimeout(opnum: int)
    ensures var c := PerformTransaction(Initial(false, true), 500, true);
            var t := ProgramThreadRun(c.state, 0, opnum, opnum, [Silent]);
            t.reported == [] && t.money == 0 && t.stage == 2 && |t.sent| == 1
  {
    var c := PerformTransaction(Initial(false, true), 500, true);
    var o := ProgramOpts(500);
    FullTransactionReports(c.state, 0, opnum, opnum, [Silent]);
    AllRunResult(PaymentOf(o, opnum), StageOptsOf(o), 1, [Silent]);
  }

  /**
    * A split transaction is stopped after IDL, while its session is published: ABR
    * goes out, the stage is idle and the amount zeroed; VRP's guard then fails, so
    * the thread sends nothing more and reports nothing.
    */
  lemma AbortWhileReserving(opnum1: int, opnum2: int, rs: seq<Reply>)
    ensures var c := PerformTransaction(Initial(true, true), 500, true);
            var o := ProgramOpts(c.state.money);
            var s1 := Publish(c.state);
            var idl := PaymentRun(o, RcIdl, opnum1, s1.stage, [IdlAnswer]);
            var s2 := Apply(s1, idl);
            var stop := StopDriver(s2);
            var vrp := PaymentRun(o, RcVrp, opnum2, stop.state.stage, rs);
            var t := Settle(Unpublish(Apply(stop.state, vrp)), vrp.rc);
            idl.rc == 0 && s2.stage == 2 &&
            stop.status == NoError && stop.state.stage == 0 && stop.state.money == 0 &&
            stop.state.sent == [IdlX(PaymentOf(o, opnum1), StageOptsOf(o)), AbortX] &&
            vrp == Run(-1, 0, []) &&
            t.reported == [] && t.money == 0 && t.stage == 0 && !t.published && t.sent == stop.state.sent
  {
    var c := PerformTransaction(Initial(true, true), 500, true);
    var o := ProgramOpts(c.state.money);
    IdlAnswerPasses(PaymentOf(o, opnum1), StageOptsOf(o));
  }

  /** Stopping an idle driver fails and sends nothing. */
  lemma StopWhenIdle(separated: bool, handler: bool)
    ensures StopDriver(Initial(separated, handler)) == Call(Code(-1), Initial(separated, handler), None)
  {
  }

  /**
    * A terminal that echoes in FIN the operation number it received in VRP (here,
    * with the unset number 0, the number 1 throughout) fails FIN: the payment is not
    * reported and the stage is left at 4.
    */
  lemma FinEchoOfVrpNumber()
    ensures var c := PerformTransaction(Initial(false, true), 500, true);
            var t := ProgramThreadRun(c.state, 0, 0, 0,
                                      [IdlAnswer, VrpAnswer(1, 50000), FinAnswer(1, 50000), IdleAnswer]);
            t.reported == [] && t.money == 0 && t.stage == 4
  {
    var rs := [IdlAnswer, VrpAnswer(1, 50000), FinAnswer(1, 50000), IdleAnswer];
    var o := ProgramOpts(500);
    var p, st := PaymentOf(o, 0), StageOptsOf(o);
    assert AllRun(p, st, 1, rs) == Run(-1, 4, [IdlX(p, st), VrpX(p, st), FinX(p, st)]) by {
      IdlAnswerPasses(p, st);
      EchoesPass(o, 0, 1, 50000);
      ChainCases(1, IdlOk(p, st, At(rs, 0)), VrpOk(p, st, At(rs, 1)), FinOk(p, st, At(rs, 2)),
                 IdlX(p, st), VrpX(p, st), FinX(p, st), st);
    }
    var c := PerformTransaction(Initial(false, true), 500, true);
    ProgramThreadAll(c.state, 0, 0, 0, rs);
  }

  /** The full payment on a driver object, through the entry point and the thread body. */
  method FullPaymentOnDriver(opnum: int) returns (reported: seq<int>, requested: int, stage: int)
    ensures reported == [500] && requested == 0 && stage == 0
  {
    var d := new Vendotek.Driver(false, true);
    var status, spawned := Api.PerformTransaction(d, 500, true);
    d.ExecuteProgramThread(0, opnum, opnum, [IdlAnswer, VrpAnswer(opnum + 1, 50000), FinAnswer(opnum, 50000), IdleAnswer]);
    FullPayment(opnum);
    reported := d.reported;
    requested := Api.GetTransactionStatus(d);
    stage := d.paymentStage;
  }
}
