/**
  * The fixed descriptor tables of the stages (IDL init, VRP, FIN, IDL teardown,
  * ping and abort), the stage options each one runs with, and what each table makes
  * the terminal send and accept.
  */
module Tables {
  import opened Wrappers
  import opened Messages
  import opened Stage

  // Protocol field ids used by the tables.
  const IdName: int := 0x1      // message name ("IDL", "VRP", "FIN", "ABR")
  const IdOpNum: int := 0x3     // operation number
  const IdAmount: int := 0x4    // amount (price)
  const IdTimeout: int := 0x6   // stage timeout advertised by the terminal
  const IdEvName: int := 0x7    // event name
  const IdEvNum: int := 0x8     // event number
  const IdProdId: int := 0x9    // product id
  const IdProdName: int := 0xf  // product name

  const ReqEnd: ReqField := ReqField(0, None, None)
  const RespEnd: RespField := RespField(0, None, None, None, None, false)

  /** The tables of the teardown, ping and abort stages point at no payment member. */
  const NoPayment: Payment := Payment(0, 0, None, 0, None, 0, 0)

  function Text(id: int, s: string): ReqField { ReqField(id, Some(s), None) }
  function Number(id: int, v: int): ReqField { ReqField(id, None, Some(v)) }

  /** A required field whose text must equal `s` ignoring case. */
  function Expect(id: int, s: string): RespField { RespField(id, None, None, Some(s), None, false) }
  /** A required field whose integer, when it parses, is stored into `slot`. */
  function Capture(id: int, slot: Slot): RespField { RespField(id, None, Some(slot), None, None, false) }
  /** A required field that must parse to the integer held in `slot`. */
  function Match(id: int, slot: Slot): RespField { RespField(id, None, None, None, Some(slot), false) }

  // ---- IDL init (lines 227-251) ----

  function IdlRequest(p: Payment): seq<ReqField> {
    [ Text(IdName, "IDL"),
      ReqField(IdEvNum, None, if p.evname.Some? then Some(p.evnum) else None),
      ReqField(IdEvName, p.evname, None),
      ReqField(IdProdId, None, if p.prodname.Some? then Some(p.prodid) else None),
      ReqField(IdProdName, p.prodname, None),
      Number(IdAmount, p.price),
      ReqEnd ]
  }

  function IdlResponse(): seq<RespField> {
    [ Expect(IdName, "IDL"), Capture(IdOpNum, OpNum), Capture(IdTimeout, Timeout), Capture(IdEvNum, EvNum), RespEnd ]
  }

  // ---- VRP (lines 271-293) ----

  /** VRP polls with the payment's own timeout, in milliseconds. */
  function VrpOpts(p: Payment, st: StageOpts): StageOpts { st.(timeout := p.timeout * 1000) }

  /** VRP works on its copy of the payment with the operation number incremented. */
  function VrpPayment(p: Payment): Payment { p.(opnum := p.opnum + 1) }

  function VrpRequest(q: Payment): seq<ReqField> {
    [ Text(IdName, "VRP"),
      Number(IdOpNum, q.opnum),
      ReqField(IdProdId, None, if q.prodname.Some? then Some(q.prodid) else None),
      ReqField(IdProdName, q.prodname, None),
      Number(IdAmount, q.price),
      ReqEnd ]
  }

  function VrpResponse(): seq<RespField> {
    [ Expect(IdName, "VRP"), Match(IdOpNum, OpNum), Match(IdAmount, Price), RespEnd ]
  }

  // ---- FIN (lines 313-332) ----

  /** FIN is the one stage that tolerates end-of-stream. */
  function FinOpts(st: StageOpts): StageOpts { st.(allowEof := true) }

  function FinRequest(p: Payment): seq<ReqField> {
    [ Text(IdName, "FIN"),
      Number(IdOpNum, p.opnum),
      ReqField(IdProdId, None, if p.prodname.Some? then Some(p.prodid) else None),
      Number(IdAmount, p.price),
      ReqEnd ]
  }

  function FinResponse(): seq<RespField> {
    [ Expect(IdName, "FIN"), Match(IdOpNum, OpNum), Match(IdAmount, Price), RespEnd ]
  }

  // ---- IDL teardown and ping (lines 340-348, 369-377), abort (lines 388-399) ----

  function IdleRequest(): seq<ReqField> { [Text(IdName, "IDL"), ReqEnd] }
  function IdleResponse(): seq<RespField> { [Expect(IdName, "IDL"), RespEnd] }

  function AbortRequest(): seq<ReqField> { [Text(IdName, "ABR"), ReqEnd] }
  const AbortOpts: StageOpts := StageOpts(1000, false)

  // ---- each stage's verdict and what it sends ----

  predicate IdlOk(p: Payment, st: StageOpts, r: Reply) {
    StageResult(st, IdlRequest(p), Some(IdlResponse()), r, p).rc >= 0
  }

  predicate VrpOk(p: Payment, st: StageOpts, r: Reply) {
    var q := VrpPayment(p);
    StageResult(VrpOpts(p, st), VrpRequest(q), Some(VrpResponse()), r, q).rc >= 0
  }

  predicate FinOk(p: Payment, st: StageOpts, r: Reply) {
    StageResult(FinOpts(st), FinRequest(p), Some(FinResponse()), r, p).rc >= 0
  }

  predicate IdleOk(st: StageOpts, r: Reply) {
    StageResult(st, IdleRequest(), Some(IdleResponse()), r, NoPayment).rc >= 0
  }

  function IdlX(p: Payment, st: StageOpts): Exchange { Exchange(Request(IdlRequest(p)), st.timeout) }
  function VrpX(p: Payment, st: StageOpts): Exchange { Exchange(Request(VrpRequest(VrpPayment(p))), p.timeout * 1000) }
  function FinX(p: Payment, st: StageOpts): Exchange { Exchange(Request(FinRequest(p)), st.timeout) }
  function IdleX(st: StageOpts): Exchange { Exchange(Request(IdleRequest()), st.timeout) }
  const AbortX: Exchange := Exchange(Request(AbortRequest()), 1000)

  // ---- what the terminal must answer ----

  /** The field is present and its text equals `s` ignoring case. */
  predicate TextIs(m: Message, id: int, s: string) {
    Find(m, id).Some? && EqualsIgnoreCase(s, Find(m, id).value)
  }

  /** The field is present and reads as the integer `v`. */
  predicate NumberIs(m: Message, id: int, v: int) {
    Find(m, id).Some? && ParseDec(Find(m, id).value) == Some(v)
  }

  predicate Received(r: Reply) {
    r.sendOk && r.poll > 0 && r.recvOk
  }

  lemma ExpectPasses(id: int, s: string, m: Message, p: Payment)
    ensures CheckOne(Expect(id, s), m, p).ok <==> TextIs(m, id, s)
  {
  }

  lemma CapturePasses(id: int, slot: Slot, m: Message, p: Payment)
    ensures CheckOne(Capture(id, slot), m, p).ok <==> Find(m, id).Some?
  {
  }

  lemma MatchPasses(id: int, slot: Slot, m: Message, p: Payment)
    ensures CheckOne(Match(id, slot), m, p).ok <==> NumberIs(m, id, p.Get(slot))
  {
  }

  /** A received answer to a three-descriptor table that reads and writes no payment member. */
  lemma CheckThree(t: seq<RespField>, m: Message, p: Payment)
    requires |t| == 4 && t[0].id != 0 && t[1].id != 0 && t[2].id != 0 && t[3].id == 0
    requires Independent(t)
    ensures CheckFields(t, m, p).ok <==>
              CheckOne(t[0], m, p).ok && CheckOne(t[1], m, p).ok && CheckOne(t[2], m, p).ok
  {
    RespLiveAt(t, 0);
    RespLiveAt(t, 1);
    RespLiveAt(t, 2);
    RespLiveAt(t, 3);
    assert t[0..] == t;
    CheckIndependent(t, m, p);
  }

  /** The same for the four descriptors of the IDL init answer. */
  lemma CheckFour(t: seq<RespField>, m: Message, p: Payment)
    requires |t| == 5 && t[0].id != 0 && t[1].id != 0 && t[2].id != 0 && t[3].id != 0 && t[4].id == 0
    requires Independent(t)
    ensures CheckFields(t, m, p).ok <==>
              CheckOne(t[0], m, p).ok && CheckOne(t[1], m, p).ok && CheckOne(t[2], m, p).ok && CheckOne(t[3], m, p).ok
  {
    RespLiveAt(t, 0);
    RespLiveAt(t, 1);
    RespLiveAt(t, 2);
    RespLiveAt(t, 3);
    RespLiveAt(t, 4);
    assert t[0..] == t;
    CheckIndependent(t, m, p);
  }

  /**
    * IDL init passes exactly when the answer names "IDL", carries the operation
    * number, timeout and event number fields, and the link stayed open (unless the
    * stage options allow end-of-stream).
    */
  lemma IdlAccepts(p: Payment, st: StageOpts, r: Reply)
    ensures IdlOk(p, st, r) <==>
              Received(r) && (!r.eof || st.allowEof) && TextIs(r.msg, IdName, "IDL") &&
              Find(r.msg, IdOpNum).Some? && Find(r.msg, IdTimeout).Some? && Find(r.msg, IdEvNum).Some?
  {
    var t := IdlResponse();
    if Received(r) {
      ReceivedResponse(st, IdlRequest(p), t, r, p);
      CheckFour(t, r.msg, p);
      ExpectPasses(IdName, "IDL", r.msg, p);
      CapturePasses(IdOpNum, OpNum, r.msg, p);
      CapturePasses(IdTimeout, Timeout, r.msg, p);
      CapturePasses(IdEvNum, EvNum, r.msg, p);
    }
  }

  /**
    * VRP passes exactly when the answer names "VRP", echoes the operation number
    * the request carried (the caller's plus one) and the price, and the link stayed open (unless the
    * stage options allow end-of-stream).
    */
  lemma VrpAccepts(p: Payment, st: StageOpts, r: Reply)
    ensures VrpOk(p, st, r) <==>
              Received(r) && (!r.eof || st.allowEof) && TextIs(r.msg, IdName, "VRP") &&
              NumberIs(r.msg, IdOpNum, p.opnum + 1) && NumberIs(r.msg, IdAmount, p.price)
  {
    var t := VrpResponse();
    var q := VrpPayment(p);
    if Received(r) {
      ReceivedResponse(VrpOpts(p, st), VrpRequest(q), t, r, q);
      CheckThree(t, r.msg, q);
      ExpectPasses(IdName, "VRP", r.msg, q);
      MatchPasses(IdOpNum, OpNum, r.msg, q);
      MatchPasses(IdAmount, Price, r.msg, q);
    }
  }

  /**
    * FIN passes exactly when the answer names "FIN" and echoes the operation number
    * and price the request carried; the link may close with the answer.
    */
  lemma FinAccepts(p: Payment, st: StageOpts, r: Reply)
    ensures FinOk(p, st, r) <==>
              Received(r) && TextIs(r.msg, IdName, "FIN") &&
              NumberIs(r.msg, IdOpNum, p.opnum) && NumberIs(r.msg, IdAmount, p.price)
  {
    var t := FinResponse();
    if Received(r) {
      ReceivedResponse(FinOpts(st), FinRequest(p), t, r, p);
      CheckThree(t, r.msg, p);
      ExpectPasses(IdName, "FIN", r.msg, p);
      MatchPasses(IdOpNum, OpNum, r.msg, p);
      MatchPasses(IdAmount, Price, r.msg, p);
    }
  }

  /** The teardown and ping exchange passes exactly when the answer names "IDL" and the link stayed open (unless allowed otherwise). */
  lemma IdleAccepts(st: StageOpts, r: Reply)
    ensures IdleOk(st, r) <==> Received(r) && (!r.eof || st.allowEof) && TextIs(r.msg, IdName, "IDL")
  {
    var t := IdleResponse();
    if Received(r) {
      ReceivedResponse(st, IdleRequest(), t, r, NoPayment);
      RespLiveAt(t, 0);
      RespLiveAt(t, 1);
      assert t[0..] == t;
      assert Independent(t);
      CheckIndependent(t, r.msg, NoPayment);
      ExpectPasses(IdName, "IDL", r.msg, NoPayment);
    }
  }

  // ---- what the stages send ----

  /** The event number and name, sent only when an event name is set. */
  function EventText(p: Payment): Message {
    if p.evname.Some? then [(IdEvNum, FormatDec(p.evnum)), (IdEvName, p.evname.value)] else []
  }

  /** The product id and name, sent only when a product name is set. */
  function ProductText(p: Payment): Message {
    if p.prodname.Some? then [(IdProdId, FormatDec(p.prodid)), (IdProdName, p.prodname.value)] else []
  }

  function AmountText(p: Payment): Message {
    [(IdAmount, FormatDec(p.price))]
  }

  lemma IdlRequestTail(p: Payment)
    ensures Request(IdlRequest(p)[3..]) == ProductText(p) + AmountText(p)
  {
    var t := IdlRequest(p);
    RequestAt(t, 6);
    RequestAt(t, 5);
    RequestAt(t, 4);
    RequestAt(t, 3);
  }

  lemma IdlRequestEvent(p: Payment)
    ensures Request(IdlRequest(p)[1..]) == EventText(p) + ProductText(p) + AmountText(p)
  {
    var t := IdlRequest(p);
    IdlRequestTail(p);
    RequestAt(t, 2);
    RequestAt(t, 1);
    assert Contribution(t[1]) + Contribution(t[2]) == EventText(p);
  }

  /** IDL init sends its name, the event number and name and the product id and name when those are set, and the price. */
  lemma IdlRequestText(p: Payment)
    ensures Request(IdlRequest(p)) == [(IdName, "IDL")] + EventText(p) + ProductText(p) + AmountText(p)
  {
    var t := IdlRequest(p);
    IdlRequestEvent(p);
    RequestAt(t, 0);
    assert t[0..] == t;
  }

  lemma VrpRequestTail(q: Payment)
    ensures Request(VrpRequest(q)[2..]) == ProductText(q) + AmountText(q)
  {
    var t := VrpRequest(q);
    RequestAt(t, 5);
    RequestAt(t, 4);
    RequestAt(t, 3);
    RequestAt(t, 2);
  }

  /** VRP sends its name, the caller's operation number plus one, the product when set, and the price. */
  lemma VrpRequestText(p: Payment)
    ensures Request(VrpRequest(VrpPayment(p))) ==
              [(IdName, "VRP"), (IdOpNum, FormatDec(p.opnum + 1))] + ProductText(p) + AmountText(p)
  {
    var q := VrpPayment(p);
    var t := VrpRequest(q);
    VrpRequestTail(q);
    assert ProductText(q) == ProductText(p) && AmountText(q) == AmountText(p);
    RequestAt(t, 1);
    RequestAt(t, 0);
    assert t[0..] == t;
  }

  lemma FinRequestTail(p: Payment)
    ensures Request(FinRequest(p)[2..]) ==
              (if p.prodname.Some? then [(IdProdId, FormatDec(p.prodid))] else []) + AmountText(p)
  {
    var t := FinRequest(p);
    RequestAt(t, 4);
    RequestAt(t, 3);
    RequestAt(t, 2);
  }

  /** FIN sends its name, the caller's operation number (not VRP's), the product id when a name is set, and the price. */
  lemma FinRequestText(p: Payment)
    ensures Request(FinRequest(p)) ==
              [(IdName, "FIN"), (IdOpNum, FormatDec(p.opnum))] +
              (if p.prodname.Some? then [(IdProdId, FormatDec(p.prodid))] else []) + AmountText(p)
  {
    var t := FinRequest(p);
    FinRequestTail(p);
    RequestAt(t, 1);
    RequestAt(t, 0);
    assert t[0..] == t;
  }

  /** FIN never carries the product name, whereas VRP does whenever one is set. */
  lemma FinOmitsProductName(p: Payment)
    ensures forall e :: e in Request(FinRequest(p)) ==> e.0 != IdProdName
    ensures p.prodname.Some? ==> (IdProdName, p.prodname.value) in Request(VrpRequest(VrpPayment(p)))
  {
    FinRequestText(p);
    VrpRequestText(p);
  }

  lemma IdleAndAbortText()
    ensures Request(IdleRequest()) == [(IdName, "IDL")]
    ensures Request(AbortRequest()) == [(IdName, "ABR")]
  {
    RequestAt(IdleRequest(), 0);
    RequestAt(IdleRequest(), 1);
    assert IdleRequest()[0..] == IdleRequest();
    RequestAt(AbortRequest(), 0);
    RequestAt(AbortRequest(), 1);
    assert AbortRequest()[0..] == AbortRequest();
  }
}
