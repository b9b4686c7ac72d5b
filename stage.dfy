/**
  * One request/response exchange with the payment terminal (`do_stage`).
  *
  * A stage is given a request table and, unless it is fire-and-forget, a response
  * table; both end at the first descriptor whose id is 0. The link's behaviour for
  * the exchange is an input (`Reply`): whether the send succeeded, what `poll`
  * returned, whether the receive succeeded, the decoded response and the
  * end-of-stream flag.
  */
module Stage {
  import opened Wrappers
  import opened Messages

  /** The integer members of `payment_t` that a response descriptor can point at. */
  datatype Slot = OpNum | EvNum | ProdId | Price | Timeout

  /** `payment_t`: the per-attempt values the descriptor tables read and write. */
  datatype Payment = Payment(opnum: int, evnum: int, evname: Option<string>, prodid: int,
                             prodname: Option<string>, price: int, timeout: int)
  {
    function Get(s: Slot): int {
      match s
      case OpNum => opnum
      case EvNum => evnum
      case ProdId => prodid
      case Price => price
      case Timeout => timeout
    }

    /** Writing through one slot changes that member and no other. */
    function Set(s: Slot, v: int): (q: Payment)
      ensures q.Get(s) == v
      ensures forall o :: o != s ==> q.Get(o) == Get(o)
      ensures q.evname == evname && q.prodname == prodname
    {
      match s
      case OpNum => this.(opnum := v)
      case EvNum => this.(evnum := v)
      case ProdId => this.(prodid := v)
      case Price => this.(price := v)
      case Timeout => this.(timeout := v)
    }
  }

  /** `stage_req_t`, with the values its `valstr` / `valint` pointers denote (None for NULL). */
  datatype ReqField = ReqField(id: int, valstr: Option<string>, valint: Option<int>)

  /**
    * `stage_resp_t`. `valstr` is the descriptor's own string pointer (None for NULL),
    * `valint` and `expint` name the payment member they point at, `expstr` is the
    * expected text.
    */
  datatype RespField = RespField(id: int, valstr: Option<string>, valint: Option<Slot>,
                                 expstr: Option<string>, expint: Option<Slot>, optional: bool)

  /** The part of `stage_opts_t` that the exchange depends on: poll timeout (ms) and `allow_eof`. */
  datatype StageOpts = StageOpts(timeout: int, allowEof: bool)

  /** What the link does during one exchange. */
  datatype Reply = Reply(sendOk: bool, poll: int, recvOk: bool, msg: Message, eof: bool)

  /** One request handed to the link, with the poll timeout of its stage. */
  datatype Exchange = Exchange(request: Message, timeout: int)

  /** The effect of checking one descriptor: pass or fail, the payment and the descriptor afterwards. */
  datatype FieldCheck = FieldCheck(ok: bool, pay: Payment, field: RespField)

  /** The effect of checking a response table. */
  datatype Checked = Checked(ok: bool, pay: Payment, table: seq<RespField>)

  /** The effect of a whole stage: `do_stage`'s return code, the payment and the response table afterwards. */
  datatype Outcome = Outcome(rc: int, pay: Payment, table: Option<seq<RespField>>)

  // ---- the request ----

  /** Number of request descriptors before the terminating id 0 (or the whole table). */
  function ReqLive(t: seq<ReqField>): (n: nat)
    ensures n <= |t|
    ensures forall k :: 0 <= k < n ==> t[k].id != 0
    ensures n < |t| ==> t[n].id == 0
  {
    if t == [] || t[0].id == 0 then 0 else 1 + ReqLive(t[1..])
  }

  /** The text a request descriptor contributes: its integer in decimal, else its string, else nothing. */
  function FieldText(f: ReqField): Option<string> {
    if f.valint.Some? then Some(FormatDec(f.valint.value)) else f.valstr
  }

  function Contribution(f: ReqField): Message {
    match FieldText(f)
    case Some(v) => [(f.id, v)]
    case None => []
  }

  /** The request message built from a descriptor table (lines 61-73). */
  function Request(t: seq<ReqField>): Message
    decreases |t|
  {
    if t == [] || t[0].id == 0 then [] else Contribution(t[0]) + Request(t[1..])
  }

  /** Unfolding `Request` at position `k` of a table. */
  lemma RequestAt(t: seq<ReqField>, k: nat)
    requires k < |t|
    ensures Request(t[k..]) == if t[k].id == 0 then [] else Contribution(t[k]) + Request(t[k + 1..])
  {
    assert t[k..][0] == t[k] && t[k..][1..] == t[k + 1..];
  }

  /** One step of the request-building loop, stated on the specification. */
  lemma RequestStep(t: seq<ReqField>, i: nat, m: Message)
    requires i < |t| && t[i].id != 0 && Request(t) == m + Request(t[i..])
    ensures Request(t) == (m + Contribution(t[i])) + Request(t[i + 1..])
  {
    RequestAt(t, i);
  }

  /** The request-building loop of `do_stage`. */
  method BuildRequest(t: seq<ReqField>) returns (m: Message)
    ensures m == Request(t)
  {
    m := [];
    var i := 0;
    while i < |t| && t[i].id != 0
      invariant 0 <= i <= |t|
      invariant Request(t) == m + Request(t[i..])
      decreases |t| - i
    {
      RequestStep(t, i, m);
      var f := t[i];
      if f.valint.Some? {
        m := m + [(f.id, FormatDec(f.valint.value))];
      } else if f.valstr.Some? {
        m := m + [(f.id, f.valstr.value)];
      }
      i := i + 1;
    }
  }

  lemma {:induction false} RequestHasField(t: seq<ReqField>, k: nat)
    requires k < ReqLive(t) && FieldText(t[k]).Some?
    ensures (t[k].id, FieldText(t[k]).value) in Request(t)
    decreases k
  {
    if k > 0 {
      assert t[1..][k - 1] == t[k];
      RequestHasField(t[1..], k - 1);
    }
  }

  lemma {:induction false} RequestOnlyFields(t: seq<ReqField>, e: (int, string))
    requires e in Request(t)
    ensures exists k :: 0 <= k < ReqLive(t) && t[k].id == e.0 && FieldText(t[k]) == Some(e.1)
    decreases |t|
  {
    if e !in Contribution(t[0]) {
      RequestOnlyFields(t[1..], e);
      var k :| 0 <= k < ReqLive(t[1..]) && t[1..][k].id == e.0 && FieldText(t[1..][k]) == Some(e.1);
      assert t[k + 1] == t[1..][k];
    }
  }

  /** Descriptors after the first id 0 contribute nothing. */
  lemma {:induction false} RequestStopsAtTerminator(a: seq<ReqField>, b: seq<ReqField>)
    requires ReqLive(a) == |a|
    requires b != [] && b[0].id == 0
    ensures Request(a + b) == Request(a)
    decreases |a|
  {
    if a != [] {
      assert (a + b)[1..] == a[1..] + b;
      RequestStopsAtTerminator(a[1..], b);
    } else {
      assert a + b == b;
    }
  }

  /** The descriptors before the terminator contribute in table order. */
  lemma {:induction false} RequestAppend(a: seq<ReqField>, b: seq<ReqField>)
    requires ReqLive(a) == |a|
    ensures Request(a + b) == Request(a) + Request(b)
    decreases |a|
  {
    if a != [] {
      assert (a + b)[1..] == a[1..] + b;
      RequestAppend(a[1..], b);
    } else {
      assert a + b == b;
    }
  }

  /** An integer sent by a request descriptor is on the wire as text that reads back as that integer. */
  lemma IntegerFieldRoundTrip(t: seq<ReqField>, k: nat)
    requires k < ReqLive(t) && t[k].valint.Some?
    ensures (t[k].id, FormatDec(t[k].valint.value)) in Request(t)
    ensures ParseDec(FormatDec(t[k].valint.value)) == t[k].valint
  {
    RequestHasField(t, k);
    ParseFormat(t[k].valint.value);
  }

  // ---- the response ----

  /** Number of response descriptors before the terminating id 0 (or the whole table). */
  function RespLive(t: seq<RespField>): (n: nat)
    ensures n <= |t|
    ensures forall k :: 0 <= k < n ==> t[k].id != 0
    ensures n < |t| ==> t[n].id == 0
  {
    if t == [] || t[0].id == 0 then 0 else 1 + RespLive(t[1..])
  }

  /** Unfolding `RespLive` at position `k` of a table. */
  lemma RespLiveAt(t: seq<RespField>, k: nat)
    requires k < |t|
    ensures RespLive(t[k..]) == if t[k].id == 0 then 0 else 1 + RespLive(t[k + 1..])
  {
    assert t[k..][0] == t[k] && t[k..][1..] == t[k + 1..];
  }

  /** Checking one response descriptor against the decoded response (lines 110-137). */
  function CheckOne(f: RespField, msg: Message, p: Payment): FieldCheck {
    match Find(msg, f.id)
    case None => FieldCheck(f.optional, p, f)
    case Some(v) =>
      var n := ParseDec(v);
      var f' := if f.valstr.Some? then f.(valstr := Some(v)) else f;
      var p' := if f.valint.Some? && n.Some? then p.Set(f.valint.value, n.value) else p;
      var strOk := f.expstr.None? || EqualsIgnoreCase(f.expstr.value, v);
      var intOk := f.expint.None? || (n.Some? && p'.Get(f.expint.value) == n.value);
      FieldCheck(strOk && intOk, p', f')
  }

  /** Checking a response table in order, stopping at the terminator or the first failure. */
  function CheckFields(t: seq<RespField>, msg: Message, p: Payment): (c: Checked)
    ensures |c.table| == |t|
    decreases |t|
  {
    if t == [] || t[0].id == 0 then Checked(true, p, t)
    else
      var s := CheckOne(t[0], msg, p);
      if !s.ok then Checked(false, s.pay, [s.field] + t[1..])
      else
        var r := CheckFields(t[1..], msg, s.pay);
        Checked(r.ok, r.pay, [s.field] + r.table)
  }

  /** What checking may do to one descriptor: rebind its set string slot to the field's text, when the field is present. */
  predicate Rebound(f: RespField, g: RespField, msg: Message) {
    g == f.(valstr := g.valstr) &&
    (g.valstr != f.valstr ==> f.valstr.Some? && g.valstr.Some? && g.valstr == Find(msg, f.id)) &&
    (Find(msg, f.id).None? ==> g == f)
  }

  /**
    * Validation changes a descriptor only in its output text, and only to the
    * response's value for that descriptor's id; a slot that was set is never
    * cleared, and a descriptor whose field is absent is left as it was.
    */
  lemma {:induction false} CheckedTable(t: seq<RespField>, msg: Message, p: Payment)
    ensures var c := CheckFields(t, msg, p);
            (forall k :: 0 <= k < |t| ==> c.table[k] == t[k].(valstr := c.table[k].valstr)) &&
            (forall k :: 0 <= k < |t| && c.table[k].valstr != t[k].valstr ==>
               t[k].valstr.Some? && c.table[k].valstr.Some? && c.table[k].valstr == Find(msg, t[k].id)) &&
            (forall k :: 0 <= k < |t| && Find(msg, t[k].id).None? ==> c.table[k] == t[k])
  {
    var c := CheckFields(t, msg, p);
    forall k | 0 <= k < |t| ensures Rebound(t[k], c.table[k], msg) {
      TableRebound(t, msg, p, k);
    }
  }

  /** The per-descriptor form of `CheckedTable`. */
  lemma {:induction false} TableRebound(t: seq<RespField>, msg: Message, p: Payment, k: nat)
    requires k < |t|
    ensures Rebound(t[k], CheckFields(t, msg, p).table[k], msg)
    decreases k
  {
    if t[0].id != 0 {
      var s := CheckOne(t[0], msg, p);
      if k == 0 {
        assert CheckFields(t, msg, p).table[0] == s.field;
      } else if s.ok {
        TableRebound(t[1..], msg, s.pay, k - 1);
        assert t[1..][k - 1] == t[k];
      } else {
        assert CheckFields(t, msg, p).table[k] == t[1..][k - 1] == t[k];
      }
    }
  }

  function Lift(pre: seq<RespField>, c: Checked): Checked {
    Checked(c.ok, c.pay, pre + c.table)
  }

  lemma CheckUnfold(u: seq<RespField>, msg: Message, pay: Payment)
    requires u != [] && u[0].id != 0
    ensures var s := CheckOne(u[0], msg, pay);
            CheckFields(u, msg, pay) ==
              if s.ok then Lift([s.field], CheckFields(u[1..], msg, s.pay))
              else Checked(false, s.pay, [s.field] + u[1..])
  {
  }

  /** The table bookkeeping of one loop step: the prefix grows by the checked descriptor. */
  lemma LiftStep(table: seq<RespField>, i: nat, f: RespField, rest: Checked, tail: seq<RespField>)
    requires i < |table| && table[i + 1..] == tail
    ensures Lift(table[..i], Lift([f], rest)) == Lift(table[i := f][..i + 1], rest)
    ensures table[..i] + ([f] + tail) == table[i := f]
  {
    assert table[i := f][..i + 1] == table[..i] + [f];
    assert table[i := f] == table[..i] + [f] + tail;
  }

  /** One step of the validation loop, stated on the specification. */
  lemma CheckStep(t: seq<RespField>, i: nat, msg: Message, pay: Payment, table: seq<RespField>)
    requires i < |t| && t[i].id != 0 && |table| == |t| && table[i..] == t[i..]
    ensures var s := CheckOne(t[i], msg, pay);
            Lift(table[..i], CheckFields(t[i..], msg, pay)) ==
              if s.ok then Lift(table[i := s.field][..i + 1], CheckFields(t[i + 1..], msg, s.pay))
              else Checked(false, s.pay, table[i := s.field])
  {
    var s := CheckOne(t[i], msg, pay);
    var u := t[i..];
    assert u[0] == t[i] && u[1..] == t[i + 1..];
    assert table[i + 1..] == u[1..];
    CheckUnfold(u, msg, pay);
    LiftStep(table, i, s.field, CheckFields(t[i + 1..], msg, s.pay), t[i + 1..]);
  }

  /** The response-validation loop of `do_stage` (lines 109-138). */
  method ValidateResponse(t: seq<RespField>, msg: Message, p: Payment)
    returns (ok: bool, pay: Payment, table: seq<RespField>)
    ensures Checked(ok, pay, table) == CheckFields(t, msg, p)
  {
    pay, table := p, t;
    var i := 0;
    while i < |t| && t[i].id != 0
      invariant 0 <= i <= |t| && |table| == |t|
      invariant table[i..] == t[i..]
      invariant CheckFields(t, msg, p) == Lift(table[..i], CheckFields(t[i..], msg, pay))
      decreases |t| - i
    {
      ghost var pay0, table0 := pay, table;
      CheckStep(t, i, msg, pay0, table0);
      ghost var s := CheckOne(t[i], msg, pay0);
      assert table0[i] == t[i];
      var f := t[i];
      var found := Find(msg, f.id);
      if found.None? && !f.optional {
        assert table0[i := s.field] == table0;
        return false, pay, table;
      } else if found.None? {
        assert table0[i := s.field] == table0;
        i := i + 1;
        continue;
      }
      var v := found.value;
      var n := ParseDec(v);
      if f.valstr.Some? {
        table := table[i := f.(valstr := Some(v))];
      }
      if f.valint.Some? && n.Some? {
        pay := pay.Set(f.valint.value, n.value);
      }
      assert pay == s.pay && table == table0[i := s.field];
      if f.expstr.Some? && !EqualsIgnoreCase(f.expstr.value, v) {
        return false, pay, table;
      }
      if f.expint.Some? && !(n.Some? && pay.Get(f.expint.value) == n.value) {
        return false, pay, table;
      }
      i := i + 1;
    }
    assert CheckFields(t[i..], msg, pay) == Checked(true, pay, t[i..]);
    assert table[..i] + t[i..] == table;
    ok := true;
  }

  /** A descriptor that fails whatever the payment holds: absent though required, wrong text, or no integer where one is expected. */
  predicate Rejects(f: RespField, msg: Message) {
    match Find(msg, f.id)
    case None => !f.optional
    case Some(v) =>
      (f.expstr.Some? && !EqualsIgnoreCase(f.expstr.value, v)) ||
      (f.expint.Some? && ParseDec(v).None?)
  }

  /** Any such descriptor before the terminator fails the whole table. */
  lemma {:induction false} RejectedFieldFails(t: seq<RespField>, msg: Message, p: Payment, k: nat)
    requires k < RespLive(t) && Rejects(t[k], msg)
    ensures !CheckFields(t, msg, p).ok
    decreases k
  {
    if k > 0 && CheckOne(t[0], msg, p).ok {
      assert t[1..][k - 1] == t[k];
      RejectedFieldFails(t[1..], msg, CheckOne(t[0], msg, p).pay, k - 1);
    }
  }

  /**
    * A table that passes had, for every descriptor before the terminator, its id
    * present (or the descriptor optional), the expected text equal ignoring case,
    * and an integer where one was expected.
    */
  lemma CheckedTableAccepted(t: seq<RespField>, msg: Message, p: Payment)
    requires CheckFields(t, msg, p).ok
    ensures forall k :: 0 <= k < RespLive(t) ==> !Rejects(t[k], msg)
  {
    forall k | 0 <= k < RespLive(t)
      ensures !Rejects(t[k], msg)
    {
      if Rejects(t[k], msg) {
        RejectedFieldFails(t, msg, p, k);
      }
    }
  }

  /** Once a prefix of the table fails, the descriptors after it are never looked at. */
  lemma {:induction false} StopsAtFirstFailure(a: seq<RespField>, u: seq<RespField>, msg: Message, p: Payment)
    requires !CheckFields(a, msg, p).ok
    ensures !CheckFields(a + u, msg, p).ok
    ensures CheckFields(a + u, msg, p).pay == CheckFields(a, msg, p).pay
    decreases |a|
  {
    assert a != [] && a[0].id != 0;
    assert (a + u)[0] == a[0] && (a + u)[1..] == a[1..] + u;
    var s := CheckOne(a[0], msg, p);
    if s.ok {
      StopsAtFirstFailure(a[1..], u, msg, s.pay);
    }
  }

  /** Tables in which no descriptor both captures and compares integers across descriptors. */
  predicate Independent(t: seq<RespField>) {
    (forall k :: 0 <= k < |t| ==> t[k].valint.None?) ||
    (forall k :: 0 <= k < |t| ==> t[k].expint.None?)
  }

  /**
    * For such a table, the whole response passes exactly when every descriptor before
    * the terminator passes on its own.
    */
  lemma {:induction false} CheckIndependent(t: seq<RespField>, msg: Message, p: Payment)
    requires Independent(t)
    ensures CheckFields(t, msg, p).ok <==> forall k :: 0 <= k < RespLive(t) ==> CheckOne(t[k], msg, p).ok
    decreases |t|
  {
    if t != [] && t[0].id != 0 {
      var s := CheckOne(t[0], msg, p);
      assert forall k :: 1 <= k < |t| ==> t[1..][k - 1] == t[k];
      assert Independent(t[1..]);
      if s.ok {
        CheckIndependent(t[1..], msg, s.pay);
        forall k | 0 <= k < |t|
          ensures CheckOne(t[k], msg, s.pay).ok == CheckOne(t[k], msg, p).ok
        {
          if t[k].expint.Some? {
            assert s.pay == p;
          }
        }
      }
    }
  }

  /** A payment member keeps its value unless a descriptor that points at it receives an integer. */
  lemma {:induction false} SlotKept(t: seq<RespField>, msg: Message, p: Payment, s: Slot)
    requires forall k :: 0 <= k < |t| && t[k].valint == Some(s) && Find(msg, t[k].id).Some? ==>
               ParseDec(Find(msg, t[k].id).value).None?
    ensures CheckFields(t, msg, p).pay.Get(s) == p.Get(s)
    decreases |t|
  {
    if t != [] && t[0].id != 0 {
      var c := CheckOne(t[0], msg, p);
      assert c.pay.Get(s) == p.Get(s);
      if c.ok {
        assert forall k :: 1 <= k < |t| ==> t[1..][k - 1] == t[k];
        SlotKept(t[1..], msg, c.pay, s);
      }
    }
  }

  /** A payment member that changed holds the integer read from a field that a descriptor points it at. */
  lemma {:induction false} SlotSource(t: seq<RespField>, msg: Message, p: Payment, s: Slot)
    requires CheckFields(t, msg, p).pay.Get(s) != p.Get(s)
    ensures exists k :: 0 <= k < RespLive(t) && t[k].valint == Some(s) && Find(msg, t[k].id).Some? &&
                        ParseDec(Find(msg, t[k].id).value) == Some(CheckFields(t, msg, p).pay.Get(s))
    decreases |t|
  {
    var c := CheckOne(t[0], msg, p);
    var r := CheckFields(t, msg, p);
    if c.ok && CheckFields(t[1..], msg, c.pay).pay.Get(s) != c.pay.Get(s) {
      SlotSource(t[1..], msg, c.pay, s);
      var k :| 0 <= k < RespLive(t[1..]) && t[1..][k].valint == Some(s) && Find(msg, t[1..][k].id).Some? &&
               ParseDec(Find(msg, t[1..][k].id).value) == Some(r.pay.Get(s));
      assert t[k + 1] == t[1..][k];
    } else {
      assert r.pay.Get(s) == c.pay.Get(s);
      assert RespLive(t) > 0;
    }
  }

  /**
    * Conversely, a passing check writes an integer slot: a live descriptor that targets
    * it and finds its field with parseable text leaves that integer there, unless a later
    * descriptor overwrites it.
    */
  lemma {:induction false} SlotWritten(t: seq<RespField>, msg: Message, p: Payment, s: Slot, k: nat)
    requires CheckFields(t, msg, p).ok
    requires k < RespLive(t)
    requires t[k].valint == Some(s) && Find(msg, t[k].id).Some? && ParseDec(Find(msg, t[k].id).value).Some?
    requires forall j :: k < j < |t| && t[j].valint == Some(s) && Find(msg, t[j].id).Some? ==>
               ParseDec(Find(msg, t[j].id).value).None?
    ensures CheckFields(t, msg, p).pay.Get(s) == ParseDec(Find(msg, t[k].id).value).value
    decreases k
  {
    var c := CheckOne(t[0], msg, p);
    assert forall j :: 1 <= j < |t| ==> t[1..][j - 1] == t[j];
    if k == 0 {
      SlotKept(t[1..], msg, c.pay, s);
    } else {
      SlotWritten(t[1..], msg, c.pay, s, k - 1);
    }
  }

  /** A passing check writes a live descriptor's string slot with the text of its field, when the field is present. */
  lemma {:induction false} StringSlotWritten(t: seq<RespField>, msg: Message, p: Payment, k: nat)
    requires CheckFields(t, msg, p).ok
    requires k < RespLive(t)
    requires t[k].valstr.Some? && Find(msg, t[k].id).Some?
    ensures CheckFields(t, msg, p).table[k].valstr == Find(msg, t[k].id)
    decreases k
  {
    var c := CheckOne(t[0], msg, p);
    if k > 0 {
      StringSlotWritten(t[1..], msg, c.pay, k - 1);
      assert t[1..][k - 1] == t[k];
    }
  }

  // ---- the whole stage ----

  /** What `do_stage` returns and leaves behind (lines 54-146). */
  function StageResult(opts: StageOpts, req: seq<ReqField>, resp: Option<seq<RespField>>,
                       reply: Reply, p: Payment): (o: Outcome)
    ensures o.rc == 0 || o.rc == -1
  {
    if !reply.sendOk then Outcome(-1, p, resp)
    else if resp.None? then Outcome(0, p, resp)
    else if reply.poll <= 0 || !reply.recvOk then Outcome(-1, p, resp)
    else
      var c := CheckFields(resp.value, reply.msg, p);
      if !c.ok || (reply.eof && !opts.allowEof) then Outcome(-1, c.pay, Some(c.table))
      else Outcome(0, c.pay, Some(c.table))
  }

  /** `do_stage`: build and send the request, then, if a response table is given, wait, receive and validate. */
  method DoStage(opts: StageOpts, req: seq<ReqField>, resp: Option<seq<RespField>>, reply: Reply, p: Payment)
    returns (rc: int, sent: Exchange, pay: Payment, table: Option<seq<RespField>>)
    ensures sent == Exchange(Request(req), opts.timeout)
    ensures Outcome(rc, pay, table) == StageResult(opts, req, resp, reply, p)
  {
    var m := BuildRequest(req);
    sent := Exchange(m, opts.timeout);
    pay, table := p, resp;
    if !reply.sendOk {
      return -1, sent, pay, table;
    }
    if resp.None? {
      return 0, sent, pay, table;
    }
    if reply.poll < 0 {
      return -1, sent, pay, table;
    } else if reply.poll == 0 {
      return -1, sent, pay, table;
    }
    if !reply.recvOk {
      return -1, sent, pay, table;
    }
    var ok, t;
    ok, pay, t := ValidateResponse(resp.value, reply.msg, p);
    table := Some(t);
    if !ok {
      return -1, sent, pay, table;
    }
    if !opts.allowEof && reply.eof {
      return -1, sent, pay, table;
    }
    rc := 0;
  }

  /** A failed send, a poll that times out or errs, or a failed receive fail the stage before any descriptor is looked at. */
  lemma FailsBeforeValidation(opts: StageOpts, req: seq<ReqField>, resp: Option<seq<RespField>>, reply: Reply, p: Payment)
    requires !reply.sendOk || (resp.Some? && (reply.poll <= 0 || !reply.recvOk))
    ensures StageResult(opts, req, resp, reply, p) == Outcome(-1, p, resp)
  {
  }

  /** Without a response table the stage's result is the send's. */
  lemma FireAndForget(opts: StageOpts, req: seq<ReqField>, reply: Reply, p: Payment)
    ensures StageResult(opts, req, None, reply, p).rc == (if reply.sendOk then 0 else -1)
  {
  }

  /**
    * Once a response has been received, the stage succeeds exactly when every
    * descriptor passes and the link did not report end-of-stream, unless the stage
    * allows it.
    */
  lemma ReceivedResponse(opts: StageOpts, req: seq<ReqField>, resp: seq<RespField>, reply: Reply, p: Payment)
    requires reply.sendOk && reply.poll > 0 && reply.recvOk
    ensures StageResult(opts, req, Some(resp), reply, p).rc == 0 <==>
              CheckFields(resp, reply.msg, p).ok && (!reply.eof || opts.allowEof)
  {
  }
}
