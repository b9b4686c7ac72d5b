/**
  * The driver's entry points (`DiaVendotek_*`). Each takes a possibly null driver,
  * as the C functions take a `void *`; thread creation is an input (`spawnOk`) and
  * the worker handed to `pthread_create` is returned rather than run.
  */
module Api {
  import opened Wrappers
  import opened CInt
  import opened Stage
  import M = Machine
  import opened Vendotek

  /** `DiaVendotek_StartPing` (lines 630-647). */
  method StartPing(d: Driver?, spawnOk: bool) returns (status: M.Status, spawned: Option<M.Worker>)
    ensures d == null ==> status == M.NullParameter && spawned == None
    ensures d != null ==> var c := M.StartPing(d.State(), spawnOk);
                          status == c.status && spawned == c.spawned
  {
    if d == null {
      return M.NullParameter, None;
    }
    if !spawnOk {
      return M.Code(5), None;
    }
    status, spawned := M.NoError, Some(M.PingWorker);
  }

  /** `DiaVendotek_PerformTransaction` (lines 652-677). */
  method PerformTransaction(d: Driver?, money: Int32, spawnOk: bool) returns (status: M.Status, spawned: Option<M.Worker>)
    requires d != null ==> d.Valid()
    modifies d
    ensures d == null ==> status == M.NullParameter && spawned == None
    ensures d != null ==> var c := M.PerformTransaction(old(d.State()), money, spawnOk);
                          status == c.status && spawned == c.spawned && d.State() == c.state && d.Valid()
  {
    if d == null || money == 0 {
      return M.NullParameter, None;
    }
    d.paymentStage := 1;
    d.requestedMoney := money;
    if !spawnOk {
      return M.Code(1), None;
    }
    status, spawned := M.NoError, Some(M.ProgramWorker);
  }

  /** `DiaVendotek_ConfirmTransaction` (lines 679-700); the driver it reads is its parameter. */
  method ConfirmTransaction(d: Driver?, money: Int32, spawnOk: bool) returns (status: M.Status, spawned: Option<M.Worker>)
    requires d != null ==> d.Valid()
    modifies d
    ensures d == null ==> status == M.NullParameter && spawned == None
    ensures d != null ==> var c := M.ConfirmTransaction(old(d.State()), money, spawnOk);
                          status == c.status && spawned == c.spawned && d.State() == c.state && d.Valid()
  {
    if d == null || money == 0 {
      return M.NullParameter, None;
    }
    d.requestedMoney := Wrap32(d.requestedMoney - money);
    if !spawnOk {
      return M.Code(1), None;
    }
    status, spawned := M.NoError, Some(M.ProgramWorker);
  }

  /** `DiaVendotek_StopDriver` (lines 704-732); `abortReply` is what the link does with ABR, whose result is ignored. */
  method StopDriver(d: Driver?, abortReply: Reply) returns (status: M.Status)
    requires d != null ==> d.Valid()
    modifies d
    ensures d == null ==> status == M.NullParameter
    ensures d != null ==> var c := M.StopDriver(old(d.State()));
                          status == c.status && d.State() == c.state && d.Valid()
  {
    if d == null {
      return M.NullParameter;
    }
    var stage := d.paymentStage;
    if stage < 4 {
      d.paymentStage := 0;
    }
    if stage == 0 || stage > 3 {
      return M.Code(-1);
    }
    if d.published {
      var _, x := DoAbort(abortReply);
      d.sent := d.sent + [x];
    }
    d.requestedMoney := 0;
    status := M.NoError;
  }

  /** `DiaVendotek_AbortTransaction` (lines 735-741): `StopDriver` with its status dropped. */
  method AbortTransaction(d: Driver?, abortReply: Reply)
    requires d != null ==> d.Valid()
    modifies d
    ensures d != null ==> d.State() == M.StopDriver(old(d.State())).state && d.Valid()
  {
    if d == null {
      return;
    }
    var _ := StopDriver(d, abortReply);
  }

  /** `DiaVendotek_GetTransactionStatus` (lines 747-759): the amount still requested, or -1 without a driver. */
  method GetTransactionStatus(d: Driver?) returns (n: int)
    ensures n == if d == null then -1 else d.requestedMoney as int
  {
    if d == null {
      return -1;
    }
    n := d.requestedMoney;
  }

  /** `DiaVendotek_GetAvailableStatus` (lines 761-774): `Available`, or -1 without a driver. */
  method GetAvailableStatus(d: Driver?) returns (n: int)
    ensures n == if d == null then -1 else d.available
  {
    if d == null {
      return -1;
    }
    n := d.available;
  }
}
