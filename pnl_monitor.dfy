/**
 * The realized-PnL back-fill of `modules/evolution/pnl_monitor.rs`: the
 * recent bills of the exchange are written into the trade log, each bill's
 * PnL plus fee into the rows with its order id whose realized PnL is still
 * NULL.  The trade log is the class `TradeLog`, its rows a sequence; the
 * bill fetch reaches the model as its outcome and a failing UPDATE as the
 * index of the bill whose statement fails.
 */
module PnlMonitor {
  import opened Base
  import opened Executor

  /** The columns of a `trade_logs` row the back-fill reads or writes. */
  datatype TradeRow = TradeRow(orderId: string, realizedPnl: Option<real>)

  /** The realized PnL of a bill: its PnL plus its (signed) fee. */
  function NetPnl(bill: PnlRecord): real {
    bill.pnl + bill.fee
  }

  /** One row under `UPDATE … SET realized_pnl = net WHERE okx_order_id = id AND realized_pnl IS NULL`. */
  function UpdateRow(row: TradeRow, ordId: string, net: real): TradeRow {
    if row.orderId == ordId && row.realizedPnl.None? then row.(realizedPnl := Some(net)) else row
  }

  /** The UPDATE statement of one bill over the whole table. */
  function UpdateRows(rows: seq<TradeRow>, ordId: string, net: real): (r: seq<TradeRow>)
    ensures |r| == |rows|
    ensures forall i :: 0 <= i < |rows| ==> r[i] == UpdateRow(rows[i], ordId, net)
  {
    seq(|rows|, i requires 0 <= i < |rows| => UpdateRow(rows[i], ordId, net))
  }

  /** One bill of the loop: a bill without an order id is skipped. */
  function ApplyBill(rows: seq<TradeRow>, bill: PnlRecord): seq<TradeRow> {
    if bill.ordId == "" then rows else UpdateRows(rows, bill.ordId, NetPnl(bill))
  }

  /** The table after the bills, in order. */
  function ApplyBills(rows: seq<TradeRow>, bills: seq<PnlRecord>): (r: seq<TradeRow>)
    ensures |r| == |rows|
  {
    if |bills| == 0 then rows else ApplyBill(ApplyBills(rows, bills[..|bills| - 1]), bills[|bills| - 1])
  }

  /** The net PnL of the first bill that carries a nonempty order id equal to `id`. */
  function FirstNet(bills: seq<PnlRecord>, id: string): Option<real> {
    if |bills| == 0 then None
    else
      var before := FirstNet(bills[..|bills| - 1], id);
      var last := bills[|bills| - 1];
      if before.Some? then before
      else if last.ordId != "" && last.ordId == id then Some(NetPnl(last))
      else None
  }

  /** What the bills should do to one row: a NULL PnL takes the first matching bill's net PnL; anything else stays. */
  function SettleRow(row: TradeRow, bills: seq<PnlRecord>): TradeRow {
    if row.realizedPnl.None? && FirstNet(bills, row.orderId).Some?
    then row.(realizedPnl := FirstNet(bills, row.orderId))
    else row
  }

  /** `FirstNet` finds a bill: nonempty id, equal to the one asked for, with no earlier such bill. */
  lemma {:induction false} FirstNetIsFirst(bills: seq<PnlRecord>, id: string)
    ensures FirstNet(bills, id).Some? <==> exists k :: 0 <= k < |bills| && bills[k].ordId != "" && bills[k].ordId == id
    ensures FirstNet(bills, id).Some? ==>
      exists k :: (0 <= k < |bills| && bills[k].ordId == id && id != ""
                   && FirstNet(bills, id) == Some(NetPnl(bills[k]))
                   && forall j :: 0 <= j < k ==> bills[j].ordId != id)
  {
    if |bills| > 0 {
      var init := bills[..|bills| - 1];
      FirstNetIsFirst(init, id);
      if FirstNet(init, id).Some? {
        var k :| 0 <= k < |init| && init[k].ordId == id && id != ""
          && FirstNet(init, id) == Some(NetPnl(init[k]))
          && forall j :: 0 <= j < k ==> init[j].ordId != id;
        assert bills[k] == init[k];
        assert forall j :: 0 <= j < k ==> bills[j] == init[j];
      } else {
        assert forall k :: 0 <= k < |init| ==> bills[k] == init[k];
        if FirstNet(bills, id).Some? {
          var k := |bills| - 1;
          assert forall j :: 0 <= j < k ==> bills[j] == init[j];
        }
      }
    }
  }

  /** Bills without an order id never settle anything: a row whose id is empty keeps a NULL PnL. */
  lemma {:induction false} FirstNetOfEmptyId(bills: seq<PnlRecord>)
    ensures FirstNet(bills, "").None?
  {
    if |bills| > 0 {
      FirstNetOfEmptyId(bills[..|bills| - 1]);
    }
  }

  /**
   * The back-fill row by row: the table keeps its rows, and each row is
   * settled by the first bill with its order id, if its PnL was NULL.
   */
  lemma {:induction false} ApplyBillsRowwise(rows: seq<TradeRow>, bills: seq<PnlRecord>)
    ensures |ApplyBills(rows, bills)| == |rows|
    ensures forall i :: 0 <= i < |rows| ==> ApplyBills(rows, bills)[i] == SettleRow(rows[i], bills)
  {
    if |bills| > 0 {
      var init := bills[..|bills| - 1];
      var last := bills[|bills| - 1];
      ApplyBillsRowwise(rows, init);
      var before := ApplyBills(rows, init);
      forall i | 0 <= i < |rows|
        ensures ApplyBills(rows, bills)[i] == SettleRow(rows[i], bills)
      {
        assert before[i] == SettleRow(rows[i], init);
        if last.ordId != "" {
          assert ApplyBills(rows, bills)[i] == UpdateRow(before[i], last.ordId, NetPnl(last));
        }
      }
    }
  }

  /** Settling a settled row changes nothing. */
  lemma SettleRowIdempotent(row: TradeRow, bills: seq<PnlRecord>)
    ensures SettleRow(SettleRow(row, bills), bills) == SettleRow(row, bills)
  {
  }

  /** Running the back-fill again with the same bills leaves the table as it is. */
  lemma ApplyBillsIdempotent(rows: seq<TradeRow>, bills: seq<PnlRecord>)
    ensures ApplyBills(ApplyBills(rows, bills), bills) == ApplyBills(rows, bills)
  {
    var once := ApplyBills(rows, bills);
    ApplyBillsRowwise(rows, bills);
    ApplyBillsRowwise(once, bills);
    forall i | 0 <= i < |rows|
      ensures ApplyBills(once, bills)[i] == once[i]
    {
      SettleRowIdempotent(rows[i], bills);
    }
  }

  /**
   * The first bill for an order id wins: a row with that id and a NULL PnL
   * ends with the net PnL of the first bill carrying it, whatever later
   * bills for the same id say; a row whose PnL was set, or whose id no bill
   * carries, is left as it was.
   */
  lemma FirstBillWins(rows: seq<TradeRow>, bills: seq<PnlRecord>, i: nat, k: nat)
    requires i < |rows| && k < |bills|
    requires bills[k].ordId != "" && bills[k].ordId == rows[i].orderId
    requires forall j :: 0 <= j < k ==> bills[j].ordId != bills[k].ordId
    ensures rows[i].realizedPnl.None? ==> ApplyBills(rows, bills)[i].realizedPnl == Some(NetPnl(bills[k]))
    ensures rows[i].realizedPnl.Some? ==> ApplyBills(rows, bills)[i] == rows[i]
  {
    ApplyBillsRowwise(rows, bills);
    FirstNetIsFirst(bills, rows[i].orderId);
    var k' :| 0 <= k' < |bills| && bills[k'].ordId == rows[i].orderId && rows[i].orderId != ""
      && FirstNet(bills, rows[i].orderId) == Some(NetPnl(bills[k']))
      && forall j :: 0 <= j < k' ==> bills[j].ordId != rows[i].orderId;
    assert k' == k;
  }

  /** Rows no bill can touch (an empty or unbilled order id) keep their PnL, NULL or not. */
  lemma UnbilledRowUnchanged(rows: seq<TradeRow>, bills: seq<PnlRecord>, i: nat)
    requires i < |rows|
    requires rows[i].orderId == "" || forall k :: 0 <= k < |bills| ==> bills[k].ordId != rows[i].orderId
    ensures ApplyBills(rows, bills)[i] == rows[i]
  {
    ApplyBillsRowwise(rows, bills);
    FirstNetIsFirst(bills, rows[i].orderId);
    FirstNetOfEmptyId(bills);
  }

  class TradeLog {
    /** The rows of `trade_logs`. */
    var rows: seq<TradeRow>

    constructor(rows: seq<TradeRow>)
      ensures this.rows == rows
    {
      this.rows := rows;
    }

    /**
     * `sync_realized_pnl`: a failed fetch is logged and the table left as it
     * is; otherwise each bill with an order id runs its UPDATE, and an UPDATE
     * that fails (the one for bill `failAt`) ends the sync with an error after
     * the bills before it were written.
     */
    method SyncRealizedPnl(bills: Result<seq<PnlRecord>, Error>, failAt: Option<nat>) returns (r: Result<(), string>)
      modifies this
      ensures bills.Err? ==> r.Ok? && rows == old(rows)
      ensures bills.Ok? && failAt.Some? && failAt.value < |bills.value| && bills.value[failAt.value].ordId != "" ==>
        r.Err? && rows == ApplyBills(old(rows), bills.value[..failAt.value])
      ensures bills.Ok? && !(failAt.Some? && failAt.value < |bills.value| && bills.value[failAt.value].ordId != "") ==>
        r.Ok? && rows == ApplyBills(old(rows), bills.value)
    {
      if bills.Err? {
        return Ok(());
      }
      var list := bills.value;
      if |list| == 0 {
        assert ApplyBills(rows, list) == rows;
        return Ok(());
      }
      for i := 0 to |list|
        invariant rows == ApplyBills(old(rows), list[..i])
        invariant failAt.Some? && failAt.value < i ==> list[failAt.value].ordId == ""
      {
        assert list[..i + 1][..i] == list[..i];
        var bill := list[i];
        var netPnl := bill.pnl + bill.fee;
        if bill.ordId == "" {
          continue;
        }
        if failAt == Some(i) {
          return Err("UPDATE trade_logs failed");
        }
        rows := UpdateRows(rows, bill.ordId, netPnl);
      }
      assert list[..|list|] == list;
      r := Ok(());
    }
  }
}
