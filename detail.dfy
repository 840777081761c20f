/** The transaction detail page of src/pages/TransactionDetail.tsx: its own
    three-record table, the first-match lookup by id, the route parameter
    handling, the counterparty shown, and the fee row of the breakdown. */
module TransactionDetail {
  import opened Optional
  import opened TransactionData

  /** The page's own record shape: it has a mandatory reference id, an
      optional fee, account and bank, and a display timestamp string. */
  datatype DetailTransaction = DetailTransaction(
    id: string,
    kind: Direction,
    recipient: Option<string>,
    sender: Option<string>,
    payTag: string,
    amount: real,
    memo: Option<string>,
    date: string,
    status: Status,
    referenceId: string,
    fee: Option<real>,
    accountNumber: Option<string>,
    bankName: Option<string>,
    timestamp: string)

  /** The table the lookup searches, in declaration order. */
  function DetailTable(): seq<DetailTransaction> {
    [ DetailTransaction("TXN001", Outgoing, Some("สมชาย ใจดี"), None, "@somchai123",
        500.0, Some("ค่าอาหารเที่ยง"), "วันนี้ 14:30", Completed, "REF2025061901001",
        Some(0.0), Some("123-4-56789-0"), Some("ธนาคารกรุงเทพ"),
        "19 มิ.ย. 2568 เวลา 14:30:25"),
      DetailTransaction("TXN002", Incoming, None, Some("นิดา สวยงาม"), "@nida456",
        1200.0, Some("คืนเงินค่าหนัง"), "เมื่อวาน 19:45", Completed, "REF2025061801002",
        Some(0.0), Some("987-6-54321-0"), Some("ธนาคารไทยพาณิชย์"),
        "18 มิ.ย. 2568 เวลา 19:45:12"),
      DetailTransaction("TXN003", Outgoing, Some("ประยุทธ์ มั่นคง"), None, "@prayuth789",
        2500.0, Some("ค่าเช่าบ้าน"), "2 วันที่แล้ว", Completed, "REF2025061701003",
        Some(5.0), Some("456-7-89012-3"), Some("ธนาคารกสิกรไทย"),
        "17 มิ.ย. 2568 เวลา 10:15:30") ]
  }

  /** `Array.prototype.find` on ids followed by `|| null`: the first record
      whose id equals `id`, or nothing when none does. */
  function FindById(table: seq<DetailTransaction>, id: string): (r: Option<DetailTransaction>)
    ensures r.None? <==> forall k :: 0 <= k < |table| ==> table[k].id != id
    ensures r.Some? ==> exists k :: 0 <= k < |table| && table[k] == r.value
                                    && forall j :: 0 <= j < k ==> table[j].id != id
    ensures r.Some? ==> r.value.id == id
  {
    if table == [] then None
    else if table[0].id == id then Some(table[0])
    else
      var r := FindById(table[1..], id);
      assert r.Some? ==> exists k :: 1 <= k < |table| && table[k] == r.value
                                     && forall j :: 1 <= j < k ==> table[j].id != id by {
        if r.Some? {
          var k :| 0 <= k < |table[1..]| && table[1..][k] == r.value
                   && forall j :: 0 <= j < k ==> table[1..][j].id != id;
          assert table[k + 1] == r.value;
          assert forall j :: 1 <= j < k + 1 ==> table[j].id == table[1..][j - 1].id;
        }
      }
      assert forall k :: 1 <= k < |table| ==> table[k] == table[1..][k - 1];
      r
  }

  function GetTransactionById(id: string): Option<DetailTransaction> {
    FindById(DetailTable(), id)
  }

  /** The three ids of the table are distinct, so a lookup can return only
      the record declared with that id. */
  lemma DetailIdsDistinct()
    ensures forall i, j :: 0 <= i < j < |DetailTable()| ==> DetailTable()[i].id != DetailTable()[j].id
  {
    var t := DetailTable();
    assert t[0].id[5] == '1' && t[1].id[5] == '2' && t[2].id[5] == '3';
  }

  /** The lookup succeeds exactly for the three declared ids, and then
      returns the record with that id. */
  lemma LookupSucceedsIff(id: string)
    ensures GetTransactionById(id).Some? <==> id in {"TXN001", "TXN002", "TXN003"}
    ensures GetTransactionById(id).Some? ==> GetTransactionById(id).value in DetailTable()
  {
    var t := DetailTable();
    assert t[0].id == "TXN001" && t[1].id == "TXN002" && t[2].id == "TXN003";
    if GetTransactionById(id).Some? {
      var k :| 0 <= k < |t| && t[k] == GetTransactionById(id).value;
    }
  }

  /** An id the table does not declare gives the not-found page. */
  lemma UnknownIdNotFound()
    ensures GetTransactionById("INVALID_ID") == None
    ensures GetTransactionById("TXN004") == None
  {
    LookupSucceedsIff("INVALID_ID");
    LookupSucceedsIff("TXN004");
  }

  /** What the page renders from its route parameter: a missing or empty
      parameter is treated like an unknown id; `None` is the not-found view. */
  function ResolveRoute(param: Option<string>): (r: Option<DetailTransaction>)
    ensures param.None? || param == Some("") ==> r.None?
    ensures r.Some? <==> param.Some? && param.value in {"TXN001", "TXN002", "TXN003"}
    ensures r.Some? ==> param.Some? && r.value.id == param.value && r.value in DetailTable()
  {
    if param.Some? && param.value != "" then
      LookupSucceedsIff(param.value);
      GetTransactionById(param.value)
    else None
  }

  /** The counterparty named on the page: the recipient of an outgoing
      transfer, the sender of an incoming one. */
  function DisplayName(t: DetailTransaction): Option<string>
  {
    if t.kind == Outgoing then t.recipient else t.sender
  }

  /** Every record of the table names its counterparty: the field that
      matches the direction is present and the other is absent. */
  lemma TableNamesCounterparty()
    ensures forall t :: t in DetailTable() ==> DisplayName(t).Some?
    ensures forall t :: t in DetailTable() && t.kind == Outgoing ==> t.sender.None?
    ensures forall t :: t in DetailTable() && t.kind == Incoming ==> t.recipient.None?
  {
  }

  /** What the fee slot of the breakdown renders. `StrayZero` is the bare
      text "0" that React prints when a `&&` chain stops at the number 0. */
  datatype FeeSlot = NoFeeRow | StrayZero | FeeRow(fee: real)

  /** The fee slot as written: `fee && fee > 0 && row`. An absent fee stops
      the chain at `undefined` and a negative fee at `false`, both of which
      render nothing; a zero fee stops it at the number 0, which renders. */
  function FeeSlotAsWritten(fee: Option<real>): (slot: FeeSlot)
    ensures slot.FeeRow? <==> fee.Some? && fee.value > 0.0
    ensures slot == StrayZero <==> fee == Some(0.0)
  {
    match fee
    case None => NoFeeRow
    case Some(f) =>
      if f == 0.0 then StrayZero
      else if f > 0.0 then FeeRow(f)
      else NoFeeRow
  }

  /** Both records without a fee, TXN001 and TXN002, put a stray "0" into
      the breakdown under the code as written. */
  lemma StrayZeroForFreeTransfers()
    ensures FeeSlotAsWritten(GetTransactionById("TXN001").value.fee) == StrayZero
    ensures FeeSlotAsWritten(GetTransactionById("TXN002").value.fee) == StrayZero
  {
    LookupSucceedsIff("TXN001");
    LookupSucceedsIff("TXN002");
  }

  /** The fee slot as intended: the row exactly when a positive fee is
      present, and nothing else ever. */
  function FeeSlotIntended(fee: Option<real>): (slot: FeeSlot)
    ensures slot != StrayZero
    ensures slot.FeeRow? <==> fee.Some? && fee.value > 0.0
    ensures slot.FeeRow? ==> slot.fee == fee.value
  {
    if fee.Some? && fee.value > 0.0 then FeeRow(fee.value) else NoFeeRow
  }

  /** The two readings differ only where the code as written prints the
      stray zero. */
  lemma FeeSlotsAgreeElsewhere(fee: Option<real>)
    ensures fee != Some(0.0) ==> FeeSlotAsWritten(fee) == FeeSlotIntended(fee)
    ensures fee == Some(0.0) ==> FeeSlotIntended(fee) == NoFeeRow
  {
  }

  /** Under the intended reading only TXN003, whose fee is 5, shows a fee
      row. */
  lemma OnlyFeeRowForTxn003()
    ensures forall t :: t in DetailTable() ==> (FeeSlotIntended(t.fee).FeeRow? <==> t.id == "TXN003")
    ensures FeeSlotIntended(GetTransactionById("TXN003").value.fee) == FeeRow(5.0)
  {
    LookupSucceedsIff("TXN003");
    var t := DetailTable();
    assert t[0].id[5] == '1' && t[1].id[5] == '2' && t[2].id[5] == '3';
  }
}
