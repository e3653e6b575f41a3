/**
 * Checkout: turning a cart into an order inside one database transaction. This
 * file holds what a checkout is specified to do, as functions of the tables at
 * the start, and the properties proved about it; transaksi_usecase.dfy holds the
 * step-by-step procedure and proves that it does exactly this.
 */
module TransaksiSpec {
  import opened Wrappers
  import opened GoStrconv
  import opened Model
  import opened Repository

  /** One cart line as the request body gives it; nothing checks that the quantity is positive. */
  datatype CartItemInput = CartItemInput(produkID: nat, kuantitas: int)

  /** Why a checkout fails; `Message` gives the error text the caller receives. */
  datatype CheckoutError =
    | AlamatNotFound
    | AlamatLookupFailed(cause: DbError)
    | BeginFailed(cause: DbError)
    | ProdukNotFound
    | StokNotEnough(namaProduk: string, remaining: int)
    | SaveLogFailed(cause: DbError)
    | UpdateStokFailed(cause: DbError)
    | SaveHeaderFailed(cause: DbError)
    | SaveDetailFailed(cause: DbError)
    | CommitFailed(cause: DbError)

  function ErrorText(e: DbError): string
  {
    match e
    case ErrRecordNotFound => "record not found"
    case DbFailure(m) => m
  }

  function Message(e: CheckoutError): string
  {
    match e
    case AlamatNotFound => "alamat not found or access denied"
    case AlamatLookupFailed(c) => ErrorText(c)
    case BeginFailed(c) => ErrorText(c)
    case ProdukNotFound => "produk not found"
    case StokNotEnough(n, s) => "stok for produk '" + n + "' is not enough (remaining: " + FormatInt(s) + ")"
    case SaveLogFailed(c) => "fail save log produk: " + ErrorText(c)
    case UpdateStokFailed(c) => "fail update stok: " + ErrorText(c)
    case SaveHeaderFailed(c) => "fail save header transaksi: " + ErrorText(c)
    case SaveDetailFailed(c) => "fail save detail transaksi: " + ErrorText(c)
    case CommitFailed(c) => "fail commit transaksi: " + ErrorText(c)
  }

  /**
   * Which database calls of one checkout fail, and with what message: the address
   * lookup, BEGIN, the header insert and COMMIT once each; the locked read, the
   * snapshot insert and the stock update per cart line; the line insert per staged line.
   */
  datatype Faults = Faults(
    alamat: Option<string>,
    begin: Option<string>,
    lock: map<nat, string>,
    saveLog: map<nat, string>,
    updateStok: map<nat, string>,
    saveHeader: Option<string>,
    saveDetail: map<nat, string>,
    commit: Option<string>)

  function FaultAt(m: map<nat, string>, k: nat): Option<string>
  {
    if k in m then Some(m[k]) else None
  }

  /** The total quantity the cart asks of product `id`, over all lines that name it. */
  function Demand(items: seq<CartItemInput>, id: nat): int
  {
    if items == [] then 0
    else
      var last := items[|items| - 1];
      Demand(items[..|items| - 1], id) + (if last.produkID == id then last.kuantitas else 0)
  }

  /** Every line names a product that exists. */
  predicate Listed(p0: map<nat, Produk>, items: seq<CartItemInput>)
  {
    forall k :: 0 <= k < |items| ==> items[k].produkID in p0
  }

  /** The unit price: Atoi of the consumer price text, its error discarded. */
  function Price(p: Produk): int
  {
    AtoiValue(Atoi(p.hargaKonsumen))
  }

  /** The snapshot of a product, before the database gives it an id. */
  function Freeze(p: Produk): LogProduk
  {
    LogProduk(0, p.id, p.idToko, p.idCategory, p.namaProduk, p.slug, p.hargaReseller, p.hargaKonsumen, p.deskripsi)
  }

  /** The order line staged for a product, before it has an id and a header. */
  function Stage(p: Produk, logID: nat, kuantitas: int): DetailTrx
  {
    DetailTrx(0, 0, logID, p.idToko, kuantitas, Price(p) * kuantitas)
  }

  /**
   * The failure a line runs into when `current` is the product table it reads under
   * its lock: a missing product, too little stock, or a failing snapshot or stock write.
   */
  function StepError(current: map<nat, Produk>, item: CartItemInput, f: Faults, k: nat): Option<CheckoutError>
  {
    if item.produkID !in current || k in f.lock then Some(ProdukNotFound)
    else
      var row := current[item.produkID];
      if row.stok < item.kuantitas then Some(StokNotEnough(row.namaProduk, row.stok))
      else if k in f.saveLog then Some(SaveLogFailed(DbFailure(f.saveLog[k])))
      else if k in f.updateStok then Some(UpdateStokFailed(DbFailure(f.updateStok[k])))
      else None
  }

  /** The failure line `k` runs into, given that every earlier line went through. */
  function LineError(p0: map<nat, Produk>, items: seq<CartItemInput>, f: Faults, k: nat): Option<CheckoutError>
    requires k < |items|
  {
    StepError(Decremented(p0, items[..k]), items[k], f, k)
  }

  /** The failure of the first failing line among the first `n`. */
  function CartError(p0: map<nat, Produk>, items: seq<CartItemInput>, f: Faults, n: nat): Option<CheckoutError>
    requires n <= |items|
  {
    if n == 0 then None
    else if CartError(p0, items, f, n - 1).Some? then CartError(p0, items, f, n - 1)
    else LineError(p0, items, f, n - 1)
  }

  /** The fault of the first failing line insert among the first `n`. */
  function DetailFault(f: Faults, n: nat): Option<string>
  {
    if n == 0 then None
    else if DetailFault(f, n - 1).Some? then DetailFault(f, n - 1)
    else FaultAt(f.saveDetail, n - 1)
  }

  /** The sum of the unit price times the quantity over the cart. */
  function CartTotal(p0: map<nat, Produk>, items: seq<CartItemInput>): int
    requires Listed(p0, items)
  {
    if items == [] then 0
    else
      var last := items[|items| - 1];
      CartTotal(p0, items[..|items| - 1]) + Price(p0[last.produkID]) * last.kuantitas
  }

  /** The sum of the line totals. */
  function SumTotals(ds: seq<DetailTrx>): int
  {
    if ds == [] then 0 else SumTotals(ds[..|ds| - 1]) + ds[|ds| - 1].hargaTotal
  }

  /** The snapshots a checkout saves, one per line, with ids from `base` on. */
  function SavedLogs(p0: map<nat, Produk>, items: seq<CartItemInput>, base: nat): (r: seq<LogProduk>)
    requires Listed(p0, items)
  {
    seq(|items|, k requires 0 <= k < |items| => Freeze(p0[items[k].produkID]).(id := base + k))
  }

  /** The lines a checkout stages, one per cart line, each pointing at its own snapshot. */
  function StagedDetails(p0: map<nat, Produk>, items: seq<CartItemInput>, logBase: nat): seq<DetailTrx>
    requires Listed(p0, items)
  {
    seq(|items|, k requires 0 <= k < |items| => Stage(p0[items[k].produkID], logBase + k, items[k].kuantitas))
  }

  /** The staged lines as saved: ids from `base` on, all under header `trxID`. */
  function SavedDetails(staged: seq<DetailTrx>, base: nat, trxID: nat): seq<DetailTrx>
  {
    seq(|staged|, k requires 0 <= k < |staged| => staged[k].(id := base + k, idTrx := trxID))
  }

  /** Every product with its stock lowered by what the cart asks of it. */
  function Decremented(p0: map<nat, Produk>, items: seq<CartItemInput>): map<nat, Produk>
  {
    map id | id in p0 :: p0[id].(stok := p0[id].stok - Demand(items, id))
  }

  /** "INV/<user id>/<first 8 characters of a fresh UUID>". */
  function InvoiceCode(userID: nat, uuid: string): (r: string)
    requires |uuid| >= 8
    ensures |r| >= 14 && r[..4] == "INV/" && r[|r| - 9] == '/' && r[|r| - 8..] == uuid[..8]
    ensures AllDigits(r[4..|r| - 9]) && DecimalValue(r[4..|r| - 9]) == userID
  {
    var r := "INV/" + FormatUint(userID) + "/" + uuid[..8];
    assert r[4..|r| - 9] == FormatUint(userID);
    r
  }

  /** The header a successful checkout saves and returns. */
  function Header(t0: Tables, userID: nat, alamatID: nat, methodBayar: string, items: seq<CartItemInput>, uuid: string): Trx
    requires Listed(t0.produk, items) && |uuid| >= 8
  {
    Trx(|t0.trxs| + 1, userID, alamatID, CartTotal(t0.produk, items), InvoiceCode(userID, uuid), methodBayar)
  }

  /** The tables once every line of `items` went through: stock lowered, one snapshot per line. */
  function StagedTables(t0: Tables, items: seq<CartItemInput>): Tables
    requires Listed(t0.produk, items)
  {
    Tables(Decremented(t0.produk, items), t0.logs + SavedLogs(t0.produk, items, |t0.logs| + 1), t0.trxs, t0.details)
  }

  /** The tables after a successful checkout: the staged tables, the header and its lines. */
  function Committed(t0: Tables, items: seq<CartItemInput>, header: Trx): Tables
    requires Listed(t0.produk, items)
  {
    StagedTables(t0, items).(
      trxs := t0.trxs + [header],
      details := t0.details + SavedDetails(StagedDetails(t0.produk, items, |t0.logs| + 1), |t0.details| + 1, header.id))
  }

  /** What a checkout returns, from the tables and the addresses at the start. */
  function Outcome(
    t0: Tables, alamat: set<(nat, nat)>, userID: nat, alamatID: nat, methodBayar: string,
    items: seq<CartItemInput>, uuid: string, f: Faults): Result<Trx, CheckoutError>
    requires |uuid| >= 8
  {
    if f.alamat.Some? then Failure(AlamatLookupFailed(DbFailure(f.alamat.value)))
    else if (alamatID, userID) !in alamat then Failure(AlamatNotFound)
    else if f.begin.Some? then Failure(BeginFailed(DbFailure(f.begin.value)))
    else if CartError(t0.produk, items, f, |items|).Some? then Failure(CartError(t0.produk, items, f, |items|).value)
    else
      NoCartErrorListed(t0.produk, items, f);
      if f.saveHeader.Some? then Failure(SaveHeaderFailed(DbFailure(f.saveHeader.value)))
      else if DetailFault(f, |items|).Some? then Failure(SaveDetailFailed(DbFailure(DetailFault(f, |items|).value)))
      else if f.commit.Some? then Failure(CommitFailed(DbFailure(f.commit.value)))
      else Success(Header(t0, userID, alamatID, methodBayar, items, uuid))
  }

  // ---------------------------------------------------------------- first failures

  /** No line fails among the first `n` exactly when each of them goes through. */
  lemma {:induction false} CartErrorNone(p0: map<nat, Produk>, items: seq<CartItemInput>, f: Faults, n: nat)
    requires n <= |items|
    ensures CartError(p0, items, f, n).None? <==> forall k :: 0 <= k < n ==> LineError(p0, items, f, k).None?
  {
    if n > 0 {
      CartErrorNone(p0, items, f, n - 1);
    }
  }

  /** A failing cart reports the failure of its first failing line. */
  lemma {:induction false} CartErrorIsFirst(p0: map<nat, Produk>, items: seq<CartItemInput>, f: Faults, n: nat)
    requires n <= |items| && CartError(p0, items, f, n).Some?
    ensures exists k ::
              && 0 <= k < n
              && LineError(p0, items, f, k) == CartError(p0, items, f, n)
              && forall j :: 0 <= j < k ==> LineError(p0, items, f, j).None?
  {
    if CartError(p0, items, f, n - 1).Some? {
      CartErrorIsFirst(p0, items, f, n - 1);
    } else {
      CartErrorNone(p0, items, f, n - 1);
      assert LineError(p0, items, f, n - 1) == CartError(p0, items, f, n);
    }
  }

  /** Once a line has failed, later lines do not change the reported failure. */
  lemma {:induction false} CartErrorSticks(p0: map<nat, Produk>, items: seq<CartItemInput>, f: Faults, n: nat, m: nat)
    requires n <= m <= |items| && CartError(p0, items, f, n).Some?
    ensures CartError(p0, items, f, m) == CartError(p0, items, f, n)
  {
    if m > n {
      CartErrorSticks(p0, items, f, n, m - 1);
    }
  }

  lemma {:induction false} DetailFaultNone(f: Faults, n: nat)
    ensures DetailFault(f, n).None? <==> forall j :: 0 <= j < n ==> j !in f.saveDetail
  {
    if n > 0 {
      DetailFaultNone(f, n - 1);
    }
  }

  lemma {:induction false} DetailFaultSticks(f: Faults, n: nat, m: nat)
    requires n <= m && DetailFault(f, n).Some?
    ensures DetailFault(f, m) == DetailFault(f, n)
  {
    if m > n {
      DetailFaultSticks(f, n, m - 1);
    }
  }

  lemma NoCartErrorListed(p0: map<nat, Produk>, items: seq<CartItemInput>, f: Faults)
    requires CartError(p0, items, f, |items|).None?
    ensures Listed(p0, items)
  {
    CartErrorNone(p0, items, f, |items|);
    forall k | 0 <= k < |items| ensures items[k].produkID in p0 {
      assert LineError(p0, items, f, k).None?;
    }
  }

  // ---------------------------------------------------------------- one more line

  lemma ListedStep(p0: map<nat, Produk>, items: seq<CartItemInput>, i: nat)
    requires i < |items| && Listed(p0, items[..i]) && items[i].produkID in p0
    ensures Listed(p0, items[..i + 1])
  {
    var front, next := items[..i], items[..i + 1];
    forall k | 0 <= k < |next| ensures next[k].produkID in p0 {
      if k < i { assert next[k] == front[k]; }
    }
  }

  /** Taking line `i`'s quantity from its row moves the stock from the first `i` lines to the first `i + 1`. */
  lemma DecrementedStep(p0: map<nat, Produk>, items: seq<CartItemInput>, i: nat)
    requires i < |items| && items[i].produkID in p0
    requires forall id :: id in p0 ==> p0[id].id == id
    ensures var id := items[i].produkID;
      var row := Decremented(p0, items[..i])[id];
      row.id == id && Decremented(p0, items[..i + 1]) == Decremented(p0, items[..i])[id := row.(stok := row.stok - items[i].kuantitas)]
  {
    var front, next := items[..i], items[..i + 1];
    assert next[..i] == front;
    var id := items[i].produkID;
    var row := Decremented(p0, front)[id];
    var m0, m1 := Decremented(p0, front), Decremented(p0, next);
    var m2 := m0[id := row.(stok := row.stok - items[i].kuantitas)];
    forall x | x in m1 ensures m1[x] == m2[x] {
      assert Demand(next, x) == Demand(front, x) + (if x == id then items[i].kuantitas else 0);
    }
    assert m1 == m2;
  }

  lemma SavedLogsStep(p0: map<nat, Produk>, items: seq<CartItemInput>, i: nat, logBase: nat)
    requires i < |items| && Listed(p0, items[..i + 1])
    ensures items[..i + 1][..i] == items[..i] && Listed(p0, items[..i])
    ensures SavedLogs(p0, items[..i + 1], logBase)
         == SavedLogs(p0, items[..i], logBase) + [Freeze(p0[items[i].produkID]).(id := logBase + i)]
  {
    assert items[..i + 1][..i] == items[..i];
  }

  /**
   * One more line through: the row the line reads loses the line's quantity and its
   * snapshot is appended; the snapshot and the staged line are those of the row
   * before any line ran.
   */
  lemma StagedTablesStep(t0: Tables, items: seq<CartItemInput>, i: nat, t: Tables, t1: Tables)
    requires i < |items| && Listed(t0.produk, items[..i + 1])
    requires WellKeyed(t0)
    requires Listed(t0.produk, items[..i]) && t == StagedTables(t0, items[..i])
    requires var id, q := items[i].produkID, items[i].kuantitas;
      id in t.produk &&
      var row := t.produk[id];
      t1 == Tables(t.produk[id := row.(stok := row.stok - q)], t.logs + [Freeze(row).(id := |t.logs| + 1)], t.trxs, t.details)
    ensures t1 == StagedTables(t0, items[..i + 1])
    ensures var id, q := items[i].produkID, items[i].kuantitas;
      Stage(t.produk[id], |t.logs| + 1, q) == Stage(t0.produk[id], |t0.logs| + 1 + i, q)
  {
    var id, q := items[i].produkID, items[i].kuantitas;
    assert items[..i + 1][i] == items[i];
    DecrementedStep(t0.produk, items, i);
    SavedLogsStep(t0.produk, items, i, |t0.logs| + 1);
    var row := t.produk[id];
    assert Freeze(row) == Freeze(t0.produk[id]);
    var t2 := StagedTables(t0, items[..i + 1]);
    assert t1.produk == t2.produk;
    assert t1.logs == t2.logs;
  }

  lemma StagedDetailsStep(p0: map<nat, Produk>, items: seq<CartItemInput>, i: nat, logBase: nat, staged: seq<DetailTrx>, staged1: seq<DetailTrx>)
    requires i < |items| && Listed(p0, items[..i + 1])
    requires Listed(p0, items[..i]) && staged == StagedDetails(p0, items[..i], logBase)
    requires staged1 == staged + [Stage(p0[items[i].produkID], logBase + i, items[i].kuantitas)]
    ensures staged1 == StagedDetails(p0, items[..i + 1], logBase)
  {
    assert items[..i + 1][..i] == items[..i];
  }

  lemma CartTotalStep(p0: map<nat, Produk>, items: seq<CartItemInput>, i: nat)
    requires i < |items| && Listed(p0, items[..i + 1])
    ensures items[..i + 1][..i] == items[..i] && Listed(p0, items[..i])
    ensures CartTotal(p0, items[..i + 1]) == CartTotal(p0, items[..i]) + Price(p0[items[i].produkID]) * items[i].kuantitas
  {
    assert items[..i + 1][..i] == items[..i];
  }

  /** Saving one more staged line under the header. */
  lemma SavedDetailsStep(staged: seq<DetailTrx>, j: nat, base: nat, trxID: nat)
    requires j < |staged|
    ensures SavedDetails(staged[..j + 1], base, trxID)
         == SavedDetails(staged[..j], base, trxID) + [staged[j].(idTrx := trxID).(id := base + j)]
  {
  }

  // ---------------------------------------------------------------- the cart loop's invariant

  /**
   * The tables after the first `i` lines of the cart went through, with the running
   * total and the staged lines: the loop invariant of the cart loop.
   */
  predicate StagedAfter(
    t: Tables, t0: Tables, items: seq<CartItemInput>, f: Faults, i: nat,
    grandTotal: int, createdDetails: seq<DetailTrx>)
  {
    && i <= |items|
    && CartError(t0.produk, items, f, i).None?
    && Listed(t0.produk, items[..i])
    && t == StagedTables(t0, items[..i])
    && createdDetails == StagedDetails(t0.produk, items[..i], |t0.logs| + 1)
    && grandTotal == CartTotal(t0.produk, items[..i])
  }

  /** A line that goes through takes the invariant from `i` lines to `i + 1`. */
  lemma StagedAfterStep(
    t: Tables, t0: Tables, items: seq<CartItemInput>, f: Faults, i: nat,
    grandTotal: int, createdDetails: seq<DetailTrx>,
    t1: Tables, grandTotal1: int, createdDetails1: seq<DetailTrx>)
    requires i < |items| && StagedAfter(t, t0, items, f, i, grandTotal, createdDetails)
    requires WellKeyed(t0)
    requires StepError(t.produk, items[i], f, i).None?
    requires var id, q := items[i].produkID, items[i].kuantitas;
      var row := t.produk[id];
      && t1 == Tables(t.produk[id := row.(stok := row.stok - q)], t.logs + [Freeze(row).(id := |t.logs| + 1)], t.trxs, t.details)
      && grandTotal1 == grandTotal + Price(row) * q
      && createdDetails1 == createdDetails + [Stage(row, |t.logs| + 1, q)]
    ensures StagedAfter(t1, t0, items, f, i + 1, grandTotal1, createdDetails1)
  {
    var p0 := t0.produk;
    assert LineError(p0, items, f, i).None?;
    assert CartError(p0, items, f, i + 1).None?;
    ListedStep(p0, items, i);
    StagedTablesStep(t0, items, i, t, t1);
    assert Listed(p0, items[..i + 1]);
    assert createdDetails == StagedDetails(p0, items[..i], |t0.logs| + 1);
    assert createdDetails1 == createdDetails + [Stage(p0[items[i].produkID], |t0.logs| + 1 + i, items[i].kuantitas)];
    StagedDetailsStep(p0, items, i, |t0.logs| + 1, createdDetails, createdDetails1);
    CartTotalStep(p0, items, i);
  }

  /** Line `i` fails as a line reading the current product table does, and its failure is the cart's. */
  lemma LineReadsCurrentRow(
    t: Tables, t0: Tables, items: seq<CartItemInput>, f: Faults, i: nat,
    grandTotal: int, createdDetails: seq<DetailTrx>)
    requires i < |items| && StagedAfter(t, t0, items, f, i, grandTotal, createdDetails)
    ensures LineError(t0.produk, items, f, i) == StepError(t.produk, items[i], f, i)
    ensures LineError(t0.produk, items, f, i).Some? ==> CartError(t0.produk, items, f, |items|) == LineError(t0.produk, items, f, i)
  {
    if LineError(t0.produk, items, f, i).Some? {
      CartErrorSticks(t0.produk, items, f, i + 1, |items|);
    }
  }
}
