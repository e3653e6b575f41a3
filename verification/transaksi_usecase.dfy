/**
 * The checkout procedure: check the shipping address, open a transaction, lock,
 * check, snapshot and decrement each cart line in order, save the header and then
 * every staged line under it, and commit. Any failure after BEGIN rolls back.
 */
module TransaksiUsecase {
  import opened Wrappers
  import opened GoStrconv
  import opened Model
  import opened Repository
  import opened TransaksiSpec

  /**
   * Checkout for buyer `userID` to address `alamatID`. `uuid` is the text of the
   * fresh UUID the invoice code takes its suffix from; `f` says which database
   * calls fail. The result and the new tables are those `Outcome` and `Committed`
   * specify; a failure leaves every table as it was.
   */
  method CreateTransaksi(
    db: Store, userID: nat, alamatID: nat, methodBayar: string,
    items: seq<CartItemInput>, uuid: string, f: Faults)
    returns (r: Result<Trx, CheckoutError>)
    requires db.Valid() && !db.inTx
    requires |uuid| >= 8
    modifies db
    ensures db.Valid() && !db.inTx && db.alamat == old(db.alamat)
    ensures r == Outcome(old(db.Contents()), old(db.alamat), userID, alamatID, methodBayar, items, uuid, f)
    ensures r.Failure? ==> db.Contents() == old(db.Contents())
    ensures r.Success? ==> Listed(old(db.produk), items) && db.Contents() == Committed(old(db.Contents()), items, r.value)
  {
    ghost var t0 := db.Contents();
    var lookupErr := db.FindByIDAndUserID(alamatID, userID, f.alamat);
    if lookupErr.Some? {
      if lookupErr.value == ErrRecordNotFound {
        return Failure(AlamatNotFound);
      }
      return Failure(AlamatLookupFailed(lookupErr.value));
    }

    var beginErr := db.Begin(f.begin);
    if beginErr.Some? {
      return Failure(BeginFailed(beginErr.value));
    }

    var cartErr, grandTotal, createdDetails := StageCart(db, items, f);
    if cartErr.Some? {
      return Failure(cartErr.value);
    }
    NoCartErrorListed(t0.produk, items, f);

    var newTrx := Trx(0, userID, alamatID, grandTotal, InvoiceCode(userID, uuid), methodBayar);
    var savedTrx, headerErr := db.SaveTrx(newTrx, f.saveHeader);
    if headerErr.Some? {
      db.Rollback();
      return Failure(SaveHeaderFailed(headerErr.value));
    }
    assert savedTrx == Header(t0, userID, alamatID, methodBayar, items, uuid);

    var detailErr := SaveDetails(db, createdDetails, savedTrx.id, f);
    if detailErr.Some? {
      return Failure(SaveDetailFailed(detailErr.value));
    }

    var commitErr := db.Commit(f.commit);
    if commitErr.Some? {
      return Failure(CommitFailed(commitErr.value));
    }
    return Success(savedTrx);
  }

  ghost predicate StagedUpTo(
    db: Store, t0: Tables, items: seq<CartItemInput>, f: Faults, i: nat,
    grandTotal: int, createdDetails: seq<DetailTrx>)
    reads db
  {
    db.Valid() && db.inTx && db.atBegin == t0 && StagedAfter(db.Contents(), t0, items, f, i, grandTotal, createdDetails)
  }

  /**
   * The loop over the cart inside the open transaction. On a failing line it rolls
   * back and reports that line's failure; otherwise every product has lost what the
   * cart asks of it, one snapshot per line has been saved, and it returns the
   * running total and the staged lines.
   */
  method StageCart(db: Store, items: seq<CartItemInput>, f: Faults)
    returns (err: Option<CheckoutError>, grandTotal: int, createdDetails: seq<DetailTrx>)
    requires db.Valid() && db.inTx && db.Contents() == db.atBegin
    modifies db
    ensures db.Valid() && db.alamat == old(db.alamat)
    ensures err == CartError(old(db.produk), items, f, |items|)
    ensures err.Some? ==> !db.inTx && db.Contents() == old(db.Contents())
    ensures err.None? ==>
      && Listed(old(db.produk), items)
      && db.inTx && db.atBegin == old(db.atBegin)
      && db.Contents() == StagedTables(old(db.Contents()), items)
      && createdDetails == StagedDetails(old(db.produk), items, |old(db.logs)| + 1)
      && grandTotal == CartTotal(old(db.produk), items)
  {
    ghost var t0 := db.Contents();
    grandTotal := 0;
    createdDetails := [];
    assert items[..0] == [];

    for i := 0 to |items|
      invariant StagedUpTo(db, t0, items, f, i, grandTotal, createdDetails)
      invariant db.alamat == old(db.alamat)
    {
      err, grandTotal, createdDetails := StageNext(db, t0, items, f, i, grandTotal, createdDetails);
      if err.Some? {
        return;
      }
    }
    assert items[..|items|] == items;
    err := None;
  }

  /**
   * Line `i` of the cart loop, with the first `i` lines through: it fails as the
   * cart does, or it leaves the first `i + 1` lines through.
   */
  method StageNext(
    db: Store, ghost t0: Tables, items: seq<CartItemInput>, f: Faults, i: nat,
    grandTotal: int, createdDetails: seq<DetailTrx>)
    returns (err: Option<CheckoutError>, grandTotal': int, createdDetails': seq<DetailTrx>)
    requires i < |items| && StagedUpTo(db, t0, items, f, i, grandTotal, createdDetails)
    modifies db
    ensures db.Valid() && db.alamat == old(db.alamat)
    ensures err.Some? ==> !db.inTx && db.Contents() == t0 && err == CartError(t0.produk, items, f, |items|)
    ensures err.None? ==> StagedUpTo(db, t0, items, f, i + 1, grandTotal', createdDetails')
  {
    ghost var t := db.Contents();
    LineReadsCurrentRow(t, t0, items, f, i, grandTotal, createdDetails);
    var hargaTotalItem, detailTrx;
    err, hargaTotalItem, detailTrx := StageLine(db, items[i], f, i);
    grandTotal', createdDetails' := grandTotal + hargaTotalItem, createdDetails + [detailTrx];
    if err.None? {
      StagedAfterStep(t, t0, items, f, i, grandTotal, createdDetails, db.Contents(), grandTotal', createdDetails');
    }
  }

  /**
   * One pass of the cart loop, for line number `i`: lock and read the product, check
   * the stock, save the snapshot, price the line, write back the lowered stock. Any
   * failure rolls back. Otherwise it returns the line total and the staged line.
   */
  method StageLine(db: Store, item: CartItemInput, f: Faults, i: nat)
    returns (err: Option<CheckoutError>, hargaTotalItem: int, detailTrx: DetailTrx)
    requires db.Valid() && db.inTx
    modifies db
    ensures db.Valid() && db.alamat == old(db.alamat)
    ensures err == StepError(old(db.produk), item, f, i)
    ensures err.Some? ==> !db.inTx && db.Contents() == old(db.atBegin)
    ensures err.None? ==>
      var row := old(db.produk)[item.produkID];
      && db.inTx && db.atBegin == old(db.atBegin)
      && db.Contents() == Tables(
        old(db.produk)[item.produkID := row.(stok := row.stok - item.kuantitas)],
        old(db.logs) + [Freeze(row).(id := |old(db.logs)| + 1)], old(db.trxs), old(db.details))
      && hargaTotalItem == Price(row) * item.kuantitas
      && detailTrx == Stage(row, |old(db.logs)| + 1, item.kuantitas)
  {
    hargaTotalItem, detailTrx := 0, DetailTrx(0, 0, 0, 0, 0, 0);
    var found := db.FindByIDWithLock(item.produkID, FaultAt(f.lock, i));
    if found.Failure? {
      db.Rollback();
      return Some(ProdukNotFound), hargaTotalItem, detailTrx;
    }
    var produk := found.value;
    if produk.stok < item.kuantitas {
      db.Rollback();
      return Some(StokNotEnough(produk.namaProduk, produk.stok)), hargaTotalItem, detailTrx;
    }

    var savedLog, logErr := db.SaveLog(Freeze(produk), FaultAt(f.saveLog, i));
    if logErr.Some? {
      db.Rollback();
      return Some(SaveLogFailed(logErr.value)), hargaTotalItem, detailTrx;
    }

    var hargaItem := AtoiValue(Atoi(produk.hargaKonsumen));
    hargaTotalItem := hargaItem * item.kuantitas;
    detailTrx := DetailTrx(0, 0, savedLog.id, produk.idToko, item.kuantitas, hargaTotalItem);

    var updateErr := db.UpdateWithTx(produk.(stok := produk.stok - item.kuantitas), FaultAt(f.updateStok, i));
    if updateErr.Some? {
      db.Rollback();
      return Some(UpdateStokFailed(updateErr.value)), hargaTotalItem, detailTrx;
    }
    err := None;
  }

  /**
   * The second loop: every staged line saved in order with the header's id. On a
   * failing insert it rolls back and reports the first failing insert's error.
   */
  method SaveDetails(db: Store, createdDetails: seq<DetailTrx>, trxID: nat, f: Faults)
    returns (err: Option<DbError>)
    requires db.Valid() && db.inTx
    modifies db
    ensures db.Valid() && db.alamat == old(db.alamat)
    ensures err == if DetailFault(f, |createdDetails|).Some? then Some(DbFailure(DetailFault(f, |createdDetails|).value)) else None
    ensures err.Some? ==> !db.inTx && db.Contents() == old(db.atBegin)
    ensures err.None? ==>
      && db.inTx && db.atBegin == old(db.atBegin)
      && db.Contents() == old(db.Contents()).(details := old(db.details) + SavedDetails(createdDetails, |old(db.details)| + 1, trxID))
  {
    ghost var t1 := db.Contents();
    ghost var detailBase := |t1.details| + 1;
    for j := 0 to |createdDetails|
      invariant db.Valid() && db.inTx && db.atBegin == old(db.atBegin) && db.alamat == old(db.alamat)
      invariant DetailFault(f, j).None?
      invariant db.Contents() == t1.(details := t1.details + SavedDetails(createdDetails[..j], detailBase, trxID))
    {
      var detail := createdDetails[j].(idTrx := trxID);
      var _, detailErr := db.SaveDetail(detail, FaultAt(f.saveDetail, j));
      if detailErr.Some? {
        db.Rollback();
        DetailFaultSticks(f, j + 1, |createdDetails|);
        return Some(detailErr.value);
      }
      SavedDetailsStep(createdDetails, j, detailBase, trxID);
    }
    assert createdDetails[..|createdDetails|] == createdDetails;
    err := None;
  }
}
