/**
 * What a checkout guarantees, proved about the specification in
 * transaksi_spec.dfy: when it succeeds, what the order and the stock look like
 * afterwards, when it fails, and why.
 */
module TransaksiProps {
  import opened Wrappers
  import opened GoStrconv
  import opened Model
  import opened Repository
  import opened TransaksiSpec

  /** A run in which no database call fails. */
  function NoFaults(): Faults
  {
    Faults(None, None, map[], map[], map[], None, map[], None)
  }

  /** Line `k` finds its product with enough stock left after the earlier lines of the cart. */
  predicate LineFits(p0: map<nat, Produk>, items: seq<CartItemInput>, k: nat)
    requires k < |items|
  {
    var id := items[k].produkID;
    id in p0 && items[k].kuantitas <= p0[id].stok - Demand(items[..k], id)
  }

  /** Without database failures, line `k` goes through exactly when it fits. */
  lemma LineErrorWithoutFaults(p0: map<nat, Produk>, items: seq<CartItemInput>, k: nat)
    requires k < |items|
    ensures LineError(p0, items, NoFaults(), k).None? <==> LineFits(p0, items, k)
    ensures !LineFits(p0, items, k) ==>
      LineError(p0, items, NoFaults(), k)
        == if items[k].produkID !in p0 then Some(ProdukNotFound)
           else var p := p0[items[k].produkID];
             Some(StokNotEnough(p.namaProduk, p.stok - Demand(items[..k], items[k].produkID)))
  {
  }

  // ---------------------------------------------------------------- when a checkout succeeds

  /**
   * Without database failures, a checkout succeeds exactly when the address belongs
   * to the buyer and every line finds its product with enough stock for it once
   * the earlier lines have taken theirs.
   */
  lemma SucceedsIff(
    t0: Tables, alamat: set<(nat, nat)>, userID: nat, alamatID: nat, methodBayar: string,
    items: seq<CartItemInput>, uuid: string)
    requires |uuid| >= 8
    ensures Outcome(t0, alamat, userID, alamatID, methodBayar, items, uuid, NoFaults()).Success?
        <==> (alamatID, userID) in alamat && forall k :: 0 <= k < |items| ==> LineFits(t0.produk, items, k)
  {
    CartErrorNone(t0.produk, items, NoFaults(), |items|);
    DetailFaultNone(NoFaults(), |items|);
    forall k | 0 <= k < |items|
      ensures LineError(t0.produk, items, NoFaults(), k).None? <==> LineFits(t0.produk, items, k)
    {
      LineErrorWithoutFaults(t0.produk, items, k);
    }
  }

  /**
   * Without database failures, when the address is the buyer's, a checkout fails
   * on the first line that does not fit: "produk not found" for a missing product,
   * otherwise the stock error naming the product and the stock the earlier lines left.
   */
  lemma FirstShortLineFails(
    t0: Tables, alamat: set<(nat, nat)>, userID: nat, alamatID: nat, methodBayar: string,
    items: seq<CartItemInput>, uuid: string, k: nat)
    requires |uuid| >= 8 && (alamatID, userID) in alamat
    requires k < |items| && !LineFits(t0.produk, items, k)
    requires forall j :: 0 <= j < k ==> LineFits(t0.produk, items, j)
    ensures Outcome(t0, alamat, userID, alamatID, methodBayar, items, uuid, NoFaults())
         == Failure(
              if items[k].produkID !in t0.produk then ProdukNotFound
              else var p := t0.produk[items[k].produkID];
                StokNotEnough(p.namaProduk, p.stok - Demand(items[..k], items[k].produkID)))
  {
    FirstShortLineIsCartError(t0.produk, items, k);
    LineErrorWithoutFaults(t0.produk, items, k);
  }

  lemma FirstShortLineIsCartError(p0: map<nat, Produk>, items: seq<CartItemInput>, k: nat)
    requires k < |items| && !LineFits(p0, items, k)
    requires forall j :: 0 <= j < k ==> LineFits(p0, items, j)
    ensures CartError(p0, items, NoFaults(), |items|) == LineError(p0, items, NoFaults(), k)
  {
    var f := NoFaults();
    forall j | 0 <= j < k ensures LineError(p0, items, f, j).None? {
      LineErrorWithoutFaults(p0, items, j);
    }
    CartErrorNone(p0, items, f, k);
    LineErrorWithoutFaults(p0, items, k);
    assert CartError(p0, items, f, k + 1) == LineError(p0, items, f, k);
    CartErrorSticks(p0, items, f, k + 1, |items|);
  }

  // ---------------------------------------------------------------- one line

  /**
   * How one line fails, reading `current` under its lock: it goes through exactly
   * when its product exists, its quantity is at most the row's stock and no write
   * fails; a stock error carries the row's own name and a stock below the quantity;
   * and a line fails only with one of the four line errors.
   */
  lemma StepErrorCases(current: map<nat, Produk>, item: CartItemInput, f: Faults, k: nat)
    ensures var e := StepError(current, item, f, k);
      && (e.None? <==>
            && item.produkID in current && k !in f.lock && item.kuantitas <= current[item.produkID].stok
            && k !in f.saveLog && k !in f.updateStok)
      && (e == Some(ProdukNotFound) <==> item.produkID !in current || k in f.lock)
      && (e.Some? && e.value.StokNotEnough? ==>
            && item.produkID in current
            && e.value == StokNotEnough(current[item.produkID].namaProduk, current[item.produkID].stok)
            && e.value.remaining < item.kuantitas)
      && (e.Some? ==> LineKind(e.value))
  {
  }

  /** The four ways a cart line can fail. */
  predicate LineKind(e: CheckoutError)
  {
    e.ProdukNotFound? || e.StokNotEnough? || e.SaveLogFailed? || e.UpdateStokFailed?
  }

  /** A failing cart fails with one of the four line errors. */
  lemma CartErrorKind(p0: map<nat, Produk>, items: seq<CartItemInput>, f: Faults)
    requires CartError(p0, items, f, |items|).Some?
    ensures LineKind(CartError(p0, items, f, |items|).value)
  {
    CartErrorIsFirst(p0, items, f, |items|);
    var k :| 0 <= k < |items| && LineError(p0, items, f, k) == CartError(p0, items, f, |items|);
    StepErrorCases(Decremented(p0, items[..k]), items[k], f, k);
  }

  /**
   * The checks run in the source's order: a foreign address fails before anything
   * else; a failure of BEGIN, of the header, of a line insert or of COMMIT, and a
   * success, all come after the address was found and, except for BEGIN's, after
   * every cart line went through; COMMIT is reached only when every insert succeeded.
   */
  lemma ChecksInSourceOrder(
    t0: Tables, alamat: set<(nat, nat)>, userID: nat, alamatID: nat, methodBayar: string,
    items: seq<CartItemInput>, uuid: string, f: Faults)
    requires |uuid| >= 8
    ensures var r := Outcome(t0, alamat, userID, alamatID, methodBayar, items, uuid, f);
      && (f.alamat.None? && (alamatID, userID) !in alamat ==> r == Failure(AlamatNotFound))
      && (r.Success? || !(r.error.AlamatNotFound? || r.error.AlamatLookupFailed?) ==>
            f.alamat.None? && (alamatID, userID) in alamat)
      && (r.Success? || r.error.SaveHeaderFailed? || r.error.SaveDetailFailed? || r.error.CommitFailed? ==>
            f.begin.None? && CartError(t0.produk, items, f, |items|).None?)
      && (r.Success? || r.error.CommitFailed? ==> f.saveHeader.None? && DetailFault(f, |items|).None?)
      && (r.Success? ==> f.commit.None?)
  {
    if CartError(t0.produk, items, f, |items|).Some? {
      CartErrorKind(t0.produk, items, f);
    }
  }

  // ---------------------------------------------------------------- what a successful checkout leaves

  /** The header's total is the sum of the totals of the lines saved under it. */
  lemma {:induction false} LineTotalsSum(p0: map<nat, Produk>, items: seq<CartItemInput>, logBase: nat, base: nat, trxID: nat)
    requires Listed(p0, items)
    ensures SumTotals(SavedDetails(StagedDetails(p0, items, logBase), base, trxID)) == CartTotal(p0, items)
  {
    if items != [] {
      var front := items[..|items| - 1];
      assert Listed(p0, front) by {
        forall k | 0 <= k < |front| ensures front[k].produkID in p0 { assert front[k] == items[k]; }
      }
      LineTotalsSum(p0, front, logBase, base, trxID);
      var staged := StagedDetails(p0, items, logBase);
      var ds := SavedDetails(staged, base, trxID);
      assert staged[..|staged| - 1] == StagedDetails(p0, front, logBase);
      assert ds[..|ds| - 1] == SavedDetails(staged[..|staged| - 1], base, trxID);
      assert ds[|ds| - 1].hargaTotal == Price(p0[items[|items| - 1].produkID]) * items[|items| - 1].kuantitas;
    }
  }

  /**
   * After a successful checkout there is one new header, with the next id, the buyer,
   * the address, the payment method and the buyer's invoice code, and the lines
   * saved under it add up to its total.
   */
  lemma OrderTotalIsSumOfLines(
    t0: Tables, alamat: set<(nat, nat)>, userID: nat, alamatID: nat, methodBayar: string,
    items: seq<CartItemInput>, uuid: string, f: Faults)
    requires |uuid| >= 8
    requires Outcome(t0, alamat, userID, alamatID, methodBayar, items, uuid, f).Success?
    ensures var h := Outcome(t0, alamat, userID, alamatID, methodBayar, items, uuid, f).value;
      && Listed(t0.produk, items)
      && var t := Committed(t0, items, h);
      && t.trxs == t0.trxs + [h] && h.id == |t0.trxs| + 1
      && h.idUser == userID && h.alamatPengiriman == alamatID && h.methodBayar == methodBayar
      && h.kodeInvoice == InvoiceCode(userID, uuid)
      && |t.details| >= |t0.details|
      && SumTotals(t.details[|t0.details|..]) == h.hargaTotal
  {
    NoCartErrorListed(t0.produk, items, f);
    var h := Outcome(t0, alamat, userID, alamatID, methodBayar, items, uuid, f).value;
    var t := Committed(t0, items, h);
    assert t.details[|t0.details|..] == SavedDetails(StagedDetails(t0.produk, items, |t0.logs| + 1), |t0.details| + 1, h.id);
    LineTotalsSum(t0.produk, items, |t0.logs| + 1, |t0.details| + 1, h.id);
  }

  /**
   * After a successful checkout, line `k` of the cart has its own snapshot and its
   * own order line, in cart order: the snapshot copies the product as it was
   * (name, prices, store), the order line points at that snapshot and at the new
   * header and carries the line's quantity and its total at the snapshot's price.
   * Rows that were there before stay as they were.
   */
  lemma LinesPointAtTheirSnapshots(
    t0: Tables, alamat: set<(nat, nat)>, userID: nat, alamatID: nat, methodBayar: string,
    items: seq<CartItemInput>, uuid: string, f: Faults, k: nat)
    requires |uuid| >= 8 && WellKeyed(t0)
    requires Outcome(t0, alamat, userID, alamatID, methodBayar, items, uuid, f).Success?
    requires k < |items|
    ensures var h := Outcome(t0, alamat, userID, alamatID, methodBayar, items, uuid, f).value;
      && Listed(t0.produk, items)
      && LineRows(t0, items, Committed(t0, items, h), h.id, k)
  {
    NoCartErrorListed(t0.produk, items, f);
    var h := Outcome(t0, alamat, userID, alamatID, methodBayar, items, uuid, f).value;
    CommittedLineRows(t0, items, h, k);
  }

  /** In `t`, the snapshot and the order line of line `k` follow the rows `t0` had and describe that line. */
  predicate LineRows(t0: Tables, items: seq<CartItemInput>, t: Tables, trxID: nat, k: nat)
    requires k < |items| && Listed(t0.produk, items)
  {
    && |t.logs| == |t0.logs| + |items| && |t.details| == |t0.details| + |items|
    && t.logs[..|t0.logs|] == t0.logs && t.details[..|t0.details|] == t0.details
    && var p := t0.produk[items[k].produkID];
    && var l := t.logs[|t0.logs| + k];
    && var d := t.details[|t0.details| + k];
    && l.id == |t0.logs| + 1 + k && l.idProduk == items[k].produkID
    && l.idToko == p.idToko && l.idCategory == p.idCategory
    && l.namaProduk == p.namaProduk && l.slug == p.slug
    && l.hargaKonsumen == p.hargaKonsumen && l.hargaReseller == p.hargaReseller && l.deskripsi == p.deskripsi
    && d.id == |t0.details| + 1 + k && d.idTrx == trxID && d.idLogProduk == l.id
    && d.idToko == p.idToko && d.kuantitas == items[k].kuantitas
    && d.hargaTotal == AtoiValue(Atoi(l.hargaKonsumen)) * items[k].kuantitas
  }

  lemma CommittedLineRows(t0: Tables, items: seq<CartItemInput>, h: Trx, k: nat)
    requires WellKeyed(t0) && Listed(t0.produk, items) && k < |items|
    ensures LineRows(t0, items, Committed(t0, items, h), h.id, k)
  {
    var t := Committed(t0, items, h);
    var logBase := |t0.logs| + 1;
    var logs := SavedLogs(t0.produk, items, logBase);
    var staged := StagedDetails(t0.produk, items, logBase);
    var saved := SavedDetails(staged, |t0.details| + 1, h.id);
    assert t.logs == t0.logs + logs && t.details == t0.details + saved;
    assert t.logs[|t0.logs| + k] == logs[k];
    assert t.details[|t0.details| + k] == saved[k];
  }

  /** A product no line names keeps its row. */
  lemma {:induction false} DemandOfUnnamed(items: seq<CartItemInput>, id: nat)
    requires forall k :: 0 <= k < |items| ==> items[k].produkID != id
    ensures Demand(items, id) == 0
  {
    if items != [] {
      var front := items[..|items| - 1];
      forall k | 0 <= k < |front| ensures front[k].produkID != id { assert front[k] == items[k]; }
      DemandOfUnnamed(front, id);
    }
  }

  /** After the first `n` lines went through, every product they name has no negative stock. */
  lemma {:induction false} NamedStockNonNegative(p0: map<nat, Produk>, items: seq<CartItemInput>, f: Faults, n: nat)
    requires n <= |items| && CartError(p0, items, f, n).None?
    ensures forall k :: 0 <= k < n ==>
      items[k].produkID in p0 && Decremented(p0, items[..n])[items[k].produkID].stok >= 0
  {
    if n > 0 {
      assert CartError(p0, items, f, n - 1).None? && LineError(p0, items, f, n - 1).None?;
      NamedStockNonNegative(p0, items, f, n - 1);
      var front, next := items[..n - 1], items[..n];
      assert next[..n - 1] == front && next[n - 1] == items[n - 1];
      var id, q := items[n - 1].produkID, items[n - 1].kuantitas;
      var m0, m1 := Decremented(p0, front), Decremented(p0, next);
      assert id in m0 && m0[id].stok >= q;
      forall k | 0 <= k < n ensures items[k].produkID in p0 && m1[items[k].produkID].stok >= 0 {
        var x := items[k].produkID;
        assert Demand(next, x) == Demand(front, x) + (if x == id then q else 0);
        assert m1[x].stok == m0[x].stok - (if x == id then q else 0);
      }
    }
  }

  /**
   * A successful checkout leaves no product the cart names with negative stock, and
   * leaves every product the cart does not name exactly as it was.
   */
  lemma StockAfterCheckout(
    t0: Tables, alamat: set<(nat, nat)>, userID: nat, alamatID: nat, methodBayar: string,
    items: seq<CartItemInput>, uuid: string, f: Faults)
    requires |uuid| >= 8
    requires Outcome(t0, alamat, userID, alamatID, methodBayar, items, uuid, f).Success?
    ensures var h := Outcome(t0, alamat, userID, alamatID, methodBayar, items, uuid, f).value;
      && Listed(t0.produk, items)
      && var t := Committed(t0, items, h);
      && t.produk.Keys == t0.produk.Keys
      && (forall k :: 0 <= k < |items| ==> t.produk[items[k].produkID].stok >= 0)
      && (forall id :: id in t0.produk && (forall k :: 0 <= k < |items| ==> items[k].produkID != id) ==> t.produk[id] == t0.produk[id])
  {
    NoCartErrorListed(t0.produk, items, f);
    NamedStockNonNegative(t0.produk, items, f, |items|);
    assert items[..|items|] == items;
    forall id | id in t0.produk && (forall k :: 0 <= k < |items| ==> items[k].produkID != id)
      ensures Decremented(t0.produk, items)[id] == t0.produk[id]
    {
      DemandOfUnnamed(items, id);
    }
  }

  /** An empty cart makes an order with a total of 0 and no lines, and takes no stock. */
  lemma EmptyCart(t0: Tables, alamat: set<(nat, nat)>, userID: nat, alamatID: nat, methodBayar: string, uuid: string)
    requires |uuid| >= 8 && (alamatID, userID) in alamat
    ensures var r := Outcome(t0, alamat, userID, alamatID, methodBayar, [], uuid, NoFaults());
      && r.Success? && r.value.hargaTotal == 0
      && Committed(t0, [], r.value) == t0.(trxs := t0.trxs + [r.value])
  {
    var r := Outcome(t0, alamat, userID, alamatID, methodBayar, [], uuid, NoFaults());
    var t := Committed(t0, [], r.value);
    assert t.produk == t0.produk;
  }

  /**
   * A snapshot records every column of the product except its stock: two products
   * have the same snapshot exactly when they differ at most in stock.
   */
  lemma SnapshotKeepsAllButStock(p: Produk, q: Produk)
    ensures Freeze(p).idProduk == p.id
    ensures Freeze(p) == Freeze(q) <==> p.(stok := 0) == q.(stok := 0)
  {
  }

  /**
   * A staged line agrees with the snapshot it points at: the product's store, the
   * line's quantity, and a total equal to the snapshot's consumer price, read by
   * Atoi, times the quantity.
   */
  lemma StagedLineMatchesSnapshot(p: Produk, logID: nat, q: int)
    ensures var l := Freeze(p).(id := logID);
      var d := Stage(p, logID, q);
      && d.idLogProduk == l.id && d.idToko == l.idToko && d.kuantitas == q
      && d.hargaTotal == AtoiValue(Atoi(l.hargaKonsumen)) * q
  {
  }

  /** What the cart asks of a product adds up over consecutive parts of the cart. */
  lemma {:induction false} DemandSplits(a: seq<CartItemInput>, b: seq<CartItemInput>, id: nat)
    ensures Demand(a + b, id) == Demand(a, id) + Demand(b, id)
  {
    if b == [] {
      assert a + b == a;
    } else {
      var front := b[..|b| - 1];
      assert (a + b)[..|a + b| - 1] == a + front;
      DemandSplits(a, front, id);
    }
  }

  /**
   * A checkout changes no column of a product but its stock, which drops by what the
   * cart asks of it, and only appends to the snapshot, header and line tables.
   */
  lemma CommittedChangesOnlyStock(t0: Tables, items: seq<CartItemInput>, h: Trx)
    requires Listed(t0.produk, items)
    ensures var t := Committed(t0, items, h);
      && t.produk.Keys == t0.produk.Keys
      && (forall id :: id in t0.produk ==>
            && t.produk[id].(stok := 0) == t0.produk[id].(stok := 0)
            && t.produk[id].stok == t0.produk[id].stok - Demand(items, id))
      && |t.logs| == |t0.logs| + |items| && t.logs[..|t0.logs|] == t0.logs
      && t.trxs == t0.trxs + [h]
      && |t.details| == |t0.details| + |items| && t.details[..|t0.details|] == t0.details
  {
    var t := Committed(t0, items, h);
    assert t.logs[..|t0.logs|] == t0.logs;
    assert t.details[..|t0.details|] == t0.details;
  }

  // ---------------------------------------------------------------- invoice codes

  /** The number of decimal digits `s` starts with. */
  function LeadingDigits(s: string): nat
  {
    if s == [] || !IsDigit(s[0]) then 0 else 1 + LeadingDigits(s[1..])
  }

  lemma {:induction false} LeadingDigitsOfNumber(a: string, rest: string)
    requires AllDigits(a) && rest != [] && !IsDigit(rest[0])
    ensures LeadingDigits(a + rest) == |a|
  {
    if a != [] {
      assert (a + rest)[1..] == a[1..] + rest;
      assert AllDigits(a[1..]) by {
        forall k | 0 <= k < |a| - 1 ensures IsDigit(a[1..][k]) { assert a[1..][k] == a[k + 1]; }
      }
      LeadingDigitsOfNumber(a[1..], rest);
    } else {
      assert a + rest == rest;
    }
  }

  /** Two digit strings each followed by '/' start the same text only if they are equal. */
  lemma SlashAfterDigits(a: string, b: string, x: string, y: string)
    requires AllDigits(a) && AllDigits(b)
    requires a + "/" + x == b + "/" + y
    ensures a == b && x == y
  {
    var s := a + "/" + x;
    assert s == a + ("/" + x) && s == b + ("/" + y);
    LeadingDigitsOfNumber(a, "/" + x);
    LeadingDigitsOfNumber(b, "/" + y);
    assert a == s[..|a|] == b;
    assert x == s[|a| + 1..] == y;
  }

  /** The invoice code names the buyer and the UUID prefix it was made from: equal codes mean equal both. */
  lemma InvoiceCodeIdentifiesBuyer(u1: nat, uuid1: string, u2: nat, uuid2: string)
    requires |uuid1| >= 8 && |uuid2| >= 8
    requires InvoiceCode(u1, uuid1) == InvoiceCode(u2, uuid2)
    ensures u1 == u2 && uuid1[..8] == uuid2[..8]
  {
    var c1, c2 := InvoiceCode(u1, uuid1), InvoiceCode(u2, uuid2);
    assert c1[4..] == FormatUint(u1) + "/" + uuid1[..8];
    assert c2[4..] == FormatUint(u2) + "/" + uuid2[..8];
    SlashAfterDigits(FormatUint(u1), FormatUint(u2), uuid1[..8], uuid2[..8]);
    FormatUintInjective(u1, u2);
  }

  /** Only the first 8 characters of the UUID enter the code: two UUIDs sharing them give one buyer the same code. */
  lemma SameBuyerSamePrefixCollides()
    ensures InvoiceCode(3, "01234567-aaaa") == InvoiceCode(3, "01234567-bbbb")
    ensures "01234567-aaaa" != "01234567-bbbb"
  {
    assert "01234567-aaaa"[..8] == "01234567-bbbb"[..8];
    assert "01234567-aaaa"[9] != "01234567-bbbb"[9];
  }

  /** The buyer's id can be read back from the invoice code with Atoi. */
  lemma InvoiceCodeNamesUser(userID: nat, uuid: string)
    requires |uuid| >= 8 && userID <= MaxInt64
    ensures var c := InvoiceCode(userID, uuid); Atoi(c[4..|c| - 9]) == Int(userID)
  {
    var c := InvoiceCode(userID, uuid);
    assert c[4..|c| - 9] == FormatInt(userID);
    AtoiFormatInt(userID);
  }

  // ---------------------------------------------------------------- prices

  /** A price text that is not plain digits, such as "15000.00", counts as 0. */
  lemma MalformedPriceIsZero(p: Produk)
    requires |p.hargaKonsumen| < 19 && !IsDecimal(p.hargaKonsumen)
    ensures Price(p) == 0
  {
    AtoiShortText(p.hargaKonsumen);
  }

  lemma DecimalPointPrice()
    ensures !IsDecimal("15000.00")
  {
    assert Unsigned("15000.00") == "15000.00";
    assert !IsDigit("15000.00"[5]);
  }

  /** A price stored as the decimal text of a 64-bit number is that number. */
  lemma CanonicalPrice(p: Produk, n: int)
    requires MinInt64 <= n <= MaxInt64 && p.hargaKonsumen == FormatInt(n)
    ensures Price(p) == n
  {
    AtoiFormatInt(n);
  }

  /** Every price lies in the int64 range: Atoi clamps an overflowing text and gives 0 for a malformed one. */
  lemma PriceInInt64(p: Produk)
    ensures MinInt64 <= Price(p) <= MaxInt64
    ensures Atoi(p.hargaKonsumen).SyntaxError? ==> Price(p) == 0
  {
  }

  // ---------------------------------------------------------------- error texts

  /**
   * The text of a failure tells which step failed, except for the address lookup
   * and BEGIN, which hand the database's error on unchanged.
   */
  lemma MessagesTellStepsApart(e1: CheckoutError, e2: CheckoutError)
    requires !e1.AlamatLookupFailed? && !e1.BeginFailed? && !e2.AlamatLookupFailed? && !e2.BeginFailed?
    requires Message(e1) == Message(e2)
    ensures e1.AlamatNotFound? == e2.AlamatNotFound? && e1.ProdukNotFound? == e2.ProdukNotFound?
    ensures e1.StokNotEnough? == e2.StokNotEnough? && e1.SaveLogFailed? == e2.SaveLogFailed?
    ensures e1.UpdateStokFailed? == e2.UpdateStokFailed? && e1.SaveHeaderFailed? == e2.SaveHeaderFailed?
    ensures e1.SaveDetailFailed? == e2.SaveDetailFailed? && e1.CommitFailed? == e2.CommitFailed?
  {
    MessageSignature(e1);
    MessageSignature(e2);
  }

  /** Characters 0, 5 and 10 of a message, which differ between the steps. */
  lemma MessageSignature(e: CheckoutError)
    requires !e.AlamatLookupFailed? && !e.BeginFailed?
    ensures var m := Message(e);
      && |m| > 10
      && (e.AlamatNotFound? <==> m[0] == 'a')
      && (e.ProdukNotFound? <==> m[0] == 'p')
      && (e.StokNotEnough? <==> m[0] == 's')
      && (e.SaveLogFailed? <==> m[0] == 'f' && m[5] == 's' && m[10] == 'l')
      && (e.SaveHeaderFailed? <==> m[0] == 'f' && m[5] == 's' && m[10] == 'h')
      && (e.SaveDetailFailed? <==> m[0] == 'f' && m[5] == 's' && m[10] == 'd')
      && (e.UpdateStokFailed? <==> m[0] == 'f' && m[5] == 'u')
      && (e.CommitFailed? <==> m[0] == 'f' && m[5] == 'c')
  {
  }

  /** The remaining stock in a stock error's text reads back, with Atoi, as the number. */
  lemma StockMessageCarriesRemaining(n: string, s: int)
    requires MinInt64 <= s <= MaxInt64
    ensures var m := Message(StokNotEnough(n, s));
      var head := "stok for produk '" + n + "' is not enough (remaining: ";
      && |m| > |head| && m[..|head|] == head && m[|m| - 1] == ')'
      && Atoi(m[|head|..|m| - 1]) == Int(s)
  {
    var m := Message(StokNotEnough(n, s));
    var head := "stok for produk '" + n + "' is not enough (remaining: ";
    assert m == head + FormatInt(s) + ")";
    assert m[|head|..|m| - 1] == FormatInt(s);
    AtoiFormatInt(s);
  }

  // ---------------------------------------------------------------- one product, five in stock

  /** A product with 5 units in stock at a consumer price of "10000". */
  function Kopi(): Produk
  {
    Produk(1, 1, 1, "Kopi", "kopi", "9000", "10000", 5, "")
  }

  /** A shop holding only that product, and an address 7 that belongs to buyer 3. */
  function Shelf(): Tables
  {
    Tables(map[1 := Kopi()], [], [], [])
  }

  function BuyerAddresses(): set<(nat, nat)>
  {
    {(7, 3)}
  }

  lemma KopiPrice()
    ensures Price(Kopi()) == 10000
  {
    assert FormatUint(1) == "1";
    assert FormatUint(10) == "10";
    assert FormatUint(100) == "100";
    assert FormatUint(1000) == "1000";
    assert FormatUint(10000) == "10000";
    CanonicalPrice(Kopi(), 10000);
  }

  /** Buying all 5 units succeeds, costs 5 x 10000 and leaves the stock at 0. */
  lemma BuyingTheLastUnits()
    ensures var items := [CartItemInput(1, 5)];
      var r := Outcome(Shelf(), BuyerAddresses(), 3, 7, "COD", items, "0123456789", NoFaults());
      && r == Success(Trx(1, 3, 7, 50000, "INV/3/01234567", "COD"))
      && Committed(Shelf(), items, r.value).produk[1].stok == 0
  {
    KopiPrice();
    var items := [CartItemInput(1, 5)];
    var f := NoFaults();
    assert items[..0] == [];
    assert LineError(Shelf().produk, items, f, 0).None?;
    assert CartTotal(Shelf().produk, items) == 50000 by {
      assert items[..0] == [];
    }
    assert FormatUint(3) == "3";
    assert "0123456789"[..8] == "01234567";
    assert InvoiceCode(3, "0123456789") == "INV/3/01234567";
    assert Demand(items, 1) == 5 by {
      assert items[..0] == [];
    }
    var r := Outcome(Shelf(), BuyerAddresses(), 3, 7, "COD", items, "0123456789", NoFaults());
    assert r == Success(Trx(1, 3, 7, 50000, "INV/3/01234567", "COD"));
  }

  /** Asking for 6 fails with the stock error that names the product and its 5 remaining units. */
  lemma OneTooMany()
    ensures Outcome(Shelf(), BuyerAddresses(), 3, 7, "COD", [CartItemInput(1, 6)], "0123456789", NoFaults())
         == Failure(StokNotEnough("Kopi", 5))
  {
    var items := [CartItemInput(1, 6)];
    assert items[..0] == [];
    assert !LineFits(Shelf().produk, items, 0);
    FirstShortLineFails(Shelf(), BuyerAddresses(), 3, 7, "COD", items, "0123456789", 0);
  }

  /** The text the buyer reads for that failure. */
  lemma OneTooManyMessage()
    ensures Message(StokNotEnough("Kopi", 5)) == "stok for produk 'Kopi' is not enough (remaining: 5)"
  {
    assert FormatInt(5) == "5";
    var m := Message(StokNotEnough("Kopi", 5));
    assert m == "stok for produk '" + "Kopi" + "' is not enough (remaining: " + "5" + ")";
    assert "stok for produk '" + "Kopi" == "stok for produk 'Kopi";
    assert "' is not enough (remaining: " + "5" + ")" == "' is not enough (remaining: 5)";
    JoinedMessage();
  }

  lemma JoinedMessage()
    ensures "stok for produk 'Kopi" + "' is not enough (remaining: 5)" == "stok for produk 'Kopi' is not enough (remaining: 5)"
  {
  }

  /** Two lines of 3 for the same product: the second sees the first's decrement and fails with 2 remaining. */
  lemma SameProductTwice()
    ensures Outcome(Shelf(), BuyerAddresses(), 3, 7, "COD", [CartItemInput(1, 3), CartItemInput(1, 3)], "0123456789", NoFaults())
         == Failure(StokNotEnough("Kopi", 2))
  {
    var items := [CartItemInput(1, 3), CartItemInput(1, 3)];
    assert items[..0] == [] && items[..1] == [items[0]];
    assert [items[0]][..0] == [];
    assert Demand(items[..1], 1) == 3;
  }

  /** Nothing rejects a negative quantity: the line passes the stock check, refunds its total and restocks the product. */
  lemma NegativeQuantityRestocks()
    ensures var items := [CartItemInput(1, -2)];
      var r := Outcome(Shelf(), BuyerAddresses(), 3, 7, "COD", items, "0123456789", NoFaults());
      && r.Success? && r.value.hargaTotal == -20000
      && Committed(Shelf(), items, r.value).produk[1].stok == 7
  {
    KopiPrice();
    var items := [CartItemInput(1, -2)];
    assert items[..0] == [];
    assert Demand(items, 1) == -2 by {
      assert items[..0] == [];
    }
  }

  /** Someone else's address is refused before anything else happens. */
  lemma ForeignAddress()
    ensures Outcome(Shelf(), BuyerAddresses(), 4, 7, "COD", [CartItemInput(1, 1)], "0123456789", NoFaults())
         == Failure(AlamatNotFound)
  {
  }
}
