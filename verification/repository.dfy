/**
 * The database as checkout sees it: the product table, the three append-only
 * tables it writes, the address table's (address, owner) pairs, and one
 * transaction at a time. Every repository call that can fail takes its failure as
 * an argument (`Some(message)` when the database reports an error).
 */
module Repository {
  import opened Wrappers
  import opened Model

  /** A database error: GORM's record-not-found, or any other failure with its message. */
  datatype DbError = ErrRecordNotFound | DbFailure(message: string)

  /** The durable contents of the tables checkout touches. */
  datatype Tables = Tables(
    produk: map<nat, Produk>,
    logs: seq<LogProduk>,
    trxs: seq<Trx>,
    details: seq<DetailTrx>)

  /** Each product sits under its own primary key. */
  predicate WellKeyed(t: Tables)
  {
    forall id :: id in t.produk ==> t.produk[id].id == id
  }

  class Store {
    var produk: map<nat, Produk>
    var logs: seq<LogProduk>
    var trxs: seq<Trx>
    var details: seq<DetailTrx>
    /** The rows of table alamat, as (address id, owner user id). */
    var alamat: set<(nat, nat)>
    /** A transaction is open. */
    var inTx: bool
    /** The contents when the open transaction began; a rollback restores them. */
    var atBegin: Tables

    function Contents(): Tables
      reads this
    {
      Tables(produk, logs, trxs, details)
    }

    predicate Valid()
      reads this
    {
      WellKeyed(Contents()) && (inTx ==> WellKeyed(atBegin))
    }

    constructor (produk: map<nat, Produk>, alamat: set<(nat, nat)>)
      requires forall id :: id in produk ==> produk[id].id == id
      ensures Valid() && !inTx
      ensures Contents() == Tables(produk, [], [], []) && this.alamat == alamat
    {
      this.produk := produk;
      this.logs := [];
      this.trxs := [];
      this.details := [];
      this.alamat := alamat;
      this.inTx := false;
      this.atBegin := Tables(produk, [], [], []);
    }

    /** The address with this id owned by this user, if the lookup itself succeeds. */
    method FindByIDAndUserID(addressID: nat, userID: nat, fault: Option<string>) returns (err: Option<DbError>)
      ensures fault.Some? ==> err == Some(DbFailure(fault.value))
      ensures fault.None? ==> (err.None? <==> (addressID, userID) in alamat)
      ensures fault.None? && err.Some? ==> err.value == ErrRecordNotFound
    {
      if fault.Some? {
        err := Some(DbFailure(fault.value));
      } else if (addressID, userID) in alamat {
        err := None;
      } else {
        err := Some(ErrRecordNotFound);
      }
    }

    method Begin(fault: Option<string>) returns (err: Option<DbError>)
      requires Valid() && !inTx
      modifies this
      ensures Valid() && Contents() == old(Contents()) && alamat == old(alamat)
      ensures err == if fault.Some? then Some(DbFailure(fault.value)) else None
      ensures err.None? ==> inTx && atBegin == old(Contents())
      ensures err.Some? ==> !inTx
    {
      if fault.Some? {
        err := Some(DbFailure(fault.value));
      } else {
        atBegin := Contents();
        inTx := true;
        err := None;
      }
    }

    /** Discards every write of the open transaction. */
    method Rollback()
      requires Valid() && inTx
      modifies this
      ensures Valid() && !inTx
      ensures Contents() == old(atBegin) && alamat == old(alamat)
    {
      produk, logs, trxs, details := atBegin.produk, atBegin.logs, atBegin.trxs, atBegin.details;
      inTx := false;
    }

    /** Makes the open transaction's writes durable; a failed COMMIT is assumed to keep none of them. */
    method Commit(fault: Option<string>) returns (err: Option<DbError>)
      requires Valid() && inTx
      modifies this
      ensures Valid() && !inTx && alamat == old(alamat)
      ensures err == if fault.Some? then Some(DbFailure(fault.value)) else None
      ensures Contents() == if fault.Some? then old(atBegin) else old(Contents())
    {
      if fault.Some? {
        produk, logs, trxs, details := atBegin.produk, atBegin.logs, atBegin.trxs, atBegin.details;
        err := Some(DbFailure(fault.value));
      } else {
        err := None;
      }
      inTx := false;
    }

    /** `SELECT ... FOR UPDATE` of one product inside the open transaction. */
    method FindByIDWithLock(produkID: nat, fault: Option<string>) returns (r: Result<Produk, DbError>)
      requires inTx
      ensures fault.Some? ==> r == Failure(DbFailure(fault.value))
      ensures fault.None? && produkID !in produk ==> r == Failure(ErrRecordNotFound)
      ensures fault.None? && produkID in produk ==> r == Success(produk[produkID])
    {
      if fault.Some? {
        r := Failure(DbFailure(fault.value));
      } else if produkID in produk {
        r := Success(produk[produkID]);
      } else {
        r := Failure(ErrRecordNotFound);
      }
    }

    /** GORM's Save of a product: an update of every column of the row with the same primary key. */
    method UpdateWithTx(p: Produk, fault: Option<string>) returns (err: Option<DbError>)
      requires Valid() && inTx
      modifies this
      ensures Valid() && inTx && atBegin == old(atBegin) && alamat == old(alamat)
      ensures err == if fault.Some? then Some(DbFailure(fault.value)) else None
      ensures produk == if fault.Some? then old(produk) else old(produk)[p.id := p]
      ensures logs == old(logs) && trxs == old(trxs) && details == old(details)
    {
      if fault.Some? {
        err := Some(DbFailure(fault.value));
      } else {
        produk := produk[p.id := p];
        err := None;
      }
    }

    /** Inserts a product snapshot; the database assigns the next id. */
    method SaveLog(l: LogProduk, fault: Option<string>) returns (saved: LogProduk, err: Option<DbError>)
      requires Valid() && inTx
      modifies this
      ensures Valid() && inTx && atBegin == old(atBegin) && alamat == old(alamat)
      ensures err == if fault.Some? then Some(DbFailure(fault.value)) else None
      ensures err.None? ==> saved == l.(id := |old(logs)| + 1) && logs == old(logs) + [saved]
      ensures err.Some? ==> logs == old(logs)
      ensures produk == old(produk) && trxs == old(trxs) && details == old(details)
    {
      saved := l;
      if fault.Some? {
        err := Some(DbFailure(fault.value));
      } else {
        saved := l.(id := |logs| + 1);
        logs := logs + [saved];
        err := None;
      }
    }

    /** Inserts an order header; the database assigns the next id. */
    method SaveTrx(t: Trx, fault: Option<string>) returns (saved: Trx, err: Option<DbError>)
      requires Valid() && inTx
      modifies this
      ensures Valid() && inTx && atBegin == old(atBegin) && alamat == old(alamat)
      ensures err == if fault.Some? then Some(DbFailure(fault.value)) else None
      ensures err.None? ==> saved == t.(id := |old(trxs)| + 1) && trxs == old(trxs) + [saved]
      ensures err.Some? ==> trxs == old(trxs)
      ensures produk == old(produk) && logs == old(logs) && details == old(details)
    {
      saved := t;
      if fault.Some? {
        err := Some(DbFailure(fault.value));
      } else {
        saved := t.(id := |trxs| + 1);
        trxs := trxs + [saved];
        err := None;
      }
    }

    /** Inserts an order line; the database assigns the next id. */
    method SaveDetail(d: DetailTrx, fault: Option<string>) returns (saved: DetailTrx, err: Option<DbError>)
      requires Valid() && inTx
      modifies this
      ensures Valid() && inTx && atBegin == old(atBegin) && alamat == old(alamat)
      ensures err == if fault.Some? then Some(DbFailure(fault.value)) else None
      ensures err.None? ==> saved == d.(id := |old(details)| + 1) && details == old(details) + [saved]
      ensures err.Some? ==> details == old(details)
      ensures produk == old(produk) && logs == old(logs) && trxs == old(trxs)
    {
      saved := d;
      if fault.Some? {
        err := Some(DbFailure(fault.value));
      } else {
        saved := d.(id := |details| + 1);
        details := details + [saved];
        err := None;
      }
    }
  }
}
