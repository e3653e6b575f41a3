/**
 * The rows checkout reads and writes. Timestamps and the GORM association fields
 * (photos, category, store, address) are not part of the model.
 */
module Model {

  /** A catalogue product; both prices are decimal text, `stok` is the only field checkout changes. */
  datatype Produk = Produk(
    id: nat,
    idToko: nat,
    idCategory: nat,
    namaProduk: string,
    slug: string,
    hargaReseller: string,
    hargaKonsumen: string,
    stok: int,
    deskripsi: string)

  /** A copy of a product's sale-relevant fields, written once per cart line. */
  datatype LogProduk = LogProduk(
    id: nat,
    idProduk: nat,
    idToko: nat,
    idCategory: nat,
    namaProduk: string,
    slug: string,
    hargaReseller: string,
    hargaKonsumen: string,
    deskripsi: string)

  /** An order header. */
  datatype Trx = Trx(
    id: nat,
    idUser: nat,
    alamatPengiriman: nat,
    hargaTotal: int,
    kodeInvoice: string,
    methodBayar: string)

  /** An order line. */
  datatype DetailTrx = DetailTrx(
    id: nat,
    idTrx: nat,
    idLogProduk: nat,
    idToko: nat,
    kuantitas: int,
    hargaTotal: int)
}
