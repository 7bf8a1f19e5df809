/** The sale and sale-item records of internal/domain/vendas.go. */
module Vendas {
  import opened Wrappers
  import opened Sql
  import opened Decimals

  /** `PaymentStatus`, a string type with three named values. */
  type PaymentStatus = string

  const PaymentStatusPending: PaymentStatus := "PENDENTE"
  const PaymentStatusPaid: PaymentStatus := "PAGO"
  const PaymentStatusPartial: PaymentStatus := "PARCIAL"

  /** `SaleItem` */
  datatype SaleItem = SaleItem(
    id: int,
    saleId: int,
    productId: int,
    quantity: int,
    unitPrice: Decimal,
    total: Decimal)

  /** `Sale`; a nil payment date is `None`. */
  datatype Sale = Sale(
    id: int,
    clientId: int,
    dataVenda: Instant,
    total: Decimal,
    paymentDate: Option<Instant>,
    paymentStatus: PaymentStatus,
    items: seq<SaleItem>)

  /** `domain.Sale{}` */
  const ZeroSale := Sale(0, 0, ZeroTime, Absent, None, "", [])
}
