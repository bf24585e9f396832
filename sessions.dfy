/** The parts of an already-fetched completed checkout session that the
    scripts read. Every field the scripts read with `.get(...)` may be
    missing, so it is an `Option`. Amounts are in the smallest currency
    unit and, like quantities, are never negative. */
module Sessions {
  import opened Wrappers

  /** `price.product`: missing, a bare product id, or an expanded product
      object whose `id` may itself be missing. */
  datatype ProductRef =
    | NoProduct
    | ProductId(id: string)
    | ProductObject(objectId: Option<string>)

  datatype Price = Price(product: ProductRef, unitAmount: Option<nat>)

  datatype LineItem = LineItem(quantity: Option<nat>, price: Option<Price>)

  datatype CustomerDetails = CustomerDetails(
    email: Option<string>,
    name: Option<string>,
    phone: Option<string>)

  datatype Session = Session(
    amountTotal: Option<nat>,
    currency: Option<string>,
    details: Option<CustomerDetails>,
    lineItems: Option<seq<LineItem>>)

  /** `item.get("quantity") or 0` */
  function Quantity(item: LineItem): nat {
    item.quantity.GetOr(0)
  }

  /** `(item.get("price") or {}).get("unit_amount") or 0` */
  function UnitAmount(item: LineItem): nat {
    match item.price
    case None => 0
    case Some(p) => p.unitAmount.GetOr(0)
  }

  /** `(item.get("price") or {}).get("product")` */
  function ProductOf(item: LineItem): ProductRef {
    match item.price
    case None => NoProduct
    case Some(p) => p.product
  }

  /** `line_items.get("data", [])`, with missing line items read as none. */
  function Items(s: Session): seq<LineItem> {
    s.lineItems.GetOr([])
  }

  /** `(session.get("customer_details") or {}).get(field) or ""` */
  function EmailOf(s: Session): string {
    match s.details
    case None => ""
    case Some(d) => d.email.GetOr("")
  }

  function NameOf(s: Session): string {
    match s.details
    case None => ""
    case Some(d) => d.name.GetOr("")
  }

  function PhoneOf(s: Session): string {
    match s.details
    case None => ""
    case Some(d) => d.phone.GetOr("")
  }

  /** The product id the customer export reads from a line item
      (`product.get("id") if isinstance(product, dict) else product`
      after `price.get("product") or {}`): an empty id string is falsy
      and is read as the empty object, whose `id` is missing. */
  function ExportProductId(item: LineItem): Option<string> {
    match ProductOf(item)
    case NoProduct => None
    case ProductId(id) => if id == "" then None else Some(id)
    case ProductObject(objectId) => objectId
  }

  /** The product id the revenue summary reads from a line item: none when
      `price.product` is falsy or the object's `id` is missing or empty. */
  function RevenueProductId(item: LineItem): (r: Option<string>)
    ensures r.Some? ==> r.value != ""
  {
    match ProductOf(item)
    case NoProduct => None
    case ProductId(id) => if id == "" then None else Some(id)
    case ProductObject(objectId) =>
      if objectId.None? || objectId.value == "" then None else objectId
  }
}
