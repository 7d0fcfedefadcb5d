/** The rows of the platform's database and the two remote stores, as values. */
module Tables {
  import opened Outcomes

  // ---------- job queue ----------

  datatype JobStatus = Pending | Retrying | Resolved | DeadLetter

  /** What a failed job repeats: its type together with the identifier kept in its payload. */
  datatype Work =
    | OrderWork(order: int)
    | ProductWork(sku: string)
    | InventoryWork(sku: string)
    | UnknownWork

  datatype Job = Job(
    work: Work,
    retryCount: nat,
    maxRetries: nat,
    nextRetryAt: Option<int>,
    status: JobStatus,
    createdAt: int,
    resolvedAt: Option<int>)

  // ---------- orders ----------

  datatype OrderStatus = Pending | Synced | Failed | Cancelled | Refunded

  /** A row of order_mappings; its table is keyed by the WooCommerce order id, which is a unique column. */
  datatype OrderRow = OrderRow(
    odooOrder: Option<Id>,
    number: Option<string>,
    invoice: Option<Id>,
    total: Option<string>,
    status: OrderStatus)

  // ---------- catalogue ----------

  datatype SyncStatus = Pending | Synced | Failed | Skipped

  datatype ProductKind = Simple | Variable

  datatype ProductRow = ProductRow(
    odoo: Id,
    woo: Option<Id>,
    sku: string,
    kind: ProductKind,
    status: SyncStatus)

  datatype VariantRow = VariantRow(
    parent: nat,
    odoo: Id,
    woo: Option<Id>,
    sku: string,
    status: SyncStatus)

  datatype Mappings = Mappings(products: map<nat, ProductRow>, variants: map<nat, VariantRow>)

  datatype Database = Database(
    orders: map<int, OrderRow>,
    customers: map<string, Id>,
    jobs: map<nat, Job>,
    mappings: Mappings)

  // ---------- Odoo ----------

  datatype PartnerKind = Contact | InvoiceAddress | DeliveryAddress

  datatype Partner = Partner(kind: PartnerKind, email: string, parent: Option<Id>)

  datatype PartnerIds = PartnerIds(contact: Id, invoice: Id, delivery: Id)

  datatype OrderLine = OrderLine(product: Id, quantity: int, price: real, name: string)

  /** A sale order.  madeFor records the WooCommerce order it was created for; confirmed that
      action_confirm took effect at some time; cancelled that action_cancel did. */
  datatype SaleOrder = SaleOrder(
    madeFor: int,
    partners: PartnerIds,
    lines: seq<OrderLine>,
    confirmed: bool,
    cancelled: bool)

  datatype Odoo = Odoo(
    partners: map<Id, Partner>,
    nextPartner: Id,
    sales: map<Id, SaleOrder>,
    nextSale: Id)

  /** A product.product record.  data stands for the WooCommerce payload built from it. */
  datatype OdooVariant = OdooVariant(id: Id, template: Id, code: string, active: bool, quantity: real, data: string)

  /** A product.template record.  derived is the parent SKU computed from the SKUs of its variants. */
  datatype OdooProduct = OdooProduct(id: Id, code: string, derived: string, variantCount: nat, data: string)

  // ---------- WooCommerce ----------

  datatype WooProduct = WooProduct(sku: string, data: string)

  datatype Variation = Variation(parent: Id, sku: string, data: string)

  /** The shop.  madeUnder remembers, for every variation ever made, the product it was made under. */
  datatype Woo = Woo(
    products: map<Id, WooProduct>,
    nextProduct: Id,
    variations: map<Id, Variation>,
    nextVariation: Id,
    madeUnder: map<Id, Id>)
}
