/**
 The records the admin dashboard holds: orders and products as fetched from the
 content store, the partial product field set an edit stages, and the summary
 metrics shown above the order table. Amounts (`total`, `discount`, `price`)
 are integers here.
 */
module Records {

  datatype Option<T> = None | Some(value: T) {
    /** The value, or `default` when there is none. */
    function GetOr(default: T): T {
      match this
      case Some(v) => v
      case None => default
    }
  }

  /** A line item of an order: a snapshot of a product's name and image asset reference. */
  datatype CartItem = CartItem(name: string, image: Option<string>)

  /** An order; `status` is free text (the UI offers "pending", "dispatch", "success") or null. */
  datatype Order = Order(
    id: string,
    firstName: string,
    lastName: string,
    phone: string,
    email: string,
    address: string,
    city: string,
    zipCode: string,
    total: int,
    discount: int,
    orderDate: string,
    status: Option<string>,
    cartItems: seq<CartItem>)

  /** A product; `description` and `image` may be absent. */
  datatype Product = Product(
    id: string,
    name: string,
    price: int,
    stockQuantity: int,
    description: Option<string>,
    image: Option<string>,
    tags: string)

  /**
   A partial product (`Partial<Product>`): `None` is a key that is absent, and
   an absent key leaves the product's own value in place when merged.
   */
  datatype ProductFields = ProductFields(
    id: Option<string>,
    name: Option<string>,
    price: Option<int>,
    stockQuantity: Option<int>,
    description: Option<string>,
    image: Option<string>,
    tags: Option<string>)

  /** The empty object `{}`. */
  const NoFields := ProductFields(None, None, None, None, None, None, None)

  /** The summary shown above the order table. */
  datatype Metrics = Metrics(totalRevenue: int, totalOrders: nat, totalCustomers: nat, pendingDeliveries: nat)

  const ZeroMetrics := Metrics(0, 0, 0, 0)

  /** `{ ...p, ...fields }`: every key present in `fields` overrides the product's value. */
  function Merge(p: Product, fields: ProductFields): (q: Product)
    ensures q.id == (if fields.id.Some? then fields.id.value else p.id)
    ensures q.name == (if fields.name.Some? then fields.name.value else p.name)
    ensures q.price == (if fields.price.Some? then fields.price.value else p.price)
    ensures q.stockQuantity == (if fields.stockQuantity.Some? then fields.stockQuantity.value else p.stockQuantity)
    ensures q.description == (if fields.description.Some? then fields.description else p.description)
    ensures q.image == (if fields.image.Some? then fields.image else p.image)
    ensures q.tags == (if fields.tags.Some? then fields.tags.value else p.tags)
  {
    Product(
      fields.id.GetOr(p.id),
      fields.name.GetOr(p.name),
      fields.price.GetOr(p.price),
      fields.stockQuantity.GetOr(p.stockQuantity),
      if fields.description.Some? then fields.description else p.description,
      if fields.image.Some? then fields.image else p.image,
      fields.tags.GetOr(p.tags))
  }
}
