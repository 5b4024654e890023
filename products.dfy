/**
 Product editing: staging a product's fields, the four field inputs of the
 edit dialog, and the local merge that follows a successful save
 (`prev.map(p => p._id === id ? { ...p, ...data } : p)`).
 */
module ProductEdits {
  import opened Records

  /** Staging a product stores the product object itself: every key it has. */
  function FromProduct(p: Product): (data: ProductFields)
    ensures data.id == Some(p.id)
    ensures Merge(p, data) == p
    ensures forall q: Product :: Merge(q, data).name == p.name && Merge(q, data).price == p.price
                                && Merge(q, data).stockQuantity == p.stockQuantity && Merge(q, data).tags == p.tags
  {
    ProductFields(Some(p.id), Some(p.name), Some(p.price), Some(p.stockQuantity), p.description, p.image, Some(p.tags))
  }

  /** What one input of the edit dialog writes into the staged fields. */
  datatype FieldEdit =
    | EditName(name: string)
    | EditDescription(description: string)
    | EditPrice(price: int)
    | EditStock(stockQuantity: int)

  /** `{ ...data, <key>: value }` for the key the input edits. */
  function ApplyEdit(data: ProductFields, e: FieldEdit): (r: ProductFields)
    ensures r.id == data.id && r.image == data.image && r.tags == data.tags
    ensures r.name == (if e.EditName? then Some(e.name) else data.name)
    ensures r.description == (if e.EditDescription? then Some(e.description) else data.description)
    ensures r.price == (if e.EditPrice? then Some(e.price) else data.price)
    ensures r.stockQuantity == (if e.EditStock? then Some(e.stockQuantity) else data.stockQuantity)
  {
    match e
    case EditName(n) => data.(name := Some(n))
    case EditDescription(d) => data.(description := Some(d))
    case EditPrice(v) => data.(price := Some(v))
    case EditStock(v) => data.(stockQuantity := Some(v))
  }

  /**
   The local update after a successful save: every product whose id is `id`
   becomes `Merge(p, data)`, every other product stays as it was, in place.
   */
  function MergeIntoProducts(ps: seq<Product>, id: string, data: ProductFields): (r: seq<Product>)
    ensures |r| == |ps|
    ensures forall i :: 0 <= i < |ps| && ps[i].id == id ==> r[i] == Merge(ps[i], data)
    ensures forall i :: 0 <= i < |ps| && ps[i].id != id ==> r[i] == ps[i]
  {
    if ps == [] then []
    else [if ps[0].id == id then Merge(ps[0], data) else ps[0]] + MergeIntoProducts(ps[1..], id, data)
  }

  /** Merging the empty object changes nothing. */
  lemma MergeNoFields(p: Product)
    ensures Merge(p, NoFields) == p
  {
  }

  /**
   Saving a staged product without edits writes that product back: every key
   it has wins, and only an absent description or image leaves the target's.
   */
  lemma MergeStaged(p: Product, q: Product)
    ensures Merge(p, FromProduct(q)) ==
      q.(description := if q.description.Some? then q.description else p.description,
         image := if q.image.Some? then q.image else p.image)
    ensures Merge(q, FromProduct(q)) == q
  {
  }

  /** Merging the same fields twice is merging them once. */
  lemma MergeIdempotent(p: Product, data: ProductFields)
    ensures Merge(Merge(p, data), data) == Merge(p, data)
  {
  }

  /**
   After an edit the merged product carries the edited value, and every other
   field is what the staged fields gave before the edit.
   */
  lemma EditTakesEffect(p: Product, data: ProductFields, e: FieldEdit)
    ensures var before, after := Merge(p, data), Merge(p, ApplyEdit(data, e));
      && after.id == before.id && after.image == before.image && after.tags == before.tags
      && after.name == (if e.EditName? then e.name else before.name)
      && after.description == (if e.EditDescription? then Some(e.description) else before.description)
      && after.price == (if e.EditPrice? then e.price else before.price)
      && after.stockQuantity == (if e.EditStock? then e.stockQuantity else before.stockQuantity)
  {
  }

  /** An uploaded image replaces whatever image the staged fields or the product had. */
  lemma UploadedImageWins(p: Product, data: ProductFields, assetId: string)
    ensures Merge(p, data.(image := Some(assetId))).image == Some(assetId)
    ensures Merge(p, data.(image := Some(assetId))) == Merge(p, data).(image := Some(assetId))
  {
  }

  /** When the staged id is absent or the saved id, no product changes its id. */
  lemma MergeKeepsIds(ps: seq<Product>, id: string, data: ProductFields)
    requires data.id == None || data.id == Some(id)
    ensures forall i :: 0 <= i < |ps| ==> MergeIntoProducts(ps, id, data)[i].id == ps[i].id
  {
  }

  /** Saving a product id that no listed product has leaves the list as it was. */
  lemma MergeMissingId(ps: seq<Product>, id: string, data: ProductFields)
    requires forall i :: 0 <= i < |ps| ==> ps[i].id != id
    ensures MergeIntoProducts(ps, id, data) == ps
  {
  }

  /** Repeating a save has no further effect. */
  lemma MergeIntoProductsIdempotent(ps: seq<Product>, id: string, data: ProductFields)
    ensures MergeIntoProducts(MergeIntoProducts(ps, id, data), id, data) == MergeIntoProducts(ps, id, data)
  {
  }
}
