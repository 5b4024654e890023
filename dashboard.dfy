/**
 The admin dashboard's component state and its event handlers. Each handler
 runs as one atomic step. The user's answer to a confirmation dialog and the
 outcome of each call to the content store (success or failure, the fetched
 list, the uploaded asset's id) are parameters; each handler returns the calls
 it issued to the store, in order, and the alert it shows at the end.
 */
module AdminPanel {
  import opened Records
  import opened Sequences
  import opened OrderFilter
  import opened OrderMetrics
  import opened ProductEdits

  /** A call to the content store. */
  datatype Request =
    | QueryProducts
    | QueryOrders
    | PatchStatus(orderId: string, status: Option<string>)
    | PatchProduct(productId: string, fields: ProductFields)
    | UploadImage(file: string)
    | DeleteDocument(documentId: string)

  /** The alert a handler shows when it finishes; failures other than a failed order delete show none. */
  datatype Toast = NoToast | Updated | Deleted | DeleteFailed

  class Dashboard {
    var orders: seq<Order>
    var products: seq<Product>
    var metrics: Metrics
    var statusFilter: StatusFilter
    var editProductId: Option<string>
    var editProductData: ProductFields
    /** The staged image file (its name); saving never clears it. */
    var imageFile: Option<string>
    /**
     Staging a product stores that very product object of the list, so an
     in-place write to the staged fields also writes the listed product; this
     is its index while the two are still the same object.
     */
    var stagedAlias: Option<nat>

    ghost predicate Valid()
      reads this
    {
      && (editProductId.Some? ==> editProductData.id == editProductId)
      && (stagedAlias.Some? ==> stagedAlias.value < |products| && FromProduct(products[stagedAlias.value]) == editProductData)
    }

    /** The part of the state the order handlers own. */
    ghost function OrderSide(): (seq<Order>, Metrics, StatusFilter)
      reads this
    {
      (orders, metrics, statusFilter)
    }

    /** The part of the state the product handlers own. */
    ghost function ProductSide(): (seq<Product>, Option<string>, ProductFields, Option<string>, Option<nat>)
      reads this
    {
      (products, editProductId, editProductData, imageFile, stagedAlias)
    }

    /** The initial state: empty lists, zero metrics, filter "all", nothing staged. */
    constructor ()
      ensures Valid()
      ensures orders == [] && products == [] && metrics == ZeroMetrics && statusFilter == All
      ensures metrics == CalculateMetrics(orders)
      ensures editProductId == None && editProductData == NoFields && imageFile == None && stagedAlias == None
    {
      orders, products, metrics, statusFilter := [], [], ZeroMetrics, All;
      editProductId, editProductData, imageFile, stagedAlias := None, NoFields, None, None;
    }

    /** The orders the table shows under the current filter. */
    function VisibleOrders(): (r: seq<Order>)
      reads this
      ensures statusFilter == All ==> r == orders
      ensures statusFilter != All ==> IsSubsequence(r, orders)
      ensures statusFilter != All ==> forall o :: multiset(r)[o] ==
                                        if o.status == Some(Name(statusFilter)) then multiset(orders)[o] else 0
      ensures statusFilter != All ==> forall o :: o in r <==> o in orders && o.status == Some(Name(statusFilter))
    {
      FilterAllIsIdentity(orders);
      if statusFilter == All then FilteredOrders(orders, statusFilter)
      else
        FilterSelectsExactly(orders, statusFilter);
        FilteredOrders(orders, statusFilter)
    }

    /** A filter button. */
    method SetStatusFilter(f: StatusFilter)
      requires Valid()
      modifies this
      ensures Valid()
      ensures statusFilter == f && orders == old(orders) && metrics == old(metrics)
      ensures ProductSide() == old(ProductSide())
    {
      statusFilter := f;
    }

    /** Loading the products; a failed query is not caught, so nothing changes. */
    method FetchProducts(fetched: Option<seq<Product>>) returns (requests: seq<Request>)
      requires Valid()
      modifies this
      ensures Valid()
      ensures requests == [QueryProducts]
      ensures fetched.Some? ==> products == fetched.value && stagedAlias == None
      ensures fetched.None? ==> products == old(products) && stagedAlias == old(stagedAlias)
      ensures editProductId == old(editProductId) && editProductData == old(editProductData) && imageFile == old(imageFile)
      ensures OrderSide() == old(OrderSide())
    {
      requests := [QueryProducts];
      if fetched.Some? {
        products := fetched.value;
        stagedAlias := None;
      }
    }

    /** Loading the orders and recomputing the metrics; a failed query is logged and changes nothing. */
    method FetchOrders(fetched: Option<seq<Order>>) returns (requests: seq<Request>)
      requires Valid()
      modifies this
      ensures Valid()
      ensures requests == [QueryOrders]
      ensures fetched.Some? ==> orders == fetched.value && metrics == CalculateMetrics(orders)
      ensures fetched.None? ==> orders == old(orders) && metrics == old(metrics)
      ensures statusFilter == old(statusFilter) && ProductSide() == old(ProductSide())
    {
      requests := [QueryOrders];
      if fetched.Some? {
        orders := fetched.value;
        metrics := CalculateMetrics(orders);
      }
    }

    /**
     The status buttons of an order row. Declined: no call, no change. Confirmed:
     the status is patched, then the orders are queried again and the metrics
     recomputed; a failed patch is not caught and ends the handler.
     */
    method StatusUpdate(orderId: string, newStatus: Option<string>, confirmed: bool, patchOk: bool, refetched: Option<seq<Order>>)
      returns (requests: seq<Request>, toast: Toast)
      requires Valid()
      modifies this
      ensures Valid()
      ensures !confirmed ==> requests == [] && toast == NoToast
      ensures confirmed && !patchOk ==> requests == [PatchStatus(orderId, newStatus)] && toast == NoToast
      ensures confirmed && patchOk ==> requests == [PatchStatus(orderId, newStatus), QueryOrders] && toast == Updated
      ensures confirmed && patchOk && refetched.Some? ==> orders == refetched.value && metrics == CalculateMetrics(orders)
      ensures !(confirmed && patchOk && refetched.Some?) ==> orders == old(orders) && metrics == old(metrics)
      ensures statusFilter == old(statusFilter) && ProductSide() == old(ProductSide())
    {
      requests, toast := [], NoToast;
      if !confirmed {
        return;
      }
      requests := [PatchStatus(orderId, newStatus)];
      if !patchOk {
        return;
      }
      var query := FetchOrders(refetched);
      requests := requests + query;
      toast := Updated;
    }

    /**
     The delete button of an order row. Declined: no call, no change. Confirmed:
     the order is deleted from the store; on success every order with that id
     leaves the local list (the metrics are not recomputed), on failure the list
     stays and an error alert shows.
     */
    method DeleteOrder(orderId: string, confirmed: bool, deleteOk: bool) returns (requests: seq<Request>, toast: Toast)
      requires Valid()
      modifies this
      ensures Valid()
      ensures !confirmed ==> requests == [] && toast == NoToast
      ensures confirmed ==> requests == [DeleteDocument(orderId)]
      ensures confirmed && deleteOk ==> orders == RemoveOrder(old(orders), orderId) && toast == Deleted
      ensures !(confirmed && deleteOk) ==> orders == old(orders)
      ensures confirmed && !deleteOk ==> toast == DeleteFailed
      ensures metrics == old(metrics) && statusFilter == old(statusFilter) && ProductSide() == old(ProductSide())
    {
      requests, toast := [], NoToast;
      if !confirmed {
        return;
      }
      requests := [DeleteDocument(orderId)];
      if deleteOk {
        orders := RemoveOrder(orders, orderId);
        toast := Deleted;
      } else {
        toast := DeleteFailed;
      }
    }

    /**
     The delete button of a product row. Confirmed: the product is deleted from
     the store, then the products are queried again; a failed delete is not
     caught and ends the handler.
     */
    method DeleteProduct(productId: string, confirmed: bool, deleteOk: bool, refetched: Option<seq<Product>>)
      returns (requests: seq<Request>, toast: Toast)
      requires Valid()
      modifies this
      ensures Valid()
      ensures !confirmed ==> requests == [] && toast == NoToast
      ensures confirmed && !deleteOk ==> requests == [DeleteDocument(productId)] && toast == NoToast
      ensures confirmed && deleteOk ==> requests == [DeleteDocument(productId), QueryProducts] && toast == Deleted
      ensures confirmed && deleteOk && refetched.Some? ==> products == refetched.value && stagedAlias == None
      ensures !(confirmed && deleteOk && refetched.Some?) ==> products == old(products) && stagedAlias == old(stagedAlias)
      ensures editProductId == old(editProductId) && editProductData == old(editProductData) && imageFile == old(imageFile)
      ensures OrderSide() == old(OrderSide())
    {
      requests, toast := [], NoToast;
      if !confirmed {
        return;
      }
      requests := [DeleteDocument(productId)];
      if !deleteOk {
        return;
      }
      var query := FetchProducts(refetched);
      requests := requests + query;
      toast := Deleted;
    }

    /** The edit button of product row `i`: stages that product object as it is. */
    method EditProduct(i: nat)
      requires Valid()
      requires i < |products|
      modifies this
      ensures Valid()
      ensures products == old(products) && imageFile == old(imageFile)
      ensures editProductId == Some(products[i].id) && editProductData == FromProduct(products[i])
      ensures stagedAlias == Some(i)
      ensures OrderSide() == old(OrderSide())
    {
      editProductId := Some(products[i].id);
      editProductData := FromProduct(products[i]);
      stagedAlias := Some(i);
    }

    /** One of the four inputs of the edit dialog: a fresh staged object with that key set. */
    method EditField(e: FieldEdit)
      requires Valid()
      modifies this
      ensures Valid()
      ensures editProductData == ApplyEdit(old(editProductData), e) && stagedAlias == None
      ensures products == old(products) && editProductId == old(editProductId) && imageFile == old(imageFile)
      ensures OrderSide() == old(OrderSide())
    {
      editProductData := ApplyEdit(editProductData, e);
      stagedAlias := None;
    }

    /** The file input of the edit dialog. */
    method ChooseImage(file: Option<string>)
      requires Valid()
      modifies this
      ensures Valid()
      ensures imageFile == file
      ensures products == old(products) && editProductId == old(editProductId)
      ensures editProductData == old(editProductData) && stagedAlias == old(stagedAlias)
      ensures OrderSide() == old(OrderSide())
    {
      imageFile := file;
    }

    /** The cancel button of the edit dialog: only the edited id is cleared. */
    method CancelEdit()
      requires Valid()
      modifies this
      ensures Valid()
      ensures editProductId == None
      ensures products == old(products) && editProductData == old(editProductData)
      ensures imageFile == old(imageFile) && stagedAlias == old(stagedAlias)
      ensures OrderSide() == old(OrderSide())
    {
      editProductId := None;
    }

    /**
     The save button of the edit dialog. Without an edited id (null or empty)
     nothing happens. A staged image is uploaded first and its asset id written
     into the staged fields in place; then the staged fields are patched into the
     store and, on success, merged into every listed product with that id, and
     the edit is cleared. A failure is logged: an upload failure changes nothing,
     a patch failure keeps the edit (with the asset id already written).
     */
    method SaveProduct(uploaded: Option<string>, patchOk: bool) returns (requests: seq<Request>, toast: Toast)
      requires Valid()
      modifies this
      ensures Valid()
      ensures old(editProductId).None? || old(editProductId).value == "" ==>
        requests == [] && toast == NoToast && ProductSide() == old(ProductSide())
      ensures old(editProductId).Some? && old(editProductId).value != "" ==>
        var id := old(editProductId).value;
        var upload := if old(imageFile).Some? then [UploadImage(old(imageFile).value)] else [];
        if old(imageFile).Some? && uploaded.None? then
          requests == upload && toast == NoToast && ProductSide() == old(ProductSide())
        else
          var sent := if old(imageFile).Some? then old(editProductData).(image := uploaded) else old(editProductData);
          && requests == upload + [PatchProduct(id, sent)]
          && imageFile == old(imageFile)
          && (patchOk ==>
                && products == MergeIntoProducts(old(products), id, sent)
                && (forall i :: 0 <= i < |products| ==> products[i].id == old(products)[i].id)
                && editProductId == None && editProductData == NoFields && stagedAlias == None
                && toast == Updated)
          && (!patchOk ==>
                && products == (if old(imageFile).Some? && old(stagedAlias).Some?
                                then var k := old(stagedAlias).value; old(products)[k := old(products)[k].(image := uploaded)]
                                else old(products))
                && editProductId == old(editProductId) && editProductData == sent && stagedAlias == old(stagedAlias)
                && toast == NoToast)
      ensures OrderSide() == old(OrderSide())
    {
      requests, toast := [], NoToast;
      if editProductId.None? || editProductId.value == "" {
        return;
      }
      var id := editProductId.value;
      if imageFile.Some? {
        requests := [UploadImage(imageFile.value)];
        if uploaded.None? {
          return;
        }
        editProductData := editProductData.(image := uploaded);
        if stagedAlias.Some? {
          var k := stagedAlias.value;
          products := products[k := products[k].(image := uploaded)];
          ImageWriteAbsorbed(old(products), k, id, editProductData);
        }
      }
      requests := requests + [PatchProduct(id, editProductData)];
      if !patchOk {
        return;
      }
      products := MergeIntoProducts(products, id, editProductData);
      MergeKeepsIds(old(products), id, editProductData);
      editProductId := None;
      editProductData := NoFields;
      stagedAlias := None;
      toast := Updated;
    }
  }

  /**
   Writing the uploaded image into the listed product being saved does not
   change what the merge yields: the merged fields carry that image anyway.
   */
  lemma ImageWriteAbsorbed(ps: seq<Product>, k: nat, id: string, data: ProductFields)
    requires k < |ps| && ps[k].id == id && data.image.Some?
    ensures MergeIntoProducts(ps[k := ps[k].(image := data.image)], id, data) == MergeIntoProducts(ps, id, data)
  {
  }

  /**
   A successful order delete leaves the metrics as they were, so once an order
   with that id was listed they no longer describe the remaining orders.
   */
  lemma DeleteLeavesMetricsStale(orders: seq<Order>, id: string)
    requires exists i :: 0 <= i < |orders| && orders[i].id == id
    ensures CalculateMetrics(RemoveOrder(orders, id)) != CalculateMetrics(orders)
    ensures CalculateMetrics(RemoveOrder(orders, id)).totalOrders < CalculateMetrics(orders).totalOrders
  {
    RemoveOrderShrinks(orders, id);
  }
}
