/** The add/edit product form: prefilling from the product being edited, validating the
    text fields, and dispatching to `addProduct` or `updateProduct`. */
module ProductForm {
  import opened Common
  import opened Text
  import opened Database
  import opened Inventory

  /** The form's text fields and the (never edited) image. */
  datatype Form = Form(name: string, price: string, stock: string, image: Option<string>)

  const EmptyForm := Form("", "", "", None)

  /** The screen edits when its route carries a non-empty id (`!!id`). */
  predicate IsEditing(routeId: Option<string>)
  {
    routeId.Some? && routeId.value != ""
  }

  /** `products.find(p => p.id === id)`. */
  function FindProduct(products: seq<Product>, id: string): (r: Option<Product>)
    ensures r.Some? <==> exists i :: 0 <= i < |products| && products[i].id == id
    ensures r.Some? ==> r.value.id == id && r.value in products
    decreases |products|
  {
    if |products| == 0 then None
    else if products[0].id == id then Some(products[0])
    else
      assert forall i :: 1 <= i < |products| ==> products[i] == products[1..][i - 1];
      FindProduct(products[1..], id)
  }

  /** The prefilling effect: when editing a listed product, the fields show its name, its
      price and stock as decimal text, and its image; otherwise they stay empty. */
  function Prefill(products: seq<Product>, routeId: Option<string>): (f: Form)
    ensures !IsEditing(routeId) ==> f == EmptyForm
    ensures IsEditing(routeId) && FindProduct(products, routeId.value).None? ==> f == EmptyForm
    ensures IsEditing(routeId) && FindProduct(products, routeId.value).Some? ==>
              var p := FindProduct(products, routeId.value).value;
              && f.name == p.name && f.image == p.image
              && ParseInt(f.price) == Some(p.price) && ParseInt(f.stock) == Some(p.stock)
  {
    if IsEditing(routeId) then
      match FindProduct(products, routeId.value)
      case Some(p) =>
        ParseIntOfIntToString(p.price);
        ParseIntOfIntToString(p.stock);
        Form(p.name, IntToString(p.price), IntToString(p.stock), p.image)
      case None => EmptyForm
    else EmptyForm
  }

  /** What pressing Save does. */
  datatype Save =
    | MissingField                          // 'Mohon lengkapi semua data'
    | NotANumber                            // 'Harga dan stok harus angka'
    | CallAdd(product: NewProduct)
    | CallUpdate(id: string, patch: Patch)

  /** `handleSave`. `parsePrice` stands for `parseFloat` (`None` for `NaN`); the stock goes
      through `parseInt`. Only empty and non-numeric fields are refused: any number, zero or
      negative included, reaches the store. */
  function HandleSave(routeId: Option<string>, f: Form, parsePrice: string -> Option<int>): (r: Save)
    ensures r.MissingField? <==> f.name == "" || f.price == "" || f.stock == ""
    ensures r.NotANumber? <==> f.name != "" && f.price != "" && f.stock != ""
                               && (parsePrice(f.price).None? || ParseInt(f.stock).None?)
    ensures r.CallAdd? ==>
              && !IsEditing(routeId)
              && r.product == NewProduct(f.name, parsePrice(f.price).value, ParseInt(f.stock).value, f.image)
    ensures r.CallUpdate? ==>
              && IsEditing(routeId) && r.id == routeId.value
              && r.patch == Patch(Some(f.name), Some(parsePrice(f.price).value), Some(ParseInt(f.stock).value), f.image)
  {
    if f.name == "" || f.price == "" || f.stock == "" then MissingField
    else
      match (parsePrice(f.price), ParseInt(f.stock))
      case (Some(price), Some(stock)) =>
        if IsEditing(routeId) then CallUpdate(routeId.value, Patch(Some(f.name), Some(price), Some(stock), f.image))
        else CallAdd(NewProduct(f.name, price, stock, f.image))
      case _ => NotANumber
  }

  /** A complete, numeric form always reaches exactly one store call: an update when editing,
      an add otherwise. */
  lemma SaveDispatches(routeId: Option<string>, f: Form, parsePrice: string -> Option<int>)
    requires f.name != "" && f.price != "" && f.stock != ""
    requires parsePrice(f.price).Some? && ParseInt(f.stock).Some?
    ensures IsEditing(routeId) <==> HandleSave(routeId, f, parsePrice).CallUpdate?
    ensures !IsEditing(routeId) <==> HandleSave(routeId, f, parsePrice).CallAdd?
  {
  }

  /** No range check: a negative stock typed into a new-product form is passed on as is. */
  lemma NegativeStockAccepted(name: string, price: string, parsePrice: string -> Option<int>)
    requires name != "" && price != "" && parsePrice(price).Some?
    ensures HandleSave(None, Form(name, price, "-5", None), parsePrice)
              == CallAdd(NewProduct(name, parsePrice(price).value, -5, None))
  {
    ParseIntOfIntToString(-5);
    assert IntToString(-5) == "-5";
  }

  /** Opening a listed product and saving without edits asks the store to write back the
      product's own values, when the price text reads back as the price. */
  lemma PrefillThenSave(products: seq<Product>, id: string, parsePrice: string -> Option<int>)
    requires id != "" && FindProduct(products, id).Some?
    requires var p := FindProduct(products, id).value;
             p.name != "" && parsePrice(IntToString(p.price)) == Some(p.price)
    ensures var p := FindProduct(products, id).value;
            HandleSave(Some(id), Prefill(products, Some(id)), parsePrice)
              == CallUpdate(id, Patch(Some(p.name), Some(p.price), Some(p.stock), p.image))
  {
    var p := FindProduct(products, id).value;
    var f := Prefill(products, Some(id));
    assert f == Form(p.name, IntToString(p.price), IntToString(p.stock), p.image);
    assert |IntToString(p.price)| > 0 && |IntToString(p.stock)| > 0;
    ParseIntOfIntToString(p.stock);
  }

  /** What the store ends up with after Save: refused saves change nothing. */
  function Submit(s: Store, db: Db, save: Save, newId: string, now: string, io: Io): (r: Outcome)
    ensures (save.MissingField? || save.NotANumber?) ==> r == Outcome(s, db, false)
    ensures save.CallAdd? ==> r == AddProduct(s, db, save.product, newId, now, io)
    ensures save.CallUpdate? ==> r == UpdateProduct(s, db, save.id, save.patch, now, io)
  {
    match save
    case CallAdd(p) => AddProduct(s, db, p, newId, now, io)
    case CallUpdate(id, patch) => UpdateProduct(s, db, id, patch, now, io)
    case _ => Outcome(s, db, false)
  }

  /** Saving an edit of an existing product rewrites its name and price, stamps it pending
      and stores the typed stock, once the transaction commits. */
  lemma SavedEditIsStored(s: Store, db: Db, id: string, f: Form, parsePrice: string -> Option<int>,
                          now: string, io: Io, newId: string)
    requires id in db.products
    requires HandleSave(Some(id), f, parsePrice).CallUpdate?
    requires Submit(s, db, HandleSave(Some(id), f, parsePrice), newId, now, io).committed
    ensures var r := Submit(s, db, HandleSave(Some(id), f, parsePrice), newId, now, io);
            && r.db.products[id] == ProductRow(f.name, parsePrice(f.price).value, Some(now), Some(Pending))
            && r.db.inventory[id] == StockRow(ParseInt(f.stock).value, Some(now))
  {
  }
}
