/** The seller's product inventory: the list filter of the search bar, and the edits the
    screen makes to its `products` list (save as add or update, delete, the two flag
    toggles) together with the add/edit form. */
module Products {
  import opened Common
  import opened JsText
  import opened Dropdown

  /** A product of the inventory. `price` and `quantity` are kept as the text the form
      holds; the conversions `parseFloat` and `parseInt` are not part of this model. */
  datatype Product = Product(id: string, name: string, description: string, category: string,
                             price: string, quantity: string, imageUrl: string,
                             isAvailable: bool, isPublic: bool)

  /** The add/edit form (`formData`). */
  datatype ProductForm = ProductForm(name: string, description: string, category: string,
                                     price: string, quantity: string, imageUrl: string,
                                     isAvailable: bool, isPublic: bool)

  /** The filter bar: search text, category, and the two switches. */
  datatype Filters = Filters(searchQuery: string, selectedCategory: string,
                             showAvailableOnly: bool, showPublicOnly: bool)

  /** The form `resetForm` restores: every text empty, available, not public. */
  function BlankForm(): ProductForm
  {
    ProductForm("", "", "", "", "", "", true, false)
  }

  /** The filter bar as the screen opens. */
  function NoFilters(): Filters
  {
    Filters("", "", false, false)
  }

  /** The lower-cased name or description contains the lower-cased query. */
  predicate MatchesQuery(p: Product, query: string)
  {
    Includes(Lower(p.name), Lower(query)) || Includes(Lower(p.description), Lower(query))
  }

  /** What the four filters of `filterProducts` let through, each one switched on only by a
      non-empty query or category or a set switch. */
  predicate Admits(f: Filters, p: Product)
  {
    && (f.searchQuery == "" || MatchesQuery(p, f.searchQuery))
    && (f.selectedCategory == "" || p.category == f.selectedCategory)
    && (!f.showAvailableOnly || p.isAvailable)
    && (!f.showPublicOnly || p.isPublic)
  }

  /** `filterProducts`: starts from `products` and narrows it by each active filter in turn.
      The result is the one-pass filter by `Admits`, keeps the order of `products`, holds
      exactly the admitted products, and is the whole list when no filter is active. */
  method FilterProducts(products: seq<Product>, f: Filters) returns (filtered: seq<Product>)
    ensures filtered == Filter(products, (p: Product) => Admits(f, p))
    ensures IsSubsequence(filtered, products)
    ensures forall p :: p in filtered <==> p in products && Admits(f, p)
    ensures f == NoFilters() ==> filtered == products
  {
    ghost var byQuery := (p: Product) => f.searchQuery == "" || MatchesQuery(p, f.searchQuery);
    ghost var byCategory := (p: Product) => byQuery(p) && (f.selectedCategory == "" || p.category == f.selectedCategory);
    ghost var byAvailable := (p: Product) => byCategory(p) && (!f.showAvailableOnly || p.isAvailable);

    filtered := products;
    FilterKeepsAll(products, (_: Product) => true);

    if f.searchQuery != "" {
      filtered := Filter(filtered, (p: Product) => MatchesQuery(p, f.searchQuery));
      FilterTwice(products, (_: Product) => true, (p: Product) => MatchesQuery(p, f.searchQuery), byQuery);
    } else {
      FilterExtensional(products, (_: Product) => true, byQuery);
    }
    assert filtered == Filter(products, byQuery);

    if f.selectedCategory != "" {
      FilterTwice(products, byQuery, (p: Product) => p.category == f.selectedCategory, byCategory);
      filtered := Filter(filtered, (p: Product) => p.category == f.selectedCategory);
    } else {
      FilterExtensional(products, byQuery, byCategory);
    }
    assert filtered == Filter(products, byCategory);

    if f.showAvailableOnly {
      FilterTwice(products, byCategory, (p: Product) => p.isAvailable, byAvailable);
      filtered := Filter(filtered, (p: Product) => p.isAvailable);
    } else {
      FilterExtensional(products, byCategory, byAvailable);
    }
    assert filtered == Filter(products, byAvailable);

    if f.showPublicOnly {
      FilterTwice(products, byAvailable, (p: Product) => p.isPublic, (p: Product) => Admits(f, p));
      filtered := Filter(filtered, (p: Product) => p.isPublic);
    } else {
      FilterExtensional(products, byAvailable, (p: Product) => Admits(f, p));
    }

    FilterIsSubsequence(products, (p: Product) => Admits(f, p));
    forall p ensures p in filtered <==> p in products && Admits(f, p) {
      FilterMembership(products, (p: Product) => Admits(f, p), p);
    }
    if f == NoFilters() {
      FilterKeepsAll(products, (p: Product) => Admits(f, p));
    }
  }

  /** `!formData.name || !formData.category || !formData.price || !formData.quantity`
      fails: the four required texts are non-empty (white space is accepted). */
  predicate RequiredFilled(form: ProductForm)
  {
    form.name != "" && form.category != "" && form.price != "" && form.quantity != ""
  }

  /** `productData`: the form's fields under the given id. */
  function ProductOf(form: ProductForm, id: string): Product
  {
    Product(id, form.name, form.description, form.category, form.price, form.quantity,
            form.imageUrl, form.isAvailable, form.isPublic)
  }

  /** The form `openEditModal` fills from a product. */
  function FormOf(p: Product): ProductForm
  {
    ProductForm(p.name, p.description, p.category, p.price, p.quantity, p.imageUrl,
                p.isAvailable, p.isPublic)
  }

  /** `products.map(change)` */
  function MapProducts(s: seq<Product>, change: Product -> Product): seq<Product>
  {
    if s == [] then [] else [change(s[0])] + MapProducts(s[1..], change)
  }

  /** Mapping keeps the length and changes each entry by itself, in place. */
  lemma {:induction false} MapProductsAt(s: seq<Product>, change: Product -> Product)
    ensures |MapProducts(s, change)| == |s|
    ensures forall i :: 0 <= i < |s| ==> MapProducts(s, change)[i] == change(s[i])
    decreases |s|
  {
    if s != [] {
      MapProductsAt(s[1..], change);
      forall i | 0 <= i < |s| ensures MapProducts(s, change)[i] == change(s[i]) {
        if i > 0 {
          assert MapProducts(s, change)[i] == MapProducts(s[1..], change)[i - 1];
          assert s[1..][i - 1] == s[i];
        }
      }
    }
  }

  /** The update branch of `saveProduct`: every product with id `id` becomes `q`. */
  function ReplaceById(s: seq<Product>, id: string, q: Product): seq<Product>
  {
    MapProducts(s, (p: Product) => if p.id == id then q else p)
  }

  /** `saveProduct` once the required fields are present: an edit rewrites the edited
      product, an add puts a new product with `newId` in front. */
  function Upsert(s: seq<Product>, form: ProductForm, editingId: Option<string>, newId: string): seq<Product>
  {
    match editingId
    case Some(id) => ReplaceById(s, id, ProductOf(form, id))
    case None => [ProductOf(form, newId)] + s
  }

  /** An edit keeps the length, keeps every id, puts the form's fields into exactly the
      products carrying the edited id and leaves every other product as it was. */
  lemma EditReplacesOnlyTheEditedProduct(s: seq<Product>, form: ProductForm, id: string)
    ensures |Upsert(s, form, Some(id), "")| == |s|
    ensures forall i :: 0 <= i < |s| ==> Upsert(s, form, Some(id), "")[i].id == s[i].id
    ensures forall i :: 0 <= i < |s| && s[i].id == id ==> Upsert(s, form, Some(id), "")[i] == ProductOf(form, id)
    ensures forall i :: 0 <= i < |s| && s[i].id != id ==> Upsert(s, form, Some(id), "")[i] == s[i]
  {
    MapProductsAt(s, (p: Product) => if p.id == id then ProductOf(form, id) else p);
  }

  /** An add puts one new product, with the form's fields, in front of the unchanged list. */
  lemma AddPrependsOneProduct(s: seq<Product>, form: ProductForm, newId: string)
    ensures |Upsert(s, form, None, newId)| == |s| + 1
    ensures Upsert(s, form, None, newId)[0] == ProductOf(form, newId)
    ensures Upsert(s, form, None, newId)[1..] == s
    ensures FormOf(Upsert(s, form, None, newId)[0]) == form
  {
  }

  /** `deleteProduct`: `products.filter((p: Product) => p.id !== productId)`. */
  function Deleted(s: seq<Product>, id: string): seq<Product>
  {
    Filter(s, (p: Product) => p.id != id)
  }

  /** A delete keeps the order of the rest, removes every product with the id and only
      those. */
  lemma DeleteRemovesExactlyThatId(s: seq<Product>, id: string, p: Product)
    ensures IsSubsequence(Deleted(s, id), s)
    ensures p in Deleted(s, id) <==> p in s && p.id != id
    ensures |Deleted(s, id)| <= |s|
    ensures multiset(Deleted(s, id))[p] == if p.id != id then multiset(s)[p] else 0
  {
    FilterCount(s, (q: Product) => q.id != id, p);
    FilterIsSubsequence(s, (q: Product) => q.id != id);
    FilterMembership(s, (q: Product) => q.id != id, p);
    FilterLength(s, (q: Product) => q.id != id);
  }

  /** `toggleAvailability`: flips `isAvailable` of the products with the id. */
  function ToggledAvailability(s: seq<Product>, id: string): seq<Product>
  {
    MapProducts(s, (p: Product) => if p.id == id then p.(isAvailable := !p.isAvailable) else p)
  }

  /** `toggleVisibility`: flips `isPublic` of the products with the id. */
  function ToggledVisibility(s: seq<Product>, id: string): seq<Product>
  {
    MapProducts(s, (p: Product) => if p.id == id then p.(isPublic := !p.isPublic) else p)
  }

  /** A toggle changes only the named flag, only of the products with the id. */
  lemma ToggleChangesOnlyTheFlag(s: seq<Product>, id: string)
    ensures |ToggledAvailability(s, id)| == |s| && |ToggledVisibility(s, id)| == |s|
    ensures forall i :: 0 <= i < |s| ==>
              ToggledAvailability(s, id)[i] == s[i].(isAvailable := s[i].isAvailable != (s[i].id == id))
    ensures forall i :: 0 <= i < |s| ==>
              ToggledVisibility(s, id)[i] == s[i].(isPublic := s[i].isPublic != (s[i].id == id))
  {
    MapProductsAt(s, (p: Product) => if p.id == id then p.(isAvailable := !p.isAvailable) else p);
    MapProductsAt(s, (p: Product) => if p.id == id then p.(isPublic := !p.isPublic) else p);
  }

  /** Toggling the same product twice restores the list. */
  lemma ToggleTwiceRestores(s: seq<Product>, id: string)
    ensures ToggledAvailability(ToggledAvailability(s, id), id) == s
    ensures ToggledVisibility(ToggledVisibility(s, id), id) == s
  {
    ToggleChangesOnlyTheFlag(s, id);
    ToggleChangesOnlyTheFlag(ToggledAvailability(s, id), id);
    ToggleChangesOnlyTheFlag(ToggledVisibility(s, id), id);
  }

  /** The form after the category picker answers a tap: the reported value becomes the
      category; when nothing is reported the form stays as it was. */
  function CategoryAfterReport(form: ProductForm, reported: Option<string>): ProductForm
  {
    match reported
    case Some(v) => form.(category := v)
    case None => form
  }

  /** A tap on a category as the screen is written: it hands the picker `onValueChange`,
      a prop the picker never reads, so the picker has no `onSelect` to call. */
  function PickCategoryAsWritten(form: ProductForm, option: Choice): ProductForm
  {
    CategoryAfterReport(form, Report(false, option))
  }

  /** A tap on a category with the callback passed as `onSelect`. */
  function PickCategory(form: ProductForm, option: Choice): ProductForm
  {
    CategoryAfterReport(form, Report(true, option))
  }

  /** Any number of taps on the category picker, as written. */
  function PickAllAsWritten(form: ProductForm, taps: seq<Choice>): ProductForm
    decreases |taps|
  {
    if taps == [] then form else PickAllAsWritten(PickCategoryAsWritten(form, taps[0]), taps[1..])
  }

  /** As written, no sequence of taps fills in the category of a form whose category is
      empty, so the required-field check keeps rejecting it; a new product (whose form
      starts blank) can never be saved. */
  lemma {:induction false} NewProductIsAlwaysRejectedAsWritten(form: ProductForm, taps: seq<Choice>)
    requires form.category == ""
    ensures PickAllAsWritten(form, taps) == form
    ensures !RequiredFilled(PickAllAsWritten(form, taps))
    decreases |taps|
  {
    if taps != [] {
      NewProductIsAlwaysRejectedAsWritten(PickCategoryAsWritten(form, taps[0]), taps[1..]);
    }
  }

  /** The input that shows it: the blank form, filled in and given the category "Books". */
  lemma BlankFormWithBooksIsRejectedAsWritten()
    ensures !RequiredFilled(PickCategoryAsWritten(
              BlankForm().(name := "Mug", price := "5", quantity := "2"), Choice("Books", "Books")))
  {
  }

  /** With `onSelect` passed, a tap sets exactly the category, and a form with the other
      required fields filled in passes the check once a category is picked. */
  lemma PickedCategoryCompletesTheForm(form: ProductForm, option: Choice)
    requires form.name != "" && form.price != "" && form.quantity != "" && option.value != ""
    ensures PickCategory(form, option) == form.(category := option.value)
    ensures RequiredFilled(PickCategory(form, option))
  {
  }

  /** The product screen's state: the inventory, the form and which product is being
      edited (`editingProduct`, kept as its id). */
  class ProductsScreen {
    var products: seq<Product>
    var form: ProductForm
    var editingId: Option<string>

    constructor (initial: seq<Product>)
      ensures products == initial && form == BlankForm() && editingId == None
    {
      products := initial;
      form := BlankForm();
      editingId := None;
    }

    /** `resetForm` */
    method ResetForm()
      modifies this
      ensures form == BlankForm() && editingId == None && products == old(products)
    {
      form := BlankForm();
      editingId := None;
    }

    /** `openEditModal`: the form shows the product, which becomes the one being edited. */
    method OpenEdit(p: Product)
      modifies this
      ensures form == FormOf(p) && editingId == Some(p.id) && products == old(products)
    {
      form := FormOf(p);
      editingId := Some(p.id);
    }

    /** A tap on a category in the form as the screen is written: the picker gets no
        `onSelect`, so nothing is reported and the form keeps its category. */
    method TapFormCategoryAsWritten(option: Choice)
      modifies this
      ensures form == PickCategoryAsWritten(old(form), option)
      ensures form == old(form)
      ensures products == old(products) && editingId == old(editingId)
    {
      form := PickCategoryAsWritten(form, option);
    }

    /** A category picked in the form with the callback passed as `onSelect`, as the
        screen evidently intends. */
    method SelectFormCategory(option: Choice)
      modifies this
      ensures form == PickCategory(old(form), option)
      ensures products == old(products) && editingId == old(editingId)
    {
      form := form.(category := option.value);
    }

    /** `saveProduct`: rejected, with nothing changed, when a required field is empty;
        otherwise the upsert, then the form is reset. `newId` stands for
        `Date.now().toString()`. */
    method SaveProduct(newId: string) returns (saved: bool)
      modifies this
      ensures saved == RequiredFilled(old(form))
      ensures !saved ==> products == old(products) && form == old(form) && editingId == old(editingId)
      ensures saved ==> products == Upsert(old(products), old(form), old(editingId), newId)
      ensures saved ==> form == BlankForm() && editingId == None
    {
      if form.name == "" || form.category == "" || form.price == "" || form.quantity == "" {
        return false;
      }
      var id := if editingId.Some? then editingId.value else newId;
      var productData := ProductOf(form, id);
      if editingId.Some? {
        products := MapProducts(products, (p: Product) => if p.id == id then productData else p);
      } else {
        products := [productData] + products;
      }
      ResetForm();
      saved := true;
    }

    /** The confirmed `deleteProduct`. */
    method DeleteProduct(productId: string)
      modifies this
      ensures products == Deleted(old(products), productId)
      ensures form == old(form) && editingId == old(editingId)
    {
      products := Filter(products, (p: Product) => p.id != productId);
    }

    method ToggleAvailability(productId: string)
      modifies this
      ensures products == ToggledAvailability(old(products), productId)
      ensures form == old(form) && editingId == old(editingId)
    {
      products := MapProducts(products, (p: Product) => if p.id == productId then p.(isAvailable := !p.isAvailable) else p);
    }

    method ToggleVisibility(productId: string)
      modifies this
      ensures products == ToggledVisibility(old(products), productId)
      ensures form == old(form) && editingId == old(editingId)
    {
      products := MapProducts(products, (p: Product) => if p.id == productId then p.(isPublic := !p.isPublic) else p);
    }
  }
}
