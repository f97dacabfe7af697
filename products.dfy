/** The products page: a table of products, the categories and suppliers lists
    that feed the form's two selects, and a create/edit form with two text and
    five numeric fields. */
module Products {
  import opened Common
  import opened Server
  import opened Collection

  /** The category and supplier a product record carries, as the server nests them. */
  datatype CategoryRef = CategoryRef(id: int, name: string, description: string)
  datatype SupplierRef = SupplierRef(id: int, name: string, email: string, address: string, phoneNumber: string)
  datatype ProductLinks = ProductLinks(categories: CategoryRef, supplier: SupplierRef)

  /** The seven keys the product form edits, as the schema delivers them. */
  datatype ProductFields = ProductFields(
    name: string, price: int, discount: int, stock: int,
    description: string, categoriesId: int, supplierId: int)

  type Product = Row<ProductFields, ProductLinks>

  /** The form's current values: a blank or never-set text holds "", a never-set number is None. */
  datatype ProductDraft = ProductDraft(
    name: string, price: Option<int>, discount: Option<int>, stock: Option<int>,
    description: string, categoriesId: Option<int>, supplierId: Option<int>)

  const Entity: string := "products"

  /** Before any setValue: nothing is set. */
  const Unset: ProductDraft := ProductDraft("", None, None, None, "", None, None)

  /** What the reset and the Add button write: empty texts and zeros. */
  const Cleared: ProductDraft := ProductDraft("", Some(0), Some(0), Some(0), "", Some(0), Some(0))

  /** The draft a record's fields fill in completely. */
  function DraftOf(f: ProductFields): ProductDraft {
    ProductDraft(f.name, Some(f.price), Some(f.discount), Some(f.stock), f.description, Some(f.categoriesId), Some(f.supplierId))
  }

  datatype Field = Name | Price | Discount | Stock | Description | CategoriesId | SupplierId

  const Fields: set<Field> := {Name, Price, Discount, Stock, Description, CategoriesId, SupplierId}

  /** Every field is required: texts non-empty, numbers present. */
  predicate Fails(d: ProductDraft, f: Field) {
    match f
    case Name => d.name == ""
    case Price => d.price.None?
    case Discount => d.discount.None?
    case Stock => d.stock.None?
    case Description => d.description == ""
    case CategoriesId => d.categoriesId.None?
    case SupplierId => d.supplierId.None?
  }

  function Message(f: Field): string {
    match f
    case Name => "Tên không được bỏ trống"
    case Price => "Giá không được bỏ trống"
    case Discount => "Giảm giá không được bỏ trống"
    case Stock => "Số lượng tồn kho không được bỏ trống"
    case Description => "Mô tả không được bỏ trống"
    case CategoriesId => "ID danh mục không được bỏ trống"
    case SupplierId => "ID nhà cung cấp không được bỏ trống"
  }

  /** The form's schema, checked in full: every failing field with its message. */
  function Violations(d: ProductDraft): (errors: map<Field, string>)
    ensures Name in errors <==> d.name == ""
    ensures Description in errors <==> d.description == ""
    ensures Price in errors <==> d.price.None?
    ensures Discount in errors <==> d.discount.None?
    ensures Stock in errors <==> d.stock.None?
    ensures CategoriesId in errors <==> d.categoriesId.None?
    ensures SupplierId in errors <==> d.supplierId.None?
    ensures forall f :: f in errors ==> errors[f] == Message(f)
  {
    map f | f in Fields && Fails(d, f) :: Message(f)
  }

  /** The schema either yields the values to send, which are exactly the draft's,
      or every failing field. */
  function Validate(d: ProductDraft): (r: Result<ProductFields, map<Field, string>>)
    ensures r.Ok? <==> Violations(d) == map[]
    ensures r.Ok? ==> DraftOf(r.value) == d
    ensures r.Err? ==> r.error == Violations(d)
  {
    if d.name != "" && d.price.Some? && d.discount.Some? && d.stock.Some?
       && d.description != "" && d.categoriesId.Some? && d.supplierId.Some?
    then
      assert Violations(d).Keys == {};
      Ok(ProductFields(d.name, d.price.value, d.discount.value, d.stock.value,
                       d.description, d.categoriesId.value, d.supplierId.value))
    else
      Err(Violations(d))
  }

  /** A draft filled in from a record with non-empty texts passes and sends back that record's values. */
  lemma DraftRoundTrip(f: ProductFields)
    requires f.name != "" && f.description != ""
    ensures Validate(DraftOf(f)) == Ok(f)
  {
    var d := DraftOf(f);
    assert Violations(d).Keys == {};
  }

  /** What the edit button writes into a draft: six fields of the row; the
      category select keeps whatever the draft held. */
  function Populated(d: ProductDraft, row: Product): (p: ProductDraft)
    ensures p.categoriesId == d.categoriesId
    ensures p == DraftOf(row.fields).(categoriesId := d.categoriesId)
  {
    d.(name := row.fields.name, price := Some(row.fields.price), discount := Some(row.fields.discount),
       stock := Some(row.fields.stock), description := row.fields.description,
       supplierId := Some(row.fields.supplierId))
  }

  /** Editing a row whose category differs from the draft's does not load that
      category: the draft does not read back as the row. */
  lemma EditDoesNotLoadCategory(d: ProductDraft, row: Product)
    requires d.categoriesId != Some(row.fields.categoriesId)
    ensures Populated(d, row) != DraftOf(row.fields)
    ensures Validate(Populated(d, row)) != Ok(row.fields)
  {
    assert Populated(d, row).categoriesId != DraftOf(row.fields).categoriesId;
  }

  class ProductsPage {
    var products: seq<Product>
    var categories: seq<CategoryRef>
    var suppliers: seq<SupplierRef>
    var selectedId: Option<int>
    var isFormVisible: bool
    var form: ProductDraft

    constructor ()
      ensures products == [] && categories == [] && suppliers == []
      ensures selectedId == None && !isFormVisible && form == Unset
    {
      products, categories, suppliers := [], [], [];
      selectedId := None;
      isFormVisible := false;
      form := Unset;
    }

    /** The mount effect: three GETs in turn (a thrown error stops the sequence),
        and the three lists are set only once all three have answered. */
    method FetchData(productsReply: Reply<seq<Product>>, categoriesReply: Reply<seq<CategoryRef>>,
                     suppliersReply: Reply<seq<SupplierRef>>)
      returns (requests: seq<Request>)
      modifies this
      ensures requests ==
                [Request(Get, CollectionPath(Entity))] +
                (if productsReply.Threw? then [] else [Request(Get, CollectionPath("categories"))]) +
                (if productsReply.Threw? || categoriesReply.Threw? then []
                 else [Request(Get, CollectionPath("suppliers"))])
      ensures productsReply.Answered? && categoriesReply.Answered? && suppliersReply.Answered? ==>
                products == productsReply.body && categories == categoriesReply.body &&
                suppliers == suppliersReply.body
      ensures productsReply.Threw? || categoriesReply.Threw? || suppliersReply.Threw? ==>
                products == old(products) && categories == old(categories) && suppliers == old(suppliers)
      ensures selectedId == old(selectedId) && isFormVisible == old(isFormVisible) && form == old(form)
    {
      requests := [Request(Get, CollectionPath(Entity))];
      if productsReply.Threw? {
        return;
      }
      requests := requests + [Request(Get, CollectionPath("categories"))];
      if categoriesReply.Threw? {
        return;
      }
      requests := requests + [Request(Get, CollectionPath("suppliers"))];
      if suppliersReply.Threw? {
        return;
      }
      products := productsReply.body;
      categories := categoriesReply.body;
      suppliers := suppliersReply.body;
    }

    /** The user typing into the inputs and picking from the selects. */
    method Input(typed: ProductDraft)
      modifies this
      ensures form == typed
      ensures products == old(products) && categories == old(categories) && suppliers == old(suppliers)
      ensures selectedId == old(selectedId) && isFormVisible == old(isFormVisible)
    {
      form := typed;
    }

    /** Back to create mode with cleared values, form hidden. */
    method HandleResetForm()
      modifies this
      ensures selectedId == None && form == Cleared && !isFormVisible
      ensures products == old(products) && categories == old(categories) && suppliers == old(suppliers)
    {
      selectedId := None;
      form := Cleared;
      isFormVisible := false;
    }

    /** The schema runs first; the validated values are PATCHed to the selected
        product or POSTed. A confirmed update overlays them on the matching entries,
        keeping each entry's id and nested category and supplier; a confirmed create
        appends the server's record; both then reset the form. Anything else leaves
        the page as it was. */
    method OnSubmit(reply: Reply<Product>) returns (s: Submission<ProductFields, Field>)
      modifies this
      ensures Validate(old(form)).Err? ==> s == Rejected(Violations(old(form))) && unchanged(this)
      ensures Validate(old(form)).Ok? ==>
                s.Sent? && s.payload == Validate(old(form)).value &&
                (old(selectedId).Some? ==>
                   s.request == Request(Patch, ItemPath(Entity, old(selectedId).value)) &&
                   s.notice == ReplyNotice(reply, 200, Updated)) &&
                (old(selectedId).None? ==>
                   s.request == Request(Post, CollectionPath(Entity)) &&
                   s.notice == ReplyNotice(reply, 201, Created))
      ensures s.Sent? && s.notice.Success? ==>
                selectedId == None && form == Cleared && !isFormVisible &&
                products == if old(selectedId).Some? then Overlay(old(products), old(selectedId).value, s.payload)
                            else Append(old(products), reply.body)
      ensures !(s.Sent? && s.notice.Success?) ==> unchanged(this)
      ensures categories == old(categories) && suppliers == old(suppliers)
    {
      var checked := Validate(form);
      if checked.Err? {
        return Rejected(checked.error);
      }
      var data := checked.value;
      if selectedId.Some? {
        var id := selectedId.value;
        s := Sent(Request(Patch, ItemPath(Entity, id)), data, ReplyNotice(reply, 200, Updated));
        if Confirmed(reply, 200) {
          products := Overlay(products, id, data);
          selectedId := None;
          HandleResetForm();
        }
      } else {
        s := Sent(Request(Post, CollectionPath(Entity)), data, ReplyNotice(reply, 201, Created));
        if Confirmed(reply, 201) {
          products := Append(products, reply.body);
          HandleResetForm();
        }
      }
    }

    /** DELETE the product; a confirmed deletion filters its id out of the list. */
    method OnDelete(id: int, reply: Reply<()>) returns (request: Request, notice: Notice)
      modifies this
      ensures request == Request(Delete, ItemPath(Entity, id))
      ensures notice == ReplyNotice(reply, 204, Deleted)
      ensures products == if Confirmed(reply, 204) then Remove(old(products), id) else old(products)
      ensures categories == old(categories) && suppliers == old(suppliers)
      ensures selectedId == old(selectedId) && isFormVisible == old(isFormVisible) && form == old(form)
    {
      request := Request(Delete, ItemPath(Entity, id));
      notice := ReplyNotice(reply, 204, Deleted);
      if Confirmed(reply, 204) {
        products := Remove(products, id);
      }
    }

    /** The Add button: the reset's values and create mode, but the form is shown. */
    method AddClick()
      modifies this
      ensures isFormVisible && selectedId == None && form == Cleared
      ensures products == old(products) && categories == old(categories) && suppliers == old(suppliers)
    {
      isFormVisible := true;
      form := Cleared;
      selectedId := None;
    }

    /** A row's edit button: edit mode for that row and six of its fields copied;
        `categoriesId` is not set. */
    method Edit(row: Product)
      modifies this
      ensures isFormVisible && selectedId == Some(row.id)
      ensures form == Populated(old(form), row)
      ensures products == old(products) && categories == old(categories) && suppliers == old(suppliers)
    {
      isFormVisible := true;
      selectedId := Some(row.id);
      form := form.(name := row.fields.name);
      form := form.(price := Some(row.fields.price));
      form := form.(discount := Some(row.fields.discount));
      form := form.(stock := Some(row.fields.stock));
      form := form.(description := row.fields.description);
      form := form.(supplierId := Some(row.fields.supplierId));
    }
  }

  /** After the Add button, editing a row and submitting unchanged PATCHes the row
      with category 0 instead of its own category. */
  method AddThenEditSendsZeroCategory(page: ProductsPage, row: Product, reply: Reply<Product>)
    returns (s: Submission<ProductFields, Field>)
    requires row.fields.name != "" && row.fields.description != ""
    modifies page
    ensures s.Sent? && s.request == Request(Patch, ItemPath(Entity, row.id))
    ensures s.payload == row.fields.(categoriesId := 0)
  {
    page.AddClick();
    page.Edit(row);
    DraftRoundTrip(row.fields.(categoriesId := 0));
    s := page.OnSubmit(reply);
  }
}
