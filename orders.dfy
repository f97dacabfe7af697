/** The orders page: a table of orders and a create/edit form with seven text
    fields, the customer and employee ids, and the order's line items. */
module Orders {
  import opened Common
  import opened Server
  import opened Collection

  /** One line item of an order. */
  datatype OrderLine = OrderLine(orderId: int, productId: int, quantity: int, price: int, discount: int)

  /** The keys the order form edits, as the schema delivers them. */
  datatype OrderFields = OrderFields(
    createdDate: string, shippedDate: string, status: string, description: string,
    shippingAddress: string, shippingCity: string, paymentType: string,
    customerId: int, employeeId: int, orderDetails: seq<OrderLine>)

  type Order = Row<OrderFields, OtherKeys>

  /** A line item in the form; a never-set number is None. */
  datatype LineDraft = LineDraft(
    orderId: Option<int>, productId: Option<int>, quantity: Option<int>, price: Option<int>, discount: Option<int>)

  /** The form's current values: a blank or never-set text holds "", a never-set
      number or line-item array is None. */
  datatype OrderDraft = OrderDraft(
    createdDate: string, shippedDate: string, status: string, description: string,
    shippingAddress: string, shippingCity: string, paymentType: string,
    customerId: Option<int>, employeeId: Option<int>, orderDetails: Option<seq<LineDraft>>)

  const Entity: string := "orders"

  /** On mount: no text or id is set, and the line-item field array has stored an
      empty array under `orderDetails`. */
  const Mounted: OrderDraft := OrderDraft("", "", "", "", "", "", "", None, None, Some([]))

  /** What the reset writes: empty texts, zero ids, no line items. */
  const Cleared: OrderDraft := OrderDraft("", "", "", "", "", "", "", Some(0), Some(0), Some([]))

  function LineDraftOf(l: OrderLine): LineDraft {
    LineDraft(Some(l.orderId), Some(l.productId), Some(l.quantity), Some(l.price), Some(l.discount))
  }

  /** The draft a record's fields fill in completely. */
  function DraftOf(f: OrderFields): (d: OrderDraft)
    ensures d.orderDetails.Some? && |d.orderDetails.value| == |f.orderDetails|
    ensures forall i :: 0 <= i < |f.orderDetails| ==> d.orderDetails.value[i] == LineDraftOf(f.orderDetails[i])
  {
    OrderDraft(f.createdDate, f.shippedDate, f.status, f.description, f.shippingAddress, f.shippingCity,
               f.paymentType, Some(f.customerId), Some(f.employeeId),
               Some(seq(|f.orderDetails|, i requires 0 <= i < |f.orderDetails| => LineDraftOf(f.orderDetails[i]))))
  }

  datatype LineKey = OrderId | ProductId | Quantity | Price | Discount

  /** A field of the form; `LineField(i, k)` is `orderDetails[i].k`. */
  datatype Field =
    | CreatedDate | ShippedDate | Status | Description | ShippingAddress | ShippingCity | PaymentType
    | CustomerId | EmployeeId | OrderDetails | LineField(index: nat, key: LineKey)

  const LineKeys: set<LineKey> := {OrderId, ProductId, Quantity, Price, Discount}

  const TopFields: set<Field> :=
    {CreatedDate, ShippedDate, Status, Description, ShippingAddress, ShippingCity, PaymentType,
     CustomerId, EmployeeId, OrderDetails}

  /** The fields the schema checks for this draft: the top-level ones and those of each present line item. */
  function FieldsOf(d: OrderDraft): set<Field> {
    var n := if d.orderDetails.Some? then |d.orderDetails.value| else 0;
    TopFields + set i: nat, k | i < n && k in LineKeys :: LineField(i, k)
  }

  function LineValue(l: LineDraft, k: LineKey): Option<int> {
    match k
    case OrderId => l.orderId
    case ProductId => l.productId
    case Quantity => l.quantity
    case Price => l.price
    case Discount => l.discount
  }

  /** A line item with one of its five numbers replaced and the other four kept. */
  function WithLineValue(l: LineDraft, k: LineKey, v: Option<int>): (r: LineDraft)
    ensures LineValue(r, k) == v
    ensures forall k' :: k' != k ==> LineValue(r, k') == LineValue(l, k')
  {
    match k
    case OrderId => l.(orderId := v)
    case ProductId => l.(productId := v)
    case Quantity => l.(quantity := v)
    case Price => l.(price := v)
    case Discount => l.(discount := v)
  }

  predicate LineComplete(l: LineDraft) {
    l.orderId.Some? && l.productId.Some? && l.quantity.Some? && l.price.Some? && l.discount.Some?
  }

  /** Every field is required: texts non-empty, numbers present, the line-item array
      present (an empty array passes, as in yup 1.x), and each line item's five
      numbers present. */
  predicate Fails(d: OrderDraft, f: Field) {
    match f
    case CreatedDate => d.createdDate == ""
    case ShippedDate => d.shippedDate == ""
    case Status => d.status == ""
    case Description => d.description == ""
    case ShippingAddress => d.shippingAddress == ""
    case ShippingCity => d.shippingCity == ""
    case PaymentType => d.paymentType == ""
    case CustomerId => d.customerId.None?
    case EmployeeId => d.employeeId.None?
    case OrderDetails => d.orderDetails.None?
    case LineField(i, k) =>
      d.orderDetails.Some? && i < |d.orderDetails.value| && LineValue(d.orderDetails.value[i], k).None?
  }

  function Message(f: Field): string {
    match f
    case CreatedDate => "Ngày tạo không được bỏ trống"
    case ShippedDate => "Ngày gửi không được bỏ trống"
    case Status => "Trạng thái không được bỏ trống"
    case Description => "Mô tả không được bỏ trống"
    case ShippingAddress => "Địa chỉ gửi hàng không được bỏ trống"
    case ShippingCity => "Thành phố gửi hàng không được bỏ trống"
    case PaymentType => "Loại thanh toán không được bỏ trống"
    case CustomerId => "ID khách hàng không được bỏ trống"
    case EmployeeId => "ID nhân viên không được bỏ trống"
    case OrderDetails => "Chi tiết đơn hàng không được bỏ trống"
    case LineField(_, k) =>
      match k
      case OrderId => "ID đơn hàng không được bỏ trống"
      case ProductId => "ID sản phẩm không được bỏ trống"
      case Quantity => "Số lượng không được bỏ trống"
      case Price => "Giá không được bỏ trống"
      case Discount => "Giảm giá không được bỏ trống"
  }

  /** The form's schema, checked in full: every failing field with its message. */
  function Violations(d: OrderDraft): (errors: map<Field, string>)
    ensures forall f :: f in errors ==> Fails(d, f) && errors[f] == Message(f)
  {
    map f | f in FieldsOf(d) && Fails(d, f) :: Message(f)
  }

  /** A field is reported exactly when it breaks its rule; a line-item field only
      for a line item the draft holds. */
  lemma ViolationsExact(d: OrderDraft, f: Field)
    ensures f in Violations(d) <==> Fails(d, f)
  {
    if Fails(d, f) && f.LineField? {
      assert f == LineField(f.index, f.key) && f.key in LineKeys;
    }
  }

  /** A draft the schema accepts as it stands. */
  predicate Complete(d: OrderDraft) {
    && d.createdDate != "" && d.shippedDate != "" && d.status != "" && d.description != ""
    && d.shippingAddress != "" && d.shippingCity != "" && d.paymentType != ""
    && d.customerId.Some? && d.employeeId.Some? && d.orderDetails.Some?
    && forall i :: 0 <= i < |d.orderDetails.value| ==> LineComplete(d.orderDetails.value[i])
  }

  lemma CompleteIffNoViolations(d: OrderDraft)
    ensures Complete(d) <==> Violations(d) == map[]
  {
    if Complete(d) {
      CompleteHasNoViolations(d);
    } else {
      var f := SomeFailure(d);
      ViolationsExact(d, f);
    }
  }

  lemma CompleteHasNoViolations(d: OrderDraft)
    requires Complete(d)
    ensures Violations(d) == map[]
  {
    forall f | f in FieldsOf(d) ensures !Fails(d, f) {
      if f.LineField? {
        assert LineComplete(d.orderDetails.value[f.index]);
      }
    }
    assert Violations(d).Keys == {};
  }

  /** A field an incomplete draft fails on. */
  ghost function SomeFailure(d: OrderDraft): (f: Field)
    requires !Complete(d)
    ensures Fails(d, f)
  {
    if d.createdDate == "" then CreatedDate
    else if d.shippedDate == "" then ShippedDate
    else if d.status == "" then Status
    else if d.description == "" then Description
    else if d.shippingAddress == "" then ShippingAddress
    else if d.shippingCity == "" then ShippingCity
    else if d.paymentType == "" then PaymentType
    else if d.customerId.None? then CustomerId
    else if d.employeeId.None? then EmployeeId
    else if d.orderDetails.None? then OrderDetails
    else
      var lines := d.orderDetails.value;
      var i :| 0 <= i < |lines| && !LineComplete(lines[i]);
      var k := if lines[i].orderId.None? then OrderId
               else if lines[i].productId.None? then ProductId
               else if lines[i].quantity.None? then Quantity
               else if lines[i].price.None? then Price
               else Discount;
      LineField(i, k)
  }

  function LineOf(l: LineDraft): OrderLine
    requires LineComplete(l)
  {
    OrderLine(l.orderId.value, l.productId.value, l.quantity.value, l.price.value, l.discount.value)
  }

  /** The schema either yields the values to send, which are exactly the draft's,
      or every failing field. */
  function Validate(d: OrderDraft): (r: Result<OrderFields, map<Field, string>>)
    ensures r.Ok? <==> Violations(d) == map[]
    ensures r.Ok? ==> DraftOf(r.value) == d
    ensures r.Err? ==> r.error == Violations(d)
  {
    CompleteIffNoViolations(d);
    if Complete(d) then
      var lines := d.orderDetails.value;
      var f := OrderFields(d.createdDate, d.shippedDate, d.status, d.description, d.shippingAddress,
                           d.shippingCity, d.paymentType, d.customerId.value, d.employeeId.value,
                           seq(|lines|, i requires 0 <= i < |lines| => LineOf(lines[i])));
      assert DraftOf(f).orderDetails.value == lines;
      Ok(f)
    else
      Err(Violations(d))
  }

  /** The form displays an error message under each registered input and under the
      line-item list; the shipping date and the status have no input and no message. */
  predicate Shown(f: Field) {
    f != ShippedDate && f != Status
  }

  /** The part of a rejection the user gets to see. */
  function ShownErrors(errors: map<Field, string>): (shown: map<Field, string>)
    ensures forall f :: f in shown <==> f in errors && Shown(f)
    ensures forall f :: f in shown ==> shown[f] == errors[f]
  {
    map f | f in errors && Shown(f) :: errors[f]
  }

  /** A draft whose shipping date is blank never passes, and when every displayed
      field is filled in the rejection shows no message at all. */
  lemma SilentRejection(d: OrderDraft)
    requires d.shippedDate == ""
    requires forall f :: Shown(f) ==> !Fails(d, f)
    ensures Validate(d).Err? && ShippedDate in Validate(d).error
    ensures ShownErrors(Validate(d).error) == map[]
  {
    ViolationsExact(d, ShippedDate);
    var shown := ShownErrors(Violations(d));
    forall f | f in Violations(d) ensures !Shown(f) {
      ViolationsExact(d, f);
    }
    assert shown.Keys == {};
  }

  /** A draft filled in from a record with non-empty texts passes and sends back
      that record's values, line items included. */
  lemma DraftRoundTrip(f: OrderFields)
    requires f.createdDate != "" && f.shippedDate != "" && f.status != "" && f.description != ""
    requires f.shippingAddress != "" && f.shippingCity != "" && f.paymentType != ""
    ensures Validate(DraftOf(f)) == Ok(f)
  {
    var d := DraftOf(f);
    assert Complete(d);
    CompleteIffNoViolations(d);
    var g := Validate(d).value;
    assert g.orderDetails == f.orderDetails;
  }

  /** What the user can type: the five registered text inputs and the two id
      inputs. The shipping date and the status have no input. */
  datatype Typed = Typed(
    createdDate: string, description: string, shippingAddress: string, shippingCity: string,
    paymentType: string, customerId: Option<int>, employeeId: Option<int>)

  class OrdersPage {
    var orders: seq<Order>
    var selectedId: Option<int>
    var isFormVisible: bool
    var form: OrderDraft

    /** In create mode the shipping date and the status are blank: only Edit sets
        them, and Edit enters edit mode; only a reset leaves it, and it blanks them. */
    predicate CreateModeBlank()
      reads this
    {
      selectedId.None? ==> form.shippedDate == "" && form.status == ""
    }

    constructor ()
      ensures orders == [] && selectedId == None && !isFormVisible && form == Mounted
      ensures CreateModeBlank()
    {
      orders := [];
      selectedId := None;
      isFormVisible := false;
      form := Mounted;
    }

    /** The mount effect: GET the collection and replace the list with the
        response; a thrown error is only logged. */
    method FetchData(reply: Reply<seq<Order>>) returns (request: Request)
      modifies this
      ensures old(CreateModeBlank()) ==> CreateModeBlank()
      ensures request == Request(Get, CollectionPath(Entity))
      ensures orders == if reply.Answered? then reply.body else old(orders)
      ensures selectedId == old(selectedId) && isFormVisible == old(isFormVisible) && form == old(form)
    {
      request := Request(Get, CollectionPath(Entity));
      if reply.Answered? {
        orders := reply.body;
      }
    }

    /** The user typing into the registered top-level inputs: the shipping date,
        the status and the line items keep what they held. */
    method Input(typed: Typed)
      modifies this
      ensures old(CreateModeBlank()) ==> CreateModeBlank()
      ensures form.shippedDate == old(form).shippedDate && form.status == old(form).status
      ensures form.orderDetails == old(form).orderDetails
      ensures form == old(form).(createdDate := typed.createdDate, description := typed.description,
                                 shippingAddress := typed.shippingAddress, shippingCity := typed.shippingCity,
                                 paymentType := typed.paymentType,
                                 customerId := typed.customerId, employeeId := typed.employeeId)
      ensures orders == old(orders) && selectedId == old(selectedId) && isFormVisible == old(isFormVisible)
    {
      form := form.(createdDate := typed.createdDate, description := typed.description,
                    shippingAddress := typed.shippingAddress, shippingCity := typed.shippingCity,
                    paymentType := typed.paymentType,
                    customerId := typed.customerId, employeeId := typed.employeeId);
    }

    /** The user typing into one number input of a line item the form shows: only
        line items already in the draft have inputs, and none can be added or removed. */
    method InputLine(i: nat, k: LineKey, v: Option<int>)
      requires form.orderDetails.Some? && i < |form.orderDetails.value|
      modifies this
      ensures old(CreateModeBlank()) ==> CreateModeBlank()
      ensures form.orderDetails.Some? && |form.orderDetails.value| == |old(form).orderDetails.value|
      ensures LineValue(form.orderDetails.value[i], k) == v
      ensures form == old(form).(orderDetails := Some(old(form).orderDetails.value[i := WithLineValue(old(form).orderDetails.value[i], k, v)]))
      ensures orders == old(orders) && selectedId == old(selectedId) && isFormVisible == old(isFormVisible)
    {
      var lines := form.orderDetails.value;
      form := form.(orderDetails := Some(lines[i := WithLineValue(lines[i], k, v)]));
    }

    /** Back to create mode with cleared values, form hidden. */
    method HandleResetForm()
      modifies this
      ensures selectedId == None && form == Cleared && !isFormVisible
      ensures orders == old(orders)
      ensures CreateModeBlank()
    {
      selectedId := None;
      form := Cleared;
      isFormVisible := false;
    }

    /** The schema runs first; the validated values are PATCHed to the selected
        order or POSTed. A confirmed update overlays them on the matching entries,
        a confirmed create appends the server's record, and both then reset the form.
        Anything else leaves the page as it was. In create mode the shipping date
        is blank, so a submit there is always rejected and never sent. */
    method OnSubmit(reply: Reply<Order>) returns (s: Submission<OrderFields, Field>)
      modifies this
      ensures old(CreateModeBlank()) ==> CreateModeBlank()
      ensures old(selectedId).None? && old(CreateModeBlank()) ==>
                s.Rejected? && ShippedDate in s.errors && Status in s.errors
      ensures Validate(old(form)).Err? ==> s == Rejected(Violations(old(form))) && unchanged(this)
      ensures Validate(old(form)).Ok? ==>
                s.Sent? && s.payload == Validate(old(form)).value &&
                (old(selectedId).Some? ==>
                   s.request == Request(Patch, ItemPath(Entity, old(selectedId).value)) &&
                   s.notice == ReplyNotice(reply, 200, Updated)) &&
                (old(selectedId).None? ==>
                   s.request == Request(Post, CollectionPath(Entity)) &&
                   s.notice == ReplyNotice(reply, 201, Created))
      ensures s.Sent? && s.notice.Success? ==>
                selectedId == None && form == Cleared && !isFormVisible &&
                orders == if old(selectedId).Some? then Overlay(old(orders), old(selectedId).value, s.payload)
                          else Append(old(orders), reply.body)
      ensures !(s.Sent? && s.notice.Success?) ==> unchanged(this)
    {
      ViolationsExact(form, ShippedDate);
      ViolationsExact(form, Status);
      var checked := Validate(form);
      if checked.Err? {
        return Rejected(checked.error);
      }
      var data := checked.value;
      if selectedId.Some? {
        var id := selectedId.value;
        s := Sent(Request(Patch, ItemPath(Entity, id)), data, ReplyNotice(reply, 200, Updated));
        if Confirmed(reply, 200) {
          orders := Overlay(orders, id, data);
          selectedId := None;
          HandleResetForm();
        }
      } else {
        s := Sent(Request(Post, CollectionPath(Entity)), data, ReplyNotice(reply, 201, Created));
        if Confirmed(reply, 201) {
          orders := Append(orders, reply.body);
          HandleResetForm();
        }
      }
    }

    /** DELETE the order; a confirmed deletion filters its id out of the list. */
    method OnDelete(id: int, reply: Reply<()>) returns (request: Request, notice: Notice)
      modifies this
      ensures old(CreateModeBlank()) ==> CreateModeBlank()
      ensures request == Request(Delete, ItemPath(Entity, id))
      ensures notice == ReplyNotice(reply, 204, Deleted)
      ensures orders == if Confirmed(reply, 204) then Remove(old(orders), id) else old(orders)
      ensures selectedId == old(selectedId) && isFormVisible == old(isFormVisible) && form == old(form)
    {
      request := Request(Delete, ItemPath(Entity, id));
      notice := ReplyNotice(reply, 204, Deleted);
      if Confirmed(reply, 204) {
        orders := Remove(orders, id);
      }
    }

    /** The Add button only shows the form: the draft and the selected id stay. */
    method AddClick()
      modifies this
      ensures old(CreateModeBlank()) ==> CreateModeBlank()
      ensures isFormVisible
      ensures selectedId == old(selectedId) && form == old(form) && orders == old(orders)
    {
      isFormVisible := true;
    }

    /** A row's edit button: edit mode for that row, all ten keys copied (nine
        fields and the line items). The only writer of the shipping date and status. */
    method Edit(row: Order)
      modifies this
      ensures isFormVisible && selectedId == Some(row.id) && form == DraftOf(row.fields)
      ensures orders == old(orders)
      ensures CreateModeBlank()
    {
      isFormVisible := true;
      selectedId := Some(row.id);
      form := DraftOf(row.fields);
    }
  }

  /** Editing a row with filled-in texts and submitting it unchanged PATCHes that
      order with exactly its own values, line items included. */
  method EditThenSubmit(page: OrdersPage, row: Order, reply: Reply<Order>)
    returns (s: Submission<OrderFields, Field>)
    requires row.fields.createdDate != "" && row.fields.shippedDate != "" && row.fields.status != ""
    requires row.fields.description != "" && row.fields.shippingAddress != ""
    requires row.fields.shippingCity != "" && row.fields.paymentType != ""
    modifies page
    ensures s.Sent? && s.request == Request(Patch, ItemPath(Entity, row.id)) && s.payload == row.fields
  {
    page.Edit(row);
    DraftRoundTrip(row.fields);
    s := page.OnSubmit(reply);
  }

  /** Every input the user can type into holds a value. */
  predicate Filled(t: Typed) {
    && t.createdDate != "" && t.description != "" && t.shippingAddress != ""
    && t.shippingCity != "" && t.paymentType != "" && t.customerId.Some? && t.employeeId.Some?
  }

  /** A new order can never be created: whatever the user types into a fresh page,
      the submit is rejected on the blank shipping date and status, and when every
      input is filled in, the rejection displays no message at all. (A fresh form
      holds no line items, so there is no line input to type into.) */
  method CreateNeverSends(typed: Typed, reply: Reply<Order>) returns (s: Submission<OrderFields, Field>)
    ensures s.Rejected? && ShippedDate in s.errors && Status in s.errors
    ensures ShippedDate !in ShownErrors(s.errors) && Status !in ShownErrors(s.errors)
    ensures Filled(typed) ==> ShownErrors(s.errors) == map[]
  {
    var page := new OrdersPage();
    page.AddClick();
    page.Input(typed);
    if Filled(typed) {
      SilentRejection(page.form);
    }
    s := page.OnSubmit(reply);
  }
}
