/** The employees page: a table of employees with a create/edit form whose six
    string fields are validated before a POST or PATCH, and a delete per row.
    The customers and suppliers pages have the same shape; only the form's fields and what
    the Add button does differ. */
module Employees {
  import opened Common
  import opened Server
  import opened Collection

  /** The six keys of the employee form; a blank or never-set field holds "". */
  datatype EmployeeForm = EmployeeForm(
    firstName: string, lastName: string, email: string,
    address: string, phoneNumber: string, birthday: string)

  type Employee = Row<EmployeeForm, OtherKeys>

  const Entity: string := "employees"

  const Blank: EmployeeForm := EmployeeForm("", "", "", "", "", "")

  datatype Field = FirstName | LastName | Email | Address | PhoneNumber | Birthday

  const Fields: set<Field> := {FirstName, LastName, Email, Address, PhoneNumber, Birthday}

  /** Does `f` break its schema rule: required, and for `email` also an address
      (the address format itself is the parameter `isEmail`)? */
  predicate Fails(d: EmployeeForm, isEmail: string -> bool, f: Field) {
    match f
    case FirstName => d.firstName == ""
    case LastName => d.lastName == ""
    case Email => d.email == "" || !isEmail(d.email)
    case Address => d.address == ""
    case PhoneNumber => d.phoneNumber == ""
    case Birthday => d.birthday == ""
  }

  /** The message shown under a failing field. */
  function Message(d: EmployeeForm, f: Field): string {
    match f
    case FirstName => "Họ không được bỏ trống"
    case LastName => "Tên không được bỏ trống"
    case Email => if d.email == "" then "Email không được bỏ trống" else "Email không hợp lệ"
    case Address => "Địa chỉ không được bỏ trống"
    case PhoneNumber => "Số điện thoại không được bỏ trống"
    case Birthday => "Ngày sinh không được bỏ trống"
  }

  /** The form's schema, checked in full: every failing field with its message. */
  function Violations(d: EmployeeForm, isEmail: string -> bool): (errors: map<Field, string>)
    ensures FirstName in errors <==> d.firstName == ""
    ensures LastName in errors <==> d.lastName == ""
    ensures Email in errors <==> d.email == "" || !isEmail(d.email)
    ensures Address in errors <==> d.address == ""
    ensures PhoneNumber in errors <==> d.phoneNumber == ""
    ensures Birthday in errors <==> d.birthday == ""
    ensures Email in errors ==>
              errors[Email] == if d.email == "" then "Email không được bỏ trống" else "Email không hợp lệ"
  {
    map f | f in Fields && Fails(d, isEmail, f) :: Message(d, f)
  }

  /** A draft passes the schema exactly when every field is filled and the email is an address. */
  lemma ValidIffFilled(d: EmployeeForm, isEmail: string -> bool)
    ensures Violations(d, isEmail) == map[] <==>
              d.firstName != "" && d.lastName != "" && d.email != "" && isEmail(d.email)
              && d.address != "" && d.phoneNumber != "" && d.birthday != ""
  {
    var errors := Violations(d, isEmail);
    if d.firstName != "" && d.lastName != "" && d.email != "" && isEmail(d.email)
       && d.address != "" && d.phoneNumber != "" && d.birthday != "" {
      forall f | f in Fields ensures !Fails(d, isEmail, f) { }
      assert errors.Keys == {};
    }
  }

  class EmployeesPage {
    var employees: seq<Employee>
    var selectedId: Option<int>
    var isFormVisible: bool
    var form: EmployeeForm

    constructor ()
      ensures employees == [] && selectedId == None && !isFormVisible && form == Blank
    {
      employees := [];
      selectedId := None;
      isFormVisible := false;
      form := Blank;
    }

    /** The mount effect: GET the collection and replace the list with the
        response; a thrown error is only logged. */
    method FetchData(reply: Reply<seq<Employee>>) returns (request: Request)
      modifies this
      ensures request == Request(Get, CollectionPath(Entity))
      ensures employees == if reply.Answered? then reply.body else old(employees)
      ensures selectedId == old(selectedId) && isFormVisible == old(isFormVisible) && form == old(form)
    {
      request := Request(Get, CollectionPath(Entity));
      if reply.Answered? {
        employees := reply.body;
      }
    }

    /** The user typing into the registered inputs. */
    method Input(typed: EmployeeForm)
      modifies this
      ensures form == typed
      ensures employees == old(employees) && selectedId == old(selectedId) && isFormVisible == old(isFormVisible)
    {
      form := typed;
    }

    /** Back to create mode with a blank, hidden form. */
    method HandleResetForm()
      modifies this
      ensures selectedId == None && form == Blank && !isFormVisible
      ensures employees == old(employees)
    {
      selectedId := None;
      form := Blank;
      isFormVisible := false;
    }

    /** The schema runs first; a valid draft is PATCHed to the selected employee or
        POSTed as a new one. A confirmed update overlays the draft on the matching
        entries, a confirmed create appends the server's record, and both then reset
        the form. Anything else leaves the page as it was. */
    method OnSubmit(isEmail: string -> bool, reply: Reply<Employee>) returns (s: Submission<EmployeeForm, Field>)
      modifies this
      ensures Violations(old(form), isEmail) != map[] ==>
                s == Rejected(Violations(old(form), isEmail)) && unchanged(this)
      ensures Violations(old(form), isEmail) == map[] ==>
                s.Sent? && s.payload == old(form) &&
                (old(selectedId).Some? ==>
                   s.request == Request(Patch, ItemPath(Entity, old(selectedId).value)) &&
                   s.notice == ReplyNotice(reply, 200, Updated)) &&
                (old(selectedId).None? ==>
                   s.request == Request(Post, CollectionPath(Entity)) &&
                   s.notice == ReplyNotice(reply, 201, Created))
      ensures s.Sent? && s.notice.Success? ==>
                selectedId == None && form == Blank && !isFormVisible &&
                employees == if old(selectedId).Some? then Overlay(old(employees), old(selectedId).value, old(form))
                             else Append(old(employees), reply.body)
      ensures !(s.Sent? && s.notice.Success?) ==> unchanged(this)
    {
      var errors := Violations(form, isEmail);
      if errors != map[] {
        return Rejected(errors);
      }
      var data := form;
      if selectedId.Some? {
        var id := selectedId.value;
        s := Sent(Request(Patch, ItemPath(Entity, id)), data, ReplyNotice(reply, 200, Updated));
        if Confirmed(reply, 200) {
          employees := Overlay(employees, id, data);
          selectedId := None;
          HandleResetForm();
        }
      } else {
        s := Sent(Request(Post, CollectionPath(Entity)), data, ReplyNotice(reply, 201, Created));
        if Confirmed(reply, 201) {
          employees := Append(employees, reply.body);
          HandleResetForm();
        }
      }
    }

    /** DELETE the employee; a confirmed deletion filters its id out of the list. */
    method OnDelete(id: int, reply: Reply<()>) returns (request: Request, notice: Notice)
      modifies this
      ensures request == Request(Delete, ItemPath(Entity, id))
      ensures notice == ReplyNotice(reply, 204, Deleted)
      ensures employees == if Confirmed(reply, 204) then Remove(old(employees), id) else old(employees)
      ensures selectedId == old(selectedId) && isFormVisible == old(isFormVisible) && form == old(form)
    {
      request := Request(Delete, ItemPath(Entity, id));
      notice := ReplyNotice(reply, 204, Deleted);
      if Confirmed(reply, 204) {
        employees := Remove(employees, id);
      }
    }

    /** The Add button: create mode with a blank form, shown. */
    method AddClick()
      modifies this
      ensures isFormVisible && selectedId == None && form == Blank
      ensures employees == old(employees)
    {
      isFormVisible := true;
      selectedId := None;
      form := Blank;
    }

    /** A row's edit button: edit mode for that row, all six fields copied. */
    method Edit(row: Employee)
      modifies this
      ensures isFormVisible && selectedId == Some(row.id) && form == row.fields
      ensures employees == old(employees)
    {
      isFormVisible := true;
      selectedId := Some(row.id);
      form := row.fields;
    }
  }

  /** Edit, then submit a row that satisfies the schema: the PATCH goes to that row
      and a confirmed reply leaves the row's own values in place. */
  method EditThenSubmit(page: EmployeesPage, row: Employee, isEmail: string -> bool, reply: Reply<Employee>)
    returns (s: Submission<EmployeeForm, Field>)
    requires Violations(row.fields, isEmail) == map[]
    requires Confirmed(reply, 200)
    modifies page
    ensures s == Sent(Request(Patch, ItemPath(Entity, row.id)), row.fields, Success(Updated))
    ensures page.employees == Overlay(old(page.employees), row.id, row.fields)
    ensures page.selectedId == None && page.form == Blank
  {
    page.Edit(row);
    s := page.OnSubmit(isEmail, reply);
  }

  /** The Add button after an edit starts a create: the next submit is a POST. */
  method EditThenAddCreates(page: EmployeesPage, row: Employee, isEmail: string -> bool, reply: Reply<Employee>)
    returns (s: Submission<EmployeeForm, Field>)
    modifies page
    ensures s == Rejected(Violations(Blank, isEmail))
    ensures page.selectedId == None
  {
    page.Edit(row);
    page.AddClick();
    s := page.OnSubmit(isEmail, reply);
  }
}
