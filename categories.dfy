/** The categories page: a table of categories and an always-shown form with a
    required name and an optional description. Unlike the other pages it never
    edits its list locally: every confirmed mutation re-fetches the collection. */
module Categories {
  import opened Common
  import opened Server
  import opened Collection

  /** The two keys of the category form; a blank or absent text holds "". */
  datatype CategoryForm = CategoryForm(name: string, description: string)

  type Category = Row<CategoryForm, OtherKeys>

  const Entity: string := "categories"

  const Blank: CategoryForm := CategoryForm("", "")

  datatype Field = Name

  const NameRequired: string := "Tên sản phẩm không được bỏ trống"

  /** The schema: the name is required, the description is an optional text. */
  function Violations(d: CategoryForm): (errors: map<Field, string>)
    ensures Name in errors <==> d.name == ""
    ensures Name in errors ==> errors[Name] == NameRequired
  {
    if d.name == "" then map[Name := NameRequired] else map[]
  }

  /** The description never decides whether a draft passes. */
  lemma DescriptionIsOptional(d: CategoryForm, description: string)
    ensures Violations(d.(description := description)) == Violations(d)
  {
  }

  /** A draft passes exactly when its name is set. */
  lemma NamedPasses(d: CategoryForm)
    ensures Violations(d) == map[] <==> d.name != ""
  {
    if d.name == "" {
      assert Name in Violations(d);
    }
  }

  class CategoriesPage {
    var categories: seq<Category>
    var selectedId: Option<int>
    var form: CategoryForm

    constructor ()
      ensures categories == [] && selectedId == None && form == Blank
    {
      categories := [];
      selectedId := None;
      form := Blank;
    }

    /** GET the collection and replace the list with the response; a thrown error
        is only logged and the list stays. Also the mount effect. */
    method FetchData(reply: Reply<seq<Category>>) returns (request: Request)
      modifies this
      ensures request == Request(Get, CollectionPath(Entity))
      ensures categories == if reply.Answered? then reply.body else old(categories)
      ensures selectedId == old(selectedId) && form == old(form)
    {
      request := Request(Get, CollectionPath(Entity));
      if reply.Answered? {
        categories := reply.body;
      }
    }

    /** The user typing into the two inputs. */
    method Input(typed: CategoryForm)
      modifies this
      ensures form == typed
      ensures categories == old(categories) && selectedId == old(selectedId)
    {
      form := typed;
    }

    /** The schema runs first; a valid draft is PATCHed to the selected category
        or POSTed. A confirmed reply re-fetches the list (`refetch` is the reply to
        that GET); a confirmed update then also leaves edit mode. The draft is never
        cleared, and a confirmed create keeps the page in create mode. Anything else
        leaves the page as it was and issues no follow-up request. */
    method OnSubmit(reply: Reply<Category>, refetch: Reply<seq<Category>>)
      returns (s: Submission<CategoryForm, Field>, followUp: Option<Request>)
      modifies this
      ensures Violations(old(form)) != map[] ==>
                s == Rejected(Violations(old(form))) && followUp == None && unchanged(this)
      ensures Violations(old(form)) == map[] ==>
                s.Sent? && s.payload == old(form) &&
                (old(selectedId).Some? ==>
                   s.request == Request(Patch, ItemPath(Entity, old(selectedId).value)) &&
                   s.notice == ReplyNotice(reply, 200, Updated)) &&
                (old(selectedId).None? ==>
                   s.request == Request(Post, CollectionPath(Entity)) &&
                   s.notice == ReplyNotice(reply, 201, Created))
      ensures s.Sent? && s.notice.Success? ==>
                followUp == Some(Request(Get, CollectionPath(Entity))) &&
                categories == (if refetch.Answered? then refetch.body else old(categories)) &&
                selectedId == None && form == old(form)
      ensures !(s.Sent? && s.notice.Success?) ==> followUp == None && unchanged(this)
    {
      var errors := Violations(form);
      if errors != map[] {
        return Rejected(errors), None;
      }
      var data := form;
      if selectedId.Some? {
        s := Sent(Request(Patch, ItemPath(Entity, selectedId.value)), data, ReplyNotice(reply, 200, Updated));
        if Confirmed(reply, 200) {
          var get := FetchData(refetch);
          followUp := Some(get);
          selectedId := None;
        } else {
          followUp := None;
        }
      } else {
        s := Sent(Request(Post, CollectionPath(Entity)), data, ReplyNotice(reply, 201, Created));
        if Confirmed(reply, 201) {
          var get := FetchData(refetch);
          followUp := Some(get);
        } else {
          followUp := None;
        }
      }
    }

    /** DELETE the category; a confirmed deletion re-fetches the list instead of filtering it. */
    method OnDelete(id: int, reply: Reply<()>, refetch: Reply<seq<Category>>)
      returns (request: Request, notice: Notice, followUp: Option<Request>)
      modifies this
      ensures request == Request(Delete, ItemPath(Entity, id))
      ensures notice == ReplyNotice(reply, 204, Deleted)
      ensures Confirmed(reply, 204) ==>
                followUp == Some(Request(Get, CollectionPath(Entity))) &&
                categories == if refetch.Answered? then refetch.body else old(categories)
      ensures !Confirmed(reply, 204) ==> followUp == None && categories == old(categories)
      ensures selectedId == old(selectedId) && form == old(form)
    {
      request := Request(Delete, ItemPath(Entity, id));
      notice := ReplyNotice(reply, 204, Deleted);
      if Confirmed(reply, 204) {
        var get := FetchData(refetch);
        followUp := Some(get);
      } else {
        followUp := None;
      }
    }

    /** Either Add button: create mode with a blank draft. */
    method HandleAddButtonClick()
      modifies this
      ensures selectedId == None && form == Blank
      ensures categories == old(categories)
    {
      selectedId := None;
      form := Blank;
    }

    /** A row's edit button: edit mode for that row, name and description copied. */
    method Edit(row: Category)
      modifies this
      ensures selectedId == Some(row.id) && form == row.fields
      ensures categories == old(categories)
    {
      selectedId := Some(row.id);
      form := row.fields;
    }
  }

  /** A confirmed create leaves the draft and create mode in place, so submitting
      again POSTs the same category a second time. */
  method CreateTwice(page: CategoriesPage, typed: CategoryForm, first: Reply<Category>, second: Reply<Category>,
                     refetch: Reply<seq<Category>>)
    returns (s1: Submission<CategoryForm, Field>, s2: Submission<CategoryForm, Field>)
    requires typed.name != ""
    requires Confirmed(first, 201)
    modifies page
    ensures s1 == Sent(Request(Post, CollectionPath(Entity)), typed, Success(Created))
    ensures s2.Sent? && s2.request == s1.request && s2.payload == typed
  {
    page.HandleAddButtonClick();
    page.Input(typed);
    var f1;
    s1, f1 := page.OnSubmit(first, refetch);
    var f2;
    s2, f2 := page.OnSubmit(second, refetch);
  }

  /** A confirmed update leaves edit mode but keeps the edited values, so the next
      submit POSTs them as a new category. */
  method UpdateThenSubmitCreates(page: CategoriesPage, row: Category, first: Reply<Category>, second: Reply<Category>,
                                 refetch: Reply<seq<Category>>)
    returns (s1: Submission<CategoryForm, Field>, s2: Submission<CategoryForm, Field>)
    requires row.fields.name != ""
    requires Confirmed(first, 200)
    modifies page
    ensures s1 == Sent(Request(Patch, ItemPath(Entity, row.id)), row.fields, Success(Updated))
    ensures s2.Sent? && s2.request == Request(Post, CollectionPath(Entity)) && s2.payload == row.fields
  {
    page.Edit(row);
    var f1;
    s1, f1 := page.OnSubmit(first, refetch);
    var f2;
    s2, f2 := page.OnSubmit(second, refetch);
  }
}
