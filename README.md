# onlineShop admin pages — a Dafny model

This project models the client-side core of the onlineShop admin app, a React front end for a REST shop API.

It has three parts.

**Entity pages.** The orders, products, employees, customers, suppliers and categories pages each keep this state:
- a list of records with numeric ids;
- the id of the record being edited (`selectedId`, or none in create mode);
- whether the form is visible (categories has no such flag);
- the form's draft values;
- on products only, also the category and supplier lists its form offers.

Each page has these handlers:
- a submit that runs the form's schema and then PATCHes `/online-shop/<entity>/<id>` or POSTs `/online-shop/<entity>`;
- a delete;
- an Add button and a row's edit button;
- a reset, on every page except categories, whose Add button does that job.

After a confirmed reply the page updates its list:
- 201 appends the server's record;
- 200 overlays the submitted fields on the matching entries;
- 204 filters out the deleted id.

Categories instead re-fetches its list after each of these.

**Login.** A hard-coded pair of credentials skips the server. Any other pair is POSTed to `/auth/login`. The answer decides whether an `access_token` is written to localStorage.

**Side menu.** Each key maps to `/online-shop/<key>`. The current pathname maps back to the highlighted key.

## How it is modelled

**Server and replies.** The server is an input: a `Reply` is either a response (status and body) or an error axios threw. What the page shows is an output `Notice`. The error text follows `err.response?.data?.message[0] || 'Đã xảy ra lỗi'` exactly:
- With no response, or no data, the fallback is shown.
- A message array shows its first text.
- A plain-string message shows its first character.
- Data without a `message` key makes the catch block itself throw, and nothing is shown.

**Pages.** Each page is a class whose fields are the component's state and whose methods are the handlers. Every method's `ensures` gives the complete new state in terms of the old state and the reply.

**List updates.** The pure list transforms live in `Collection`. Lemmas there say what they keep:
- ids and order;
- uniqueness of ids;
- idempotence;
- multiplicities;
- relative order of the survivors of a delete.

**Forms.** A form's schema is a function from the draft to the map of failing fields and their messages. Texts that are blank or never set are `""`. Numbers never set are `None`.

**Employees, customers and suppliers.** These three modules have the same shape because their source files do. They differ only in the form's fields (six, six and four texts, each with its own messages) and in the Add button: on employees it clears the draft and leaves edit mode, on customers and suppliers it only shows the form.

**Scenarios.** Short module-level methods run several handlers in a row. They state what the user then sees or sends, for example that after Add an edit in products sends category 0.

### Behaviour of the code worth knowing

- Categories does not reset its form after a successful submit. An update only clears `selectedId`. A create keeps both the draft and create mode, so a second submit POSTs the same category again (`Categories.CreateTwice`).
- Categories never patches its list locally. Each confirmed mutation triggers a fresh GET, whose reply replaces the list.
- The edit button on the products page does not copy `categoriesId`. A draft filled from a row therefore does not read back as that row whenever the draft held another category (`Products.EditDoesNotLoadCategory`, `Products.AddThenEditSendsZeroCategory`).
- The orders form cannot create an order. The schema requires `shippedDate` and `status`, but the form has no input for either; only the edit button writes them, and the reset blanks them. In create mode both are therefore always blank (`Orders.OrdersPage.CreateModeBlank`), so every submit there is rejected and nothing is POSTed (`Orders.CreateNeverSends`). The form shows no message for these two fields, so with every input filled in the rejection is silent (`Orders.SilentRejection`). A fresh form already holds an empty line-item array, stored by the field array on mount, and that passes. The line-item array's append and remove are never called, so the form edits only the line items an edited record brought along.
- The Add button on the orders, customers and suppliers pages only shows the form. After an edit, the next submit is still a PATCH of the edited record (`Customers.EditThenAddStillUpdates`). On employees and products, Add also clears the draft and `selectedId`.

## Model

| member | source | states |
|---|---|---|
| Common.IntToString | src/pages/order/post.tsx:98 | `${id}`: never empty, and starts with a minus sign exactly when the id is negative; its round trip and injectivity are Common.IntRoundTrip and Common.IntToStringInjective |
| Common.IntRoundTrip | src/pages/order/post.tsx:98 | the decimal text of an id, as `${id}` renders it, parses back to that id, negative ids included |
| Common.IntToStringInjective | src/pages/order/post.tsx:147 | two different ids never render to the same text |
| Server.CollectionPath | src/pages/order/post.tsx:80 | `/online-shop/<entity>`: the prefix followed by exactly the entity name |
| Server.ItemPath | src/pages/order/post.tsx:98 | `/online-shop/<entity>/<id>`: the collection path, a slash, then the id's text; that it names exactly that record is Server.ItemPathNamesRecord and Server.ItemPathInjective |
| Server.ItemPathNamesRecord | src/pages/order/post.tsx:98 | the PATCH/DELETE path `/online-shop/<entity>/<id>` names exactly the record `id` of that entity |
| Server.ItemPathInjective | src/pages/order/post.tsx:147 | different ids give different item paths |
| Server.FailureNotice | src/pages/order/post.tsx:125-127 | the error rule: server message (first text, or first character of a plain string), fallback 'Đã xảy ra lỗi' when there is no response, no data or an empty text, and no notice at all when data has no message |
| Server.ReplyNotice | src/pages/order/post.tsx:104-127 | success text exactly on the one status the handler checks, nothing on any other status, the error rule on a thrown error |
| Collection.Append | src/pages/order/post.tsx:121 | the created record lands at the end, length grows by one, every earlier entry unchanged |
| Collection.Overlay | src/pages/order/post.tsx:106-108 | same length; entries with the id get the submitted fields and keep id and other keys; all others unchanged |
| Collection.Remove | src/pages/order/post.tsx:155 | survivors are exactly the entries with another id, and the result is never longer |
| Collection.AppendKeepsUnique | src/pages/order/post.tsx:119-121 | appending a record with a fresh id keeps ids unique and extends the id list by that id |
| Collection.OverlayKeepsIds | src/pages/order/post.tsx:106-108 | an update never changes the ids or their order |
| Collection.OverlayIdempotent | src/pages/order/post.tsx:106-108 | applying the same update twice equals applying it once |
| Collection.OverlayAbsent | src/pages/order/post.tsx:106-108 | updating an id the list does not hold changes nothing |
| Collection.RemoveConcat | src/pages/order/post.tsx:155 | deleting distributes over concatenation, so survivors keep their relative order |
| Collection.RemoveCounts | src/pages/order/post.tsx:155 | every record with another id survives exactly as often as it occurred; none with the id survives |
| Collection.RemoveAbsent | src/pages/order/post.tsx:155 | deleting an id the list does not hold changes nothing |
| Collection.RemoveKeepsUnique | src/pages/order/post.tsx:155 | deleting keeps ids unique |
| Collection.RemoveHeldShrinks | src/pages/order/post.tsx:155 | with unique ids, deleting a held id shrinks the list by exactly one |
| Orders.DraftOf | src/pages/order/post.tsx:424-436 | filling the form from a record sets every field, with one complete line draft per line item in order |
| Orders.Violations | src/pages/order/post.tsx:29-51 | every reported field breaks its rule and carries its own message |
| Orders.ViolationsExact | src/pages/order/post.tsx:29-51 | a field, including `orderDetails[i].k`, is reported exactly when it breaks its rule |
| Orders.CompleteIffNoViolations | src/pages/order/post.tsx:29-51 | the schema passes exactly when all seven texts are non-empty, both ids, the line array and all five numbers of every line are present |
| Orders.Validate | src/pages/order/post.tsx:29-51 | the schema yields values exactly when nothing fails, and those values fill the draft back exactly; otherwise all failing fields |
| Orders.DraftRoundTrip | src/pages/order/post.tsx:424-436 | a record with non-empty texts, filled into the form and validated, gives back that record, line items included |
| Orders.OrdersPage.constructor | src/pages/order/post.tsx:64-75 | empty list, create mode, hidden form, no text or id set, and the empty line-item array the field array stores on mount |
| Orders.OrdersPage.FetchData | src/pages/order/post.tsx:77-93 | GET of the collection; the list becomes the response, or stays on a thrown error |
| Orders.WithLineValue | src/pages/order/post.tsx:293-365 | typing into one number input of a line item sets that number and keeps the other four |
| Orders.ShownErrors | src/pages/order/post.tsx:190-381 | the messages the form displays: every reported field except the shipping date and the status, which have no message element |
| Orders.SilentRejection | src/pages/order/post.tsx:29-51 | a draft with a blank shipping date is always rejected, and when every displayed field passes the rejection displays nothing |
| Orders.OrdersPage.Input | src/pages/order/post.tsx:184-275 | typing sets the five texts and two ids that have inputs; shipping date, status and line items keep their values; create mode stays blank-dated |
| Orders.OrdersPage.InputLine | src/pages/order/post.tsx:285-373 | only a line item the form already holds has inputs; typing sets one of its numbers, keeps the line count and all else |
| Orders.OrdersPage.HandleResetForm | src/pages/order/post.tsx:130-143 | create mode, empty texts, ids 0, no line items, hidden form; list unchanged |
| Orders.OrdersPage.OnSubmit | src/pages/order/post.tsx:95-128 | invalid draft: errors, no request, no change; else PATCH of the selected id or POST; 200 overlays and resets, 201 appends and resets; anything else changes nothing; in create mode with blank shipping date and status the submit is always rejected on both |
| Orders.OrdersPage.OnDelete | src/pages/order/post.tsx:145-160 | DELETE of the id; 204 filters it out; otherwise the list stays; form state untouched |
| Orders.OrdersPage.AddClick | src/pages/order/post.tsx:167-171 | only shows the form; draft and selected id stay |
| Orders.OrdersPage.Edit | src/pages/order/post.tsx:424-436 | edit mode for the row, all ten keys copied (nine fields and the line items), form shown |
| Orders.CreateNeverSends | src/pages/order/post.tsx:95-143 | on a fresh page, whatever the user types, the submit is rejected on the blank shipping date and status, neither message is displayed, and with every input filled in nothing at all is displayed |
| Orders.EditThenSubmit | src/pages/order/post.tsx:424-436 | editing a row and submitting unchanged PATCHes that row with its own values |
| Products.Violations | src/pages/Products/post.tsx:56-64 | each of the seven fields is reported exactly when blank or unset, with its own message |
| Products.Validate | src/pages/Products/post.tsx:56-64 | values exactly when nothing fails, and they fill the draft back exactly; otherwise all failing fields |
| Products.DraftRoundTrip | src/pages/Products/post.tsx:56-64 | a record with non-empty texts, filled in and validated, gives back that record |
| Products.Populated | src/pages/Products/post.tsx:355-365 | the edit button writes six of the row's fields and leaves the draft's category untouched |
| Products.EditDoesNotLoadCategory | src/pages/Products/post.tsx:355-365 | when the draft held another category, the edited draft neither equals the row's draft nor validates to the row |
| Products.ProductsPage.constructor | src/pages/Products/post.tsx:76-80 | empty lists, create mode, hidden form, nothing set |
| Products.ProductsPage.FetchData | src/pages/Products/post.tsx:82-103 | three GETs in turn, stopping at the first thrown error; the three lists are set only when all three answered, otherwise none changes |
| Products.ProductsPage.Input | src/pages/Products/post.tsx:210-317 | typing changes only the draft |
| Products.ProductsPage.HandleResetForm | src/pages/Products/post.tsx:147-157 | create mode, empty texts, all five numbers 0, hidden form |
| Products.ProductsPage.OnSubmit | src/pages/Products/post.tsx:105-145 | invalid draft: errors, no change; else PATCH or POST of the validated values; 200 overlays the seven fields keeping id and nested category/supplier, 201 appends; both reset |
| Products.ProductsPage.OnDelete | src/pages/Products/post.tsx:159-176 | DELETE of the id; 204 filters it out |
| Products.ProductsPage.AddClick | src/pages/Products/post.tsx:187-197 | create mode, the reset's values, form shown |
| Products.ProductsPage.Edit | src/pages/Products/post.tsx:355-365 | edit mode for the row, six fields copied, category kept, form shown |
| Products.AddThenEditSendsZeroCategory | src/pages/Products/post.tsx:355-365 | after Add, editing a row and submitting PATCHes it with category 0 instead of its own |
| Employees.Violations | src/pages/employees/post.tsx:28-35 | each field is reported exactly when blank; email also when not an address, with 'Email không hợp lệ' |
| Employees.ValidIffFilled | src/pages/employees/post.tsx:28-35 | the schema passes exactly when all six fields are filled and the email is an address |
| Employees.EmployeesPage.constructor | src/pages/employees/post.tsx:47-49 | empty list, create mode, hidden form, blank draft |
| Employees.EmployeesPage.FetchData | src/pages/employees/post.tsx:51-67 | GET; list replaced by the response, kept on a thrown error |
| Employees.EmployeesPage.Input | src/pages/employees/post.tsx:168-246 | typing changes only the draft |
| Employees.EmployeesPage.HandleResetForm | src/pages/employees/post.tsx:106-115 | create mode, six blank fields, hidden form |
| Employees.EmployeesPage.OnSubmit | src/pages/employees/post.tsx:69-104 | invalid draft: errors, no change; else PATCH or POST of the draft; 200 overlays, 201 appends, both reset; anything else changes nothing |
| Employees.EmployeesPage.OnDelete | src/pages/employees/post.tsx:117-134 | DELETE of the id; 204 filters it out |
| Employees.EmployeesPage.AddClick | src/pages/employees/post.tsx:145-154 | create mode, blank draft, form shown |
| Employees.EmployeesPage.Edit | src/pages/employees/post.tsx:278-287 | edit mode for the row, all six fields copied, form shown |
| Employees.EditThenSubmit | src/pages/employees/post.tsx:278-287 | a valid row edited and submitted is PATCHed with its own values, and a confirmed reply leaves it in place |
| Employees.EditThenAddCreates | src/pages/employees/post.tsx:145-154 | Add after an edit returns to create mode: the next submit is validated as a blank draft |
| Customers.Violations | src/pages/Customers/post.tsx:28-35 | each field is reported exactly when blank; email also when not an address |
| Customers.ValidIffFilled | src/pages/Customers/post.tsx:28-35 | the schema passes exactly when all six fields are filled and the email is an address |
| Customers.CustomersPage.constructor | src/pages/Customers/post.tsx:47-49 | empty list, create mode, hidden form, blank draft |
| Customers.CustomersPage.FetchData | src/pages/Customers/post.tsx:51-67 | GET; list replaced by the response, kept on a thrown error |
| Customers.CustomersPage.Input | src/pages/Customers/post.tsx:158-237 | typing changes only the draft |
| Customers.CustomersPage.HandleResetForm | src/pages/Customers/post.tsx:106-115 | create mode, six blank fields, hidden form |
| Customers.CustomersPage.OnSubmit | src/pages/Customers/post.tsx:69-104 | invalid draft: errors, no change; else PATCH or POST; 200 overlays, 201 appends, both reset |
| Customers.CustomersPage.OnDelete | src/pages/Customers/post.tsx:117-134 | DELETE of the id; 204 filters it out |
| Customers.CustomersPage.AddClick | src/pages/Customers/post.tsx:144 | only shows the form |
| Customers.CustomersPage.Edit | src/pages/Customers/post.tsx:268-277 | edit mode for the row, all six fields copied, form shown |
| Customers.EditThenSubmit | src/pages/Customers/post.tsx:268-277 | a valid row edited and submitted is PATCHed with its own values |
| Customers.EditThenAddStillUpdates | src/pages/Customers/post.tsx:144 | Add after an edit keeps edit mode: the next submit still PATCHes the edited record |
| Suppliers.Violations | src/pages/Suppliers/post.tsx:24-29 | each of the four fields is reported exactly when blank; email also when not an address |
| Suppliers.ValidIffFilled | src/pages/Suppliers/post.tsx:24-29 | the schema passes exactly when all four fields are filled and the email is an address |
| Suppliers.SuppliersPage.constructor | src/pages/Suppliers/post.tsx:41-43 | empty list, create mode, hidden form, blank draft |
| Suppliers.SuppliersPage.FetchData | src/pages/Suppliers/post.tsx:45-61 | GET; list replaced by the response, kept on a thrown error |
| Suppliers.SuppliersPage.Input | src/pages/Suppliers/post.tsx:150-202 | typing changes only the draft |
| Suppliers.SuppliersPage.HandleResetForm | src/pages/Suppliers/post.tsx:100-107 | create mode, four blank fields, hidden form |
| Suppliers.SuppliersPage.OnSubmit | src/pages/Suppliers/post.tsx:63-98 | invalid draft: errors, no change; else PATCH or POST; 200 overlays, 201 appends, both reset |
| Suppliers.SuppliersPage.OnDelete | src/pages/Suppliers/post.tsx:109-126 | DELETE of the id; 204 filters it out |
| Suppliers.SuppliersPage.AddClick | src/pages/Suppliers/post.tsx:136 | only shows the form |
| Suppliers.SuppliersPage.Edit | src/pages/Suppliers/post.tsx:229-236 | edit mode for the row, all four fields copied, form shown |
| Suppliers.EditThenSubmit | src/pages/Suppliers/post.tsx:229-236 | a valid row edited and submitted is PATCHed with its own values |
| Suppliers.EditThenAddStillUpdates | src/pages/Suppliers/post.tsx:136 | Add after an edit keeps edit mode: the next submit still PATCHes the edited record |
| Categories.Violations | src/pages/categories/post.tsx:14-17 | the name is reported exactly when blank, with its message |
| Categories.DescriptionIsOptional | src/pages/categories/post.tsx:14-17 | the description never changes the schema's verdict |
| Categories.NamedPasses | src/pages/categories/post.tsx:14-17 | the schema passes exactly when the name is set |
| Categories.CategoriesPage.constructor | src/pages/categories/post.tsx:29-30 | empty list, create mode, blank draft |
| Categories.CategoriesPage.FetchData | src/pages/categories/post.tsx:36-48 | GET; list replaced by the response, kept on a thrown error |
| Categories.CategoriesPage.Input | src/pages/categories/post.tsx:108-123 | typing changes only the draft |
| Categories.CategoriesPage.OnSubmit | src/pages/categories/post.tsx:50-79 | invalid draft: errors, no change; else PATCH or POST; a confirmed reply re-fetches the list, an update also leaves edit mode; the draft is never cleared |
| Categories.CategoriesPage.OnDelete | src/pages/categories/post.tsx:87-102 | DELETE of the id; 204 re-fetches the list; draft and mode untouched |
| Categories.CategoriesPage.HandleAddButtonClick | src/pages/categories/post.tsx:81-85 | create mode with a blank draft |
| Categories.CategoriesPage.Edit | src/pages/categories/post.tsx:162-166 | edit mode for the row, name and description copied |
| Categories.CreateTwice | src/pages/categories/post.tsx:71-74 | after a confirmed create the same draft is POSTed again on the next submit |
| Categories.UpdateThenSubmitCreates | src/pages/categories/post.tsx:59-63 | after a confirmed update the edited values are POSTed as a new category on the next submit |
| Login.Violations | src/pages/login.tsx:20-23 | username fails exactly when blank or not an address; password fails exactly when shorter than 3 or longer than 20 |
| Login.BypassPassesSchema | src/pages/login.tsx:38-42 | the hard-coded pair passes the schema whenever its username counts as an address |
| Login.LocalStorage.SetItem | src/pages/login.tsx:62 | writes one key, keeps every other |
| Login.OnSubmit | src/pages/login.tsx:35-82 | schema failure: nothing runs; bypass pair: 'LOGIN OK', './main', no request, no token; else POST '/auth/login'; loggedInUser: token stored under 'access_token', '/main'; not logged in: failure alert; thrown 401: 'LOGIN FAILED (401)'; other error: generic alert; no token in any failure |
| Login.RefusedThenAccepted | src/pages/login.tsx:58-71 | a refused attempt writes nothing, so after a refused then an accepted login the token is exactly the accepted one |
| MainLayout.NavTarget | src/MainLayout.tsx:69 | selecting an item navigates to '/online-shop/' followed by exactly its key; the round trip is MainLayout.SelectedKeyOfNavTarget, routing MainLayout.MenuTargetsRouted |
| MainLayout.SelectedKey | src/MainLayout.tsx:63 | the pathname unchanged when the prefix does not occur, otherwise shorter by exactly the prefix; the exact results are MainLayout.SelectedKeyOfPrefixed and MainLayout.SelectedKeyUnprefixed |
| MainLayout.IndexOf | src/MainLayout.tsx:63 | the first position where the pattern occurs, and none when it does not occur |
| MainLayout.ReplaceFirst | src/MainLayout.tsx:63 | only the first occurrence is replaced; no occurrence leaves the text unchanged |
| MainLayout.SelectedKeyOfPrefixed | src/MainLayout.tsx:63 | a pathname starting with '/online-shop/' highlights what follows it |
| MainLayout.SelectedKeyOfNavTarget | src/MainLayout.tsx:63-69 | round trip: the page a key navigates to highlights that key again |
| MainLayout.SelectedKeyUnprefixed | src/MainLayout.tsx:63 | a pathname without the prefix is returned unchanged |
| MainLayout.UnprefixedRoutesSelectNothing | src/MainLayout.tsx:63 | '/' and '/about' stay as they are and match no menu key |
| MainLayout.MenuKeysDistinct | src/MainLayout.tsx:9-39 | the menu's keys are exactly login, categories, suppliers, products, employees, customers, orders, in that order, seven of them and pairwise distinct |
| MainLayout.MenuTargetsRouted | src/main.tsx:24-65 | every menu key navigates to a child path the router declares |
| MainLayout.RoutedPathsSelectMenuKeys | src/main.tsx:24-65 | every declared child path under '/online-shop/' highlights a menu key |

## Left out

- HTTP itself (axios, the `Authorization` header read from localStorage, console logging) and antd's `message`/`alert`: a reply is a parameter and the shown text a returned value.
- Async interleaving of in-flight requests (double submits, a late response winning): each handler runs atomically given its reply.
- Categories.CategoriesPage.OnSubmit and Categories.CategoriesPage.OnDelete: the re-fetch is not awaited in the source; the model applies its reply before the handler returns.
- Orders.CompleteIffNoViolations: an empty line-item array passes, as `array().required()` behaves in yup 1.x; yup 0.x rejects an empty array, which would add `orderDetails` to the failing fields whenever the array is empty.
- Categories.DescriptionIsOptional: the description is a text, so a row whose description the server sends as null is not modelled; editing such a row copies the null into the form, and `yup.string()` rejects null, so that submit is blocked with a type error the model does not show.
- JSX rendering, table layout, row keys, modal markup.
- The email format check of yup: it is the parameter `isEmail`. Whether the hard-coded login name passes it depends on yup's version, so the bypass is stated under that assumption (Login.BypassPassesSchema).
- yup's default texts for the login schema: Login.Violations gives the failing fields, not their messages.
- Login.OnSubmit: JavaScript truthiness of `loggedInUser` is modelled as a boolean, and navigation targets are returned as written (react-router resolves './main' relative to the current route).
- The string-to-number coercion of number inputs: a cleared number input, which yup reports as a type error, is not modelled; numbers are present or never set.
- Validation of several fields in one pass: every failing field is reported, as the resolver collects them; yup's order among them is not modelled.
- String lengths count characters, not UTF-16 units, and a plain-string server message yields its first character, not its first UTF-16 unit.
- The DOM default of the category and supplier selects: a select never touched by `setValue` is modelled as keeping the draft's value.
- Route matching itself (react-router): the router's paths are data for the menu round trip only.
- src/pages/categories/getbyid.tsx and src/pages/categories/getAll.tsx: a single GET each, with no state logic.
