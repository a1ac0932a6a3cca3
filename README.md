# Todo app core: user registry and REST decision logic

This project models the core of a server-side todo-list application. Users register, log in, and manage personal todo items through a JSON REST API. Two parts are modelled:

- **The user registry** (`UserManager`). It is an in-memory set of users with three operations. `register` adds a user whose name is new ignoring case. `authenticate` tells an unknown name apart from a wrong password; the name ignores case and the password is compared exactly. `isRegistered` is the membership test on names ignoring case. The registry is a class, `Registry.UserManager`, with a `users: set<User>` field. Its scans are `while` loops over the set that take elements in an arbitrary order, as a `HashSet` iterator does.
- **The REST handlers** (`TodosRestServlet` and `UsersRestServlet`). Each handler is a fixed cascade of checks that ends in one HTTP status, with at most one change of state. Each cascade is a pure function over an abstract request (`PostCheck`, `PutCheck`, `DeleteCheck`, `GetResponse`, `RegistrationCheck`). The handlers that change state (`DoPost`, `DoPut`, `DoDelete`, `UsersRest.DoPost`) are methods that modify the current `User`'s `todos` list or the registry. Each is proved against those functions.

How the source is represented:

- `String.equalsIgnoreCase` is modelled as equality after ASCII lower-casing (`Text.Fold`). The media-type test `Http.IsJson` is written character by character against the all lower-case `application/json`, and `Http.JsonIgnoringCase` proves it is that same comparison.
- A request body is taken as already parsed: `Option<map<string, Json.Value>>`. `None` stands for a body that `readJsonData` could not read, or read as null. A Java cast that would throw is handled where the source catches it: it gives status 400.
- The path info is taken as already split and parsed: `NoPath` (null or empty), `PathId(id)`, or `BadPath` (the split or `Integer.parseInt` throws).
- `LocalDate.parse` is a parameter, `parseDate: string -> Option<Date>`; `None` means it throws. `LocalDate.MIN`, the sentinel `updateTodo` uses for "no date given", is `Model.MinDate`. A supplied date equal to it therefore leaves the due date unchanged, exactly as the code behaves.
- The id the `Todo` constructor draws from its counter is a parameter, `newId`. The model makes no claim about how ids are assigned. Its results about unique ids assume that `newId` is not already in the list.
- The current user (`userManager.getUser(request.getAttribute("userID"))`) is passed to each handler as a parameter.
- `JsonHelper.CONTENT_TYPE` is taken to be `application/json`. The header must equal it ignoring case, so a header like `application/json; charset=UTF-8` gets 415 or 406, as the code is written.

## Model

| member | source | states |
|---|---|---|
| `Text.Fold` | src/main/java/model/UserManager.java:87 | The case-folded string has the same length and lowers each character in place; this is the comparison `equalsIgnoreCase` makes. |
| `Text.EqualsIgnoreCaseByChars` | src/main/java/model/UserManager.java:87 | In both directions, comparing folded strings is the same as "same length, and each pair of characters equal once lowered". |
| `Text.FoldIdempotent` | src/main/java/model/UserManager.java:87 | Folding a string twice gives the same result as folding it once. |
| `Http.JsonIgnoringCase` | src/main/java/controller/rest/TodosRestServlet.java:42 | The media-type test the servlets apply to Content-Type and Accept holds exactly when the header equals `application/json` ignoring case, in both directions. |
| `Model.Find` | src/main/java/controller/rest/TodosRestServlet.java:55 | `getTodo(id)` gives the position of the first todo with that id. It gives none exactly when no todo has the id. |
| `Model.Filter` | src/main/java/controller/rest/TodosRestServlet.java:71 | `getTodos(category)` holds exactly the todos whose category equals the parameter. It keeps each such todo as many times as the list holds it, and no other todo. It is the whole list when there is no parameter, and is never longer than the list. |
| `Model.RemoveExactlyOne` | src/main/java/controller/rest/TodosRestServlet.java:204-206 | On a list with unique ids, removing the found todo takes out exactly that one (as multisets). Ids stay unique, and no remaining todo has the removed id. |
| `Model.AppendFresh` | src/main/java/controller/rest/TodosRestServlet.java:276-278 | Appending a todo whose id is new keeps ids unique, and `getTodo` then finds the new todo at the end. |
| `Model.FindAfterUpdate` | src/main/java/controller/rest/TodosRestServlet.java:247-262 | Writing back a todo with the same id at the position `getTodo` found does not change what `getTodo` finds. |
| `Model.User.constructor` | src/main/java/model/UserManager.java:49 | A new user has the given name and password and no todos. |
| `Model.User.AddTodo` | src/main/java/controller/rest/TodosRestServlet.java:278 | `addTodo` appends the todo to the user's list. |
| `Model.User.DeleteTodo` | src/main/java/controller/rest/TodosRestServlet.java:206 | `deleteTodo` removes the found todo and keeps the rest in order. |
| `Model.User.UpdateTodo` | src/main/java/controller/rest/TodosRestServlet.java:262 | After the setters, only the todo at the found position changes, and it holds the new values. |
| `Registry.PasswordDecides` | src/main/java/model/UserManager.java:68-75 | While names are unique ignoring case, a registered name picks out one user. Authentication then succeeds exactly when that user's password equals the given one, and returns that user. |
| `Registry.PasswordIsCaseSensitive` | src/main/java/model/UserManager.java:71 | One worked example: "ADMIN" matches the stored name "admin", while "secret" does not match the stored password "Secret". The general rule is in `Registry.UserManager.Authenticate`'s contract. |
| `Registry.UserManager.constructor` | src/main/java/model/UserManager.java:20 | The registry starts with an empty set of users, which keeps its invariant. |
| `Registry.UserManager.IsRegistered` | src/main/java/model/UserManager.java:84-92 | Returns true exactly when some user's name equals the given name ignoring case. |
| `Registry.UserManager.Register` | src/main/java/model/UserManager.java:47-55 | A taken name (ignoring case) gives `NotUnique` and leaves `users` unchanged. Otherwise exactly one fresh user with this name and password is added and returned. Names stay unique up to case. |
| `Registry.UserManager.Authenticate` | src/main/java/model/UserManager.java:64-77 | An unregistered name gives `UnknownUser`. A registered name with no user holding exactly this password gives `PasswordMismatch`. Otherwise it returns a stored user whose name matches ignoring case and whose password matches exactly. `users` is never modified. |
| `Registry.RegistrationScenario` | src/main/java/model/UserManager.java:47-77 | After registering "admin": "ADMIN" is refused as not unique; "Admin" with the right password logs in; a wrong password and an unknown name get their two distinct errors. |
| `TodosRest.GetById` | src/main/java/controller/rest/TodosRestServlet.java:52-67 | GET of an id gives 200 with a todo carrying that id exactly when one exists. Otherwise it gives 404 with no body. |
| `TodosRest.GetResponse` | src/main/java/controller/rest/TodosRestServlet.java:38-76 | A non-JSON Accept gives 406, whatever the rest of the request holds. With no path: 200 with the list filtered by category (`Model.Filter`). With an unparseable path: 404. With an id: the single-todo answer (`TodosRest.GetById`). |
| `TodosRest.ReadNewTodo` | src/main/java/controller/rest/TodosRestServlet.java:268-273 | Together with the title check of lines 105-107, the body is accepted exactly when the following hold: it is non-empty; the title is a non-empty String; category and dueDate are String or null; important and completed are boolean or null; a given date parses. Defaults: category "", important and completed false, no due date. |
| `TodosRest.PostCheck` | src/main/java/controller/rest/TodosRestServlet.java:86-119 | Content-Type is checked before Accept, so a request failing both gets 415. A missing, empty or title-less body gives 400. With JSON Content-Type and Accept, success comes exactly from a body `ReadNewTodo` accepts, and yields what it reads. |
| `TodosRest.AddNewTodo` | src/main/java/controller/rest/TodosRestServlet.java:268-283 | Appends one todo with the drawn id and the read fields. Answers 201 with that id. |
| `TodosRest.DoPost` | src/main/java/controller/rest/TodosRestServlet.java:86-119 | A failed check gives its status and adds nothing. Success adds exactly the new todo and answers 201 with its id. |
| `TodosRest.PostThenGet` | src/main/java/controller/rest/TodosRestServlet.java:268-282 | After a successful POST with a fresh id, ids stay unique, and GET of that id gives 200 with the new todo. |
| `TodosRest.PutCheck` | src/main/java/controller/rest/TodosRestServlet.java:130-180 | A non-JSON Content-Type gives 415. A missing or unparseable path gives 400. No todo with the id gives 404. A found todo gets 400 when the body is unread or empty, the body id differs from the path id, or the title is missing or empty. |
| `TodosRest.PatchedTodo` | src/main/java/controller/rest/TodosRestServlet.java:241-261 | The patch rule. The title is always replaced. Category and due date change only for a non-empty value (a date equal to LocalDate.MIN counts as none). important and completed change only when present. The id never changes. A failed cast or date parse gives none. |
| `TodosRest.UpdateTodo` | src/main/java/controller/rest/TodosRestServlet.java:241-266 | The corrected `updateTodo` (every cast before the first setter; see "## Findings"). It applies the setters step by step to the found todo and answers 204. A failed cast or parse gives 400 and leaves the list unchanged, which the code as written does not do. |
| `TodosRest.DoPut` | src/main/java/controller/rest/TodosRestServlet.java:130-183 | Uses the corrected `updateTodo` (see "## Findings"). A failed check gives its status with no change. Otherwise only the found todo changes, to its patched value, and the answer is 204. |
| `TodosRest.PutIsIdempotent` | src/main/java/controller/rest/TodosRestServlet.java:241-264 | Repeating a successful PUT on the list it produced finds the same todo and leaves it as it is. |
| `TodosRest.PutThenGet` | src/main/java/controller/rest/TodosRestServlet.java:241-262 | After a successful PUT, GET of the same id gives 200 with the patched todo. |
| `TodosRest.DeleteCheck` | src/main/java/controller/rest/TodosRestServlet.java:194-222 | No header is checked. A missing path, an unparseable id or an unknown id gives 404. Otherwise it gives the position of the first todo with the id. |
| `TodosRest.DoDelete` | src/main/java/controller/rest/TodosRestServlet.java:194-222 | Success removes exactly the found todo and answers 204. A 404 changes nothing. |
| `TodosRest.DeleteThenGet` | src/main/java/controller/rest/TodosRestServlet.java:199-221 | On a list with unique ids, DELETE removes exactly the todo with the path id, and GET of that id afterwards gives 404. |
| `TodosRest.PatchedTodoAsWritten` | src/main/java/controller/rest/TodosRestServlet.java:241-261 | `updateTodo` as written. A bad category or dueDate, or a date that does not parse, fails before any setter and leaves the todo as it was. Past those checks the title is already replaced, whether or not the later casts of important and completed succeed. The id never changes. |
| `TodosRest.AsWrittenAgreesOnSuccess` | src/main/java/controller/rest/TodosRestServlet.java:242-261 | `updateTodo` as written fails on exactly the bodies the corrected version rejects. Where it succeeds, it makes the same todo. |
| `TodosRest.AsWrittenBadImportantKeepsNewTitle` | src/main/java/controller/rest/TodosRestServlet.java:247-256 | As written, a body whose `important` is not a boolean fails after the stored todo has already received the new title. |
| `UsersRest.RegistrationCheck` | src/main/java/controller/rest/UsersRestServlet.java:38-74 | A non-JSON Content-Type gives 415. An unread, null or empty body gives 400, and so does a name or password that is not a non-empty String. Otherwise it yields exactly the body's name and password. |
| `UsersRest.DoPost` | src/main/java/controller/rest/UsersRestServlet.java:35-76 | A failed check gives its status and registers no one. A name already taken (ignoring case) gives 409 with the registry unchanged. Otherwise exactly one user with these credentials is added and the answer is 201. |

## Left out

- XML persistence (`XmlHelper`, `writeData`, `loadUsers`, and the `admin` user that `loadUsers` adds). This is file I/O. Writing data is treated as a step with no effect on the in-memory state.
- `getInstance` and the singleton: the registry is an explicitly constructed object. Thread safety and concurrent requests are not modelled.
- JSON parsing (`JsonHelper.readJsonData`): the JSON body is taken as already parsed into a map. JsonHelper is not part of this model.
- Path parsing (`split("/")[1]`, `Integer.parseInt`) and date parsing (`LocalDate.parse`): their outcomes are inputs to the model.
- The user lookup (`getUser` with the `userID` request attribute): the current user is a parameter. A missing user, which would throw, is not modelled.
- Null `Content-Type` or `Accept` headers, which would throw: headers are non-null strings.
- Logging, `writeResponse` and the response headers it sets. The model does not keep the text "todoId" that a 204 is written with, and does not keep the difference between `setStatus` and `writeResponse` with an empty body.
- How user and todo ids are assigned: that happens in the `Todo` and `User` constructors, which are not part of this model. The model's users carry no id.
- Case folding outside ASCII: Java's `equalsIgnoreCase` also matches letters such as the Kelvin sign with `k`; the model lowers only `A`-`Z`.
- `TodoListServlet` (session lookup, redirects and views) and its `listIsFiltered` flag are left out. That servlet is web UI plumbing.
- `UserManager.getUsers`, a plain accessor, is covered by the `users` field.
- `Model.Filter`: states which todos are in the result and how many times, but not that their order is kept.
- The `User` class is not part of this model; only its calls appear in the servlet. The model's `Model.User`, `Model.Find` and `Model.Filter` assume this behaviour. `getTodo(id)` gives the first todo with the id. `getTodos(category)` applies no filter for null and otherwise keeps exactly the todos whose category equals the string. That includes the empty string, for which only todos with category "" are kept (`TodoListServlet` treats an empty category as no filter, and the behaviour of `User.getTodos` for it is an assumption). `addTodo` appends. `deleteTodo` removes the todo at the found position. `updateTodo`'s setters change the stored todo in place.
- `UserException` messages ("Username is not unique!" and the others): `UsersRestServlet` answers 409 without reading them, so the model keeps only which of the three errors was raised.

## Findings

| source | as written | input that shows it | evidently intended | confidence | as-written member | corrected member |
|---|---|---|---|---|---|---|
| src/main/java/controller/rest/TodosRestServlet.java:247-259 | `updateTodo` runs `setTitle`, `setCategory` and `setDueDate` on the stored todo before it casts `important` and `completed`. A cast that throws is caught in `doPut`, which answers 400. | A PUT to an existing todo with body `{"title": "new", "important": "yes"}` gets 400, yet the todo in memory already has the title "new". | A 400 leaves the todo unchanged; every cast is made before the first setter runs. | not executed; relies on `getTodo` returning the stored object, as the in-place setters imply | `TodosRest.PatchedTodoAsWritten`, `TodosRest.AsWrittenBadImportantKeepsNewTitle` | `TodosRest.UpdateTodo` (with `TodosRest.PatchedTodo`; `TodosRest.DoPut` uses it) |
