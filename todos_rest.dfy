/**
 * The todo REST handlers (TodosRestServlet, mapped to the api/todos path and below it): each handler
 * is a fixed cascade of checks that ends in one HTTP status, with at most one
 * change to the current user's todo list.
 */
module TodosRest {
  import opened Wrappers
  import opened Json
  import opened Http
  import opened Model

  /** request.getPathInfo(), read as Integer.parseInt(pathInfo.split("/")[1]). */
  datatype PathInfo =
    | NoPath            // null or empty: the whole list
    | PathId(id: Int32) // "/{id}"
    | BadPath           // the split or the parse throws

  datatype Request = Request(
    contentType: string,       // request.getContentType()
    accept: string,            // request.getHeader("Accept")
    path: PathInfo,
    category: Option<string>,  // request.getParameter("category")
    body: Option<Object>)      // readJsonData of the body; None when it returns null or throws

  datatype Payload = NoPayload | OneTodo(todo: Todo) | TodoList(todos: seq<Todo>) | CreatedId(id: Int32)

  datatype Response = Response(status: int, payload: Payload)

  /** LocalDate.parse, which throws (None) on text that is not a date. */
  type DateParser = string -> Option<Date>

  /** The body carries a non-empty String title. */
  predicate HasTitle(m: Object)
  {
    Get(m, "title").Str? && Get(m, "title").s != ""
  }

  /** The casts of category, dueDate, important and completed all succeed. */
  predicate OptionalFieldsTyped(m: Object)
  {
    && StringOrNull(Get(m, "category"))
    && StringOrNull(Get(m, "dueDate"))
    && BooleanOrNull(Get(m, "important"))
    && BooleanOrNull(Get(m, "completed"))
  }

  /** A non-empty dueDate string names a date that parses. */
  predicate DueDateParses(m: Object, parseDate: DateParser)
  {
    var due := Get(m, "dueDate");
    due.Str? && due.s != "" ==> parseDate(due.s).Some?
  }

  /** The date a non-empty dueDate string names, if any. */
  function GivenDate(m: Object, parseDate: DateParser): Option<Date>
  {
    var due := Get(m, "dueDate");
    if due.Str? && due.s != "" then parseDate(due.s) else None
  }

  /** A body id, where there is one, equals the path id (and the Integer cast succeeds). */
  predicate IdMatches(m: Object, id: Int32)
  {
    Get(m, "id").Null? || Get(m, "id") == Int(id)
  }

  // ---------------------------------------------------------------- GET

  /** The single-todo branch of doGet: the todo with this id, or 404. */
  function GetById(todos: seq<Todo>, id: Int32): (r: Response)
    ensures r.status == StatusOk <==> Find(todos, id).Some?
    ensures r.status == StatusOk ==> r.payload.OneTodo? && r.payload.todo in todos && r.payload.todo.id == id
    ensures r.status != StatusOk ==> r == Response(StatusNotFound, NoPayload)
  {
    match Find(todos, id)
    case Some(i) => Response(StatusOk, OneTodo(todos[i]))
    case None => Response(StatusNotFound, NoPayload)
  }

  /**
   * doGet. Only the Accept header is checked: anything but the JSON type
   * gives 406 regardless of the rest of the request. With an id the todo is
   * returned or 404 is given; without one the list filtered by category.
   */
  function GetResponse(req: Request, todos: seq<Todo>): (r: Response)
    ensures !IsJson(req.accept) ==> r == Response(StatusNotAcceptable, NoPayload)
    ensures r.status in {StatusOk, StatusNotFound, StatusNotAcceptable}
    ensures IsJson(req.accept) && req.path.NoPath? ==> r == Response(StatusOk, TodoList(Filter(todos, req.category)))
    ensures IsJson(req.accept) && req.path.BadPath? ==> r == Response(StatusNotFound, NoPayload)
    ensures IsJson(req.accept) && req.path.PathId? ==> r == GetById(todos, req.path.id)
  {
    if !IsJson(req.accept) then Response(StatusNotAcceptable, NoPayload)
    else match req.path
      case NoPath => Response(StatusOk, TodoList(Filter(todos, req.category)))
      case BadPath => Response(StatusNotFound, NoPayload)  // the exception from split or parseInt
      case PathId(id) => GetById(todos, id)
  }

  // ---------------------------------------------------------------- POST

  /** The arguments addNewTodo gives the Todo constructor. */
  datatype NewTodo = NewTodo(title: string, category: string, dueDate: Option<Date>, important: bool, completed: bool)

  /**
   * The title check of doPost and the reads of addNewTodo. Every cast or
   * parse that throws ends in the catch of doPost (400, nothing added).
   */
  function ReadNewTodo(m: Object, parseDate: DateParser): (r: Option<NewTodo>)
    ensures r.Some? <==> m != map[] && HasTitle(m) && OptionalFieldsTyped(m) && DueDateParses(m, parseDate)
    ensures r.Some? ==> Get(m, "title") == Str(r.value.title) && r.value.title != ""
    ensures r.Some? ==> r.value.category == if Get(m, "category").Str? then Get(m, "category").s else ""
    ensures r.Some? ==> r.value.dueDate == GivenDate(m, parseDate)
    ensures r.Some? ==> (r.value.important <==> Get(m, "important") == Bool(true))
    ensures r.Some? ==> (r.value.completed <==> Get(m, "completed") == Bool(true))
  {
    if m == map[] || "title" !in m then None
    else match m["title"]
      // null: toString() throws; a non-String: toString() is not empty, but the cast throws
      case Null => None
      case Bool(_) => None
      case Int(_) => None
      case Other => None
      case Str(title) =>
        if title == "" then None
        else
          var category := Get(m, "category");
          var due := Get(m, "dueDate");
          var important := Get(m, "important");
          var completed := Get(m, "completed");
          if !StringOrNull(category) || !StringOrNull(due) || !BooleanOrNull(important) || !BooleanOrNull(completed) then
            None  // ClassCastException
          else if due.Str? && due.s != "" && parseDate(due.s).None? then
            None  // DateTimeParseException
          else
            Some(NewTodo(
              title,
              if category.Null? then "" else category.s,
              if due.Str? && due.s != "" then parseDate(due.s) else None,
              important.Bool? && important.b,
              completed.Bool? && completed.b))
  }

  /**
   * The cascade of doPost: Content-Type before Accept (415 before 406), then
   * the body (400).
   */
  function PostCheck(req: Request, parseDate: DateParser): (r: Result<NewTodo, int>)
    ensures r == Err(StatusUnsupportedMediaType) <==> !IsJson(req.contentType)
    ensures r == Err(StatusNotAcceptable) <==> IsJson(req.contentType) && !IsJson(req.accept)
    ensures r.Err? ==> r.error in {StatusUnsupportedMediaType, StatusNotAcceptable, StatusBadRequest}
    ensures IsJson(req.contentType) && IsJson(req.accept) &&
            (req.body.None? || req.body == Some(map[]) || !HasTitle(req.body.value)) ==>
            r == Err(StatusBadRequest)
    ensures r.Ok? ==> req.body.Some? && ReadNewTodo(req.body.value, parseDate) == Some(r.value)
    ensures IsJson(req.contentType) && IsJson(req.accept) &&
            req.body.Some? && ReadNewTodo(req.body.value, parseDate).Some? ==>
            r == Ok(ReadNewTodo(req.body.value, parseDate).value)
  {
    if !IsJson(req.contentType) then Err(StatusUnsupportedMediaType)
    else if !IsJson(req.accept) then Err(StatusNotAcceptable)
    else match req.body
      case None => Err(StatusBadRequest)
      case Some(m) =>
        match ReadNewTodo(m, parseDate)
        case None => Err(StatusBadRequest)
        case Some(n) => Ok(n)
  }

  /** addNewTodo: build the todo with the id its constructor draws, add it, answer 201 with that id. */
  method AddNewTodo(user: User, n: NewTodo, newId: Int32) returns (resp: Response)
    modifies user
    ensures resp == Response(StatusCreated, CreatedId(newId))
    ensures user.todos == old(user.todos) + [Todo(newId, n.title, n.category, n.dueDate, n.important, n.completed)]
  {
    var todo := Todo(newId, n.title, n.category, n.dueDate, n.important, n.completed);
    user.AddTodo(todo);
    resp := Response(StatusCreated, CreatedId(newId));
  }

  /**
   * doPost for the current user. newId is the id the Todo constructor takes
   * from its counter.
   */
  method DoPost(user: User, req: Request, newId: Int32, parseDate: DateParser) returns (resp: Response)
    modifies user
    ensures match PostCheck(req, parseDate)
      case Err(status) => resp == Response(status, NoPayload) && user.todos == old(user.todos)
      case Ok(n) =>
        && resp == Response(StatusCreated, CreatedId(newId))
        && user.todos == old(user.todos) + [Todo(newId, n.title, n.category, n.dueDate, n.important, n.completed)]
  {
    match PostCheck(req, parseDate)
    case Err(status) =>
      resp := Response(status, NoPayload);
    case Ok(n) =>
      resp := AddNewTodo(user, n, newId);
  }

  /**
   * After a successful POST with an id no todo of the list has, the ids stay
   * unique and a GET of that id returns the new todo with its defaults.
   */
  lemma PostThenGet(req: Request, parseDate: DateParser, todos: seq<Todo>, newId: Int32, get: Request)
    requires PostCheck(req, parseDate).Ok?
    requires forall t :: t in todos ==> t.id != newId
    requires IsJson(get.accept) && get.path == PathId(newId)
    ensures var n := PostCheck(req, parseDate).value;
      var todo := Todo(newId, n.title, n.category, n.dueDate, n.important, n.completed);
      && (UniqueIds(todos) ==> UniqueIds(todos + [todo]))
      && GetResponse(get, todos + [todo]) == Response(StatusOk, OneTodo(todo))
  {
    var n := PostCheck(req, parseDate).value;
    var todo := Todo(newId, n.title, n.category, n.dueDate, n.important, n.completed);
    AppendFresh(todos, todo);
  }

  // ---------------------------------------------------------------- PUT

  /**
   * The checks doPut makes of the body before updateTodo: it was read and is
   * not empty, its id (where it has one) equals the path id, and it carries a
   * non-empty title.
   */
  predicate PutBodyAcceptable(body: Option<Object>, id: Int32)
  {
    body.Some? && body.value != map[] && IdMatches(body.value, id) && HasTitle(body.value)
  }

  /**
   * The cascade of doPut up to the call of updateTodo: Content-Type (415),
   * the path (400), the todo (404), the body (400), the body id (400), the
   * title (400). It gives the position of the todo to update.
   */
  function PutCheck(req: Request, todos: seq<Todo>): (r: Result<nat, int>)
    ensures r == Err(StatusUnsupportedMediaType) <==> !IsJson(req.contentType)
    ensures r.Err? ==> r.error in {StatusUnsupportedMediaType, StatusBadRequest, StatusNotFound}
    ensures IsJson(req.contentType) && !req.path.PathId? ==> r == Err(StatusBadRequest)
    ensures r == Err(StatusNotFound) <==>
      IsJson(req.contentType) && req.path.PathId? && Find(todos, req.path.id).None?
    ensures IsJson(req.contentType) && req.path.PathId? && Find(todos, req.path.id).Some? &&
            !PutBodyAcceptable(req.body, req.path.id) ==>
            r == Err(StatusBadRequest)
    ensures r.Ok? <==>
      IsJson(req.contentType) && req.path.PathId? && Find(todos, req.path.id).Some? &&
      PutBodyAcceptable(req.body, req.path.id)
    ensures r.Ok? ==> Find(todos, req.path.id) == Some(r.value)
  {
    if !IsJson(req.contentType) then Err(StatusUnsupportedMediaType)
    else match req.path
      case NoPath => Err(StatusBadRequest)
      case BadPath => Err(StatusBadRequest)  // the catch of doPut
      case PathId(id) =>
        match Find(todos, id)
        case None => Err(StatusNotFound)
        case Some(i) =>
          match req.body
          case None => Err(StatusBadRequest)
          case Some(m) =>
            if m == map[] then Err(StatusBadRequest)
            else if !IdMatches(m, id) then Err(StatusBadRequest)  // a mismatch, or the Integer cast throws
            else if !HasTitle(m) then Err(StatusBadRequest)
            else Ok(i)
  }

  /**
   * What updateTodo makes of a todo, with every cast checked before the
   * first setter runs: None (400, todo unchanged) when a cast or the date
   * parse throws. The title is always replaced; category and due date only by
   * a non-empty value (a date equal to LocalDate.MIN counts as none);
   * important and completed only when present; the id never.
   */
  function PatchedTodo(t: Todo, m: Object, parseDate: DateParser): (r: Option<Todo>)
    requires HasTitle(m)
    ensures r.None? <==> !OptionalFieldsTyped(m) || !DueDateParses(m, parseDate)
    ensures r.Some? ==> r.value.id == t.id && r.value.title == Get(m, "title").s
    ensures r.Some? ==>
      r.value.category == (if Get(m, "category").Str? && Get(m, "category").s != "" then Get(m, "category").s else t.category)
    ensures r.Some? ==>
      r.value.dueDate == (if GivenDate(m, parseDate).Some? && GivenDate(m, parseDate).value != MinDate then GivenDate(m, parseDate) else t.dueDate)
    ensures r.Some? ==> r.value.important == if Get(m, "important").Bool? then Get(m, "important").b else t.important
    ensures r.Some? ==> r.value.completed == if Get(m, "completed").Bool? then Get(m, "completed").b else t.completed
  {
    var category := Get(m, "category");
    var due := Get(m, "dueDate");
    var important := Get(m, "important");
    var completed := Get(m, "completed");
    if !StringOrNull(category) || !StringOrNull(due) || !BooleanOrNull(important) || !BooleanOrNull(completed) then
      None
    else
      var date := if due.Str? && due.s != "" then parseDate(due.s) else Some(MinDate);
      match date
      case None => None
      case Some(d) =>
        Some(Todo(
          t.id,
          Get(m, "title").s,
          if category.Str? && category.s != "" then category.s else t.category,
          if d != MinDate then Some(d) else t.dueDate,
          if important.Bool? then important.b else t.important,
          if completed.Bool? then completed.b else t.completed))
  }

  /**
   * updateTodo on the todo at position i: the casts and the date parse first,
   * then the setters one by one, then user.updateTodo; 204. A failing cast or
   * parse answers 400 and leaves the list as it was.
   */
  method UpdateTodo(user: User, i: nat, m: Object, parseDate: DateParser) returns (resp: Response)
    requires i < |user.todos| && HasTitle(m)
    modifies user
    ensures match PatchedTodo(old(user.todos)[i], m, parseDate)
      case None => resp == Response(StatusBadRequest, NoPayload) && user.todos == old(user.todos)
      case Some(t) => resp == Response(StatusNoContent, NoPayload) && user.todos == old(user.todos)[i := t]
  {
    var title := Get(m, "title").s;
    var category := Get(m, "category");
    var due := Get(m, "dueDate");
    var important := Get(m, "important");
    var completed := Get(m, "completed");
    if !StringOrNull(category) || !StringOrNull(due) || !BooleanOrNull(important) || !BooleanOrNull(completed) {
      return Response(StatusBadRequest, NoPayload);
    }
    var date := if due.Str? && due.s != "" then parseDate(due.s) else Some(MinDate);
    if date.None? {
      return Response(StatusBadRequest, NoPayload);
    }
    var todo := user.todos[i];
    todo := todo.(title := title);
    if category.Str? && category.s != "" {
      todo := todo.(category := category.s);
    }
    if date.value != MinDate {
      todo := todo.(dueDate := date);
    }
    if important.Bool? {
      todo := todo.(important := important.b);
    }
    if completed.Bool? {
      todo := todo.(completed := completed.b);
    }
    user.UpdateTodo(i, todo);
    resp := Response(StatusNoContent, NoPayload);
  }

  /** doPut for the current user. */
  method DoPut(user: User, req: Request, parseDate: DateParser) returns (resp: Response)
    modifies user
    ensures match PutCheck(req, old(user.todos))
      case Err(status) => resp == Response(status, NoPayload) && user.todos == old(user.todos)
      case Ok(i) =>
        match PatchedTodo(old(user.todos)[i], req.body.value, parseDate)
        case None => resp == Response(StatusBadRequest, NoPayload) && user.todos == old(user.todos)
        case Some(t) => resp == Response(StatusNoContent, NoPayload) && user.todos == old(user.todos)[i := t]
  {
    match PutCheck(req, user.todos)
    case Err(status) =>
      resp := Response(status, NoPayload);
    case Ok(i) =>
      resp := UpdateTodo(user, i, req.body.value, parseDate);
  }

  /**
   * PUT is idempotent: repeating a successful PUT on the list it produced
   * finds the same todo and leaves it as it is.
   */
  lemma PutIsIdempotent(req: Request, todos: seq<Todo>, parseDate: DateParser)
    requires PutCheck(req, todos).Ok?
    requires PatchedTodo(todos[PutCheck(req, todos).value], req.body.value, parseDate).Some?
    ensures var i := PutCheck(req, todos).value;
      var t := PatchedTodo(todos[i], req.body.value, parseDate).value;
      && PutCheck(req, todos[i := t]) == Ok(i)
      && PatchedTodo(todos[i := t][i], req.body.value, parseDate) == Some(t)
  {
    var i := PutCheck(req, todos).value;
    var t := PatchedTodo(todos[i], req.body.value, parseDate).value;
    FindAfterUpdate(todos, i, t);
    assert t in todos[i := t];
  }

  /** After a successful PUT a GET of the same id returns the patched todo. */
  lemma PutThenGet(req: Request, todos: seq<Todo>, parseDate: DateParser, get: Request)
    requires PutCheck(req, todos).Ok?
    requires PatchedTodo(todos[PutCheck(req, todos).value], req.body.value, parseDate).Some?
    requires IsJson(get.accept) && get.path == req.path
    ensures var i := PutCheck(req, todos).value;
      var t := PatchedTodo(todos[i], req.body.value, parseDate).value;
      GetResponse(get, todos[i := t]) == Response(StatusOk, OneTodo(t))
  {
    var i := PutCheck(req, todos).value;
    var t := PatchedTodo(todos[i], req.body.value, parseDate).value;
    FindAfterUpdate(todos, i, t);
  }

  // ---------------------------------------------------------------- DELETE

  /** The cascade of doDelete: no header check; a missing, unparseable or unknown id gives 404. */
  function DeleteCheck(req: Request, todos: seq<Todo>): (r: Result<nat, int>)
    ensures r.Err? ==> r.error == StatusNotFound
    ensures r.Err? <==> !req.path.PathId? || forall t :: t in todos ==> t.id != req.path.id
    ensures r.Ok? ==> req.path.PathId? && Find(todos, req.path.id) == Some(r.value)
  {
    match req.path
    case NoPath => Err(StatusNotFound)
    case BadPath => Err(StatusNotFound)  // the catch of doDelete
    case PathId(id) =>
      match Find(todos, id)
      case None => Err(StatusNotFound)
      case Some(i) => Ok(i)
  }

  /** doDelete for the current user: remove the todo found, 204; otherwise 404 and no change. */
  method DoDelete(user: User, req: Request) returns (resp: Response)
    modifies user
    ensures match DeleteCheck(req, old(user.todos))
      case Err(status) => resp == Response(status, NoPayload) && user.todos == old(user.todos)
      case Ok(i) => resp == Response(StatusNoContent, NoPayload) && user.todos == Remove(old(user.todos), i)
  {
    match DeleteCheck(req, user.todos)
    case Err(status) =>
      resp := Response(status, NoPayload);
    case Ok(i) =>
      user.DeleteTodo(i);
      resp := Response(StatusNoContent, NoPayload);
  }

  /**
   * On a list with unique ids, a successful DELETE takes out exactly the
   * todo with the path id, and a GET of that id afterwards gives 404.
   */
  lemma DeleteThenGet(req: Request, todos: seq<Todo>, get: Request)
    requires UniqueIds(todos) && DeleteCheck(req, todos).Ok?
    requires IsJson(get.accept) && get.path == req.path
    ensures var i := DeleteCheck(req, todos).value;
      && todos[i].id == req.path.id
      && multiset(Remove(todos, i)) + multiset{todos[i]} == multiset(todos)
      && GetResponse(get, Remove(todos, i)) == Response(StatusNotFound, NoPayload)
  {
    var i := DeleteCheck(req, todos).value;
    RemoveExactlyOne(todos, i);
  }

  // ---------------------------------------------------------------- updateTodo as written

  /**
   * updateTodo as the source has it: title, category and dueDate are cast
   * and the date parsed, then the setters of title, category and due date
   * run, and only then are important and completed cast. Returns the todo as
   * the setters left it, and whether updateTodo ran to the end.
   */
  function PatchedTodoAsWritten(t: Todo, m: Object, parseDate: DateParser): (r: (Todo, bool))
    requires HasTitle(m)
    ensures r.0.id == t.id
    // a bad category, dueDate or date fails before any setter runs
    ensures !(StringOrNull(Get(m, "category")) && StringOrNull(Get(m, "dueDate")) && DueDateParses(m, parseDate)) ==>
      r == (t, false)
    // past them, the title is set whether or not the later casts succeed
    ensures StringOrNull(Get(m, "category")) && StringOrNull(Get(m, "dueDate")) && DueDateParses(m, parseDate) ==>
      r.0.title == Get(m, "title").s
  {
    var category := Get(m, "category");
    var due := Get(m, "dueDate");
    if !StringOrNull(category) || !StringOrNull(due) then (t, false)
    else
      var date := if due.Str? && due.s != "" then parseDate(due.s) else Some(MinDate);
      if date.None? then (t, false)
      else
        var t1 := t.(title := Get(m, "title").s);
        var t2 := if category.Str? && category.s != "" then t1.(category := category.s) else t1;
        var t3 := if date.value != MinDate then t2.(dueDate := date) else t2;
        var important := Get(m, "important");
        if !BooleanOrNull(important) then (t3, false)
        else
          var t4 := if important.Bool? then t3.(important := important.b) else t3;
          var completed := Get(m, "completed");
          if !BooleanOrNull(completed) then (t4, false)
          else (if completed.Bool? then t4.(completed := completed.b) else t4, true)
  }

  /**
   * The code as written and the corrected PatchedTodo fail on the same
   * bodies, and where they succeed they make the same todo.
   */
  lemma AsWrittenAgreesOnSuccess(t: Todo, m: Object, parseDate: DateParser)
    requires HasTitle(m)
    ensures PatchedTodoAsWritten(t, m, parseDate).1 <==> PatchedTodo(t, m, parseDate).Some?
    ensures PatchedTodo(t, m, parseDate).Some? ==> PatchedTodoAsWritten(t, m, parseDate).0 == PatchedTodo(t, m, parseDate).value
  {
  }

  /**
   * The discrepancy: a PUT whose "important" is not a boolean is answered
   * with 400, yet as written the stored todo already has the new title.
   */
  lemma AsWrittenBadImportantKeepsNewTitle()
    ensures var t := Todo(1, "old", "", None, false, false);
      var m := map["title" := Str("new"), "important" := Str("yes")];
      var r := PatchedTodoAsWritten(t, m, s => None);
      !r.1 && r.0.title == "new" && r.0 != t && PatchedTodo(t, m, s => None).None?
  {
    var m := map["title" := Str("new"), "important" := Str("yes")];
    assert Get(m, "title") == Str("new") && Get(m, "important") == Str("yes");
    assert Get(m, "category") == Null && Get(m, "dueDate") == Null;
  }
}
