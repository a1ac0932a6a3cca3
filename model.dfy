/**
 * The entities of the model package: a Todo item, and the User that owns a
 * list of them. The Todo and User classes themselves are not part of this
 * model; their operations are modelled from the way the servlets use them.
 */
module Model {
  import opened Wrappers

  /** A Java int: todo ids are Integers, and path ids come from Integer.parseInt. */
  type Int32 = x: int | -0x8000_0000 <= x < 0x8000_0000

  /** A calendar date (java.time.LocalDate); the model only compares dates. */
  datatype Date = Date(year: int, month: int, day: int)

  /** LocalDate.MIN, which updateTodo uses to mean "no date given". */
  const MinDate: Date := Date(-999_999_999, 1, 1)

  datatype Todo = Todo(
    id: Int32,
    title: string,
    category: string,
    dueDate: Option<Date>,   // None where the Java field is null
    important: bool,
    completed: bool)

  /** No two todos of a list share an id. */
  predicate UniqueIds(todos: seq<Todo>)
  {
    forall i, j :: 0 <= i < |todos| && 0 <= j < |todos| && todos[i].id == todos[j].id ==> i == j
  }

  /** User.getTodo(id), a linear scan: the position of the first todo with that id, or null. */
  function Find(todos: seq<Todo>, id: int): (r: Option<nat>)
    ensures r.Some? ==> r.value < |todos| && todos[r.value].id == id
    ensures r.Some? ==> forall j :: 0 <= j < r.value ==> todos[j].id != id
    ensures r.None? <==> forall j :: 0 <= j < |todos| ==> todos[j].id != id
  {
    if todos == [] then None
    else if todos[0].id == id then Some(0)
    else match Find(todos[1..], id)
      case None => None
      case Some(k) => Some(k + 1)
  }

  /**
   * User.getTodos(category): the todos of that category, in their order; the
   * whole list when no category parameter is given.
   */
  function Filter(todos: seq<Todo>, category: Option<string>): (r: seq<Todo>)
    ensures forall t :: t in r <==> t in todos && (category.None? || t.category == category.value)
    ensures category.None? ==> r == todos
    ensures |r| <= |todos|
    ensures forall t :: multiset(r)[t] == (if category.None? || t.category == category.value then multiset(todos)[t] else 0)
  {
    if todos == [] then []
    else
      var head := if category.None? || todos[0].category == category.value then [todos[0]] else [];
      assert todos == [todos[0]] + todos[1..];
      head + Filter(todos[1..], category)
  }

  /** The list without the todo at position i. */
  function Remove(todos: seq<Todo>, i: nat): seq<Todo>
    requires i < |todos|
  {
    todos[..i] + todos[i + 1..]
  }

  /**
   * Removing the todo at position i of a list with unique ids takes out
   * exactly that todo: the others remain, ids stay unique, and none of the
   * remaining todos carries the removed id.
   */
  lemma RemoveExactlyOne(todos: seq<Todo>, i: nat)
    requires UniqueIds(todos) && i < |todos|
    ensures multiset(Remove(todos, i)) + multiset{todos[i]} == multiset(todos)
    ensures UniqueIds(Remove(todos, i))
    ensures forall t :: t in Remove(todos, i) ==> t.id != todos[i].id
  {
    assert todos == todos[..i] + [todos[i]] + todos[i + 1..];
    var r := Remove(todos, i);
    forall k | 0 <= k < |r|
      ensures r[k] == todos[if k < i then k else k + 1]
    {
    }
  }

  /** Appending a todo whose id is new keeps the ids unique, and getTodo finds it at the end. */
  lemma {:induction false} AppendFresh(todos: seq<Todo>, t: Todo)
    requires forall u :: u in todos ==> u.id != t.id
    ensures UniqueIds(todos) ==> UniqueIds(todos + [t])
    ensures Find(todos + [t], t.id) == Some(|todos|)
  {
    var s := todos + [t];
    assert forall j :: 0 <= j < |todos| ==> s[j] == todos[j] && s[j] in todos;
    assert s[|todos|] == t;
    var r := Find(s, t.id);
    assert r.Some?;
  }

  /**
   * Writing back a todo with the same id at the position getTodo found leaves
   * getTodo's answer unchanged.
   */
  lemma FindAfterUpdate(todos: seq<Todo>, i: nat, t: Todo)
    requires Find(todos, t.id) == Some(i)
    ensures Find(todos[i := t], t.id) == Some(i)
  {
    var s := todos[i := t];
    assert forall j :: 0 <= j < i ==> s[j] == todos[j];
    assert s[i] == t;
    var r := Find(s, t.id);
    assert r.Some?;
  }

  /** A User, as far as the registry and the todo servlet see it. */
  class User {
    const name: string
    const password: string
    var todos: seq<Todo>

    constructor (name: string, password: string)
      ensures this.name == name && this.password == password && todos == []
    {
      this.name := name;
      this.password := password;
      todos := [];
    }

    /** addTodo: append. */
    method AddTodo(todo: Todo)
      modifies this
      ensures todos == old(todos) + [todo]
    {
      todos := todos + [todo];
    }

    /** deleteTodo: remove the todo that getTodo found at position i. */
    method DeleteTodo(i: nat)
      requires i < |todos|
      modifies this
      ensures todos == Remove(old(todos), i)
    {
      todos := todos[..i] + todos[i + 1..];
    }

    /** updateTodo: the todo at position i now has the values its setters gave it. */
    method UpdateTodo(i: nat, todo: Todo)
      requires i < |todos|
      modifies this
      ensures todos == old(todos)[i := todo]
    {
      todos := todos[i := todo];
    }
  }
}
