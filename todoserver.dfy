/** The todo API handlers (`TodoServer/server/index.js`): list, create, partial update and
    delete over the array read from `todos.json`, with the 400 / 404 / 201 / 204 outcomes. Each
    handler reads the file afresh and writes the whole array back on success. */
module TodoServer {
  import opened Base
  import opened Text
  import opened TodoStorage

  /** A field of a JSON request body: absent, a string, a boolean, or any other value
      (number, `null`, object, array). */
  datatype Field = Absent | Str(s: string) | Bool(b: bool) | Other

  /** The body of `POST /api/todos` and of `POST /api/todos/:id`. */
  datatype RequestBody = RequestBody(title: Field, completed: Field)

  datatype ResponseBody = TodoBody(todo: Todo) | ListBody(todos: seq<Todo>) | ErrorBody(message: string) | NoBody

  datatype Response = Response(status: int, body: ResponseBody)

  const TitleRequired: string := "title 字段是必填的，且必须是非空字符串"
  const CompletedNotBoolean: string := "completed 字段必须是布尔值"
  const TitleNotEmpty: string := "title 字段必须是非空字符串"
  const TodoNotFound: string := "Todo 任务未找到"

  /** A string whose trim is not empty; every other value is rejected. */
  predicate UsableTitle(f: Field) {
    f.Str? && Trim(f.s) != []
  }

  /** The new todo of a create request, or the message of its 400. */
  function CreateResult(todos: seq<Todo>, body: RequestBody, now: string): (r: Result<Todo, string>)
    ensures r.Failure? <==> !UsableTitle(body.title) || !(body.completed.Absent? || body.completed.Bool?)
    ensures r.Failure? ==> r.error == if !UsableTitle(body.title) then TitleRequired else CompletedNotBoolean
    ensures r.Success? ==> r.value.id == GenerateId(todos) && r.value.title == Trim(body.title.s) && r.value.createdAt == now
    ensures r.Success? ==> r.value.completed == (body.completed.Bool? && body.completed.b)
  {
    if !UsableTitle(body.title) then Failure(TitleRequired)
    else
      var completed := if body.completed.Absent? then Bool(false) else body.completed;
      if !completed.Bool? then Failure(CompletedNotBoolean)
      else Success(Todo(GenerateId(todos), Trim(body.title.s), completed.b, now))
  }

  /** The todo after a partial update, or the message of its 400: the title is checked first. */
  function UpdateResult(todo: Todo, body: RequestBody): (r: Result<Todo, string>)
    ensures r.Failure? <==> (!body.title.Absent? && !UsableTitle(body.title)) || !(body.completed.Absent? || body.completed.Bool?)
    ensures r.Failure? ==> r.error == if !body.title.Absent? && !UsableTitle(body.title) then TitleNotEmpty else CompletedNotBoolean
    ensures r.Success? ==> r.value.id == todo.id && r.value.createdAt == todo.createdAt
    ensures r.Success? ==> r.value.title == if body.title.Absent? then todo.title else Trim(body.title.s)
    ensures r.Success? ==> r.value.completed == if body.completed.Absent? then todo.completed else body.completed.b
  {
    if !body.title.Absent? && !UsableTitle(body.title) then Failure(TitleNotEmpty)
    else
      var titled := if body.title.Absent? then todo else todo.(title := Trim(body.title.s));
      if body.completed.Absent? then Success(titled)
      else if !body.completed.Bool? then Failure(CompletedNotBoolean)
      else Success(titled.(completed := body.completed.b))
  }

  /** Applying the same update twice is applying it once. */
  lemma UpdateIdempotent(todo: Todo, body: RequestBody)
    requires UpdateResult(todo, body).Success?
    ensures UpdateResult(UpdateResult(todo, body).value, body) == UpdateResult(todo, body)
  {
    if body.title.Str? {
      TrimIdempotent(body.title.s);
    }
  }

  /** An empty body changes nothing. */
  lemma EmptyUpdateKeepsTodo(todo: Todo)
    ensures UpdateResult(todo, RequestBody(Absent, Absent)) == Success(todo)
  {
  }

  /** `todos.findIndex(todo => todo.id === id)`, with `None` for -1. */
  function FindTodo(todos: seq<Todo>, id: string): (r: Option<nat>)
    ensures r.Some? ==> r.value < |todos| && todos[r.value].id == id
    ensures r.Some? ==> forall k | 0 <= k < r.value :: todos[k].id != id
    ensures r.None? ==> forall k | 0 <= k < |todos| :: todos[k].id != id
    decreases |todos|
  {
    if todos == [] then None
    else if todos[0].id == id then Some(0)
    else
      match FindTodo(todos[1..], id)
      case None => None
      case Some(k) => Some(k + 1)
  }

  /** `todos.splice(i, 1)`. */
  function Remove(todos: seq<Todo>, i: nat): (r: seq<Todo>)
    requires i < |todos|
    ensures |r| == |todos| - 1
    ensures forall k | 0 <= k < i :: r[k] == todos[k]
    ensures forall k | i <= k < |r| :: r[k] == todos[k + 1]
  {
    todos[..i] + todos[i + 1..]
  }

  /** Removing one entry takes out exactly that entry. */
  lemma RemoveTakesOne(todos: seq<Todo>, i: nat)
    requires i < |todos|
    ensures multiset(Remove(todos, i)) + multiset{todos[i]} == multiset(todos)
  {
    assert todos == todos[..i] + [todos[i]] + todos[i + 1..];
  }

  /** With a duplicated id only the first todo carrying it is found, so later ones are never
      deleted. */
  lemma DeleteSparesLaterDuplicates(todos: seq<Todo>, id: string, j: nat)
    requires j < |todos| && todos[j].id == id
    ensures FindTodo(todos, id).Some? && FindTodo(todos, id).value <= j
    ensures FindTodo(todos, id).value < j ==> todos[j] == Remove(todos, FindTodo(todos, id).value)[j - 1]
  {
  }

  /** The server's one piece of state: the todo file. */
  class TodoService {
    var file: StoredFile

    constructor(initial: StoredFile)
      ensures file == initial
    {
      file := initial;
    }

    /** `readTodos()`. */
    method Load() returns (todos: seq<Todo>)
      modifies this`file
      ensures todos == StoredTodos(old(file))
      ensures file == AfterRead(old(file))
    {
      todos := StoredTodos(file);
      file := AfterRead(file);
    }

    /** `GET /api/todos`. */
    method List() returns (r: Response)
      modifies this`file
      ensures r == Response(200, ListBody(StoredTodos(old(file))))
      ensures file == AfterRead(old(file))
    {
      var todos := Load();
      r := Response(200, ListBody(todos));
    }

    /** `POST /api/todos`: validates before reading, then appends the new todo and writes. */
    method Create(body: RequestBody, now: string) returns (r: Response)
      modifies this`file
      ensures var c := CreateResult(StoredTodos(old(file)), body, now);
        (c.Failure? ==> r == Response(400, ErrorBody(c.error)) && file == old(file)) &&
        (c.Success? ==> r == Response(201, TodoBody(c.value)) && file == Written(StoredTodos(old(file)) + [c.value]))
    {
      if !body.title.Str? || Trim(body.title.s) == [] {
        r := Response(400, ErrorBody(TitleRequired));
        return;
      }
      var completed := if body.completed.Absent? then Bool(false) else body.completed;
      if !completed.Bool? {
        r := Response(400, ErrorBody(CompletedNotBoolean));
        return;
      }
      var todos := Load();
      var newTodo := Todo(GenerateId(todos), Trim(body.title.s), completed.b, now);
      todos := todos + [newTodo];
      file := Written(todos);
      r := Response(201, TodoBody(newTodo));
    }

    /** `POST /api/todos/:id`: the found todo is edited field by field; a 400 returns before the
        write, so a title already set in memory is not saved. */
    method Update(id: string, body: RequestBody) returns (r: Response)
      modifies this`file
      ensures var todos := StoredTodos(old(file));
        var i := FindTodo(todos, id);
        (i.None? ==> r == Response(404, ErrorBody(TodoNotFound)) && file == AfterRead(old(file))) &&
        (i.Some? && UpdateResult(todos[i.value], body).Failure? ==>
          r == Response(400, ErrorBody(UpdateResult(todos[i.value], body).error)) && file == AfterRead(old(file))) &&
        (i.Some? && UpdateResult(todos[i.value], body).Success? ==>
          r == Response(200, TodoBody(UpdateResult(todos[i.value], body).value)) &&
          file == Written(todos[i.value := UpdateResult(todos[i.value], body).value]))
    {
      var todos := Load();
      var index := FindTodo(todos, id);
      if index.None? {
        r := Response(404, ErrorBody(TodoNotFound));
        return;
      }
      var todo := todos[index.value];
      if !body.title.Absent? {
        if !body.title.Str? || Trim(body.title.s) == [] {
          r := Response(400, ErrorBody(TitleNotEmpty));
          return;
        }
        todo := todo.(title := Trim(body.title.s));
      }
      if !body.completed.Absent? {
        if !body.completed.Bool? {
          r := Response(400, ErrorBody(CompletedNotBoolean));
          return;
        }
        todo := todo.(completed := body.completed.b);
      }
      todos := todos[index.value := todo];
      file := Written(todos);
      r := Response(200, TodoBody(todo));
    }

    /** `DELETE /api/todos/:id`. */
    method Delete(id: string) returns (r: Response)
      modifies this`file
      ensures var todos := StoredTodos(old(file));
        var i := FindTodo(todos, id);
        (i.None? ==> r == Response(404, ErrorBody(TodoNotFound)) && file == AfterRead(old(file))) &&
        (i.Some? ==> r == Response(204, NoBody) && file == Written(Remove(todos, i.value)))
    {
      var todos := Load();
      var index := FindTodo(todos, id);
      if index.None? {
        r := Response(404, ErrorBody(TodoNotFound));
        return;
      }
      todos := todos[..index.value] + todos[index.value + 1..];
      file := Written(todos);
      r := Response(204, NoBody);
    }
  }

  /** A successful create keeps every earlier todo in place and adds one todo at the end whose
      id is new, while the stored ids are safe integers. */
  lemma CreateAppends(todos: seq<Todo>, body: RequestBody, now: string, k: nat)
    requires CreateResult(todos, body, now).Success?
    requires SafeIds(todos)
    requires k < |todos|
    ensures var after := todos + [CreateResult(todos, body, now).value];
      |after| == |todos| + 1 && after[..|todos|] == todos &&
      after[|todos|].id != todos[k].id && Trim(after[|todos|].title) == after[|todos|].title != []
  {
    GenerateIdFresh(todos, k);
    TrimIdempotent(body.title.s);
    var after := todos + [CreateResult(todos, body, now).value];
    assert after[..|todos|] == todos;
  }
}
