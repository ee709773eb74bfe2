/** The todo file store (`TodoServer/utils/storage.js`): what `readTodos` returns for each state
    of `todos.json`, what `writeTodos` accepts, and the id `generateId` hands out. The file
    system itself is not modelled; the file's state is a value. */
module TodoStorage {
  import opened Base
  import opened Text

  /** One todo task as stored. */
  datatype Todo = Todo(id: string, title: string, completed: bool, createdAt: string)

  /** What `JSON.parse` makes of non-blank file content. */
  datatype ParseOutcome = ParseError | NotArray | TodoArray(todos: seq<Todo>)

  /** The state of `todos.json`: absent, unreadable, some text with its parse, or the text
      `writeTodos` wrote for an array (`JSON.stringify` output, which parses back to it). */
  datatype StoredFile =
    | Missing
    | Unreadable
    | Raw(text: string, parsed: ParseOutcome)
    | Written(todos: seq<Todo>)

  /** The file after a `readTodos` call: a missing file is created holding `[]`. */
  function AfterRead(f: StoredFile): (g: StoredFile)
    ensures f.Missing? ==> g == Written([])
    ensures !f.Missing? ==> g == f
  {
    if f.Missing? then Written([]) else f
  }

  /** The array `readTodos` resolves to. */
  function StoredTodos(f: StoredFile): (r: seq<Todo>)
    ensures r != [] ==> f.Written? || (f.Raw? && !AllSpace(f.text) && f.parsed == TodoArray(r))
    ensures f.Written? ==> r == f.todos
  {
    match f
    case Missing => []
    case Unreadable => []
    case Raw(text, parsed) =>
      if Trim(text) == [] then []
      else if parsed.TodoArray? then parsed.todos
      else []
    case Written(todos) => todos
  }

  /** Every failure to read, blank content and content that is not an array all read as `[]`. */
  lemma ReadFallbacks(f: StoredFile)
    ensures f.Missing? || f.Unreadable? ==> StoredTodos(f) == []
    ensures f.Raw? && AllSpace(f.text) ==> StoredTodos(f) == []
    ensures f.Raw? && !f.parsed.TodoArray? ==> StoredTodos(f) == []
    ensures f.Raw? && !AllSpace(f.text) && f.parsed.TodoArray? ==> StoredTodos(f) == f.parsed.todos
  {
  }

  /** Creating a missing file does not change what is read. */
  lemma ReadIsStable(f: StoredFile)
    ensures StoredTodos(AfterRead(f)) == StoredTodos(f)
    ensures AfterRead(AfterRead(f)) == AfterRead(f)
  {
  }

  const NotAnArray: string := "todos 必须是数组"

  /** `writeTodos(value)`: a value that is not an array (`None`) is rejected; an array is written. */
  function WriteTodos(value: Option<seq<Todo>>): (r: Result<StoredFile, string>)
    ensures r.Failure? <==> value.None?
    ensures r.Failure? ==> r.error == NotAnArray
    ensures r.Success? ==> StoredTodos(r.value) == value.value
  {
    match value
    case None => Failure(NotAnArray)
    case Some(todos) => Success(Written(todos))
  }

  /** `parseInt(todo.id, 10) || 0`: `NaN` and 0 both count as 0. */
  function ParsedId(id: string): int {
    match ParseInt(id)
    case None => 0
    case Some(v) => v
  }

  /** `todos.map(todo => parseInt(todo.id, 10) || 0)`. */
  function ParsedIds(todos: seq<Todo>): (r: seq<int>)
    ensures |r| == |todos|
    ensures forall k | 0 <= k < |todos| :: r[k] == ParsedId(todos[k].id)
  {
    seq(|todos|, k requires 0 <= k < |todos| => ParsedId(todos[k].id))
  }

  /** `Math.max(...xs)` over a non-empty list. */
  function MaxOf(xs: seq<int>): (m: int)
    requires xs != []
    ensures forall k | 0 <= k < |xs| :: xs[k] <= m
    ensures m in xs
    decreases |xs|
  {
    if |xs| == 1 then xs[0]
    else
      var m := MaxOf(xs[1..]);
      assert forall k | 1 <= k < |xs| :: xs[1..][k - 1] == xs[k];
      Max(xs[0], m)
  }

  /** `generateId`: `'1'` for an empty list, else one past the largest parsed id. */
  function GenerateId(todos: seq<Todo>): (id: string)
    ensures todos == [] ==> id == "1"
    ensures todos != [] ==> id == IntToString(MaxOf(ParsedIds(todos)) + 1)
  {
    if todos == [] then "1" else IntToString(MaxOf(ParsedIds(todos)) + 1)
  }

  /** `Number.MAX_SAFE_INTEGER`: below it, JavaScript numbers are exact integers, so `+ 1` and
      `String(...)` behave as on unbounded integers. */
  const MaxSafeInteger: int := 9007199254740991

  /** Every parsed id is below `Number.MAX_SAFE_INTEGER`. */
  predicate SafeIds(todos: seq<Todo>) {
    forall k | 0 <= k < |todos| :: ParsedId(todos[k].id) < MaxSafeInteger
  }

  /** The new id reads back as a number above every parsed id, while the ids are safe integers. */
  lemma GenerateIdAboveAll(todos: seq<Todo>)
    requires SafeIds(todos)
    ensures ParseInt(GenerateId(todos)).Some?
    ensures forall k | 0 <= k < |todos| :: ParsedId(todos[k].id) < ParseInt(GenerateId(todos)).value
  {
    if todos == [] {
      ParseIntOfIntToString(1);
    } else {
      ParseIntOfIntToString(MaxOf(ParsedIds(todos)) + 1);
    }
  }

  /** The new id differs from every id already in the list, while the ids are safe integers. */
  lemma GenerateIdFresh(todos: seq<Todo>, k: nat)
    requires SafeIds(todos)
    requires k < |todos|
    ensures GenerateId(todos) != todos[k].id
  {
    GenerateIdAboveAll(todos);
    assert ParsedId(todos[k].id) < ParseInt(GenerateId(todos)).value;
  }

  /** Ids handed out one after another from `'1'` are `'1'`, `'2'`, `'3'`, ... */
  lemma GenerateIdCounts(todos: seq<Todo>, n: nat)
    requires |todos| == n && 0 < n < MaxSafeInteger
    requires forall k | 0 <= k < n :: todos[k].id == IntToString(k + 1)
    ensures GenerateId(todos) == IntToString(n + 1)
  {
    forall k | 0 <= k < n ensures ParsedId(todos[k].id) == k + 1 {
      ParseIntOfIntToString(k + 1);
    }
    var ids := ParsedIds(todos);
    var m := MaxOf(ids);
    var j :| 0 <= j < n && ids[j] == m;
    assert m <= n;
    assert ids[n - 1] <= m;
    assert m + 1 == n + 1;
  }
}
