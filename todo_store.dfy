/** The todo routes of the store service (database-server/routes/todo.js) over
    the `todos` collection (database-server/models/todo.js). The collection is a
    sequence of records in the order `Todo.find()` returns them, each with the
    unique `_id` the database gives it. Every route answers with a JSON body, an
    error one included; none throws. */
module TodoStore {

  import opened Js
  import opened Strings

  datatype Todo = Todo(id: nat, task: string, dueDate: Value)

  /** The JSON bodies the routes send. */
  datatype StoreReply = Listing(todos: seq<Todo>) | Successful | Failed(message: string)

  /** The message of the validation error for a missing `task`. */
  const TaskRequiredMessage: string := "todos validation failed: task: Path `task` is required."

  /** The message of the TypeError raised by `todo[index]._id` for a missing element. */
  const MissingTodoMessage: string := "Cannot read properties of undefined (reading '_id')"

  /** What the schema makes of `task`: a String, cast from a number or a boolean,
      and `required`, which refuses `undefined`, `null` and the empty string. */
  function TaskText(v: Value): (t: Option<string>)
    ensures t.Some? ==> t.value != ""
    ensures v.Undefined? || v.Null? || v == Str("") ==> t.None?
  {
    match v
    case Str(s) => if s == "" then None else Some(s)
    case Num(n) => Some(IntToString(n))
    case Bool(b) => Some(if b then "true" else "false")
    case _ => None
  }

  /** The element `todo[index]` reads for a list of length `n`: an integer in
      range, or a string in canonical index form. */
  function ArrayIndex(index: Value, n: nat): (i: Option<nat>)
    ensures i.Some? ==> i.value < n
    ensures i.Some? ==> index == Num(i.value) || index == Str(NatToString(i.value))
    ensures index.Num? ==> (i.Some? <==> 0 <= index.n < n)
    ensures index.Str? ==> (i.Some? <==> exists k: nat :: k < n && index.s == NatToString(k))
    ensures !(index.Num? || index.Str?) ==> i.None?
  {
    match index
    case Num(k) => if 0 <= k < n then Some(k) else None
    case Str(s) =>
      CanonicalIndexOfAnyPrinted(s);
      (match CanonicalIndex(s)
       case Some(k) => if k < n then Some(k) else None
       case None => None)
    case _ => None
  }

  /** The names a JavaScript array answers other than its elements: its own
      `length`, the methods of `Array.prototype` and those of `Object.prototype`.
      `todo[name]` is then a number, a function or a prototype, whose `_id` is
      `undefined` without any error. */
  const ArrayProperties: set<string> := {
    "length", "constructor", "__proto__",
    "at", "concat", "copyWithin", "entries", "every", "fill", "filter", "find",
    "findIndex", "findLast", "findLastIndex", "flat", "flatMap", "forEach",
    "includes", "indexOf", "join", "keys", "lastIndexOf", "map", "pop", "push",
    "reduce", "reduceRight", "reverse", "shift", "slice", "some", "sort", "splice",
    "toLocaleString", "toReversed", "toSorted", "toSpliced", "toString", "unshift",
    "values", "with",
    "hasOwnProperty", "isPrototypeOf", "propertyIsEnumerable", "valueOf",
    "__defineGetter__", "__defineSetter__", "__lookupGetter__", "__lookupSetter__"
  }

  /** `todo[index]` reads a property that is not an element. */
  predicate NamesProperty(index: Value)
  {
    index.Str? && index.s in ArrayProperties
  }

  /** `Todo.deleteOne({_id: id})`: the first record with that id goes. */
  function RemoveId(todos: seq<Todo>, id: nat): seq<Todo>
  {
    if todos == [] then []
    else if todos[0].id == id then todos[1..]
    else [todos[0]] + RemoveId(todos[1..], id)
  }

  predicate DistinctIds(todos: seq<Todo>)
  {
    forall i, j :: 0 <= i < j < |todos| ==> todos[i].id != todos[j].id
  }

  predicate IdsBelow(todos: seq<Todo>, bound: nat)
  {
    forall i :: 0 <= i < |todos| ==> todos[i].id < bound
  }

  /** POST `/`: a record is saved when `task` passes validation. */
  function Created(todos: seq<Todo>, id: nat, task: Value, dueDate: Value): (seq<Todo>, StoreReply)
  {
    match TaskText(task)
    case Some(t) => (todos + [Todo(id, t, dueDate)], Successful)
    case None => (todos, Failed(TaskRequiredMessage))
  }

  /** DELETE `/`: the record at position `index` of a fresh listing goes, by id.
      An index naming another property of the listing reads an `_id` of
      `undefined`; the delete then runs on that filter, taken here to match no
      record, and the route answers success. Anything else reads `undefined`
      itself, and `._id` of it throws. */
  function Deleted(todos: seq<Todo>, index: Value): (seq<Todo>, StoreReply)
  {
    match ArrayIndex(index, |todos|)
    case Some(i) => (RemoveId(todos, todos[i].id), Successful)
    case None =>
      if NamesProperty(index) then (todos, Successful) else (todos, Failed(MissingTodoMessage))
  }

  lemma {:induction false} RemoveAtPosition(todos: seq<Todo>, i: nat)
    requires DistinctIds(todos) && i < |todos|
    ensures RemoveId(todos, todos[i].id) == todos[..i] + todos[i + 1..]
  {
    if i > 0 {
      assert todos[0].id != todos[i].id;
      RemoveAtPosition(todos[1..], i - 1);
      assert todos[1..][i - 1] == todos[i];
      assert todos[1..][..i - 1] + todos[1..][i..] == todos[1..i] + todos[i + 1..];
      assert [todos[0]] + todos[1..i] == todos[..i];
    }
  }

  /** Removing one record keeps the ids distinct and below the bound. */
  lemma RemovalKeepsIds(todos: seq<Todo>, i: nat, bound: nat)
    requires DistinctIds(todos) && IdsBelow(todos, bound) && i < |todos|
    ensures DistinctIds(todos[..i] + todos[i + 1..])
    ensures IdsBelow(todos[..i] + todos[i + 1..], bound)
  {
    var rest := todos[..i] + todos[i + 1..];
    forall k | 0 <= k < |rest| ensures rest[k] == todos[if k < i then k else k + 1] { }
  }

  /** A delete at an index in range removes exactly that record and keeps the
      others in their order; any other index leaves the list alone. It is
      answered with success when it names a property of the array, and with an
      ordinary error body otherwise. */
  lemma DeleteByPosition(todos: seq<Todo>, index: Value)
    requires DistinctIds(todos)
    ensures match ArrayIndex(index, |todos|)
      case Some(i) => Deleted(todos, index) == (todos[..i] + todos[i + 1..], Successful)
      case None =>
        && Deleted(todos, index).0 == todos
        && (Deleted(todos, index).1 == Successful <==> NamesProperty(index))
        && (!NamesProperty(index) ==> Deleted(todos, index).1 == Failed(MissingTodoMessage))
  {
    if ArrayIndex(index, |todos|).Some? {
      RemoveAtPosition(todos, ArrayIndex(index, |todos|).value);
    }
  }

  /** The indices a delete resolves: integers in range and their decimal text;
      a missing index resolves to nothing. */
  lemma IndexResolution(k: int, n: nat)
    ensures ArrayIndex(Num(k), n).Some? <==> 0 <= k < n
    ensures 0 <= k < n ==> ArrayIndex(Num(k), n) == Some(k as nat)
    ensures 0 <= k < n ==> ArrayIndex(Str(NatToString(k)), n) == Some(k as nat)
    ensures ArrayIndex(Undefined, n).None?
  {
    if 0 <= k {
      CanonicalIndexOfPrinted(k);
    }
  }

  /** A create appends exactly one record when `task` is valid and changes
      nothing otherwise. */
  lemma CreateAppendsOne(todos: seq<Todo>, id: nat, task: Value, dueDate: Value)
    ensures var (after, reply) := Created(todos, id, task, dueDate);
      && (reply == Successful <==> TaskText(task).Some?)
      && (reply == Successful ==>
            |after| == |todos| + 1 && after[..|todos|] == todos &&
            after[|todos|] == Todo(id, TaskText(task).value, dueDate))
      && (reply != Successful ==> after == todos && reply == Failed(TaskRequiredMessage))
  {
  }

  class Store {
    var todos: seq<Todo>
    var nextId: nat

    ghost predicate Valid()
      reads this
    {
      DistinctIds(todos) && IdsBelow(todos, nextId)
    }

    constructor ()
      ensures Valid() && todos == []
    {
      todos, nextId := [], 0;
    }

    /** GET `/`: the whole collection. */
    method List() returns (reply: StoreReply)
      requires Valid()
      ensures reply.Listing? && reply.todos == todos
    {
      reply := Listing(todos);
    }

    /** POST `/` with body `{task, dueDate}`. */
    method Create(task: Value, dueDate: Value) returns (reply: StoreReply)
      requires Valid()
      modifies this
      ensures Valid()
      ensures (todos, reply) == Created(old(todos), old(nextId), task, dueDate)
    {
      var text := TaskText(task);
      if text.None? {
        reply := Failed(TaskRequiredMessage);
        return;
      }
      todos := todos + [Todo(nextId, text.value, dueDate)];
      nextId := nextId + 1;
      reply := Successful;
    }

    /** DELETE `/` with body `{index}`. */
    method Delete(index: Value) returns (reply: StoreReply)
      requires Valid()
      modifies this
      ensures Valid()
      ensures (todos, reply) == Deleted(old(todos), index)
    {
      var listing := todos;
      var i := ArrayIndex(index, |listing|);
      if i.None? {
        reply := if NamesProperty(index) then Successful else Failed(MissingTodoMessage);
        return;
      }
      RemoveAtPosition(listing, i.value);
      RemovalKeepsIds(listing, i.value, nextId);
      todos := RemoveId(listing, listing[i.value].id);
      reply := Successful;
    }
  }
}
