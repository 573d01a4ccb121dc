/**
 * The `Task` record: construction with defaults and tag splitting,
 * `validate()`, `toJSON()`, and the column encodings the routes use when a
 * task is written to and read back from the database (tags joined with ',',
 * `completed` stored as 0/1).
 */
module TaskModel {
  import opened JsValues

  /** The plain object handed to `new Task(data)`; a missing property is Undefined. */
  datatype TaskData = TaskData(
    id: JsValue, title: JsValue, description: JsValue, completed: JsValue,
    priority: JsValue, userId: JsValue, createdAt: JsValue, category: JsValue,
    tags: JsValue, dueDate: JsValue)

  /** A constructed task; its fields are assigned once by the constructor. */
  datatype Task = Task(
    id: JsValue, title: JsValue, description: JsValue, completed: JsValue,
    priority: JsValue, userId: JsValue, createdAt: JsValue, category: JsValue,
    tags: seq<string>, dueDate: JsValue)

  // ----- constructor -----

  /**
   * `new Task(data)`. Falsy description, completed, priority, category and
   * dueDate take their defaults; tags is split at ',' when truthy and `[]`
   * otherwise. A truthy tags value that is not a string has no `split`, so
   * the constructor throws.
   */
  function NewTask(data: TaskData): (r: Outcome<Task>)
    ensures r.Threw? <==> Truthy(data.tags) && !data.tags.Str?
    ensures r.Returned? ==>
      var t := r.value;
      && t.id == data.id && t.title == data.title
      && t.userId == data.userId && t.createdAt == data.createdAt
      && t.description == (if Truthy(data.description) then data.description else Str(""))
      && t.completed == (if Truthy(data.completed) then data.completed else Bool(false))
      && t.priority == (if Truthy(data.priority) then data.priority else Str("medium"))
      && t.category == (if Truthy(data.category) then data.category else Null)
      && t.dueDate == (if Truthy(data.dueDate) then data.dueDate else Null)
    ensures r.Returned? && Truthy(data.tags) ==> Join(r.value.tags) == data.tags.s
    ensures r.Returned? && !Truthy(data.tags) ==> r.value.tags == []
    ensures r.Returned? ==> NoCommas(r.value.tags) && r.value.tags != [""]
  {
    if Truthy(data.tags) && !data.tags.Str? then Threw(TypeError)
    else
      var tags := if Truthy(data.tags) then Split(data.tags.s) else [];
      assert Truthy(data.tags) ==> Join(tags) == data.tags.s by {
        if Truthy(data.tags) { JoinSplit(data.tags.s); }
      }
      Returned(Task(
        data.id,
        data.title,
        Or(data.description, Str("")),
        Or(data.completed, Bool(false)),
        Or(data.priority, Str("medium")),
        data.userId,
        data.createdAt,
        Or(data.category, Null),
        tags,
        Or(data.dueDate, Null)))
  }

  // ----- validate() -----

  datatype Validation = Validation(isValid: bool, errors: seq<string>)

  const TitleRequired: string := "Título é obrigatório"
  const UserRequired: string := "Usuário é obrigatório"

  /** `title?.trim()` throws when the title is neither nullish nor a string. */
  predicate TitleHasNoTrim(title: JsValue) {
    !(title.Undefined? || title.Null? || title.Str?)
  }

  /** The title is missing: nullish, or a string of white space only. */
  predicate TitleMissing(title: JsValue) {
    title.Undefined? || title.Null? || (title.Str? && AllJsSpace(title.s))
  }

  /**
   * `task.validate()`: collects the title error and then the user error, and
   * reports the task valid exactly when there is no error.
   */
  method Validate(t: Task) returns (r: Outcome<Validation>)
    ensures r.Threw? <==> TitleHasNoTrim(t.title)
    ensures r.Returned? ==> (r.value.isValid <==> r.value.errors == [])
    ensures r.Returned? ==> (TitleRequired in r.value.errors <==> TitleMissing(t.title))
    ensures r.Returned? ==> (UserRequired in r.value.errors <==> !Truthy(t.userId))
    ensures r.Returned? ==> |r.value.errors| <= 2
    ensures r.Returned? && |r.value.errors| == 2 ==> r.value.errors == [TitleRequired, UserRequired]
    ensures r.Returned? ==> forall e :: e in r.value.errors ==> e == TitleRequired || e == UserRequired
    ensures r.Returned? ==> (r.value.isValid <==> !TitleMissing(t.title) && Truthy(t.userId))
  {
    if TitleHasNoTrim(t.title) {
      return Threw(TypeError);
    }
    var errors: seq<string> := [];
    var trimmed := if t.title.Str? then Trim(t.title.s) else "";
    assert !(t.title.Str? && trimmed != "") <==> TitleMissing(t.title);
    if !(t.title.Str? && trimmed != "") {
      errors := errors + [TitleRequired];
    }
    assert errors == (if TitleMissing(t.title) then [TitleRequired] else []);
    if !Truthy(t.userId) {
      errors := errors + [UserRequired];
    }
    assert errors == (if TitleMissing(t.title) then [TitleRequired] else [])
                   + (if Truthy(t.userId) then [] else [UserRequired]);
    r := Returned(Validation(|errors| == 0, errors));
  }

  // ----- toJSON() -----

  /** A plain object as its properties in insertion order. */
  type JsonObject = seq<(string, JsValue)>

  /** The property names of a task, in the order the constructor assigns them. */
  const TaskFields: seq<string> :=
    ["id", "title", "description", "completed", "priority",
     "userId", "createdAt", "category", "tags", "dueDate"]

  /** `o[key]`: the value of the first property named `key`. */
  function Get(o: JsonObject, key: string): Option<JsValue> {
    if |o| == 0 then None
    else if o[0].0 == key then Some(o[0].1)
    else Get(o[1..], key)
  }

  /** The strings of an array of strings; None for anything else. */
  function TagsOf(v: JsValue): Option<seq<string>> {
    if v.Arr? && forall i :: 0 <= i < |v.items| ==> v.items[i].Str?
    then Some(seq(|v.items|, i requires 0 <= i < |v.items| && v.items[i].Str? => v.items[i].s))
    else None
  }

  /** An array of tag strings as a JavaScript value: one that reads back as the same tags. */
  function TagsValue(tags: seq<string>): (v: JsValue)
    ensures TagsOf(v) == Some(tags)
  {
    var v := Arr(seq(|tags|, i requires 0 <= i < |tags| => Str(tags[i])));
    assert seq(|v.items|, i requires 0 <= i < |v.items| && v.items[i].Str? => v.items[i].s) == tags;
    v
  }

  /** `task.toJSON()`: every property of the task, tags included. */
  function ToJson(t: Task): (o: JsonObject)
    ensures |o| == |TaskFields|
    ensures forall i :: 0 <= i < |o| ==> o[i].0 == TaskFields[i]
  {
    [("id", t.id), ("title", t.title), ("description", t.description),
     ("completed", t.completed), ("priority", t.priority), ("userId", t.userId),
     ("createdAt", t.createdAt), ("category", t.category),
     ("tags", TagsValue(t.tags)), ("dueDate", t.dueDate)]
  }

  /** Reads a task back from an object with the task's properties. */
  function FromJson(o: JsonObject): Option<Task> {
    var tags := if Get(o, "tags").Some? then TagsOf(Get(o, "tags").value) else None;
    if forall k :: k in TaskFields ==> Get(o, k).Some?
    then
      if tags.Some?
      then Some(Task(
        Get(o, "id").value, Get(o, "title").value, Get(o, "description").value,
        Get(o, "completed").value, Get(o, "priority").value, Get(o, "userId").value,
        Get(o, "createdAt").value, Get(o, "category").value, tags.value,
        Get(o, "dueDate").value))
      else None
    else None
  }

  /** A property that no earlier property shadows is found by `Get`. */
  lemma {:induction false} GetAt(o: JsonObject, j: nat)
    requires j < |o|
    requires forall i :: 0 <= i < j ==> o[i].0 != o[j].0
    ensures Get(o, o[j].0) == Some(o[j].1)
  {
    if j > 0 {
      GetAt(o[1..], j - 1);
    }
  }

  /** The first five properties of `toJSON()` hold the task's fields unchanged. */
  lemma {:induction false} ToJsonLeadingFields(t: Task)
    ensures Get(ToJson(t), "id") == Some(t.id)
    ensures Get(ToJson(t), "title") == Some(t.title)
    ensures Get(ToJson(t), "description") == Some(t.description)
    ensures Get(ToJson(t), "completed") == Some(t.completed)
    ensures Get(ToJson(t), "priority") == Some(t.priority)
  {
    var o := ToJson(t);
    GetAt(o, 0); GetAt(o, 1); GetAt(o, 2); GetAt(o, 3); GetAt(o, 4);
  }

  /** The last five properties of `toJSON()` hold the task's fields, tags as an array. */
  lemma {:induction false} ToJsonTrailingFields(t: Task)
    ensures Get(ToJson(t), "userId") == Some(t.userId)
    ensures Get(ToJson(t), "createdAt") == Some(t.createdAt)
    ensures Get(ToJson(t), "category") == Some(t.category)
    ensures Get(ToJson(t), "tags") == Some(TagsValue(t.tags))
    ensures Get(ToJson(t), "dueDate") == Some(t.dueDate)
  {
    var o := ToJson(t);
    GetAt(o, 5); GetAt(o, 6); GetAt(o, 7); GetAt(o, 8); GetAt(o, 9);
  }

  /** `toJSON()` loses nothing: the task can be read back from it. */
  lemma ToJsonRoundTrip(t: Task)
    ensures FromJson(ToJson(t)) == Some(t)
  {
    ToJsonLeadingFields(t);
    ToJsonTrailingFields(t);
    var o := ToJson(t);
    assert forall k :: k in TaskFields ==> Get(o, k).Some?;
  }

  // ----- column encodings -----

  /** `completed ? 1 : 0`, the value a PUT writes to the completed column. */
  function EncodeCompleted(v: JsValue): int {
    if Truthy(v) then 1 else 0
  }

  /** `row.completed === 1`, how a read row's completed column becomes a boolean. */
  function DecodeCompleted(column: JsValue): JsValue {
    Bool(column == Num(Finite(1)))
  }

  /** Writing `completed` and reading it back keeps exactly its truthiness. */
  lemma CompletedRoundTrip(v: JsValue)
    ensures DecodeCompleted(Num(Finite(EncodeCompleted(v)))) == Bool(Truthy(v))
  {
  }

  /** `String(v)` as `Array.prototype.join` applies it to each element. */
  function JoinElement(v: JsValue): string
    decreases v
  {
    match v
    case Undefined => ""
    case Null => ""
    case Bool(b) => if b then "true" else "false"
    case Num(x) => NumberToString(x)
    case Str(s) => s
    case Arr(items) => Join(seq(|items|, i requires 0 <= i < |items| => JoinElement(items[i])))
  }

  /** `Array.isArray(tags) ? tags.join(',') : tags`, the tags column a write stores. */
  function EncodeTags(tags: JsValue): (column: JsValue)
    ensures !tags.Arr? ==> column == tags
    ensures tags.Arr? ==> column.Str?
  {
    if tags.Arr? then Str(JoinElement(tags)) else tags
  }

  /** The tags of a constructed task are stored as their ','-joined text. */
  lemma EncodeTaskTags(tags: seq<string>)
    ensures EncodeTags(TagsValue(tags)) == Str(Join(tags))
  {
    var v := TagsValue(tags);
    assert seq(|v.items|, i requires 0 <= i < |v.items| => JoinElement(v.items[i])) == tags;
  }

  /** The columns the POST handler inserts for a task. */
  datatype InsertedRow = InsertedRow(
    id: JsValue, title: JsValue, description: JsValue, priority: JsValue,
    category: JsValue, tags: JsValue, dueDate: JsValue, userId: JsValue)

  function InsertValues(t: Task): InsertedRow {
    InsertedRow(t.id, t.title, t.description, t.priority, t.category,
                EncodeTags(TagsValue(t.tags)), t.dueDate, t.userId)
  }

  /**
   * `{ ...row, completed: row.completed === 1 }` for a row holding the
   * inserted columns plus the completed and createdAt columns that the
   * database fills in.
   */
  function ReadRow(row: InsertedRow, completedColumn: JsValue, createdAtColumn: JsValue): TaskData {
    TaskData(row.id, row.title, row.description, DecodeCompleted(completedColumn),
             row.priority, row.userId, createdAtColumn, row.category, row.tags, row.dueDate)
  }

  /**
   * A task that is inserted and read back is the same task, except for the
   * two columns the insert does not write.
   */
  lemma {:induction false} StoredTaskRoundTrip(data: TaskData, completedColumn: JsValue, createdAtColumn: JsValue)
    requires NewTask(data).Returned?
    ensures
      var t := NewTask(data).value;
      NewTask(ReadRow(InsertValues(t), completedColumn, createdAtColumn))
        == Returned(t.(completed := DecodeCompleted(completedColumn), createdAt := createdAtColumn))
  {
    var t := NewTask(data).value;
    EncodeTaskTags(t.tags);
    var back := ReadRow(InsertValues(t), completedColumn, createdAtColumn);
    assert back.tags == Str(Join(t.tags));
    if t.tags != [] {
      SplitJoin(t.tags);
    }
  }

  /**
   * Tags joined with ',' and split again by the constructor come back
   * unchanged, provided no tag contains ',', except for the single empty tag,
   * whose join is the empty (falsy) text and so comes back as no tags.
   */
  lemma {:induction false} TagsRoundTrip(data: TaskData, tags: seq<string>)
    requires NoCommas(tags)
    ensures NewTask(data.(tags := Str(Join(tags)))).Returned?
    ensures NewTask(data.(tags := Str(Join(tags)))).value.tags == tags <==> tags != [""]
  {
    var d := data.(tags := Str(Join(tags)));
    if tags != [] {
      SplitJoin(tags);
    }
  }
}
