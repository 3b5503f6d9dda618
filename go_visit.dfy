/** Visits in the Go server: the protocol form received as JSON, the
    database form with a normalised date and sorted task names, and the
    conversions between them.  Dates are instants (integers); `parse` and
    `format` stand for RFC 3339 parsing and UTC formatting. */
module GoVisit {
  import opened Common
  import opened Sorting
  import opened GoUtil

  /** `ResponseVisit`; `dirty` is empty when the JSON had no dirty list. */
  datatype ResponseVisit = ResponseVisit(id: string, date: string, tasks: seq<string>, note: string, dirty: seq<string>)

  /** `DatabaseVisit`; its tasks are kept sorted. */
  datatype DatabaseVisit = DatabaseVisit(id: string, rawDate: string, tasks: seq<string>, note: string)

  /** `key` holds a string. */
  predicate IsStr(data: map<string, Value>, key: string)
  {
    key in data && data[key].VStr?
  }

  /** `key` holds a list of strings. */
  predicate IsStrList(data: map<string, Value>, key: string)
  {
    key in data && data[key].VList? && AllStrings(data[key].items)
  }

  /** Every type assertion of `DeserializeResponseVisit` succeeds. */
  predicate VisitDataOk(data: map<string, Value>)
  {
    IsStr(data, "id") && IsStr(data, "date") && IsStr(data, "note") && IsStrList(data, "tasks")
  }

  /** The visit a well-typed JSON object describes. */
  function VisitFromData(data: map<string, Value>): (v: ResponseVisit)
    requires VisitDataOk(data)
    ensures v.id == data["id"].s && v.date == data["date"].s && v.note == data["note"].s
    ensures |v.tasks| == |data["tasks"].items|
    ensures forall i :: 0 <= i < |v.tasks| ==> v.tasks[i] == data["tasks"].items[i].s
  {
    StringsOfAllStrings(data["tasks"].items);
    ResponseVisit(data["id"].s, data["date"].s, StringsOf(data["tasks"].items), data["note"].s,
                  ExtractStringList(data, "dirty"))
  }

  /** `DeserializeResponseVisit`: a missing or mistyped field is a recovered
      panic, returned as an error. */
  method DeserializeResponseVisit(data: map<string, Value>) returns (r: Result<ResponseVisit, string>)
    ensures r.Ok? <==> VisitDataOk(data)
    ensures r.Ok? ==> r.value == VisitFromData(data)
  {
    if !(IsStr(data, "id") && IsStr(data, "date") && IsStr(data, "note")) || "tasks" !in data || !data["tasks"].VList? {
      return Err("Failed to deserialize visit");
    }
    var items := data["tasks"].items;
    var tasks: seq<string> := [];
    var i := 0;
    while i < |items|
      invariant 0 <= i <= |items|
      invariant AllStrings(items[..i]) && tasks == StringsOf(items[..i])
    {
      assert items[..i + 1] == items[..i] + [items[i]];
      StringsOfAppend(items[..i], [items[i]]);
      if !items[i].VStr? {
        assert !AllStrings(items);
        return Err("Failed to deserialize visit");
      }
      tasks := tasks + [items[i].s];
      i := i + 1;
    }
    assert items[..i] == items;
    r := Ok(ResponseVisit(data["id"].s, data["date"].s, tasks, data["note"].s, ExtractStringList(data, "dirty")));
  }

  /** `d` is what `ToRealVisit` makes of `c`: the date parses and is stored
      in UTC form, id and note are copied, and its tasks are sorted. */
  ghost predicate RealVisitOf(c: ResponseVisit, d: DatabaseVisit, parse: string -> Option<int>, format: int -> string)
  {
    && parse(c.date).Some?
    && d.id == c.id && d.note == c.note
    && d.rawDate == format(parse(c.date).value)
    && SortedBy(d.tasks, StrLess)
    && multiset(d.tasks) == multiset(c.tasks)
  }

  /** `ToRealVisit`: fails when the date does not parse; otherwise sorts the
      receiver's task list in place (`sorted` is the receiver afterwards)
      and builds the database visit. */
  method ToRealVisit(c: ResponseVisit, parse: string -> Option<int>, format: int -> string)
    returns (r: Result<DatabaseVisit, string>, sorted: ResponseVisit)
    ensures r.Err? <==> parse(c.date).None?
    ensures r.Err? ==> sorted == c
    ensures r.Ok? ==> RealVisitOf(c, r.value, parse, format) && sorted == c.(tasks := r.value.tasks)
  {
    var date := parse(c.date);
    if date.None? {
      return Err("date does not parse"), c;
    }
    var a := new string[|c.tasks|](i requires 0 <= i < |c.tasks| => c.tasks[i]);
    assert a[..] == c.tasks;
    StrLessIsStrictWeakOrder();
    SortBy(a, StrLess);
    sorted := c.(tasks := a[..]);
    r := Ok(DatabaseVisit(c.id, format(date.value), a[..], c.note));
  }

  /** The protocol form of a database visit: id, raw date, tasks in order and
      note, with no dirty list. */
  function VisitResponse(v: DatabaseVisit): (r: ResponseVisit)
    ensures r.id == v.id && r.date == v.rawDate && r.tasks == v.tasks && r.note == v.note && r.dirty == []
  {
    ResponseVisit(v.id, v.rawDate, v.tasks, v.note, [])
  }

  /** `DatabaseVisit.ToResponse`: copies its task list element by element. */
  method ToResponse(v: DatabaseVisit) returns (r: ResponseVisit)
    ensures r == VisitResponse(v)
  {
    var tasks: seq<string> := [];
    var i := 0;
    while i < |v.tasks|
      invariant 0 <= i <= |v.tasks|
      invariant tasks == v.tasks[..i]
    {
      assert v.tasks[..i + 1] == v.tasks[..i] + [v.tasks[i]];
      tasks := tasks + [v.tasks[i]];
      i := i + 1;
    }
    assert v.tasks[..i] == v.tasks;
    r := ResponseVisit(v.id, v.rawDate, tasks, v.note, []);
  }

  /** Converting to the database form and back keeps id and note, gives the
      same tasks sorted, and the date in UTC form (the same text when it
      already was). */
  lemma VisitRoundTrip(c: ResponseVisit, d: DatabaseVisit, parse: string -> Option<int>, format: int -> string)
    requires RealVisitOf(c, d, parse, format)
    ensures VisitResponse(d).id == c.id && VisitResponse(d).note == c.note
    ensures multiset(VisitResponse(d).tasks) == multiset(c.tasks) && SortedBy(VisitResponse(d).tasks, StrLess)
    ensures format(parse(c.date).value) == c.date ==> VisitResponse(d).date == c.date
  {
  }

  /** `HasTask` */
  method HasTask(v: DatabaseVisit, task: string) returns (r: bool)
    ensures r <==> task in v.tasks
  {
    var i := 0;
    while i < |v.tasks|
      invariant 0 <= i <= |v.tasks|
      invariant task !in v.tasks[..i]
    {
      if v.tasks[i] == task {
        return true;
      }
      assert v.tasks[..i + 1] == v.tasks[..i] + [v.tasks[i]];
      i := i + 1;
    }
    assert v.tasks[..i] == v.tasks;
    r := false;
  }

  /** The update value of a visit field; `None` for names that are not
      updatable. */
  function VisitField(v: ResponseVisit, name: string): (r: Option<Value>)
    ensures r.Some? <==> name == "date" || name == "tasks" || name == "note"
  {
    if name == "date" then Some(VStr(v.date))
    else if name == "tasks" then Some(VList(seq(|v.tasks|, i requires 0 <= i < |v.tasks| => VStr(v.tasks[i]))))
    else if name == "note" then Some(VStr(v.note))
    else None
  }

  /** `ResponseVisit.CreateUpdateDocument`: one key `keyPrefix + name` per
      dirty name among `date`, `tasks` and `note`, mapped to its current
      value; other names are skipped. */
  method CreateUpdateDocument(v: ResponseVisit, keyPrefix: string) returns (changes: map<string, Value>)
    ensures forall k :: k in changes <==>
      exists name :: name in v.dirty && name in {"date", "tasks", "note"} && k == keyPrefix + name
    ensures forall name :: name in v.dirty && VisitField(v, name).Some? ==>
      keyPrefix + name in changes && changes[keyPrefix + name] == VisitField(v, name).value
  {
    changes := FillUpdates(v.dirty, keyPrefix, name => VisitField(v, name));
  }
}
