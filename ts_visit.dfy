/** Visits in the TypeScript client: a mutable record whose setters note the
    changed field names in a dirty set (kept in insertion order, as
    `Array.from` of a JavaScript Set lists it), a copy constructor `with`,
    and (de)serialisation.  Dates are instants; `format` stands for
    `toISOString` and `parse` for `moment(text)`. */
module TsVisit {
  import opened Common

  /** The plain object `serialize` produces and `deserialize` reads. */
  datatype VisitData = VisitData(id: Option<string>, date: string, tasks: Option<seq<string>>,
                                 note: Option<string>, dirty: seq<string>)

  /** The fields a caller of `with` supplies; `None` is `undefined`. */
  datatype VisitFields = VisitFields(date: Option<int>, tasks: Option<seq<string>>, note: Option<string>)

  /** A snapshot of a visit's fields. */
  datatype VisitState = VisitState(id: Option<string>, date: int, tasks: seq<string>, note: string,
                                   dirty: seq<string>)

  /** The field names of `fields` that are supplied, in the order `with`
      assigns them. */
  function SuppliedNames(fields: VisitFields): (r: seq<string>)
    ensures Distinct(r)
    ensures forall n :: n in r <==>
      (n == "date" && fields.date.Some?) || (n == "tasks" && fields.tasks.Some?) || (n == "note" && fields.note.Some?)
  {
    (if fields.date.Some? then ["date"] else []) + (if fields.tasks.Some? then ["tasks"] else [])
    + (if fields.note.Some? then ["note"] else [])
  }

  /** The visit `deserialize` builds from `data`: the parsed date, missing
      tasks and note defaulted, nothing dirty. */
  function FromData(data: VisitData, parse: string -> int): (s: VisitState)
    ensures s.dirty == [] && s.id == data.id && s.date == parse(data.date)
    ensures data.tasks.Some? ==> s.tasks == data.tasks.value
    ensures data.note.None? ==> s.note == ""
  {
    VisitState(data.id, parse(data.date), if data.tasks.Some? then data.tasks.value else [],
               if data.note.Some? then data.note.value else "", [])
  }

  /** The plain object `serialize` makes of a visit. */
  function SerializeState(s: VisitState, format: int -> string): (r: VisitData)
    ensures r.dirty == s.dirty && r.id == s.id && r.tasks == Some(s.tasks) && r.note == Some(s.note)
  {
    VisitData(s.id, format(s.date), Some(s.tasks), Some(s.note), s.dirty)
  }

  /** Deserialising a serialised visit keeps id, tasks and note, clears the
      dirty set, and keeps the date whenever parsing undoes formatting. */
  lemma VisitRoundTrip(s: VisitState, format: int -> string, parse: string -> int)
    ensures FromData(SerializeState(s, format), parse) == s.(dirty := [], date := parse(format(s.date)))
    ensures parse(format(s.date)) == s.date ==> FromData(SerializeState(s, format), parse) == s.(dirty := [])
  {
  }

  class Visit {
    var id: Option<string>
    var date: int
    var tasks: seq<string>
    var note: string
    var dirty: seq<string>

    /** The dirty set lists each of the three field names at most once. */
    ghost predicate Valid()
      reads this
    {
      Distinct(dirty) && forall n :: n in dirty ==> n == "date" || n == "tasks" || n == "note"
    }

    function State(): VisitState
      reads this
    {
      VisitState(id, date, tasks, note, dirty)
    }

    /** A missing date is now, missing tasks are empty, a missing note is
        empty; nothing is dirty. */
    constructor (id: Option<string>, date: Option<int>, tasks: Option<seq<string>>, note: Option<string>, now: int)
      ensures Valid()
      ensures this.id == id && this.date == (if date.Some? then date.value else now)
      ensures this.tasks == (if tasks.Some? then tasks.value else [])
      ensures this.note == (if note.Some? then note.value else "")
      ensures dirty == []
    {
      this.id := id;
      this.date := if date.Some? then date.value else now;
      this.tasks := if tasks.Some? then tasks.value else [];
      this.note := if note.Some? then note.value else "";
      dirty := [];
    }

    /** `set date` */
    method SetDate(val: int)
      requires Valid()
      modifies this
      ensures Valid()
      ensures date == val && dirty == AddLast(old(dirty), "date")
      ensures id == old(id) && tasks == old(tasks) && note == old(note)
    {
      dirty := AddLast(dirty, "date");
      date := val;
    }

    /** `set tasks` */
    method SetTasks(val: seq<string>)
      requires Valid()
      modifies this
      ensures Valid()
      ensures tasks == val && dirty == AddLast(old(dirty), "tasks")
      ensures id == old(id) && date == old(date) && note == old(note)
    {
      dirty := AddLast(dirty, "tasks");
      tasks := val;
    }

    /** `set note` */
    method SetNote(val: string)
      requires Valid()
      modifies this
      ensures Valid()
      ensures note == val && dirty == AddLast(old(dirty), "note")
      ensures id == old(id) && date == old(date) && tasks == old(tasks)
    {
      dirty := AddLast(dirty, "note");
      note := val;
    }

    /** `clearDirty` */
    method ClearDirty()
      modifies this
      ensures Valid()
      ensures dirty == [] && State() == old(State()).(dirty := [])
    {
      dirty := [];
    }

    /** `with`: a new visit with this id whose fields come from `fields`
        where supplied and from this visit otherwise, dirty in exactly the
        supplied fields; this visit is unchanged. */
    method With(fields: VisitFields) returns (result: Visit)
      ensures fresh(result) && result.Valid()
      ensures result.id == id
      ensures result.date == (if fields.date.Some? then fields.date.value else date)
      ensures result.tasks == (if fields.tasks.Some? then fields.tasks.value else tasks)
      ensures result.note == (if fields.note.Some? then fields.note.value else note)
      ensures result.dirty == SuppliedNames(fields)
    {
      result := new Visit(id, Some(date), Some(tasks), Some(note), date);
      if fields.date.Some? {
        result.SetDate(fields.date.value);
      }
      if fields.tasks.Some? {
        result.SetTasks(fields.tasks.value);
      }
      if fields.note.Some? {
        result.SetNote(fields.note.value);
      }
    }

    /** `serialize`: the fields, with the dirty set as a list. */
    function Serialize(format: int -> string): (r: VisitData)
      reads this
      ensures r.dirty == dirty && r.id == id && r.tasks == Some(tasks) && r.note == Some(note)
    {
      SerializeState(State(), format)
    }

    /** `deserialize` */
    static method Deserialize(data: VisitData, parse: string -> int) returns (v: Visit)
      ensures fresh(v) && v.Valid()
      ensures v.State() == FromData(data, parse)
    {
      v := new Visit(data.id, Some(parse(data.date)), data.tasks, data.note, parse(data.date));
    }

    /** `emptyVisit`: no id, no tasks, an empty note, dated now. */
    static method EmptyVisit(now: int) returns (v: Visit)
      ensures fresh(v) && v.Valid()
      ensures v.State() == VisitState(None, now, [], "", [])
    {
      v := new Visit(None, Some(now), Some([]), Some(""), now);
    }
  }
}
