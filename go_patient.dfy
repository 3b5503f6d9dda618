/** Patients in the Go server: sex-code validation, deserialisation of the
    JSON protocol form, conversion to and from the database form with due
    dates, the update document, and the most recent visit with a task.
    Dates are instants (integers); `parse` and `format` stand for RFC 3339
    parsing and formatting, `now` for the current time. */
module GoPatient {
  import opened Common
  import opened Sorting
  import opened GoUtil
  import opened GoVisit

  /** `ResponsePatient`; `due` is empty until `ToResponse` fills it. */
  datatype ResponsePatient = ResponsePatient(kind: string, id: string, name: string, sex: string, species: string,
                                             breed: string, description: string, active: bool,
                                             visits: seq<ResponseVisit>, note: string, due: map<string, string>,
                                             dirty: seq<string>)

  /** `DatabasePatient` */
  datatype DatabasePatient = DatabasePatient(id: string, kind: string, name: string, rawSex: string, species: string,
                                             breed: string, description: string, active: bool,
                                             visits: seq<DatabaseVisit>, note: string)

  /** `VerifySex`: one of the nine accepted codes is returned unchanged,
      anything else is an error. */
  function VerifySex(sex: string): (r: Result<string, string>)
    ensures r.Ok? ==> r.value == sex
  {
    if sex in {"m+", "m-", "m?", "f+", "f-", "f?", "?+", "?-", "??"} then Ok(sex)
    else Err("Incorrect sex format: '" + sex + "'")
  }

  /** The accepted codes are exactly a sex `m`, `f` or `?` followed by an
      intactness `+`, `-` or `?`. */
  lemma VerifySexShape(sex: string)
    ensures VerifySex(sex).Ok? <==>
      |sex| == 2 && (sex[0] == 'm' || sex[0] == 'f' || sex[0] == '?') && (sex[1] == '+' || sex[1] == '-' || sex[1] == '?')
  {
    if |sex| == 2 {
      assert sex == [sex[0], sex[1]];
    }
  }

  /** `DatabasePatient.Sex`, as written: the first character when it is `m`
      or `f`; any other code panics, and so does an empty one. */
  function Sex(p: DatabasePatient): (r: Result<char, string>)
    ensures r.Ok? <==> |p.rawSex| > 0 && (p.rawSex[0] == 'm' || p.rawSex[0] == 'f')
    ensures r.Ok? ==> r.value == p.rawSex[0]
  {
    if |p.rawSex| > 0 && (p.rawSex[0] == 'm' || p.rawSex[0] == 'f') then Ok(p.rawSex[0])
    else Err("Unknown sex format: \"" + p.rawSex + "\"")
  }

  /** A code that `VerifySex` accepts still makes `Sex` panic. */
  lemma SexPanicsOnAcceptedCode(p: DatabasePatient)
    requires p.rawSex == "?+"
    ensures VerifySex(p.rawSex).Ok? && Sex(p).Err?
  {
  }

  /** `Sex` as its comment intends: total on every code `VerifySex`
      accepts, giving `m`, `f` or `?`. */
  function SexOfCode(p: DatabasePatient): (r: Result<char, string>)
    ensures VerifySex(p.rawSex).Ok? ==> r.Ok? && r.value == p.rawSex[0]
    ensures r.Ok? ==> r.value == 'm' || r.value == 'f' || r.value == '?'
  {
    if |p.rawSex| > 0 && (p.rawSex[0] == 'm' || p.rawSex[0] == 'f' || p.rawSex[0] == '?') then Ok(p.rawSex[0])
    else Err("Unknown sex format: \"" + p.rawSex + "\"")
  }

  /** `DatabasePatient.Intact`: true iff the second character is `+`; a
      code shorter than two characters panics. */
  function Intact(p: DatabasePatient): (r: Result<bool, string>)
    ensures r.Ok? <==> |p.rawSex| >= 2
    ensures r.Ok? ==> (r.value <==> p.rawSex[1] == '+')
  {
    if |p.rawSex| < 2 then Err("index out of range")
    else if p.rawSex[1] == '+' || p.rawSex[1] == '-' then Ok(p.rawSex[1] == '+')
    else Ok(false)
  }

  /** Every type assertion of `DeserializeResponsePatient` on the patient's
      own fields succeeds and the type is `patient`. */
  predicate PatientFieldsOk(data: map<string, Value>)
  {
    && IsStr(data, "type") && data["type"].s == "patient"
    && IsStr(data, "id") && IsStr(data, "name") && IsStr(data, "sex") && IsStr(data, "species")
    && IsStr(data, "breed") && IsStr(data, "description") && "active" in data && data["active"].VBool?
    && IsStr(data, "note") && "visits" in data && data["visits"].VList?
  }

  /** Each element of a visit list is an object that deserialises. */
  predicate VisitsOk(items: seq<Value>)
  {
    forall i :: 0 <= i < |items| ==> items[i].VObj? && VisitDataOk(items[i].fields)
  }

  /** `DeserializeResponsePatient` succeeds. */
  predicate PatientDataOk(data: map<string, Value>)
  {
    PatientFieldsOk(data) && VisitsOk(data["visits"].items) && VerifySex(data["sex"].s).Ok?
  }

  function VisitsFromData(items: seq<Value>): (r: seq<ResponseVisit>)
    requires VisitsOk(items)
    ensures |r| == |items| && forall i :: 0 <= i < |items| ==> r[i] == VisitFromData(items[i].fields)
  {
    seq(|items|, i requires 0 <= i < |items| && VisitsOk(items) => VisitFromData(items[i].fields))
  }

  /** The patient a well-formed JSON object describes. */
  function PatientFromData(data: map<string, Value>): (p: ResponsePatient)
    requires PatientDataOk(data)
    ensures p.kind == "patient" && VerifySex(p.sex).Ok?
    ensures |p.visits| == |data["visits"].items|
  {
    ResponsePatient("patient", data["id"].s, data["name"].s, data["sex"].s, data["species"].s, data["breed"].s,
                    data["description"].s, data["active"].b, VisitsFromData(data["visits"].items), data["note"].s,
                    map[], ExtractStringList(data, "dirty"))
  }

  /** The visit loop of `DeserializeResponsePatient`: fails at the first
      element that is not an object or does not deserialise. */
  method DeserializeVisitList(items: seq<Value>) returns (r: Result<seq<ResponseVisit>, string>)
    ensures r.Ok? <==> VisitsOk(items)
    ensures r.Ok? ==> r.value == VisitsFromData(items)
  {
    var visits: seq<ResponseVisit> := [];
    var i := 0;
    while i < |items|
      invariant 0 <= i <= |items|
      invariant VisitsOk(items[..i])
      invariant |visits| == i && forall j :: 0 <= j < i ==> visits[j] == VisitFromData(items[j].fields)
    {
      if !items[i].VObj? {
        assert !VisitsOk(items);
        return Err("Bad visit type");
      }
      var visit := DeserializeResponseVisit(items[i].fields);
      if visit.Err? {
        assert !VisitsOk(items);
        return Err("Error parsing visit");
      }
      visits := visits + [visit.value];
      i := i + 1;
    }
    assert items[..i] == items;
    r := Ok(visits);
  }

  /** `DeserializeResponsePatient`: fails unless the type is `patient`,
      every field has its type, every visit is an object that deserialises
      and the sex code is accepted. */
  method DeserializeResponsePatient(data: map<string, Value>) returns (r: Result<ResponsePatient, string>)
    ensures r.Ok? <==> PatientDataOk(data)
    ensures r.Ok? ==> r.value == PatientFromData(data)
  {
    if !PatientFieldsOk(data) {
      return Err("Failed to deserialize patient");
    }
    var items := data["visits"].items;
    var parsed := DeserializeVisitList(items);
    if parsed.Err? {
      return Err(parsed.error);
    }
    var visits := parsed.value;
    if VerifySex(data["sex"].s).Err? {
      return Err("Attempt to update patient with illegal sex");
    }
    r := Ok(ResponsePatient("patient", data["id"].s, data["name"].s, data["sex"].s, data["species"].s,
                            data["breed"].s, data["description"].s, data["active"].b, visits, data["note"].s,
                            map[], ExtractStringList(data, "dirty")));
  }

  /** `ToRealPatient`: fails on a rejected sex code or on a visit whose date
      does not parse; otherwise copies every field and converts the visits
      in order. */
  method ToRealPatient(p: ResponsePatient, parse: string -> Option<int>, format: int -> string)
    returns (r: Result<DatabasePatient, string>)
    ensures r.Err? <==> VerifySex(p.sex).Err? || exists i :: 0 <= i < |p.visits| && parse(p.visits[i].date).None?
    ensures r.Ok? ==>
      && r.value.kind == "patient" && r.value.id == p.id && r.value.name == p.name && r.value.rawSex == p.sex
      && r.value.species == p.species && r.value.breed == p.breed && r.value.description == p.description
      && r.value.active == p.active && r.value.note == p.note
      && |r.value.visits| == |p.visits|
      && forall i :: 0 <= i < |p.visits| ==> RealVisitOf(p.visits[i], r.value.visits[i], parse, format)
  {
    var sex := VerifySex(p.sex);
    if sex.Err? {
      return Err(sex.error);
    }
    var visits: seq<DatabaseVisit> := [];
    var i := 0;
    while i < |p.visits|
      invariant 0 <= i <= |p.visits|
      invariant forall j :: 0 <= j < i ==> parse(p.visits[j].date).Some?
      invariant |visits| == i && forall j :: 0 <= j < i ==> RealVisitOf(p.visits[j], visits[j], parse, format)
    {
      var realVisit, _ := ToRealVisit(p.visits[i], parse, format);
      if realVisit.Err? {
        return Err(realVisit.error);
      }
      visits := visits + [realVisit.value];
      i := i + 1;
    }
    r := Ok(DatabasePatient(p.id, "patient", p.name, sex.value, p.species, p.breed, p.description, p.active,
                            visits, p.note));
  }

  /** The update value of a patient field; `None` for names that are not
      updatable. */
  function PatientField(p: ResponsePatient, name: string): (r: Option<Value>)
    ensures r.Some? <==> name in {"name", "sex", "species", "breed", "description", "active", "note"}
  {
    if name == "name" then Some(VStr(p.name))
    else if name == "sex" then Some(VStr(p.sex))
    else if name == "species" then Some(VStr(p.species))
    else if name == "breed" then Some(VStr(p.breed))
    else if name == "description" then Some(VStr(p.description))
    else if name == "active" then Some(VBool(p.active))
    else if name == "note" then Some(VStr(p.note))
    else None
  }

  /** `ResponsePatient.CreateUpdateDocument`: one key per dirty name among
      the seven updatable fields, mapped to its current value. */
  method CreateUpdateDocument(p: ResponsePatient) returns (changes: map<string, Value>)
    ensures forall k :: k in changes <==>
      k in p.dirty && k in {"name", "sex", "species", "breed", "description", "active", "note"}
    ensures forall k :: k in changes ==> changes[k] == PatientField(p, k).value
  {
    changes := FillUpdates(p.dirty, "", name => PatientField(p, name));
    assert forall name: string :: "" + name == name;
  }

  /** The index the search of `LastVisitWithTask` holds after the first `n`
      visits: the first visit with that task, replaced by each later one whose
      date is strictly greater. */
  function BestIndex(visits: seq<DatabaseVisit>, task: string, n: nat): (r: Option<nat>)
    requires n <= |visits|
    ensures r.Some? ==> r.value < n
  {
    if n == 0 then None
    else
      var best := BestIndex(visits, task, n - 1);
      if task in visits[n - 1].tasks && (best.None? || StrLess(visits[best.value].rawDate, visits[n - 1].rawDate))
      then Some(n - 1) else best
  }

  /** The search finds nothing iff no visit has that task; otherwise a visit
      with that task whose date no other such visit exceeds, and the first of
      those in list order. */
  lemma {:induction false} BestIndexSpec(visits: seq<DatabaseVisit>, task: string, n: nat)
    requires n <= |visits|
    ensures BestIndex(visits, task, n).None? <==> forall j :: 0 <= j < n ==> task !in visits[j].tasks
    ensures BestIndex(visits, task, n).Some? ==>
      var i := BestIndex(visits, task, n).value;
      && task in visits[i].tasks
      && (forall j :: 0 <= j < n && task in visits[j].tasks ==> !StrLess(visits[i].rawDate, visits[j].rawDate))
      && (forall j :: 0 <= j < i && task in visits[j].tasks ==> StrLess(visits[j].rawDate, visits[i].rawDate))
  {
    if n > 0 {
      BestIndexSpec(visits, task, n - 1);
      var best := BestIndex(visits, task, n - 1);
      var d := visits[n - 1].rawDate;
      if best.Some? {
        var b := visits[best.value].rawDate;
        if task in visits[n - 1].tasks && StrLess(b, d) {
          forall j | 0 <= j < n - 1 && task in visits[j].tasks
            ensures !StrLess(d, visits[j].rawDate) && StrLess(visits[j].rawDate, d)
          {
            var dj := visits[j].rawDate;
            if dj == b {
            } else {
              StrLessTotal(dj, b);
              StrLessTransitive(dj, b, d);
            }
            StrLessIsStrictWeakOrder();
          }
          StrLessIrreflexive(d);
        } else if task in visits[n - 1].tasks {
          StrLessIsStrictWeakOrder();
        }
      } else if task in visits[n - 1].tasks {
        StrLessIrreflexive(d);
      }
    }
  }

  /** `LastVisitWithTask`: the visit the search settles on, or nil. */
  method LastVisitWithTask(p: DatabasePatient, task: string) returns (r: Option<DatabaseVisit>)
    ensures var best := BestIndex(p.visits, task, |p.visits|);
      r == if best.Some? then Some(p.visits[best.value]) else None
  {
    if |p.visits| == 0 {
      return None;
    }
    var bestMatch: Option<nat> := None;
    var i := 0;
    while i < |p.visits|
      invariant 0 <= i <= |p.visits|
      invariant bestMatch == BestIndex(p.visits, task, i)
    {
      var visit := p.visits[i];
      var has := HasTask(visit, task);
      if has && (bestMatch.None? || StrLess(p.visits[bestMatch.value].rawDate, visit.rawDate)) {
        bestMatch := Some(i);
      }
      i := i + 1;
    }
    r := if bestMatch.Some? then Some(p.visits[bestMatch.value]) else None;
  }

  /** Visit `i` has that task, no visit with it has a later date, and every
      earlier visit with it has an earlier one. */
  predicate IsLastWithTask(visits: seq<DatabaseVisit>, task: string, i: int)
  {
    && 0 <= i < |visits| && task in visits[i].tasks
    && (forall j :: 0 <= j < |visits| && task in visits[j].tasks ==> !StrLess(visits[i].rawDate, visits[j].rawDate))
    && (forall j :: 0 <= j < i && task in visits[j].tasks ==> StrLess(visits[j].rawDate, visits[i].rawDate))
  }

  /** The due date of `task`: now when no visit has it, otherwise the date of
      the last visit with it plus that task's interval; `None` when that date
      does not parse. */
  function DueFor(p: DatabasePatient, task: string, interval: int, now: int, parse: string -> Option<int>,
                  format: int -> string): (r: Option<string>)
    ensures (forall j :: 0 <= j < |p.visits| ==> task !in p.visits[j].tasks) ==> r == Some(format(now))
  {
    BestIndexSpec(p.visits, task, |p.visits|);
    var best := BestIndex(p.visits, task, |p.visits|);
    if best.None? then Some(format(now))
    else
      var date := parse(p.visits[best.value].rawDate);
      if date.None? then None else Some(format(date.value + interval))
  }

  /** When some visit has that task, the due date is that task's interval
      after the date of the last visit with it (the first such in list order
      on a tie), and nothing when that date does not parse. */
  lemma DueForLastVisit(p: DatabasePatient, task: string, interval: int, now: int, parse: string -> Option<int>,
                        format: int -> string)
    requires exists j :: 0 <= j < |p.visits| && task in p.visits[j].tasks
    ensures exists i ::
              && IsLastWithTask(p.visits, task, i)
              && DueFor(p, task, interval, now, parse, format) ==
                 (if parse(p.visits[i].rawDate).None? then None
                  else Some(format(parse(p.visits[i].rawDate).value + interval)))
  {
    var best := BestIndex(p.visits, task, |p.visits|);
    assert best.Some? by {
      BestIndexSpec(p.visits, task, |p.visits|);
    }
    var i := best.value;
    assert IsLastWithTask(p.visits, task, i) by {
      BestIndexSpec(p.visits, task, |p.visits|);
    }
    assert DueFor(p, task, interval, now, parse, format) ==
      (if parse(p.visits[i].rawDate).None? then None else Some(format(parse(p.visits[i].rawDate).value + interval)));
  }

  /** `DatabasePatient.ToResponse`: copies the fields, converts each visit,
      and gives `Due` one entry per task of the interval table.  It fails
      when the date of a last visit with some task does not parse. */
  method ToResponse(p: DatabasePatient, intervals: map<string, int>, now: int, parse: string -> Option<int>,
                    format: int -> string) returns (r: Result<ResponsePatient, string>)
    ensures r.Err? <==> exists t :: t in intervals && DueFor(p, t, intervals[t], now, parse, format).None?
    ensures r.Ok? ==>
      && r.value.kind == "patient" && r.value.id == p.id && r.value.name == p.name && r.value.sex == p.rawSex
      && r.value.species == p.species && r.value.breed == p.breed && r.value.description == p.description
      && r.value.active == p.active && r.value.note == p.note && r.value.dirty == []
      && |r.value.visits| == |p.visits|
      && (forall i :: 0 <= i < |p.visits| ==> r.value.visits[i] == VisitResponse(p.visits[i]))
      && r.value.due.Keys == intervals.Keys
      && forall t :: t in intervals ==> Some(r.value.due[t]) == DueFor(p, t, intervals[t], now, parse, format)
  {
    var visits: seq<ResponseVisit> := [];
    var i := 0;
    while i < |p.visits|
      invariant 0 <= i <= |p.visits|
      invariant |visits| == i && forall j :: 0 <= j < i ==> visits[j] == VisitResponse(p.visits[j])
    {
      var visitResponse := GoVisit.ToResponse(p.visits[i]);
      visits := visits + [visitResponse];
      i := i + 1;
    }
    var due: map<string, string> := map[];
    var todo := intervals.Keys;
    while todo != {}
      invariant todo <= intervals.Keys
      invariant due.Keys == intervals.Keys - todo
      invariant forall t :: t in due ==> Some(due[t]) == DueFor(p, t, intervals[t], now, parse, format)
      decreases todo
    {
      var taskName :| taskName in todo;
      var lastVisit := LastVisitWithTask(p, taskName);
      if lastVisit.None? {
        due := due[taskName := format(now)];
      } else {
        var dueDate := parse(lastVisit.value.rawDate);
        if dueDate.None? {
          return Err("date does not parse");
        }
        due := due[taskName := format(dueDate.value + intervals[taskName])];
      }
      todo := todo - {taskName};
    }
    r := Ok(ResponsePatient("patient", p.id, p.name, p.rawSex, p.species, p.breed, p.description, p.active,
                            visits, p.note, due, []));
  }
}
