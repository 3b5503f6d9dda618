/** Patients in the TypeScript client: a mutable record whose setters note
    the changed field names in a dirty set, the two-character sex code, the
    visit that decides a task's due date, the due dates of the periodic
    tasks and their grouping by date, and (de)serialisation.  Dates are
    instants; `addSixMonths` stands for moment's `add(6, 'months')`, `now`
    for `moment()`, `format` for `toISOString` and `parse` for
    `moment(text)`. */
module TsPatient {
  import opened Common
  import opened Sorting
  import opened TsVisit

  /** `TaskIntervals.tasks`, in order. */
  const TaskNames: seq<string> := ["heartworm", "exam"]

  /** `TaskIntervals.task`: both tasks fall due six months after the last
      visit that performed them; other names have no interval. */
  function TaskInterval(taskName: string, lastVisit: int, addSixMonths: int -> int): (r: Option<int>)
    ensures r.Some? <==> taskName in TaskNames
    ensures r.Some? ==> r.value == addSixMonths(lastVisit)
  {
    if taskName == "heartworm" then Some(addSixMonths(lastVisit))
    else if taskName == "exam" then Some(addSixMonths(lastVisit))
    else None
  }

  /** The constructor's options; `None` is a missing property. */
  datatype PatientOptions = PatientOptions(rev: Option<string>, name: Option<string>, sex: Option<string>,
                                           species: Option<string>, breed: Option<string>,
                                           description: Option<string>, note: Option<string>,
                                           active: Option<bool>, visits: Option<seq<VisitState>>)

  /** A snapshot of a patient's fields; `sex` is the two-character code. */
  datatype PatientState = PatientState(id: Option<string>, rev: Option<string>, name: string, sex: string,
                                       species: string, breed: string, description: string, note: string,
                                       active: bool, visits: seq<VisitState>, due: map<string, int>,
                                       dirty: set<string>)

  /** `SerializedPatient` */
  datatype SerializedPatient = SerializedPatient(kind: string, id: Option<string>, rev: Option<string>,
                                                 name: Option<string>, sex: Option<string>,
                                                 species: Option<string>, breed: Option<string>,
                                                 description: Option<string>, note: Option<string>,
                                                 active: Option<bool>, visits: seq<VisitData>,
                                                 due: map<string, string>)

  /** The index of the visit `lastVisitWithTask` returns, among the first
      `n`: it keeps the visits with that task, sorts them ascending by date
      with a stable sort and takes the first, which is the first visit of
      least date. */
  function EarliestWithTask(visits: seq<VisitState>, task: string, n: nat): (r: Option<nat>)
    requires n <= |visits|
    ensures r.None? <==> forall j :: 0 <= j < n ==> task !in visits[j].tasks
    ensures r.Some? ==> r.value < n && task in visits[r.value].tasks
    ensures r.Some? ==> forall j :: 0 <= j < n && task in visits[j].tasks ==> visits[r.value].date <= visits[j].date
    ensures r.Some? ==> forall j :: 0 <= j < r.value && task in visits[j].tasks ==> visits[j].date > visits[r.value].date
  {
    if n == 0 then None
    else
      var best := EarliestWithTask(visits, task, n - 1);
      if task in visits[n - 1].tasks && (best.None? || visits[n - 1].date < visits[best.value].date)
      then Some(n - 1) else best
  }

  /** The index of the first visit of greatest date with that task, among the
      first `n`. */
  function LatestWithTask(visits: seq<VisitState>, task: string, n: nat): (r: Option<nat>)
    requires n <= |visits|
    ensures r.None? <==> forall j :: 0 <= j < n ==> task !in visits[j].tasks
    ensures r.Some? ==> r.value < n && task in visits[r.value].tasks
    ensures r.Some? ==> forall j :: 0 <= j < n && task in visits[j].tasks ==> visits[j].date <= visits[r.value].date
    ensures r.Some? ==> forall j :: 0 <= j < r.value && task in visits[j].tasks ==> visits[j].date < visits[r.value].date
  {
    if n == 0 then None
    else
      var best := LatestWithTask(visits, task, n - 1);
      if task in visits[n - 1].tasks && (best.None? || visits[n - 1].date > visits[best.value].date)
      then Some(n - 1) else best
  }

  /** `lastVisitWithTask`, as written: null iff no visit lists that task,
      otherwise the EARLIEST visit that does, because the comparator sorts
      ascending. */
  function LastVisitWithTask(visits: seq<VisitState>, task: string): (r: Option<VisitState>)
    ensures r.None? <==> forall j :: 0 <= j < |visits| ==> task !in visits[j].tasks
    ensures r.Some? ==> r.value in visits && task in r.value.tasks
    ensures r.Some? ==> forall v :: v in visits && task in v.tasks ==> r.value.date <= v.date
  {
    var i := EarliestWithTask(visits, task, |visits|);
    if i.None? then None else Some(visits[i.value])
  }

  /** Two visits with that task, a month apart: `lastVisitWithTask` returns
      the older one. */
  lemma LastVisitWithTaskIsEarliest(older: VisitState, newer: VisitState)
    requires older.date < newer.date && "exam" in older.tasks && "exam" in newer.tasks
    ensures LastVisitWithTask([older, newer], "exam") == Some(older)
    ensures LastVisitWithTask([newer, older], "exam") == Some(older)
  {
  }

  /** `lastVisitWithTask` as its comment intends: null iff no visit lists the
      task, otherwise the most recent visit that does (the first of them on
      a tie). */
  function MostRecentVisitWithTask(visits: seq<VisitState>, task: string): (r: Option<VisitState>)
    ensures r.None? <==> forall j :: 0 <= j < |visits| ==> task !in visits[j].tasks
    ensures r.Some? ==> r.value in visits && task in r.value.tasks
    ensures r.Some? ==> forall v :: v in visits && task in v.tasks ==> v.date <= r.value.date
  {
    var i := LatestWithTask(visits, task, |visits|);
    if i.None? then None else Some(visits[i.value])
  }

  /** The due date of one task: now when no visit performed it, otherwise
      six months after the most recent visit that did. */
  function DueOf(visits: seq<VisitState>, task: string, now: int, addSixMonths: int -> int): (r: int)
    requires task in TaskNames
    ensures (forall j :: 0 <= j < |visits| ==> task !in visits[j].tasks) ==> r == now
    ensures (exists j :: 0 <= j < |visits| && task in visits[j].tasks) ==>
      exists v :: v in visits && task in v.tasks && r == addSixMonths(v.date)
                  && forall w :: w in visits && task in w.tasks ==> w.date <= v.date
  {
    var lastVisit := MostRecentVisitWithTask(visits, task);
    if lastVisit.None? then now else TaskInterval(task, lastVisit.value.date, addSixMonths).value
  }

  /** The due date of one task as `refreshDueDates` computes it with
      `lastVisitWithTask` as written: now when no visit performed it,
      otherwise six months after the EARLIEST visit that did. */
  function DueOfAsWritten(visits: seq<VisitState>, task: string, now: int, addSixMonths: int -> int): (r: int)
    requires task in TaskNames
    ensures (forall j :: 0 <= j < |visits| ==> task !in visits[j].tasks) ==> r == now
    ensures (exists j :: 0 <= j < |visits| && task in visits[j].tasks) ==>
      exists v :: v in visits && task in v.tasks && r == addSixMonths(v.date)
                  && forall w :: w in visits && task in w.tasks ==> v.date <= w.date
  {
    var lastVisit := LastVisitWithTask(visits, task);
    if lastVisit.None? then now else TaskInterval(task, lastVisit.value.date, addSixMonths).value
  }

  /** Exams in January and in July: as written the next exam falls due six
      months after January, as intended six months after July. */
  lemma DueFollowsEarliestExam(january: VisitState, july: VisitState, now: int, addSixMonths: int -> int)
    requires january.date < july.date && "exam" in january.tasks && "exam" in july.tasks
    ensures DueOfAsWritten([january, july], "exam", now, addSixMonths) == addSixMonths(january.date)
    ensures DueOf([january, july], "exam", now, addSixMonths) == addSixMonths(july.date)
  {
    LastVisitWithTaskIsEarliest(january, july);
  }

  /** The due dates `refreshDueDates` computes: one per periodic task. */
  function DueDates(visits: seq<VisitState>, now: int, addSixMonths: int -> int): (r: map<string, int>)
    ensures r.Keys == {"heartworm", "exam"}
  {
    map t | t in {"heartworm", "exam"} :: DueOf(visits, t, now, addSixMonths)
  }

  /** `refreshDueDates`' loop: for each periodic task, now when no visit
      performed it, otherwise its interval after the most recent visit that
      did. */
  method DueDatesOf(visits: seq<VisitState>, now: int, addSixMonths: int -> int) returns (dueDates: map<string, int>)
    ensures dueDates == DueDates(visits, now, addSixMonths)
  {
    dueDates := map[];
    for i := 0 to |TaskNames|
      invariant dueDates.Keys == set j | 0 <= j < i :: TaskNames[j]
      invariant forall t :: t in dueDates ==> t in TaskNames && dueDates[t] == DueOf(visits, t, now, addSixMonths)
    {
      var taskName := TaskNames[i];
      var lastVisit := MostRecentVisitWithTask(visits, taskName);
      if lastVisit.None? {
        dueDates := dueDates[taskName := now];
      } else {
        dueDates := dueDates[taskName := TaskInterval(taskName, lastVisit.value.date, addSixMonths).value];
      }
    }
    assert (set j | 0 <= j < 2 :: TaskNames[j]) == {"heartworm", "exam"} by {
      assert TaskNames[0] == "heartworm" && TaskNames[1] == "exam";
    }
    assert dueDates.Keys == DueDates(visits, now, addSixMonths).Keys;
  }

  /** The patient the constructor builds from `options`: a missing or empty
      name is `(unnamed)`, a missing or empty sex `?+`, other missing text
      empty, a missing active flag false, due dates computed, nothing
      dirty. */
  function InitialState(id: Option<string>, o: PatientOptions, now: int, addSixMonths: int -> int): (s: PatientState)
    ensures s.id == id && s.rev == o.rev && s.dirty == {} && s.sex != ""
    ensures s.name == StringOr(o.name, "(unnamed)") && s.sex == StringOr(o.sex, "?+")
    ensures s.active == (o.active.Some? && o.active.value)
    ensures s.due.Keys == {"heartworm", "exam"}
  {
    var visits := if o.visits.Some? then o.visits.value else [];
    PatientState(id, o.rev, StringOr(o.name, "(unnamed)"), StringOr(o.sex, "?+"), StringOr(o.species, ""),
                 StringOr(o.breed, ""), StringOr(o.description, ""), StringOr(o.note, ""),
                 o.active.Some? && o.active.value, visits, DueDates(visits, now, addSixMonths), {})
  }

  /** The plain object `serialize` makes of a patient. */
  function SerializedOf(s: PatientState, format: int -> string): (r: SerializedPatient)
    ensures r.kind == "patient" && r.id == s.id && |r.visits| == |s.visits|
    ensures r.due.Keys == s.due.Keys
  {
    SerializedPatient("patient", s.id, s.rev, Some(s.name), Some(s.sex), Some(s.species), Some(s.breed),
                      Some(s.description), Some(s.note), Some(s.active),
                      seq(|s.visits|, i requires 0 <= i < |s.visits| => SerializeState(s.visits[i], format)),
                      map t | t in s.due :: format(s.due[t]))
  }

  /** The dirty set is not part of what `serialize` writes. */
  lemma SerializedIgnoresDirty(s: PatientState, format: int -> string)
    ensures SerializedOf(s.(dirty := {}), format) == SerializedOf(s, format)
  {
  }

  /** The options `deserialize` hands to the constructor. */
  function OptionsOf(data: SerializedPatient, parse: string -> int): (o: PatientOptions)
    ensures o.visits.Some? && |o.visits.value| == |data.visits|
  {
    PatientOptions(data.rev, data.name, data.sex, data.species, data.breed, data.description, data.note,
                   data.active,
                   Some(seq(|data.visits|, i requires 0 <= i < |data.visits| => FromData(data.visits[i], parse))))
  }

  /** Deserialising a serialised patient keeps id, revision, a non-empty
      name, the sex code and the other fields, deserialises each visit,
      recomputes the due dates and leaves nothing dirty. */
  lemma PatientRoundTrip(s: PatientState, format: int -> string, parse: string -> int, now: int,
                         addSixMonths: int -> int)
    requires s.name != "" && s.sex != ""
    ensures var t := InitialState(s.id, OptionsOf(SerializedOf(s, format), parse), now, addSixMonths);
      && t.id == s.id && t.rev == s.rev && t.name == s.name && t.sex == s.sex && t.species == s.species
      && t.breed == s.breed && t.description == s.description && t.note == s.note && t.active == s.active
      && t.dirty == {} && !(t.dirty != {})
      && |t.visits| == |s.visits|
      && (forall i :: 0 <= i < |s.visits| ==> t.visits[i] == FromData(SerializeState(s.visits[i], format), parse))
  {
  }

  /** An empty name becomes `(unnamed)` when read back. */
  lemma UnnamedRoundTrip(s: PatientState, format: int -> string, parse: string -> int, now: int,
                         addSixMonths: int -> int)
    requires s.name == ""
    ensures InitialState(s.id, OptionsOf(SerializedOf(s, format), parse), now, addSixMonths).name == "(unnamed)"
  {
  }

  /** The text `${c}` gives for the second character of a sex code. */
  function SecondChar(sex: string): (r: string)
    ensures |sex| >= 2 ==> r == [sex[1]]
    ensures |sex| < 2 ==> r == "undefined"
  {
    if |sex| >= 2 then [sex[1]] else "undefined"
  }

  /** A due-date group: an instant and its tasks due then. */
  type DueGroup = (int, seq<string>)

  /** No two groups share a date. */
  predicate DistinctDates(groups: seq<DueGroup>)
  {
    forall k, l :: 0 <= k < l < |groups| ==> groups[k].0 != groups[l].0
  }

  /** `groups` gathers exactly every task of `order` by their due date. */
  predicate Groups(groups: seq<DueGroup>, order: seq<string>, due: map<string, int>)
  {
    && DistinctDates(groups)
    && (forall k :: 0 <= k < |groups| ==> groups[k].1 != [])
    && (forall k, t :: 0 <= k < |groups| && t in groups[k].1 ==> t in order && t in due && due[t] == groups[k].0)
    && (forall t :: t in order ==> t in due && exists k :: 0 <= k < |groups| && groups[k].0 == due[t] && t in groups[k].1)
  }

  /** The group of `date`, if there is one. */
  function FindGroup(groups: seq<DueGroup>, date: int): (r: Option<nat>)
    ensures r.None? <==> forall k :: 0 <= k < |groups| ==> groups[k].0 != date
    ensures r.Some? ==> r.value < |groups| && groups[r.value].0 == date
  {
    if groups == [] then None
    else if groups[|groups| - 1].0 == date then Some(|groups| - 1)
    else FindGroup(groups[..|groups| - 1], date)
  }

  /** One round of the first loop of `dueByDate`: files `name` under its due
      date, opening a group for a date not seen before. */
  method AddToGroup(groups: seq<DueGroup>, name: string, ghost done: seq<string>, due: map<string, int>)
    returns (r: seq<DueGroup>)
    requires name in due && Groups(groups, done, due)
    ensures Groups(r, done + [name], due)
  {
    var k := FindGroup(groups, due[name]);
    if k.None? {
      r := groups + [(due[name], [name])];
      assert r[|groups|].0 == due[name] && name in r[|groups|].1;
    } else {
      r := groups[k.value := (due[name], groups[k.value].1 + [name])];
      assert name in r[k.value].1;
    }
    forall t | t in done
      ensures exists l :: 0 <= l < |r| && r[l].0 == due[t] && t in r[l].1
    {
      var l :| 0 <= l < |groups| && groups[l].0 == due[t] && t in groups[l].1;
      assert r[l].0 == due[t] && t in r[l].1;
    }
  }

  /** The first loop of `dueByDate`: gathers every task of `order` into one
      group per due date, in first-seen order. */
  method GroupByDate(order: seq<string>, due: map<string, int>) returns (groups: seq<DueGroup>)
    requires forall t :: t in order ==> t in due
    ensures Groups(groups, order, due)
  {
    groups := [];
    for i := 0 to |order|
      invariant Groups(groups, order[..i], due)
    {
      assert order[..i + 1] == order[..i] + [order[i]];
      groups := AddToGroup(groups, order[i], order[..i], due);
    }
    assert order[..|order|] == order;
  }

  /** A list with no repeated element holds each value at most once. */
  lemma {:induction false} DistinctCount<T>(s: seq<T>, x: T)
    requires Distinct(s)
    ensures multiset(s)[x] <= 1
    decreases |s|
  {
    if s != [] {
      assert s == [s[0]] + s[1..];
      assert Distinct(s[1..]);
      DistinctCount(s[1..], x);
      if x == s[0] {
        assert x !in s[1..];
      }
    }
  }

  /** A value at two positions is counted twice. */
  lemma CountTwice<T>(s: seq<T>, i: int, j: int)
    requires 0 <= i < j < |s| && s[i] == s[j]
    ensures multiset(s)[s[i]] >= 2
  {
    assert s == s[..i] + [s[i]] + s[i + 1..j] + [s[j]] + s[j + 1..];
  }

  /** Reordering groups keeps their dates distinct. */
  lemma PermutationKeepsDistinctDates(a: seq<DueGroup>, b: seq<DueGroup>)
    requires multiset(a) == multiset(b) && DistinctDates(a)
    ensures DistinctDates(b)
  {
    assert Distinct(a);
    forall k, l | 0 <= k < l < |b|
      ensures b[k].0 != b[l].0
    {
      if b[k] == b[l] {
        CountTwice(b, k, l);
        DistinctCount(a, b[k]);
      } else {
        assert b[k] in multiset(a) && b[l] in multiset(a);
        var k' :| 0 <= k' < |a| && a[k'] == b[k];
        var l' :| 0 <= l' < |a| && a[l'] == b[l];
        assert k' != l';
      }
    }
  }

  /** Reordering groups keeps them a grouping of the same tasks. */
  lemma PermutationKeepsGroups(a: seq<DueGroup>, b: seq<DueGroup>, order: seq<string>, due: map<string, int>)
    requires multiset(a) == multiset(b) && Groups(a, order, due)
    ensures Groups(b, order, due)
  {
    PermutationKeepsDistinctDates(a, b);
    forall k | 0 <= k < |b|
      ensures b[k] in a
    {
      assert b[k] in multiset(a);
    }
    forall t | t in order
      ensures exists k :: 0 <= k < |b| && b[k].0 == due[t] && t in b[k].1
    {
      var k :| 0 <= k < |a| && a[k].0 == due[t] && t in a[k].1;
      assert a[k] in multiset(b);
      var l :| 0 <= l < |b| && b[l] == a[k];
    }
  }

  /** Ordering by the date of a group, `a[0].unix() - b[0].unix()`. */
  predicate EarlierGroup(a: DueGroup, b: DueGroup)
  {
    a.0 < b.0
  }

  lemma EarlierGroupIsStrictWeakOrder()
    ensures StrictWeakOrder(EarlierGroup)
  {
  }

  /** Sorting groups with distinct dates by date leaves them in strictly
      ascending order, grouped as before. */
  method SortGroups(groups: seq<DueGroup>, ghost order: seq<string>, ghost due: map<string, int>)
    returns (sorted: seq<DueGroup>)
    requires Groups(groups, order, due)
    ensures Groups(sorted, order, due)
    ensures forall k, l :: 0 <= k < l < |sorted| ==> sorted[k].0 < sorted[l].0
  {
    var a := new DueGroup[|groups|](i requires 0 <= i < |groups| => groups[i]);
    assert a[..] == groups;
    EarlierGroupIsStrictWeakOrder();
    SortBy(a, EarlierGroup);
    sorted := a[..];
    PermutationKeepsGroups(groups, sorted, order, due);
  }

  class Patient {
    var id: Option<string>
    var rev: Option<string>
    var name: string
    var sex: string
    var species: string
    var breed: string
    var description: string
    var note: string
    var active: bool
    var due: map<string, int>
    var visits: seq<VisitState>
    var dirty: set<string>

    /** The sex code is never empty and every periodic task has a due
        date. */
    ghost predicate Valid()
      reads this
    {
      |sex| >= 1 && due.Keys == {"heartworm", "exam"}
    }

    function State(): PatientState
      reads this
    {
      PatientState(id, rev, name, sex, species, breed, description, note, active, visits, due, dirty)
    }

    /** The constructor, which computes the due dates from the visits. */
    constructor (id: Option<string>, options: PatientOptions, now: int, addSixMonths: int -> int)
      ensures Valid()
      ensures State() == InitialState(id, options, now, addSixMonths)
    {
      this.id := id;
      rev := options.rev;
      name := StringOr(options.name, "(unnamed)");
      sex := StringOr(options.sex, "?+");
      species := StringOr(options.species, "");
      breed := StringOr(options.breed, "");
      description := StringOr(options.description, "");
      note := StringOr(options.note, "");
      active := options.active.Some? && options.active.value;
      due := map[];
      visits := if options.visits.Some? then options.visits.value else [];
      dirty := {};
      new;
      RefreshDueDates(now, addSixMonths);
    }

    /** `isDirty` */
    predicate IsDirty()
      reads this
    {
      dirty != {}
    }

    /** `set name` */
    method SetName(val: string)
      modifies this
      ensures State() == old(State()).(name := val, dirty := old(dirty) + {"name"})
    {
      dirty := dirty + {"name"};
      name := val;
    }

    /** `set breed` */
    method SetBreed(val: string)
      modifies this
      ensures State() == old(State()).(breed := val, dirty := old(dirty) + {"breed"})
    {
      dirty := dirty + {"breed"};
      breed := val;
    }

    /** `set species` */
    method SetSpecies(val: string)
      modifies this
      ensures State() == old(State()).(species := val, dirty := old(dirty) + {"species"})
    {
      dirty := dirty + {"species"};
      species := val;
    }

    /** `set description` */
    method SetDescription(val: string)
      modifies this
      ensures State() == old(State()).(description := val, dirty := old(dirty) + {"description"})
    {
      dirty := dirty + {"description"};
      description := val;
    }

    /** `set note` */
    method SetNote(val: string)
      modifies this
      ensures State() == old(State()).(note := val, dirty := old(dirty) + {"note"})
    {
      dirty := dirty + {"note"};
      note := val;
    }

    /** `set active` */
    method SetActive(val: bool)
      modifies this
      ensures State() == old(State()).(active := val, dirty := old(dirty) + {"active"})
    {
      dirty := dirty + {"active"};
      active := val;
    }

    /** `get sex`: the first character of the code. */
    function Sex(): char
      reads this
      requires Valid()
    {
      sex[0]
    }

    /** `get intact`: the second character of the code is `+`. */
    predicate Intact()
      reads this
    {
      |sex| >= 2 && sex[1] == '+'
    }

    /** `set sex`: throws on anything but `f`, `m` and `?`, changing
        nothing; otherwise replaces the first character of the code, keeps
        intactness and marks `sex`. */
    method SetSex(val: string) returns (err: Option<string>)
      requires Valid()
      modifies this
      ensures Valid()
      ensures err.Some? <==> !(val == "f" || val == "m" || val == "?")
      ensures err.Some? ==> State() == old(State())
      ensures err.None? ==> State() == old(State()).(sex := val + SecondChar(old(sex)), dirty := old(dirty) + {"sex"})
      ensures err.None? ==> Sex() == val[0] && (Intact() <==> old(Intact()))
    {
      if !(val == "f" || val == "m" || val == "?") {
        return Some("Invalid sex string: " + val);
      }
      dirty := dirty + {"sex"};
      sex := val + SecondChar(sex);
      err := None;
    }

    /** `set intact`: the second character becomes `+` or `-`, the first is
        kept, and `sex` is marked. */
    method SetIntact(val: bool)
      requires Valid()
      modifies this
      ensures Valid()
      ensures State() == old(State()).(sex := [old(sex)[0]] + (if val then "+" else "-"), dirty := old(dirty) + {"sex"})
      ensures Intact() == val && Sex() == old(Sex())
    {
      dirty := dirty + {"sex"};
      sex := [sex[0]] + (if val then "+" else "-");
    }

    /** `clearDirty` */
    method ClearDirty()
      modifies this
      ensures State() == old(State()).(dirty := {}) && !IsDirty()
    {
      dirty := {};
    }

    /** `refreshDueDates`: each periodic task falls due now when no visit
        performed it and six months after the most recent one that did. */
    method RefreshDueDates(now: int, addSixMonths: int -> int)
      modifies this
      ensures State() == old(State()).(due := DueDates(visits, now, addSixMonths))
      ensures |old(sex)| >= 1 ==> Valid()
    {
      var dueDates := DueDatesOf(visits, now, addSixMonths);
      due := dueDates;
    }

    /** `dueByDate`: one group per distinct due date, holding every task due
        then, in ascending order of date. */
    method DueByDate() returns (groups: seq<DueGroup>)
      requires Valid()
      ensures Groups(groups, TaskNames, due)
      ensures forall k, l :: 0 <= k < l < |groups| ==> groups[k].0 < groups[l].0
    {
      var byDate := GroupByDate(TaskNames, due);
      groups := SortGroups(byDate, TaskNames, due);
    }

    /** `serialize`: refreshes the due dates, then emits every field. */
    method Serialize(now: int, addSixMonths: int -> int, format: int -> string) returns (r: SerializedPatient)
      requires Valid()
      modifies this
      ensures Valid()
      ensures State() == old(State()).(due := DueDates(visits, now, addSixMonths))
      ensures r == SerializedOf(State(), format)
    {
      RefreshDueDates(now, addSixMonths);
      r := SerializedOf(State(), format);
    }

    /** `deserialize`: rejects a type other than `patient`; otherwise
        deserialises the visits and constructs the patient. */
    static method Deserialize(data: SerializedPatient, parse: string -> int, now: int, addSixMonths: int -> int)
      returns (r: Result<Patient, string>)
      ensures r.Err? <==> data.kind != "patient"
      ensures r.Ok? ==> fresh(r.value) && r.value.Valid()
      ensures r.Ok? ==> r.value.State() == InitialState(data.id, OptionsOf(data, parse), now, addSixMonths)
    {
      if data.kind != "patient" {
        return Err("Not a patient instance: " + data.kind);
      }
      var patient := new Patient(data.id, OptionsOf(data, parse), now, addSixMonths);
      r := Ok(patient);
    }

    /** `emptyPatient`: no id, active, unnamed, sex unknown and intact. */
    static method EmptyPatient(now: int, addSixMonths: int -> int) returns (p: Patient)
      ensures fresh(p) && p.Valid()
      ensures p.id.None? && p.active && p.name == "(unnamed)" && p.sex == "?+" && p.visits == []
      ensures p.due == map["heartworm" := now, "exam" := now] && !p.IsDirty()
    {
      p := new Patient(None, PatientOptions(None, None, None, None, None, None, None, Some(true), None), now,
                       addSixMonths);
      assert p.due.Keys == {"heartworm", "exam"};
    }
  }
}
