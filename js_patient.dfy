/** Patients in the JavaScript generation of the browser client: a record
    with a dirty flag, setters routed through `setAttr`, a two-character sex
    code that may start out empty, a list of events, and (de)serialisation.
    Dates are instants; `format` stands for `toISOString` and `parse` for
    `new Date(text)`. */
module JsPatient {
  import opened Common

  /** `Event` */
  datatype Event = Event(kind: string, date: int, note: string)

  /** The plain object `Event.serialize` produces. */
  datatype EventData = EventData(kind: string, date: string, note: string)

  /** `Event.serialize` */
  function SerializeEvent(ev: Event, format: int -> string): (r: EventData)
    ensures r.kind == ev.kind && r.note == ev.note
  {
    EventData(ev.kind, format(ev.date), ev.note)
  }

  /** `Event.deserialize` */
  function DeserializeEvent(data: EventData, parse: string -> int): (r: Event)
    ensures r.kind == data.kind && r.note == data.note
  {
    Event(data.kind, parse(data.date), data.note)
  }

  /** An event survives serialisation whenever parsing undoes formatting. */
  lemma EventRoundTrip(ev: Event, format: int -> string, parse: string -> int)
    ensures DeserializeEvent(SerializeEvent(ev, format), parse) == ev.(date := parse(format(ev.date)))
    ensures parse(format(ev.date)) == ev.date ==> DeserializeEvent(SerializeEvent(ev, format), parse) == ev
  {
  }

  /** The constructor's options; `None` is a missing property. */
  datatype PatientOptions = PatientOptions(name: Option<string>, sex: Option<string>, species: Option<string>,
                                           breed: Option<string>, description: Option<string>,
                                           note: Option<string>, active: Option<bool>)

  /** The plain object `serialize` produces and `deserialize` reads; the id
      is serialised under the key `id`. */
  datatype PatientData = PatientData(kind: string, id: Option<string>, name: Option<string>, sex: Option<string>,
                                     species: Option<string>, breed: Option<string>,
                                     description: Option<string>, note: Option<string>, active: Option<bool>,
                                     events: seq<EventData>)

  /** A snapshot of a patient's fields. */
  datatype PatientState = PatientState(id: Option<string>, name: string, sex: string, species: string,
                                       breed: string, description: string, note: string, active: bool,
                                       events: seq<Event>, dirty: bool)

  /** The patient the constructor builds: a missing or empty name is
      `(unnamed)`, other missing text (the sex code included) is empty,
      `active` is true only when missing, there are no events, and nothing
      is dirty. */
  function InitialPatient(id: Option<string>, o: PatientOptions): (s: PatientState)
    ensures s.id == id && !s.dirty && s.events == []
    ensures s.name == StringOr(o.name, "(unnamed)") && s.sex == StringOr(o.sex, "")
    ensures s.active == (o.active.None? || o.active.value)
  {
    PatientState(id, StringOr(o.name, "(unnamed)"), StringOr(o.sex, ""), StringOr(o.species, ""),
                 StringOr(o.breed, ""), StringOr(o.description, ""), StringOr(o.note, ""),
                 if o.active.None? then true else o.active.value, [], false)
  }

  /** The plain object `serialize` makes of a patient. */
  function PatientDataOf(s: PatientState, format: int -> string): (r: PatientData)
    ensures r.kind == "patient" && r.id == s.id && |r.events| == |s.events|
  {
    PatientData("patient", s.id, Some(s.name), Some(s.sex), Some(s.species), Some(s.breed), Some(s.description),
                Some(s.note), Some(s.active),
                seq(|s.events|, i requires 0 <= i < |s.events| => SerializeEvent(s.events[i], format)))
  }

  /** The options `deserialize` hands to the constructor. */
  function OptionsOf(data: PatientData): PatientOptions
  {
    PatientOptions(data.name, data.sex, data.species, data.breed, data.description, data.note, data.active)
  }

  /** Deserialising a serialised patient keeps id, a non-empty name and every
      other field, clears the dirty flag, and drops the events. */
  lemma PatientRoundTrip(s: PatientState, format: int -> string)
    requires s.name != ""
    ensures InitialPatient(s.id, OptionsOf(PatientDataOf(s, format))) == s.(events := [], dirty := false)
  {
  }

  /** The text `${c}` gives for the character of a code at `i`. */
  function CharText(sex: string, i: nat): (r: string)
    ensures i < |sex| ==> r == [sex[i]]
    ensures i >= |sex| ==> r == "undefined"
  {
    if i < |sex| then [sex[i]] else "undefined"
  }

  /** The attributes `setAttr` is called with. */
  datatype PatientAttr = NameAttr | BreedAttr | SpeciesAttr | DescriptionAttr | NoteAttr

  class Patient {
    var id: Option<string>
    var name: string
    var sex: string
    var species: string
    var breed: string
    var description: string
    var note: string
    var active: bool
    var events: seq<Event>
    var dirty: bool

    function State(): PatientState
      reads this
    {
      PatientState(id, name, sex, species, breed, description, note, active, events, dirty)
    }

    constructor (id: Option<string>, options: PatientOptions)
      ensures State() == InitialPatient(id, options)
    {
      this.id := id;
      name := StringOr(options.name, "(unnamed)");
      sex := StringOr(options.sex, "");
      species := StringOr(options.species, "");
      breed := StringOr(options.breed, "");
      description := StringOr(options.description, "");
      note := StringOr(options.note, "");
      active := if options.active.None? then true else options.active.value;
      events := [];
      dirty := false;
    }

    /** `setAttr` for the text attributes: marks the patient dirty and
        stores the value. */
    method SetAttr(key: PatientAttr, val: string)
      modifies this
      ensures key == NameAttr ==> State() == old(State()).(name := val, dirty := true)
      ensures key == BreedAttr ==> State() == old(State()).(breed := val, dirty := true)
      ensures key == SpeciesAttr ==> State() == old(State()).(species := val, dirty := true)
      ensures key == DescriptionAttr ==> State() == old(State()).(description := val, dirty := true)
      ensures key == NoteAttr ==> State() == old(State()).(note := val, dirty := true)
    {
      dirty := true;
      match key
      case NameAttr => name := val;
      case BreedAttr => breed := val;
      case SpeciesAttr => species := val;
      case DescriptionAttr => description := val;
      case NoteAttr => note := val;
    }

    /** `set name` */
    method SetName(val: string)
      modifies this
      ensures State() == old(State()).(name := val, dirty := true)
    {
      SetAttr(NameAttr, val);
    }

    /** `set breed` */
    method SetBreed(val: string)
      modifies this
      ensures State() == old(State()).(breed := val, dirty := true)
    {
      SetAttr(BreedAttr, val);
    }

    /** `set species` */
    method SetSpecies(val: string)
      modifies this
      ensures State() == old(State()).(species := val, dirty := true)
    {
      SetAttr(SpeciesAttr, val);
    }

    /** `set description` */
    method SetDescription(val: string)
      modifies this
      ensures State() == old(State()).(description := val, dirty := true)
    {
      SetAttr(DescriptionAttr, val);
    }

    /** `set note` */
    method SetNote(val: string)
      modifies this
      ensures State() == old(State()).(note := val, dirty := true)
    {
      SetAttr(NoteAttr, val);
    }

    /** `set active`, through `setAttr('_active', val)`. */
    method SetActive(val: bool)
      modifies this
      ensures State() == old(State()).(active := val, dirty := true)
    {
      dirty := true;
      active := val;
    }

    /** `get sex`: the first character, undefined for an empty code. */
    function Sex(): (r: Option<char>)
      reads this
      ensures r.Some? <==> sex != ""
    {
      if sex == "" then None else Some(sex[0])
    }

    /** `get intact`: the second character of the code is `+`. */
    predicate Intact()
      reads this
    {
      |sex| >= 2 && sex[1] == '+'
    }

    /** `set sex`: throws on anything but `f`, `m` and `i`, changing
        nothing; otherwise replaces the first character and marks the
        patient dirty, keeping intactness. */
    method SetSex(val: string) returns (err: Option<string>)
      modifies this
      ensures err.Some? <==> !(val == "f" || val == "m" || val == "i")
      ensures err.Some? ==> State() == old(State())
      ensures err.None? ==> State() == old(State()).(sex := val + CharText(old(sex), 1), dirty := true)
      ensures err.None? ==> Sex() == Some(val[0]) && (Intact() <==> old(Intact()))
    {
      if !(val == "f" || val == "m" || val == "i") {
        return Some("Invalid sex string: " + val);
      }
      dirty := true;
      sex := val + CharText(sex, 1);
      err := None;
    }

    /** `set intact`: the code becomes its first character followed by `+`
        or `-`, and the patient is dirty.  On an empty code the first
        character reads as `undefined`, so the patient then reads as not
        intact whatever was set. */
    method SetIntact(val: bool)
      modifies this
      ensures State() == old(State()).(sex := CharText(old(sex), 0) + (if val then "+" else "-"), dirty := true)
      ensures old(sex) != "" ==> Intact() == val && Sex() == old(Sex())
      ensures old(sex) == "" ==> !Intact()
    {
      dirty := true;
      sex := CharText(sex, 0) + (if val then "+" else "-");
    }

    /** `serialize` */
    function Serialize(format: int -> string): (r: PatientData)
      reads this
      ensures r.kind == "patient" && r.id == id
    {
      PatientDataOf(State(), format)
    }

    /** `Patient.deserialize`: rejects a type other than `patient`. */
    static method Deserialize(data: PatientData) returns (r: Result<Patient, string>)
      ensures r.Err? <==> data.kind != "patient"
      ensures r.Ok? ==> fresh(r.value) && r.value.State() == InitialPatient(data.id, OptionsOf(data))
    {
      if data.kind != "patient" {
        return Err("Not a client instance: " + data.kind);
      }
      var patient := new Patient(data.id, OptionsOf(data));
      r := Ok(patient);
    }
  }
}
