/** The browser client's local database: clients and patients kept in two
    IndexedDB object stores, a full-text index kept by a worker that is
    driven by numbered messages, search by text or by upcoming visits,
    writes that skip clean records, and a bulk import that suspends index
    maintenance while it runs.

    The worker, the clock, date parsing and formatting, record summaries
    and generated ids are not modelled: they enter as parameters (`Env`,
    explicit ids, the worker's search hits, the upcoming-visits cursor). */
module TsDatabase {
  import opened Common
  import Text
  import Sorting
  import TsVisit
  import TsClient
  import TsPatient
  import TsSearchResults
  import Hopps

  type ClientState = TsClient.ClientState
  type PatientState = TsPatient.PatientState

  /** `DEFAULT_LIMIT`: the most hits a search returns. */
  const DefaultLimit: nat := 50

  /** A stored document: a serialised client or a serialised patient. */
  datatype Doc = ClientDoc(client: TsClient.ClientData) | PatientDoc(patient: TsPatient.SerializedPatient)

  /** The key a document is stored under: a client's id, a patient's `_id`. */
  function DocKey(d: Doc): Option<string>
  {
    match d
    case ClientDoc(c) => c.id
    case PatientDoc(p) => p.id
  }

  /** The key the stores' key path `_id` reads from a serialised document:
      a patient carries `_id`, while
      `Client.serialize` writes the client's id under `id` only, so a client
      document has none. */
  function KeyPathId(d: Doc): (r: Option<string>)
    ensures d.ClientDoc? ==> r.None?
    ensures d.PatientDoc? ==> r == DocKey(d)
  {
    match d
    case ClientDoc(_) => None
    case PatientDoc(p) => p.id
  }

  /** `put('clients', client.serialize())` as written, into the clients
      store the key path `_id` leaves empty for good: the put rejects with
      DataError and the store stays empty, whatever the client. */
  method PutClientAsWritten(c: TsClient.ClientData, fails: bool)
    returns (r: Result<seq<(string, Doc)>, string>, stored: map<string, map<string, Doc>>)
    ensures r == Err("DataError") && stored == map["clients" := map[]]
  {
    var clients := new Hopps.Hopps(map["clients" := map[]], KeyPathId);
    r := clients.Put("clients", ClientDoc(c), fails);
    stored := clients.stores;
  }

  /** A document's `type` tag. */
  function DocKind(d: Doc): string
  {
    match d
    case ClientDoc(c) => c.kind
    case PatientDoc(p) => p.kind
  }

  /** What the model takes from outside: the clock, date parsing and
      formatting, the `summarize` of clients and patients, and whether the
      transaction writing a document errors. */
  datatype Env = Env(now: int, parse: string -> int, format: int -> string, addSixMonths: int -> int,
                     summarizeClient: ClientState -> Summary, summarizePatient: PatientState -> PetSummary,
                     writeFails: Doc -> bool)

  // ---------------------------------------------------------------------
  // The `pets` index of the clients store.

  /** A client document lists the patient among its pets. */
  predicate Owns(d: Doc, petID: string)
  {
    d.ClientDoc? && d.client.pets.Some? && petID in d.client.pets.value
  }

  /** The keys of the client documents listing the patient. */
  function Owners(clients: map<string, Doc>, petID: string): set<string>
  {
    set k | k in clients && Owns(clients[k], petID)
  }

  /** `k` is the least key of `keys` in IndexedDB's string order. */
  predicate LeastIn(k: string, keys: set<string>)
  {
    k in keys && forall j :: j in keys ==> !Sorting.StrLess(j, k)
  }

  lemma {:induction false} LeastExists(keys: set<string>)
    requires keys != {}
    ensures exists k :: LeastIn(k, keys)
    decreases |keys|
  {
    var x :| x in keys;
    if keys == {x} {
      Sorting.StrLessIrreflexive(x);
      assert LeastIn(x, keys);
    } else {
      LeastExists(keys - {x});
      var m :| LeastIn(m, keys - {x});
      if Sorting.StrLess(x, m) {
        forall j | j in keys
          ensures !Sorting.StrLess(j, x)
        {
          if j == x {
            Sorting.StrLessIrreflexive(x);
          } else if Sorting.StrLess(j, x) {
            Sorting.StrLessTransitive(j, x, m);
          }
        }
        assert LeastIn(x, keys);
      } else {
        assert LeastIn(m, keys);
      }
    }
  }

  lemma LeastUnique(keys: set<string>)
    ensures forall a, b :: LeastIn(a, keys) && LeastIn(b, keys) ==> a == b
  {
    forall a, b | LeastIn(a, keys) && LeastIn(b, keys)
      ensures a == b
    {
      if a != b {
        Sorting.StrLessTotal(a, b);
      }
    }
  }

  /** The `get` of the multi-entry `pets` index: the client document with
      the least key among those listing the patient.  No other index is
      declared, so a lookup in one finds nothing. */
  function PetsIndex(indexName: string, clients: map<string, Doc>, petID: string): (r: Option<Doc>)
    ensures r.Some? <==> indexName == "pets" && Owners(clients, petID) != {}
    ensures r.Some? ==> exists k :: LeastIn(k, Owners(clients, petID)) && clients[k] == r.value
  {
    if indexName != "pets" then None
    else
      var owners := Owners(clients, petID);
      if owners == {} then None
      else
        LeastExists(owners);
        LeastUnique(owners);
        var k :| LeastIn(k, owners);
        Some(clients[k])
  }

  // ---------------------------------------------------------------------
  // Deserialising stored documents.

  /** `Client.deserialize` of a stored document. */
  function DeserializeClient(d: Doc): (r: Result<ClientState, string>)
    ensures r.Ok? <==> d.ClientDoc? && d.client.kind == "client"
    ensures r.Ok? ==> r.value.id == d.client.id && !r.value.dirty
  {
    if d.ClientDoc? && d.client.kind == "client" then
      Ok(TsClient.InitialClient(d.client.id, TsClient.OptionsOf(d.client)))
    else Err("Not a client instance: " + DocKind(d))
  }

  /** `deserialize` accepts the document as a patient. */
  predicate IsPatientDoc(d: Doc)
  {
    d.PatientDoc? && d.patient.kind == "patient"
  }

  /** `Patient.deserialize` of a stored document. */
  function DeserializePatient(d: Doc, env: Env): (r: Result<PatientState, string>)
    ensures r.Ok? <==> IsPatientDoc(d)
    ensures r.Ok? ==> r.value.id == d.patient.id && r.value.dirty == {}
  {
    if IsPatientDoc(d) then
      Ok(TsPatient.InitialState(d.patient.id, TsPatient.OptionsOf(d.patient, env.parse), env.now, env.addSixMonths))
    else Err("Not a patient instance: " + DocKind(d))
  }

  /** Deserialising every document, failing at the first that is not a
      client. */
  function DeserializeClients(docs: seq<Doc>): (r: Result<seq<ClientState>, string>)
    ensures r.Ok? <==> forall i :: 0 <= i < |docs| ==> DeserializeClient(docs[i]).Ok?
    ensures r.Ok? ==> |r.value| == |docs|
    ensures r.Ok? ==> forall i :: 0 <= i < |docs| ==> DeserializeClient(docs[i]) == Ok(r.value[i])
  {
    LoadAll(docs, d => DeserializeClient(d))
  }

  /** `Patient.deserialize` as a function value. */
  function Loader(env: Env): Doc -> Result<PatientState, string>
  {
    d => DeserializePatient(d, env)
  }

  /** Loading every document in turn, failing at the first that `load`
      rejects. */
  function LoadAll<T>(docs: seq<Doc>, load: Doc -> Result<T, string>): (r: Result<seq<T>, string>)
    ensures r.Ok? <==> forall i :: 0 <= i < |docs| ==> load(docs[i]).Ok?
    ensures r.Ok? ==> |r.value| == |docs|
    ensures r.Ok? ==> forall i :: 0 <= i < |docs| ==> load(docs[i]) == Ok(r.value[i])
  {
    if docs == [] then Ok([])
    else
      var first := load(docs[0]);
      var rest := LoadAll(docs[1..], load);
      assert forall i :: 1 <= i < |docs| ==> docs[i] == docs[1..][i - 1];
      if first.Err? then Err(first.error)
      else if rest.Err? then Err(rest.error)
      else Ok([first.value] + rest.value)
  }

  /** Deserialising every document, failing at the first that is not a
      patient. */
  function DeserializePatients(docs: seq<Doc>, env: Env): (r: Result<seq<PatientState>, string>)
    ensures r.Ok? <==> forall i :: 0 <= i < |docs| ==> DeserializePatient(docs[i], env).Ok?
    ensures r.Ok? ==> |r.value| == |docs|
    ensures r.Ok? ==> forall i :: 0 <= i < |docs| ==> DeserializePatient(docs[i], env) == Ok(r.value[i])
  {
    LoadAll(docs, Loader(env))
  }

  /** `getClients`: the clients under the given keys, in order; a missing
      key is reported as a key error. */
  function ClientsOf(stores: map<string, map<string, Doc>>, ids: seq<string>): (r: Result<seq<ClientState>, string>)
    ensures "clients" in stores && ids == [] ==> r == Ok([])
    ensures "clients" in stores && (exists i :: 0 <= i < |ids| && ids[i] !in stores["clients"]) ==> r.Err?
    ensures r.Ok? ==> "clients" in stores && |r.value| == |ids|
    ensures r.Ok? ==> forall i :: 0 <= i < |ids| ==>
                        ids[i] in stores["clients"] && DeserializeClient(stores["clients"][ids[i]]) == Ok(r.value[i])
  {
    match Hopps.GetSpec(stores, "clients", "", PetsIndex, ids)
    case Err(e) => Err("KeyError: " + e)
    case Ok(docs) =>
      assert forall i :: 0 <= i < |ids| ==> ids[i] in stores["clients"] && docs[i] == stores["clients"][ids[i]] by {
        forall i | 0 <= i < |ids|
          ensures ids[i] in stores["clients"] && docs[i] == stores["clients"][ids[i]]
        {
          assert Some(docs[i]) == Hopps.Lookup(stores, "clients", "", PetsIndex, ids[i]);
        }
      }
      DeserializeClients(docs)
  }

  /** The patients store holds a patient document under `id`. */
  predicate Fetchable(stores: map<string, map<string, Doc>>, id: string)
  {
    "patients" in stores && id in stores["patients"] && IsPatientDoc(stores["patients"][id])
  }

  /** `getPatients`: the patients under the given keys, in order; a
      missing key is reported as a key error. */
  function PatientsOf(stores: map<string, map<string, Doc>>, ids: seq<string>, env: Env)
    : (r: Result<seq<PatientState>, string>)
    ensures r.Ok? <==> "patients" in stores && forall i :: 0 <= i < |ids| ==> Fetchable(stores, ids[i])
    ensures "patients" in stores && ids == [] ==> r == Ok([])
    ensures "patients" in stores && (exists i :: 0 <= i < |ids| && ids[i] !in stores["patients"]) ==> r.Err?
    ensures r.Ok? ==> "patients" in stores && |r.value| == |ids|
    ensures r.Ok? ==> forall i :: 0 <= i < |ids| ==>
                        ids[i] in stores["patients"] && DeserializePatient(stores["patients"][ids[i]], env) == Ok(r.value[i])
  {
    match Hopps.GetSpec(stores, "patients", "", PetsIndex, ids)
    case Err(e) => Err("KeyError: " + e)
    case Ok(docs) =>
      assert forall i :: 0 <= i < |ids| ==> ids[i] in stores["patients"] && docs[i] == stores["patients"][ids[i]] by {
        forall i | 0 <= i < |ids|
          ensures ids[i] in stores["patients"] && docs[i] == stores["patients"][ids[i]]
        {
          assert Some(docs[i]) == Hopps.Lookup(stores, "patients", "", PetsIndex, ids[i]);
        }
      }
      DeserializePatients(docs, env)
  }

  /** The key each document is stored under, as `row._id` reads it. */
  function KeysOf(docs: seq<Doc>): (r: seq<string>)
    ensures |r| == |docs|
    ensures forall i :: 0 <= i < |docs| && DocKey(docs[i]).Some? ==> r[i] == DocKey(docs[i]).value
  {
    seq(|docs|, i requires 0 <= i < |docs| => if DocKey(docs[i]).Some? then DocKey(docs[i]).value else "")
  }

  /** `getOwners`: for each patient, the first client listing it through
      the `pets` index, each client once, in the order first found. */
  function OwnersOf(stores: map<string, map<string, Doc>>, patientIDs: seq<string>): Result<seq<ClientState>, string>
  {
    match Hopps.GetSpec(stores, "clients", "pets", PetsIndex, patientIDs)
    case Err(e) => Err(e)
    case Ok(docs) => ClientsOf(stores, Dedup(KeysOf(docs)))
  }

  /** A patient no client lists fails `getOwners`. */
  lemma UnownedPatientFailsOwners(stores: map<string, map<string, Doc>>, patientIDs: seq<string>, i: nat)
    requires "clients" in stores && i < |patientIDs| && Owners(stores["clients"], patientIDs[i]) == {}
    ensures OwnersOf(stores, patientIDs).Err?
  {
    assert Hopps.Lookup(stores, "clients", "pets", PetsIndex, patientIDs[i]).None?;
  }

  // ---------------------------------------------------------------------
  // Search documents.

  /** A summary field: a string, or an array of strings. */
  datatype SField = Str(s: string) | List(items: seq<string>)

  /** A client's summary, with the fields gathered from its patients. */
  type Summary = map<string, SField>

  /** A patient's summary. */
  type PetSummary = map<string, string>

  /** The search-document field a patient field is gathered into. */
  function PetField(f: string): string
  {
    "pet_" + f
  }

  /** A field name of the form `pet_f`. */
  predicate IsPetField(k: string)
  {
    |k| >= 4 && k[..4] == "pet_"
  }

  lemma PetFieldParts(f: string)
    ensures IsPetField(PetField(f)) && PetField(f)[4..] == f
  {
  }

  /** Field `k` gathers from a patient summary: `k` is `pet_f` for a
      field `f` the patient has. */
  predicate Touched(pet: PetSummary, k: string)
  {
    IsPetField(k) && k[4..] in pet
  }

  /** The values field `k` gathers from the patient summaries, in order:
      for `k == pet_f`, the value of `f` of every patient that has one. */
  function PetValues(pets: seq<PetSummary>, k: string): (r: seq<string>)
    ensures |r| <= |pets|
  {
    if pets == [] then []
    else (if Touched(pets[0], k) then [pets[0][k[4..]]] else []) + PetValues(pets[1..], k)
  }

  /** The array held under `k`, or none. */
  function Items(summary: Summary, k: string): seq<string>
  {
    if k in summary && summary[k].List? then summary[k].items else []
  }

  /** Pushing one patient's summary: each field `f` is appended to the
      array under `pet_f`, which starts out empty; a string already under
      `pet_f` cannot be pushed to. */
  function GatherPet(summary: Summary, pet: PetSummary): (r: Result<Summary, string>)
    ensures r.Err? <==> exists k :: k in summary && summary[k].Str? && Touched(pet, k)
    ensures r.Ok? ==> forall k :: k in r.value <==> k in summary || Touched(pet, k)
    ensures r.Ok? ==> forall k :: k in r.value ==>
                        r.value[k] == if Touched(pet, k) then List(Items(summary, k) + [pet[k[4..]]]) else summary[k]
  {
    TouchedKeys(pet);
    if exists f :: f in pet && PetField(f) in summary && summary[PetField(f)].Str? then
      Err("TypeError: summary[destField].push is not a function")
    else
      Ok(map k | k in summary.Keys + (set f | f in pet :: PetField(f)) ::
           if Touched(pet, k) then List(Items(summary, k) + [pet[k[4..]]]) else summary[k])
  }

  /** The keys a patient summary touches are `pet_f` for its fields. */
  lemma TouchedKeys(pet: PetSummary)
    ensures forall k :: Touched(pet, k) <==> k in (set f | f in pet :: PetField(f))
  {
    forall k | Touched(pet, k)
      ensures k in (set f | f in pet :: PetField(f))
    {
      assert k == PetField(k[4..]);
    }
    forall f | f in pet
      ensures Touched(pet, PetField(f))
    {
      PetFieldParts(f);
    }
  }

  /** Pushing every patient's summary in order. */
  function GatherAll(summary: Summary, pets: seq<PetSummary>): Result<Summary, string>
    decreases |pets|
  {
    if pets == [] then Ok(summary)
    else
      match GatherPet(summary, pets[0])
      case Err(e) => Err(e)
      case Ok(next) => GatherAll(next, pets[1..])
  }

  /** A field as the search document holds it: arrays joined by spaces. */
  function FieldText(v: SField): string
  {
    match v
    case Str(s) => s
    case List(items) => Text.Join(" ", items)
  }

  /** `updateSearchDocument`'s document: the client summary with the
      patient fields gathered in, every array then joined by spaces. */
  function SearchDocument(summary: Summary, pets: seq<PetSummary>): Result<map<string, string>, string>
  {
    match GatherAll(summary, pets)
    case Err(e) => Err(e)
    case Ok(g) => Ok(map k | k in g :: FieldText(g[k]))
  }

  /** Gathering fails exactly when a string field would gather
      something. */
  lemma {:induction false} GatherAllFails(summary: Summary, pets: seq<PetSummary>)
    ensures GatherAll(summary, pets).Err? <==>
      exists k :: k in summary && summary[k].Str? && PetValues(pets, k) != []
    decreases |pets|
  {
    if pets != [] {
      var pet := pets[0];
      if GatherPet(summary, pet).Ok? {
        var next := GatherPet(summary, pet).value;
        GatherAllFails(next, pets[1..]);
        assert forall k :: k in next && next[k].Str? <==> k in summary && summary[k].Str? && !Touched(pet, k);
      } else {
        var k :| k in summary && summary[k].Str? && Touched(pet, k);
        assert PetValues(pets, k) != [];
      }
    }
  }

  /** After gathering, a field exists when the client had it or it gathered
      something. */
  lemma {:induction false} GatherAllKeys(summary: Summary, pets: seq<PetSummary>)
    requires GatherAll(summary, pets).Ok?
    ensures forall k :: k in GatherAll(summary, pets).value <==> k in summary || PetValues(pets, k) != []
    decreases |pets|
  {
    if pets != [] {
      var next := GatherPet(summary, pets[0]).value;
      GatherAllKeys(next, pets[1..]);
    }
  }

  /** After gathering, a field holds whatever array it held followed by
      the values it gathered, in patient order. */
  lemma {:induction false} GatherAllValues(summary: Summary, pets: seq<PetSummary>, k: string)
    requires GatherAll(summary, pets).Ok?
    requires k in GatherAll(summary, pets).value
    ensures PetValues(pets, k) == [] ==> k in summary && GatherAll(summary, pets).value[k] == summary[k]
    ensures PetValues(pets, k) != [] ==>
      GatherAll(summary, pets).value[k] == List(Items(summary, k) + PetValues(pets, k))
    decreases |pets|, 1
  {
    if pets != [] {
      if Touched(pets[0], k) {
        GatherAllValuesTouched(summary, pets, k);
      } else {
        GatherAllValuesUntouched(summary, pets, k);
      }
    }
  }

  /** The step of `GatherAllValues` for a first patient that has the
      field. */
  lemma {:induction false} GatherAllValuesTouched(summary: Summary, pets: seq<PetSummary>, k: string)
    requires pets != [] && Touched(pets[0], k)
    requires GatherAll(summary, pets).Ok?
    requires k in GatherAll(summary, pets).value
    ensures GatherAll(summary, pets).value[k] == List(Items(summary, k) + PetValues(pets, k))
    decreases |pets|, 0
  {
    var pet := pets[0];
    GatherAllStep(summary, pets);
    var next := GatherPet(summary, pet).value;
    GatherAllValues(next, pets[1..], k);
    GatherPetAt(summary, pet, k);
    var rest := PetValues(pets[1..], k);
    var v := pet[k[4..]];
    assert PetValues(pets, k) == [v] + rest;
    AppendedThenGathered(GatherAll(summary, pets).value[k], next[k], Items(summary, k), v, rest);
  }

  /** A field pushed `v` and then gathered `rest` holds `v` followed by
      `rest` after what it held. */
  lemma AppendedThenGathered(g: SField, pushed: SField, items: seq<string>, v: string, rest: seq<string>)
    requires pushed == List(items + [v])
    requires rest == [] ==> g == pushed
    requires rest != [] ==> g == List(pushed.items + rest)
    ensures g == List(items + ([v] + rest))
  {
    if rest == [] {
      assert [v] + rest == [v];
    } else {
      assert items + [v] + rest == items + ([v] + rest);
    }
  }

  /** Gathering that succeeds gathers the first patient, then the rest. */
  lemma GatherAllStep(summary: Summary, pets: seq<PetSummary>)
    requires pets != [] && GatherAll(summary, pets).Ok?
    ensures GatherPet(summary, pets[0]).Ok?
    ensures GatherAll(summary, pets) == GatherAll(GatherPet(summary, pets[0]).value, pets[1..])
  {
  }

  /** The step of `GatherAllValues` for a first patient without the
      field. */
  lemma {:induction false} GatherAllValuesUntouched(summary: Summary, pets: seq<PetSummary>, k: string)
    requires pets != [] && !Touched(pets[0], k)
    requires GatherAll(summary, pets).Ok?
    requires k in GatherAll(summary, pets).value
    ensures PetValues(pets, k) == [] ==> k in summary && GatherAll(summary, pets).value[k] == summary[k]
    ensures PetValues(pets, k) != [] ==>
      GatherAll(summary, pets).value[k] == List(Items(summary, k) + PetValues(pets, k))
    decreases |pets|, 0
  {
    var pet := pets[0];
    var next := GatherPet(summary, pet).value;
    assert GatherAll(summary, pets) == GatherAll(next, pets[1..]);
    GatherAllValues(next, pets[1..], k);
    GatherPetAt(summary, pet, k);
    assert PetValues(pets, k) == PetValues(pets[1..], k);
    assert Items(next, k) == Items(summary, k);
  }

  /** One push, at one field. */
  lemma GatherPetAt(summary: Summary, pet: PetSummary, k: string)
    requires GatherPet(summary, pet).Ok?
    ensures Touched(pet, k) ==>
      k in GatherPet(summary, pet).value && GatherPet(summary, pet).value[k] == List(Items(summary, k) + [pet[k[4..]]])
    ensures !Touched(pet, k) ==> (k in GatherPet(summary, pet).value <==> k in summary)
    ensures !Touched(pet, k) && k in summary ==> GatherPet(summary, pet).value[k] == summary[k]
  {
  }

  /** The search document: each field `pet_f` holds the values of `f`
      across the patients, in order and joined by spaces, after any array
      the client summary already had under that name; the client's own
      fields are kept, arrays joined.  It fails only when a client string
      field is named like a gathered one. */
  lemma SearchDocumentSpec(summary: Summary, pets: seq<PetSummary>)
    ensures SearchDocument(summary, pets).Err? <==>
      exists k :: k in summary && summary[k].Str? && PetValues(pets, k) != []
    ensures SearchDocument(summary, pets).Ok? ==> var doc := SearchDocument(summary, pets).value;
      forall k ::
        && (k in doc <==> k in summary || PetValues(pets, k) != [])
        && (k in doc && PetValues(pets, k) == [] ==> doc[k] == FieldText(summary[k]))
        && (k in doc && PetValues(pets, k) != [] ==> doc[k] == Text.Join(" ", Items(summary, k) + PetValues(pets, k)))
  {
    GatherAllFails(summary, pets);
    if GatherAll(summary, pets).Ok? {
      GatherAllKeys(summary, pets);
      var g := GatherAll(summary, pets).value;
      forall k | k in g
        ensures PetValues(pets, k) == [] ==> k in summary && g[k] == summary[k]
        ensures PetValues(pets, k) != [] ==> g[k] == List(Items(summary, k) + PetValues(pets, k))
      {
        GatherAllValues(summary, pets, k);
      }
    }
  }

  /** A client without `pet_` fields of its own gets, for every patient
      field, exactly that field's values across its patients. */
  lemma PetFieldsJoined(summary: Summary, pets: seq<PetSummary>, f: string)
    requires forall k :: k in summary ==> !IsPetField(k)
    requires PetValues(pets, PetField(f)) != []
    ensures SearchDocument(summary, pets).Ok? && PetField(f) in SearchDocument(summary, pets).value
    ensures SearchDocument(summary, pets).value[PetField(f)] == Text.Join(" ", PetValues(pets, PetField(f)))
  {
    PetFieldParts(f);
    forall k | k in summary
      ensures PetValues(pets, k) == []
    {
      NoPetValuesOutsidePetFields(pets, k);
    }
    var k := PetField(f);
    assert k !in summary;
    SearchDocumentSpec(summary, pets);
    assert SearchDocument(summary, pets).Ok?;
    var doc := SearchDocument(summary, pets).value;
    assert k in doc && doc[k] == Text.Join(" ", Items(summary, k) + PetValues(pets, k));
    assert Items(summary, k) + PetValues(pets, k) == PetValues(pets, k);
  }

  lemma {:induction false} NoPetValuesOutsidePetFields(pets: seq<PetSummary>, k: string)
    requires !IsPetField(k)
    ensures PetValues(pets, k) == []
  {
    if pets != [] {
      NoPetValuesOutsidePetFields(pets[1..], k);
    }
  }

  // ---------------------------------------------------------------------
  // The search worker's message channel.

  /** An argument of a message to the search worker. */
  datatype Arg = QueryArg(query: string) | DocArg(doc: map<string, string>) | RecordArg(record: Option<string>)
               | UndefinedArg

  /** A message's method and the arguments after it. */
  datatype Request = Request(name: string, args: seq<Arg>)

  function UpdateRequest(doc: map<string, string>): Request
  {
    Request("update", [DocArg(doc)])
  }

  /** `persist` sends no arguments, which `[method].concat(undefined)`
      turns into one undefined argument. */
  const PersistRequest: Request := Request("persist", [UndefinedArg])

  /** The names of the messages numbered `from` onwards, by number. */
  function NamesFrom(sent: seq<Request>, from: nat): map<nat, string>
    decreases |sent| - from
  {
    if from >= |sent| then map[] else NamesFrom(sent, from + 1)[from := sent[from].name]
  }

  /** `NamesFrom` holds exactly the numbers from `from` up to the last
      message, each with that message's name. */
  lemma {:induction false} NamesFromSpec(sent: seq<Request>, from: nat)
    ensures forall i :: i in NamesFrom(sent, from) <==> from <= i < |sent|
    ensures forall i :: i in NamesFrom(sent, from) ==> NamesFrom(sent, from)[i] == sent[i].name
    decreases |sent| - from
  {
    if from < |sent| {
      NamesFromSpec(sent, from + 1);
    }
  }

  /** The names from `a` on are those up to the end of a prefix and those
      after it. */
  lemma NamesFromSplit(s1: seq<Request>, s2: seq<Request>, a: nat)
    requires a <= |s1| <= |s2| && s1 == s2[..|s1|]
    ensures NamesFrom(s2, a) == NamesFrom(s1, a) + NamesFrom(s2, |s1|)
  {
    NamesFromSpec(s1, a);
    NamesFromSpec(s2, a);
    NamesFromSpec(s2, |s1|);
    forall i | i in NamesFrom(s1, a)
      ensures s1[i] == s2[i]
    {
    }
  }

  /** Since the channel held `oldSent` and `oldPending`, exactly `reqs` were
      posted, numbered on from the messages before them, and each awaits
      its reply. */
  predicate Posted(sent: seq<Request>, pending: map<nat, string>, oldSent: seq<Request>,
                   oldPending: map<nat, string>, reqs: seq<Request>)
  {
    && sent == oldSent + reqs
    && pending == oldPending + NamesFrom(sent, |oldSent|)
  }

  lemma PostedNothing(sent: seq<Request>, pending: map<nat, string>)
    ensures Posted(sent, pending, sent, pending, [])
  {
    assert sent + [] == sent;
  }

  /** Posting `r1` and then `r2` is posting `r1 + r2`. */
  lemma PostedTrans(s0: seq<Request>, p0: map<nat, string>, s1: seq<Request>, p1: map<nat, string>,
                    s2: seq<Request>, p2: map<nat, string>, r1: seq<Request>, r2: seq<Request>)
    requires Posted(s1, p1, s0, p0, r1) && Posted(s2, p2, s1, p1, r2)
    ensures Posted(s2, p2, s0, p0, r1 + r2)
  {
    assert s2 == s0 + (r1 + r2);
    assert s1 == s2[..|s1|];
    NamesFromSplit(s1, s2, |s0|);
  }

  /** `TextSearch`: numbered messages to the search worker, each awaiting
      the reply that carries its number. */
  class TextSearch {
    /** The number the next message gets. */
    var messageID: nat
    /** The messages awaiting a reply, by number: the method each called. */
    var pending: map<nat, string>
    /** Every message posted, in order; a message's number is its position. */
    var sent: seq<Request>

    ghost predicate Valid()
      reads this
    {
      && messageID == |sent|
      && forall id :: id in pending ==> id < messageID && pending[id] == sent[id].name
    }

    /** Since the channel held `oldSent` and `oldPending`, exactly `reqs`
        were posted. */
    predicate PostedSince(oldSent: seq<Request>, oldPending: map<nat, string>, reqs: seq<Request>)
      reads this
    {
      Posted(sent, pending, oldSent, oldPending, reqs)
    }

    /** The constructor; starting the worker is not modelled. */
    constructor ()
      ensures Valid() && sent == [] && pending == map[]
    {
      messageID := 0;
      pending := map[];
      sent := [];
    }

    /** `sendMessage`: the message takes the next number, which no pending
        message holds, and awaits its reply. */
    method SendMessage(name: string, args: seq<Arg>) returns (id: nat)
      requires Valid()
      modifies this
      ensures Valid()
      ensures id == old(messageID) && id !in old(pending)
      ensures PostedSince(old(sent), old(pending), [Request(name, args)])
    {
      id := messageID;
      messageID := messageID + 1;
      pending := pending[id := name];
      sent := sent + [Request(name, args)];
      assert NamesFrom(sent, |old(sent)|) == map[id := name];
    }

    /** `search` */
    method Search(query: string) returns (id: nat)
      requires Valid()
      modifies this
      ensures Valid() && PostedSince(old(sent), old(pending), [Request("search", [QueryArg(query)])])
    {
      id := SendMessage("search", [QueryArg(query)]);
    }

    /** `add` */
    method Add(doc: map<string, string>) returns (id: nat)
      requires Valid()
      modifies this
      ensures Valid() && PostedSince(old(sent), old(pending), [Request("add", [DocArg(doc)])])
    {
      id := SendMessage("add", [DocArg(doc)]);
    }

    /** `update` */
    method Update(doc: map<string, string>) returns (id: nat)
      requires Valid()
      modifies this
      ensures Valid() && PostedSince(old(sent), old(pending), [UpdateRequest(doc)])
    {
      id := SendMessage("update", [DocArg(doc)]);
    }

    /** `load` */
    method Load() returns (id: nat)
      requires Valid()
      modifies this
      ensures Valid() && PostedSince(old(sent), old(pending), [Request("load", [UndefinedArg])])
    {
      id := SendMessage("load", [UndefinedArg]);
    }

    /** `persist` */
    method Persist() returns (id: nat)
      requires Valid()
      modifies this
      ensures Valid() && PostedSince(old(sent), old(pending), [PersistRequest])
    {
      id := SendMessage("persist", [UndefinedArg]);
    }

    /** `debug` */
    method Debug(record: Option<string>) returns (id: nat)
      requires Valid()
      modifies this
      ensures Valid() && PostedSince(old(sent), old(pending), [Request("debug", [RecordArg(record)])])
    {
      id := SendMessage("debug", [RecordArg(record)]);
    }

    /** `clearCache` */
    method ClearCache() returns (id: nat)
      requires Valid()
      modifies this
      ensures Valid() && PostedSince(old(sent), old(pending), [Request("clearCache", [UndefinedArg])])
    {
      id := SendMessage("clearCache", [UndefinedArg]);
    }

    /** The worker's reply to message `id`: it settles the promise of the
        message with that number, rejecting with the reply's error if it
        has one; a number nothing awaits makes the handler throw while
        destructuring. */
    method Receive(id: nat, error: Option<string>) returns (r: Result<string, string>)
      requires Valid()
      modifies this
      ensures Valid() && sent == old(sent) && messageID == old(messageID)
      ensures id !in old(pending) ==> r.Err? && pending == old(pending)
      ensures id in old(pending) ==> pending == old(pending) - {id}
      ensures id in old(pending) && error.Some? && error.value != "" ==> r == Err(error.value)
      ensures id in old(pending) && (error.None? || error.value == "") ==> r == Ok(sent[id].name)
    {
      if id !in pending {
        return Err("TypeError: undefined is not iterable");
      }
      var name := pending[id];
      pending := pending - {id};
      // An empty error string is falsy, so the message resolves.
      if error.Some? && error.value != "" {
        return Err(error.value);
      }
      r := Ok(name);
    }
  }

  // ---------------------------------------------------------------------
  // What the database posts to the search worker.

  /** The patients' summaries, in order. */
  function PetSummaries(patients: seq<PatientState>, env: Env): (r: seq<PetSummary>)
    ensures |r| == |patients| && forall i :: 0 <= i < |patients| ==> r[i] == env.summarizePatient(patients[i])
  {
    seq(|patients|, i requires 0 <= i < |patients| => env.summarizePatient(patients[i]))
  }

  /** The search document `updateSearchDocument` posts for a client: its
      summary with its patients' summaries gathered in. */
  function SearchDocOf(stores: map<string, map<string, Doc>>, client: ClientState, env: Env)
    : Result<map<string, string>, string>
  {
    match PatientsOf(stores, client.pets, env)
    case Err(e) => Err(e)
    case Ok(patients) => SearchDocument(env.summarizeClient(client), PetSummaries(patients, env))
  }

  /** A client listing a patient that is not stored gets no search
      document. */
  lemma MissingPetFailsSearchDoc(stores: map<string, map<string, Doc>>, client: ClientState, env: Env, i: nat)
    requires "patients" in stores && i < |client.pets| && client.pets[i] !in stores["patients"]
    ensures SearchDocOf(stores, client, env).Err?
  {
  }

  /** The messages a step posts and the error it ends with, if any. */
  datatype Outcome = Outcome(requests: seq<Request>, err: Option<string>)

  /** Updating the search documents of `owners` one after the other,
      stopping at the first that fails. */
  function OwnerUpdates(stores: map<string, map<string, Doc>>, owners: seq<ClientState>, env: Env): (o: Outcome)
    ensures |o.requests| <= |owners|
    decreases |owners|
  {
    if owners == [] then Outcome([], None)
    else
      var init := OwnerUpdates(stores, owners[..|owners| - 1], env);
      if init.err.Some? then init
      else
        match SearchDocOf(stores, owners[|owners| - 1], env)
        case Err(e) => Outcome(init.requests, Some(e))
        case Ok(doc) => Outcome(init.requests + [UpdateRequest(doc)], None)
  }

  /** When every owner's search document builds, each owner's document is
      posted, in order, and nothing else. */
  lemma {:induction false} OwnerUpdatesAll(stores: map<string, map<string, Doc>>, owners: seq<ClientState>, env: Env)
    requires forall i :: 0 <= i < |owners| ==> SearchDocOf(stores, owners[i], env).Ok?
    ensures OwnerUpdates(stores, owners, env).err.None?
    ensures |OwnerUpdates(stores, owners, env).requests| == |owners|
    ensures forall i :: 0 <= i < |owners| ==>
      OwnerUpdates(stores, owners, env).requests[i] == UpdateRequest(SearchDocOf(stores, owners[i], env).value)
    decreases |owners|
  {
    if owners != [] {
      var init := owners[..|owners| - 1];
      var last := owners[|owners| - 1];
      OwnerUpdatesAll(stores, init, env);
      var o := OwnerUpdates(stores, init, env);
      var d := SearchDocOf(stores, last, env).value;
      assert OwnerUpdates(stores, owners, env) == Outcome(o.requests + [UpdateRequest(d)], None);
      forall i | 0 <= i < |owners|
        ensures OwnerUpdates(stores, owners, env).requests[i] == UpdateRequest(SearchDocOf(stores, owners[i], env).value)
      {
        if i < |init| {
          assert owners[i] == init[i];
        }
      }
    }
  }

  /** A failing owner stops the updates: the error is the first failing
      owner's, and only the owners before it are posted. */
  lemma {:induction false} OwnerUpdatesFail(stores: map<string, map<string, Doc>>, owners: seq<ClientState>, env: Env,
                                            k: nat)
    requires k < |owners| && SearchDocOf(stores, owners[k], env).Err?
    requires forall i :: 0 <= i < k ==> SearchDocOf(stores, owners[i], env).Ok?
    ensures OwnerUpdates(stores, owners, env).err == Some(SearchDocOf(stores, owners[k], env).error)
    ensures |OwnerUpdates(stores, owners, env).requests| == k
    decreases |owners|
  {
    var init := owners[..|owners| - 1];
    if k == |owners| - 1 {
      OwnerUpdatesAll(stores, init, env);
    } else {
      OwnerUpdatesFail(stores, init, env, k);
    }
  }

  /** What the `onchange` handler posts for a written document, and the
      error it ends with: nothing in batch mode; for a client, its search
      document; for a patient, the search document of every client listing
      it; then, unless something failed, `persist`. */
  function ChangeOutcome(stores: map<string, map<string, Doc>>, batchMode: int, objectStore: string, doc: Doc,
                         env: Env): Outcome
  {
    if batchMode > 0 then Outcome([], None)
    else
      var o := if objectStore == "clients" then ClientChange(stores, doc, env)
               else if objectStore == "patients" then PatientChange(stores, doc, env)
               else Outcome([], None);
      if o.err.Some? then o else Outcome(o.requests + [PersistRequest], None)
  }

  /** A written client document updates its own search document. */
  function ClientChange(stores: map<string, map<string, Doc>>, doc: Doc, env: Env): Outcome
  {
    match DeserializeClient(doc)
    case Err(e) => Outcome([], Some(e))
    case Ok(client) =>
      match SearchDocOf(stores, client, env)
      case Err(e) => Outcome([], Some(e))
      case Ok(d) => Outcome([UpdateRequest(d)], None)
  }

  /** A written patient document updates its owners' search documents. */
  function PatientChange(stores: map<string, map<string, Doc>>, doc: Doc, env: Env): Outcome
  {
    match DeserializePatient(doc, env)
    case Err(e) => Outcome([], Some(e))
    case Ok(patient) => OwnerOutcome(stores, patient, env)
  }

  /** A changed patient updates the search documents of its owners; a
      patient without a key is a data error. */
  function OwnerOutcome(stores: map<string, map<string, Doc>>, patient: PatientState, env: Env): Outcome
  {
    if patient.id.None? then Outcome([], Some("DataError"))
    else
      match OwnersOf(stores, [patient.id.value])
      case Err(e) => Outcome([], Some(e))
      case Ok(owners) => OwnerUpdates(stores, owners, env)
  }

  /** The index is persisted only after every update it needed succeeded,
      and then last. */
  lemma ChangePersistsLast(stores: map<string, map<string, Doc>>, batchMode: int, objectStore: string, doc: Doc,
                           env: Env)
    requires batchMode <= 0
    ensures var o := ChangeOutcome(stores, batchMode, objectStore, doc, env);
      && (o.err.None? <==> o.requests != [] && o.requests[|o.requests| - 1] == PersistRequest)
      && (o.err.Some? ==> PersistRequest !in o.requests)
  {
    var o := ChangeOutcome(stores, batchMode, objectStore, doc, env);
    if objectStore != "clients" && objectStore == "patients" {
      var p := DeserializePatient(doc, env);
      if p.Ok? && p.value.id.Some? {
        var owners := OwnersOf(stores, [p.value.id.value]);
        if owners.Ok? {
          OwnerUpdatesOnlyUpdates(stores, owners.value, env);
        }
      }
    }
  }

  /** Owner updates post only `update` messages. */
  lemma {:induction false} OwnerUpdatesOnlyUpdates(stores: map<string, map<string, Doc>>, owners: seq<ClientState>,
                                                   env: Env)
    ensures forall r :: r in OwnerUpdates(stores, owners, env).requests ==> r.name == "update"
    decreases |owners|
  {
    if owners != [] {
      OwnerUpdatesOnlyUpdates(stores, owners[..|owners| - 1], env);
    }
  }

  /** A change written in batch mode posts nothing. */
  lemma BatchModeIsSilent(stores: map<string, map<string, Doc>>, batchMode: int, objectStore: string, doc: Doc,
                          env: Env)
    requires batchMode > 0
    ensures ChangeOutcome(stores, batchMode, objectStore, doc, env) == Outcome([], None)
  {
  }

  /** A written patient whose owners all have search documents has each of
      them posted, in the order `getOwners` lists them, then `persist`. */
  lemma PatientChangeUpdatesOwners(stores: map<string, map<string, Doc>>, doc: Doc, env: Env)
    requires DeserializePatient(doc, env).Ok? && DeserializePatient(doc, env).value.id.Some?
    requires OwnersOf(stores, [DeserializePatient(doc, env).value.id.value]).Ok?
    requires var owners := OwnersOf(stores, [DeserializePatient(doc, env).value.id.value]).value;
      forall i :: 0 <= i < |owners| ==> SearchDocOf(stores, owners[i], env).Ok?
    ensures var owners := OwnersOf(stores, [DeserializePatient(doc, env).value.id.value]).value;
      var o := ChangeOutcome(stores, 0, "patients", doc, env);
      && o.err.None? && |o.requests| == |owners| + 1 && o.requests[|owners|] == PersistRequest
      && forall i :: 0 <= i < |owners| ==> o.requests[i] == UpdateRequest(SearchDocOf(stores, owners[i], env).value)
  {
    var owners := OwnersOf(stores, [DeserializePatient(doc, env).value.id.value]).value;
    OwnerUpdatesAll(stores, owners, env);
  }

  // ---------------------------------------------------------------------
  // Rebuilding the search index.

  /** The keys in ascending order, as a cursor over a store visits them. */
  function SortedKeys(keys: set<string>): (r: seq<string>)
    ensures forall k :: k in r <==> k in keys
    ensures Distinct(r)
    decreases |keys|
  {
    if keys == {} then []
    else
      LeastExists(keys);
      LeastUnique(keys);
      var k :| LeastIn(k, keys);
      [k] + SortedKeys(keys - {k})
  }

  /** The cursor visits the keys in ascending order. */
  lemma {:induction false} SortedKeysAscending(keys: set<string>)
    ensures Ascending(SortedKeys(keys))
    decreases |keys|
  {
    if keys != {} {
      LeastExists(keys);
      LeastUnique(keys);
      var k :| LeastIn(k, keys);
      var rest := SortedKeys(keys - {k});
      SortedKeysAscending(keys - {k});
      var r := SortedKeys(keys);
      assert r == [k] + rest;
      forall i, j | 0 <= i < j < |r|
        ensures Sorting.StrLess(r[i], r[j])
      {
        if i == 0 {
          assert r[j] == rest[j - 1] && r[j] in keys && r[j] != k;
          assert !Sorting.StrLess(r[j], k);
          Sorting.StrLessTotal(k, r[j]);
        } else {
          assert r[i] == rest[i - 1] && r[j] == rest[j - 1];
          assert Sorting.StrLess(rest[i - 1], rest[j - 1]);
        }
      }
    }
  }

  /** Strictly ascending in IndexedDB's string order. */
  predicate Ascending(r: seq<string>)
  {
    forall i, j :: 0 <= i < j < |r| ==> Sorting.StrLess(r[i], r[j])
  }

  /** `ensureIndexes`' updates, for the clients under `keys` in order: a
      document that is not a client is skipped; every client whose search
      document builds has it posted, whether or not an earlier one failed;
      the error is the first failure's. */
  function IndexOutcome(stores: map<string, map<string, Doc>>, keys: seq<string>, env: Env): (o: Outcome)
    requires "clients" in stores && forall i :: 0 <= i < |keys| ==> keys[i] in stores["clients"]
    decreases |keys|
  {
    if keys == [] then Outcome([], None)
    else
      var init := IndexOutcome(stores, keys[..|keys| - 1], env);
      match DeserializeClient(stores["clients"][keys[|keys| - 1]])
      case Err(_) => init
      case Ok(client) => Extend(init, SearchDocOf(stores, client, env))
  }

  /** The walk so far followed by one client's update: posted when its
      search document builds, otherwise recorded as the first error unless
      one came before. */
  function Extend(init: Outcome, doc: Result<map<string, string>, string>): (o: Outcome)
    ensures doc.Ok? ==> o.requests == init.requests + [UpdateRequest(doc.value)] && o.err == init.err
    ensures doc.Err? ==> o.requests == init.requests && o.err == (if init.err.Some? then init.err else Some(doc.error))
  {
    match doc
    case Err(e) => Outcome(init.requests, if init.err.Some? then init.err else Some(e))
    case Ok(d) => Outcome(init.requests + [UpdateRequest(d)], init.err)
  }

  /** `ensureIndexes` as a whole: the walk over the clients store in key
      order, then `persist` unless some update failed. */
  function Reindex(stores: map<string, map<string, Doc>>, env: Env): (o: Outcome)
    requires "clients" in stores
  {
    var walk := IndexOutcome(stores, SortedKeys(stores["clients"].Keys), env);
    Outcome(walk.requests + (if walk.err.None? then [PersistRequest] else []), walk.err)
  }

  /** One more key extends the walk by that client's step. */
  lemma IndexOutcomeNext(stores: map<string, map<string, Doc>>, keys: seq<string>, i: nat, env: Env)
    requires "clients" in stores && i < |keys| && forall j :: 0 <= j < |keys| ==> keys[j] in stores["clients"]
    ensures var init := IndexOutcome(stores, keys[..i], env);
            var c := DeserializeClient(stores["clients"][keys[i]]);
            IndexOutcome(stores, keys[..i + 1], env) ==
              if c.Err? then init else Extend(init, SearchDocOf(stores, c.value, env))
  {
    assert keys[..i + 1][..i] == keys[..i];
  }

  /** The client under a key has a search document. */
  predicate Indexable(stores: map<string, map<string, Doc>>, key: string, env: Env)
    requires "clients" in stores && key in stores["clients"]
  {
    DeserializeClient(stores["clients"][key]).Ok? &&
    SearchDocOf(stores, DeserializeClient(stores["clients"][key]).value, env).Ok?
  }

  /** The client under a key fails to get a search document. */
  predicate Unindexable(stores: map<string, map<string, Doc>>, key: string, env: Env)
    requires "clients" in stores && key in stores["clients"]
  {
    DeserializeClient(stores["clients"][key]).Ok? &&
    SearchDocOf(stores, DeserializeClient(stores["clients"][key]).value, env).Err?
  }

  /** The search-index update posted for the client under a key whose
      search document builds. */
  function RequestOf(stores: map<string, map<string, Doc>>, key: string, env: Env): Request
    requires "clients" in stores && key in stores["clients"] && Indexable(stores, key, env)
  {
    UpdateRequest(SearchDocOf(stores, DeserializeClient(stores["clients"][key]).value, env).value)
  }

  /** One more client keeps every request posted so far and adds its own
      when its search document builds. */
  lemma IndexOutcomeStep(stores: map<string, map<string, Doc>>, keys: seq<string>, env: Env)
    requires "clients" in stores && forall i :: 0 <= i < |keys| ==> keys[i] in stores["clients"]
    requires keys != []
    ensures var before := IndexOutcome(stores, keys[..|keys| - 1], env).requests;
            forall r :: r in before ==> r in IndexOutcome(stores, keys, env).requests
    ensures Indexable(stores, keys[|keys| - 1], env) ==>
              RequestOf(stores, keys[|keys| - 1], env) in IndexOutcome(stores, keys, env).requests
  {
  }

  /** Rebuilding posts the search document of every stored client whose
      document builds. */
  lemma {:induction false} IndexOutcomeCovers(stores: map<string, map<string, Doc>>, keys: seq<string>, env: Env)
    requires "clients" in stores && forall i :: 0 <= i < |keys| ==> keys[i] in stores["clients"]
    ensures forall i :: 0 <= i < |keys| && Indexable(stores, keys[i], env) ==>
      RequestOf(stores, keys[i], env) in IndexOutcome(stores, keys, env).requests
    decreases |keys|
  {
    if keys != [] {
      var init := keys[..|keys| - 1];
      IndexOutcomeCovers(stores, init, env);
      IndexOutcomeStep(stores, keys, env);
      var before := IndexOutcome(stores, init, env).requests;
      var after := IndexOutcome(stores, keys, env).requests;
      forall i | 0 <= i < |keys| && Indexable(stores, keys[i], env)
        ensures RequestOf(stores, keys[i], env) in after
      {
        if i < |init| {
          assert keys[i] == init[i];
          assert RequestOf(stores, init[i], env) in before;
          assert RequestOf(stores, keys[i], env) in after;
        } else {
          assert i == |keys| - 1;
        }
      }
    }
  }

  /** Rebuilding fails exactly when some stored client's search document
      does not build. */
  lemma {:induction false} IndexOutcomeFails(stores: map<string, map<string, Doc>>, keys: seq<string>, env: Env)
    requires "clients" in stores && forall i :: 0 <= i < |keys| ==> keys[i] in stores["clients"]
    ensures IndexOutcome(stores, keys, env).err.Some? <==>
      exists i :: 0 <= i < |keys| && Unindexable(stores, keys[i], env)
    decreases |keys|
  {
    if keys != [] {
      var init := keys[..|keys| - 1];
      IndexOutcomeFails(stores, init, env);
      assert forall i :: 0 <= i < |init| ==> keys[i] == init[i];
      if Unindexable(stores, keys[|keys| - 1], env) {
        assert IndexOutcome(stores, keys, env).err.Some?;
      }
    }
  }

  // ---------------------------------------------------------------------
  // The database.

  /** `Database`: the local object stores, the search worker's channel and
      the batch-mode depth. */
  class Database {
    const local: Hopps.Hopps<Doc>
    const text: TextSearch
    /** How many batches are open; while any is, writes leave the search
        index alone. */
    var batchMode: int

    /** Both stores exist and key documents as `DocKey` does; the channel
        numbers its messages; the depth is never negative. */
    ghost predicate Valid()
      reads this, local, text
    {
      && local.keyOf == DocKey && local.Valid() && text.Valid()
      && "clients" in local.stores && "patients" in local.stores
      && batchMode >= 0
    }

    /** The constructor together with the upgrade step of `initialize`,
        which creates the two stores of a new database. */
    constructor ()
      ensures Valid() && fresh(local) && fresh(text)
      ensures local.stores == map["clients" := map[], "patients" := map[]]
      ensures text.sent == [] && text.pending == map[] && batchMode == 0
    {
      local := new Hopps.Hopps(map["clients" := map[], "patients" := map[]], DocKey);
      text := new TextSearch();
      batchMode := 0;
    }

    /** The rest of `initialize`: asks the worker to load a cached index and,
        when the worker reports that it could not, rebuilds the index. */
    method Initialize(loaded: bool, env: Env) returns (err: Option<string>)
      requires Valid()
      modifies text
      ensures Valid()
      ensures loaded ==> err.None? && text.PostedSince(old(text.sent), old(text.pending), [Request("load", [UndefinedArg])])
      ensures !loaded ==> err == Reindex(local.stores, env).err
      ensures !loaded ==> text.PostedSince(old(text.sent), old(text.pending),
                                           [Request("load", [UndefinedArg])] + Reindex(local.stores, env).requests)
    {
      ghost var s0, p0 := text.sent, text.pending;
      var _ := text.Load();
      ghost var s1, p1 := text.sent, text.pending;
      if loaded {
        return None;
      }
      err := EnsureIndexes(env);
      PostedTrans(s0, p0, s1, p1, text.sent, text.pending, [Request("load", [UndefinedArg])],
                  Reindex(local.stores, env).requests);
    }

    /** `getClients` */
    method GetClients(ids: seq<string>) returns (r: Result<seq<ClientState>, string>)
      requires Valid()
      ensures r == ClientsOf(local.stores, ids)
    {
      var docs := local.Get("clients", "", PetsIndex, ids);
      if docs.Err? {
        return Err("KeyError: " + docs.error);
      }
      r := DeserializeClients(docs.value);
    }

    /** `getPatients` */
    method GetPatients(ids: seq<string>, env: Env) returns (r: Result<seq<PatientState>, string>)
      requires Valid()
      ensures r == PatientsOf(local.stores, ids, env)
    {
      var docs := local.Get("patients", "", PetsIndex, ids);
      if docs.Err? {
        return Err("KeyError: " + docs.error);
      }
      r := DeserializePatients(docs.value, env);
    }

    /** `getOwners` */
    method GetOwners(patientIDs: seq<string>) returns (r: Result<seq<ClientState>, string>)
      requires Valid()
      ensures r == OwnersOf(local.stores, patientIDs)
    {
      var rows := local.Get("clients", "pets", PetsIndex, patientIDs);
      if rows.Err? {
        return Err(rows.error);
      }
      r := GetClients(Dedup(KeysOf(rows.value)));
    }

    /** `updateSearchDocument`: gathers each patient's summary into the
        client's, joins the arrays and posts the document. */
    method UpdateSearchDocument(client: ClientState, env: Env) returns (err: Option<string>)
      requires Valid()
      modifies text
      ensures Valid()
      ensures err.Some? <==> SearchDocOf(local.stores, client, env).Err?
      ensures err.Some? ==> err.value == SearchDocOf(local.stores, client, env).error &&
                            text.PostedSince(old(text.sent), old(text.pending), [])
      ensures err.None? ==>
        text.PostedSince(old(text.sent), old(text.pending), [UpdateRequest(SearchDocOf(local.stores, client, env).value)])
    {
      PostedNothing(text.sent, text.pending);
      var summary := env.summarizeClient(client);
      var patients := GetPatients(client.pets, env);
      if patients.Err? {
        return Some(patients.error);
      }
      var pets := PetSummaries(patients.value, env);
      var acc := summary;
      assert pets[0..] == pets;
      for i := 0 to |pets|
        invariant GatherAll(summary, pets) == GatherAll(acc, pets[i..])
      {
        assert pets[i..][1..] == pets[i + 1..];
        var step := GatherPet(acc, pets[i]);
        if step.Err? {
          return Some(step.error);
        }
        acc := step.value;
      }
      assert pets[|pets|..] == [];
      var doc := map k | k in acc :: FieldText(acc[k]);
      var _ := text.Update(doc);
      err := None;
    }

    /** The owners of a changed patient, each with its search document
        updated in turn, stopping at the first failure. */
    method UpdateOwners(patient: PatientState, env: Env) returns (err: Option<string>)
      requires Valid()
      modifies text
      ensures Valid()
      ensures err == OwnerOutcome(local.stores, patient, env).err
      ensures text.PostedSince(old(text.sent), old(text.pending), OwnerOutcome(local.stores, patient, env).requests)
    {
      ghost var s0, p0 := text.sent, text.pending;
      PostedNothing(s0, p0);
      if patient.id.None? {
        return Some("DataError");
      }
      var owners := GetOwners([patient.id.value]);
      if owners.Err? {
        return Some(owners.error);
      }
      var i := 0;
      while i < |owners.value|
        invariant i <= |owners.value|
        invariant text.Valid()
        invariant OwnerUpdates(local.stores, owners.value[..i], env).err.None?
        invariant text.PostedSince(s0, p0, OwnerUpdates(local.stores, owners.value[..i], env).requests)
      {
        ghost var s1, p1 := text.sent, text.pending;
        assert owners.value[..i + 1][..i] == owners.value[..i];
        err := UpdateSearchDocument(owners.value[i], env);
        if err.Some? {
          assert text.sent == s1 && text.pending == p1 by {
            assert s1 + [] == s1;
          }
          return;
        }
        PostedTrans(s0, p0, s1, p1, text.sent, text.pending,
                    OwnerUpdates(local.stores, owners.value[..i], env).requests,
                    [UpdateRequest(SearchDocOf(local.stores, owners.value[i], env).value)]);
        i := i + 1;
      }
      assert owners.value[..i] == owners.value;
      err := None;
    }

    /** The client branch of the `onchange` handler. */
    method ClientChanged(doc: Doc, env: Env) returns (err: Option<string>)
      requires Valid()
      modifies text
      ensures Valid()
      ensures err == ClientChange(local.stores, doc, env).err
      ensures text.PostedSince(old(text.sent), old(text.pending), ClientChange(local.stores, doc, env).requests)
    {
      PostedNothing(text.sent, text.pending);
      var client := DeserializeClient(doc);
      if client.Err? {
        return Some(client.error);
      }
      err := UpdateSearchDocument(client.value, env);
    }

    /** The patient branch of the `onchange` handler. */
    method PatientChanged(doc: Doc, env: Env) returns (err: Option<string>)
      requires Valid()
      modifies text
      ensures Valid()
      ensures err == PatientChange(local.stores, doc, env).err
      ensures text.PostedSince(old(text.sent), old(text.pending), PatientChange(local.stores, doc, env).requests)
    {
      PostedNothing(text.sent, text.pending);
      var patient := DeserializePatient(doc, env);
      if patient.Err? {
        return Some(patient.error);
      }
      err := UpdateOwners(patient.value, env);
    }

    /** The `onchange` handler `initialize` installs, for one written
        document. */
    method OnChange(objectStore: string, doc: Doc, env: Env) returns (err: Option<string>)
      requires Valid()
      modifies text
      ensures Valid()
      ensures err == ChangeOutcome(local.stores, batchMode, objectStore, doc, env).err
      ensures text.PostedSince(old(text.sent), old(text.pending),
                               ChangeOutcome(local.stores, batchMode, objectStore, doc, env).requests)
      ensures batchMode > 0 ==> unchanged(text)
    {
      ghost var s0, p0 := text.sent, text.pending;
      PostedNothing(s0, p0);
      if batchMode > 0 {
        return None;
      }
      ghost var o := Outcome([], None);
      if objectStore == "clients" {
        err := ClientChanged(doc, env);
        o := ClientChange(local.stores, doc, env);
      } else if objectStore == "patients" {
        err := PatientChanged(doc, env);
        o := PatientChange(local.stores, doc, env);
      } else {
        err := None;
      }
      if err.Some? {
        return;
      }
      ghost var s2, p2 := text.sent, text.pending;
      var _ := text.Persist();
      PostedTrans(s0, p0, s2, p2, text.sent, text.pending, o.requests, [PersistRequest]);
    }

    /** `ensureIndexes`: walks the clients store in key order, posting the
        search document of every document that is a client, skipping the
        others, then, unless some update failed, `persist`. */
    method EnsureIndexes(env: Env) returns (err: Option<string>)
      requires Valid()
      modifies text
      ensures Valid()
      ensures err == Reindex(local.stores, env).err
      ensures text.PostedSince(old(text.sent), old(text.pending), Reindex(local.stores, env).requests)
    {
      ghost var s0, p0 := text.sent, text.pending;
      PostedNothing(s0, p0);
      var clients := local.stores["clients"];
      var keys := SortedKeys(clients.Keys);
      err := None;
      for i := 0 to |keys|
        invariant text.Valid()
        invariant IndexOutcome(local.stores, keys[..i], env).err == err
        invariant text.PostedSince(s0, p0, IndexOutcome(local.stores, keys[..i], env).requests)
      {
        err := IndexClient(keys, i, err, env, s0, p0);
      }
      assert keys[..|keys|] == keys;
      assert Reindex(local.stores, env) ==
        Outcome(IndexOutcome(local.stores, keys, env).requests + (if err.None? then [PersistRequest] else []), err);
      PersistUnlessFailed(err, s0, p0, IndexOutcome(local.stores, keys, env).requests);
    }

    /** `persist`, unless an update of the walk failed. */
    method PersistUnlessFailed(err: Option<string>, ghost s0: seq<Request>, ghost p0: map<nat, string>,
                               ghost walk: seq<Request>)
      requires Valid() && text.PostedSince(s0, p0, walk)
      modifies text
      ensures Valid()
      ensures text.PostedSince(s0, p0, walk + (if err.None? then [PersistRequest] else []))
    {
      if err.None? {
        ghost var s2, p2 := text.sent, text.pending;
        var _ := text.Persist();
        PostedTrans(s0, p0, s2, p2, text.sent, text.pending, walk, [PersistRequest]);
      } else {
        assert walk + [] == walk;
      }
    }

    /** One step of `ensureIndexes`' walk: the client under `keys[i]`. */
    method IndexClient(keys: seq<string>, i: nat, err: Option<string>, env: Env,
                       ghost s0: seq<Request>, ghost p0: map<nat, string>) returns (err': Option<string>)
      requires Valid() && i < |keys| && forall j :: 0 <= j < |keys| ==> keys[j] in local.stores["clients"]
      requires IndexOutcome(local.stores, keys[..i], env).err == err
      requires text.PostedSince(s0, p0, IndexOutcome(local.stores, keys[..i], env).requests)
      modifies text
      ensures Valid()
      ensures IndexOutcome(local.stores, keys[..i + 1], env).err == err'
      ensures text.PostedSince(s0, p0, IndexOutcome(local.stores, keys[..i + 1], env).requests)
    {
      IndexOutcomeNext(local.stores, keys, i, env);
      err' := err;
      var client := DeserializeClient(local.stores["clients"][keys[i]]);
      if client.Ok? {
        err' := IndexDeserialized(client.value, err, env, s0, p0, IndexOutcome(local.stores, keys[..i], env));
      }
    }

    /** Updating the search document of one client of the walk. */
    method IndexDeserialized(client: ClientState, err: Option<string>, env: Env,
                             ghost s0: seq<Request>, ghost p0: map<nat, string>, ghost init: Outcome)
      returns (err': Option<string>)
      requires Valid() && init.err == err && text.PostedSince(s0, p0, init.requests)
      modifies text
      ensures Valid()
      ensures err' == Extend(init, SearchDocOf(local.stores, client, env)).err
      ensures text.PostedSince(s0, p0, Extend(init, SearchDocOf(local.stores, client, env)).requests)
    {
      ghost var s1, p1 := text.sent, text.pending;
      var failed := UpdateSearchDocument(client, env);
      err' := err;
      if failed.Some? {
        assert s1 + [] == s1;
        if err.None? {
          err' := failed;
        }
      } else {
        PostedTrans(s0, p0, s1, p1, text.sent, text.pending, init.requests,
                    [UpdateRequest(SearchDocOf(local.stores, client, env).value)]);
      }
    }

    /** `enterBatchMode` */
    method EnterBatchMode()
      requires Valid()
      modifies this
      ensures Valid() && batchMode == old(batchMode) + 1
    {
      batchMode := batchMode + 1;
    }

    /** `exitBatchMode`: closes a batch, never below zero, and rebuilds the
        index. */
    method ExitBatchMode(env: Env) returns (err: Option<string>)
      requires Valid()
      modifies this, text
      ensures Valid()
      ensures batchMode == if old(batchMode) - 1 < 0 then 0 else old(batchMode) - 1
      ensures err == Reindex(local.stores, env).err
      ensures text.PostedSince(old(text.sent), old(text.pending), Reindex(local.stores, env).requests)
    {
      batchMode := batchMode - 1;
      if batchMode < 0 {
        batchMode := 0;
      }
      err := EnsureIndexes(env);
    }
  
    /** `put` of one document, then, once the transaction completes, the
        `onchange` handler for it; nothing awaits the handler, so its
        outcome reaches no caller. */
    method Write(objectStore: string, doc: Doc, env: Env) returns (r: Result<(), string>)
      requires Valid()
      modifies local, text
      ensures Valid()
      ensures r.Ok? <==> objectStore in old(local.stores) && DocKey(doc).Some? && !env.writeFails(doc)
      ensures r.Err? ==> local.stores == old(local.stores) && text.PostedSince(old(text.sent), old(text.pending), [])
      ensures r.Ok? ==>
        local.stores == old(local.stores)[objectStore := old(local.stores)[objectStore][DocKey(doc).value := doc]]
      ensures r.Ok? ==> text.PostedSince(old(text.sent), old(text.pending),
                                         ChangeOutcome(local.stores, batchMode, objectStore, doc, env).requests)
      ensures batchMode > 0 ==> unchanged(text)
    {
      PostedNothing(text.sent, text.pending);
      var calls := local.Put(objectStore, doc, env.writeFails(doc));
      if calls.Err? {
        return Err(calls.error);
      }
      assert calls.value == [(objectStore, doc)];
      var _ := OnChange(calls.value[0].0, calls.value[0].1, env);
      r := Ok(());
    }

    /** `updateClient` as intended: a client that has an id and no unsaved
        change is left alone; any other gets `newID` if it has no id, is
        written, and is marked clean. */
    method UpdateClient(client: TsClient.Client, newID: string, env: Env) returns (r: Result<string, string>)
      requires Valid()
      modifies client, local, text
      ensures Valid()
      ensures old(client.id).Some? && !old(client.dirty) ==>
        && r == Ok(old(client.id).value) && client.State() == old(client.State())
        && local.stores == old(local.stores) && text.PostedSince(old(text.sent), old(text.pending), [])
      ensures !(old(client.id).Some? && !old(client.dirty)) ==>
        var id := if old(client.id).Some? then old(client.id).value else newID;
        var doc := ClientDoc(TsClient.ClientDataOf(old(client.State()).(id := Some(id))));
        && (r.Ok? <==> !env.writeFails(doc))
        && (r.Ok? ==> r.value == id && client.State() == old(client.State()).(id := Some(id), dirty := false))
        && (r.Ok? ==> local.stores == old(local.stores)["clients" := old(local.stores)["clients"][id := doc]])
        && (r.Ok? ==> text.PostedSince(old(text.sent), old(text.pending),
                                       ChangeOutcome(local.stores, batchMode, "clients", doc, env).requests))
        && (r.Err? ==> client.State() == old(client.State()).(id := Some(id)) && local.stores == old(local.stores))
      ensures batchMode > 0 ==> unchanged(text)
    {
      if client.id.Some? && !client.dirty {
        PostedNothing(text.sent, text.pending);
        return Ok(client.id.value);
      }
      if client.id.None? {
        client.id := Some(newID);
      }
      var written := Write("clients", ClientDoc(client.Serialize()), env);
      if written.Err? {
        return Err(written.error);
      }
      client.dirty := false;
      r := Ok(client.id.value);
    }

    /** `updateClient` as written: `Client` declares no `isDirty`, so
        `!client.isDirty` always holds and a client that has an id is
        returned unwritten whatever changed in it; a client without one gets
        `newID`, and its put rejects with DataError because the serialised
        client has no `_id` (the undeclared `clearDirty` after it is never
        reached). */
    method UpdateClientAsWritten(client: TsClient.Client, newID: string, env: Env) returns (r: Result<string, string>)
      requires Valid()
      modifies client, local, text
      ensures Valid()
      ensures old(client.id).Some? ==>
        && r == Ok(old(client.id).value) && client.State() == old(client.State())
        && local.stores == old(local.stores) && text.PostedSince(old(text.sent), old(text.pending), [])
      ensures old(client.id).None? ==>
        && r == Err("DataError") && client.State() == old(client.State()).(id := Some(newID))
        && local.stores == old(local.stores) && text.PostedSince(old(text.sent), old(text.pending), [])
    {
      PostedNothing(text.sent, text.pending);
      if client.id.Some? {
        return Ok(client.id.value);
      }
      client.id := Some(newID);
      var data := client.Serialize();
      var put, _ := PutClientAsWritten(data, env.writeFails(ClientDoc(data)));
      r := Err(put.error);
    }

    /** `updatePatient`'s loop over the owners: each fetched owner gets the
        patient through `addPet` and is written back, stopping at the first
        write that fails. */
    method AddOwners(ids: seq<string>, owners: seq<ClientState>, pid: string, env: Env) returns (r: Result<(), string>)
      requires Valid()
      requires |owners| == |ids| && forall j :: 0 <= j < |ids| ==> owners[j].id == Some(ids[j])
      modifies local, text
      ensures Valid()
      ensures r.Ok? <==> NoOwnerWriteFails(env, owners, pid, |ids|)
      ensures r.Ok? ==>
        local.stores == old(local.stores)["clients" := Filed(old(local.stores)["clients"], OwnerWrites(ids, owners, pid))]
      ensures r.Err? ==> exists k :: && 0 <= k < |ids| && OwnerWriteFails(env, owners[k], pid)
                                     && NoOwnerWriteFails(env, owners, pid, k)
                                     && local.stores == old(local.stores)["clients" :=
                                          Filed(old(local.stores)["clients"], OwnerWrites(ids, owners, pid)[..k])]
      ensures local.stores["patients"] == old(local.stores["patients"])
      ensures r.Ok? ==> forall j :: 0 <= j < |ids| ==>
        ids[j] in local.stores["clients"] && Owns(local.stores["clients"][ids[j]], pid)
      ensures batchMode > 0 ==> unchanged(text)
    {
      PostedNothing(text.sent, text.pending);
      ghost var clients := local.stores["clients"];
      ghost var writes := OwnerWrites(ids, owners, pid);
      for i := 0 to |owners|
        invariant Valid()
        invariant NoOwnerWriteFails(env, owners, pid, i)
        invariant local.stores == old(local.stores)["clients" := Filed(clients, writes[..i])]
        invariant batchMode > 0 ==> unchanged(text)
      {
        var written := WriteOwner(ids[i], owners[i], pid, env);
        if written.Err? {
          r := Err(written.error);
          assert 0 <= i < |ids| && OwnerWriteFails(env, owners[i], pid);
          return;
        }
        OwnerWriteStep(old(local.stores), clients, writes, i, local.stores);
        NoOwnerWriteFailsStep(env, owners, pid, i);
      }
      assert writes[..|ids|] == writes;
      OwnersOwn(old(local.stores)["clients"], ids, owners, pid);
      r := Ok(());
    }

    /** One turn of the owner loop: `addPet`, then the owner's `put`. */
    method WriteOwner(id: string, owner: ClientState, pid: string, env: Env) returns (r: Result<(), string>)
      requires Valid() && owner.id == Some(id)
      modifies local, text
      ensures Valid()
      ensures r.Ok? <==> !OwnerWriteFails(env, owner, pid)
      ensures r.Ok? ==> local.stores == old(local.stores)["clients" := old(local.stores)["clients"][id := OwnerDoc(owner, pid)]]
      ensures r.Err? ==> local.stores == old(local.stores)
      ensures batchMode > 0 ==> unchanged(text)
    {
      var added := owner.(pets := AddLast(owner.pets, pid), dirty := true);
      r := Write("clients", ClientDoc(TsClient.ClientDataOf(added)), env);
    }

    /** `updatePatient`: a patient that has an id and no unsaved change is
        left alone; any other gets `newID` if it has no id and is written,
        then each client in `addOwners` gets it as a pet and is written, and
        the patient is marked clean.  The transaction `rawTransaction`
        opens is handed to `put`, which takes no such argument, so every
        write is a transaction of its own. */
    method UpdatePatient(patient: TsPatient.Patient, addOwners: Option<seq<string>>, newID: string, env: Env)
      returns (r: Result<string, string>)
      requires Valid() && patient.Valid()
      modifies patient, local, text
      ensures Valid() && patient.Valid()
      ensures old(patient.id).Some? && !old(patient.IsDirty()) ==>
        && r == Ok(old(patient.id).value) && patient.State() == old(patient.State())
        && local.stores == old(local.stores) && text.PostedSince(old(text.sent), old(text.pending), [])
      ensures !(old(patient.id).Some? && !old(patient.IsDirty())) ==>
        var id := if old(patient.id).Some? then old(patient.id).value else newID;
        var saved := SavedState(old(patient.State()), id, env);
        var doc := PatientDoc(TsPatient.SerializedOf(saved, env.format));
        && (r.Ok? <==> SaveSucceeds(old(local.stores), id, doc, addOwners, env))
        && (r.Ok? ==> && r.value == id && patient.State() == saved.(dirty := {})
                      && local.stores == SavedStores(old(local.stores), id, doc, addOwners, env))
        && (r.Err? ==> patient.State() == saved)
        && (env.writeFails(doc) ==> local.stores == old(local.stores))
      ensures r.Ok? ==> patient.id == Some(r.value) && !patient.IsDirty()
      ensures (!(old(patient.id).Some? && !old(patient.IsDirty())) && addOwners.Some? &&
               exists i :: 0 <= i < |addOwners.value| && addOwners.value[i] !in old(local.stores)["clients"]) ==> r.Err?
      ensures batchMode > 0 ==> unchanged(text)
    {
      if patient.id.Some? && !patient.IsDirty() {
        PostedNothing(text.sent, text.pending);
        return Ok(patient.id.value);
      }
      if patient.id.None? {
        patient.id := Some(newID);
      }
      r := SavePatient(patient, addOwners, env);
    }

    /** `getClients` of the new owners followed by `AddOwners`. */
    method LinkOwners(ids: seq<string>, pid: string, env: Env) returns (r: Result<(), string>)
      requires Valid()
      modifies local, text
      ensures Valid()
      ensures local.stores["patients"] == old(local.stores["patients"])
      ensures ClientsOf(old(local.stores), ids).Err? ==> r.Err? && local.stores == old(local.stores)
      ensures r.Ok? <==> LinkSucceeds(old(local.stores), ids, pid, env)
      ensures r.Ok? ==> local.stores == LinkedStores(old(local.stores), ids, pid)
      ensures r.Ok? ==> forall o :: o in ids ==> o in local.stores["clients"] && Owns(local.stores["clients"][o], pid)
      ensures (exists i :: 0 <= i < |ids| && ids[i] !in old(local.stores)["clients"]) ==> r.Err?
      ensures batchMode > 0 ==> unchanged(text)
    {
      var owners := GetClients(ids);
      if owners.Err? {
        return Err(owners.error);
      }
      forall j | 0 <= j < |ids|
        ensures owners.value[j].id == Some(ids[j])
      {
        assert local.keyOf(local.stores["clients"][ids[j]]) == Some(ids[j]);
      }
      r := AddOwners(ids, owners.value, pid, env);
    }

    /** The writing part of `updatePatient`, for a patient that has an id:
        `serialize` refreshes the due dates, the document is written, and on
        success the patient is marked clean. */
    method SavePatient(patient: TsPatient.Patient, addOwners: Option<seq<string>>, env: Env)
      returns (r: Result<string, string>)
      requires Valid() && patient.Valid() && patient.id.Some?
      modifies patient, local, text
      ensures Valid() && patient.Valid() && patient.id == old(patient.id)
      ensures var saved := SavedState(old(patient.State()), old(patient.id).value, env);
              var doc := PatientDoc(TsPatient.SerializedOf(saved, env.format));
        && (r.Ok? <==> SaveSucceeds(old(local.stores), old(patient.id).value, doc, addOwners, env))
        && (r.Ok? ==> && r.value == old(patient.id).value && patient.State() == saved.(dirty := {})
                      && local.stores == SavedStores(old(local.stores), old(patient.id).value, doc, addOwners, env))
        && (r.Err? ==> patient.State() == saved)
        && (env.writeFails(doc) ==> local.stores == old(local.stores))
      ensures r.Ok? ==> r.value == patient.id.value && !patient.IsDirty()
      ensures r.Ok? ==> r.value in local.stores["patients"] &&
                        local.stores["patients"][r.value] == PatientDoc(TsPatient.SerializedOf(patient.State(), env.format))
      ensures r.Ok? && addOwners.Some? ==> forall o :: o in addOwners.value ==>
        o in local.stores["clients"] && Owns(local.stores["clients"][o], r.value)
      ensures r.Err? ==> patient.dirty == old(patient.dirty)
      ensures (addOwners.Some? && exists i :: 0 <= i < |addOwners.value| && addOwners.value[i] !in old(local.stores)["clients"])
              ==> r.Err?
      ensures batchMode > 0 ==> unchanged(text)
    {
      var pid := patient.id.value;
      var _ := local.RawTransaction(["clients", "patients"]);
      var data := patient.Serialize(env.now, env.addSixMonths, env.format);
      assert patient.State() == SavedState(old(patient.State()), pid, env);
      var saved := StoreAndLink(data, pid, addOwners, env);
      if saved.Err? {
        return Err(saved.error);
      }
      ghost var before := patient.State();
      patient.ClearDirty();
      TsPatient.SerializedIgnoresDirty(before, env.format);
      r := Ok(pid);
    }

    /** The writes of `updatePatient`: the serialized patient, then each new
        owner with the patient added to its pets. */
    method StoreAndLink(data: TsPatient.SerializedPatient, pid: string, addOwners: Option<seq<string>>, env: Env)
      returns (r: Result<(), string>)
      requires Valid() && data.id == Some(pid)
      modifies local, text
      ensures Valid()
      ensures env.writeFails(PatientDoc(data)) ==> r.Err? && local.stores == old(local.stores)
      ensures r.Ok? <==> SaveSucceeds(old(local.stores), pid, PatientDoc(data), addOwners, env)
      ensures r.Ok? ==> local.stores == SavedStores(old(local.stores), pid, PatientDoc(data), addOwners, env)
      ensures r.Ok? ==> pid in local.stores["patients"] && local.stores["patients"][pid] == PatientDoc(data)
      ensures r.Ok? && addOwners.Some? ==> forall o :: o in addOwners.value ==>
        o in local.stores["clients"] && Owns(local.stores["clients"][o], pid)
      ensures (addOwners.Some? && exists i :: 0 <= i < |addOwners.value| && addOwners.value[i] !in old(local.stores)["clients"])
              ==> r.Err?
      ensures batchMode > 0 ==> unchanged(text)
    {
      var written := StorePatient(data, env);
      if written.Err? {
        return Err(written.error);
      }
      assert local.stores == WithPatient(old(local.stores), pid, PatientDoc(data));
      if addOwners.Some? {
        var added := LinkOwners(addOwners.value, pid, env);
        if added.Err? {
          return Err(added.error);
        }
      }
      r := Ok(());
    }

    /** Writing a serialised patient, as far as the stores are concerned. */
    method StorePatient(data: TsPatient.SerializedPatient, env: Env) returns (r: Result<(), string>)
      requires Valid()
      modifies local, text
      ensures Valid()
      ensures r.Ok? <==> DocKey(PatientDoc(data)).Some? && !env.writeFails(PatientDoc(data))
      ensures r.Ok? ==>
        local.stores == old(local.stores)["patients" := old(local.stores)["patients"][DocKey(PatientDoc(data)).value := PatientDoc(data)]]
      ensures r.Err? ==> local.stores == old(local.stores)
      ensures batchMode > 0 ==> unchanged(text)
    {
      r := Write("patients", PatientDoc(data), env);
    }

    /** Every stored document sits under its own id. */
    lemma Keyed()
      requires Valid()
      ensures KeyedStores(local.stores)
    {
      forall n, k | n in local.stores && k in local.stores[n]
        ensures DocKey(local.stores[n][k]) == Some(k)
      {
        assert local.keyOf(local.stores[n][k]) == Some(k);
      }
    }

    /** `populateResultsFromClients`: the clients with every patient they
        list, fetched from the store, none of them matched. */
    method PopulateResultsFromClients(clients: seq<ClientState>, env: Env)
      returns (r: Result<TsSearchResults.SearchResults, string>)
      requires Valid()
      ensures r.Err? <==> !PetsFetchable(local.stores, clients)
      ensures r.Ok? ==> fresh(r.value)
      ensures r.Ok? ==> r.value.clientIDs == TsSearchResults.IdsOf(clients) &&
                        r.value.clientsIndex == TsSearchResults.IndexClients(clients)
      ensures r.Ok? ==> r.value.matchedPatients == {}
      ensures r.Ok? ==> forall id :: id in r.value.patients <==>
                          id.Some? && exists i :: 0 <= i < |clients| && id.value in clients[i].pets
      ensures r.Ok? ==> FromStore(local.stores, r.value.patients, env)
    {
      var ids := PetsNotIn(clients, []);
      FetchableIds(local.stores, clients, ids);
      var fetched := GetPatients(ids, env);
      if fetched.Err? {
        return Err(fetched.error);
      }
      var patients := SetPatients(map[], ids, fetched.value, local.stores, Loader(env));
      var results := new TsSearchResults.SearchResults(clients, Some(patients), Some({}));
      r := Ok(results);
    }

    /** `showUpcoming`: the first page of the visit-date cursor, the owners of
        its patients, and every other patient those owners list. */
    method ShowUpcoming(cursor: seq<(string, Doc)>, env: Env) returns (r: Result<TsSearchResults.SearchResults, string>)
      requires Valid()
      requires forall i :: 0 <= i < |cursor| ==> cursor[i].1 in local.stores["patients"].Values
      ensures (exists j :: 0 <= j < |FirstPage(cursor)| && !IsPatientDoc(FirstPage(cursor)[j])) ==> r.Err?
      ensures (exists j, k :: 0 <= j < |FirstPage(cursor)| && DocKey(FirstPage(cursor)[j]) == Some(k) &&
                              Owners(local.stores["clients"], k) == {}) ==> r.Err?
      ensures r.Ok? <==> UpcomingSucceeds(local.stores, cursor)
      ensures r.Ok? ==> fresh(r.value)
      ensures r.Ok? ==>
                var owners := OwnersOf(local.stores, UpcomingKeys(cursor)).value;
                && r.value.clientIDs == TsSearchResults.IdsOf(owners)
                && r.value.clientsIndex == TsSearchResults.IndexClients(owners)
                && forall id :: id in r.value.patients <==>
                     id.Some? && (id.value in UpcomingKeys(cursor) || exists i :: 0 <= i < |owners| && id.value in owners[i].pets)
      ensures r.Ok? ==> forall id :: id in r.value.matchedPatients <==>
                          exists j :: 0 <= j < |FirstPage(cursor)| && DocKey(FirstPage(cursor)[j]) == id
      ensures r.Ok? ==> forall id :: id in r.value.matchedPatients ==> id in r.value.patients
      ensures r.Ok? ==> forall id, p :: id in r.value.clientsIndex && p in r.value.clientsIndex[id].pets ==>
                          Some(p) in r.value.patients
      ensures r.Ok? ==> FromStore(local.stores, r.value.patients, env)
    {
      var found := UpcomingPatients(cursor, env);
      if found.Err? {
        return Err(found.error);
      }
      assert found.value.0 == UpcomingKeys(cursor);
      r := CompleteResults(found.value.0, found.value.1, env);
      assert r.Ok? <==> UpcomingSucceeds(local.stores, cursor);
      if r.Ok? {
        forall id
          ensures id in r.value.matchedPatients <==>
                  exists j :: 0 <= j < |FirstPage(cursor)| && DocKey(FirstPage(cursor)[j]) == id
        {
          if j :| 0 <= j < |FirstPage(cursor)| && DocKey(FirstPage(cursor)[j]) == id {
            assert id.value in found.value.0;
          }
        }
      }
    }

    /** The first half of `showUpcoming`: queries the first page of the
        cursor and deserialises every hit under its id. */
    method UpcomingPatients(cursor: seq<(string, Doc)>, env: Env)
      returns (r: Result<(seq<string>, map<TsSearchResults.Id, PatientState>), string>)
      requires Valid()
      requires forall i :: 0 <= i < |cursor| ==> cursor[i].1 in local.stores["patients"].Values
      ensures r.Err? <==> exists j :: 0 <= j < |FirstPage(cursor)| && !IsPatientDoc(FirstPage(cursor)[j])
      ensures r.Ok? ==> r.value.0 == Dedup(KeysOf(FirstPage(cursor)))
      ensures r.Ok? ==> forall k :: k in r.value.0 <==>
                          exists j :: 0 <= j < |FirstPage(cursor)| && DocKey(FirstPage(cursor)[j]) == Some(k)
      ensures r.Ok? ==> forall j :: 0 <= j < |FirstPage(cursor)| ==> DocKey(FirstPage(cursor)[j]).Some?
      ensures r.Ok? ==> forall k :: Some(k) in r.value.1 <==> k in r.value.0
      ensures r.Ok? ==> FromStore(local.stores, r.value.1, env)
    {
      var page := local.BoundedQuery(cursor, Some(Hopps.QueryOptions(Some(DefaultLimit), Some("next"))));
      var hits := page.value;
      assert hits == FirstPage(cursor);
      r := PatientsOnPage(hits, env);
    }

    /** The patients on the first page of the cursor, by key, and their
        keys in page order. */
    method PatientsOnPage(hits: seq<Doc>, env: Env)
      returns (r: Result<(seq<string>, map<TsSearchResults.Id, PatientState>), string>)
      requires Valid()
      requires forall j :: 0 <= j < |hits| ==> hits[j] in local.stores["patients"].Values
      ensures r.Err? <==> exists j :: 0 <= j < |hits| && !IsPatientDoc(hits[j])
      ensures r.Ok? ==> r.value.0 == Dedup(KeysOf(hits))
      ensures r.Ok? ==> forall k :: k in r.value.0 <==> exists j :: 0 <= j < |hits| && DocKey(hits[j]) == Some(k)
      ensures r.Ok? ==> forall j :: 0 <= j < |hits| ==> DocKey(hits[j]).Some?
      ensures r.Ok? ==> forall k :: Some(k) in r.value.1 <==> k in r.value.0
      ensures r.Ok? ==> FromStore(local.stores, r.value.1, env)
    {
      Keyed();
      ghost var keys := KeysOf(hits);
      StoredPatients(local.stores, hits);
      r := CollectHits(hits, Loader(env), keys, local.stores);
      PageLoads(hits, env);
      PageKeys(hits, keys);
    }

    /** The rest of `showUpcoming`: the owners of the matched patients and
        every other patient those owners list. */
    method CompleteResults(matched: seq<string>, patients: map<TsSearchResults.Id, PatientState>, env: Env)
      returns (r: Result<TsSearchResults.SearchResults, string>)
      requires Valid() && FromStore(local.stores, patients, env)
      requires forall k :: Some(k) in patients <==> k in matched
      ensures (exists k :: k in matched && Owners(local.stores["clients"], k) == {}) ==> r.Err?
      ensures r.Ok? <==> OwnersOf(local.stores, matched).Ok? && PetsFetchable(local.stores, OwnersOf(local.stores, matched).value)
      ensures r.Ok? ==> fresh(r.value)
      ensures r.Ok? ==>
                var owners := OwnersOf(local.stores, matched).value;
                && r.value.clientIDs == TsSearchResults.IdsOf(owners)
                && r.value.clientsIndex == TsSearchResults.IndexClients(owners)
                && forall id :: id in r.value.patients <==>
                     id.Some? && (id.value in matched || exists i :: 0 <= i < |owners| && id.value in owners[i].pets)
      ensures r.Ok? ==> r.value.matchedPatients == set k | k in matched :: Some(k)
      ensures r.Ok? ==> forall id :: id in r.value.matchedPatients ==> id in r.value.patients
      ensures r.Ok? ==> forall id, p :: id in r.value.clientsIndex && p in r.value.clientsIndex[id].pets ==>
                          Some(p) in r.value.patients
      ensures r.Ok? ==> FromStore(local.stores, r.value.patients, env)
    {
      var owners := GetOwners(matched);
      if owners.Err? {
        return Err(owners.error);
      }
      OwnersOfOk(local.stores, matched);
      r := ResultsOfOwners(owners.value, matched, patients, env);
    }

    /** The owners found, with every patient they list: the matched ones
        already loaded and the others fetched. */
    method ResultsOfOwners(owners: seq<ClientState>, matched: seq<string>,
                           patients: map<TsSearchResults.Id, PatientState>, env: Env)
      returns (r: Result<TsSearchResults.SearchResults, string>)
      requires Valid() && FromStore(local.stores, patients, env)
      requires forall k :: Some(k) in patients <==> k in matched
      ensures r.Ok? <==> PetsFetchable(local.stores, owners)
      ensures r.Ok? ==> fresh(r.value)
      ensures r.Ok? ==>
                && r.value.clientIDs == TsSearchResults.IdsOf(owners)
                && r.value.clientsIndex == TsSearchResults.IndexClients(owners)
                && forall id :: id in r.value.patients <==>
                     id.Some? && (id.value in matched || exists i :: 0 <= i < |owners| && id.value in owners[i].pets)
      ensures r.Ok? ==> r.value.matchedPatients == set k | k in matched :: Some(k)
      ensures r.Ok? ==> forall id :: id in r.value.matchedPatients ==> id in r.value.patients
      ensures r.Ok? ==> forall id, p :: id in r.value.clientsIndex && p in r.value.clientsIndex[id].pets ==>
                          Some(p) in r.value.patients
      ensures r.Ok? ==> FromStore(local.stores, r.value.patients, env)
    {
      var all := AddMissingPatients(owners, matched, patients, env);
      if all.Err? {
        return Err(all.error);
      }
      var results := new TsSearchResults.SearchResults(owners, Some(all.value), Some(set k | k in matched :: Some(k)));
      TsSearchResults.IndexClientsSpec(owners);
      r := Ok(results);
    }

    /** The patients the owners list that were not matched, fetched and
        added to `patients`. */
    method AddMissingPatients(owners: seq<ClientState>, matched: seq<string>,
                              patients: map<TsSearchResults.Id, PatientState>, env: Env)
      returns (r: Result<map<TsSearchResults.Id, PatientState>, string>)
      requires Valid() && FromStore(local.stores, patients, env)
      requires forall k :: k in matched ==> Some(k) in patients
      ensures r.Ok? <==> PetsFetchable(local.stores, owners)
      ensures r.Ok? ==> FromStore(local.stores, r.value, env)
      ensures r.Ok? ==> forall id :: id in r.value <==>
                          id in patients || (id.Some? && exists i :: 0 <= i < |owners| && id.value in owners[i].pets)
    {
      var missing := PetsNotIn(owners, matched);
      var fetched := GetPatients(missing, env);
      MissingFetchable(local.stores, owners, matched, missing, patients, env);
      if fetched.Err? {
        return Err(fetched.error);
      }
      var all := SetPatients(patients, missing, fetched.value, local.stores, Loader(env));
      r := Ok(all);
    }

    /** `fullTextSearch`: posts the query, then fetches the first page of
        matching clients with their patients. */
    method FullTextSearch(query: string, hits: seq<string>, env: Env) returns (r: Result<TsSearchResults.SearchResults, string>)
      requires Valid()
      modifies text
      ensures Valid()
      ensures text.PostedSince(old(text.sent), old(text.pending), [Request("search", [QueryArg(query)])])
      ensures r.Ok? <==> SearchSucceeds(local.stores, hits)
      ensures r.Ok? ==> fresh(r.value) && r.value.matchedPatients == {}
      ensures r.Ok? ==>
                var clients := ClientsOf(local.stores, Refs(hits)).value;
                && r.value.clientIDs == TsSearchResults.IdsOf(clients)
                && r.value.clientsIndex == TsSearchResults.IndexClients(clients)
                && forall id :: id in r.value.patients <==>
                     id.Some? && exists i :: 0 <= i < |clients| && id.value in clients[i].pets
      ensures r.Ok? ==> |r.value.clientIDs| == |Refs(hits)| &&
                        forall i :: 0 <= i < |Refs(hits)| ==> r.value.clientIDs[i] == Some(Refs(hits)[i])
      ensures r.Ok? ==> forall id, p :: id in r.value.clientsIndex && p in r.value.clientsIndex[id].pets ==>
                          Some(p) in r.value.patients
      ensures r.Ok? ==> FromStore(local.stores, r.value.patients, env)
    {
      var _ := text.Search(query);
      var refs := Refs(hits);
      var clients := GetClients(refs);
      if clients.Err? {
        return Err(clients.error);
      }
      Keyed();
      forall i | 0 <= i < |refs|
        ensures clients.value[i].id == Some(refs[i])
      {
        assert DocKey(local.stores["clients"][refs[i]]) == Some(refs[i]);
      }
      r := PopulateResultsFromClients(clients.value, env);
      if r.Ok? {
        TsSearchResults.IndexClientsSpec(clients.value);
      }
    }

    /** `search`: an empty query or `upcoming` shows the upcoming visits,
        any other query is a full-text search. */
    method Search(query: string, cursor: seq<(string, Doc)>, hits: seq<string>, env: Env)
      returns (r: Result<TsSearchResults.SearchResults, string>)
      requires Valid()
      requires forall i :: 0 <= i < |cursor| ==> cursor[i].1 in local.stores["patients"].Values
      modifies text
      ensures Valid()
      ensures (query == "" || query == "upcoming") ==>
                && text.PostedSince(old(text.sent), old(text.pending), [])
                && (r.Ok? <==> UpcomingSucceeds(local.stores, cursor))
                && (r.Ok? ==> r.value.clientIDs == TsSearchResults.IdsOf(OwnersOf(local.stores, UpcomingKeys(cursor)).value))
                && (r.Ok? ==> forall id :: id in r.value.matchedPatients <==>
                                exists j :: 0 <= j < |FirstPage(cursor)| && DocKey(FirstPage(cursor)[j]) == id)
      ensures !(query == "" || query == "upcoming") ==>
                && text.PostedSince(old(text.sent), old(text.pending), [Request("search", [QueryArg(query)])])
                && (r.Ok? <==> SearchSucceeds(local.stores, hits))
                && (r.Ok? ==> r.value.clientIDs == TsSearchResults.IdsOf(ClientsOf(local.stores, Refs(hits)).value))
                && (r.Ok? ==> r.value.matchedPatients == {})
    {
      if query == "" || query == "upcoming" {
        r := ShowUpcoming(cursor, env);
        PostedNothing(text.sent, text.pending);
      } else {
        r := FullTextSearch(query, hits, env);
      }
    }

    /** One patient of `importData`: typed, stripped of its id, its visits
        given fresh ids and emptied task lists, then deserialised and saved
        under a fresh id.  A record without visits fails. */
    method ImportPatient(raw: RawPatient, i: nat, ids: ImportIDs, env: Env) returns (r: Result<string, string>)
      requires Valid()
      modifies local, text
      ensures Valid()
      ensures raw.visits.None? ==> r.Err? && local.stores == old(local.stores)
      ensures raw.visits.Some? ==>
        var doc := ImportedPatientDoc(raw, i, ids, env);
        && (r.Ok? <==> !env.writeFails(doc))
        && (r.Ok? ==> r.value == ids.patient(i) && local.stores == WithPatient(old(local.stores), ids.patient(i), doc))
        && (r.Err? ==> local.stores == old(local.stores))
      ensures batchMode > 0 ==> unchanged(text)
    {
      var data := ImportedPatient(raw, i, ids);
      if data.None? {
        return Err("TypeError: rawPatient.visits is undefined");
      }
      var patient := TsPatient.Patient.Deserialize(data.value, env.parse, env.now, env.addSixMonths);
      ghost var s0 := patient.value.State();
      assert SavedState(s0, ids.patient(i), env) == s0.(id := Some(ids.patient(i)));
      r := UpdatePatient(patient.value, None, ids.patient(i), env);
    }

    /** One client of `importData` as intended: typed, stripped of its id,
        its pets renamed to the imported patients' new ids, then saved under
        a fresh id.  A record without pets or phone numbers fails. */
    method ImportClient(raw: RawClient, idMap: map<string, string>, newID: string, env: Env)
      returns (r: Result<string, string>)
      requires Valid()
      modifies local, text
      ensures Valid()
      ensures ImportedClient(raw, idMap).None? ==> r.Err? && local.stores == old(local.stores)
      ensures ImportedClient(raw, idMap).Some? ==>
        var doc := ImportedClientDoc(raw, idMap, newID);
        && (r.Ok? <==> !env.writeFails(doc))
        && (r.Ok? ==> r.value == newID &&
                      local.stores == old(local.stores)["clients" := old(local.stores)["clients"][newID := doc]])
        && (r.Err? ==> local.stores == old(local.stores))
      ensures batchMode > 0 ==> unchanged(text)
    {
      var data := ImportedClient(raw, idMap);
      if data.None? {
        return Err("TypeError: rawClient.pets or rawClient.phone is undefined");
      }
      var client := TsClient.Client.Deserialize(data.value);
      r := UpdateClient(client.value, newID, env);
    }

    /** One client of `importData` as written: `deserialize` reads `id`, not
        the `_id` the import clears, so the client keeps its export id, is
        not dirty, and `updateClient` returns that id without writing; a
        record without an id comes back undefined (`None`), unwritten too. */
    method ImportClientAsWritten(raw: RawClient, idMap: map<string, string>, newID: string, env: Env)
      returns (r: Result<Option<string>, string>)
      requires Valid()
      modifies local, text
      ensures Valid()
      ensures local.stores == old(local.stores)
      ensures ImportedClient(raw, idMap).None? ==> r.Err?
      ensures ImportedClient(raw, idMap).Some? ==> r == Ok(raw.id)
    {
      var data := ImportedClientAsWritten(raw, idMap);
      if data.None? {
        return Err("TypeError: rawClient.pets or rawClient.phone is undefined");
      }
      var client := TsClient.Client.Deserialize(data.value);
      if client.value.id.None? {
        // An export record without an id: `_id` is undefined, which is not
        // null, so `updateClient` returns it without writing.
        return Ok(None);
      }
      var id := UpdateClientAsWritten(client.value, newID, env);
      r := Ok(Some(id.value));
    }

    /** `importData`: in one batch, imports every patient, remembering each
        export id's new id, then every client with its pets renamed; a record
        that fails is skipped.  No message reaches the worker until the batch
        closes, and then the index is rebuilt.  The per-record outcomes are
        returned. */
    method ImportData(patients: seq<RawPatient>, clients: seq<RawClient>, ids: ImportIDs, env: Env)
      returns (idMap: map<string, string>, patientResults: seq<Result<string, string>>,
               clientResults: seq<Result<string, string>>)
      requires Valid()
      modifies this, local, text
      ensures Valid() && batchMode == old(batchMode)
      ensures |patientResults| == |patients| && |clientResults| == |clients|
      ensures forall i :: 0 <= i < |patients| ==> (patientResults[i].Ok? <==> PatientImports(patients[i], i, ids, env))
      ensures forall i :: 0 <= i < |patients| && patientResults[i].Ok? ==> patientResults[i].value == ids.patient(i)
      ensures forall k :: k in idMap <==> exists i :: 0 <= i < |patients| && patientResults[i].Ok? && patients[i].id == k
      ensures forall k :: k in idMap ==> exists i :: 0 <= i < |patients| && patientResults[i] == Ok(idMap[k]) && patients[i].id == k
      ensures forall i :: 0 <= i < |clients| ==>
                (clientResults[i].Ok? <==> ClientImports(clients[i], idMap, ids.client(i), env))
      ensures forall i :: 0 <= i < |clients| && clientResults[i].Ok? ==> clientResults[i].value == ids.client(i)
      ensures local.stores == ImportedStores(old(local.stores), patients, clients, idMap, ids, env)
      ensures text.PostedSince(old(text.sent), old(text.pending), Reindex(local.stores, env).requests)
    {
      EnterBatchMode();
      idMap, patientResults := ImportPatients(patients, ids, env);
      clientResults := ImportClients(clients, idMap, ids, env);
      ghost var sent, pending := text.sent, text.pending;
      var _ := ExitBatchMode(env);
      assert sent == old(text.sent) && pending == old(text.pending);
    }

    /** Patient `i` of the patients loop, filed on top of the records
        before it. */
    method ImportPatientAt(patients: seq<RawPatient>, i: nat, ids: ImportIDs, env: Env,
                           ghost stores: map<string, map<string, Doc>>, ghost docs: seq<Option<Doc>>)
      returns (r: Result<string, string>)
      requires Valid() && i < |patients| && "patients" in stores
      requires docs == PatientImportDocs(patients, ids, env)
      requires local.stores == stores["patients" := Imported(stores["patients"], ids.patient, docs[..i])]
      modifies local, text
      ensures Valid()
      ensures r.Ok? <==> docs[i].Some?
      ensures r.Ok? ==> r.value == ids.patient(i)
      ensures local.stores == stores["patients" := Imported(stores["patients"], ids.patient, docs[..i + 1])]
      ensures batchMode > 0 ==> unchanged(text)
    {
      ghost var before := Imported(stores["patients"], ids.patient, docs[..i]);
      r := ImportPatient(patients[i], i, ids, env);
      assert docs[..i + 1] == docs[..i] + [docs[i]];
      ImportedSnoc(stores["patients"], ids.patient, docs[..i], docs[i]);
      if r.Ok? {
        StoreReplaced(stores, "patients", before, before[ids.patient(i) := docs[i].value]);
      }
    }

    /** The patients loop of `importData`. */
    method ImportPatients(patients: seq<RawPatient>, ids: ImportIDs, env: Env)
      returns (idMap: map<string, string>, results: seq<Result<string, string>>)
      requires Valid()
      modifies local, text
      ensures Valid()
      ensures |results| == |patients|
      ensures forall i :: 0 <= i < |patients| ==> (results[i].Ok? <==> PatientImports(patients[i], i, ids, env))
      ensures forall i :: 0 <= i < |patients| && results[i].Ok? ==> results[i].value == ids.patient(i)
      ensures forall k :: k in idMap <==> exists i :: 0 <= i < |patients| && results[i].Ok? && patients[i].id == k
      ensures forall k :: k in idMap ==> exists i :: 0 <= i < |patients| && results[i] == Ok(idMap[k]) && patients[i].id == k
      ensures local.stores == old(local.stores)["patients" :=
                Imported(old(local.stores)["patients"], ids.patient, PatientImportDocs(patients, ids, env))]
      ensures batchMode > 0 ==> unchanged(text)
    {
      idMap := map[];
      results := [];
      ghost var docs := PatientImportDocs(patients, ids, env);
      ghost var store := local.stores["patients"];
      for i := 0 to |patients|
        invariant Valid()
        invariant |results| == i
        invariant Outcomes(results, docs, ids.patient)
        invariant idMap == NewIds(patients, results)
        invariant local.stores == old(local.stores)["patients" := Imported(store, ids.patient, docs[..i])]
        invariant batchMode > 0 ==> unchanged(text)
      {
        var r := ImportPatientAt(patients, i, ids, env, old(local.stores), docs);
        OutcomesSnoc(results, docs, ids.patient, r);
        NewIdsSnoc(patients, results, r);
        results := results + [r];
        if r.Ok? {
          idMap := idMap[patients[i].id := r.value];
        }
      }
      assert docs[..|patients|] == docs;
      NewIdsSpec(patients, results);
    }

    /** Client `i` of the clients loop, filed on top of the records
        before it. */
    method ImportClientAt(clients: seq<RawClient>, i: nat, idMap: map<string, string>, ids: ImportIDs, env: Env,
                          ghost stores: map<string, map<string, Doc>>, ghost docs: seq<Option<Doc>>)
      returns (r: Result<string, string>)
      requires Valid() && i < |clients| && "clients" in stores
      requires docs == ClientImportDocs(clients, idMap, ids, env)
      requires local.stores == stores["clients" := Imported(stores["clients"], ids.client, docs[..i])]
      modifies local, text
      ensures Valid()
      ensures r.Ok? <==> docs[i].Some?
      ensures r.Ok? ==> r.value == ids.client(i)
      ensures local.stores == stores["clients" := Imported(stores["clients"], ids.client, docs[..i + 1])]
      ensures batchMode > 0 ==> unchanged(text)
    {
      ghost var before := Imported(stores["clients"], ids.client, docs[..i]);
      r := ImportClient(clients[i], idMap, ids.client(i), env);
      assert docs[..i + 1] == docs[..i] + [docs[i]];
      ImportedSnoc(stores["clients"], ids.client, docs[..i], docs[i]);
      if r.Ok? {
        StoreReplaced(stores, "clients", before, before[ids.client(i) := docs[i].value]);
      }
    }

    /** The clients loop of `importData`. */
    method ImportClients(clients: seq<RawClient>, idMap: map<string, string>, ids: ImportIDs, env: Env)
      returns (results: seq<Result<string, string>>)
      requires Valid()
      modifies local, text
      ensures Valid()
      ensures |results| == |clients|
      ensures forall i :: 0 <= i < |clients| ==> (results[i].Ok? <==> ClientImports(clients[i], idMap, ids.client(i), env))
      ensures forall i :: 0 <= i < |clients| && results[i].Ok? ==> results[i].value == ids.client(i)
      ensures local.stores == old(local.stores)["clients" :=
                Imported(old(local.stores)["clients"], ids.client, ClientImportDocs(clients, idMap, ids, env))]
      ensures batchMode > 0 ==> unchanged(text)
    {
      results := [];
      ghost var docs := ClientImportDocs(clients, idMap, ids, env);
      ghost var store := local.stores["clients"];
      for i := 0 to |clients|
        invariant Valid()
        invariant |results| == i
        invariant Outcomes(results, docs, ids.client)
        invariant local.stores == old(local.stores)["clients" := Imported(store, ids.client, docs[..i])]
        invariant batchMode > 0 ==> unchanged(text)
      {
        var r := ImportClientAt(clients, i, idMap, ids, env, old(local.stores), docs);
        OutcomesSnoc(results, docs, ids.client, r);
        results := results + [r];
      }
      assert docs[..|clients|] == docs;
    }
  }

  // ---------------------------------------------------------------------
  // What a run of writes leaves in one store.

  /** `store` after each write in turn, a write being a key and the
      document put under it; a later write under a key replaces an
      earlier one. */
  function Filed(store: map<string, Doc>, writes: seq<(string, Doc)>): map<string, Doc>
    decreases |writes|
  {
    if writes == [] then store
    else
      var n := |writes| - 1;
      Filed(store, writes[..n])[writes[n].0 := writes[n].1]
  }

  /** One more write. */
  lemma FiledSnoc(store: map<string, Doc>, writes: seq<(string, Doc)>, w: (string, Doc))
    ensures Filed(store, writes + [w]) == Filed(store, writes)[w.0 := w.1]
  {
    assert (writes + [w])[..|writes|] == writes;
  }

  /** Some write is under `k`. */
  predicate WritesKey(writes: seq<(string, Doc)>, k: string)
  {
    exists j :: 0 <= j < |writes| && writes[j].0 == k
  }

  /** Write `j` is the last one under `k`. */
  predicate LastWriteAt(writes: seq<(string, Doc)>, k: string, j: int)
  {
    0 <= j < |writes| && writes[j].0 == k && forall l :: j < l < |writes| ==> writes[l].0 != k
  }

  /** After a run of writes a key is present iff it was before or was
      written; a key nothing was written under keeps its document, and a
      written key holds the document of its last write. */
  lemma {:induction false} FiledSpec(store: map<string, Doc>, writes: seq<(string, Doc)>, k: string)
    ensures k in Filed(store, writes) <==> k in store || WritesKey(writes, k)
    ensures !WritesKey(writes, k) && k in store ==> Filed(store, writes)[k] == store[k]
    ensures WritesKey(writes, k) ==>
              exists j :: LastWriteAt(writes, k, j) && k in Filed(store, writes) && Filed(store, writes)[k] == writes[j].1
    decreases |writes|
  {
    if writes != [] {
      var n := |writes| - 1;
      var init := writes[..n];
      FiledSpec(store, init, k);
      var f0 := Filed(store, init);
      assert Filed(store, writes) == f0[writes[n].0 := writes[n].1];
      if writes[n].0 == k {
        assert LastWriteAt(writes, k, n);
      } else {
        if WritesKey(writes, k) {
          var j :| 0 <= j < |writes| && writes[j].0 == k;
          assert init[j].0 == k;
          var j' :| LastWriteAt(init, k, j') && k in f0 && f0[k] == init[j'].1;
          assert LastWriteAt(writes, k, j');
        }
        if WritesKey(init, k) {
          var j :| 0 <= j < n && init[j].0 == k;
          assert writes[j].0 == k;
        }
      }
    }
  }

  /** The document `updatePatient` writes back for an owner: the client
      after `addPet` of the patient, which also marks it dirty. */
  function OwnerDoc(owner: ClientState, pid: string): (d: Doc)
    ensures DocKey(d) == owner.id
  {
    ClientDoc(TsClient.ClientDataOf(owner.(pets := AddLast(owner.pets, pid), dirty := true)))
  }

  /** The write back of `owner` fails. */
  predicate OwnerWriteFails(env: Env, owner: ClientState, pid: string)
  {
    env.writeFails(OwnerDoc(owner, pid))
  }

  /** None of the first `n` owners' write backs fails. */
  predicate NoOwnerWriteFails(env: Env, owners: seq<ClientState>, pid: string, n: nat)
  {
    forall j :: 0 <= j < n && j < |owners| ==> !OwnerWriteFails(env, owners[j], pid)
  }

  /** One more owner written back. */
  lemma NoOwnerWriteFailsStep(env: Env, owners: seq<ClientState>, pid: string, i: nat)
    requires NoOwnerWriteFails(env, owners, pid, i) && i < |owners| && !OwnerWriteFails(env, owners[i], pid)
    ensures NoOwnerWriteFails(env, owners, pid, i + 1)
  {
  }

  /** The owner written back is the same client, listing the patient
      besides its other pets. */
  lemma OwnerDocSpec(owner: ClientState, pid: string)
    ensures var d := OwnerDoc(owner, pid);
      && d.ClientDoc? && d.client.kind == "client" && d.client.id == owner.id
      && d.client.name == Some(owner.name) && d.client.address == Some(owner.address)
      && d.client.note == Some(owner.note)
      && forall p :: Owns(d, p) <==> p == pid || p in owner.pets
  {
  }

  /** The writes of `updatePatient`'s owner loop, in order: each owner's
      document under the id it was fetched by. */
  function OwnerWrites(ids: seq<string>, owners: seq<ClientState>, pid: string): seq<(string, Doc)>
    requires |owners| == |ids|
  {
    seq(|ids|, j requires 0 <= j < |ids| => (ids[j], OwnerDoc(owners[j], pid)))
  }

  /** One more write of a run, applied to the clients store. */
  lemma OwnerWriteStep(stores: map<string, map<string, Doc>>, clients: map<string, Doc>, writes: seq<(string, Doc)>,
                       i: nat, after: map<string, map<string, Doc>>)
    requires i < |writes|
    requires after == stores["clients" := Filed(clients, writes[..i])]["clients" :=
                        Filed(clients, writes[..i])[writes[i].0 := writes[i].1]]
    ensures after == stores["clients" := Filed(clients, writes[..i + 1])]
  {
    assert writes[..i + 1] == writes[..i] + [writes[i]];
    FiledSnoc(clients, writes[..i], writes[i]);
  }

  /** After the owner loop every owner lists the patient. */
  lemma OwnersOwn(store: map<string, Doc>, ids: seq<string>, owners: seq<ClientState>, pid: string)
    requires |owners| == |ids|
    ensures forall j :: 0 <= j < |ids| ==>
              ids[j] in Filed(store, OwnerWrites(ids, owners, pid)) && Owns(Filed(store, OwnerWrites(ids, owners, pid))[ids[j]], pid)
  {
    var w := OwnerWrites(ids, owners, pid);
    forall j | 0 <= j < |ids|
      ensures ids[j] in Filed(store, w) && Owns(Filed(store, w)[ids[j]], pid)
    {
      assert w[j].0 == ids[j];
      FiledSpec(store, w, ids[j]);
      var l :| LastWriteAt(w, ids[j], l) && ids[j] in Filed(store, w) && Filed(store, w)[ids[j]] == w[l].1;
      assert w[l].1 == OwnerDoc(owners[l], pid);
      OwnerDocSpec(owners[l], pid);
    }
  }

  /** The patient `updatePatient` writes: given the id it is saved under,
      with the due dates `serialize` recomputes from its visits. */
  function SavedState(s: TsPatient.PatientState, id: string, env: Env): TsPatient.PatientState
  {
    s.(id := Some(id), due := TsPatient.DueDates(s.visits, env.now, env.addSixMonths))
  }

  /** Replacing a store twice keeps the second. */
  lemma StoreReplaced(stores: map<string, map<string, Doc>>, name: string, first: map<string, Doc>, second: map<string, Doc>)
    ensures stores[name := first][name := second] == stores[name := second]
  {
  }

  /** The stores after `put` of a patient document under its id. */
  function WithPatient(stores: map<string, map<string, Doc>>, pid: string, doc: Doc): map<string, map<string, Doc>>
    requires "patients" in stores
  {
    stores["patients" := stores["patients"][pid := doc]]
  }

  /** `getClients` finds every new owner and each owner's write back
      succeeds. */
  predicate LinkSucceeds(stores: map<string, map<string, Doc>>, ids: seq<string>, pid: string, env: Env)
  {
    && ClientsOf(stores, ids).Ok?
    && forall j :: 0 <= j < |ids| ==> !OwnerWriteFails(env, ClientsOf(stores, ids).value[j], pid)
  }

  /** The stores after every new owner was written back with the patient
      added. */
  function LinkedStores(stores: map<string, map<string, Doc>>, ids: seq<string>, pid: string)
    : map<string, map<string, Doc>>
    requires ClientsOf(stores, ids).Ok?
  {
    stores["clients" := Filed(stores["clients"], OwnerWrites(ids, ClientsOf(stores, ids).value, pid))]
  }

  /** Every write of `updatePatient` succeeds: the patient document, then,
      when owners are to be added, the lookup of the owners and each
      owner's write. */
  predicate SaveSucceeds(stores: map<string, map<string, Doc>>, pid: string, doc: Doc,
                         addOwners: Option<seq<string>>, env: Env)
    requires "patients" in stores
  {
    && !env.writeFails(doc)
    && (addOwners.Some? ==> LinkSucceeds(WithPatient(stores, pid, doc), addOwners.value, pid, env))
  }

  /** The stores after every write of `updatePatient` succeeded. */
  function SavedStores(stores: map<string, map<string, Doc>>, pid: string, doc: Doc,
                       addOwners: Option<seq<string>>, env: Env): map<string, map<string, Doc>>
    requires "patients" in stores && SaveSucceeds(stores, pid, doc, addOwners, env)
  {
    if addOwners.None? then WithPatient(stores, pid, doc)
    else LinkedStores(WithPatient(stores, pid, doc), addOwners.value, pid)
  }

  /** Linking the owners makes every new owner the client read back from
      the store with the patient added to its pets, keeps every other
      client, and adds no client. */
  lemma LinkedStoresSpec(stores: map<string, map<string, Doc>>, ids: seq<string>, pid: string, k: string)
    requires ClientsOf(stores, ids).Ok?
    ensures LinkedStores(stores, ids, pid).Keys == stores.Keys
    ensures forall n :: n in stores && n != "clients" ==> LinkedStores(stores, ids, pid)[n] == stores[n]
    ensures k in LinkedStores(stores, ids, pid)["clients"] <==> k in stores["clients"]
    ensures k in ids ==> && DeserializeClient(stores["clients"][k]).Ok?
                         && LinkedStores(stores, ids, pid)["clients"][k] ==
                            OwnerDoc(DeserializeClient(stores["clients"][k]).value, pid)
    ensures k in stores["clients"] && k !in ids ==> LinkedStores(stores, ids, pid)["clients"][k] == stores["clients"][k]
  {
    var owners := ClientsOf(stores, ids).value;
    var w := OwnerWrites(ids, owners, pid);
    FiledSpec(stores["clients"], w, k);
    if WritesKey(w, k) {
      var j :| 0 <= j < |w| && w[j].0 == k;
      assert ids[j] in stores["clients"];
      var l :| LastWriteAt(w, k, l) && Filed(stores["clients"], w)[k] == w[l].1;
      assert DeserializeClient(stores["clients"][ids[l]]) == Ok(owners[l]);
    }
    if k in ids {
      var i :| 0 <= i < |ids| && ids[i] == k;
      assert w[i].0 == k;
    }
  }

  /** Saving a patient files it under its id and keeps every other
      patient; every new owner becomes the client read back from the store
      with the patient added to its pets, every other client is kept, and
      no client is added. */
  lemma SavedStoresSpec(stores: map<string, map<string, Doc>>, pid: string, doc: Doc,
                        addOwners: Option<seq<string>>, env: Env, k: string)
    requires "patients" in stores && "clients" in stores && SaveSucceeds(stores, pid, doc, addOwners, env)
    ensures SavedStores(stores, pid, doc, addOwners, env).Keys == stores.Keys
    ensures pid in SavedStores(stores, pid, doc, addOwners, env)["patients"]
    ensures SavedStores(stores, pid, doc, addOwners, env)["patients"] == stores["patients"][pid := doc]
    ensures addOwners.None? ==> SavedStores(stores, pid, doc, addOwners, env)["clients"] == stores["clients"]
    ensures addOwners.Some? ==>
      var c := SavedStores(stores, pid, doc, addOwners, env)["clients"];
      && (k in c <==> k in stores["clients"])
      && (k in addOwners.value ==> && DeserializeClient(stores["clients"][k]).Ok?
                                   && c[k] == OwnerDoc(DeserializeClient(stores["clients"][k]).value, pid)
                                   && forall p :: Owns(c[k], p) <==> p == pid || Owns(stores["clients"][k], p))
      && (k in stores["clients"] && k !in addOwners.value ==> c[k] == stores["clients"][k])
  {
    if addOwners.Some? {
      LinkedStoresSpec(WithPatient(stores, pid, doc), addOwners.value, pid, k);
      if k in addOwners.value {
        OwnerDocSpec(DeserializeClient(stores["clients"][k]).value, pid);
      }
    }
  }

  // ---------------------------------------------------------------------
  // Assembling search results.

  /** Every patient the clients list is in the patients store. */
  predicate PetsFetchable(stores: map<string, map<string, Doc>>, clients: seq<ClientState>)
  {
    forall i, p :: 0 <= i < |clients| && p in clients[i].pets ==> Fetchable(stores, p)
  }

  /** Fetching the distinct pets of the clients succeeds exactly when every
      pet is stored. */
  lemma FetchableIds(stores: map<string, map<string, Doc>>, clients: seq<ClientState>, ids: seq<string>)
    requires forall p :: p in ids <==> p !in [] && exists i :: 0 <= i < |clients| && p in clients[i].pets
    ensures PetsFetchable(stores, clients) <==> forall k :: 0 <= k < |ids| ==> Fetchable(stores, ids[k])
  {
    if !PetsFetchable(stores, clients) {
      var i, p :| 0 <= i < |clients| && p in clients[i].pets && !Fetchable(stores, p);
      assert p in ids;
      var k :| 0 <= k < |ids| && ids[k] == p;
    } else {
      forall k | 0 <= k < |ids|
        ensures Fetchable(stores, ids[k])
      {
        assert ids[k] in ids;
      }
    }
  }

  /** The owners' pets are all stored exactly when the ones not already
      loaded are: a loaded patient is stored. */
  lemma MissingFetchable(stores: map<string, map<string, Doc>>, clients: seq<ClientState>, matched: seq<string>,
                         missing: seq<string>, patients: map<TsSearchResults.Id, PatientState>, env: Env)
    requires FromStore(stores, patients, env) && "patients" in stores
    requires forall k :: k in matched ==> Some(k) in patients
    requires forall p :: p in missing <==> p !in matched && exists i :: 0 <= i < |clients| && p in clients[i].pets
    ensures PetsFetchable(stores, clients) <==> forall k :: 0 <= k < |missing| ==> Fetchable(stores, missing[k])
  {
    if !PetsFetchable(stores, clients) {
      var i, p :| 0 <= i < |clients| && p in clients[i].pets && !Fetchable(stores, p);
      FromStoreFetchable(stores, patients, env);
      var k :| 0 <= k < |missing| && missing[k] == p;
    } else {
      forall k | 0 <= k < |missing|
        ensures Fetchable(stores, missing[k])
      {
        assert missing[k] in missing;
      }
    }
  }

  /** Every patient loaded from the store is stored as a patient. */
  lemma FromStoreFetchable(stores: map<string, map<string, Doc>>, patients: map<TsSearchResults.Id, PatientState>, env: Env)
    requires FromStore(stores, patients, env)
    ensures forall k :: Some(k) in patients ==> Fetchable(stores, k)
  {
    forall k | Some(k) in patients
      ensures Fetchable(stores, k)
    {
      assert DeserializePatient(stores["patients"][k], env).Ok?;
    }
  }

  /** Every document of every store sits under its own id. */
  ghost predicate KeyedStores(stores: map<string, map<string, Doc>>)
  {
    forall n, k :: n in stores && k in stores[n] ==> DocKey(stores[n][k]) == Some(k)
  }

  /** Every entry of `patients` is the stored patient under its id, deserialised. */
  ghost predicate FromStore(stores: map<string, map<string, Doc>>, patients: map<TsSearchResults.Id, PatientState>, env: Env)
  {
    Loaded(stores, patients, Loader(env))
  }

  /** In stores where every document sits under its own id, a patient taken
      from the store carries the id it is filed under. */
  lemma FromStoreIds(stores: map<string, map<string, Doc>>, patients: map<TsSearchResults.Id, PatientState>, env: Env)
    requires KeyedStores(stores) && FromStore(stores, patients, env)
    ensures forall id :: id in patients ==> patients[id].id == id
  {
    forall id | id in patients
      ensures patients[id].id == id
    {
      assert DeserializePatient(stores["patients"][id.value], env) == Ok(patients[id]);
      assert DocKey(stores["patients"][id.value]) == id;
    }
  }


  /** In stores where every document sits under its own id, documents
      taken from the patients store sit under their keys. */
  lemma StoredPatients(stores: map<string, map<string, Doc>>, docs: seq<Doc>)
    requires KeyedStores(stores) && "patients" in stores
    requires forall j :: 0 <= j < |docs| ==> docs[j] in stores["patients"].Values
    ensures forall j :: 0 <= j < |docs| ==> DocKey(docs[j]) == Some(KeysOf(docs)[j])
    ensures forall j :: 0 <= j < |docs| ==>
              KeysOf(docs)[j] in stores["patients"] && stores["patients"][KeysOf(docs)[j]] == docs[j]
  {
    forall j | 0 <= j < |docs|
      ensures DocKey(docs[j]) == Some(KeysOf(docs)[j])
      ensures KeysOf(docs)[j] in stores["patients"] && stores["patients"][KeysOf(docs)[j]] == docs[j]
    {
      assert docs[j] in stores["patients"].Values;
      var k :| k in stores["patients"] && stores["patients"][k] == docs[j];
      assert DocKey(stores["patients"][k]) == Some(k);
    }
  }

  /** The first page of `showUpcoming`'s cursor. */
  function FirstPage(cursor: seq<(string, Doc)>): seq<Doc>
  {
    Hopps.Values(cursor[..if |cursor| <= DefaultLimit then |cursor| else DefaultLimit])
  }

  /** The ids of the patients on the first page of the cursor, each once,
      in page order. */
  function UpcomingKeys(cursor: seq<(string, Doc)>): seq<string>
  {
    Dedup(KeysOf(FirstPage(cursor)))
  }

  /** `showUpcoming` succeeds: every document on the first page is a
      patient, every such patient has an owner, and every pet of the owners
      is stored. */
  predicate UpcomingSucceeds(stores: map<string, map<string, Doc>>, cursor: seq<(string, Doc)>)
  {
    && (forall j :: 0 <= j < |FirstPage(cursor)| ==> IsPatientDoc(FirstPage(cursor)[j]))
    && OwnersOf(stores, UpcomingKeys(cursor)).Ok?
    && PetsFetchable(stores, OwnersOf(stores, UpcomingKeys(cursor)).value)
  }

  /** `fullTextSearch` succeeds: every client on the first page of hits is
      stored, and so is every pet of theirs. */
  predicate SearchSucceeds(stores: map<string, map<string, Doc>>, hits: seq<string>)
  {
    ClientsOf(stores, Refs(hits)).Ok? && PetsFetchable(stores, ClientsOf(stores, Refs(hits)).value)
  }

  /** The first page of full-text hits. */
  function Refs(hits: seq<string>): seq<string>
  {
    hits[..if |hits| <= DefaultLimit then |hits| else DefaultLimit]
  }

  /** `getOwners` succeeds only when every patient has an owner. */
  lemma OwnersOfOk(stores: map<string, map<string, Doc>>, patientIDs: seq<string>)
    requires "clients" in stores && OwnersOf(stores, patientIDs).Ok?
    ensures forall p :: p in patientIDs ==> Owners(stores["clients"], p) != {}
  {
    forall p | p in patientIDs
      ensures Owners(stores["clients"], p) != {}
    {
      var i :| 0 <= i < |patientIDs| && patientIDs[i] == p;
      assert Hopps.Lookup(stores, "clients", "pets", PetsIndex, patientIDs[i]).Some?;
    }
  }

  /** Adds to `acc` each id of `pets` that is not in `excluded` (a loop
      over one client's pets into a JavaScript Set). */
  method AddPets(acc: seq<string>, excluded: seq<string>, pets: seq<string>) returns (r: seq<string>)
    requires Distinct(acc)
    ensures Distinct(r)
    ensures forall p :: p in r <==> p in acc || (p in pets && p !in excluded)
  {
    r := acc;
    for j := 0 to |pets|
      invariant Distinct(r)
      invariant forall p :: p in r <==> p in acc || (p in pets[..j] && p !in excluded)
    {
      assert pets[..j + 1] == pets[..j] + [pets[j]];
      if pets[j] !in excluded {
        r := AddLast(r, pets[j]);
      }
    }
    assert pets[..|pets|] == pets;
  }

  /** The distinct pets of `clients` not in `excluded`, in first-seen order. */
  method PetsNotIn(clients: seq<ClientState>, excluded: seq<string>) returns (r: seq<string>)
    ensures Distinct(r)
    ensures forall p :: p in r <==> p !in excluded && exists i :: 0 <= i < |clients| && p in clients[i].pets
  {
    r := [];
    for i := 0 to |clients|
      invariant Distinct(r)
      invariant forall p :: p in r <==> p !in excluded && exists j :: 0 <= j < i && p in clients[j].pets
    {
      r := AddPets(r, excluded, clients[i].pets);
    }
  }

  /** Files each fetched patient under its id. */
  method SetPatients(patients: map<TsSearchResults.Id, PatientState>, ids: seq<string>, fetched: seq<PatientState>,
                     ghost stores: map<string, map<string, Doc>>, ghost load: Doc -> Result<PatientState, string>)
    returns (r: map<TsSearchResults.Id, PatientState>)
    requires Loaded(stores, patients, load)
    requires "patients" in stores && |fetched| == |ids|
    requires forall k :: 0 <= k < |ids| ==>
               ids[k] in stores["patients"] && load(stores["patients"][ids[k]]) == Ok(fetched[k])
    ensures Loaded(stores, r, load)
    ensures forall id :: id in r <==> id in patients || (id.Some? && id.value in ids)
  {
    r := patients;
    for k := 0 to |ids|
      invariant Loaded(stores, r, load)
      invariant forall id :: id in r <==> id in patients || (id.Some? && id.value in ids[..k])
    {
      assert ids[..k + 1] == ids[..k] + [ids[k]];
      r := r[Some(ids[k]) := fetched[k]];
    }
    assert ids[..|ids|] == ids;
  }

  /** Every entry of `patients` is what `load` makes of the stored document
      under its id. */
  ghost predicate Loaded(stores: map<string, map<string, Doc>>, patients: map<TsSearchResults.Id, PatientState>,
                         load: Doc -> Result<PatientState, string>)
  {
    forall id :: id in patients ==>
      && id.Some? && "patients" in stores && id.value in stores["patients"]
      && load(stores["patients"][id.value]) == Ok(patients[id])
  }

  /** The loader accepts exactly the patient documents. */
  lemma PageLoads(hits: seq<Doc>, env: Env)
    ensures forall j :: 0 <= j < |hits| ==> (Loader(env)(hits[j]).Ok? <==> IsPatientDoc(hits[j]))
  {
    forall j | 0 <= j < |hits|
      ensures Loader(env)(hits[j]).Ok? <==> IsPatientDoc(hits[j])
    {
      assert Loader(env)(hits[j]) == DeserializePatient(hits[j], env);
    }
  }

  /** The keys of the documents on a page are the keys they are stored
      under. */
  lemma PageKeys(hits: seq<Doc>, keys: seq<string>)
    requires |keys| == |hits| && forall j :: 0 <= j < |hits| ==> DocKey(hits[j]) == Some(keys[j])
    ensures forall k :: k in keys <==> exists j :: 0 <= j < |hits| && DocKey(hits[j]) == Some(k)
  {
    forall k | k in keys
      ensures exists j :: 0 <= j < |hits| && DocKey(hits[j]) == Some(k)
    {
      var j :| 0 <= j < |keys| && keys[j] == k;
      assert DocKey(hits[j]) == Some(k);
    }
  }

  /** The state of `showUpcoming`'s loop after the first `i` hits: each
      loaded, their ids matched once in page order, and each loaded under
      its id. */
  ghost predicate Collected(hits: seq<Doc>, load: Doc -> Result<PatientState, string>, keys: seq<string>,
                            stores: map<string, map<string, Doc>>, i: nat,
                            matched: seq<string>, patients: map<TsSearchResults.Id, PatientState>)
  {
    && i <= |hits| && i <= |keys|
    && (forall j :: 0 <= j < i ==> Loads(load, hits[j]))
    && matched == Dedup(keys[..i])
    && (forall k :: Some(k) in patients <==> k in keys[..i])
    && Loaded(stores, patients, load)
  }

  /** One more hit that loads. */
  lemma CollectedStep(hits: seq<Doc>, load: Doc -> Result<PatientState, string>, keys: seq<string>,
                      stores: map<string, map<string, Doc>>, i: nat,
                      matched: seq<string>, patients: map<TsSearchResults.Id, PatientState>, p: PatientState)
    requires Collected(hits, load, keys, stores, i, matched, patients) && i < |hits| && |keys| == |hits|
    requires DocKey(hits[i]) == Some(keys[i]) && "patients" in stores
    requires keys[i] in stores["patients"] && stores["patients"][keys[i]] == hits[i]
    requires load(hits[i]) == Ok(p)
    ensures Collected(hits, load, keys, stores, i + 1, AddLast(matched, keys[i]), patients[Some(keys[i]) := p])
  {
    assert keys[..i + 1] == keys[..i] + [keys[i]];
    DedupSnoc(keys[..i], keys[i]);
  }

  /** `load` accepts `d`. */
  predicate Loads(load: Doc -> Result<PatientState, string>, d: Doc)
  {
    load(d).Ok?
  }

  /** The loop of `showUpcoming` over the hits: each hit's id is matched
      once, in page order, and the hit deserialised under it, failing at
      the first that does not load. */
  method CollectHits(hits: seq<Doc>, load: Doc -> Result<PatientState, string>,
                     ghost keys: seq<string>, ghost stores: map<string, map<string, Doc>>)
    returns (r: Result<(seq<string>, map<TsSearchResults.Id, PatientState>), string>)
    requires |keys| == |hits| && "patients" in stores
    requires forall j :: 0 <= j < |hits| ==> keys[j] in stores["patients"] && stores["patients"][keys[j]] == hits[j]
    requires forall j :: 0 <= j < |hits| ==> DocKey(hits[j]) == Some(keys[j])
    ensures r.Err? <==> exists j :: 0 <= j < |hits| && load(hits[j]).Err?
    ensures r.Ok? ==> r.value.0 == Dedup(keys)
    ensures r.Ok? ==> forall k :: Some(k) in r.value.1 <==> k in keys
    ensures r.Ok? ==> Loaded(stores, r.value.1, load)
  {
    var matched: seq<string> := [];
    var patients: map<TsSearchResults.Id, PatientState> := map[];
    for i := 0 to |hits|
      invariant Collected(hits, load, keys, stores, i, matched, patients)
    {
      var k := DocKey(hits[i]).value;
      var patient := load(hits[i]);
      if patient.Err? {
        return Err(patient.error);
      }
      CollectedStep(hits, load, keys, stores, i, matched, patients, patient.value);
      matched := AddLast(matched, k);
      patients := patients[Some(k) := patient.value];
    }
    assert keys[..|hits|] == keys;
    r := Ok((matched, patients));
  }

  // ---------------------------------------------------------------------
  // Importing an export file.

  /** A patient record of an export file, its visits `None` when missing. */
  datatype RawPatient = RawPatient(id: string, record: TsPatient.SerializedPatient, visits: Option<seq<TsVisit.VisitData>>)

  /** A client record of an export file; a phone number is a number and a
      note. */
  datatype RawClient = RawClient(id: Option<string>, name: Option<string>, address: Option<string>,
                                 note: Option<string>, pets: Option<seq<string>>,
                                 phone: Option<seq<(string, string)>>)

  /** The ids `genID` hands out during an import: the i-th patient's, the
      j-th visit of the i-th patient's, and the i-th client's. */
  datatype ImportIDs = ImportIDs(patient: nat -> string, visit: (nat, nat) -> string, client: nat -> string)

  /** The record `importData` hands to `Patient.deserialize`; `None` when
      the record has no visits to rewrite. */
  function ImportedPatient(raw: RawPatient, i: nat, ids: ImportIDs): (r: Option<TsPatient.SerializedPatient>)
    ensures r.Some? <==> raw.visits.Some?
    ensures r.Some? ==> r.value.kind == "patient" && r.value.id.None? && |r.value.visits| == |raw.visits.value|
  {
    if raw.visits.None? then None
    else
      var visits := raw.visits.value;
      Some(raw.record.(kind := "patient", id := None,
                       visits := seq(|visits|, j requires 0 <= j < |visits| =>
                                       visits[j].(id := Some(ids.visit(i, j)), tasks := Some([])))))
  }

  /** A visit's `tasks` value: an array of task names, or the empty object
      `{}` that `importData` assigns (kept by `Visit`, since it is truthy). */
  datatype TasksValue = TaskArray(names: seq<string>) | EmptyObject

  /** `visit.tasks.indexOf(task) >= 0`: a TypeError on `{}`, which has no
      `indexOf`. */
  function HasTaskValue(tasks: TasksValue, task: string): (r: Result<bool, string>)
    ensures r.Err? <==> tasks.EmptyObject?
    ensures tasks.TaskArray? ==> r == Ok(task in tasks.names)
  {
    match tasks
    case TaskArray(names) => Ok(task in names)
    case EmptyObject => Err("TypeError: visit.tasks.indexOf is not a function")
  }

  /** `lastVisitWithTask`'s `filter`: the positions of the visits with the
      task, or the TypeError of the first visit whose test throws. */
  function FilterWithTask(tasks: seq<TasksValue>, task: string): (r: Result<seq<nat>, string>)
    ensures r.Err? <==> exists j :: 0 <= j < |tasks| && tasks[j].EmptyObject?
    ensures r.Ok? ==> forall j :: 0 <= j < |tasks| ==> (j in r.value <==> task in tasks[j].names)
  {
    if tasks == [] then Ok([])
    else
      match HasTaskValue(tasks[0], task)
      case Err(e) => Err(e)
      case Ok(has) =>
        match FilterWithTask(tasks[1..], task)
        case Err(e) => Err(e)
        case Ok(rest) =>
          var shifted := seq(|rest|, k requires 0 <= k < |rest| => rest[k] + 1);
          forall j | 1 <= j < |tasks|
            ensures j in shifted <==> j - 1 in rest
          {
            if j - 1 in rest {
              var k :| 0 <= k < |rest| && rest[k] == j - 1;
              assert shifted[k] == j;
            }
          }
          Ok((if has then [0] else []) + shifted)
  }

  /** `Patient.deserialize` of an imported record as written: every visit's
      `tasks` is `{}`, and the constructor's `refreshDueDates` runs
      `lastVisitWithTask`'s filter for the first periodic task, which throws
      at the first visit; a record without visits is constructed as usual. */
  function DeserializeImportedAsWritten(raw: RawPatient, i: nat, ids: ImportIDs, parse: string -> int, now: int,
                                        addSixMonths: int -> int): (r: Result<PatientState, string>)
    requires raw.visits.Some?
    ensures r.Err? <==> raw.visits.value != []
    ensures r.Ok? ==> r.value.visits == [] && r.value.id.None? && r.value.dirty == {}
  {
    var data := ImportedPatient(raw, i, ids).value;
    var tasks := seq(|raw.visits.value|, j requires 0 <= j < |raw.visits.value| => EmptyObject);
    assert raw.visits.value != [] ==> tasks[0].EmptyObject?;
    match FilterWithTask(tasks, TsPatient.TaskNames[0])
    case Err(e) => Err(e)
    case Ok(_) => Ok(TsPatient.InitialState(data.id, TsPatient.OptionsOf(data, parse), now, addSixMonths))
  }

  /** An exported patient with a visit is never imported as written, while
      the intended import keeps it with empty task lists. */
  lemma ImportedPatientWithVisitFails(raw: RawPatient, i: nat, ids: ImportIDs, parse: string -> int, now: int,
                                      addSixMonths: int -> int)
    requires raw.visits.Some? && raw.visits.value != []
    ensures DeserializeImportedAsWritten(raw, i, ids, parse, now, addSixMonths).Err?
    ensures var data := ImportedPatient(raw, i, ids).value;
            |data.visits| == |raw.visits.value| && forall j :: 0 <= j < |data.visits| ==> data.visits[j].tasks == Some([])
  {
  }

  /** The export's pet ids renamed to the new ids, dropping those with none. */
  function RenamePets(pets: seq<string>, idMap: map<string, string>): (r: seq<string>)
    ensures forall p :: p in r <==> exists q :: q in pets && q in idMap && idMap[q] == p
    ensures |r| <= |pets|
  {
    if pets == [] then []
    else
      var rest := RenamePets(pets[1..], idMap);
      assert forall q :: q in pets <==> q == pets[0] || q in pets[1..];
      if pets[0] in idMap then [idMap[pets[0]]] + rest else rest
  }

  /** The record `importData` hands to `Client.deserialize`, as intended:
      no id, so that `updateClient` assigns one; `None` when the record has
      no pets or no phone numbers. */
  function ImportedClient(raw: RawClient, idMap: map<string, string>): (r: Option<TsClient.ClientData>)
    ensures r.Some? <==> raw.pets.Some? && raw.phone.Some?
    ensures r.Some? ==> r.value.kind == "client" && r.value.id.None? && r.value.pets.Some?
    ensures r.Some? ==> forall p :: p in r.value.pets.value <==>
                          exists q :: q in raw.pets.value && q in idMap && idMap[q] == p
  {
    if raw.pets.None? || raw.phone.None? then None
    else Some(TsClient.ClientData("client", None, raw.name, raw.address, Some(RenamePets(raw.pets.value, idMap)), raw.note))
  }

  /** The record as written: the id the import clears is `_id`, while
      `deserialize` reads `id`, which still holds the export's id. */
  function ImportedClientAsWritten(raw: RawClient, idMap: map<string, string>): (r: Option<TsClient.ClientData>)
    ensures r.Some? <==> raw.pets.Some? && raw.phone.Some?
    ensures r.Some? ==> r.value.id == raw.id
  {
    if raw.pets.None? || raw.phone.None? then None
    else Some(TsClient.ClientData("client", raw.id, raw.name, raw.address, Some(RenamePets(raw.pets.value, idMap)), raw.note))
  }

  /** An imported client with an export id comes out of `deserialize` with
      that id and clean, which is exactly the case `updateClient` returns
      from without writing. */
  lemma ImportedClientIsNeverDirty(raw: RawClient, idMap: map<string, string>)
    requires raw.pets.Some? && raw.phone.Some? && raw.id.Some?
    ensures var c := TsClient.InitialClient(ImportedClientAsWritten(raw, idMap).value.id,
                                            TsClient.OptionsOf(ImportedClientAsWritten(raw, idMap).value));
            c.id.Some? && !c.dirty
  {
  }

  /** The document an imported patient is filed under: the imported record
      deserialised, given its new id, and serialised again, with its due
      dates computed at import time. */
  function ImportedPatientDoc(raw: RawPatient, i: nat, ids: ImportIDs, env: Env): Doc
    requires raw.visits.Some?
  {
    var data := ImportedPatient(raw, i, ids).value;
    var s := TsPatient.InitialState(None, TsPatient.OptionsOf(data, env.parse), env.now, env.addSixMonths);
    PatientDoc(TsPatient.SerializedOf(s.(id := Some(ids.patient(i))), env.format))
  }

  /** The imported patient is the record with its id replaced, its name and
      sex defaulted, each visit given its fresh id, an empty task list and
      its date normalised, and both due dates computed. */
  lemma ImportedPatientDocSpec(raw: RawPatient, i: nat, ids: ImportIDs, env: Env)
    requires raw.visits.Some?
    ensures var d := ImportedPatientDoc(raw, i, ids, env);
      && d.PatientDoc? && d.patient.kind == "patient" && d.patient.id == Some(ids.patient(i))
      && d.patient.rev == raw.record.rev
      && d.patient.name == Some(StringOr(raw.record.name, "(unnamed)"))
      && d.patient.sex == Some(StringOr(raw.record.sex, "?+"))
      && d.patient.note == Some(StringOr(raw.record.note, ""))
      && |d.patient.visits| == |raw.visits.value|
      && (forall j :: 0 <= j < |raw.visits.value| ==>
            && d.patient.visits[j].id == Some(ids.visit(i, j))
            && d.patient.visits[j].tasks == Some([])
            && d.patient.visits[j].date == env.format(env.parse(raw.visits.value[j].date)))
      && d.patient.due.Keys == {"heartworm", "exam"}
  {
  }

  /** A patient record imports: it has visits and the write of its
      document does not fail. */
  predicate PatientImports(raw: RawPatient, i: nat, ids: ImportIDs, env: Env)
  {
    raw.visits.Some? && !env.writeFails(ImportedPatientDoc(raw, i, ids, env))
  }

  /** For each patient record, the document it is filed under when it
      imports. */
  function PatientImportDocs(raws: seq<RawPatient>, ids: ImportIDs, env: Env): (r: seq<Option<Doc>>)
    ensures |r| == |raws|
  {
    seq(|raws|, i requires 0 <= i < |raws| =>
      if PatientImports(raws[i], i, ids, env) then Some(ImportedPatientDoc(raws[i], i, ids, env)) else None)
  }

  /** The document an imported client is filed under: the imported record
      deserialised and given its new id. */
  function ImportedClientDoc(raw: RawClient, idMap: map<string, string>, newID: string): Doc
    requires ImportedClient(raw, idMap).Some?
  {
    ClientDoc(TsClient.ClientDataOf(TsClient.InitialClient(Some(newID), TsClient.OptionsOf(ImportedClient(raw, idMap).value))))
  }

  /** The imported client is the record with its new id, its name, address
      and note defaulted, and its pets renamed to the imported patients' new
      ids. */
  lemma ImportedClientDocSpec(raw: RawClient, idMap: map<string, string>, newID: string)
    requires ImportedClient(raw, idMap).Some?
    ensures var d := ImportedClientDoc(raw, idMap, newID);
      && d.ClientDoc? && d.client.kind == "client" && d.client.id == Some(newID)
      && d.client.name == Some(StringOr(raw.name, "(unnamed)"))
      && d.client.address == Some(StringOr(raw.address, "")) && d.client.note == Some(StringOr(raw.note, ""))
      && forall p :: Owns(d, p) <==> exists q :: q in raw.pets.value && q in idMap && idMap[q] == p
  {
  }

  /** A client record imports: it has pets and phone numbers and the write
      of its document does not fail. */
  predicate ClientImports(raw: RawClient, idMap: map<string, string>, newID: string, env: Env)
  {
    ImportedClient(raw, idMap).Some? && !env.writeFails(ImportedClientDoc(raw, idMap, newID))
  }

  /** For each client record, the document it is filed under when it
      imports. */
  function ClientImportDocs(raws: seq<RawClient>, idMap: map<string, string>, ids: ImportIDs, env: Env)
    : (r: seq<Option<Doc>>)
    ensures |r| == |raws|
  {
    seq(|raws|, i requires 0 <= i < |raws| =>
      if ClientImports(raws[i], idMap, ids.client(i), env) then Some(ImportedClientDoc(raws[i], idMap, ids.client(i)))
      else None)
  }

  /** The store after an import loop: record `i`, when it yields a
      document, is filed under `key(i)`, in record order. */
  function Imported(store: map<string, Doc>, key: nat -> string, docs: seq<Option<Doc>>): map<string, Doc>
    decreases |docs|
  {
    if docs == [] then store
    else
      var n := |docs| - 1;
      var before := Imported(store, key, docs[..n]);
      if docs[n].Some? then before[key(n) := docs[n].value] else before
  }

  /** One more record. */
  lemma ImportedSnoc(store: map<string, Doc>, key: nat -> string, docs: seq<Option<Doc>>, d: Option<Doc>)
    ensures Imported(store, key, docs + [d]) ==
            if d.Some? then Imported(store, key, docs)[key(|docs|) := d.value] else Imported(store, key, docs)
  {
    assert (docs + [d])[..|docs|] == docs;
  }

  /** With distinct keys, an import files each record that yields a
      document under its key, adds no other key, and keeps every document
      whose key no such record has. */
  lemma {:induction false} ImportedSpec(store: map<string, Doc>, key: nat -> string, docs: seq<Option<Doc>>, k: string)
    requires forall a, b :: 0 <= a < b < |docs| ==> key(a) != key(b)
    ensures k in Imported(store, key, docs) <==>
            k in store || exists i :: 0 <= i < |docs| && docs[i].Some? && key(i) == k
    ensures forall i :: 0 <= i < |docs| && docs[i].Some? && key(i) == k ==>
              k in Imported(store, key, docs) && Imported(store, key, docs)[k] == docs[i].value
    ensures (forall i :: 0 <= i < |docs| && docs[i].Some? ==> key(i) != k) && k in store ==>
              Imported(store, key, docs)[k] == store[k]
    decreases |docs|
  {
    if docs != [] {
      var n := |docs| - 1;
      var init := docs[..n];
      ImportedSpec(store, key, init, k);
      assert forall i :: 0 <= i < n ==> init[i] == docs[i];
      if docs[n].Some? && key(n) == k {
        assert forall i :: 0 <= i < n ==> key(i) != k;
      } else {
        forall i | 0 <= i < |docs| && docs[i].Some? && key(i) == k
          ensures 0 <= i < n && init[i].Some? && key(i) == k
        {
        }
      }
    }
  }

  /** The stores after `importData`: each importing patient filed under its
      new id, then each importing client under its new id. */
  function ImportedStores(stores: map<string, map<string, Doc>>, patients: seq<RawPatient>, clients: seq<RawClient>,
                          idMap: map<string, string>, ids: ImportIDs, env: Env): map<string, map<string, Doc>>
    requires "patients" in stores && "clients" in stores
  {
    var withPatients := stores["patients" := Imported(stores["patients"], ids.patient, PatientImportDocs(patients, ids, env))];
    withPatients["clients" := Imported(withPatients["clients"], ids.client, ClientImportDocs(clients, idMap, ids, env))]
  }

  /** The outcomes of the first `|results|` records of an import loop: a
      record succeeds exactly when it yields a document, and then with the
      new id it is filed under. */
  predicate Outcomes(results: seq<Result<string, string>>, docs: seq<Option<Doc>>, key: nat -> string)
  {
    && |results| <= |docs|
    && (forall j :: 0 <= j < |results| ==> (results[j].Ok? <==> docs[j].Some?))
    && (forall j :: 0 <= j < |results| && results[j].Ok? ==> results[j].value == key(j))
  }

  /** One more outcome. */
  lemma OutcomesSnoc(results: seq<Result<string, string>>, docs: seq<Option<Doc>>, key: nat -> string,
                     r: Result<string, string>)
    requires Outcomes(results, docs, key) && |results| < |docs|
    requires r.Ok? <==> docs[|results|].Some?
    requires r.Ok? ==> r.value == key(|results|)
    ensures Outcomes(results + [r], docs, key)
  {
  }

  /** With distinct new ids, after the patients loop a key is stored iff
      it was before or an importing record got it; such a record's document
      is stored under it, and an untouched key keeps its document. */
  lemma ImportedPatientsSpec(store: map<string, Doc>, patients: seq<RawPatient>, ids: ImportIDs, env: Env, k: string)
    requires forall a, b :: 0 <= a < b < |patients| ==> ids.patient(a) != ids.patient(b)
    ensures var after := Imported(store, ids.patient, PatientImportDocs(patients, ids, env));
      && (k in after <==>
            k in store || exists i :: 0 <= i < |patients| && PatientImports(patients[i], i, ids, env) && ids.patient(i) == k)
      && (forall i :: 0 <= i < |patients| && PatientImports(patients[i], i, ids, env) && ids.patient(i) == k ==>
            k in after && after[k] == ImportedPatientDoc(patients[i], i, ids, env))
      && ((forall i :: 0 <= i < |patients| && PatientImports(patients[i], i, ids, env) ==> ids.patient(i) != k) ==>
            k in store ==> after[k] == store[k])
  {
    var docs := PatientImportDocs(patients, ids, env);
    ImportedSpec(store, ids.patient, docs, k);
    assert forall i :: 0 <= i < |patients| ==> (docs[i].Some? <==> PatientImports(patients[i], i, ids, env));
  }

  /** The same for the clients loop. */
  lemma ImportedClientsSpec(store: map<string, Doc>, clients: seq<RawClient>, idMap: map<string, string>,
                            ids: ImportIDs, env: Env, k: string)
    requires forall a, b :: 0 <= a < b < |clients| ==> ids.client(a) != ids.client(b)
    ensures var after := Imported(store, ids.client, ClientImportDocs(clients, idMap, ids, env));
      && (k in after <==>
            k in store || exists i :: 0 <= i < |clients| && ClientImports(clients[i], idMap, ids.client(i), env) && ids.client(i) == k)
      && (forall i :: 0 <= i < |clients| && ClientImports(clients[i], idMap, ids.client(i), env) && ids.client(i) == k ==>
            k in after && after[k] == ImportedClientDoc(clients[i], idMap, ids.client(i)))
      && ((forall i :: 0 <= i < |clients| && ClientImports(clients[i], idMap, ids.client(i), env) ==> ids.client(i) != k) ==>
            k in store ==> after[k] == store[k])
  {
    var docs := ClientImportDocs(clients, idMap, ids, env);
    ImportedSpec(store, ids.client, docs, k);
    assert forall i :: 0 <= i < |clients| ==> (docs[i].Some? <==> ClientImports(clients[i], idMap, ids.client(i), env));
  }

  /** The map from export ids to new ids after the patients whose outcomes
      are `results`: each success files its new id under the record's id. */
  function NewIds(patients: seq<RawPatient>, results: seq<Result<string, string>>): map<string, string>
    requires |results| <= |patients|
    decreases |results|
  {
    if results == [] then map[]
    else
      var n := |results| - 1;
      var before := NewIds(patients, results[..n]);
      if results[n].Ok? then before[patients[n].id := results[n].value] else before
  }

  /** One more outcome. */
  lemma NewIdsSnoc(patients: seq<RawPatient>, results: seq<Result<string, string>>, r: Result<string, string>)
    requires |results| < |patients|
    ensures NewIds(patients, results + [r]) ==
            if r.Ok? then NewIds(patients, results)[patients[|results|].id := r.value] else NewIds(patients, results)
  {
    assert (results + [r])[..|results|] == results;
  }

  /** An export id is mapped iff some patient with it imported, and it is
      mapped to the new id of one such patient. */
  lemma {:induction false} NewIdsSpec(patients: seq<RawPatient>, results: seq<Result<string, string>>)
    requires |results| <= |patients|
    ensures forall k :: k in NewIds(patients, results) <==>
              exists i :: 0 <= i < |results| && results[i].Ok? && patients[i].id == k
    ensures forall k :: k in NewIds(patients, results) ==>
              exists i :: 0 <= i < |results| && results[i] == Ok(NewIds(patients, results)[k]) && patients[i].id == k
    decreases |results|
  {
    if results != [] {
      var n := |results| - 1;
      var init := results[..n];
      NewIdsSpec(patients, init);
      var m := NewIds(patients, results);
      var m0 := NewIds(patients, init);
      assert forall i :: 0 <= i < n ==> init[i] == results[i];
      forall k | k in m
        ensures exists i :: 0 <= i < |results| && results[i] == Ok(m[k]) && patients[i].id == k
      {
        if results[n].Ok? && patients[n].id == k {
          assert results[n] == Ok(m[k]);
        } else {
          var i :| 0 <= i < n && init[i] == Ok(m0[k]) && patients[i].id == k;
          assert results[i] == Ok(m[k]);
        }
      }
      forall k | exists i :: 0 <= i < |results| && results[i].Ok? && patients[i].id == k
        ensures k in m
      {
        var i :| 0 <= i < |results| && results[i].Ok? && patients[i].id == k;
        if i < n {
          assert init[i].Ok?;
        }
      }
    }
  }
}
