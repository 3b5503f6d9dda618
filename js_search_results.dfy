/** Search results in the JavaScript generation of the browser client: the
    result client ids in order, an index of clients by id, the result
    patients and the matched patient ids.  Clients and patients are held as
    snapshots of their fields. */
module JsSearchResults {
  import opened Common
  import TsClient
  import JsPatient
  import opened TsSearchResults

  type JsPatientState = JsPatient.PatientState

  /** A record handed to `updateRecord`. */
  datatype Doc = PatientDoc(patient: JsPatientState) | ClientDoc(client: ClientState) | OtherDoc

  /** What `map` returns: `f` of the indexed client of every id, in order,
      undefined (`None`) for an id with no client. */
  function MapAll<T>(ids: seq<Id>, index: map<Id, ClientState>, f: Option<ClientState> -> T): (r: seq<T>)
    ensures |r| == |ids|
    ensures forall i :: 0 <= i < |ids| ==> r[i] == f(if ids[i] in index then Some(index[ids[i]]) else None)
  {
    seq(|ids|, i requires 0 <= i < |ids| => f(if ids[i] in index then Some(index[ids[i]]) else None))
  }

  /** The plain object `deserialize` reads. */
  datatype SearchResultsData = SearchResultsData(kind: string, clients: seq<TsClient.ClientData>,
                                                 patients: seq<JsPatient.PatientData>,
                                                 matchedPatients: seq<string>)

  /** `deserialize`'s patients, each stored under its id, failing at the
      first that is not a patient (with the message of a client). */
  method JsPatientsOfData(raws: seq<JsPatient.PatientData>) returns (r: Result<map<Id, JsPatientState>, string>)
    ensures r.Err? <==> exists i :: 0 <= i < |raws| && raws[i].kind != "patient"
    ensures r.Ok? ==> forall pid :: pid in r.value <==> exists i :: 0 <= i < |raws| && raws[i].id == pid
    ensures r.Ok? ==> RebuiltFromLast(r.value, raws, |raws|, JsPatientIdOf, RebuiltJsPatient)
  {
    var patients: map<Id, JsPatientState> := map[];
    for i := 0 to |raws|
      invariant forall j :: 0 <= j < i ==> raws[j].kind == "patient"
      invariant forall pid :: pid in patients <==> exists j :: 0 <= j < i && raws[j].id == pid
      invariant RebuiltFromLast(patients, raws, i, JsPatientIdOf, RebuiltJsPatient)
    {
      var raw := raws[i];
      if raw.kind != "patient" {
        return Err("Not a client instance: " + raw.kind);
      }
      var patient := RebuildJsPatient(raw);
      RebuiltFromLastNext(patients, raws, i, JsPatientIdOf, RebuiltJsPatient);
      patients := patients[patient.id := patient];
    }
    r := Ok(patients);
  }

  /** The id a raw patient is stored under. */
  function JsPatientIdOf(raw: JsPatient.PatientData): Id
  {
    raw.id
  }

  /** The patient `Patient.deserialize` builds from a raw patient. */
  function RebuiltJsPatient(raw: JsPatient.PatientData): JsPatientState
  {
    JsPatient.InitialPatient(raw.id, JsPatient.OptionsOf(raw))
  }

  /** A patient rebuilt from its plain object, under its own id: a missing
      or empty name is `(unnamed)`, a missing active flag true, nothing
      dirty and no events, the other fields as the data gives them. */
  method RebuildJsPatient(raw: JsPatient.PatientData) returns (p: JsPatientState)
    ensures p.id == raw.id && !p.dirty && p.events == []
    ensures p.name == StringOr(raw.name, "(unnamed)") && p.sex == StringOr(raw.sex, "")
    ensures p.active == (raw.active.None? || raw.active.value)
    ensures p.species == StringOr(raw.species, "") && p.breed == StringOr(raw.breed, "")
    ensures p.description == StringOr(raw.description, "") && p.note == StringOr(raw.note, "")
    ensures p == RebuiltJsPatient(raw)
  {
    p := JsPatient.InitialPatient(raw.id, JsPatient.OptionsOf(raw));
  }

  class SearchResults {
    var clientIDs: seq<Id>
    var patients: map<Id, JsPatientState>
    var matchedPatientIDs: set<Id>
    var clientsIndex: map<Id, ClientState>

    /** The constructor: ids in input order and each client indexed under
        its id. */
    constructor (clients: seq<ClientState>, patients: Option<map<Id, JsPatientState>>,
                 matchedPatients: Option<set<Id>>)
      ensures clientIDs == IdsOf(clients)
      ensures this.patients == (if patients.Some? then patients.value else map[])
      ensures matchedPatientIDs == (if matchedPatients.Some? then matchedPatients.value else {})
      ensures clientsIndex == IndexClients(clients)
    {
      clientIDs := IdsOf(clients);
      this.patients := if patients.Some? then patients.value else map[];
      matchedPatientIDs := if matchedPatients.Some? then matchedPatients.value else {};
      var index := IndexAll(clients);
      clientsIndex := index;
    }

    /** `updateRecord`: replaces the patient or the client entry of the
        record's id according to its kind; the id list is unchanged. */
    method UpdateRecord(doc: Doc)
      modifies this
      ensures doc.PatientDoc? ==> patients == old(patients)[doc.patient.id := doc.patient]
      ensures !doc.PatientDoc? ==> patients == old(patients)
      ensures doc.ClientDoc? ==> clientsIndex == old(clientsIndex)[doc.client.id := doc.client]
      ensures !doc.ClientDoc? ==> clientsIndex == old(clientsIndex)
      ensures clientIDs == old(clientIDs) && matchedPatientIDs == old(matchedPatientIDs)
    {
      match doc
      case PatientDoc(p) => patients := patients[p.id := p];
      case ClientDoc(c) => clientsIndex := clientsIndex[c.id := c];
      case OtherDoc =>
    }

    /** `addPatient`: adds the patient id straight into the client's pet set,
        leaving its dirty flag alone, and stores the patient; a TypeError
        when no client has that id, before anything changes. */
    method AddPatient(patient: JsPatientState, clientID: Id) returns (err: Option<string>)
      requires patient.id.Some?
      modifies this
      ensures err.Some? <==> clientID !in old(clientsIndex)
      ensures err.Some? ==> patients == old(patients) && clientsIndex == old(clientsIndex)
      ensures err.None? ==> patients == old(patients)[patient.id := patient]
      ensures err.None? ==>
        var c := old(clientsIndex)[clientID];
        && clientsIndex == old(clientsIndex)[clientID := c.(pets := AddLast(c.pets, patient.id.value))]
        && clientsIndex[clientID].dirty == c.dirty
        && patient.id.value in clientsIndex[clientID].pets
        && (Distinct(c.pets) ==> Distinct(clientsIndex[clientID].pets))
      ensures clientIDs == old(clientIDs) && matchedPatientIDs == old(matchedPatientIDs)
    {
      if clientID !in clientsIndex {
        return Some("TypeError: client is undefined");
      }
      var client := clientsIndex[clientID];
      clientsIndex := clientsIndex[clientID := client.(pets := AddLast(client.pets, patient.id.value))];
      patients := patients[patient.id := patient];
      err := None;
    }

    /** `map`: applies `f` to the client of every id in order, passing
        undefined for an id with no indexed client. */
    method Map<T>(f: Option<ClientState> -> T) returns (result: seq<T>)
      ensures result == MapAll(clientIDs, clientsIndex, f)
    {
      result := [];
      for i := 0 to |clientIDs|
        invariant result == MapAll(clientIDs[..i], clientsIndex, f)
      {
        var id := clientIDs[i];
        result := result + [f(if id in clientsIndex then Some(clientsIndex[id]) else None)];
      }
      assert clientIDs[..|clientIDs|] == clientIDs;
    }

    /** `clear`, as written: empties the patients and then throws a
        TypeError, because it clears `matchedPatients` where the field is
        `matchedPatientIDs`; the ids, the matched ids and the client index
        stay as they were. */
    method ClearAsWritten() returns (err: Option<string>)
      modifies this
      ensures err.Some? && patients == map[]
      ensures clientIDs == old(clientIDs) && matchedPatientIDs == old(matchedPatientIDs)
      ensures clientsIndex == old(clientsIndex)
    {
      patients := map[];
      err := Some("TypeError: this.matchedPatients is undefined");
    }

    /** `clear` as intended: empties the results entirely. */
    method Clear()
      modifies this
      ensures clientIDs == [] && patients == map[] && matchedPatientIDs == {} && clientsIndex == map[]
    {
      clientIDs := [];
      patients := map[];
      matchedPatientIDs := {};
      clientsIndex := map[];
    }

    /** `SearchResults.deserialize`: rejects a type other than
        `search-results` and any client or patient that does not
        deserialise; otherwise builds the results from the deserialised
        records, each patient stored under its id, and the matched ids as a
        set. */
    static method Deserialize(data: SearchResultsData) returns (r: Result<SearchResults, string>)
      ensures r.Err? <==>
        data.kind != "search-results" ||
        (exists i :: 0 <= i < |data.clients| && data.clients[i].kind != "client") ||
        (exists i :: 0 <= i < |data.patients| && data.patients[i].kind != "patient")
      ensures r.Ok? ==> fresh(r.value)
      ensures r.Ok? ==> r.value.matchedPatientIDs == set id | id in data.matchedPatients :: Some(id)
      ensures r.Ok? ==> |r.value.clientIDs| == |data.clients|
      ensures r.Ok? ==> forall i :: 0 <= i < |data.clients| ==> r.value.clientIDs[i] == data.clients[i].id
      ensures r.Ok? ==> forall pid :: pid in r.value.patients <==>
        exists i :: 0 <= i < |data.patients| && data.patients[i].id == pid
      ensures r.Ok? ==> r.value.clientsIndex == IndexClients(seq(|data.clients|, i requires 0 <= i < |data.clients| =>
                                                                   RebuiltClient(data.clients[i])))
      ensures r.Ok? ==> RebuiltFromLast(r.value.patients, data.patients, |data.patients|, JsPatientIdOf,
                                        RebuiltJsPatient)
    {
      if data.kind != "search-results" {
        return Err("Not a SearchResult instance: " + data.kind);
      }
      var clients := ClientsOfData(data.clients);
      if clients.Err? {
        return Err(clients.error);
      }
      var patients := JsPatientsOfData(data.patients);
      if patients.Err? {
        return Err(patients.error);
      }
      var matched := MatchedOfData(data.matchedPatients);
      assert clients.value == seq(|data.clients|, i requires 0 <= i < |data.clients| => RebuiltClient(data.clients[i]));
      var results := new SearchResults(clients.value, Some(patients.value), Some(matched));
      r := Ok(results);
    }
  }
}
