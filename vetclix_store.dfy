/** The dummy in-memory store of the Python server: search results and the
    dictionary-backed connection with its subset-matching search. */
module VetclixStore {
  import opened Common
  import opened Text
  import opened VetclixDb

  /** The set of words in a document or query. */
  function Terms(words: seq<string>): (r: set<string>)
    ensures forall t :: t in r <==> t in words
  {
    set t | t in words
  }

  /** `set(normalize_query(query))` */
  function QuerySet(query: string): set<string>
  {
    Terms(NormalizeQuery(query))
  }

  /** The pet ids listed by a set of clients. */
  function PetsOf(clients: set<Client>): (r: set<string>)
    ensures forall p :: p in r <==> exists c :: c in clients && p in c.pets
  {
    set c, p | c in clients && p in c.pets :: p
  }

  /** The dictionary form of a set of search results. */
  datatype ResultsDict = ResultsDict(kind: string, clients: set<ClientDict>, patients: set<PatientDict>,
                                     matchedPatients: set<string>)

  /** `SearchResults`: sets of clients, of patients and of matched patient ids. */
  class SearchResults {
    var clients: set<Client>
    var patients: set<Patient>
    var matchedPatients: set<string>

    constructor ()
      ensures clients == {} && patients == {} && matchedPatients == {}
    {
      clients := {};
      patients := {};
      matchedPatients := {};
    }

    method AddClient(c: Client)
      modifies this
      ensures clients == old(clients) + {c}
      ensures patients == old(patients) && matchedPatients == old(matchedPatients)
    {
      clients := clients + {c};
    }

    method AddMatchedPatient(recid: string)
      modifies this
      ensures matchedPatients == old(matchedPatients) + {recid}
      ensures clients == old(clients) && patients == old(patients)
    {
      matchedPatients := matchedPatients + {recid};
    }

    method AddPatient(p: Patient)
      modifies this
      ensures patients == old(patients) + {p}
      ensures clients == old(clients) && matchedPatients == old(matchedPatients)
    {
      patients := patients + {p};
    }

    /** `get_missing_patients`: every pet id of every client in the results. */
    method GetMissingPatients() returns (r: set<string>)
      ensures r == PetsOf(clients)
    {
      r := {};
      var todo := clients;
      while todo != {}
        invariant todo <= clients
        invariant r == PetsOf(clients - todo)
        decreases todo
      {
        var c :| c in todo;
        ghost var done := clients - todo;
        var j := 0;
        while j < |c.pets|
          invariant 0 <= j <= |c.pets|
          invariant r == PetsOf(clients - todo) + Terms(c.pets[..j])
        {
          assert c.pets[..j + 1] == c.pets[..j] + [c.pets[j]];
          r := r + {c.pets[j]};
          j := j + 1;
        }
        assert c.pets[..j] == c.pets;
        todo := todo - {c};
        assert clients - todo == done + {c};
      }
      assert clients - todo == clients;
    }

    /** `serialize`: the type tag and each set in dictionary form. */
    function Serialize(): (r: ResultsDict)
      reads this
      ensures r.kind == "search-results"
      ensures r.matchedPatients == matchedPatients
    {
      ResultsDict("search-results", set c | c in clients :: SerializeClient(c),
                  set p | p in patients :: SerializePatient(p), matchedPatients)
    }
  
    /** Every serialised client and patient deserialises back to a member of
        the results. */
    lemma SerializeRoundTrip(freshId: string)
      requires forall c :: c in clients ==> Distinct(c.pets)
      ensures forall d :: d in Serialize().clients ==>
        DeserializeClient(d, freshId).Ok? && DeserializeClient(d, freshId).value in clients
      ensures forall d :: d in Serialize().patients ==>
        DeserializePatient(d, freshId).Ok? && DeserializePatient(d, freshId).value in patients
    {
      forall d | d in Serialize().clients
        ensures DeserializeClient(d, freshId).Ok? && DeserializeClient(d, freshId).value in clients
      {
        var c :| c in clients && d == SerializeClient(c);
        ClientRoundTrip(c, freshId);
      }
      forall d | d in Serialize().patients
        ensures DeserializePatient(d, freshId).Ok? && DeserializePatient(d, freshId).value in patients
      {
        var p :| p in patients && d == SerializePatient(p);
        PatientRoundTrip(p, freshId);
      }
    }
  }

  // ----- search specification -----

  /** The client's own document holds every query term. */
  predicate ClientMatches(q: set<string>, c: Client)
  {
    q <= Terms(ClientSearchDocument(c))
  }

  /** The union of a pet's document and its owner's holds every query term. */
  predicate PetMatches(q: set<string>, c: Client, p: Patient)
    requires |p.sex| == 2
  {
    q <= Terms(PatientSearchDocument(p).value) + Terms(ClientSearchDocument(c))
  }

  /** The search loop raises nothing on `c`: a client that matches on its
      own is added at once, the pets of any other client are looked up and
      documented, which needs a two-character sex code. */
  predicate PetsDocumented(q: set<string>, c: Client, patients: map<string, Patient>)
  {
    ClientMatches(q, c) || forall p :: p in c.pets ==> p in patients && |patients[p].sex| == 2
  }

  /** A client is in the results iff it matches on its own or together with
      one of its pets. */
  predicate Included(q: set<string>, c: Client, patients: map<string, Patient>)
    requires PetsDocumented(q, c, patients)
  {
    ClientMatches(q, c) || exists p :: p in c.pets && PetMatches(q, c, patients[p])
  }

  /** The pets among `pets` that match together with their owner `c`. */
  function MatchingAmong(q: set<string>, c: Client, pets: seq<string>, patients: map<string, Patient>): set<string>
    requires forall p :: p in pets ==> p in patients && |patients[p].sex| == 2
  {
    set p | p in pets && PetMatches(q, c, patients[p])
  }

  /** Some pet among `pets` matches together with its owner `c`. */
  predicate AnyPetMatches(q: set<string>, c: Client, pets: seq<string>, patients: map<string, Patient>)
    requires forall p :: p in pets ==> p in patients && |patients[p].sex| == 2
  {
    exists p :: p in pets && PetMatches(q, c, patients[p])
  }

  /** One more pet adds itself to the matching pets when it matches. */
  lemma MatchingSnoc(q: set<string>, c: Client, pets: seq<string>, p: string, patients: map<string, Patient>)
    requires forall x :: x in pets + [p] ==> x in patients && |patients[x].sex| == 2
    ensures MatchingAmong(q, c, pets + [p], patients)
         == MatchingAmong(q, c, pets, patients) + (if PetMatches(q, c, patients[p]) then {p} else {})
    ensures AnyPetMatches(q, c, pets + [p], patients) <==>
      AnyPetMatches(q, c, pets, patients) || PetMatches(q, c, patients[p])
  {
    assert forall x :: x in pets + [p] <==> x in pets || x == p;
  }

  /** The pets of `c` that are marked matched: only when `c` does not match
      on its own. */
  function MatchedPets(q: set<string>, c: Client, patients: map<string, Patient>): (r: set<string>)
    requires PetsDocumented(q, c, patients)
    ensures forall p :: p in r <==> !ClientMatches(q, c) && p in c.pets && PetMatches(q, c, patients[p])
  {
    if ClientMatches(q, c) then {} else MatchingAmong(q, c, c.pets, patients)
  }

  /** The patients stored under a set of pet ids. */
  function PatientsAt(ids: set<string>, patients: map<string, Patient>): (r: set<Patient>)
    requires ids <= patients.Keys
    ensures forall p :: p in r <==> exists id :: id in ids && patients[id] == p
  {
    set id | id in ids :: patients[id]
  }

  /** A client with one more pet id (a set insertion). */
  function AddPet(c: Client, recid: string): (r: Client)
    ensures recid in r.pets && forall p :: p in c.pets ==> p in r.pets
    ensures forall p :: p in r.pets ==> p == recid || p in c.pets
    ensures r.(pets := c.pets) == c
  {
    c.(pets := AddLast(c.pets, recid))
  }

  /** The owners in `owners` each gain `recid`, in order, until one is not in
      `m`, which raises KeyError. */
  function LinkOwners(m: map<string, Client>, owners: seq<string>, recid: string): (map<string, Client>, Option<StoreError>)
    decreases |owners|
  {
    if owners == [] then (m, None)
    else if owners[0] !in m then (m, Some(KeyError(owners[0])))
    else LinkOwners(m[owners[0] := AddPet(m[owners[0]], recid)], owners[1..], recid)
  }

  lemma AddPetTwice(c: Client, recid: string)
    ensures AddPet(AddPet(c, recid), recid) == AddPet(c, recid)
  {
  }

  /** Linking keeps the keys, raises iff some owner is unknown, and on
      success gives exactly the named owners the pet. */
  lemma {:induction false} LinkOwnersSpec(m: map<string, Client>, owners: seq<string>, recid: string)
    ensures LinkOwners(m, owners, recid).0.Keys == m.Keys
    ensures LinkOwners(m, owners, recid).1.None? <==> forall o :: o in owners ==> o in m
    ensures LinkOwners(m, owners, recid).1.None? ==> forall k :: k in m ==>
      LinkOwners(m, owners, recid).0[k] == (if k in owners then AddPet(m[k], recid) else m[k])
    decreases |owners|
  {
    if owners != [] && owners[0] in m {
      var o := owners[0];
      var m' := m[o := AddPet(m[o], recid)];
      LinkOwnersSpec(m', owners[1..], recid);
      assert forall x :: x in owners <==> x == o || x in owners[1..];
      AddPetTwice(m[o], recid);
    }
  }

  /** `DummyConnection`: clients and patients in dictionaries keyed by id. */
  class DummyConnection {
    var testingMode: bool
    var clients: map<string, Client>
    var patients: map<string, Patient>

    /** The clients stored under `keys`. */
    function ClientsAt(keys: set<string>): (r: set<Client>)
      reads this
      requires keys <= clients.Keys
      ensures forall c :: c in r <==> exists k :: k in keys && clients[k] == c
    {
      set k | k in keys :: clients[k]
    }

    /** The search loop raises nothing on the clients under `keys`. */
    predicate Documented(q: set<string>, keys: set<string>)
      reads this
    {
      forall k :: k in keys ==> k in clients && PetsDocumented(q, clients[k], patients)
    }

    /** A search with query terms `q` raises nothing: the loop raises nothing
        and every pet of every client is stored. */
    predicate SearchDefined(q: set<string>)
      reads this
    {
      Documented(q, clients.Keys) && forall k, p :: k in clients && p in clients[k].pets ==> p in patients
    }

    /** The clients a search with query terms `q` returns. */
    function ResultClients(q: set<string>, keys: set<string>): (r: set<Client>)
      reads this
      requires Documented(q, keys)
      ensures forall c :: c in r <==> exists k :: k in keys && clients[k] == c && Included(q, c, patients)
    {
      set k | k in keys && Included(q, clients[k], patients) :: clients[k]
    }

    /** The pet ids a search with query terms `q` marks matched. */
    function ResultMatched(q: set<string>, keys: set<string>): (r: set<string>)
      reads this
      requires Documented(q, keys)
      ensures forall p :: p in r <==> exists k :: k in keys && p in MatchedPets(q, clients[k], patients)
    {
      set k, p | k in keys && p in MatchedPets(q, clients[k], patients) :: p
    }

    /** Adding one more client key to the searched keys adds that client's
        contribution. */
    lemma ResultsAddKey(q: set<string>, done: set<string>, k: string)
      requires Documented(q, done + {k})
      ensures ResultClients(q, done + {k})
           == ResultClients(q, done) + (if Included(q, clients[k], patients) then {clients[k]} else {})
      ensures ResultMatched(q, done + {k}) == ResultMatched(q, done) + MatchedPets(q, clients[k], patients)
    {
      var added := if Included(q, clients[k], patients) then {clients[k]} else {};
      forall c
        ensures c in ResultClients(q, done + {k}) <==> c in ResultClients(q, done) + added
      {
        if c in ResultClients(q, done + {k}) && c !in added {
          var k' :| k' in done + {k} && clients[k'] == c && Included(q, c, patients);
          assert k' in done;
        }
      }
      forall p
        ensures p in ResultMatched(q, done + {k}) <==> p in ResultMatched(q, done) + MatchedPets(q, clients[k], patients)
      {
        if p in ResultMatched(q, done + {k}) && p !in MatchedPets(q, clients[k], patients) {
          var k' :| k' in done + {k} && p in MatchedPets(q, clients[k'], patients);
          assert k' in done;
        }
      }
    }

    /** One round of the search loop: the client `c` is added when it
        matches on its own, otherwise each of its pets is looked up and
        documented, and both are added when the pet matches. */
    method SearchClient(q: set<string>, c: Client, results: SearchResults) returns (err: Option<StoreError>)
      modifies results
      ensures err.None? <==> PetsDocumented(q, c, patients)
      ensures err.None? ==>
        && results.clients == old(results.clients) + (if Included(q, c, patients) then {c} else {})
        && results.matchedPatients == old(results.matchedPatients) + MatchedPets(q, c, patients)
        && results.patients == old(results.patients)
    {
      if q <= Terms(ClientSearchDocument(c)) {
        results.AddClient(c);
        return None;
      }
      err := SearchPets(q, c, results);
    }

    /** The pet loop of a search round, for a client that does not match on
        its own. */
    method SearchPets(q: set<string>, c: Client, results: SearchResults) returns (err: Option<StoreError>)
      requires !ClientMatches(q, c)
      modifies results
      ensures err.None? <==> forall p :: p in c.pets ==> p in patients && |patients[p].sex| == 2
      ensures err.None? ==>
        && results.clients == old(results.clients)
           + (if exists p :: p in c.pets && PetMatches(q, c, patients[p]) then {c} else {})
        && results.matchedPatients == old(results.matchedPatients) + MatchingAmong(q, c, c.pets, patients)
        && results.patients == old(results.patients)
    {
      var clientDocument := Terms(ClientSearchDocument(c));
      var j := 0;
      while j < |c.pets|
        invariant 0 <= j <= |c.pets|
        invariant forall p :: p in c.pets[..j] ==> p in patients && |patients[p].sex| == 2
        invariant results.clients == old(results.clients)
          + (if AnyPetMatches(q, c, c.pets[..j], patients) then {c} else {})
        invariant results.matchedPatients == old(results.matchedPatients) + MatchingAmong(q, c, c.pets[..j], patients)
        invariant results.patients == old(results.patients)
      {
        var petid := c.pets[j];
        assert c.pets[..j + 1] == c.pets[..j] + [petid];
        err := SearchPet(q, c, clientDocument, petid, results);
        if err.Some? {
          return;
        }
        MatchingSnoc(q, c, c.pets[..j], petid, patients);
        j := j + 1;
      }
      assert c.pets[..j] == c.pets;
      err := None;
    }

    /** One pet of the pet loop: looked up and documented, raising when it
        is missing or its sex code cannot be unpacked; the client and the pet
        are added when the pet matches together with its owner. */
    method SearchPet(q: set<string>, c: Client, clientDocument: set<string>, petid: string, results: SearchResults)
      returns (err: Option<StoreError>)
      requires clientDocument == Terms(ClientSearchDocument(c))
      modifies results
      ensures err.None? <==> petid in patients && |patients[petid].sex| == 2
      ensures err.None? ==>
        && results.clients == old(results.clients) + (if PetMatches(q, c, patients[petid]) then {c} else {})
        && results.matchedPatients == old(results.matchedPatients)
           + (if PetMatches(q, c, patients[petid]) then {petid} else {})
        && results.patients == old(results.patients)
    {
      var patient := GetPatient(petid);
      if patient.Err? {
        return Some(patient.error);
      }
      var patientDocument := PatientSearchDocument(patient.value);
      if patientDocument.Err? {
        return Some(patientDocument.error);
      }
      if q <= Terms(patientDocument.value) + clientDocument {
        results.AddClient(c);
        results.AddMatchedPatient(petid);
      }
      err := None;
    }

    /** `search`: the clients that match, the pets they matched through, and
        every pet of every client found.  A pet that is missing, or whose sex
        code cannot be unpacked, raises. */
    method Search(query: string) returns (r: Result<SearchResults, StoreError>)
      ensures r.Err? <==> !SearchDefined(QuerySet(query))
      ensures r.Ok? ==>
        && fresh(r.value)
        && r.value.clients == ResultClients(QuerySet(query), clients.Keys)
        && r.value.matchedPatients == ResultMatched(QuerySet(query), clients.Keys)
        && r.value.patients == PatientsAt(PetsOf(r.value.clients), patients)
    {
      var q := QuerySet(query);
      var results, err := SearchClients(q);
      if err.Some? {
        return Err(err.value);
      }
      r := FetchPatients(results);
      if r.Ok? {
        forall k, p | k in clients && p in clients[k].pets
          ensures p in patients
        {
          if ClientMatches(q, clients[k]) {
            assert clients[k] in results.clients;
          }
        }
      }
    }

    /** The client loop of `search`: every stored client searched in turn,
        stopping at the first that raises. */
    method SearchClients(q: set<string>) returns (results: SearchResults, err: Option<StoreError>)
      ensures fresh(results)
      ensures err.None? <==> Documented(q, clients.Keys)
      ensures err.None? ==>
        && results.clients == ResultClients(q, clients.Keys)
        && results.matchedPatients == ResultMatched(q, clients.Keys)
        && results.patients == {}
    {
      results := new SearchResults();
      var todo := clients.Keys;
      while todo != {}
        invariant todo <= clients.Keys
        invariant fresh(results)
        invariant Documented(q, clients.Keys - todo)
        invariant results.clients == ResultClients(q, clients.Keys - todo)
        invariant results.matchedPatients == ResultMatched(q, clients.Keys - todo)
        invariant results.patients == {}
        decreases todo
      {
        var k :| k in todo;
        ghost var done := clients.Keys - todo;
        err := SearchClient(q, clients[k], results);
        if err.Some? {
          return;
        }
        todo := todo - {k};
        assert clients.Keys - todo == done + {k};
        ResultsAddKey(q, done, k);
      }
      assert clients.Keys - todo == clients.Keys;
      err := None;
    }

    /** Adds the stored patient of every pet of every client in `results`;
        a missing pet raises KeyError. */
    method FetchPatients(results: SearchResults) returns (r: Result<SearchResults, StoreError>)
      requires results.patients == {}
      modifies results
      ensures results.clients == old(results.clients) && results.matchedPatients == old(results.matchedPatients)
      ensures r.Err? <==> !(PetsOf(results.clients) <= patients.Keys)
      ensures r.Ok? ==> r.value == results && results.patients == PatientsAt(PetsOf(results.clients), patients)
    {
      var missing := results.GetMissingPatients();
      var todo := missing;
      while todo != {}
        invariant todo <= missing
        invariant missing - todo <= patients.Keys
        invariant results.patients == PatientsAt(missing - todo, patients)
        invariant results.clients == old(results.clients) && results.matchedPatients == old(results.matchedPatients)
        decreases todo
      {
        var id :| id in todo;
        ghost var done := missing - todo;
        var patient := GetPatient(id);
        if patient.Err? {
          return Err(patient.error);
        }
        results.AddPatient(patient.value);
        todo := todo - {id};
        assert missing - todo == done + {id};
      }
      assert missing - todo == missing;
      r := Ok(results);
    }

    /** `get_upcoming`: every client and every pet of every client; a
        missing pet raises KeyError. */
    method GetUpcoming() returns (r: Result<SearchResults, StoreError>)
      ensures r.Err? <==> !(PetsOf(ClientsAt(clients.Keys)) <= patients.Keys)
      ensures r.Ok? ==>
        && fresh(r.value)
        && r.value.clients == ClientsAt(clients.Keys)
        && r.value.matchedPatients == {}
        && r.value.patients == PatientsAt(PetsOf(r.value.clients), patients)
    {
      var results := new SearchResults();
      var todo := clients.Keys;
      while todo != {}
        invariant todo <= clients.Keys
        invariant fresh(results)
        invariant results.clients == ClientsAt(clients.Keys - todo)
        invariant results.matchedPatients == {} && results.patients == {}
        decreases todo
      {
        var k :| k in todo;
        ghost var done := clients.Keys - todo;
        results.AddClient(clients[k]);
        todo := todo - {k};
        assert clients.Keys - todo == done + {k};
      }
      assert clients.Keys - todo == clients.Keys;
      r := FetchPatients(results);
    }

    /** The empty query matches every client on its own: a search with no
        terms returns what `get_upcoming` returns, with no pet marked
        matched. */
    lemma EmptyQueryIsUpcoming()
      ensures SearchDefined({}) <==> PetsOf(ClientsAt(clients.Keys)) <= patients.Keys
      ensures SearchDefined({}) ==>
        ResultClients({}, clients.Keys) == ClientsAt(clients.Keys) && ResultMatched({}, clients.Keys) == {}
    {
      assert forall c :: ClientMatches({}, c);
      if PetsOf(ClientsAt(clients.Keys)) <= patients.Keys {
        forall k, p | k in clients && p in clients[k].pets
          ensures p in patients
        {
          assert clients[k] in ClientsAt(clients.Keys);
        }
      }
    }

    /** A pet is marked matched only through a client in the results, so
        every matched pet's patient is among the results' patients. */
    lemma MatchedAreResultPets(q: set<string>)
      requires Documented(q, clients.Keys)
      ensures ResultMatched(q, clients.Keys) <= PetsOf(ResultClients(q, clients.Keys))
    {
      forall p | p in ResultMatched(q, clients.Keys)
        ensures p in PetsOf(ResultClients(q, clients.Keys))
      {
        var k :| k in clients.Keys && p in MatchedPets(q, clients[k], patients);
        assert clients[k] in ResultClients(q, clients.Keys);
      }
    }

    /** More query terms never find more clients. */
    lemma SearchNarrows(q1: set<string>, q2: set<string>)
      requires q1 <= q2 && Documented(q1, clients.Keys) && Documented(q2, clients.Keys)
      ensures ResultClients(q2, clients.Keys) <= ResultClients(q1, clients.Keys)
    {
      forall c | c in ResultClients(q2, clients.Keys)
        ensures c in ResultClients(q1, clients.Keys)
      {
        var k :| k in clients.Keys && clients[k] == c && Included(q2, c, patients);
        if !ClientMatches(q2, c) {
          var p :| p in c.pets && PetMatches(q2, c, patients[p]);
          assert PetMatches(q1, c, patients[p]);
        }
      }
    }

    /** Appending words to a query can only narrow the clients found. */
    lemma LongerQueryNarrows(a: string, sep: char, b: string)
      requires IsSpace(sep)
      requires Documented(QuerySet(a), clients.Keys) && Documented(QuerySet(a + [sep] + b), clients.Keys)
      ensures ResultClients(QuerySet(a + [sep] + b), clients.Keys) <= ResultClients(QuerySet(a), clients.Keys)
    {
      NormalizeQueryAppend(a, sep, b);
      SearchNarrows(QuerySet(a), QuerySet(a + [sep] + b));
    }

    /** `add_patient_to_client`: each named owner gains the patient's id in
        turn; an unknown owner raises KeyError, keeping the owners already
        updated. */
    method AddPatientToClient(patient: Patient, owners: seq<string>) returns (r: Option<StoreError>)
      modifies this
      ensures (clients, r) == LinkOwners(old(clients), owners, patient.recid)
      ensures patients == old(patients) && testingMode == old(testingMode)
    {
      var i := 0;
      while i < |owners|
        invariant 0 <= i <= |owners|
        invariant LinkOwners(clients, owners[i..], patient.recid) == LinkOwners(old(clients), owners, patient.recid)
        invariant patients == old(patients) && testingMode == old(testingMode)
      {
        var owner := owners[i];
        assert owners[i..][1..] == owners[i + 1..];
        if owner !in clients {
          return Some(KeyError(owner));
        }
        clients := clients[owner := AddPet(clients[owner], patient.recid)];
        i := i + 1;
      }
      r := None;
    }

    constructor (testingMode: bool, maxId: string, floranceId: string, bettaId: string, kiddoId: string,
                 bobId: string, billId: string)
      ensures this.testingMode == testingMode
      ensures patients == map[][maxId := Patient(maxId, "Max", "m-", "Feline", "Domestic Shorthair", "", "", true, 0)]
                                [floranceId := Patient(floranceId, "Florance", "f+", "Canine", "Mixed", "", "", true, 0)]
                                [bettaId := Patient(bettaId, "Betta", "f-", "Feline", "Calico", "", "", true, 0)]
                                [kiddoId := Patient(kiddoId, "Kiddo", "f-", "Feline", "Domestic Shorthair", "", "", true, 0)]
      ensures clients == map[][bobId := Client(bobId, "Bob Brillby", "160 Gordonhurst Ave, Montclair NJ, 07043",
                                               Dedup([maxId, floranceId, bettaId]), "", 0)]
                               [billId := Client(billId, "Bill \"Snake Charmer\"", "140 Bellveue Ave, Montclair NJ, 07043",
                                                 Dedup([kiddoId]), "", 0)]
    {
      this.testingMode := testingMode;
      clients := map[];
      patients := map[];
      new;
      var maxCat := SavePatient(NewPatient(None, PatientDict(None, None, Some("Max"), Some("m-"), Some("Feline"),
        Some("Domestic Shorthair"), None, None, Some(true), None), maxId), false);
      var florance := SavePatient(NewPatient(None, PatientDict(None, None, Some("Florance"), Some("f+"), Some("Canine"),
        Some("Mixed"), None, None, Some(true), None), floranceId), false);
      var betta := SavePatient(NewPatient(None, PatientDict(None, None, Some("Betta"), Some("f-"), Some("Feline"),
        Some("Calico"), None, None, Some(true), None), bettaId), false);
      var kiddo := SavePatient(NewPatient(None, PatientDict(None, None, Some("Kiddo"), Some("f-"), Some("Feline"),
        Some("Domestic Shorthair"), None, None, Some(true), None), kiddoId), false);
      var bob := SaveClient(NewClient(None, ClientDict(None, None, Some("Bob Brillby"),
        Some("160 Gordonhurst Ave, Montclair NJ, 07043"), Some([maxCat.value, florance.value, betta.value]), None, None),
        bobId), false);
      var bill := SaveClient(NewClient(None, ClientDict(None, None, Some("Bill \"Snake Charmer\""),
        Some("140 Bellveue Ave, Montclair NJ, 07043"), Some([kiddo.value]), None, None), billId), false);
    }

    /** `get_client`: a missing id raises KeyError. */
    function GetClient(recid: string): (r: Result<Client, StoreError>)
      reads this
      ensures r.Ok? <==> recid in clients
      ensures r.Ok? ==> r.value == clients[recid]
    {
      if recid in clients then Ok(clients[recid]) else Err(KeyError(recid))
    }

    /** `get_patient`: a missing id raises KeyError. */
    function GetPatient(recid: string): (r: Result<Patient, StoreError>)
      reads this
      ensures r.Ok? <==> recid in patients
      ensures r.Ok? ==> r.value == patients[recid]
    {
      if recid in patients then Ok(patients[recid]) else Err(KeyError(recid))
    }

    /** `save_client`: upsert under the client's id; with `noOverwrite` an
        existing id raises KeyError and changes nothing. */
    method SaveClient(client: Client, noOverwrite: bool) returns (r: Result<string, StoreError>)
      modifies this
      ensures noOverwrite && client.recid in old(clients) ==>
        r == Err(KeyError("Duplicate client: " + client.recid)) && clients == old(clients)
      ensures !(noOverwrite && client.recid in old(clients)) ==>
        r == Ok(client.recid) && clients == old(clients)[client.recid := client]
      ensures patients == old(patients) && testingMode == old(testingMode)
    {
      if noOverwrite && client.recid in clients {
        return Err(KeyError("Duplicate client: " + client.recid));
      }
      clients := clients[client.recid := client];
      r := Ok(client.recid);
    }

    /** `save_patient`: upsert under the patient's id; with `noOverwrite` an
        existing id raises KeyError and changes nothing. */
    method SavePatient(patient: Patient, noOverwrite: bool) returns (r: Result<string, StoreError>)
      modifies this
      ensures noOverwrite && patient.recid in old(patients) ==>
        r == Err(KeyError("Duplicate patient: " + patient.recid)) && patients == old(patients)
      ensures !(noOverwrite && patient.recid in old(patients)) ==>
        r == Ok(patient.recid) && patients == old(patients)[patient.recid := patient]
      ensures clients == old(clients) && testingMode == old(testingMode)
    {
      if noOverwrite && patient.recid in patients {
        return Err(KeyError("Duplicate patient: " + patient.recid));
      }
      patients := patients[patient.recid := patient];
      r := Ok(patient.recid);
    }

    /** `clear`: outside testing mode raises ValueError and changes nothing. */
    method Clear() returns (r: Option<StoreError>)
      modifies this
      ensures testingMode == old(testingMode)
      ensures !testingMode ==> r.Some? && r.value.ValueError? && clients == old(clients) && patients == old(patients)
      ensures testingMode ==> r.None? && clients == map[] && patients == map[]
    {
      if !testingMode {
        return Some(ValueError("Cannot clear database without running in testing mode"));
      }
      clients := map[];
      patients := map[];
      r := None;
    }
  }
}
