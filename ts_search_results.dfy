/** Search results in the TypeScript client: the result clients in order,
    an index of clients by id, the result patients, the matched patient ids,
    and an index from visit ids to the patients that hold them, kept in sync
    as records are refreshed.  Clients and patients are held as snapshots
    of their fields. */
module TsSearchResults {
  import opened Common
  import TsClient
  import TsPatient

  /** A record id; `None` is null. */
  type Id = Option<string>

  type ClientState = TsClient.ClientState
  type PatientState = TsPatient.PatientState

  /** The ids of `clients`, in order (`clients.map(doc => doc.id)`). */
  function IdsOf(clients: seq<ClientState>): (r: seq<Id>)
    ensures |r| == |clients| && forall i :: 0 <= i < |clients| ==> r[i] == clients[i].id
  {
    seq(|clients|, i requires 0 <= i < |clients| => clients[i].id)
  }

  /** The client index after setting each client under its id in turn. */
  function IndexClients(clients: seq<ClientState>): (r: map<Id, ClientState>)
  {
    if clients == [] then map[]
    else IndexClients(clients[..|clients| - 1])[clients[|clients| - 1].id := clients[|clients| - 1]]
  }

  /** Every id of the list is indexed, and only those, each to a client of
      the list with that id: the last one with it. */
  lemma IndexClientsSpec(clients: seq<ClientState>)
    ensures forall id :: id in IndexClients(clients) <==> exists i :: 0 <= i < |clients| && clients[i].id == id
    ensures forall id :: id in IndexClients(clients) ==> IndexClients(clients)[id].id == id && IndexClients(clients)[id] in clients
    ensures forall i :: 0 <= i < |clients| && (forall j :: i < j < |clients| ==> clients[j].id != clients[i].id) ==>
      IndexClients(clients)[clients[i].id] == clients[i]
  {
    IndexClientsKeys(clients);
    IndexClientsValues(clients);
    IndexClientsLast(clients);
  }

  /** The ids indexed are those of the list. */
  lemma {:induction false} IndexClientsKeys(clients: seq<ClientState>)
    ensures forall id :: id in IndexClients(clients) <==> exists i :: 0 <= i < |clients| && clients[i].id == id
    decreases |clients|
  {
    if clients != [] {
      var init := clients[..|clients| - 1];
      IndexClientsKeys(init);
      assert forall i :: 0 <= i < |init| ==> init[i] == clients[i];
    }
  }

  /** Each id is indexed to a client of the list with that id. */
  lemma {:induction false} IndexClientsValues(clients: seq<ClientState>)
    ensures forall id :: id in IndexClients(clients) ==> IndexClients(clients)[id].id == id && IndexClients(clients)[id] in clients
    decreases |clients|
  {
    if clients != [] {
      var init := clients[..|clients| - 1];
      IndexClientsValues(init);
      assert forall c :: c in init ==> c in clients;
    }
  }

  /** A client no later client shares its id with is the one indexed. */
  lemma {:induction false} IndexClientsLast(clients: seq<ClientState>)
    ensures forall i :: 0 <= i < |clients| && (forall j :: i < j < |clients| ==> clients[j].id != clients[i].id) ==>
      clients[i].id in IndexClients(clients) && IndexClients(clients)[clients[i].id] == clients[i]
    decreases |clients|
  {
    if clients != [] {
      var init := clients[..|clients| - 1];
      var last := clients[|clients| - 1];
      var m := IndexClients(init);
      IndexClientsLast(init);
      assert IndexClients(clients) == m[last.id := last];
      forall i | 0 <= i < |clients| && (forall j :: i < j < |clients| ==> clients[j].id != clients[i].id)
        ensures clients[i].id in IndexClients(clients) && IndexClients(clients)[clients[i].id] == clients[i]
      {
        if i < |init| {
          assert init[i] == clients[i];
          assert clients[i].id != last.id;
          forall j | i < j < |init|
            ensures init[j].id != init[i].id
          {
            assert init[j] == clients[j];
          }
          assert init[i].id in m && m[init[i].id] == init[i];
        }
      }
    }
  }

  /** The ids of a patient's visits. */
  function VisitIds(p: PatientState): set<Id>
  {
    set v | v in p.visits :: v.id
  }

  /** The visit ids of every patient in `patients`. */
  function AllVisitIds(patients: map<Id, PatientState>): set<Id>
  {
    set pid, vid | pid in patients && vid in VisitIds(patients[pid]) :: vid
  }

  /** No visit id belongs to two different patients. */
  predicate UniqueVisits(patients: map<Id, PatientState>)
  {
    forall p1, p2, vid :: p1 in patients && p2 in patients && vid in VisitIds(patients[p1]) && vid in VisitIds(patients[p2])
      ==> patients[p1].id == patients[p2].id
  }

  /** `index` maps exactly the visit ids of `patients` to a patient holding
      that visit. */
  predicate IndexesVisits(index: map<Id, Id>, patients: map<Id, PatientState>)
  {
    && index.Keys == AllVisitIds(patients)
    && forall vid :: vid in index ==>
         exists pid :: pid in patients && vid in VisitIds(patients[pid]) && index[vid] == patients[pid].id
  }

  /** With unique visit ids, the visit index gives the one patient holding
      each visit. */
  lemma IndexedVisitOwner(index: map<Id, Id>, patients: map<Id, PatientState>, pid: Id, vid: Id)
    requires IndexesVisits(index, patients) && UniqueVisits(patients)
    requires pid in patients && vid in VisitIds(patients[pid])
    ensures vid in index && index[vid] == patients[pid].id
  {
    assert vid in AllVisitIds(patients);
  }

  /** What `map` returns: `f` of each indexed client, in `clientIDs` order. */
  function MapClients<T>(ids: seq<Id>, index: map<Id, ClientState>, f: ClientState -> T): (r: seq<T>)
    ensures |r| <= |ids|
    ensures (forall i :: 0 <= i < |ids| ==> ids[i] in index) ==>
      |r| == |ids| && forall i :: 0 <= i < |ids| ==> r[i] == f(index[ids[i]])
  {
    if ids == [] then []
    else
      var init := MapClients(ids[..|ids| - 1], index, f);
      var last := ids[|ids| - 1];
      if last in index then init + [f(index[last])] else init
  }

  /** Sets the visit ids of `p` to `p`'s id in `index`. */
  method IndexVisits(index: map<Id, Id>, p: PatientState) returns (r: map<Id, Id>)
    ensures r.Keys == index.Keys + VisitIds(p)
    ensures forall vid :: vid in r ==> r[vid] == if vid in VisitIds(p) then p.id else index[vid]
  {
    r := index;
    for i := 0 to |p.visits|
      invariant r.Keys == index.Keys + set j | 0 <= j < i :: p.visits[j].id
      invariant forall vid :: vid in r ==>
        r[vid] == if vid in (set j | 0 <= j < i :: p.visits[j].id) then p.id else index[vid]
    {
      r := r[p.visits[i].id := p.id];
    }
    assert (set j | 0 <= j < |p.visits| :: p.visits[j].id) == VisitIds(p) by {
      forall vid | vid in VisitIds(p)
        ensures vid in set j | 0 <= j < |p.visits| :: p.visits[j].id
      {
        var v :| v in p.visits && v.id == vid;
        var j :| 0 <= j < |p.visits| && p.visits[j] == v;
      }
    }
  }

  /** The constructor's first loop: sets each client under its id. */
  method IndexAll(clients: seq<ClientState>) returns (index: map<Id, ClientState>)
    ensures index == IndexClients(clients)
  {
    index := map[];
    for i := 0 to |clients|
      invariant index == IndexClients(clients[..i])
    {
      assert clients[..i + 1][..i] == clients[..i];
      index := index[clients[i].id := clients[i]];
    }
    assert clients[..|clients|] == clients;
  }

  /** The client `Client.deserialize` builds from a raw client. */
  function RebuiltClient(raw: TsClient.ClientData): ClientState
  {
    TsClient.InitialClient(raw.id, TsClient.OptionsOf(raw))
  }

  /** The patient `Patient.deserialize` builds from a raw patient. */
  function RebuiltPatient(raw: TsPatient.SerializedPatient, parse: string -> int, now: int,
                          addSixMonths: int -> int): PatientState
  {
    TsPatient.InitialState(raw.id, TsPatient.OptionsOf(raw, parse), now, addSixMonths)
  }

  /** The id a raw patient is stored under. */
  function PatientIdOf(raw: TsPatient.SerializedPatient): Id
  {
    raw.id
  }

  /** `RebuiltPatient` for fixed clock and date parsing. */
  function Rebuilder(parse: string -> int, now: int, addSixMonths: int -> int)
    : TsPatient.SerializedPatient -> PatientState
  {
    raw => RebuiltPatient(raw, parse, now, addSixMonths)
  }

  /** Every entry of `m` is `rebuild` of the last of the first `n` raw
      records whose id it is, as `Map.set` in list order leaves it. */
  ghost predicate RebuiltFromLast<R, V>(m: map<Id, V>, raws: seq<R>, n: nat, idOf: R -> Id, rebuild: R -> V)
    requires n <= |raws|
  {
    forall pid :: pid in m ==>
      exists i :: 0 <= i < n && idOf(raws[i]) == pid && m[pid] == rebuild(raws[i]) &&
                  forall j :: i < j < n ==> idOf(raws[j]) != pid
  }

  /** Setting the next raw record's rebuilt value keeps every entry the
      last one of its id. */
  lemma RebuiltFromLastNext<R, V>(m: map<Id, V>, raws: seq<R>, n: nat, idOf: R -> Id, rebuild: R -> V)
    requires n < |raws| && RebuiltFromLast(m, raws, n, idOf, rebuild)
    ensures RebuiltFromLast(m[idOf(raws[n]) := rebuild(raws[n])], raws, n + 1, idOf, rebuild)
  {
    var m' := m[idOf(raws[n]) := rebuild(raws[n])];
    forall pid | pid in m'
      ensures exists i :: 0 <= i < n + 1 && idOf(raws[i]) == pid && m'[pid] == rebuild(raws[i]) &&
                          forall j :: i < j < n + 1 ==> idOf(raws[j]) != pid
    {
      if pid == idOf(raws[n]) {
        assert 0 <= n < n + 1 && idOf(raws[n]) == pid && m'[pid] == rebuild(raws[n]);
      } else {
        var i :| 0 <= i < n && idOf(raws[i]) == pid && m[pid] == rebuild(raws[i]) &&
                 forall j :: i < j < n ==> idOf(raws[j]) != pid;
        assert m'[pid] == m[pid];
      }
    }
  }

  /** The keys of `m` are exactly the ids of the first `n` raw records. */
  ghost predicate KeysFrom<R, V>(m: map<Id, V>, raws: seq<R>, n: nat, idOf: R -> Id)
    requires n <= |raws|
  {
    forall pid :: pid in m <==> exists j :: 0 <= j < n && idOf(raws[j]) == pid
  }

  /** Setting a value under the next raw record's id adds exactly that id. */
  lemma KeysFromNext<R, V>(m: map<Id, V>, raws: seq<R>, n: nat, idOf: R -> Id, v: V)
    requires n < |raws| && KeysFrom(m, raws, n, idOf)
    ensures KeysFrom(m[idOf(raws[n]) := v], raws, n + 1, idOf)
  {
    var m' := m[idOf(raws[n]) := v];
    forall pid
      ensures pid in m' <==> exists j :: 0 <= j < n + 1 && idOf(raws[j]) == pid
    {
      if pid in m' && pid != idOf(raws[n]) {
        assert pid in m;
      }
    }
  }

  /** `deserialize`'s clients: each raw client rebuilt, in order, failing
      at the first that is not a client. */
  method ClientsOfData(raws: seq<TsClient.ClientData>) returns (r: Result<seq<ClientState>, string>)
    ensures r.Err? <==> exists i :: 0 <= i < |raws| && raws[i].kind != "client"
    ensures r.Ok? ==> |r.value| == |raws| && forall j :: 0 <= j < |raws| ==> r.value[j].id == raws[j].id
    ensures r.Ok? ==> forall j :: 0 <= j < |raws| ==> r.value[j] == RebuiltClient(raws[j])
  {
    var clients: seq<ClientState> := [];
    for i := 0 to |raws|
      invariant forall j :: 0 <= j < i ==> raws[j].kind == "client"
      invariant |clients| == i && forall j :: 0 <= j < i ==> clients[j] == RebuiltClient(raws[j])
    {
      var raw := raws[i];
      if raw.kind != "client" {
        return Err("Not a client instance: " + raw.kind);
      }
      clients := clients + [TsClient.InitialClient(raw.id, TsClient.OptionsOf(raw))];
    }
    r := Ok(clients);
  }

  /** `deserialize`'s patients, each stored under its id, failing at the
      first that is not a patient. */
  method PatientsOfData(raws: seq<TsPatient.SerializedPatient>, parse: string -> int, now: int,
                        addSixMonths: int -> int) returns (r: Result<map<Id, PatientState>, string>)
    ensures r.Err? <==> exists i :: 0 <= i < |raws| && raws[i].kind != "patient"
    ensures r.Ok? ==> forall pid :: pid in r.value <==> exists i :: 0 <= i < |raws| && raws[i].id == pid
    ensures r.Ok? ==> RebuiltFromLast(r.value, raws, |raws|, PatientIdOf,
                                      Rebuilder(parse, now, addSixMonths))
  {
    var patients: map<Id, PatientState> := map[];
    for i := 0 to |raws|
      invariant forall j :: 0 <= j < i ==> raws[j].kind == "patient"
      invariant KeysFrom(patients, raws, i, PatientIdOf)
      invariant RebuiltFromLast(patients, raws, i, PatientIdOf, Rebuilder(parse, now, addSixMonths))
    {
      if raws[i].kind != "patient" {
        return Err("Not a patient instance: " + raws[i].kind);
      }
      patients := StoreRebuilt(patients, raws, i, parse, now, addSixMonths);
    }
    PatientKeys(patients, raws);
    r := Ok(patients);
  }

  /** Keyed by `PatientIdOf`, the keys are the records' ids. */
  lemma PatientKeys<V>(m: map<Id, V>, raws: seq<TsPatient.SerializedPatient>)
    requires KeysFrom(m, raws, |raws|, PatientIdOf)
    ensures forall pid :: pid in m <==> exists i :: 0 <= i < |raws| && raws[i].id == pid
  {
    assert forall j :: 0 <= j < |raws| ==> PatientIdOf(raws[j]) == raws[j].id;
  }

  /** One round of `deserialize`'s patient loop: the i-th raw patient
      rebuilt and set under its id. */
  method StoreRebuilt(patients: map<Id, PatientState>, raws: seq<TsPatient.SerializedPatient>, i: nat,
                      parse: string -> int, now: int, addSixMonths: int -> int)
    returns (next: map<Id, PatientState>)
    requires i < |raws| && KeysFrom(patients, raws, i, PatientIdOf)
    requires RebuiltFromLast(patients, raws, i, PatientIdOf, Rebuilder(parse, now, addSixMonths))
    ensures KeysFrom(next, raws, i + 1, PatientIdOf)
    ensures RebuiltFromLast(next, raws, i + 1, PatientIdOf, Rebuilder(parse, now, addSixMonths))
  {
    var patient := RebuildPatient(raws[i], parse, now, addSixMonths);
    assert patient.id == PatientIdOf(raws[i]) && patient == Rebuilder(parse, now, addSixMonths)(raws[i]);
    KeysFromNext(patients, raws, i, PatientIdOf, patient);
    RebuiltFromLastNext(patients, raws, i, PatientIdOf, Rebuilder(parse, now, addSixMonths));
    next := patients[patient.id := patient];
  }

  /** A stored patient rebuilt from its plain object, under its own id:
      the constructor's state for the deserialised options, clean, with
      one visit per serialised visit and both due dates. */
  method RebuildPatient(raw: TsPatient.SerializedPatient, parse: string -> int, now: int, addSixMonths: int -> int)
    returns (p: PatientState)
    ensures p.id == raw.id && p.dirty == {} && p.due.Keys == {"heartworm", "exam"}
    ensures |p.visits| == |raw.visits| && p.name == StringOr(raw.name, "(unnamed)")
    ensures p == RebuiltPatient(raw, parse, now, addSixMonths)
  {
    p := TsPatient.InitialState(raw.id, TsPatient.OptionsOf(raw, parse), now, addSixMonths);
  }

  /** `deserialize`'s matched ids, as a set. */
  method MatchedOfData(ids: seq<string>) returns (matched: set<Id>)
    ensures matched == set id | id in ids :: Some(id)
  {
    matched := {};
    for i := 0 to |ids|
      invariant matched == set j | 0 <= j < i :: Some(ids[j])
    {
      matched := matched + {Some(ids[i])};
    }
    forall id | id in ids
      ensures Some(id) in matched
    {
      var j :| 0 <= j < |ids| && ids[j] == id;
    }
  }

  /** The constructor's second loop: indexes every visit of every patient,
      the patients taken in an unspecified order. */
  method IndexAllVisits(stored: map<Id, PatientState>) returns (visits: map<Id, Id>)
    ensures IndexesVisits(visits, stored)
  {
    visits := map[];
    var todo := stored.Keys;
    while todo != {}
      invariant todo <= stored.Keys
      invariant IndexesVisits(visits, map pid | pid in stored.Keys - todo :: stored[pid])
      decreases todo
    {
      var pid :| pid in todo;
      ghost var done := map p | p in stored.Keys - todo :: stored[p];
      ghost var before := visits;
      visits := IndexVisits(visits, stored[pid]);
      todo := todo - {pid};
      IndexOneMore(before, visits, done, stored, pid, todo);
    }
    assert (map pid | pid in stored.Keys - todo :: stored[pid]) == stored;
  }

  /** The plain object `deserialize` reads. */
  datatype SearchResultsData = SearchResultsData(kind: string, clients: seq<TsClient.ClientData>,
                                                 patients: seq<TsPatient.SerializedPatient>,
                                                 matchedPatients: seq<string>)

  class SearchResults {
    var clientIDs: seq<Id>
    var patients: map<Id, PatientState>
    var visitIndex: map<Id, Id>
    var matchedPatients: set<Id>
    var clientsIndex: map<Id, ClientState>

    /** The constructor: ids in input order, each client indexed under its
        id, and every visit of every patient indexed. */
    constructor (clients: seq<ClientState>, patients: Option<map<Id, PatientState>>,
                 matchedPatients: Option<set<Id>>)
      ensures clientIDs == IdsOf(clients) && Length() == |clients|
      ensures this.patients == (if patients.Some? then patients.value else map[])
      ensures this.matchedPatients == (if matchedPatients.Some? then matchedPatients.value else {})
      ensures clientsIndex == IndexClients(clients)
      ensures IndexesVisits(visitIndex, this.patients)
    {
      clientIDs := IdsOf(clients);
      var stored := if patients.Some? then patients.value else map[];
      this.patients := stored;
      this.matchedPatients := if matchedPatients.Some? then matchedPatients.value else {};
      var index := IndexAll(clients);
      clientsIndex := index;
      var visits := IndexAllVisits(stored);
      visitIndex := visits;
    }

    /** `length` */
    function Length(): nat
      reads this
    {
      |clientIDs|
    }

    /** `getClient`; `None` is undefined. */
    function GetClient(id: Id): (r: Option<ClientState>)
      reads this
      ensures r.Some? <==> id in clientsIndex
    {
      if id in clientsIndex then Some(clientsIndex[id]) else None
    }

    /** `getPatient`; `None` is undefined. */
    function GetPatient(id: Id): (r: Option<PatientState>)
      reads this
      ensures r.Some? <==> id in patients
    {
      if id in patients then Some(patients[id]) else None
    }

    /** `map`: applies `f` to the client of each id in order, skipping ids
        with no indexed client. */
    method Map<T>(f: ClientState -> T) returns (result: seq<T>)
      ensures result == MapClients(clientIDs, clientsIndex, f)
    {
      result := [];
      for i := 0 to |clientIDs|
        invariant result == MapClients(clientIDs[..i], clientsIndex, f)
      {
        assert clientIDs[..i + 1][..i] == clientIDs[..i];
        var id := clientIDs[i];
        if id in clientsIndex {
          result := result + [f(clientsIndex[id])];
        }
      }
      assert clientIDs[..|clientIDs|] == clientIDs;
    }

    /** `refreshClient`: an id not seen before goes to the top of the list, a
        seen one stays in place; then the client is indexed. */
    method RefreshClient(client: ClientState)
      modifies this
      ensures clientIDs == if client.id in old(clientsIndex) then old(clientIDs) else [client.id] + old(clientIDs)
      ensures clientsIndex == old(clientsIndex)[client.id := client]
      ensures patients == old(patients) && visitIndex == old(visitIndex) && matchedPatients == old(matchedPatients)
    {
      if client.id !in clientsIndex {
        clientIDs := [client.id] + clientIDs;
      }
      clientsIndex := clientsIndex[client.id := client];
    }

    /** `refreshPatient`: forgets the old patient's visits that the new one
        lacks, stores the patient, and indexes every visit of it. */
    method RefreshPatient(patient: PatientState)
      modifies this
      ensures patients == old(patients)[patient.id := patient]
      ensures forall vid :: vid in visitIndex <==>
        vid in VisitIds(patient) ||
        (vid in old(visitIndex) && !(patient.id in old(patients) && vid in VisitIds(old(patients)[patient.id])))
      ensures forall vid :: vid in visitIndex ==>
        visitIndex[vid] == if vid in VisitIds(patient) then patient.id else old(visitIndex)[vid]
      ensures clientIDs == old(clientIDs) && clientsIndex == old(clientsIndex)
      ensures matchedPatients == old(matchedPatients)
    {
      if patient.id in patients {
        var oldPatient := patients[patient.id];
        var index := visitIndex;
        for i := 0 to |oldPatient.visits|
          invariant forall vid :: vid in index <==>
            vid in visitIndex &&
            !(vid !in VisitIds(patient) && exists j :: 0 <= j < i && oldPatient.visits[j].id == vid)
          invariant forall vid :: vid in index ==> index[vid] == visitIndex[vid]
        {
          var visit := oldPatient.visits[i];
          if visit.id !in VisitIds(patient) {
            index := index - {visit.id};
          }
        }
        forall vid | vid in VisitIds(oldPatient)
          ensures exists j :: 0 <= j < |oldPatient.visits| && oldPatient.visits[j].id == vid
        {
          var v :| v in oldPatient.visits && v.id == vid;
          var j :| 0 <= j < |oldPatient.visits| && oldPatient.visits[j] == v;
        }
        visitIndex := index;
      }
      patients := patients[patient.id := patient];
      visitIndex := IndexVisits(visitIndex, patient);
    }

    /** `deserialize`: rejects a type other than `search-results` and any
        client or patient that does not deserialise; otherwise builds the
        results from the deserialised records, each patient stored under its
        id, and the matched ids as a set. */
    static method Deserialize(data: SearchResultsData, parse: string -> int, now: int, addSixMonths: int -> int)
      returns (r: Result<SearchResults, string>)
      ensures r.Err? <==>
        data.kind != "search-results" ||
        (exists i :: 0 <= i < |data.clients| && data.clients[i].kind != "client") ||
        (exists i :: 0 <= i < |data.patients| && data.patients[i].kind != "patient")
      ensures r.Ok? ==> fresh(r.value)
      ensures r.Ok? ==> r.value.matchedPatients == set id | id in data.matchedPatients :: Some(id)
      ensures r.Ok? ==> |r.value.clientIDs| == |data.clients|
      ensures r.Ok? ==> forall i :: 0 <= i < |data.clients| ==> r.value.clientIDs[i] == data.clients[i].id
      ensures r.Ok? ==> IndexesVisits(r.value.visitIndex, r.value.patients)
      ensures r.Ok? ==> forall pid :: pid in r.value.patients <==>
        exists i :: 0 <= i < |data.patients| && data.patients[i].id == pid
      ensures r.Ok? ==> r.value.clientsIndex == IndexClients(seq(|data.clients|, i requires 0 <= i < |data.clients| =>
                                                                   RebuiltClient(data.clients[i])))
      ensures r.Ok? ==> RebuiltFromLast(r.value.patients, data.patients, |data.patients|, PatientIdOf,
                                        Rebuilder(parse, now, addSixMonths))
    {
      if data.kind != "search-results" {
        return Err("Not a SearchResult instance: " + data.kind);
      }
      var clients := ClientsOfData(data.clients);
      if clients.Err? {
        return Err(clients.error);
      }
      var patients := PatientsOfData(data.patients, parse, now, addSixMonths);
      if patients.Err? {
        return Err(patients.error);
      }
      var matched := MatchedOfData(data.matchedPatients);
      assert clients.value == seq(|data.clients|, i requires 0 <= i < |data.clients| => RebuiltClient(data.clients[i]));
      var results := new SearchResults(clients.value, Some(patients.value), Some(matched));
      r := Ok(results);
    }
  }

  /** One round of the constructor's visit loop keeps the index exact for
      the patients seen so far. */
  lemma IndexOneMore(before: map<Id, Id>, visits: map<Id, Id>, done: map<Id, PatientState>,
                     stored: map<Id, PatientState>, pid: Id, todo: set<Id>)
    requires pid in stored && pid !in todo
    requires done == map p | p in stored.Keys - (todo + {pid}) :: stored[p]
    requires IndexesVisits(before, done) && visits.Keys == before.Keys + VisitIds(stored[pid])
    requires forall vid :: vid in visits ==> visits[vid] == if vid in VisitIds(stored[pid]) then stored[pid].id else before[vid]
    ensures IndexesVisits(visits, map p | p in stored.Keys - todo :: stored[p])
  {
    var now := map p | p in stored.Keys - todo :: stored[p];
    assert now == done[pid := stored[pid]];
    AllVisitIdsAdd(done, pid, stored[pid]);
    forall vid | vid in visits
      ensures exists p :: p in now && vid in VisitIds(now[p]) && visits[vid] == now[p].id
    {
      if vid in VisitIds(stored[pid]) {
        assert pid in now && vid in VisitIds(now[pid]);
      } else {
        var p :| p in done && vid in VisitIds(done[p]) && before[vid] == done[p].id;
        assert p in now && now[p] == done[p];
      }
    }
  }

  /** Adding a patient adds its visit ids. */
  lemma AllVisitIdsAdd(done: map<Id, PatientState>, pid: Id, p: PatientState)
    requires pid !in done
    ensures AllVisitIds(done[pid := p]) == AllVisitIds(done) + VisitIds(p)
  {
    var now := done[pid := p];
    forall vid | vid in AllVisitIds(now)
      ensures vid in AllVisitIds(done) + VisitIds(p)
    {
      var q :| q in now && vid in VisitIds(now[q]);
      if q != pid {
        assert q in done && vid in VisitIds(done[q]);
      }
    }
    forall vid | vid in AllVisitIds(done) + VisitIds(p)
      ensures vid in AllVisitIds(now)
    {
      if vid in VisitIds(p) {
        assert pid in now && vid in VisitIds(now[pid]);
      } else {
        var q :| q in done && vid in VisitIds(done[q]);
        assert q in now && vid in VisitIds(now[q]);
      }
    }
  }
}
