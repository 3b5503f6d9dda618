/** Clients in the Go server: deserialisation of the JSON protocol form,
    conversion to and from the database form, the update document, and
    sorting by a caller's comparison. */
module GoClient {
  import opened Common
  import opened Sorting
  import opened GoUtil
  import opened GoVisit

  /** `PhoneInfo` */
  datatype PhoneInfo = PhoneInfo(number: string, note: string)

  /** `ResponseClient` */
  datatype ResponseClient = ResponseClient(kind: string, id: string, name: string, phone: seq<PhoneInfo>,
                                           email: string, address: string, pets: seq<string>, note: string,
                                           dirty: seq<string>)

  /** `DatabaseClient` */
  datatype DatabaseClient = DatabaseClient(id: string, kind: string, name: string, phone: seq<PhoneInfo>,
                                           email: string, address: string, pets: seq<string>, note: string)

  /** A phone entry is an object with a string number and a string note. */
  predicate PhoneOk(v: Value)
  {
    v.VObj? && IsStr(v.fields, "number") && IsStr(v.fields, "note")
  }

  predicate PhonesOk(items: seq<Value>)
  {
    forall i :: 0 <= i < |items| ==> PhoneOk(items[i])
  }

  /** Every type assertion of `DeserializeResponseClient` on the client's own
      fields succeeds and the type is `client`. */
  predicate ClientFieldsOk(data: map<string, Value>)
  {
    && IsStr(data, "type") && data["type"].s == "client"
    && IsStr(data, "id") && IsStr(data, "name") && IsStr(data, "address") && IsStr(data, "email")
    && IsStr(data, "note") && "pets" in data && data["pets"].VList? && "phone" in data && data["phone"].VList?
  }

  /** `DeserializeResponseClient` succeeds. */
  predicate ClientDataOk(data: map<string, Value>)
  {
    ClientFieldsOk(data) && AllStrings(data["pets"].items) && PhonesOk(data["phone"].items)
  }

  function PhonesFromData(items: seq<Value>): (r: seq<PhoneInfo>)
    requires PhonesOk(items)
    ensures |r| == |items|
    ensures forall i :: 0 <= i < |items| ==>
      r[i] == PhoneInfo(items[i].fields["number"].s, items[i].fields["note"].s)
  {
    seq(|items|, i requires 0 <= i < |items| && PhonesOk(items) =>
      PhoneInfo(items[i].fields["number"].s, items[i].fields["note"].s))
  }

  /** The client a well-formed JSON object describes: pets and phones in
      their input order. */
  function ClientFromData(data: map<string, Value>): (c: ResponseClient)
    requires ClientDataOk(data)
    ensures c.kind == "client"
    ensures |c.pets| == |data["pets"].items| && forall i :: 0 <= i < |c.pets| ==> c.pets[i] == data["pets"].items[i].s
    ensures |c.phone| == |data["phone"].items|
  {
    StringsOfAllStrings(data["pets"].items);
    ResponseClient("client", data["id"].s, data["name"].s, PhonesFromData(data["phone"].items), data["email"].s,
                   data["address"].s, StringsOf(data["pets"].items), data["note"].s, ExtractStringList(data, "dirty"))
  }

  /** `DeserializeResponseClient`: fails unless the type is `client`, every
      field has its type, every pet id is a string and every phone entry is
      an object with string number and note. */
  method DeserializeResponseClient(data: map<string, Value>) returns (r: Result<ResponseClient, string>)
    ensures r.Ok? <==> ClientDataOk(data)
    ensures r.Ok? ==> r.value == ClientFromData(data)
  {
    if !ClientFieldsOk(data) {
      return Err("Failed to deserialize client");
    }
    var rawPets := data["pets"].items;
    var pets: seq<string> := [];
    var i := 0;
    while i < |rawPets|
      invariant 0 <= i <= |rawPets|
      invariant AllStrings(rawPets[..i]) && pets == StringsOf(rawPets[..i])
    {
      assert rawPets[..i + 1] == rawPets[..i] + [rawPets[i]];
      StringsOfAppend(rawPets[..i], [rawPets[i]]);
      if !rawPets[i].VStr? {
        assert !AllStrings(rawPets);
        return Err("Incorrect patient ID type");
      }
      pets := pets + [rawPets[i].s];
      i := i + 1;
    }
    assert rawPets[..i] == rawPets;
    var rawPhones := data["phone"].items;
    var phones: seq<PhoneInfo> := [];
    var j := 0;
    while j < |rawPhones|
      invariant 0 <= j <= |rawPhones|
      invariant PhonesOk(rawPhones[..j])
      invariant |phones| == j && forall k :: 0 <= k < j ==>
        phones[k] == PhoneInfo(rawPhones[k].fields["number"].s, rawPhones[k].fields["note"].s)
    {
      if !PhoneOk(rawPhones[j]) {
        return Err("Incorrect phone info");
      }
      var phoneMap := rawPhones[j].fields;
      phones := phones + [PhoneInfo(phoneMap["number"].s, phoneMap["note"].s)];
      j := j + 1;
    }
    assert rawPhones[..j] == rawPhones;
    r := Ok(ResponseClient("client", data["id"].s, data["name"].s, phones, data["email"].s, data["address"].s,
                           pets, data["note"].s, ExtractStringList(data, "dirty")));
  }

  /** `ToRealClient`: the database form, of type `client`. */
  function ToRealClient(c: ResponseClient): (r: DatabaseClient)
    ensures r.kind == "client" && r.id == c.id
  {
    DatabaseClient(c.id, "client", c.name, c.phone, c.email, c.address, c.pets, c.note)
  }

  /** `DatabaseClient.ToResponse`: the protocol form, of type `client`, with
      no dirty list. */
  function ToResponse(d: DatabaseClient): (r: ResponseClient)
    ensures r.kind == "client" && r.id == d.id && r.dirty == []
  {
    ResponseClient("client", d.id, d.name, d.phone, d.email, d.address, d.pets, d.note, [])
  }

  /** Converting to the database form and back changes nothing but the type
      and the dirty list. */
  lemma ClientRoundTrip(c: ResponseClient)
    ensures ToResponse(ToRealClient(c)) == c.(kind := "client", dirty := [])
  {
  }

  /** Converting a stored client to the protocol form and back changes
      nothing but the type. */
  lemma DatabaseClientRoundTrip(d: DatabaseClient)
    ensures ToRealClient(ToResponse(d)) == d.(kind := "client")
  {
  }

  function PhoneValue(p: PhoneInfo): Value
  {
    VObj(map["number" := VStr(p.number), "note" := VStr(p.note)])
  }

  /** The update value of a client field; `None` for `pets` and for names
      that are not updatable. */
  function ClientField(c: ResponseClient, name: string): (r: Option<Value>)
    ensures r.Some? <==> name in {"name", "phone", "email", "address", "note"}
  {
    if name == "name" then Some(VStr(c.name))
    else if name == "phone" then Some(VList(seq(|c.phone|, i requires 0 <= i < |c.phone| => PhoneValue(c.phone[i]))))
    else if name == "email" then Some(VStr(c.email))
    else if name == "address" then Some(VStr(c.address))
    else if name == "note" then Some(VStr(c.note))
    else None
  }

  /** `ResponseClient.CreateUpdateDocument`: one key per dirty name among
      the five updatable fields, mapped to its current value; `pets` and
      unknown names are skipped. */
  method CreateUpdateDocument(c: ResponseClient) returns (changes: map<string, Value>)
    ensures forall k :: k in changes <==> k in c.dirty && k in {"name", "phone", "email", "address", "note"}
    ensures forall k :: k in changes ==> changes[k] == ClientField(c, k).value
    ensures "pets" !in changes
  {
    changes := FillUpdates(c.dirty, "", name => ClientField(c, name));
    assert forall name: string :: "" + name == name;
  }

  /** `SortClients`: sorts `values` in place by the comparison `less` (`by`
      in the source), which `sort.Sort` requires to be a strict weak order,
      leaving a permutation in which no client is less than one before it. */
  method SortClients(values: array<DatabaseClient>, less: (DatabaseClient, DatabaseClient) -> bool)
    requires StrictWeakOrder(less)
    modifies values
    ensures SortedBy(values[..], less)
    ensures multiset(values[..]) == multiset(old(values[..]))
  {
    SortBy(values, less);
  }
}
