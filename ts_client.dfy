/** Clients in the TypeScript client: a mutable record with a dirty flag and
    a set of pet ids (kept in insertion order, as a JavaScript Set lists
    it), and (de)serialisation. */
module TsClient {
  import opened Common

  /** The constructor's options; `None` is a missing property. */
  datatype ClientOptions = ClientOptions(name: Option<string>, address: Option<string>, note: Option<string>,
                                         pets: Option<seq<string>>)

  /** The plain object `serialize` produces and `deserialize` reads; the id
      is serialised under the key `id`. */
  datatype ClientData = ClientData(kind: string, id: Option<string>, name: Option<string>,
                                   address: Option<string>, pets: Option<seq<string>>, note: Option<string>)

  /** A snapshot of a client's fields. */
  datatype ClientState = ClientState(id: Option<string>, name: string, address: string, pets: seq<string>,
                                     note: string, dirty: bool)

  /** The client the constructor builds: a missing or empty name is
      `(unnamed)`, missing text is empty, the pets are the distinct ids of
      the options in first-seen order, and nothing is dirty. */
  function InitialClient(id: Option<string>, o: ClientOptions): (s: ClientState)
    ensures s.id == id && !s.dirty && Distinct(s.pets)
    ensures s.name == StringOr(o.name, "(unnamed)")
    ensures forall p :: p in s.pets <==> o.pets.Some? && p in o.pets.value
  {
    ClientState(id, StringOr(o.name, "(unnamed)"), StringOr(o.address, ""),
                if o.pets.Some? then Dedup(o.pets.value) else [], StringOr(o.note, ""), false)
  }

  /** The plain object `serialize` makes of a client. */
  function ClientDataOf(s: ClientState): (r: ClientData)
    ensures r.kind == "client" && r.id == s.id && r.pets == Some(s.pets)
  {
    ClientData("client", s.id, Some(s.name), Some(s.address), Some(s.pets), Some(s.note))
  }

  /** The options `deserialize` hands to the constructor. */
  function OptionsOf(data: ClientData): ClientOptions
  {
    ClientOptions(data.name, data.address, data.note, data.pets)
  }

  /** Deserialising a serialised client keeps id, address, note, pets and a
      non-empty name, and clears the dirty flag. */
  lemma ClientRoundTrip(s: ClientState)
    requires s.name != "" && Distinct(s.pets)
    ensures InitialClient(s.id, OptionsOf(ClientDataOf(s))) == s.(dirty := false)
  {
    DedupOfDistinct(s.pets);
  }

  /** An empty name comes back as `(unnamed)`. */
  lemma UnnamedClientRoundTrip(s: ClientState)
    requires s.name == ""
    ensures InitialClient(s.id, OptionsOf(ClientDataOf(s))).name == "(unnamed)"
  {
  }

  class Client {
    var id: Option<string>
    var name: string
    var address: string
    var pets: seq<string>
    var note: string
    var dirty: bool

    /** The pet list is a set: no id twice. */
    ghost predicate Valid()
      reads this
    {
      Distinct(pets)
    }

    function State(): ClientState
      reads this
    {
      ClientState(id, name, address, pets, note, dirty)
    }

    /** The constructor adds the option pets one by one to an empty set. */
    constructor (id: Option<string>, options: ClientOptions)
      ensures Valid()
      ensures State() == InitialClient(id, options)
    {
      this.id := id;
      name := StringOr(options.name, "(unnamed)");
      address := StringOr(options.address, "");
      note := StringOr(options.note, "");
      var petSet: seq<string> := [];
      if options.pets.Some? {
        var ids := options.pets.value;
        for i := 0 to |ids|
          invariant petSet == Dedup(ids[..i])
        {
          assert ids[..i + 1][..i] == ids[..i];
          petSet := AddLast(petSet, ids[i]);
        }
        assert ids[..|ids|] == ids;
      }
      pets := petSet;
      dirty := false;
    }

    /** `set name` */
    method SetName(val: string)
      modifies this
      ensures State() == old(State()).(name := val, dirty := true)
    {
      dirty := true;
      name := val;
    }

    /** `set address` */
    method SetAddress(val: string)
      modifies this
      ensures State() == old(State()).(address := val, dirty := true)
    {
      dirty := true;
      address := val;
    }

    /** `set note` */
    method SetNote(val: string)
      modifies this
      ensures State() == old(State()).(note := val, dirty := true)
    {
      dirty := true;
      note := val;
    }

    /** `hasPet` */
    predicate HasPet(petID: string)
      reads this
    {
      petID in pets
    }

    /** `addPet`: afterwards the client has the pet; an id already present
        leaves the pets as they were. */
    method AddPet(petID: string)
      requires Valid()
      modifies this
      ensures Valid() && dirty && HasPet(petID)
      ensures old(HasPet(petID)) ==> pets == old(pets)
      ensures forall p :: HasPet(p) <==> old(HasPet(p)) || p == petID
      ensures State() == old(State()).(pets := AddLast(old(pets), petID), dirty := true)
    {
      dirty := true;
      pets := AddLast(pets, petID);
    }

    /** `removePet`: afterwards the client lacks the pet and keeps every
        other. */
    method RemovePet(petID: string)
      requires Valid()
      modifies this
      ensures Valid() && dirty && !HasPet(petID)
      ensures forall p :: HasPet(p) <==> old(HasPet(p)) && p != petID
      ensures State() == old(State()).(pets := Remove(old(pets), petID), dirty := true)
    {
      dirty := true;
      pets := Remove(pets, petID);
    }

    /** `serialize` */
    function Serialize(): (r: ClientData)
      reads this
      ensures r.kind == "client" && r.id == id
    {
      ClientDataOf(State())
    }

    /** `deserialize`: rejects a type other than `client`. */
    static method Deserialize(data: ClientData) returns (r: Result<Client, string>)
      ensures r.Err? <==> data.kind != "client"
      ensures r.Ok? ==> fresh(r.value) && r.value.Valid() && r.value.State() == InitialClient(data.id, OptionsOf(data))
    {
      if data.kind != "client" {
        return Err("Not a client instance: " + data.kind);
      }
      var client := new Client(data.id, OptionsOf(data));
      r := Ok(client);
    }
  }
}
