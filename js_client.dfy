/** Clients in the JavaScript generation of the browser client: the same
    record as the TypeScript one, with setters routed through `setAttr` and
    a `removePet` that calls a method JavaScript's Set does not have. */
module JsClient {
  import opened Common
  import opened TsClient

  /** The text attributes `setAttr` is called with. */
  datatype ClientAttr = NameAttr | AddressAttr | NoteAttr

  class Client {
    var id: Option<string>
    var name: string
    var address: string
    var pets: seq<string>
    var note: string
    var dirty: bool

    /** The pet list is a set: no id twice. */
    ghost predicate Valid()
      reads this
    {
      Distinct(pets)
    }

    function State(): ClientState
      reads this
    {
      ClientState(id, name, address, pets, note, dirty)
    }

    /** The constructor adds the option pets one by one to an empty set. */
    constructor (id: Option<string>, options: ClientOptions)
      ensures Valid()
      ensures State() == InitialClient(id, options)
    {
      this.id := id;
      name := StringOr(options.name, "(unnamed)");
      address := StringOr(options.address, "");
      note := StringOr(options.note, "");
      var petSet: seq<string> := [];
      if options.pets.Some? {
        var ids := options.pets.value;
        for i := 0 to |ids|
          invariant petSet == Dedup(ids[..i])
        {
          assert ids[..i + 1][..i] == ids[..i];
          petSet := AddLast(petSet, ids[i]);
        }
        assert ids[..|ids|] == ids;
      }
      pets := petSet;
      dirty := false;
    }

    /** `setAttr`: marks the client dirty and stores the value. */
    method SetAttr(key: ClientAttr, val: string)
      modifies this
      ensures key == NameAttr ==> State() == old(State()).(name := val, dirty := true)
      ensures key == AddressAttr ==> State() == old(State()).(address := val, dirty := true)
      ensures key == NoteAttr ==> State() == old(State()).(note := val, dirty := true)
    {
      dirty := true;
      match key
      case NameAttr => name := val;
      case AddressAttr => address := val;
      case NoteAttr => note := val;
    }

    /** `set name` */
    method SetName(val: string)
      modifies this
      ensures State() == old(State()).(name := val, dirty := true)
    {
      SetAttr(NameAttr, val);
    }

    /** `set address` */
    method SetAddress(val: string)
      modifies this
      ensures State() == old(State()).(address := val, dirty := true)
    {
      SetAttr(AddressAttr, val);
    }

    /** `set note` */
    method SetNote(val: string)
      modifies this
      ensures State() == old(State()).(note := val, dirty := true)
    {
      SetAttr(NoteAttr, val);
    }

    /** `hasPet` */
    predicate HasPet(petID: string)
      reads this
    {
      petID in pets
    }

    /** `addPet`: afterwards the client has the pet and is dirty. */
    method AddPet(petID: string)
      requires Valid()
      modifies this
      ensures Valid() && dirty && HasPet(petID)
      ensures forall p :: HasPet(p) <==> old(HasPet(p)) || p == petID
      ensures State() == old(State()).(pets := AddLast(old(pets), petID), dirty := true)
    {
      dirty := true;
      pets := AddLast(pets, petID);
    }

    /** `removePet`, as written: marks the client dirty and then throws a
        TypeError, because a Set has `delete` and no `remove`; the pets stay
        as they were, so the pet is still there if it was. */
    method RemovePet(petID: string) returns (err: Option<string>)
      modifies this
      ensures err.Some?
      ensures State() == old(State()).(dirty := true)
      ensures old(HasPet(petID)) ==> HasPet(petID)
    {
      dirty := true;
      err := Some("TypeError: this._pets.remove is not a function");
    }

    /** `serialize` */
    function Serialize(): (r: ClientData)
      reads this
      ensures r.kind == "client" && r.id == id
    {
      ClientDataOf(State())
    }

    /** `Client.deserialize`: rejects a type other than `client`. */
    static method Deserialize(data: ClientData) returns (r: Result<Client, string>)
      ensures r.Err? <==> data.kind != "client"
      ensures r.Ok? ==> fresh(r.value) && r.value.Valid() && r.value.State() == InitialClient(data.id, OptionsOf(data))
    {
      if data.kind != "client" {
        return Err("Not a client instance: " + data.kind);
      }
      var client := new Client(data.id, OptionsOf(data));
      r := Ok(client);
    }
  }
}
