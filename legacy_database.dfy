/** The record layer of the Python prototype: tag tokenising, clients with
    mutable pet and contact sets, and patients. */
module LegacyDatabase {
  import opened Common
  import opened Text

  /** A regular-expression word character: an ASCII letter, digit or `_`.
      Every non-ASCII character counts as a word character. */
  predicate IsWordChar(c: char)
  {
    ('a' <= c <= 'z') || ('A' <= c <= 'Z') || ('0' <= c <= '9') || c == '_' || c as int > 0x7f
  }

  /** One trailing non-word character removed, when there is one. */
  function StripTag(w: string): (r: string)
    ensures |w| - 1 <= |r| <= |w| && r == w[..|r|]
    ensures w != [] && !IsWordChar(w[|w| - 1]) ==> |r| == |w| - 1
    ensures (w == [] || IsWordChar(w[|w| - 1])) ==> r == w
  {
    if w != [] && !IsWordChar(w[|w| - 1]) then w[..|w| - 1] else w
  }

  /** The tags of one input string: each whitespace-separated word,
      lower-cased, with a trailing non-word character removed. */
  function TagsOf(input: string): set<string>
  {
    set w | w in Words(input) :: StripTag(Lower(w))
  }

  /** `tokenize`: the tags of every input, as one set. */
  function Tokenize(inputs: seq<string>): set<string>
    decreases |inputs|
  {
    if inputs == [] then {} else Tokenize(inputs[..|inputs| - 1]) + TagsOf(inputs[|inputs| - 1])
  }

  /** A tag comes from some word of some input. */
  lemma {:induction false} TokenizeMembers(inputs: seq<string>, t: string)
    ensures t in Tokenize(inputs) <==> exists i :: 0 <= i < |inputs| && t in TagsOf(inputs[i])
    decreases |inputs|
  {
    if inputs != [] {
      var init := inputs[..|inputs| - 1];
      TokenizeMembers(init, t);
      assert forall i :: 0 <= i < |init| ==> init[i] == inputs[i];
    }
  }

  /** Tokenising is a union over the inputs: concatenating input lists
      joins their tag sets. */
  lemma {:induction false} TokenizeAppend(a: seq<string>, b: seq<string>)
    ensures Tokenize(a + b) == Tokenize(a) + Tokenize(b)
    decreases |b|
  {
    if b == [] {
      assert a + b == a;
    } else {
      var init := b[..|b| - 1];
      assert (a + b)[..|a + b| - 1] == a + init;
      TokenizeAppend(a, init);
    }
  }

  /** The order of the inputs does not matter. */
  lemma TokenizeAnyOrder(a: seq<string>, b: seq<string>)
    requires forall s :: s in a <==> s in b
    ensures Tokenize(a) == Tokenize(b)
  {
    forall t | true
      ensures t in Tokenize(a) <==> t in Tokenize(b)
    {
      TokenizeMembers(a, t);
      TokenizeMembers(b, t);
      if t in Tokenize(a) {
        var i :| 0 <= i < |a| && t in TagsOf(a[i]);
        assert a[i] in b;
      }
      if t in Tokenize(b) {
        var i :| 0 <= i < |b| && t in TagsOf(b[i]);
        assert b[i] in a;
      }
    }
  }

  /** Tags hold no capital letters and no whitespace. */
  lemma TagShape(input: string, t: string)
    requires t in TagsOf(input)
    ensures NoSpace(t)
    ensures forall i :: 0 <= i < |t| ==> !('A' <= t[i] <= 'Z')
  {
    var w :| w in Words(input) && t == StripTag(Lower(w));
    var i :| 0 <= i < |Words(input)| && Words(input)[i] == w;
    assert NoSpace(w);
    var lw := Lower(w);
    assert forall j :: 0 <= j < |t| ==> t[j] == lw[j];
  }

  /** `Record.__init__`: an empty id is replaced by a generated one
      (`freshId` stands for the text of `uuid.uuid4()`). */
  function RecordId(recid: string, freshId: string): (r: string)
    ensures recid != "" ==> r == recid
    ensures recid == "" ==> r == freshId
  {
    if recid == "" then freshId else recid
  }

  /** A contact entry `(info, category, note)`. */
  datatype Contact = Contact(info: string, category: string, note: string)

  /** A pet named by its Patient record or by a raw id. */
  datatype PetRef = ByPatient(recid: string) | ById(id: string)

  function PetId(pet: PetRef): string
  {
    match pet
    case ByPatient(recid) => recid
    case ById(id) => id
  }

  /** What the record methods raise. */
  datatype RecordError = KeyError(key: string)

  /** The tags of a set of contacts' first elements. */
  function ContactTags(contacts: set<Contact>): set<string>
  {
    set c, t | c in contacts && t in TagsOf(c.info) :: t
  }

  /** The first elements of a list of contacts. */
  function Infos(contacts: seq<Contact>): (r: seq<string>)
    ensures |r| == |contacts| && forall i :: 0 <= i < |r| ==> r[i] == contacts[i].info
  {
    seq(|contacts|, i requires 0 <= i < |contacts| => contacts[i].info)
  }

  /** Tokenising the first elements of a listing of a contact set gives the
      set's contact tags. */
  lemma ListingTags(listing: seq<Contact>, contacts: set<Contact>)
    requires forall c :: c in listing <==> c in contacts
    ensures Tokenize(Infos(listing)) == ContactTags(contacts)
  {
    forall t | true
      ensures t in Tokenize(Infos(listing)) <==> t in ContactTags(contacts)
    {
      TokenizeMembers(Infos(listing), t);
      if t in ContactTags(contacts) {
        var c :| c in contacts && t in TagsOf(c.info);
        var i :| 0 <= i < |listing| && listing[i] == c;
        assert Infos(listing)[i] == c.info;
      }
    }
  }

  /** A client of the prototype: a record with an address, a pet id set and
      a contact set. */
  class Client {
    var recid: string
    var name: string
    var notes: seq<string>
    var address: string
    var pets: set<string>
    var contactinfo: set<Contact>

    constructor (name: string, recid: string, address: string, freshId: string)
      ensures this.recid == RecordId(recid, freshId)
      ensures this.name == name && this.address == address && notes == []
      ensures pets == {} && contactinfo == {}
    {
      this.recid := RecordId(recid, freshId);
      this.name := name;
      this.address := address;
      notes := [];
      pets := {};
      contactinfo := {};
    }

    /** `tags`: the tags of every contact's first element, the notes, the
        name and the address. */
    function Tags(): set<string>
      reads this
    {
      ContactTags(contactinfo) + Tokenize(notes + [name, address])
    }

    /** Tokenising the contacts in any listing order, then the notes, name and
        address, as the source does, gives `Tags`. */
    lemma TagsOfListing(listing: seq<Contact>)
      requires forall c :: c in listing <==> c in contactinfo
      ensures Tokenize(Infos(listing) + notes + [name, address]) == Tags()
    {
      assert Infos(listing) + notes + [name, address] == Infos(listing) + (notes + [name, address]);
      TokenizeAppend(Infos(listing), notes + [name, address]);
      ListingTags(listing, contactinfo);
    }

    /** `get_column_data`: the columns `recid`, `name`, `address` in order. */
    function ColumnData(): (r: seq<(string, string)>)
      reads this
      ensures |r| == 3 && r[0].0 == "recid" && r[1].0 == "name" && r[2].0 == "address"
      ensures r[0].1 == recid && r[1].1 == name && r[2].1 == address
    {
      [("recid", recid), ("name", name), ("address", address)]
    }

    /** `add_pet`: idempotent insertion of the pet's id. */
    method AddPet(pet: PetRef)
      modifies this
      ensures pets == old(pets) + {PetId(pet)}
      ensures PetId(pet) in old(pets) ==> pets == old(pets)
      ensures recid == old(recid) && name == old(name) && notes == old(notes) && address == old(address)
      ensures contactinfo == old(contactinfo)
    {
      pets := pets + {PetId(pet)};
    }

    /** `remove_pet`: removing an absent id raises KeyError. */
    method RemovePet(pet: PetRef) returns (r: Option<RecordError>)
      modifies this
      ensures PetId(pet) in old(pets) ==> r.None? && pets == old(pets) - {PetId(pet)}
      ensures PetId(pet) !in old(pets) ==> r == Some(KeyError(PetId(pet))) && pets == old(pets)
      ensures PetId(pet) !in pets
      ensures recid == old(recid) && name == old(name) && notes == old(notes) && address == old(address)
      ensures contactinfo == old(contactinfo)
    {
      var id := PetId(pet);
      if id !in pets {
        return Some(KeyError(id));
      }
      pets := pets - {id};
      r := None;
    }

    /** `add_contact_info` */
    method AddContactInfo(info: Contact)
      modifies this
      ensures contactinfo == old(contactinfo) + {info}
      ensures recid == old(recid) && name == old(name) && notes == old(notes) && address == old(address)
      ensures pets == old(pets)
    {
      contactinfo := contactinfo + {info};
    }

    /** `get_contact_info`: a snapshot of the contact set that later changes
        to the client do not affect. */
    method GetContactInfo() returns (r: set<Contact>)
      ensures r == contactinfo
    {
      r := contactinfo;
    }

    /** `remove_contact_info`: removing an absent entry raises KeyError. */
    method RemoveContactInfo(info: Contact) returns (r: Option<RecordError>)
      modifies this
      ensures info in old(contactinfo) ==> r.None? && contactinfo == old(contactinfo) - {info}
      ensures info !in old(contactinfo) ==> r.Some? && contactinfo == old(contactinfo)
      ensures info !in contactinfo
      ensures recid == old(recid) && name == old(name) && notes == old(notes) && address == old(address)
      ensures pets == old(pets)
    {
      if info !in contactinfo {
        return Some(KeyError(info.info));
      }
      contactinfo := contactinfo - {info};
      r := None;
    }
  }

  /** A patient of the prototype. */
  datatype Patient = Patient(recid: string, name: string, notes: seq<string>, species: string, breed: string,
                             gender: string, description: string)

  function NewPatient(name: string, recid: string, species: string, breed: string, gender: string,
                      description: string, freshId: string): (p: Patient)
    ensures p.recid == RecordId(recid, freshId) && p.notes == []
  {
    Patient(RecordId(recid, freshId), name, [], species, breed, gender, description)
  }

  /** `Patient.tags` */
  function PatientTags(p: Patient): set<string>
  {
    Tokenize([p.name, p.species, p.breed, p.gender, p.description] + p.notes)
  }

  /** `Patient.get_column_data`: `recid`, `name`, `species`, `breed`,
      `gender`, `description` in order. */
  function PatientColumnData(p: Patient): (r: seq<(string, string)>)
    ensures |r| == 6
    ensures r[0] == ("recid", p.recid) && r[1] == ("name", p.name) && r[2] == ("species", p.species)
    ensures r[3] == ("breed", p.breed) && r[4] == ("gender", p.gender) && r[5] == ("description", p.description)
  {
    [("recid", p.recid), ("name", p.name), ("species", p.species), ("breed", p.breed),
     ("gender", p.gender), ("description", p.description)]
  }

  /** Every field of a patient contributes its tags, and nothing else does. */
  lemma PatientTagsMembers(p: Patient, t: string)
    ensures t in PatientTags(p) <==>
      t in TagsOf(p.name) || t in TagsOf(p.species) || t in TagsOf(p.breed) || t in TagsOf(p.gender)
      || t in TagsOf(p.description) || exists i :: 0 <= i < |p.notes| && t in TagsOf(p.notes[i])
  {
    var head := [p.name, p.species, p.breed, p.gender, p.description];
    TokenizeConcat(head, p.notes, t);
    TokenizeMembers(head, t);
    TokenizeMembers(p.notes, t);
    if t in Tokenize(head) {
      var i :| 0 <= i < |head| && t in TagsOf(head[i]);
      assert i == 0 || i == 1 || i == 2 || i == 3 || i == 4;
    }
    if t in TagsOf(p.name) {
      assert t in TagsOf(head[0]);
    } else if t in TagsOf(p.species) {
      assert t in TagsOf(head[1]);
    } else if t in TagsOf(p.breed) {
      assert t in TagsOf(head[2]);
    } else if t in TagsOf(p.gender) {
      assert t in TagsOf(head[3]);
    } else if t in TagsOf(p.description) {
      assert t in TagsOf(head[4]);
    }
  }

  /** The tags of two runs of inputs together are the tags of each. */
  lemma TokenizeConcat(a: seq<string>, b: seq<string>, t: string)
    ensures t in Tokenize(a + b) <==> t in Tokenize(a) || t in Tokenize(b)
  {
    TokenizeMembers(a + b, t);
    TokenizeMembers(a, t);
    TokenizeMembers(b, t);
    if t in Tokenize(a + b) {
      var i :| 0 <= i < |a + b| && t in TagsOf((a + b)[i]);
      if i < |a| {
        assert (a + b)[i] == a[i];
      } else {
        assert (a + b)[i] == b[i - |a|];
      }
    }
    if t in Tokenize(a) {
      var i :| 0 <= i < |a| && t in TagsOf(a[i]);
      assert (a + b)[i] == a[i];
    }
    if t in Tokenize(b) {
      var i :| 0 <= i < |b| && t in TagsOf(b[i]);
      assert (a + b)[|a| + i] == b[i];
    }
  }
}
