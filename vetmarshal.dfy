/** The wire messages of the Python prototype: error and success codes and
    list-shaped client and patient records, built as s-expression trees. */
module Vetmarshal {
  import opened Common
  import opened Text
  import opened Sexp
  import opened LegacyDatabase

  /** What reading a message raises. */
  datatype MarshalError =
    | IndexError            // the message is too short
    | TypeError             // an integer has no elements
    | ListText              // `str` of a nested list, which is not modelled

  /** `error(code)`, where `code` is already the text `str(code)`. */
  function Error(code: string): (r: SExp)
    ensures r.List? && |r.items| == 2 && r.items[0] == Str("error")
  {
    List([Str("error"), Str(code)])
  }

  /** `str` of one message element. */
  function TextOf(v: SExp): Result<string, MarshalError>
  {
    match v
    case Str(s) => Ok(s)
    case Num(n) => Ok(Decimal(n))
    case List(_) => Err(ListText)
  }

  /** `parse_error(err)`: the text of the second element.  A string message
      yields its second character; a too-short message raises IndexError and
      an integer TypeError. */
  function ParseError(err: SExp): (r: Result<string, MarshalError>)
    ensures err.List? && |err.items| < 2 ==> r == Err(MarshalError.IndexError)
    ensures err.Num? ==> r == Err(MarshalError.TypeError)
    ensures err.Str? ==> (r.Ok? <==> |err.s| >= 2)
  {
    match err
    case List(items) => if |items| < 2 then Err(MarshalError.IndexError) else TextOf(items[1])
    case Str(s) => if |s| < 2 then Err(MarshalError.IndexError) else Ok([s[1]])
    case Num(_) => Err(MarshalError.TypeError)
  }

  /** Reading an error message gives back its code. */
  lemma ParseErrorOfError(code: string)
    ensures ParseError(Error(code)) == Ok(code)
  {
  }

  /** An error message survives the s-expression wire unchanged. */
  lemma ErrorOverTheWire(code: string)
    ensures ParseSpec(Dump(Error(code))) == Ok(Error(code))
    ensures ParseError(ParseSpec(Dump(Error(code))).value) == Ok(code)
  {
    assert Dump(Error(code)) + [] == Dump(Error(code));
    ParseDump(Error(code), []);
  }

  /** `success()` */
  function Success(): (r: SExp)
    ensures r.List? && |r.items| == 1
  {
    List([Str("ok")])
  }

  /** A success message is never an error message, and has no code. */
  lemma SuccessIsNoError(code: string)
    ensures Success() != Error(code)
    ensures ParseError(Success()) == Err(MarshalError.IndexError)
  {
  }

  /** `s` lists every element of `S` exactly once: one iteration order of a
      Python set. */
  predicate Enumerates<T(!new)>(s: seq<T>, S: set<T>)
  {
    Distinct(s) && (forall x :: x in s ==> x in S) && (forall x :: x in S ==> x in s)
  }

  lemma {:induction false} EnumerationSize<T(!new)>(s: seq<T>, S: set<T>)
    requires Enumerates(s, S)
    ensures |s| == |S|
    decreases |s|
  {
    if s != [] {
      assert Distinct(s[1..]);
      assert s[0] !in s[1..];
      assert forall x :: x in s[1..] <==> x in S - {s[0]};
      EnumerationSize(s[1..], S - {s[0]});
    }
  }

  function Strs(ss: seq<string>): (r: seq<SExp>)
    ensures |r| == |ss| && forall i :: 0 <= i < |ss| ==> r[i] == Str(ss[i])
  {
    seq(|ss|, i requires 0 <= i < |ss| => Str(ss[i]))
  }

  /** A contact tuple, which dumps as a list. */
  function ContactTree(c: Contact): SExp
  {
    List([Str(c.info), Str(c.category), Str(c.note)])
  }

  function ContactTrees(cs: seq<Contact>): (r: seq<SExp>)
    ensures |r| == |cs| && forall i :: 0 <= i < |cs| ==> r[i] == ContactTree(cs[i])
  {
    seq(|cs|, i requires 0 <= i < |cs| => ContactTree(cs[i]))
  }

  /** `client(obj)`: the tag, id, name and address, then the pet ids and the
      contact tuples in the sets' iteration orders `pets` and `contacts`, then
      an empty list. */
  function MarshalClient(obj: LegacyDatabase.Client, pets: seq<string>, contacts: seq<Contact>): (r: SExp)
    reads obj
    requires Enumerates(pets, obj.pets) && Enumerates(contacts, obj.contactinfo)
    ensures r.List? && |r.items| == 5 + |obj.pets| + |obj.contactinfo|
    ensures r.items[..4] == [Str("client"), Str(obj.recid), Str(obj.name), Str(obj.address)]
    ensures forall p :: p in obj.pets <==> Str(p) in r.items[4..4 + |obj.pets|]
    ensures forall c :: c in obj.contactinfo <==>
      ContactTree(c) in r.items[4 + |obj.pets|..4 + |obj.pets| + |obj.contactinfo|]
    ensures r.items[|r.items| - 1] == List([])
  {
    EnumerationSize(pets, obj.pets);
    EnumerationSize(contacts, obj.contactinfo);
    var head := [Str("client"), Str(obj.recid), Str(obj.name), Str(obj.address)];
    var items := head + Strs(pets) + ContactTrees(contacts) + [List([])];
    assert items[..4] == head;
    assert items[4..4 + |pets|] == Strs(pets);
    assert items[4 + |pets|..4 + |pets| + |contacts|] == ContactTrees(contacts);
    assert forall p :: Str(p) in Strs(pets) <==> p in pets by {
      forall p | Str(p) in Strs(pets) ensures p in pets {
        var i :| 0 <= i < |pets| && Strs(pets)[i] == Str(p);
      }
    }
    assert forall c :: ContactTree(c) in ContactTrees(contacts) <==> c in contacts by {
      forall c | ContactTree(c) in ContactTrees(contacts) ensures c in contacts {
        var i :| 0 <= i < |contacts| && ContactTrees(contacts)[i] == ContactTree(c);
      }
    }
    List(items)
  }

  /** A client message survives the s-expression wire unchanged. */
  lemma ClientOverTheWire(obj: LegacyDatabase.Client, pets: seq<string>, contacts: seq<Contact>)
    requires Enumerates(pets, obj.pets) && Enumerates(contacts, obj.contactinfo)
    ensures ParseSpec(Dump(MarshalClient(obj, pets, contacts))) == Ok(MarshalClient(obj, pets, contacts))
  {
    var t := MarshalClient(obj, pets, contacts);
    assert Dump(t) + [] == Dump(t);
    ParseDump(t, []);
  }

  /** `patient(obj)`: the tag and the six text fields, then an empty list. */
  function MarshalPatient(obj: LegacyDatabase.Patient): (r: SExp)
    ensures r.List? && |r.items| == 8 && r.items[0] == Str("patient") && r.items[7] == List([])
    ensures TextOf(r.items[1]) == Ok(obj.recid) && TextOf(r.items[2]) == Ok(obj.name)
    ensures TextOf(r.items[3]) == Ok(obj.species) && TextOf(r.items[4]) == Ok(obj.breed)
    ensures TextOf(r.items[5]) == Ok(obj.gender) && TextOf(r.items[6]) == Ok(obj.description)
  {
    List([Str("patient"), Str(obj.recid), Str(obj.name), Str(obj.species), Str(obj.breed), Str(obj.gender),
          Str(obj.description), List([])])
  }

  /** A patient message survives the s-expression wire unchanged. */
  lemma PatientOverTheWire(obj: LegacyDatabase.Patient)
    ensures ParseSpec(Dump(MarshalPatient(obj))) == Ok(MarshalPatient(obj))
  {
    var t := MarshalPatient(obj);
    assert Dump(t) + [] == Dump(t);
    ParseDump(t, []);
  }
}
