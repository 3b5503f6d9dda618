/** The dummy in-memory server of server/vetclix/db.py: query normalisation with
    synonym expansion, client and patient records with their search documents,
    search results, and a dictionary-backed store. */
module VetclixDb {
  import opened Common
  import opened Text

  // ----- query normalisation -----

  /** SYNONYMNS, as (term, replacements) pairs in source order.  A single
      replacement is a one-element list. */
  const Synonyms: seq<(string, seq<string>)> := [
    ("cat", ["feline"]),
    ("dog", ["canine"]),
    ("neutered", ["male", "fixed"]),
    ("neuter", ["male", "fixed"]),
    ("spayed", ["female", "fixed"]),
    ("spay", ["female", "fixed"]),
    ("rabbit", ["lagomorph"]),
    ("bunny", ["lagomorph"]),
    ("lagomorpha", ["lagomorph"]),
    ("rat", ["rat", "rodent"]),
    ("mouse", ["mouse", "rodent"]),
    ("gsd", ["german shepherd", "canine"]),
    ("lab", ["labrador"]),
    ("calico", ["calico", "feline"]),
    ("deceased", ["inactive"]),
    ("dead", ["inactive"])
  ]

  /** `table.get(term)` */
  function Lookup(table: seq<(string, seq<string>)>, term: string): Option<seq<string>>
  {
    if table == [] then None
    else if table[0].0 == term then Some(table[0].1)
    else Lookup(table[1..], term)
  }

  /** A term that is no key of the table has no entry. */
  lemma {:induction false} LookupAbsent(table: seq<(string, seq<string>)>, term: string)
    requires forall i :: 0 <= i < |table| ==> table[i].0 != term
    ensures Lookup(table, term).None?
  {
    if table != [] {
      assert forall i :: 1 <= i < |table| ==> table[1..][i - 1] == table[i];
      LookupAbsent(table[1..], term);
    }
  }

  /** The term is no key of SYNONYMNS. */
  predicate NoSynonym(w: string)
  {
    forall i :: 0 <= i < |Synonyms| ==> Synonyms[i].0 != w
  }

  /** PUNCTUATION_PAT */
  predicate IsPunctuation(c: char)
  {
    c == '.' || c == '!' || c == '?' || c == ',' || c == '\'' || c == '"' || c == ':' || c == ';'
  }

  predicate NotPunctuation(c: char) { !IsPunctuation(c) }

  lemma LowerCharIsLower(c: char)
    ensures !('A' <= LowerChar(c) <= 'Z')
  {
  }

  /** A term lower-cased with its punctuation deleted. */
  function CleanTerm(word: string): (r: string)
    ensures |r| <= |word|
    ensures forall i :: 0 <= i < |r| ==> !IsPunctuation(r[i]) && !('A' <= r[i] <= 'Z')
    ensures forall i :: 0 <= i < |word| && !IsPunctuation(word[i]) && !('A' <= word[i] <= 'Z') ==> word[i] in r
  {
    var lower := Lower(word);
    var r := Filter(lower, NotPunctuation);
    forall i | 0 <= i < |r|
      ensures !('A' <= r[i] <= 'Z')
    {
      assert r[i] in lower;
      var k :| 0 <= k < |lower| && lower[k] == r[i];
      LowerCharIsLower(word[k]);
    }
    forall i | 0 <= i < |word| && !IsPunctuation(word[i]) && !('A' <= word[i] <= 'Z')
      ensures word[i] in r
    {
      assert lower[i] == word[i];
    }
    r
  }

  /** The terms a cleaned term stands for: its synonyms, or itself. */
  function Substitute(term: string): (r: seq<string>)
    ensures Lookup(Synonyms, term).None? ==> r == [term]
  {
    match Lookup(Synonyms, term)
    case Some(terms) => terms
    case None => [term]
  }

  /** Every word cleaned and substituted, in order. */
  function ExpandTerms(words: seq<string>): seq<string>
  {
    if words == [] then [] else Substitute(CleanTerm(words[0])) + ExpandTerms(words[1..])
  }

  /** A term is in the expansion iff some word stands for it. */
  lemma {:induction false} ExpandTermsMembers(words: seq<string>, t: string)
    ensures t in ExpandTerms(words) <==> exists i :: 0 <= i < |words| && t in Substitute(CleanTerm(words[i]))
  {
    if words != [] {
      ExpandTermsMembers(words[1..], t);
      assert forall i :: 1 <= i < |words| ==> words[i] == words[1..][i - 1];
    }
  }

  /** `normalize_query` */
  function NormalizeQuery(query: string): seq<string>
  {
    ExpandTerms(Words(query))
  }

  lemma {:induction false} ExpandTermsAppend(a: seq<string>, b: seq<string>)
    ensures ExpandTerms(a + b) == ExpandTerms(a) + ExpandTerms(b)
  {
    if a != [] {
      assert (a + b)[1..] == a[1..] + b;
      ExpandTermsAppend(a[1..], b);
    } else {
      assert a + b == b;
    }
  }

  /** Output terms come in the order of the input terms that produced them:
      normalising two texts separated by whitespace gives the two
      normalisations one after the other. */
  lemma NormalizeQueryAppend(a: string, c: char, b: string)
    requires IsSpace(c)
    ensures NormalizeQuery(a + [c] + b) == NormalizeQuery(a) + NormalizeQuery(b)
  {
    WordsAppend(a, c, b);
    ExpandTermsAppend(Words(a), Words(b));
  }

  lemma {:induction false} RunLengthOfWord(w: string)
    requires NoSpace(w)
    ensures RunLength(w) == |w|
  {
    if w != [] {
      RunLengthOfWord(w[1..]);
    }
  }

  /** A single term is lower-cased, stripped of punctuation and replaced by its
      synonyms; a term without synonyms passes through cleaned. */
  lemma NormalizeTerm(w: string)
    requires w != [] && NoSpace(w)
    ensures NormalizeQuery(w) == Substitute(CleanTerm(w))
    ensures Lookup(Synonyms, CleanTerm(w)).None? ==> NormalizeQuery(w) == [CleanTerm(w)]
  {
    RunLengthOfWord(w);
    assert w[..|w|] == w;
    assert w[|w|..] == [];
    assert Words(w) == [w];
    assert ExpandTerms([w]) == Substitute(CleanTerm(w)) + ExpandTerms([w][1..]);
    assert [w][1..] == [];
  }

  // ----- records -----

  /** A client record; its pet set is a duplicate-free list. */
  datatype Client = Client(recid: string, name: string, address: string, pets: seq<string>, note: string, version: int)

  /** A patient record; `sex` is a two-character code such as `m-`. */
  datatype Patient = Patient(recid: string, name: string, sex: string, species: string, breed: string,
                             description: string, note: string, active: bool, version: int)

  /** The keys of a serialised client dictionary; `None` is a missing key. */
  datatype ClientDict = ClientDict(kind: Option<string>, id: Option<string>, name: Option<string>,
                                   address: Option<string>, pets: Option<seq<string>>, note: Option<string>,
                                   version: Option<int>)

  /** The keys of a serialised patient dictionary; `None` is a missing key. */
  datatype PatientDict = PatientDict(kind: Option<string>, id: Option<string>, name: Option<string>,
                                     sex: Option<string>, species: Option<string>, breed: Option<string>,
                                     description: Option<string>, note: Option<string>, active: Option<bool>,
                                     version: Option<int>)

  /** What the store and the records raise. */
  datatype StoreError = KeyError(key: string) | ValueError(message: string)

  function GetOr<T>(o: Option<T>, default: T): T
  {
    if o.Some? then o.value else default
  }

  /** `Client(recid, options)`; `freshId` stands for `uuid.uuid4().hex`. */
  function NewClient(recid: Option<string>, options: ClientDict, freshId: string): (c: Client)
    ensures c.recid == (if recid.Some? then recid.value else freshId)
    ensures Distinct(c.pets)
    ensures forall p :: p in c.pets <==> options.pets.Some? && p in options.pets.value
  {
    Client(GetOr(recid, freshId), GetOr(options.name, ""), GetOr(options.address, ""),
           Dedup(GetOr(options.pets, [])), GetOr(options.note, ""), GetOr(options.version, 0))
  }

  function SerializeClient(c: Client): ClientDict
  {
    ClientDict(Some("client"), Some(c.recid), Some(c.name), Some(c.address), Some(c.pets), Some(c.note), Some(c.version))
  }

  /** `Client.deserialize`: a missing `id` raises KeyError. */
  function DeserializeClient(data: ClientDict, freshId: string): (r: Result<Client, StoreError>)
    ensures r.Err? <==> data.id.None?
    ensures r.Ok? ==> r.value.recid == data.id.value
  {
    if data.id.None? then Err(KeyError("id")) else Ok(NewClient(Some(data.id.value), data, freshId))
  }

  /** `Patient(recid, options)`; `freshId` stands for `uuid.uuid4().hex`. */
  function NewPatient(recid: Option<string>, options: PatientDict, freshId: string): (p: Patient)
    ensures p.recid == (if recid.Some? then recid.value else freshId)
    ensures p.active == (options.active.Some? && options.active.value)
  {
    Patient(GetOr(recid, freshId), GetOr(options.name, ""), GetOr(options.sex, ""), GetOr(options.species, ""),
            GetOr(options.breed, ""), GetOr(options.description, ""), GetOr(options.note, ""),
            GetOr(options.active, false), GetOr(options.version, 0))
  }

  function SerializePatient(p: Patient): PatientDict
  {
    PatientDict(Some("patient"), Some(p.recid), Some(p.name), Some(p.sex), Some(p.species), Some(p.breed),
                Some(p.description), Some(p.note), Some(p.active), Some(p.version))
  }

  /** `Patient.deserialize`: a missing `id` raises KeyError. */
  function DeserializePatient(data: PatientDict, freshId: string): (r: Result<Patient, StoreError>)
    ensures r.Err? <==> data.id.None?
    ensures r.Ok? ==> r.value.recid == data.id.value
  {
    if data.id.None? then Err(KeyError("id")) else Ok(NewPatient(Some(data.id.value), data, freshId))
  }

  /** A client survives serialisation: id, every field and version, and its
      pets as a set. */
  lemma ClientRoundTrip(c: Client, freshId: string)
    requires Distinct(c.pets)
    ensures DeserializeClient(SerializeClient(c), freshId) == Ok(c)
  {
    DedupOfDistinct(c.pets);
  }

  /** A patient survives serialisation: id, every field and version. */
  lemma PatientRoundTrip(p: Patient, freshId: string)
    ensures DeserializePatient(SerializePatient(p), freshId) == Ok(p)
  {
  }

  // ----- search documents -----

  /** The normalised terms of each component, one component after another. */
  function DocumentOf(components: seq<string>): seq<string>
  {
    if components == [] then [] else NormalizeQuery(components[0]) + DocumentOf(components[1..])
  }

  /** A term is in a document iff some component normalises to it. */
  lemma {:induction false} DocumentMembers(components: seq<string>, t: string)
    ensures t in DocumentOf(components) <==> exists i :: 0 <= i < |components| && t in NormalizeQuery(components[i])
  {
    if components != [] {
      DocumentMembers(components[1..], t);
      assert forall i :: 1 <= i < |components| ==> components[i] == components[1..][i - 1];
    }
  }

  /** `Client.get_search_document` */
  function ClientSearchDocument(c: Client): seq<string>
  {
    DocumentOf([c.recid, c.name, c.address, c.note])
  }

  /** The word a sex code's first character adds: `male`, `female` or none. */
  function SexWord(sex: string): (r: seq<string>)
    requires |sex| == 2
  {
    if sex[0] == 'm' then ["male"] else if sex[0] == 'f' then ["female"] else []
  }

  /** The word a sex code's second character adds: `intact`, `fixed` or none. */
  function IntactWord(sex: string): (r: seq<string>)
    requires |sex| == 2
  {
    if sex[1] == '+' then ["intact"] else if sex[1] == '-' then ["fixed"] else []
  }

  function ActiveWord(active: bool): string
  {
    if active then "active" else "inactive"
  }

  function PatientFields(p: Patient): seq<string>
  {
    [p.recid, p.name, p.species, p.breed, p.description, p.note]
  }

  /** The components of a patient's search document: its fields, a sex word, an
      intact word and `active` or `inactive`.  Unpacking a sex code that is not
      two characters long raises ValueError. */
  function PatientComponents(p: Patient): (r: Result<seq<string>, StoreError>)
    ensures r.Ok? <==> |p.sex| == 2
  {
    if |p.sex| != 2 then Err(ValueError("sex"))
    else Ok(PatientFields(p) + SexWord(p.sex) + IntactWord(p.sex) + [ActiveWord(p.active)])
  }

  /** `Patient.get_search_document` */
  function PatientSearchDocument(p: Patient): (r: Result<seq<string>, StoreError>)
    ensures r.Ok? <==> |p.sex| == 2
  {
    match PatientComponents(p)
    case Err(e) => Err(e)
    case Ok(components) => Ok(DocumentOf(components))
  }

  lemma DocumentOfAppend(a: seq<string>, b: seq<string>)
    ensures DocumentOf(a + b) == DocumentOf(a) + DocumentOf(b)
    decreases |a|
  {
    if a != [] {
      assert (a + b)[1..] == a[1..] + b;
      DocumentOfAppend(a[1..], b);
    } else {
      assert a + b == b;
    }
  }

  /** A lower-case word without spaces, punctuation or synonyms. */
  predicate PlainWord(w: string)
  {
    w != [] && NoSpace(w) && NoSynonym(w)
    && forall i :: 0 <= i < |w| ==> !IsPunctuation(w[i]) && !('A' <= w[i] <= 'Z')
  }

  /** A plain word normalises to itself. */
  lemma NormalizePlainWord(w: string)
    requires PlainWord(w)
    ensures NormalizeQuery(w) == [w]
  {
    NormalizeTerm(w);
    LowerOfLower(w);
    FilterKeepsAll(w, NotPunctuation);
    LookupAbsent(Synonyms, w);
  }

  /** The words a patient's sex code and active flag add are plain. */
  lemma PlainMale()
    ensures PlainWord("male")
  {
  }

  lemma PlainFemale()
    ensures PlainWord("female")
  {
  }

  lemma PlainIntact()
    ensures PlainWord("intact")
  {
  }

  lemma PlainFixed()
    ensures PlainWord("fixed")
  {
  }

  lemma PlainActive()
    ensures PlainWord("active")
  {
  }

  lemma PlainInactive()
    ensures PlainWord("inactive")
  {
  }

  lemma TagWordPlain(w: string)
    requires w == "male" || w == "female" || w == "intact" || w == "fixed" || w == "active" || w == "inactive"
    ensures PlainWord(w)
  {
    if w == "male" { PlainMale(); }
    else if w == "female" { PlainFemale(); }
    else if w == "intact" { PlainIntact(); }
    else if w == "fixed" { PlainFixed(); }
    else if w == "active" { PlainActive(); }
    else { PlainInactive(); }
  }

  lemma DocumentOfSingle(w: string)
    ensures DocumentOf([w]) == NormalizeQuery(w)
  {
    assert [w][1..] == [];
  }

  /** The document of at most one tag word is that word. */
  lemma TagDocument(words: seq<string>)
    requires words == [] || words == ["male"] || words == ["female"] || words == ["intact"]
          || words == ["fixed"] || words == ["active"] || words == ["inactive"]
    ensures DocumentOf(words) == words
  {
    if words != [] {
      var w := words[0];
      TagWordPlain(w);
      NormalizePlainWord(w);
      DocumentOfSingle(w);
    }
  }

  /** A patient's search document ends with the tags of its sex code: `male`
      or `female` for `m` or `f`, `intact` or `fixed` for `+` or `-`, and
      exactly one of `active` and `inactive`. */
  lemma PatientDocumentTags(p: Patient)
    requires |p.sex| == 2
    ensures PatientSearchDocument(p).value
         == DocumentOf(PatientFields(p)) + SexWord(p.sex) + IntactWord(p.sex) + [ActiveWord(p.active)]
    ensures var doc := PatientSearchDocument(p).value;
      && |doc| > 0 && doc[|doc| - 1] == (if p.active then "active" else "inactive")
      && (p.sex[0] == 'm' ==> "male" in doc)
      && (p.sex[0] == 'f' ==> "female" in doc)
      && (p.sex[1] == '+' ==> "intact" in doc)
      && (p.sex[1] == '-' ==> "fixed" in doc)
  {
    var base := PatientFields(p);
    var sexWord := SexWord(p.sex);
    var intactWord := IntactWord(p.sex);
    var last := [ActiveWord(p.active)];
    DocumentOfAppend(base + sexWord + intactWord, last);
    DocumentOfAppend(base + sexWord, intactWord);
    DocumentOfAppend(base, sexWord);
    TagDocument(last);
    TagDocument(sexWord);
    TagDocument(intactWord);
  }
}
