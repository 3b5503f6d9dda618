# vetshelf, modelled in Dafny

vetshelf is a small veterinary-records application. Its repository keeps several generations side by side. This project models the data layer of each generation:

- **The Python prototype.** `sexp.py` is the s-expression codec: a character-driven parser with a state stack and a list stack, plus a recursive dumper. `database.py` holds tokenising, tags and the `Record`/`Client`/`Patient` objects. `vetmarshal.py` marshals records into wire lists.
- **The Python dummy server** (`server/vetclix/db.py`). It covers query normalisation with synonym expansion, search documents, subset-matching search, upcoming visits, and the in-memory `DummyConnection` store.
- **The Go server's record layer** (`server/patient.go`, `visit.go`, `client.go`, `util.go`). It covers sex-code validation, type-checked deserialisation, dirty-field update documents, sorted task lists, the most recent visit with a task, and due dates.
- **The browser client in TypeScript** (`client/src/*.ts`). It covers patient, client, visit and phone records with dirty tracking; search results with indexes kept in sync; the IndexedDB wrapper `Hopps`; and the `Database` that coordinates them with the search worker.
- **The older JavaScript generation of the browser client** (`client/src/*.js`).

Each source file is one Dafny module:

- Pure code becomes datatypes, functions and lemmas.
- Code that updates state becomes classes or methods whose contracts give the new state, with loop invariants on their loops.
- Sexp's parser loop is a method proved equal to a left fold of one step function over the input.

Three modules are shared:

- `Common`: `Option`, `Result`, a JSON-like `Value`, and sequence helpers.
- `Text`: Python's `split`, `lower`, `join` and `str` on integers.
- `Sorting`: string order and an in-place insertion sort, standing for Go's `sort.Strings` and `sort.Sort`.

Dates are integers. The current time, date parsing and formatting, adding six months, and the table of task intervals are parameters. Generated ids, record summaries and the search worker's answers are parameters too.

## Model

| member | source | states |
|---|---|---|
| `Sexp.Parse` | sexp.py:34-136 | the character loop (initial state, STRING/ESCAPE/NUMBER/LIST branches, the atomic and unclosed-list exits) returns exactly `ParseSpec(input)`, one `Step` per character |
| `Sexp.StringChar` | sexp.py:71-82 | the STRING branch: a quote appends the buffer to the open list and pops the state, a backslash pushes ESCAPE, any other character is buffered; a quote with no open list raises |
| `Sexp.NumberChar` | sexp.py:88-99 | the NUMBER branch: digits and dots are buffered; any other character pops the state, appends the parsed number to the open list and falls through to the LIST branch |
| `Sexp.ListChar` | sexp.py:101-123 | the LIST branch: digit/dot opens a number, a quote a string, `(` a nested list; `)` closes the current list into its parent or into the output; anything else is skipped |
| `Sexp.ListStep` | sexp.py:121-123 | in list state a character that is not a digit, dot, quote or parenthesis leaves the parser unchanged |
| `Sexp.ParseNum` | sexp.py:36-42 | a number buffer parses exactly when it is a non-empty string of digits |
| `Sexp.ParseSpec` | sexp.py:55-64 | input not beginning with `"` plus more, `(` plus more, or a digit or dot parses to `''` |
| `Sexp.QuotedAtom` | sexp.py:55-56 | a quoted atom parses to its body with every backslash-escape `\c` replaced by `c`, whatever follows it |
| `Sexp.RunQuotedBody` | sexp.py:71-87 | inside a string, a body of plain characters and escapes buffers its unescaped text |
| `Sexp.StepStringEscape` | sexp.py:77-87 | a backslash and the character after it buffer just that character |
| `Sexp.EscapeUnescape` | sexp.py:141-143 | escaping puts a backslash before every `"` and `\`, so the result is a well-formed quoted body that unescapes to the original string |
| `Sexp.Dumps` | sexp.py:149-151 | one dump per list element, in order |
| `Sexp.DumpList` | sexp.py:148-152 | a list dumps as `(`, the element dumps joined by single spaces, `)` |
| `Sexp.DumpsSplit` | sexp.py:152 | the joined element dumps are the first dump, one space, then the rest |
| `Sexp.RunDump` | sexp.py:101-120 | inside an open list, the dump of a string or list appends exactly that tree to the open list |
| `Sexp.RunDumpNum` | sexp.py:102-105 | inside an open list, a dumped number leaves the parser in NUMBER state holding the numeral |
| `Sexp.StepEndNumber` | sexp.py:88-96 | a character that cannot continue a number appends the number and is then handled in list state |
| `Sexp.ItemThen` | sexp.py:88-123 | a dumped element followed by a character that ends numbers appends the element, then handles that character in list state |
| `Sexp.RunItemsClose` | sexp.py:101-120 | the space-joined dumps of a list's elements and its closing parenthesis, read in list state, push every element in order and close the list |
| `Sexp.TopLevelList` | sexp.py:113-120 | the elements and closing parenthesis of the outermost list leave the loop with that list as output, whatever follows |
| `Sexp.ParseDump` | sexp_test.py:22-24 | `parse(dump(t)) == t` for every tree of strings, non-negative ints and lists; after a string or list, trailing text is ignored |
| `Sexp.ParseDecimal` | sexp.py:125-129 | a bare numeral parses to its integer value |
| `Sexp.ParseDumpList` | sexp_test.py:9-10 | a dumped list parses back to the same list, whatever follows it |
| `Sexp.DumpParseDump` | sexp_test.py:26 | `dump(parse(dump(t))) == dump(t)` |
| `Sexp.UnclosedListRaises` | sexp.py:133-134 | input ending while the outermost list is still open raises `UnclosedList` |
| `Sexp.NoCloseKeepsLists` | sexp.py:101-123 | input with no `)` never closes a list, so the open-list stack only grows |
| `Sexp.UnclosedWithoutClose` | sexp.py:130-134 | `(` followed by text with no `)` never parses: it raises, and raises `UnclosedList` when the run ends with the list open |
| `Sexp.NestedUnclosedRaises` | sexp_test.py:43-50 | `(40 (30` raises `UnclosedList` |
| `Sexp.NoSeparatorNeeded` | sexp_test.py:37-40 | list elements need no separator after a string or list: `(` + dump(a) + dump(b) + `)` parses to `[a, b]` |
| `Sexp.ExtraCloseIgnored` | sexp_test.py:63-68 | characters after the outermost list closes are ignored: `())` parses to `[]` |
| `Sexp.RunItemsOpen` | sexp.py:133-134 | the elements of a list without their closing parenthesis leave that list open |
| `Sexp.Escape` | sexp.py:141-143 | never shorter than the string it escapes |
| `Sexp.Dump` | sexp.py:139-157 | every tree dumps to non-empty text |
| `Vetmarshal.Error` | vetmarshal.py:9-11 | an error message is a two-element list headed `"error"` |
| `Vetmarshal.ParseError` | vetmarshal.py:14-16 | reading a code takes the second element: a message shorter than two raises `IndexError`, an integer raises `TypeError`, a string yields its second character when it has one |
| `Vetmarshal.ParseErrorOfError` | vetmarshal_test.py:6-10 | `parse_error(error(c)) == c` |
| `Vetmarshal.ErrorOverTheWire` | vetmarshal.py:9-16 | an error message survives dump and parse unchanged, and its code can still be read |
| `Vetmarshal.Success` | vetmarshal.py:19-21 | the success message is a one-element list |
| `Vetmarshal.SuccessIsNoError` | vetmarshal_test.py:13-15 | the success message is no error message and carries no code |
| `Vetmarshal.EnumerationSize` | vetmarshal.py:32-33 | an iteration order of a set lists as many elements as the set has |
| `Vetmarshal.MarshalClient` | vetmarshal.py:29-36 | `['client', recid, name, address]`, then exactly the pet ids, then exactly the contact tuples, then `[]`; length 5 + pets + contacts |
| `Vetmarshal.ClientOverTheWire` | vetmarshal.py:29-36 | a client message survives dump and parse unchanged |
| `Vetmarshal.MarshalPatient` | vetmarshal.py:53-59 | `['patient', recid, name, species, breed, gender, description, []]` |
| `Vetmarshal.PatientOverTheWire` | vetmarshal.py:53-59 | a patient message survives dump and parse unchanged |
| `LegacyDatabase.StripTag` | database.py:21 | at most one trailing non-word character is removed, and only when there is one; the rest of the word is kept |
| `LegacyDatabase.TokenizeMembers` | database.py:24-34 | a tag is in `tokenize(inputs)` iff it is the lower-cased, stripped form of a whitespace-separated word of some input |
| `LegacyDatabase.TokenizeAppend` | database.py:26-32 | tokenising is a union over the inputs: concatenated input lists give the union of their tag sets |
| `LegacyDatabase.TokenizeConcat` | database.py:26-32 | a tag of two runs of inputs comes from one of them |
| `LegacyDatabase.TokenizeAnyOrder` | database.py:24-34 | the order and repetition of the inputs does not change the tags |
| `LegacyDatabase.TagShape` | database.py:28-31 | tags contain no whitespace and no capital letter |
| `LegacyDatabase.RecordId` | database.py:39-47 | an empty `recid` is replaced by a generated id; a non-empty one is kept |
| `LegacyDatabase.Client.constructor` | database.py:52-57 | a new client has the given name and address, a generated id when none is given, no notes, no pets and no contact info |
| `LegacyDatabase.Infos` | database.py:61 | the first element of each contact, in order |
| `LegacyDatabase.ListingTags` | database.py:61 | tokenising the first elements of any listing of the contact set gives the same tags |
| `LegacyDatabase.Client.TagsOfListing` | database.py:59-64 | `tags` tokenises each contact's first element, the notes, the name and the address, whatever order the contact set is listed in |
| `LegacyDatabase.Client.ColumnData` | database.py:66-68 | the pairs `(recid, name, address)` in that fixed order with the client's values |
| `LegacyDatabase.Client.AddPet` | database.py:70-77 | adds the patient's id (or the raw id) to the pet set; adding an id already present changes nothing; nothing else changes |
| `LegacyDatabase.Client.RemovePet` | database.py:79-86 | removes a present id; an absent id raises `KeyError` and leaves the set unchanged |
| `LegacyDatabase.Client.AddContactInfo` | database.py:88-90 | adds the tuple to the contact set and changes nothing else |
| `LegacyDatabase.Client.GetContactInfo` | database.py:92-94 | returns the contact set as a value, which later changes to the client do not affect |
| `LegacyDatabase.Client.RemoveContactInfo` | database.py:96-98 | removes a present tuple, so add then remove leaves it absent; an absent tuple raises and changes nothing |
| `LegacyDatabase.NewPatient` | database.py:101-107 | a new patient has a generated id when none is given and no notes |
| `LegacyDatabase.PatientColumnData` | database.py:115-119 | the pairs `(recid, name, species, breed, gender, description)` in that fixed order |
| `LegacyDatabase.PatientTagsMembers` | database.py:109-113 | a patient's tags are exactly the tags of its name, species, breed, gender, description and notes |
| `VetclixDb.LookupAbsent` | server/vetclix/db.py:35 | a term that is no key of the synonym table has no entry |
| `VetclixDb.CleanTerm` | server/vetclix/db.py:33-34 | a term lower-cased with `.!?,'":;` deleted: no punctuation and no capital remains, every other character of the term is kept, and it grows no longer |
| `VetclixDb.Substitute` | server/vetclix/db.py:35-39 | a term without a synonym passes through unchanged |
| `VetclixDb.ExpandTermsMembers` | server/vetclix/db.py:32-39 | an output term comes from the synonym substitution of some cleaned input term, and every such term is output |
| `VetclixDb.ExpandTermsAppend` | server/vetclix/db.py:32-39 | expanding two runs of terms gives the two expansions one after the other |
| `VetclixDb.NormalizeQueryAppend` | server/vetclix/db.py:28-41 | output terms appear in the order of the input terms that produced them: two texts separated by whitespace normalise to the two normalisations concatenated |
| `VetclixDb.NormalizeTerm` | server/vetclix/db.py:28-41 | a single whitespace-free term is cleaned and replaced by its synonym or the synonym tuple's terms in order; an unknown term passes through cleaned |
| `VetclixDb.NormalizePlainWord` | server/vetclix/db.py:28-41 | a lower-case word without punctuation or synonym normalises to itself |
| `VetclixDb.NewClient` | server/vetclix/db.py:45-58 | a new client takes the given id or a generated one, and its pets are the distinct ids of the `pets` option |
| `VetclixDb.DeserializeClient` | server/vetclix/db.py:71-73 | fails with `KeyError` iff `id` is missing, and otherwise keeps that id |
| `VetclixDb.NewPatient` | server/vetclix/db.py:84-100 | a new patient takes the given id or a generated one; `active` is true only when given and true |
| `VetclixDb.DeserializePatient` | server/vetclix/db.py:116-118 | fails with `KeyError` iff `id` is missing, and otherwise keeps that id |
| `VetclixDb.ClientRoundTrip` | server/vetclix/db.py:60-73 | `deserialize(serialize(c))` gives back id, every field, version and the pet set |
| `VetclixDb.PatientRoundTrip` | server/vetclix/db.py:102-118 | `deserialize(serialize(p))` gives back id, every field and version |
| `VetclixDb.DocumentMembers` | server/vetclix/db.py:75-80 | a term is in a search document iff some component normalises to it |
| `VetclixDb.DocumentOfAppend` | server/vetclix/db.py:136-139 | the document of two runs of components is the two documents concatenated |
| `VetclixDb.PatientComponents` | server/vetclix/db.py:121-122 | building a patient's document fails exactly when its sex code does not unpack into two characters |
| `VetclixDb.PatientSearchDocument` | server/vetclix/db.py:120-139 | a patient's search document exists exactly when its sex code has two characters |
| `VetclixDb.PatientDocumentTags` | server/vetclix/db.py:124-134 | the document adds `male`/`female` for `m`/`f`, `intact`/`fixed` for `+`/`-`, and ends with exactly one of `active`/`inactive` |
| `VetclixDb.TagDocument` | server/vetclix/db.py:136-139 | each of the words the sex code and active flag add normalises to itself |
| `VetclixStore.Terms` | server/vetclix/db.py:203 | the set of a query's or document's words |
| `VetclixStore.PetsOf` | server/vetclix/db.py:165-171 | the pet ids listed by any of a set of clients |
| `VetclixStore.SearchResults.constructor` | server/vetclix/db.py:143-146 | new results hold no clients, patients or matched ids |
| `VetclixStore.SearchResults.AddClient` | server/vetclix/db.py:156-157 | adds the client and changes nothing else |
| `VetclixStore.SearchResults.AddMatchedPatient` | server/vetclix/db.py:159-160 | adds the id to the matched set and changes nothing else |
| `VetclixStore.SearchResults.AddPatient` | server/vetclix/db.py:162-163 | adds the patient and changes nothing else |
| `VetclixStore.SearchResults.GetMissingPatients` | server/vetclix/db.py:165-171 | every pet id of every client in the results, and nothing else |
| `VetclixStore.SearchResults.Serialize` | server/vetclix/db.py:148-154 | tagged `search-results`, with the matched ids as they are |
| `VetclixStore.SearchResults.SerializeRoundTrip` | server/vetclix/db.py:148-154 | every serialised client and patient deserialises back to a member of the results |
| `VetclixStore.MatchingSnoc` | server/vetclix/db.py:212-218 | one more pet joins the matching pets exactly when the union of its document and its owner's holds the query |
| `VetclixStore.MatchedPets` | server/vetclix/db.py:207-218 | a pet id is marked matched iff its owner does not match on its own and the pet's document together with the owner's holds every query term |
| `VetclixStore.PatientsAt` | server/vetclix/db.py:220-221 | the patients stored under a set of ids |
| `VetclixStore.AddPet` | server/vetclix/db.py:257 | a client with the id added to its pet set and nothing else changed |
| `VetclixStore.AddPetTwice` | server/vetclix/db.py:257 | adding the same pet twice is adding it once |
| `VetclixStore.LinkOwnersSpec` | server/vetclix/db.py:255-257 | linking keeps the stored ids, fails iff some named owner is unknown, and otherwise gives exactly the named owners the patient id |
| `VetclixStore.DummyConnection.ClientsAt` | server/vetclix/db.py:206 | the clients stored under a set of ids |
| `VetclixStore.DummyConnection.ResultClients` | server/vetclix/db.py:206-218 | a client is found iff the query set is a subset of its document, or of its document united with some pet's document |
| `VetclixStore.DummyConnection.ResultMatched` | server/vetclix/db.py:212-218 | the pet ids marked matched are those matched through a client that did not match on its own |
| `VetclixStore.DummyConnection.ResultsAddKey` | server/vetclix/db.py:206-218 | searching one more client adds exactly that client's contribution |
| `VetclixStore.DummyConnection.SearchClient` | server/vetclix/db.py:207-218 | one round of the loop: the client is added iff it is included, its matched pets are marked, and it fails iff a pet is missing or undocumentable |
| `VetclixStore.DummyConnection.SearchPets` | server/vetclix/db.py:212-218 | the pet loop adds the client iff some pet matches with it, marks exactly the matching pets, and fails iff a pet is missing or has a bad sex code |
| `VetclixStore.DummyConnection.SearchPet` | server/vetclix/db.py:213-218 | one pet: raises iff it is missing or its sex code does not unpack; otherwise the client and the pet are added exactly when the pet's document and its owner's together hold the query |
| `VetclixStore.DummyConnection.SearchClients` | server/vetclix/db.py:206-218 | the client loop over all stored clients yields exactly the included clients and the matched pet ids |
| `VetclixStore.DummyConnection.FetchPatients` | server/vetclix/db.py:220-221 | adds exactly the stored patients of the result clients' pets; a missing pet raises |
| `VetclixStore.DummyConnection.Search` | server/vetclix/db.py:202-223 | the results hold the included clients, the matched pet ids, and exactly the patients owned by the result clients; it fails iff some pet cannot be looked up or documented |
| `VetclixStore.DummyConnection.GetUpcoming` | server/vetclix/db.py:225-233 | the results hold every client, no matched id, and exactly the patients of those clients |
| `VetclixStore.DummyConnection.EmptyQueryIsUpcoming` | server/vetclix/db.py:202-233 | the empty query finds every client on its own and marks no pet, as `get_upcoming` does |
| `VetclixStore.DummyConnection.MatchedAreResultPets` | server/vetclix/db.py:216-221 | every matched pet belongs to a client in the results |
| `VetclixStore.DummyConnection.SearchNarrows` | server/vetclix/db.py:208-216 | more query terms never find more clients |
| `VetclixStore.DummyConnection.LongerQueryNarrows` | server/vetclix/db.py:202-216 | appending words to a query can only narrow the clients found |
| `VetclixStore.DummyConnection.AddPatientToClient` | server/vetclix/db.py:255-257 | each named owner gains the patient id in turn; an unknown owner raises `KeyError` and keeps the owners already updated |
| `VetclixStore.DummyConnection.constructor` | server/vetclix/db.py:175-200 | the store starts with the four seeded patients and the two seeded clients that own them |
| `VetclixStore.DummyConnection.GetClient` | server/vetclix/db.py:235-236 | the stored client, or `KeyError` iff the id is absent |
| `VetclixStore.DummyConnection.GetPatient` | server/vetclix/db.py:252-253 | the stored patient, or `KeyError` iff the id is absent |
| `VetclixStore.DummyConnection.SaveClient` | server/vetclix/db.py:238-243 | with `no_overwrite` an existing id raises `KeyError` and changes nothing; otherwise upserts and returns the id |
| `VetclixStore.DummyConnection.SavePatient` | server/vetclix/db.py:245-250 | with `no_overwrite` an existing id raises `KeyError` and changes nothing; otherwise upserts and returns the id |
| `VetclixStore.DummyConnection.Clear` | server/vetclix/db.py:259-264 | outside testing mode raises `ValueError` and changes nothing; in testing mode empties both maps |
| `GoUtil.FirstNonString` | server/util.go:17-20 | none iff every element is a string; otherwise the first element in list order that is not a string |
| `GoUtil.StringsOfAppend` | server/util.go:12-15 | the strings of a concatenation are the strings of each part, in order |
| `GoUtil.StringsOfMembers` | server/util.go:12-21 | a string is kept iff it occurs in the input; everything else is dropped |
| `GoUtil.StringsOfAllStrings` | server/util.go:12-15 | a list of strings casts to itself, element by element |
| `GoUtil.FirstNonStringAppend` | server/util.go:17-19 | once an error is recorded, later elements do not replace it |
| `Common.StringsOf` | server/util.go:10-23 | the cast list is no longer than the input, and it is empty (Go's nil) iff the input holds no string |
| `GoUtil.CastStringList` | server/util.go:9-24 | the loop returns the string elements in input order, and as error the first element that is not a string (none iff all are strings) |
| `GoUtil.ExtractStringList` | server/util.go:26-35 | nil when the key is absent or holds no list; otherwise the cast list with its error ignored |
| `GoUtil.FillUpdates` | server/visit.go:81-100 | every dirty name the entity knows maps `prefix + name` to its current value, and the document has no other key; unknown names are skipped |
| `GoVisit.VisitFromData` | server/visit.go:35-46 | the visit copies id, date and note, and its tasks element by element in order |
| `GoVisit.DeserializeResponseVisit` | server/visit.go:27-49 | succeeds iff id, date and note are strings and tasks is a list of strings, then returns that visit; a missing or mistyped field is returned as an error instead of a panic |
| `GoVisit.ToRealVisit` | server/visit.go:52-77 | fails iff the date does not parse; otherwise stores it in UTC form, copies id and note, and yields tasks sorted ascending as a permutation of the input, leaving the receiver's list sorted in place |
| `GoVisit.VisitResponse` | server/visit.go:121-133 | the protocol form copies id, raw date, tasks in order and note, with no dirty list |
| `GoVisit.ToResponse` | server/visit.go:121-133 | the copying loop builds exactly that protocol form |
| `GoVisit.VisitRoundTrip` | server/visit.go:52-133 | to the database form and back keeps id and note, the same tasks sorted, and a date already in UTC form |
| `GoVisit.HasTask` | server/visit.go:136-144 | true iff the given task occurs in the visit's tasks |
| `GoVisit.VisitField` | server/visit.go:84-95 | exactly `date`, `tasks` and `note` have an update value |
| `GoVisit.CreateUpdateDocument` | server/visit.go:81-101 | one key `keyPrefix + name` per dirty name among `date`, `tasks`, `note`, mapped to its current value; other names are skipped |
| `Sorting.SortBy` | server/visit.go:63-64 | sorts in place into a permutation of its elements ordered by the given strict weak order |
| `Sorting.StrLessIsStrictWeakOrder` | server/visit.go:64 | Go's string order is a strict weak order, as `sort.Strings` needs |
| `Sorting.StrLessTotal` | server/visit.go:64 | two different strings are ordered one way or the other |
| `Sorting.StrLessTransitive` | server/visit.go:64 | the string order is transitive |
| `GoClient.PhonesFromData` | server/client.go:63-75 | one phone entry per input object, in input order, with its number and note |
| `GoClient.ClientFromData` | server/client.go:44-61 | the client is of type `client` and keeps the pet ids and phone entries in their input order |
| `GoClient.DeserializeResponseClient` | server/client.go:31-80 | succeeds iff the type is `"client"`, every scalar field is a string, every pet id is a string and every phone entry is an object with string number and note; then returns that client |
| `GoClient.ToRealClient` | server/client.go:82-94 | the database form is of type `client` with the same id |
| `GoClient.ToResponse` | server/client.go:133-145 | the protocol form is of type `client` with the same id and no dirty list |
| `GoClient.ClientRoundTrip` | server/client.go:82-145 | `ToResponse(ToRealClient(r))` equals `r` on every field except the dirty list (and a type that was not yet `client`) |
| `GoClient.DatabaseClientRoundTrip` | server/client.go:82-145 | a stored client converted to the protocol form and back is unchanged but for its type tag |
| `GoClient.ClientField` | server/client.go:99-114 | exactly `name`, `phone`, `email`, `address` and `note` have an update value |
| `GoClient.CreateUpdateDocument` | server/client.go:96-120 | one key per dirty name among the five updatable fields, mapped to its current value; `pets` and unknown names are skipped |
| `GoClient.SortClients` | server/client.go:147-168 | leaves the slice a permutation of its input in which no client is less than one before it by `by` |
| `GoPatient.VerifySex` | server/patient.go:260-267 | an accepted code is returned unchanged |
| `GoPatient.VerifySexShape` | server/patient.go:261-263 | exactly the nine codes `m+ m- m? f+ f- f? ?+ ?- ??` are accepted; anything else is an error |
| `GoPatient.Sex` | server/patient.go:164-173 | the first character when it is `m` or `f`; any other code panics |
| `GoPatient.SexPanicsOnAcceptedCode` | server/patient.go:164-173 | the code `?+`, which `VerifySex` accepts, still makes `Sex` panic |
| `GoPatient.SexOfCode` | server/patient.go:163-172 | the sex as the comment intends: total on every accepted code, giving `m`, `f` or `?` |
| `GoPatient.Intact` | server/patient.go:176-183 | true iff the second character is `+`; a code shorter than two characters panics |
| `GoPatient.VisitsFromData` | server/patient.go:61-73 | one deserialised visit per input object, in order |
| `GoPatient.PatientFromData` | server/patient.go:49-82 | the patient is of type `patient`, its sex code is accepted, and it has one visit per input visit |
| `GoPatient.DeserializeVisitList` | server/patient.go:61-73 | the visit loop fails iff some element is not an object or does not deserialise; otherwise it returns every visit in order |
| `GoPatient.DeserializeResponsePatient` | server/patient.go:35-85 | succeeds iff the type is `"patient"`, every field has its type, every visit is an object that deserialises and the sex passes `VerifySex`; then returns that patient |
| `GoPatient.ToRealPatient` | server/patient.go:88-116 | fails iff the sex is rejected or some visit's date does not parse; otherwise copies every scalar field and converts the visits in order |
| `GoPatient.PatientField` | server/patient.go:123-141 | exactly `name`, `sex`, `species`, `breed`, `description`, `active` and `note` have an update value |
| `GoPatient.CreateUpdateDocument` | server/patient.go:120-148 | one key per dirty name among the seven updatable fields, mapped to its current value; unknown names are skipped |
| `GoPatient.BestIndex` | server/patient.go:237-248 | the index the search holds after some prefix of the visits lies within that prefix |
| `GoPatient.BestIndexSpec` | server/patient.go:232-251 | nothing is found iff no visit has that task; otherwise a task-bearing visit whose `RawDate` no other task-bearing visit exceeds in string order, the first of those in list order |
| `GoPatient.LastVisitWithTask` | server/patient.go:232-251 | the loop returns nil iff no visit has that task, and otherwise the visit the search settles on |
| `GoPatient.DueFor` | server/patient.go:210-225 | a task no visit has is due now |
| `GoPatient.DueForLastVisit` | server/patient.go:210-225 | when some visit has that task, the due date is the interval after the parsed date of the last visit with it (the first such on a tie), and nothing when that date does not parse |
| `GoPatient.ToResponse` | server/patient.go:186-229 | copies every field and converts each visit in order; `Due` has one entry per task of the interval table, now when no visit has that task, else that visit's date plus the interval; fails iff such a date does not parse |
| `TsPatient.TaskInterval` | client/src/Patient.ts:6-20 | exactly `heartworm` and `exam` have an interval, and both fall due six months after the last visit |
| `TsPatient.EarliestWithTask` | client/src/Patient.ts:157-165 | the index the ascending sort puts first: none iff no visit has that task, else the first task-bearing visit of least date |
| `TsPatient.LastVisitWithTask` | client/src/Patient.ts:156-166 | null iff no visit lists that task; otherwise a visit with that task whose date no other such visit undercuts, the earliest |
| `TsPatient.LastVisitWithTaskIsEarliest` | client/src/Patient.ts:160-165 | of two visits with `exam` a month apart, the older one is returned, in either list order |
| `TsPatient.LatestWithTask` | client/src/Patient.ts:156 | none iff no visit has that task, else the first task-bearing visit of greatest date |
| `TsPatient.MostRecentVisitWithTask` | client/src/Patient.ts:156 | null iff no visit lists that task; otherwise that task-bearing visit no other such visit is later than |
| `TsPatient.DueOf` | client/src/Patient.ts:170-179 | the intended due date: a task no visit performed is due now; otherwise six months after the most recent visit that did |
| `TsPatient.DueOfAsWritten` | client/src/Patient.ts:156-179 | the due date as written: now when no visit performed that task; otherwise six months after a visit with it that no other such visit precedes, the earliest |
| `TsPatient.DueFollowsEarliestExam` | client/src/Patient.ts:156-179 | with exams in January and July, the due date as written follows January, the intended one July |
| `TsPatient.DueDates` | client/src/Patient.ts:168-182 | there is a due date for exactly `heartworm` and `exam` |
| `TsPatient.DueDatesOf` | client/src/Patient.ts:169-179 | the loop over `TaskNames` builds exactly those due dates |
| `TsPatient.InitialState` | client/src/Patient.ts:54-76 | a missing or empty name becomes `(unnamed)`, sex `?+`, active false unless given true; both due dates are computed and nothing is dirty |
| `TsPatient.Patient.constructor` | client/src/Patient.ts:54-76 | the new patient has exactly that initial state |
| `TsPatient.SerializedOf` | client/src/Patient.ts:191-205 | tagged `patient`, with `_id`, one serialised visit per visit, and a due date for each task |
| `TsPatient.SerializedIgnoresDirty` | client/src/Patient.ts:184-206 | the dirty set is not part of what is written |
| `TsPatient.OptionsOf` | client/src/Patient.ts:213-214 | the constructor options carry one deserialised visit per serialised one |
| `TsPatient.PatientRoundTrip` | client/src/Patient.ts:184-217 | `deserialize(serialize(p))` keeps id, revision, a non-empty name, the sex code, every other field and each visit's round trip, with an empty dirty set |
| `TsPatient.UnnamedRoundTrip` | client/src/Patient.ts:57 | an empty name reads back as `(unnamed)` |
| `TsPatient.SecondChar` | client/src/Patient.ts:126 | the template text for the second character: that character, or `undefined` when the code is shorter |
| `TsPatient.FindGroup` | client/src/Patient.ts:141 | the group holding a date, none iff no group does |
| `TsPatient.AddToGroup` | client/src/Patient.ts:139-143 | files one more task under its due date, opening a group for an unseen date, keeping the grouping exact |
| `TsPatient.GroupByDate` | client/src/Patient.ts:138-143 | one group per distinct due date, each listing exactly its tasks due then |
| `TsPatient.PermutationKeepsGroups` | client/src/Patient.ts:146-149 | reordering the groups keeps them an exact grouping with distinct dates |
| `TsPatient.SortGroups` | client/src/Patient.ts:146-149 | sorting by date leaves the same grouping in strictly ascending date order |
| `TsPatient.Patient.SetName` | client/src/Patient.ts:83-87 | stores the value, adds `name` to the dirty set, changes nothing else |
| `TsPatient.Patient.SetBreed` | client/src/Patient.ts:89-93 | stores the value, adds `breed` to the dirty set, changes nothing else |
| `TsPatient.Patient.SetSpecies` | client/src/Patient.ts:95-99 | stores the value, adds `species` to the dirty set, changes nothing else |
| `TsPatient.Patient.SetDescription` | client/src/Patient.ts:101-105 | stores the value, adds `description` to the dirty set, changes nothing else |
| `TsPatient.Patient.SetNote` | client/src/Patient.ts:107-111 | stores the value, adds `note` to the dirty set, changes nothing else |
| `TsPatient.Patient.SetActive` | client/src/Patient.ts:113-117 | stores the value, adds `active` to the dirty set, changes nothing else |
| `TsPatient.Patient.SetSex` | client/src/Patient.ts:119-127 | throws and changes nothing on values outside `f`, `m`, `?`; otherwise replaces only the first character and marks `sex` |
| `TsPatient.Patient.SetIntact` | client/src/Patient.ts:129-134 | replaces only the second character with `+` or `-`, marks `sex`, and the getter then reads the new value |
| `TsPatient.Patient.ClearDirty` | client/src/Patient.ts:152-154 | empties the dirty set, so `isDirty` is false, and changes nothing else |
| `TsPatient.Patient.RefreshDueDates` | client/src/Patient.ts:168-182 | replaces the due dates with those computed from the visits and changes nothing else |
| `TsPatient.Patient.DueByDate` | client/src/Patient.ts:136-150 | one group per distinct due instant, listing every task due then, sorted ascending by date |
| `TsPatient.Patient.Serialize` | client/src/Patient.ts:184-206 | recomputes the due dates, then emits every field with them |
| `TsPatient.Patient.Deserialize` | client/src/Patient.ts:208-217 | rejects a type other than `patient`; otherwise a patient constructed from the data, with nothing dirty |
| `TsPatient.Patient.EmptyPatient` | client/src/Patient.ts:219-221 | no id, active, unnamed, sex `?+`, no visits, everything due now, nothing dirty |
| `TsVisit.SuppliedNames` | client/src/Visit.ts:23-28 | each of `date`, `tasks`, `note` is listed, once, exactly when the caller supplies it |
| `TsVisit.FromData` | client/src/Visit.ts:66-69 | the visit carries the id, the parsed date and the given tasks, with missing note empty and nothing dirty |
| `TsVisit.SerializeState` | client/src/Visit.ts:54-64 | the object carries id, tasks, note and the dirty list unchanged |
| `TsVisit.VisitRoundTrip` | client/src/Visit.ts:54-69 | deserialising a serialised visit keeps id, tasks and note, clears the dirty set, and keeps the date whenever parsing undoes formatting |
| `TsVisit.Visit.constructor` | client/src/Visit.ts:12-21 | a missing date is now, missing tasks and note are empty, nothing is dirty |
| `TsVisit.Visit.SetDate` | client/src/Visit.ts:33-36 | stores the date, adds `date` to the dirty set, changes nothing else |
| `TsVisit.Visit.SetTasks` | client/src/Visit.ts:39-42 | stores the new task list, adds `tasks` to the dirty set, changes nothing else |
| `TsVisit.Visit.SetNote` | client/src/Visit.ts:45-48 | stores the note, adds `note` to the dirty set, changes nothing else |
| `TsVisit.Visit.ClearDirty` | client/src/Visit.ts:50-52 | empties the dirty set and changes nothing else |
| `TsVisit.Visit.With` | client/src/Visit.ts:23-29 | a new visit with this id, each field taken from the caller where supplied and from this visit otherwise, dirty in exactly the supplied fields |
| `TsVisit.Visit.Serialize` | client/src/Visit.ts:54-64 | the fields as a plain object, with the dirty set as a list |
| `TsVisit.Visit.Deserialize` | client/src/Visit.ts:66-69 | a new visit whose state is the one read from the data |
| `TsVisit.Visit.EmptyVisit` | client/src/Visit.ts:71-73 | no id, dated now, no tasks, an empty note, nothing dirty |
| `TsClient.InitialClient` | client/src/Client.ts:12-28 | a missing or empty name is `(unnamed)`, the pets are exactly the option pets with no id twice, and nothing is dirty |
| `TsClient.ClientDataOf` | client/src/Client.ts:65-74 | tagged `client`, with the id under `id` and the pets as a list |
| `TsClient.ClientRoundTrip` | client/src/Client.ts:65-82 | deserialising a serialised client gives back the same fields with the dirty flag cleared, when its name is not empty |
| `TsClient.UnnamedClientRoundTrip` | client/src/Client.ts:14 | an empty name reads back as `(unnamed)` |
| `TsClient.Client.constructor` | client/src/Client.ts:12-28 | adding the option pets one by one to an empty set yields the initial client |
| `TsClient.Client.SetName` | client/src/Client.ts:34-37 | stores the name, sets the dirty flag, changes nothing else |
| `TsClient.Client.SetAddress` | client/src/Client.ts:40-43 | stores the address, sets the dirty flag, changes nothing else |
| `TsClient.Client.SetNote` | client/src/Client.ts:46-49 | stores the note, sets the dirty flag, changes nothing else |
| `TsClient.Client.AddPet` | client/src/Client.ts:53-56 | afterwards the client has the pet and every pet it had; an id already present leaves the pets as they were; dirty |
| `TsClient.Client.RemovePet` | client/src/Client.ts:58-61 | afterwards the client lacks the pet and keeps every other; dirty |
| `TsClient.Client.Serialize` | client/src/Client.ts:65-74 | tagged `client`, with the client's id |
| `TsClient.Client.Deserialize` | client/src/Client.ts:76-82 | fails iff the type is not `client`; otherwise a new client built from the data |
| `TsPhoneInfo.NewPhoneInfo` | client/src/PhoneInfo.ts:5-10 | keeps the number; a missing note is empty |
| `TsPhoneInfo.With` | client/src/PhoneInfo.ts:12-16 | each supplied field from the diff, every other from the entry |
| `TsPhoneInfo.WithLaws` | client/src/PhoneInfo.ts:12-16 | an empty diff copies the entry; a diff supplying both fields overrides any earlier one |
| `TsPhoneInfo.BeforeExt` | client/src/PhoneInfo.ts:19 | a prefix of the number |
| `TsPhoneInfo.BeforeExtSpec` | client/src/PhoneInfo.ts:19 | the prefix holds no `ext` and ends at the end of the number or at its first `ext` |
| `TsPhoneInfo.PureNumber` | client/src/PhoneInfo.ts:18-22 | fails iff no digit, `+`, `#` or `x` precedes the first `ext` (`match` yields null); otherwise exactly the dialable characters before the `ext`, each as often as there, in their order |
| `TsPhoneInfo.PureNumberInOrder` | client/src/PhoneInfo.ts:18-22 | the pure number of a prefix split in two is the dialable characters of the first part followed by those of the second |
| `TsPhoneInfo.PureNumberOfDialable` | client/src/PhoneInfo.ts:18-22 | a number made only of dialable characters is its own pure number |
| `TsPhoneInfo.Serialize` | client/src/PhoneInfo.ts:24-29 | keeps the number |
| `TsPhoneInfo.Deserialize` | client/src/PhoneInfo.ts:31-33 | keeps the number |
| `TsPhoneInfo.PhoneRoundTrip` | client/src/PhoneInfo.ts:24-33 | deserialising a serialised entry gives it back |
| `TsSearchResults.IdsOf` | client/src/SearchResults.ts:20 | the id of each client, in order |
| `TsSearchResults.IndexClientsSpec` | client/src/SearchResults.ts:24-27 | exactly the ids of the list are indexed, each to a list client with that id, the last one bearing it |
| `TsSearchResults.IndexClientsKeys` | client/src/SearchResults.ts:25-27 | the indexed ids are exactly those of the list |
| `TsSearchResults.IndexClientsValues` | client/src/SearchResults.ts:25-27 | each indexed id maps to a client of the list with that id |
| `TsSearchResults.IndexClientsLast` | client/src/SearchResults.ts:25-27 | a later client with the same id replaces an earlier one |
| `TsSearchResults.IndexedVisitOwner` | client/src/SearchResults.ts:29-34 | with unique visit ids, the index names the one patient holding each visit |
| `TsSearchResults.MapClients` | client/src/SearchResults.ts:49-58 | when every id is indexed, `f` of the client of each id, in order |
| `TsSearchResults.IndexVisits` | client/src/SearchResults.ts:31-33 | every visit of the patient is set to the patient's id, every other entry kept |
| `TsSearchResults.IndexAll` | client/src/SearchResults.ts:24-27 | the loop builds exactly the client index |
| `TsSearchResults.ClientsOfData` | client/src/SearchResults.ts:92-96 | fails iff some raw client is not of type `client`; otherwise one client per raw one, in order, each the client `Client.deserialize` builds from it |
| `TsSearchResults.PatientsOfData` | client/src/SearchResults.ts:98-102 | fails iff some raw patient is not of type `patient`; otherwise exactly the raw patients' ids are stored, each under the patient rebuilt from the last raw patient with that id |
| `TsSearchResults.StoreRebuilt` | client/src/SearchResults.ts:99-101 | one round of the patient loop: the next raw patient's id is added to the keys and every entry stays the rebuild of the last raw patient with its id |
| `TsSearchResults.RebuiltFromLastNext` | client/src/SearchResults.ts:100 | setting the next raw patient's rebuilt state under its id keeps every entry the rebuild of the last raw patient with its id |
| `TsSearchResults.RebuildPatient` | client/src/SearchResults.ts:100 | the rebuilt patient keeps its id and as many visits, is named `(unnamed)` when no name is given, has both due dates and nothing dirty, and is the state `Patient.deserialize` constructs |
| `TsSearchResults.MatchedOfData` | client/src/SearchResults.ts:104-107 | the matched ids, as a set |
| `TsSearchResults.IndexAllVisits` | client/src/SearchResults.ts:29-34 | every visit id of every patient is indexed to a patient holding it, and nothing else is |
| `TsSearchResults.IndexOneMore` | client/src/SearchResults.ts:30-34 | each round of the patient loop keeps the index exact for the patients seen so far |
| `TsSearchResults.AllVisitIdsAdd` | client/src/SearchResults.ts:31-33 | adding a patient adds exactly its visit ids |
| `TsSearchResults.SearchResults.constructor` | client/src/SearchResults.ts:16-35 | ids in input order, missing patients and matches empty, each client indexed under its id, every visit indexed |
| `TsSearchResults.SearchResults.GetClient` | client/src/SearchResults.ts:41-43 | defined iff the id is indexed |
| `TsSearchResults.SearchResults.GetPatient` | client/src/SearchResults.ts:45-47 | defined iff the patient is stored |
| `TsSearchResults.SearchResults.Map` | client/src/SearchResults.ts:49-58 | `f` of each indexed client in list order, skipping ids with no client |
| `TsSearchResults.SearchResults.RefreshClient` | client/src/SearchResults.ts:60-67 | an unseen id goes to the top of the list, a seen one stays put; the client is indexed; nothing else changes |
| `TsSearchResults.SearchResults.RefreshPatient` | client/src/SearchResults.ts:69-85 | stores the patient; the index loses the old patient's visits the new one lacks, maps every new visit to the patient, and keeps every other entry |
| `TsSearchResults.SearchResults.Deserialize` | client/src/SearchResults.ts:87-111 | fails iff the type is wrong or some client or patient does not deserialise; otherwise ids in order, each client deserialised from its data and indexed under its id, each patient rebuilt from the last raw patient with its id, the matched set, and an exact visit index |
| `Hopps.Tagged` | client/src/Hopps.ts:63-67 | every document of the batch, store by store, tagged with its store |
| `Hopps.TaggedPosition` | client/src/Hopps.ts:63-67 | each document of a batch is announced exactly once, after the documents of the stores before it |
| `Hopps.TaggedStores` | client/src/Hopps.ts:52-53 | every announced document names one of the batch's stores |
| `Hopps.StoreNames` | client/src/Hopps.ts:52 | exactly the store names of the batch |
| `Hopps.FirstKeyless` | client/src/Hopps.ts:56-58 | the first document without a key, every document before it keyed |
| `Hopps.Written` | client/src/Hopps.ts:54-59 | writing a batch keeps the set of stores |
| `Hopps.WrittenLastWins` | client/src/Hopps.ts:57 | after a batch a key holds the last document written under it; a key nothing was written under keeps what it held |
| `Hopps.WrittenKeepsKeys` | client/src/Hopps.ts:57 | writing keeps every document under its own key |
| `Hopps.WrittenSnoc` | client/src/Hopps.ts:56-58 | writing one more document after a batch stores it under its key |
| `Hopps.Fetch` | client/src/Hopps.ts:25-37 | resolves iff every key has a document, with one document per key in key order; otherwise rejects with the first key that has none |
| `Hopps.GetSpec` | client/src/Hopps.ts:14-23 | a missing store fails when the transaction opens; no keys resolves to nothing |
| `Hopps.Values` | client/src/Hopps.ts:115 | the value of each cursor entry, in order |
| `Hopps.Hopps.constructor` | client/src/Hopps.ts:5-8 | wraps the opened database |
| `Hopps.Hopps.RawTransaction` | client/src/Hopps.ts:10-12 | opens exactly the named stores, read-only |
| `Hopps.Hopps.Get` | client/src/Hopps.ts:14-43 | the loop of requests gives exactly the specified lookup result |
| `Hopps.Hopps.PutAll` | client/src/Hopps.ts:51-76 | a missing store fails with nothing written; a keyless document fails after the documents before it were written; an erroring transaction writes nothing; otherwise every document is written and announced, store by store, in order |
| `Hopps.Hopps.Put` | client/src/Hopps.ts:45-49 | the one-document case of `putAll`: stored under its key and announced once, or the matching failure with nothing changed |
| `Hopps.Hopps.ForEach` | client/src/Hopps.ts:78-100 | calls `f` on the entries in order and stops right after the first one it answers false to |
| `Hopps.Hopps.Query` | client/src/Hopps.ts:102-123 | missing options fail; no limit keeps every value; a limit `n` keeps the first `n + 1` values |
| `Hopps.QueryKeepsOneExtra` | client/src/Hopps.ts:109-115 | with a limit `n` and enough entries, the query returns `n + 1` values |
| `Hopps.Hopps.BoundedQuery` | client/src/Hopps.ts:102-123 | as `query`, but a limit `n` keeps at most the first `n` values |
| `Hopps.Stage` | client/src/Hopps.ts:54-59 | the writes staged up to the first keyless document, each document under its own key |
| `TsDatabase.LeastExists` | client/src/Database.ts:113 | a non-empty set of keys has a least key in IndexedDB's string order |
| `TsDatabase.LeastUnique` | client/src/Database.ts:113 | that least key is unique |
| `TsDatabase.PetsIndex` | client/src/Database.ts:112-113 | the multi-entry `pets` index finds a client iff some client lists the patient, and then the one with the least key; no other index finds anything |
| `TsDatabase.DeserializeClient` | client/src/Database.ts:160 | accepts exactly the client documents of type `client`, keeping the id, clean |
| `TsDatabase.DeserializePatient` | client/src/Database.ts:177 | accepts exactly the patient documents of type `patient`, keeping the id, clean |
| `TsDatabase.DeserializeClients` | client/src/Database.ts:159-161 | succeeds iff every document deserialises as a client, giving each one in order |
| `TsDatabase.LoadAll` | client/src/Database.ts:176-178 | succeeds iff every document loads, giving each one in order |
| `TsDatabase.DeserializePatients` | client/src/Database.ts:176-178 | succeeds iff every document deserialises as a patient, giving each one in order |
| `TsDatabase.ClientsOf` | client/src/Database.ts:150-162 | no ids give no clients; a missing id is an error; otherwise the client under each id, in order |
| `TsDatabase.PatientsOf` | client/src/Database.ts:168-179 | succeeds iff every id holds a patient document; otherwise an error; on success the patient under each id, in order |
| `TsDatabase.KeysOf` | client/src/Database.ts:187 | the key each document is stored under, in order |
| `TsDatabase.UnownedPatientFailsOwners` | client/src/Database.ts:185-189 | a patient no client lists makes `getOwners` fail |
| `TsDatabase.OwnersOfOk` | client/src/Database.ts:185-189 | `getOwners` succeeds only when every patient has an owner |
| `TsDatabase.PetFieldParts` | client/src/Database.ts:202 | a patient field `f` is gathered under `pet_f`, from which `f` is recovered |
| `TsDatabase.PetValues` | client/src/Database.ts:196-209 | at most one gathered value per patient |
| `TsDatabase.GatherPet` | client/src/Database.ts:197-208 | pushing one patient summary fails iff a client string field is named `pet_f` for a field `f` of it; otherwise exactly the touched fields gain that patient's value, the rest are kept |
| `TsDatabase.TouchedKeys` | client/src/Database.ts:202 | the fields a patient touches are `pet_f` for its own fields |
| `TsDatabase.GatherAllFails` | client/src/Database.ts:196-209 | gathering fails iff some client string field would gather a value |
| `TsDatabase.GatherAllKeys` | client/src/Database.ts:196-209 | after gathering a field exists iff the client had it or it gathered something |
| `TsDatabase.GatherAllValues` | client/src/Database.ts:196-209 | a gathered field holds the array it had followed by the gathered values in patient order; an untouched one is kept |
| `TsDatabase.GatherAllValuesTouched` | client/src/Database.ts:196-209 | the gathering step for a first patient that has the field |
| `TsDatabase.GatherAllValuesUntouched` | client/src/Database.ts:196-209 | the gathering step for a first patient without the field |
| `TsDatabase.GatherPetAt` | client/src/Database.ts:202-207 | one push at one field: a touched field gains the value, an untouched one is kept |
| `TsDatabase.SearchDocumentSpec` | client/src/Database.ts:191-223 | the search document fails iff a client string field is named like a gathered one; otherwise each field exists iff the client had it or it gathered values, and holds, joined by spaces, its old array followed by the gathered values |
| `TsDatabase.PetFieldsJoined` | client/src/Database.ts:196-220 | for a client without `pet_` fields, `pet_f` is exactly the values of `f` across its patients, joined by spaces |
| `TsDatabase.NoPetValuesOutsidePetFields` | client/src/Database.ts:202 | only `pet_` fields gather anything |
| `TsDatabase.NamesFromSpec` | client/src/Database.ts:58-70 | the messages from a number onwards, each under its number with its method name |
| `TsDatabase.PostedTrans` | client/src/Database.ts:58-70 | posting one list of messages and then another is posting both, numbered on |
| `TsDatabase.TextSearch.constructor` | client/src/Database.ts:17-28 | nothing sent, nothing pending |
| `TsDatabase.TextSearch.SendMessage` | client/src/Database.ts:58-70 | the message takes the next number, which nothing pending holds, and awaits its reply |
| `TsDatabase.TextSearch.Search` | client/src/Database.ts:30-32 | posts exactly `search` with the query |
| `TsDatabase.TextSearch.Add` | client/src/Database.ts:34-36 | posts exactly `add` with the document |
| `TsDatabase.TextSearch.Update` | client/src/Database.ts:38-40 | posts exactly `update` with the document |
| `TsDatabase.TextSearch.Load` | client/src/Database.ts:42-44 | posts exactly `load`, with the one undefined argument `concat` adds |
| `TsDatabase.TextSearch.Persist` | client/src/Database.ts:46-48 | posts exactly `persist`, with the one undefined argument `concat` adds |
| `TsDatabase.TextSearch.Debug` | client/src/Database.ts:50-52 | posts exactly `debug` with the record |
| `TsDatabase.TextSearch.ClearCache` | client/src/Database.ts:54-56 | posts exactly `clearCache` |
| `TsDatabase.TextSearch.Receive` | client/src/Database.ts:21-27 | a reply settles the message with its number, rejecting with its error when that is a non-empty string and resolving otherwise, and stops it pending; a number nothing awaits throws |
| `TsDatabase.PetSummaries` | client/src/Database.ts:194 | the summary of each patient, in order |
| `TsDatabase.MissingPetFailsSearchDoc` | client/src/Database.ts:193 | a client listing a patient that is not stored gets no search document |
| `TsDatabase.OwnerUpdates` | client/src/Database.ts:141-143 | at most one update per owner |
| `TsDatabase.OwnerUpdatesAll` | client/src/Database.ts:141-143 | when every owner's document builds, each owner's document is posted in order and nothing else |
| `TsDatabase.OwnerUpdatesFail` | client/src/Database.ts:141-143 | the first owner whose document fails stops the loop with its error, after posting only the owners before it |
| `TsDatabase.ChangePersistsLast` | client/src/Database.ts:128-147 | outside batch mode the handler persists iff nothing failed, and then as its last message |
| `TsDatabase.OwnerUpdatesOnlyUpdates` | client/src/Database.ts:141-143 | owner updates post only `update` messages |
| `TsDatabase.BatchModeIsSilent` | client/src/Database.ts:129-131 | in batch mode a write posts nothing |
| `TsDatabase.PatientChangeUpdatesOwners` | client/src/Database.ts:138-146 | a written patient whose owners all have documents posts each owner's document in `getOwners` order, then `persist` |
| `TsDatabase.SortedKeys` | client/src/Database.ts:92 | the keys of the store, each once |
| `TsDatabase.SortedKeysAscending` | client/src/Database.ts:92 | the cursor walks the keys in strictly ascending order |
| `TsDatabase.Extend` | client/src/Database.ts:93-98 | one more client: its update posted when its document builds, else its error kept unless an earlier one came first |
| `TsDatabase.IndexOutcomeNext` | client/src/Database.ts:92-101 | each key extends the walk by that client's step |
| `TsDatabase.IndexOutcomeCovers` | client/src/Database.ts:92-101 | rebuilding posts the search document of every stored client whose document builds |
| `TsDatabase.IndexOutcomeStep` | client/src/Database.ts:92-101 | one more client keeps every update already posted and posts its own when its search document builds |
| `TsDatabase.IndexOutcomeFails` | client/src/Database.ts:87-107 | rebuilding fails iff some stored client's search document does not build |
| `TsDatabase.Database.constructor` | client/src/Database.ts:78-85 | two empty stores, an idle channel, batch depth zero |
| `TsDatabase.Database.Initialize` | client/src/Database.ts:109-126 | posts `load`; when the worker could not load, rebuilds the index and ends with the rebuild's error |
| `TsDatabase.Database.GetClients` | client/src/Database.ts:150-162 | exactly the specified clients lookup |
| `TsDatabase.Database.GetPatients` | client/src/Database.ts:168-179 | exactly the specified patients lookup |
| `TsDatabase.Database.GetOwners` | client/src/Database.ts:185-189 | exactly the specified owners lookup |
| `TsDatabase.Database.UpdateSearchDocument` | client/src/Database.ts:191-223 | fails, posting nothing, iff the search document does not build; otherwise posts exactly its `update` |
| `TsDatabase.Database.UpdateOwners` | client/src/Database.ts:139-143 | posts the owners' updates and ends with the error the owner loop specifies |
| `TsDatabase.Database.ClientChanged` | client/src/Database.ts:135-137 | the client branch of the handler, as specified |
| `TsDatabase.Database.PatientChanged` | client/src/Database.ts:138-144 | the patient branch of the handler, as specified |
| `TsDatabase.Database.OnChange` | client/src/Database.ts:128-147 | posts exactly the messages of the specified change outcome and ends with its error |
| `TsDatabase.Database.EnsureIndexes` | client/src/Database.ts:87-107 | posts exactly the rebuild's messages: every client's update in key order, then `persist` unless one failed |
| `TsDatabase.Database.PersistUnlessFailed` | client/src/Database.ts:103-104 | `persist` is posted iff no update failed |
| `TsDatabase.Database.IndexClient` | client/src/Database.ts:92-101 | one step of the walk keeps the posted messages equal to the walk so far |
| `TsDatabase.Database.IndexDeserialized` | client/src/Database.ts:94-95 | one client's update extends the walk as specified |
| `TsDatabase.Database.EnterBatchMode` | client/src/Database.ts:386-388 | the batch depth grows by one |
| `TsDatabase.Database.ExitBatchMode` | client/src/Database.ts:390-394 | the batch depth shrinks by one, never below zero, and the index is rebuilt |
| `TsDatabase.Database.Write` | client/src/Database.ts:229 | a `put` then the handler: stored under its key iff the store exists, the document has a key and the write does not fail; otherwise nothing changes |
| `TsDatabase.Database.UpdateClientAsWritten` | client/src/Database.ts:225-233 | a client with an id is returned unwritten whatever changed in it, because `isDirty` is undefined on a client; a client without one gets the new id, and the `put` rejects with `DataError`, storing nothing and posting nothing |
| `TsDatabase.KeyPathId` | client/src/Database.ts:111-114 | the `_id` key path finds a patient's id and nothing in a serialised client, which writes `id` only |
| `TsDatabase.PutClientAsWritten` | client/src/Database.ts:229 | putting any serialised client into the `clients` store, keyed by `_id` at line 112, rejects with `DataError` and leaves the store empty |
| `TsDatabase.Database.UpdateClient` | client/src/Database.ts:225-233 | a clean client with an id is left alone; any other gets a new id if it lacks one, is written and marked clean |
| `TsDatabase.Database.AddOwners` | client/src/Database.ts:245-248 | succeeds iff no owner's write back fails; on success the clients store is exactly the old one with each owner, `addPet` applied and dirty, filed under its id in order; on failure only the owners before the first failing one are written; the patients store is untouched |
| `TsDatabase.Database.WriteOwner` | client/src/Database.ts:246-247 | `addPet` then `put`: succeeds iff the owner's write back does not fail, and then exactly that client document replaces the owner; otherwise nothing changes |
| `TsDatabase.Database.UpdatePatient` | client/src/Database.ts:235-253 | a clean patient with an id is left alone, writing and posting nothing; any other is given its id (the new one if it had none) and its recomputed due dates, and succeeds iff every write succeeds and every owner is found; then the stores are exactly the old ones with that patient's document and each owner written back with the patient added, and the patient is that state, clean; on failure it keeps the id and due dates, dirty as before |
| `TsDatabase.Database.LinkOwners` | client/src/Database.ts:243-249 | succeeds iff every owner is found and each write back succeeds, and then the stores are exactly the linked stores: each owner read back with the patient added; a missing owner fails, changing nothing |
| `TsDatabase.Database.SavePatient` | client/src/Database.ts:239-252 | succeeds iff every write succeeds; then the patient is its old state with recomputed due dates, clean, and the stores are exactly the old ones with its serialisation under its id and each owner written back with it; on failure the state keeps its dirty set |
| `TsDatabase.Database.StoreAndLink` | client/src/Database.ts:240-249 | succeeds iff the patient's `put`, the owners' lookup and every owner's write succeed, and then the stores are exactly the saved stores; a failed patient write changes nothing |
| `TsDatabase.Database.StorePatient` | client/src/Database.ts:240 | stored under its key iff it has one and the write does not fail; otherwise nothing changes |
| `TsDatabase.Database.Keyed` | client/src/Database.ts:112-115 | every stored document sits under its own id |
| `TsDatabase.Database.PopulateResultsFromClients` | client/src/Database.ts:255-273 | fails iff some listed patient is not stored; otherwise the clients in order with exactly their patients, taken from the store, none matched |
| `TsDatabase.Database.ShowUpcoming` | client/src/Database.ts:275-308 | succeeds iff every hit on the page is a patient, `getOwners` of their ids finds them all and every pet of the owners is stored; then the clients are exactly those owners, indexed by id, the patients exactly the hits and the owners' pets, taken from the store, and the matched set exactly the hits |
| `TsDatabase.Database.UpcomingPatients` | client/src/Database.ts:276-290 | the page's hit ids, each once in page order, and each hit deserialised under its id; fails iff one is not a patient |
| `TsDatabase.Database.PatientsOnPage` | client/src/Database.ts:285-290 | the ids of the hits, each once in page order, and the patients under them; fails iff one is not a patient |
| `TsDatabase.Database.CompleteResults` | client/src/Database.ts:291-307 | succeeds iff `getOwners` succeeds and every pet of the owners is stored (a matched patient without an owner fails); then the clients are exactly the owners, indexed by id, the patients exactly the matched ones and the owners' pets, and the matched set is the hits |
| `TsDatabase.Database.ResultsOfOwners` | client/src/Database.ts:293-307 | given the owners: succeeds iff every pet of theirs is stored; then the results hold exactly those clients, the matched patients and every pet of the owners |
| `TsDatabase.Database.AddMissingPatients` | client/src/Database.ts:294-305 | succeeds iff every pet of the owners is stored; then the patients are exactly the ones already there and the owners' pets, each taken from the store |
| `TsDatabase.Database.FullTextSearch` | client/src/Database.ts:310-316 | posts the query; succeeds iff every client on the first page of hits is stored and so is each of their pets; then the clients are exactly those, in order and indexed by id, the patients exactly their pets, none matched |
| `TsDatabase.Database.Search` | client/src/Database.ts:318-329 | an empty query or `upcoming` shows the upcoming visits without messaging the worker; any other query posts a full-text search; each succeeds exactly when that operation does, with its clients |
| `TsDatabase.Database.ImportPatient` | client/src/Database.ts:337-351 | a record without visits fails, writing nothing; otherwise it succeeds iff the write of its imported document does not fail, and then exactly that document is filed under its new id |
| `TsDatabase.Database.ImportClientAsWritten` | client/src/Database.ts:354-368 | a client record with an export id writes nothing and returns that old id; one without an id returns undefined, writing nothing; a record without pets or phones throws |
| `TsDatabase.Database.ImportClient` | client/src/Database.ts:355-367 | a record without pets or phones fails, writing nothing; otherwise it succeeds iff the write of its imported document does not fail, and then exactly that document, pets renamed, is filed under its new id |
| `TsDatabase.Database.ImportData` | client/src/Database.ts:331-372 | in one batch: each patient record succeeds iff it imports, the id map holds exactly the imported patients' new ids, each client record succeeds iff it imports; the stores are exactly the imported stores, and the worker gets nothing but the rebuild's messages, at the end |
| `TsDatabase.Database.ImportPatients` | client/src/Database.ts:335-352 | the patients loop: record `i` succeeds iff it imports, under its new id; the id map exactly as imported; the patients store exactly each imported document filed in record order |
| `TsDatabase.Database.ImportPatientAt` | client/src/Database.ts:336-351 | one turn of the patients loop: record `i` succeeds iff it imports, and its document is filed on top of the records before it |
| `TsDatabase.Database.ImportClients` | client/src/Database.ts:354-368 | the clients loop: record `i` succeeds iff it imports, under its new id; the clients store exactly each imported document filed in record order |
| `TsDatabase.Database.ImportClientAt` | client/src/Database.ts:354-367 | one turn of the clients loop: record `i` succeeds iff it imports, and its document is filed on top of the records before it |
| `TsDatabase.FiledSpec` | client/src/Database.ts:245-248 | after a run of `put`s a key is present iff it was or was written; an unwritten key keeps its document, a written one holds its last write |
| `TsDatabase.FiledSnoc` | client/src/Database.ts:247 | one more `put` replaces the document under its key |
| `TsDatabase.OwnerDoc` | client/src/Database.ts:246-247 | the owner written back is keyed by the owner's id |
| `TsDatabase.OwnerDocSpec` | client/src/Database.ts:246-247 | the owner written back keeps its id, name, address and note, and lists exactly its old pets and the patient |
| `TsDatabase.OwnerWriteStep` | client/src/Database.ts:245-248 | one more turn of the owner loop files one more write |
| `TsDatabase.OwnersOwn` | client/src/Database.ts:245-248 | after the owner loop every owner lists the patient |
| `TsDatabase.LinkedStoresSpec` | client/src/Database.ts:243-249 | linking keeps every store but `clients`, adds no client, makes each owner the client read back with the patient added, and keeps every other client |
| `TsDatabase.SavedStoresSpec` | client/src/Database.ts:235-253 | saving files the patient under its id, keeps every other patient and store, and changes exactly the owners, each listing the patient besides its old pets |
| `TsDatabase.ImportedPatientDocSpec` | client/src/Database.ts:337-347 | the imported patient document: type `patient`, the new id, name, sex and note defaulted, one visit per exported visit with its fresh id, an empty task list and its date normalised, and both due dates |
| `TsDatabase.ImportedClientDocSpec` | client/src/Database.ts:355-364 | the imported client document: type `client`, the new id, name, address and note defaulted, and exactly the imported patients' new ids as pets |
| `TsDatabase.PatientImportDocs` | client/src/Database.ts:336-352 | one entry per patient record |
| `TsDatabase.ClientImportDocs` | client/src/Database.ts:354-368 | one entry per client record |
| `TsDatabase.ImportedSnoc` | client/src/Database.ts:336-368 | one more record files its document, if any, under its key |
| `TsDatabase.ImportedSpec` | client/src/Database.ts:336-368 | with distinct keys, an import loop adds exactly the keys of the records that import, each holding its record's document, and keeps every other document |
| `TsDatabase.ImportedPatientsSpec` | client/src/Database.ts:336-352 | with distinct new ids, after the patients loop a key is stored iff it was or an importing record got it, holding that record's imported document; other patients are kept |
| `TsDatabase.ImportedClientsSpec` | client/src/Database.ts:354-368 | the same for the clients loop and the imported client documents |
| `TsDatabase.NewIdsSnoc` | client/src/Database.ts:348 | one more outcome maps the record's export id to its new id when it succeeded |
| `TsDatabase.NewIdsSpec` | client/src/Database.ts:335-352 | an export id is mapped iff some record with it imported, and to the new id of one such record |
| `TsDatabase.FetchableIds` | client/src/Database.ts:257-268 | fetching the distinct pets of the clients succeeds iff every pet is stored |
| `TsDatabase.FromStoreIds` | client/src/Database.ts:269 | each patient taken from the store carries the id it is filed under |
| `TsDatabase.StoredPatients` | client/src/Database.ts:287-289 | documents from the patients store sit under their keys |
| `TsDatabase.AddPets` | client/src/Database.ts:295-301 | adds each pet not excluded to the set, keeping it duplicate-free |
| `TsDatabase.PetsNotIn` | client/src/Database.ts:294-301 | the distinct pets of the clients that are not excluded |
| `TsDatabase.SetPatients` | client/src/Database.ts:303-305 | each fetched patient is filed under its id, keeping the others |
| `TsDatabase.CollectHits` | client/src/Database.ts:287-290 | the hit ids, each once in page order, and each hit loaded under its id; fails iff some hit does not load |
| `TsDatabase.CollectedStep` | client/src/Database.ts:287-290 | one more hit that loads adds its id to the matched set unless already there and files the loaded patient under it |
| `TsDatabase.MissingFetchable` | client/src/Database.ts:294-303 | fetching the owners' pets not yet loaded succeeds iff every pet of the owners is stored |
| `TsDatabase.FromStoreFetchable` | client/src/Database.ts:289 | a patient loaded from the store is stored as a patient |
| `TsDatabase.ImportedPatient` | client/src/Database.ts:338-345 | typed `patient`, id cleared, one rewritten visit per visit; none without visits |
| `TsDatabase.HasTaskValue` | client/src/Patient.ts:159 | `tasks.indexOf` answers membership on an array and throws on the `{}` the import assigns |
| `TsDatabase.FilterWithTask` | client/src/Patient.ts:158-160 | the filter throws iff some visit's tasks are `{}`; otherwise it keeps exactly the positions of the visits with that task |
| `TsDatabase.DeserializeImportedAsWritten` | client/src/Database.ts:338-346 | `Patient.deserialize` of an imported record throws iff it has a visit, because `refreshDueDates` calls `indexOf` on `{}`; without visits it is the patient constructed with no id and nothing dirty |
| `TsDatabase.ImportedPatientWithVisitFails` | client/src/Database.ts:343 | an exported patient with a visit fails to import as written, while the intended import keeps every visit with an empty task list |
| `TsDatabase.RenamePets` | client/src/Database.ts:358-359 | the new ids of the exported pets that were imported |
| `TsDatabase.ImportedClient` | client/src/Database.ts:356-362 | typed `client`, with no id, its pets renamed; none without pets or phones |
| `TsDatabase.ImportedClientAsWritten` | client/src/Database.ts:356-363 | the record `deserialize` reads keeps the export id in `id` |
| `TsDatabase.ImportedClientIsNeverDirty` | client/src/Database.ts:357-364 | an imported client with an export id comes out with that id and clean, the case `updateClient` returns without writing |
| `JsClient.Client.constructor` | client/src/Client.js:4-18 | adding the option pets one by one to an empty set yields the initial client |
| `JsClient.Client.SetAttr` | client/src/Client.js:46-49 | marks the client dirty and stores the value in the named attribute only |
| `JsClient.Client.SetName` | client/src/Client.js:24 | stores the name through `setAttr`, dirty, nothing else changed |
| `JsClient.Client.SetAddress` | client/src/Client.js:27 | stores the address through `setAttr`, dirty, nothing else changed |
| `JsClient.Client.SetNote` | client/src/Client.js:30 | stores the note through `setAttr`, dirty, nothing else changed |
| `JsClient.Client.AddPet` | client/src/Client.js:34-37 | afterwards the client has the pet and every pet it had, and is dirty |
| `JsClient.Client.RemovePet` | client/src/Client.js:39-42 | always throws, after marking the client dirty; a pet it had is still there |
| `JsClient.Client.Serialize` | client/src/Client.js:51-60 | tagged `client`, with the client's id |
| `JsClient.Client.Deserialize` | client/src/Client.js:63-69 | fails iff the type is not `client`; otherwise a new client built from the data |
| `JsPatient.SerializeEvent` | client/src/Patient.js:10-16 | keeps the event's type and note |
| `JsPatient.DeserializeEvent` | client/src/Patient.js:19-21 | keeps the type and note |
| `JsPatient.EventRoundTrip` | client/src/Patient.js:10-21 | an event survives serialisation whenever parsing undoes formatting |
| `JsPatient.InitialPatient` | client/src/Patient.js:24-42 | a missing or empty name is `(unnamed)`, a missing sex empty, active unless given false; no events, clean |
| `JsPatient.PatientDataOf` | client/src/Patient.js:87-101 | tagged `patient`, with the id and one serialised event per event |
| `JsPatient.PatientRoundTrip` | client/src/Patient.js:87-110 | deserialising a serialised patient keeps every field but the events, which the constructor does not read back, and is clean |
| `JsPatient.CharText` | client/src/Patient.js:72 | the template text for a code's character: that character, or `undefined` past its end |
| `JsPatient.Patient.constructor` | client/src/Patient.js:24-42 | the new patient has exactly the initial state |
| `JsPatient.Patient.SetAttr` | client/src/Patient.js:82-85 | marks the patient dirty and stores the value in the named attribute only |
| `JsPatient.Patient.SetName` | client/src/Patient.js:48 | stores the name, dirty, nothing else changed |
| `JsPatient.Patient.SetBreed` | client/src/Patient.js:51 | stores the breed, dirty, nothing else changed |
| `JsPatient.Patient.SetSpecies` | client/src/Patient.js:54 | stores the species, dirty, nothing else changed |
| `JsPatient.Patient.SetDescription` | client/src/Patient.js:57 | stores the description, dirty, nothing else changed |
| `JsPatient.Patient.SetNote` | client/src/Patient.js:60 | stores the note, dirty, nothing else changed |
| `JsPatient.Patient.SetActive` | client/src/Patient.js:63 | stores the flag, dirty, nothing else changed |
| `JsPatient.Patient.Sex` | client/src/Patient.js:65 | defined iff the code is not empty |
| `JsPatient.Patient.SetSex` | client/src/Patient.js:66-73 | throws, changing nothing, on values other than `f`, `m`, `i`; otherwise replaces the first character, keeps intactness, and marks the patient dirty |
| `JsPatient.Patient.SetIntact` | client/src/Patient.js:76-80 | the code becomes its sex followed by `+` or `-`, dirty; on a non-empty code intactness reads back as set, on an empty one never |
| `JsPatient.Patient.Serialize` | client/src/Patient.js:87-101 | tagged `patient`, with the patient's id |
| `JsPatient.Patient.Deserialize` | client/src/Patient.js:104-110 | fails iff the type is not `patient`; otherwise a new patient built from the data |
| `JsSearchResults.MapAll` | client/src/SearchResults.js:34-41 | one result per id, in order: `f` of the indexed client, or of undefined |
| `JsSearchResults.JsPatientsOfData` | client/src/SearchResults.js:62-66 | fails iff some raw patient is not of type `patient`; otherwise exactly the raw patients' ids are stored, each under the patient rebuilt from the last raw patient with that id |
| `JsSearchResults.RebuildJsPatient` | client/src/SearchResults.js:64 | the rebuilt patient keeps its id, has no events and is clean, an `(unnamed)` name when none is given, active unless given false, and the other fields read from the data or empty |
| `JsSearchResults.SearchResults.constructor` | client/src/SearchResults.js:6-15 | ids in input order, missing patients and matches empty, each client indexed under its id |
| `JsSearchResults.SearchResults.UpdateRecord` | client/src/SearchResults.js:17-23 | a patient replaces the patient entry, a client the client entry, anything else changes nothing |
| `JsSearchResults.SearchResults.AddPatient` | client/src/SearchResults.js:25-32 | an unknown client id throws before anything changes; otherwise the client lists the patient, with its dirty flag untouched, and the patient is stored |
| `JsSearchResults.SearchResults.Map` | client/src/SearchResults.js:34-41 | the loop returns exactly `f` of each id's client, in order |
| `JsSearchResults.SearchResults.ClearAsWritten` | client/src/SearchResults.js:43-48 | empties the patients and then throws on the missing `matchedPatients`, leaving the ids, matches and client index |
| `JsSearchResults.SearchResults.Clear` | client/src/SearchResults.js:43-48 | empties the ids, the patients, the matches and the client index |
| `JsSearchResults.SearchResults.Deserialize` | client/src/SearchResults.js:51-75 | fails iff the type is wrong or some client or patient does not deserialise; otherwise ids in order, each client deserialised from its data and indexed under its id, each patient rebuilt from the last raw patient with its id, and the matched set |

## Left out

- Floating point is not modelled. Sexp's float fallback in `parsenum` (sexp.py:40-42) becomes a `NotAnInteger` error, so the float tree of sexp_test.py is not covered. The `weight / 1000` conversion of the import (client/src/Database.ts:342) and task charges are not modelled.
- `vetmarshal.permissions` is not modelled: it only wraps a list in a tag.
- `vetmarshal.parse_client` and `parse_patient` are not modelled. They call `sexp.structure`, which `sexp.py` does not define.
- The sqlite `Database` class of `database.py` is left out: it is SQL schema, upgrades and queries.
- `server/database.go` (MongoDB) is not part of this model. Only its task-interval table enters, as a parameter.
- `server/main.go`, the websocket servers, `Connection.ts`/`.js`, the search worker (lunr, localforage) and all UI code are not part of this model.
- Python objects in sets are compared by identity in the source. The model holds records as values, so two equal records are one.
- `Text.Lower` folds ASCII letters only. Python's `lower` and `\W` are Unicode-aware: non-ASCII characters are treated as word characters and are not case-folded.
- Real dates are not modelled. moment, `time.Parse` and RFC 3339 formatting are parameters. Go's "normalise to UTC" is a parameter function.
- `util.genID`, `Client.summarize`, `Patient.summarize` and `util.Timer` are not shown in the source. Ids and summaries are parameters. The timer and console logging are left out.
- Promises, async ordering, worker messages and IndexedDB callbacks are modelled as sequential steps. Writes inside `onchange` that no caller awaits are modelled as completing in order.
- `Hopps.connect`, `Hopps.destroy` and `Database.destroy` are left out: they open or delete the browser database.
- IndexedDB's own index lookups and cursor contents are inputs. `Hopps.Lookup` takes the index as a function, and `ForEach`/`Query` take the cursor as a list.
- `Database.getClient` and `getPatient` are not modelled separately: each is the first element of `getClients`/`getPatients` on one id.
- VetclixStore.DummyConnection.Search: when the Python search raises because a client lists a patient that is not stored, the model does not say which patient the error names. Python names the first in dict order.
- GoVisit.ToRealVisit: the source sorts the receiver's task list in place. The model returns the receiver afterwards as a second result and treats it as a value, so other references to that slice are not captured.
- TsPatient.Patient holds visits as value snapshots, not shared `Visit` objects, so changes to a visit made through another reference are not captured.
- Vetmarshal.Success: states only that the message is a one-element list. Its exact content is what `SuccessIsNoError` relies on.
- Vetmarshal.Error: states only the shape and the tag of the message. That the code is kept is stated by `ParseErrorOfError`.
- JsPatient.PatientRoundTrip: events are not read back. The constructor starts with no events, so the round trip drops them, as the source does.

- Sexp.ParseNum: accepts only non-empty ASCII digit strings. Python's `int()` also takes a sign, surrounding whitespace, `_` between digits and non-ASCII digits; of these, only the unclosed string atom (sexp.py:125-129) can pass them, so there the model raises `NotAnInteger` where Python returns a number.
- Sexp.ParseSpec: inherits `ParseNum`'s strictness on an unclosed string atom such as `"-7` or `" 7`, which Python parses to -7 and 7.
- Sexp.Parse: is `ParseSpec` step by step, so it shares that gap. Numbers are `nat`: a negative integer, and `dump(-7)`'s output `-7`, are not represented.
- Vetmarshal.ParseError: when the second element is a list, the model returns `Err(ListText)`. Python's `str()` would return the list's repr as the code; that repr is not modelled.
- Text.IsSpace: ASCII whitespace plus U+001C-U+001F, U+0085 and U+00A0 only. The other Unicode spaces `str.split()` splits on (U+1680, U+2000-U+200A, U+2028, U+2029, U+202F, U+205F, U+3000) are treated as word characters.
- Text.Words: inherits `IsSpace`'s set, so text separated only by Unicode spaces is one word.
- LegacyDatabase.TokenizeMembers: inherits `Words`'s split on ASCII whitespace.
- VetclixDb.NormalizeQueryAppend: inherits `Words`'s split on ASCII whitespace.
- TsPatient.DueOf: computes the intended due date from the most recent visit (the Findings row on `lastVisitWithTask`); the as-written date is `DueOfAsWritten`.
- TsPatient.DueDates: follows the corrected `DueOf`, not `DueOfAsWritten`.
- TsPatient.DueDatesOf: follows the corrected `DueOf`.
- TsPatient.InitialState: its due dates follow the corrected `DueOf`.
- TsPatient.Patient.constructor: its due dates follow the corrected `DueOf`.
- TsPatient.Patient.RefreshDueDates: follows the corrected `DueOf`.
- TsPatient.Patient.Serialize: writes the due dates of the corrected `DueOf`.
- TsPatient.Patient.Deserialize: recomputes due dates with the corrected `DueOf`; so do the patients `TsSearchResults` and `TsDatabase` rebuild.
- TsDatabase.Database.Write: stores a client under its `id`, as intended. As written, the `_id` key path rejects every client `put` (the Findings row on client/src/Database.ts:112; `PutClientAsWritten`).
- TsDatabase.Database.UpdateClient: stores the client under its `id`, as intended, where the `put` as written rejects with `DataError`.
- TsDatabase.Database.AddOwners: each owner is filed under its id, as intended, unless its write fails; as written the first owner `put` rejects with `DataError`.
- TsDatabase.Database.UpdatePatient: with `addOwners`, the owners are filed under their ids as intended; as written the patient is stored and then the first owner `put` rejects.
- TsDatabase.Database.LinkOwners: owner writes file each owner under its id, as intended; as written they reject with `DataError`.
- TsDatabase.Database.SavePatient: new owners are filed under their ids, as intended; as written the owner `put` rejects.
- TsDatabase.Database.StoreAndLink: the owner writes file each owner under its id, as intended; as written they reject.
- TsDatabase.Database.Keyed: keys clients by `id`, as intended, not by the `_id` they lack.
- TsDatabase.KeysOf: keys clients by `id`, as intended.
- TsDatabase.Database.ImportClient: stores the client under a new id, as intended; as written its `put` would reject with `DataError`.
- TsDatabase.Database.ImportClients: files each importing client under its new id, as intended; as written every client write rejects with `DataError`.
- TsDatabase.Database.ImportData: files each patient with visits and each client under its new id, as intended; as written both fail (the Findings rows on client/src/Database.ts:112 and :343).
- TsDatabase.ImportedPatient: gives each visit an empty task list, as intended; as written it is `{}`, and `DeserializeImportedAsWritten` models what follows.
- TsDatabase.Database.ImportPatient: files a patient with visits under its new id, as intended; as written it throws (`DeserializeImportedAsWritten`).
- TsDatabase.Database.ImportPatients: files every patient with visits whose write succeeds, as intended; as written each one with a visit is skipped after a logged TypeError.
- TsDatabase.Database.ShowUpcoming: the `visitDates` cursor is an input. `Patient.serialize` (client/src/Patient.ts:191-205) writes no `visitDates`, so the index created at client/src/Database.ts:115 is always empty and the call as written always finds nothing.
- TsDatabase.Database.UpcomingPatients: its hits come from that cursor input, which as written is always empty.
- TsDatabase.Database.Search: the upcoming branch inherits `ShowUpcoming`'s cursor input.
- TsDatabase.TextSearch.Receive: resolves with the method name of the settled message, not the worker's `e.data.result`, which nothing here depends on because the search hits are an input; a non-string `e.data.error` is not represented.
- JsSearchResults.SearchResults.AddPatient: requires the patient to have an id. A client's pet set holds strings; a pet added under `undefined` is not modelled.

## Findings

| source | as written | input that shows it | evidently intended | confidence | as-written member | corrected member |
|---|---|---|---|---|---|---|
| client/src/Patient.ts:156-166 | `lastVisitWithTask` sorts ascending by date and takes element 0, so it returns the earliest visit with that task | two visits with `exam`, a month apart, in either order: the older one is returned | the most recent visit with that task, as the comment says; due dates are then six months after the last exam | not executed | `TsPatient.LastVisitWithTaskIsEarliest` | `TsPatient.MostRecentVisitWithTask` |
| server/patient.go:164-173 | `Sex()` panics on every code whose first character is not `m` or `f`, although its comment says this cannot happen | a patient with code `?+`, which `VerifySex` accepts | a sex for every accepted code, `?` included | not executed | `GoPatient.SexPanicsOnAcceptedCode` | `GoPatient.SexOfCode` |
| client/src/Hopps.ts:109-115 | the stop test is `i > limit`, so `query` keeps `limit + 1` values | a cursor of 51 entries with limit 50 gives 51 values | at most `limit` values | not executed | `Hopps.QueryKeepsOneExtra` | `Hopps.Hopps.BoundedQuery` |
| client/src/Database.ts:226 | `Client` declares no `isDirty`, so `!client.isDirty` always holds and a client with an id is never written | a client with an id whose name was just changed is returned unwritten | write the client when it has unsaved changes | not executed | `TsDatabase.Database.UpdateClientAsWritten` | `TsDatabase.Database.UpdateClient` |
| client/src/Database.ts:357-364 | the import clears `_id`, but `Client.deserialize` reads `id`, so the client keeps its export id, is clean, and `updateClient` returns without saving it | any exported client record with an `id` | store the client under a new id with its pets renamed | not executed | `TsDatabase.ImportedClientIsNeverDirty` | `TsDatabase.Database.ImportClient` |
| client/src/Client.js:39-42 | `removePet` calls `Set.remove`, which does not exist, so it throws after marking the client dirty and the pet stays | removing any pet | delete the pet, as the TypeScript generation does with `delete` | not executed | `JsClient.Client.RemovePet` | `TsClient.Client.RemovePet` |
| client/src/SearchResults.js:43-48 | `clear` sets an unused `clients` field, empties the patients, then throws on the undefined `matchedPatients` | any call to `clear` | empty the ids, patients, matches and client index | not executed | `JsSearchResults.SearchResults.ClearAsWritten` | `JsSearchResults.SearchResults.Clear` |
| client/src/Database.ts:112 | the `clients` store has key path `_id`, but `Client.serialize` writes the id under `id` only, so every `put('clients', …)` rejects with `DataError` | any client passed to `updateClient` without an id, or any owner `updatePatient` links | store the client under its id | not executed | `TsDatabase.PutClientAsWritten` | `TsDatabase.Database.UpdateClient` |
| client/src/Database.ts:343 | the import sets each visit's `tasks` to `{}`; `Visit` keeps it, and the `Patient` constructor's `refreshDueDates` calls `indexOf` on it, which throws | any exported patient with one visit | an empty task list per visit | not executed | `TsDatabase.ImportedPatientWithVisitFails` | `TsDatabase.Database.ImportPatient` |
