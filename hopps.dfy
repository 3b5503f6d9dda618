/** The browser client's thin wrapper over IndexedDB: keyed object stores,
    batched writes that announce each written document once the transaction
    completes, lookups by key, and cursor walks.  The stores are in-memory
    maps from primary key to document; what a named index or a cursor yields
    is given from outside, as IndexedDB computes it. */
module Hopps {
  import opened Common

  /** The mode a transaction is opened in. */
  datatype Mode = ReadOnly | ReadWrite

  /** A transaction over some object stores. */
  datatype Transaction = Transaction(stores: seq<string>, mode: Mode)

  /** The rejection `get` gives for a key with no record. */
  function MissingDocument(query: string): string
  {
    "Missing document: \"" + query + "\""
  }

  /** Every document of a batch tagged with its store, store by store and in
      order within each store: the order `putAll` writes them and announces
      them. */
  function Tagged<D>(objects: seq<(string, seq<D>)>): (r: seq<(string, D)>)
    ensures |r| == Total(objects)
  {
    if objects == [] then []
    else
      seq(|objects[0].1|, j requires 0 <= j < |objects[0].1| => (objects[0].0, objects[0].1[j]))
      + Tagged(objects[1..])
  }

  /** The number of documents in a batch. */
  function Total<D>(objects: seq<(string, seq<D>)>): nat
  {
    if objects == [] then 0 else |objects[0].1| + Total(objects[1..])
  }

  /** Each document of a batch is announced exactly once, at the position
      given by the documents of the stores before it. */
  lemma {:induction false} TaggedPosition<D>(objects: seq<(string, seq<D>)>, i: nat, j: nat)
    requires i < |objects| && j < |objects[i].1|
    ensures Total(objects[..i]) + j < |Tagged(objects)|
    ensures Tagged(objects)[Total(objects[..i]) + j] == (objects[i].0, objects[i].1[j])
  {
    if i == 0 {
      assert objects[..0] == [];
    } else {
      assert objects[1..][..i - 1] == objects[..i][1..];
      TaggedPosition(objects[1..], i - 1, j);
    }
  }

  /** The first position of a document with no key, or the length. */
  function FirstKeyless<D>(tagged: seq<(string, D)>, keyOf: D -> Option<string>): (k: nat)
    ensures k <= |tagged|
    ensures forall i :: 0 <= i < k ==> keyOf(tagged[i].1).Some?
    ensures k < |tagged| ==> keyOf(tagged[k].1).None?
  {
    if tagged == [] then 0
    else if keyOf(tagged[0].1).None? then 0
    else 1 + FirstKeyless(tagged[1..], keyOf)
  }

  /** Every store named by a tagged document exists and every document has
      a key. */
  predicate Writable<D>(stores: map<string, map<string, D>>, tagged: seq<(string, D)>, keyOf: D -> Option<string>)
  {
    forall i :: 0 <= i < |tagged| ==> tagged[i].0 in stores && keyOf(tagged[i].1).Some?
  }

  /** The stores after writing the tagged documents in order, each under its
      key, a later one replacing an earlier one with the same key. */
  function Written<D>(stores: map<string, map<string, D>>, tagged: seq<(string, D)>, keyOf: D -> Option<string>)
    : (r: map<string, map<string, D>>)
    requires Writable(stores, tagged, keyOf)
    ensures r.Keys == stores.Keys
  {
    if tagged == [] then stores
    else
      var (name, doc) := tagged[0];
      Written(stores[name := stores[name][keyOf(doc).value := doc]], tagged[1..], keyOf)
  }

  /** The last document written under `key` into store `name`, if any. */
  function LastWrite<D>(tagged: seq<(string, D)>, keyOf: D -> Option<string>, name: string, key: string): Option<D>
  {
    if tagged == [] then None
    else
      var rest := LastWrite(tagged[1..], keyOf, name, key);
      if rest.Some? then rest
      else if tagged[0].0 == name && keyOf(tagged[0].1) == Some(key) then Some(tagged[0].1)
      else None
  }

  /** After a batch, a key holds the last document written under it, and a
      key nothing was written under keeps what it held. */
  lemma {:induction false} WrittenLastWins<D>(stores: map<string, map<string, D>>, tagged: seq<(string, D)>,
                                              keyOf: D -> Option<string>, name: string, key: string)
    requires Writable(stores, tagged, keyOf) && name in stores
    ensures LastWrite(tagged, keyOf, name, key).Some? ==>
      key in Written(stores, tagged, keyOf)[name] &&
      Written(stores, tagged, keyOf)[name][key] == LastWrite(tagged, keyOf, name, key).value
    ensures LastWrite(tagged, keyOf, name, key).None? ==>
      (key in Written(stores, tagged, keyOf)[name] <==> key in stores[name]) &&
      (key in stores[name] ==> Written(stores, tagged, keyOf)[name][key] == stores[name][key])
  {
    if tagged != [] {
      var (n, doc) := tagged[0];
      var next := stores[n := stores[n][keyOf(doc).value := doc]];
      assert Writable(next, tagged[1..], keyOf);
      WrittenLastWins(next, tagged[1..], keyOf, name, key);
    }
  }

  /** Writing a batch keeps every document under its own key. */
  lemma {:induction false} WrittenKeepsKeys<D>(stores: map<string, map<string, D>>, tagged: seq<(string, D)>,
                                               keyOf: D -> Option<string>)
    requires Writable(stores, tagged, keyOf)
    requires forall n, k :: n in stores && k in stores[n] ==> keyOf(stores[n][k]) == Some(k)
    ensures var w := Written(stores, tagged, keyOf);
      forall n, k :: n in w && k in w[n] ==> keyOf(w[n][k]) == Some(k)
  {
    if tagged != [] {
      var (n, doc) := tagged[0];
      var next := stores[n := stores[n][keyOf(doc).value := doc]];
      assert Writable(next, tagged[1..], keyOf);
      assert forall m, k :: m in next && k in next[m] ==> keyOf(next[m][k]) == Some(k);
      assert Written(stores, tagged, keyOf) == Written(next, tagged[1..], keyOf);
      WrittenKeepsKeys(next, tagged[1..], keyOf);
    }
  }

  /** Writing one more document after a batch. */
  lemma {:induction false} WrittenSnoc<D>(stores: map<string, map<string, D>>, tagged: seq<(string, D)>,
                                          keyOf: D -> Option<string>, name: string, doc: D)
    requires Writable(stores, tagged + [(name, doc)], keyOf)
    requires name in stores && keyOf(doc).Some?
    ensures Writable(stores, tagged, keyOf)
    ensures var w := Written(stores, tagged, keyOf);
      Written(stores, tagged + [(name, doc)], keyOf) == w[name := w[name][keyOf(doc).value := doc]]
  {
    assert forall i :: 0 <= i < |tagged| ==> tagged[i] == (tagged + [(name, doc)])[i];
    if tagged == [] {
      assert [(name, doc)][1..] == [];
      assert Written(stores, [(name, doc)], keyOf) ==
        Written(stores[name := stores[name][keyOf(doc).value := doc]], [], keyOf);
    } else {
      var (n, d) := tagged[0];
      var next := stores[n := stores[n][keyOf(d).value := d]];
      assert (tagged + [(name, doc)])[1..] == tagged[1..] + [(name, doc)];
      WrittenSnoc(next, tagged[1..], keyOf, name, doc);
    }
  }

  /** What a lookup in a store, or in one of its named indexes, finds. An
      empty index name looks the key up in the store itself; `index` stands
      for IndexedDB's `index(name).get`, which is not modelled. */
  function Lookup<D>(stores: map<string, map<string, D>>, objectStore: string, indexName: string,
                     index: (string, map<string, D>, string) -> Option<D>, query: string): Option<D>
    requires objectStore in stores
  {
    if indexName == "" then
      if query in stores[objectStore] then Some(stores[objectStore][query]) else None
    else index(indexName, stores[objectStore], query)
  }

  /** `queries[i]` is the first key with no document. */
  predicate FirstMissing<D>(stores: map<string, map<string, D>>, objectStore: string, indexName: string,
                            index: (string, map<string, D>, string) -> Option<D>, queries: seq<string>, i: int)
    requires objectStore in stores
  {
    && 0 <= i < |queries|
    && Lookup(stores, objectStore, indexName, index, queries[i]).None?
    && forall j :: 0 <= j < i ==> Lookup(stores, objectStore, indexName, index, queries[j]).Some?
  }

  /** The outcome of looking up every key in turn: one document per key, or
      the first key with none. */
  function Fetch<D>(stores: map<string, map<string, D>>, objectStore: string, indexName: string,
                    index: (string, map<string, D>, string) -> Option<D>, queries: seq<string>): (r: Result<seq<D>, string>)
    requires objectStore in stores
    ensures r.Ok? <==> forall i :: 0 <= i < |queries| ==> Lookup(stores, objectStore, indexName, index, queries[i]).Some?
    ensures r.Ok? ==> |r.value| == |queries|
    ensures r.Ok? ==> forall i :: 0 <= i < |queries| ==>
                        Some(r.value[i]) == Lookup(stores, objectStore, indexName, index, queries[i])
    ensures r.Err? ==> exists i :: FirstMissing(stores, objectStore, indexName, index, queries, i) &&
                                   r.error == MissingDocument(queries[i])
  {
    if queries == [] then Ok([])
    else
      var found := Lookup(stores, objectStore, indexName, index, queries[0]);
      if found.None? then Err(MissingDocument(queries[0]))
      else
        var rest := Fetch(stores, objectStore, indexName, index, queries[1..]);
        assert forall i :: 1 <= i < |queries| ==> queries[i] == queries[1..][i - 1];
        if rest.Err? then
          assert exists i :: FirstMissing(stores, objectStore, indexName, index, queries, i) &&
                             rest.error == MissingDocument(queries[i]) by {
            var i :| FirstMissing(stores, objectStore, indexName, index, queries[1..], i) &&
                     rest.error == MissingDocument(queries[1..][i]);
            assert FirstMissing(stores, objectStore, indexName, index, queries, i + 1);
          }
          Err(rest.error)
        else Ok([found.value] + rest.value)
  }

  /** What `get` resolves or rejects with: opening a transaction on a
      missing store fails first, even for no keys. */
  function GetSpec<D>(stores: map<string, map<string, D>>, objectStore: string, indexName: string,
                      index: (string, map<string, D>, string) -> Option<D>, queries: seq<string>): (r: Result<seq<D>, string>)
    ensures objectStore !in stores ==> r == Err("NotFoundError")
    ensures objectStore in stores && queries == [] ==> r == Ok([])
  {
    if objectStore !in stores then Err("NotFoundError")
    else Fetch(stores, objectStore, indexName, index, queries)
  }

  /** The values of cursor entries. */
  function Values<D>(entries: seq<(string, D)>): (r: seq<D>)
    ensures |r| == |entries| && forall i :: 0 <= i < |entries| ==> r[i] == entries[i].1
  {
    seq(|entries|, i requires 0 <= i < |entries| => entries[i].1)
  }

  /** `query`'s options. */
  datatype QueryOptions = QueryOptions(limit: Option<nat>, direction: Option<string>)

  class Hopps<D> {
    /** Object store name to primary key to document. */
    var stores: map<string, map<string, D>>
    /** The stores' key path: the key a document is stored under. */
    const keyOf: D -> Option<string>

    /** Every document sits under its own key. */
    ghost predicate Valid()
      reads this
    {
      forall n, k {:trigger keyOf(stores[n][k])} :: n in stores && k in stores[n] ==> keyOf(stores[n][k]) == Some(k)
    }

    /** The constructor over an opened database. */
    constructor (stores: map<string, map<string, D>>, keyOf: D -> Option<string>)
      ensures this.stores == stores && this.keyOf == keyOf
    {
      this.stores := stores;
      this.keyOf := keyOf;
    }

    /** `rawTransaction`: opens its stores read-only, whatever the caller
        meant to do with them. */
    function RawTransaction(objectStores: seq<string>): (t: Transaction)
      ensures t.mode == ReadOnly && t.stores == objectStores
    {
      Transaction(objectStores, ReadOnly)
    }

    /** `get`: one request per key, resolving once every key has a
        document, rejecting at the first key without one. */
    method Get(objectStore: string, indexName: string, index: (string, map<string, D>, string) -> Option<D>,
               queries: seq<string>) returns (r: Result<seq<D>, string>)
      ensures r == GetSpec(stores, objectStore, indexName, index, queries)
    {
      if objectStore !in stores {
        return Err("NotFoundError");
      }
      if |queries| == 0 {
        return Ok([]);
      }
      var results: seq<D> := [];
      assert queries[0..] == queries;
      for i := 0 to |queries|
        invariant Fetch(stores, objectStore, indexName, index, queries).Ok? <==>
                  Fetch(stores, objectStore, indexName, index, queries[i..]).Ok?
        invariant Fetch(stores, objectStore, indexName, index, queries).Ok? ==>
                  Fetch(stores, objectStore, indexName, index, queries).value ==
                  results + Fetch(stores, objectStore, indexName, index, queries[i..]).value
        invariant Fetch(stores, objectStore, indexName, index, queries).Err? ==>
                  Fetch(stores, objectStore, indexName, index, queries).error ==
                  Fetch(stores, objectStore, indexName, index, queries[i..]).error
      {
        var found := Lookup(stores, objectStore, indexName, index, queries[i]);
        assert queries[i..][1..] == queries[i + 1..];
        if found.None? {
          return Err(MissingDocument(queries[i]));
        }
        var later := Fetch(stores, objectStore, indexName, index, queries[i + 1..]);
        if later.Ok? {
          assert results + [found.value] + later.value == results + ([found.value] + later.value);
        }
        results := results + [found.value];
      }
      assert queries[|queries|..] == [];
      assert results + [] == results;
      r := Ok(results);
    }

    /** `putAll`: writes a batch in one read-write transaction and, once it
        completes, announces every written document, store by store, in
        order.  Opening the transaction on a missing store fails before
        anything is written; a document without a key fails at that
        document, after the ones before it were written; a transaction that
        errors writes nothing.  No failure announces anything.  The
        returned list is the sequence of `onchange` calls. */
    method PutAll(objects: seq<(string, seq<D>)>, fails: bool) returns (r: Result<seq<(string, D)>, string>)
      requires forall i, j :: 0 <= i < j < |objects| ==> objects[i].0 != objects[j].0
      requires Valid()
      modifies this
      ensures Valid()
      ensures (exists i :: 0 <= i < |objects| && objects[i].0 !in old(stores)) ==>
        r == Err("NotFoundError") && stores == old(stores)
      ensures (forall i :: 0 <= i < |objects| ==> objects[i].0 in old(stores)) ==>
        var tagged := Tagged(objects);
        var k := FirstKeyless(tagged, keyOf);
        && Writable(old(stores), tagged[..k], keyOf)
        && (k < |tagged| ==> r == Err("DataError") && stores == Written(old(stores), tagged[..k], keyOf))
        && (k == |tagged| && fails ==> r == Err("Error saving document") && stores == old(stores))
        && (k == |tagged| && !fails ==> r == Ok(tagged) && stores == Written(old(stores), tagged, keyOf))
    {
      if exists i :: 0 <= i < |objects| && objects[i].0 !in stores {
        return Err("NotFoundError");
      }
      assert StoreNames(objects) <= stores.Keys;
      var tagged := Tagged(objects);
      TaggedStores(objects);
      var staged, complete := Stage(stores, tagged, keyOf);
      if !complete {
        stores := staged;
        return Err("DataError");
      }
      if fails {
        return Err("Error saving document");
      }
      assert tagged[..|tagged|] == tagged;
      stores := staged;
      r := Ok(tagged);
    }

    /** `put`: a batch of one document. */
    method Put(objectStore: string, doc: D, fails: bool) returns (r: Result<seq<(string, D)>, string>)
      requires Valid()
      modifies this
      ensures Valid()
      ensures objectStore !in old(stores) ==> r == Err("NotFoundError") && stores == old(stores)
      ensures objectStore in old(stores) && keyOf(doc).None? ==> r == Err("DataError") && stores == old(stores)
      ensures objectStore in old(stores) && keyOf(doc).Some? && fails ==>
        r == Err("Error saving document") && stores == old(stores)
      ensures objectStore in old(stores) && keyOf(doc).Some? && !fails ==>
        r == Ok([(objectStore, doc)]) &&
        stores == old(stores)[objectStore := old(stores)[objectStore][keyOf(doc).value := doc]]
    {
      var batch := [(objectStore, [doc])];
      assert Tagged(batch[1..]) == [];
      assert Tagged(batch) == [(objectStore, doc)];
      ghost var before := stores;
      r := PutAll(batch, fails);
      if objectStore in before && keyOf(doc).Some? && !fails {
        var tagged := [(objectStore, doc)];
        assert tagged[1..] == [];
        assert Written(before, tagged, keyOf) ==
          Written(before[objectStore := before[objectStore][keyOf(doc).value := doc]], [], keyOf);
      }
      if objectStore in before && keyOf(doc).None? {
        assert Tagged(batch)[..0] == [];
      }
    }

    /** `forEach`: hands `f` the cursor's entries in order and stops right
        after the first one `f` answers false to.  The result is the number
        of entries `f` was called on. */
    method ForEach(cursor: seq<(string, D)>, f: (string, D) -> bool) returns (visited: nat)
      ensures visited <= |cursor|
      ensures forall i :: 0 <= i < visited - 1 ==> f(cursor[i].0, cursor[i].1)
      ensures visited < |cursor| ==> 0 < visited && !f(cursor[visited - 1].0, cursor[visited - 1].1)
      ensures visited == |cursor| && 0 < |cursor| && f(cursor[|cursor| - 1].0, cursor[|cursor| - 1].1) ==>
        forall i :: 0 <= i < |cursor| ==> f(cursor[i].0, cursor[i].1)
    {
      visited := 0;
      while visited < |cursor|
        invariant visited <= |cursor|
        invariant forall i :: 0 <= i < visited ==> f(cursor[i].0, cursor[i].1)
      {
        var (key, value) := cursor[visited];
        visited := visited + 1;
        if !f(key, value) {
          return;
        }
      }
    }

    /** `query`, as written: walks the cursor counting the values it keeps
        and stops only once the count exceeds the limit, so it keeps one
        value more than the limit.  Missing options fail, because the
        direction is read from them unguarded. */
    method Query(cursor: seq<(string, D)>, options: Option<QueryOptions>) returns (r: Result<seq<D>, string>)
      ensures options.None? <==> r.Err?
      ensures r.Ok? && options.value.limit.None? ==> r.value == Values(cursor)
      ensures r.Ok? && options.value.limit.Some? ==>
        var n := options.value.limit.value;
        r.value == Values(cursor[..if |cursor| <= n + 1 then |cursor| else n + 1])
    {
      if options.None? {
        return Err("TypeError: options is undefined");
      }
      var limit := options.value.limit;
      var results: seq<D> := [];
      var i := 0;
      while i < |cursor|
        invariant i <= |cursor| && results == Values(cursor[..i])
        invariant limit.Some? ==> i <= limit.value + 1
      {
        if limit.Some? && i > limit.value {
          break;
        }
        results := results + [cursor[i].1];
        i := i + 1;
      }
      r := Ok(results);
    }

    /** `query` as intended: keeps at most `limit` values. */
    method BoundedQuery(cursor: seq<(string, D)>, options: Option<QueryOptions>) returns (r: Result<seq<D>, string>)
      ensures options.None? <==> r.Err?
      ensures r.Ok? && options.value.limit.None? ==> r.value == Values(cursor)
      ensures r.Ok? && options.value.limit.Some? ==>
        var n := options.value.limit.value;
        r.value == Values(cursor[..if |cursor| <= n then |cursor| else n])
    {
      if options.None? {
        return Err("TypeError: options is undefined");
      }
      var limit := options.value.limit;
      var results: seq<D> := [];
      var i := 0;
      while i < |cursor|
        invariant i <= |cursor| && results == Values(cursor[..i])
        invariant limit.Some? ==> i <= limit.value
      {
        if limit.Some? && i >= limit.value {
          break;
        }
        results := results + [cursor[i].1];
        i := i + 1;
      }
      r := Ok(results);
    }
  }

  /** The writes of a transaction, staged in order until the first document
      without a key; `complete` tells whether every document was staged. */
  method Stage<D>(stores: map<string, map<string, D>>, tagged: seq<(string, D)>, keyOf: D -> Option<string>)
    returns (staged: map<string, map<string, D>>, complete: bool)
    requires forall i :: 0 <= i < |tagged| ==> tagged[i].0 in stores
    requires forall n, k :: n in stores && k in stores[n] ==> keyOf(stores[n][k]) == Some(k)
    ensures complete <==> FirstKeyless(tagged, keyOf) == |tagged|
    ensures Writable(stores, tagged[..FirstKeyless(tagged, keyOf)], keyOf)
    ensures staged == Written(stores, tagged[..FirstKeyless(tagged, keyOf)], keyOf)
    ensures forall n, k :: n in staged && k in staged[n] ==> keyOf(staged[n][k]) == Some(k)
  {
    ghost var k := FirstKeyless(tagged, keyOf);
    staged := stores;
    for i := 0 to |tagged|
      invariant i <= k
      invariant Writable(stores, tagged[..i], keyOf)
      invariant staged == Written(stores, tagged[..i], keyOf)
      invariant forall n, key :: n in staged && key in staged[n] ==> keyOf(staged[n][key]) == Some(key)
    {
      var (name, doc) := tagged[i];
      assert tagged[..i + 1] == tagged[..i] + [(name, doc)];
      var key := keyOf(doc);
      if key.None? {
        assert i == k;
        return staged, false;
      }
      WrittenSnoc(stores, tagged[..i], keyOf, name, doc);
      staged := staged[name := staged[name][key.value := doc]];
    }
    assert tagged[..|tagged|] == tagged;
    complete := true;
  }

  /** The stores a batch's tagged documents name are the batch's stores. */
  lemma {:induction false} TaggedStores<D>(objects: seq<(string, seq<D>)>)
    ensures forall t :: 0 <= t < |Tagged(objects)| ==> Tagged(objects)[t].0 in StoreNames(objects)
  {
    if objects != [] {
      TaggedStores(objects[1..]);
      forall t | 0 <= t < |Tagged(objects)|
        ensures Tagged(objects)[t].0 in StoreNames(objects)
      {
        if t < |objects[0].1| {
          assert Tagged(objects)[t].0 == objects[0].0;
        } else {
          assert Tagged(objects)[t] == Tagged(objects[1..])[t - |objects[0].1|];
        }
      }
    }
  }

  /** The names of a batch's stores. */
  function StoreNames<D>(objects: seq<(string, seq<D>)>): (r: set<string>)
    ensures forall i :: 0 <= i < |objects| ==> objects[i].0 in r
    ensures forall n :: n in r ==> exists i :: 0 <= i < |objects| && objects[i].0 == n
  {
    if objects == [] then {}
    else {objects[0].0} + StoreNames(objects[1..])
  }

  /** With a limit, `query` as written keeps one value more than the limit
      whenever the cursor has that many. */
  lemma QueryKeepsOneExtra<D>(cursor: seq<(string, D)>, n: nat)
    requires n + 1 <= |cursor|
    ensures |Values(cursor[..if |cursor| <= n + 1 then |cursor| else n + 1])| == n + 1
  {
  }
}
