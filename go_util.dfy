/** Helpers of the Go server for values decoded from JSON: casting a list of
    dynamic values to strings, extracting an optional string list, and
    filling a database update document from a list of dirty field names. */
module GoUtil {
  import opened Common

  /** The first element of `data` that is not a string. */
  function FirstNonString(data: seq<Value>): (r: Option<Value>)
    ensures r.None? <==> AllStrings(data)
    ensures r.Some? ==> exists i :: 0 <= i < |data| && data[i] == r.value && !data[i].VStr?
                                    && forall j :: 0 <= j < i ==> data[j].VStr?
  {
    if data == [] then None
    else if !data[0].VStr? then Some(data[0])
    else
      var rest := FirstNonString(data[1..]);
      assert forall j :: 1 <= j < |data| ==> data[j] == data[1..][j - 1];
      rest
  }

  /** The strings of `a + b` are those of `a` followed by those of `b`. */
  lemma {:induction false} StringsOfAppend(a: seq<Value>, b: seq<Value>)
    ensures StringsOf(a + b) == StringsOf(a) + StringsOf(b)
    decreases |a|
  {
    if a != [] {
      assert (a + b)[1..] == a[1..] + b;
      StringsOfAppend(a[1..], b);
    } else {
      assert a + b == b;
    }
  }

  /** A string is kept iff it occurs in the input. */
  lemma {:induction false} StringsOfMembers(data: seq<Value>, s: string)
    ensures s in StringsOf(data) <==> VStr(s) in data
    decreases |data|
  {
    if data != [] {
      StringsOfMembers(data[1..], s);
      assert VStr(s) in data <==> data[0] == VStr(s) || VStr(s) in data[1..];
    }
  }

  /** A list of strings casts to itself, element by element. */
  lemma {:induction false} StringsOfAllStrings(data: seq<Value>)
    requires AllStrings(data)
    ensures |StringsOf(data)| == |data|
    ensures forall i :: 0 <= i < |data| ==> StringsOf(data)[i] == data[i].s
    decreases |data|
  {
    if data != [] {
      StringsOfAllStrings(data[1..]);
    }
  }

  /** `CastStringList`: the strings of `data` in order (an empty result is
      Go's nil slice), and the first element that is not a string as the
      error. */
  method CastStringList(data: seq<Value>) returns (dirty: seq<string>, err: Option<Value>)
    ensures dirty == StringsOf(data)
    ensures err == FirstNonString(data)
  {
    dirty := [];
    err := None;
    var i := 0;
    while i < |data|
      invariant 0 <= i <= |data|
      invariant dirty == StringsOf(data[..i])
      invariant err == FirstNonString(data[..i])
    {
      var field := data[i];
      assert data[..i + 1] == data[..i] + [field];
      StringsOfAppend(data[..i], [field]);
      FirstNonStringAppend(data[..i], field);
      if field.VStr? {
        dirty := dirty + [field.s];
      } else if err.None? {
        err := Some(field);
      }
      i := i + 1;
    }
    assert data[..i] == data;
  }

  lemma {:induction false} FirstNonStringAppend(a: seq<Value>, v: Value)
    ensures FirstNonString(a + [v]) == if FirstNonString(a).Some? then FirstNonString(a)
                                       else if v.VStr? then None else Some(v)
    decreases |a|
  {
    if a != [] {
      assert (a + [v])[1..] == a[1..] + [v];
      FirstNonStringAppend(a[1..], v);
    } else {
      assert a + [v] == [v];
    }
  }

  /** `ExtractStringList`: the strings of the list under `key`, or nil (the
      empty list) when the key is missing or holds no list. */
  function ExtractStringList(data: map<string, Value>, key: string): (r: seq<string>)
    ensures key !in data || !data[key].VList? ==> r == []
    ensures key in data && data[key].VList? ==> r == StringsOf(data[key].items)
    ensures key in data && data[key].VList? && AllStrings(data[key].items) ==> |r| == |data[key].items|
  {
    if key in data && data[key].VList? then
      if AllStrings(data[key].items) then StringsOfAllStrings(data[key].items); StringsOf(data[key].items)
      else StringsOf(data[key].items)
    else []
  }

  /** Fills an update document: every dirty name that `field` knows maps
      `prefix + name` to its current value; other names are skipped. */
  method FillUpdates(dirty: seq<string>, prefix: string, field: string -> Option<Value>)
    returns (changes: map<string, Value>)
    ensures forall k :: k in changes <==> exists name :: name in dirty && field(name).Some? && k == prefix + name
    ensures forall name :: name in dirty && field(name).Some? ==>
      prefix + name in changes && changes[prefix + name] == field(name).value
  {
    changes := map[];
    var i := 0;
    while i < |dirty|
      invariant 0 <= i <= |dirty|
      invariant forall k :: k in changes <==> exists name :: name in dirty[..i] && field(name).Some? && k == prefix + name
      invariant forall name :: name in dirty[..i] && field(name).Some? ==>
        prefix + name in changes && changes[prefix + name] == field(name).value
    {
      var key := dirty[i];
      assert dirty[..i + 1] == dirty[..i] + [key];
      var update := field(key);
      if update.Some? {
        changes := changes[prefix + key := update.value];
        forall name | name in dirty[..i] && field(name).Some? && prefix + name == prefix + key
          ensures name == key
        {
          assert name == (prefix + name)[|prefix|..];
        }
      }
      i := i + 1;
    }
    assert dirty[..i] == dirty;
  }
}
