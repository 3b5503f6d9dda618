/** Shared value types of the model: failure-compatible wrappers and the
    dynamic (JSON-like) value that the Go server receives from its JSON
    decoder and that JavaScript objects hold. */
module Common {

  datatype Option<T> = None | Some(value: T)

  /** The outcome of an operation that may raise, panic or reject. */
  datatype Result<T, E> = Ok(value: T) | Err(error: E)

  /** A decoded JSON value.  JSON numbers only appear as integers here. */
  datatype Value =
    | VNull
    | VBool(b: bool)
    | VNum(n: int)
    | VStr(s: string)
    | VList(items: seq<Value>)
    | VObj(fields: map<string, Value>)

  /** Strings of a list of dynamic values, in order (the values that are strings). */
  function StringsOf(data: seq<Value>): (r: seq<string>)
    ensures |r| <= |data|
    ensures (forall i :: 0 <= i < |data| ==> !data[i].VStr?) <==> r == []
  {
    if data == [] then []
    else (if data[0].VStr? then [data[0].s] else []) + StringsOf(data[1..])
  }

  /** True when every element of `data` is a string. */
  predicate AllStrings(data: seq<Value>)
  {
    forall i :: 0 <= i < |data| ==> data[i].VStr?
  }

  /** Elements of `s` without repetition. */
  predicate Distinct<T(==)>(s: seq<T>)
  {
    forall i, j :: 0 <= i < j < |s| ==> s[i] != s[j]
  }

  /** `s` with its first occurrence of `x` left out (identity when `x` is absent). */
  function Remove<T(==)>(s: seq<T>, x: T): (r: seq<T>)
    ensures x !in s ==> r == s
    ensures forall y :: y in r ==> y in s
    ensures Distinct(s) ==> Distinct(r) && x !in r && forall y :: y in s && y != x ==> y in r
  {
    if s == [] then []
    else if s[0] == x then s[1..]
    else
      var rest := Remove(s[1..], x);
      assert Distinct(s) ==> Distinct(s[1..]) && s[0] !in s[1..];
      [s[0]] + rest
  }

  /** `s` with `x` appended unless already present (insertion into a JavaScript Set). */
  function AddLast<T(==)>(s: seq<T>, x: T): (r: seq<T>)
    ensures x in s ==> r == s
    ensures x !in s ==> r == s + [x]
    ensures Distinct(s) ==> Distinct(r)
  {
    if x in s then s else s + [x]
  }

  /** The distinct elements of `s`, each at its first position (a JavaScript Set built from `s`). */
  function Dedup<T(==,!new)>(s: seq<T>): (r: seq<T>)
    ensures Distinct(r)
    ensures forall x :: x in r <==> x in s
    ensures |r| <= |s|
    decreases |s|
  {
    if s == [] then [] else AddLast(Dedup(s[..|s| - 1]), s[|s| - 1])
  }

  /** Deduplicating one more element adds it unless already present. */
  lemma DedupSnoc<T(!new)>(s: seq<T>, x: T)
    ensures Dedup(s + [x]) == AddLast(Dedup(s), x)
  {
    assert (s + [x])[..|s|] == s;
  }

  /** A list without repetitions is its own deduplication. */
  lemma {:induction false} DedupOfDistinct<T(!new)>(s: seq<T>)
    requires Distinct(s)
    ensures Dedup(s) == s
    decreases |s|
  {
    if s != [] {
      var init := s[..|s| - 1];
      assert Distinct(init);
      DedupOfDistinct(init);
      assert s[|s| - 1] !in init;
      assert init + [s[|s| - 1]] == s;
    }
  }

  /** JavaScript `s || d` on an optional string: the default when the string
      is missing or empty. */
  function StringOr(s: Option<string>, d: string): (r: string)
    ensures s.Some? && s.value != "" ==> r == s.value
    ensures s.None? || s.value == "" ==> r == d
  {
    if s.Some? && s.value != "" then s.value else d
  }
}
