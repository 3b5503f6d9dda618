/** Phone entries in the TypeScript client: a frozen value object with a
    copy constructor, the dialable form of its number, and
    (de)serialisation. */
module TsPhoneInfo {
  import opened Common
  import opened Text

  /** `PhoneInfo`; frozen, so a plain value. */
  datatype PhoneInfo = PhoneInfo(number: string, note: string)

  /** The fields a caller of `with` supplies; `None` is `undefined`. */
  datatype PhoneDiff = PhoneDiff(number: Option<string>, note: Option<string>)

  /** The plain object `serialize` produces and `deserialize` reads; a
      missing note is `None`. */
  datatype PhoneData = PhoneData(number: string, note: Option<string>)

  /** The constructor: a missing note is empty. */
  function NewPhoneInfo(num: string, note: Option<string>): (p: PhoneInfo)
    ensures p.number == num && (note.None? ==> p.note == "")
  {
    PhoneInfo(num, if note.Some? then note.value else "")
  }

  /** `with`: a new entry taking each supplied field from `diff` and the
      others from `p`. */
  function With(p: PhoneInfo, diff: PhoneDiff): (r: PhoneInfo)
    ensures r.number == (if diff.number.Some? then diff.number.value else p.number)
    ensures r.note == (if diff.note.Some? then diff.note.value else p.note)
  {
    NewPhoneInfo(if diff.number.None? then p.number else diff.number.value,
                 if diff.note.None? then Some(p.note) else diff.note)
  }

  /** Supplying nothing copies the entry; supplying a field twice keeps the
      last value. */
  lemma WithLaws(p: PhoneInfo, d1: PhoneDiff, d2: PhoneDiff)
    ensures With(p, PhoneDiff(None, None)) == p
    ensures d2.number.Some? && d2.note.Some? ==> With(With(p, d1), d2) == With(p, d2)
  {
  }

  /** `"ext"` occurs in `s` starting at `i`. */
  predicate ExtAt(s: string, i: int)
  {
    0 <= i && i + 3 <= |s| && s[i] == 'e' && s[i + 1] == 'x' && s[i + 2] == 't'
  }

  /** `s.split('ext')[0]`: the text before the first `ext`, all of `s` when
      there is none. */
  function BeforeExt(s: string): (r: string)
    ensures |r| <= |s| && r == s[..|r|]
  {
    if ExtAt(s, 0) then []
    else if s == [] then []
    else [s[0]] + BeforeExt(s[1..])
  }

  /** The prefix holds no `ext`, and it stops only at the end of the text or
      at an `ext`. */
  lemma {:induction false} BeforeExtSpec(s: string)
    ensures forall i :: !ExtAt(BeforeExt(s), i)
    ensures BeforeExt(s) == s || ExtAt(s, |BeforeExt(s)|)
    decreases |s|
  {
    if !ExtAt(s, 0) && s != [] {
      BeforeExtSpec(s[1..]);
      var rest := BeforeExt(s[1..]);
      var r := BeforeExt(s);
      assert r == [s[0]] + rest;
      forall i
        ensures !ExtAt(r, i)
      {
        if i > 0 {
          assert !ExtAt(rest, i - 1);
        } else {
          assert ExtAt(r, 0) ==> ExtAt(s, 0);
        }
      }
    }
  }

  /** A character `pureNumber` keeps: a digit, `+`, `#` or `x`. */
  predicate IsDialChar(c: char)
  {
    IsDigit(c) || c == '+' || c == '#' || c == 'x'
  }

  /** `pureNumber`: the digits, `+`, `#` and `x` before the first `ext`, in
      order; a TypeError when there are none, because `match` yields null. */
  function PureNumber(p: PhoneInfo): (r: Result<string, string>)
    ensures r.Err? <==> forall c :: c in BeforeExt(p.number) ==> !IsDialChar(c)
    ensures r.Ok? ==> |r.value| <= |p.number| && forall i :: 0 <= i < |r.value| ==> IsDialChar(r.value[i])
    ensures r.Ok? ==> forall c :: c in r.value ==> c in BeforeExt(p.number)
    ensures r.Ok? ==> forall c :: multiset(r.value)[c] == if IsDialChar(c) then multiset(BeforeExt(p.number))[c] else 0
    ensures r.Ok? ==> r.value == Filter(BeforeExt(p.number), IsDialChar)
  {
    var kept := Filter(BeforeExt(p.number), IsDialChar);
    forall c
      ensures multiset(kept)[c] == if IsDialChar(c) then multiset(BeforeExt(p.number))[c] else 0
    {
      FilterCount(BeforeExt(p.number), IsDialChar, c);
    }
    assert kept != [] ==> kept[0] in BeforeExt(p.number) && IsDialChar(kept[0]);
    if kept == [] then Err("TypeError: match returned null") else Ok(kept)
  }

  /** The pure number keeps the order of the text: the dial characters of
      any first part come before those of the rest. */
  lemma PureNumberInOrder(p: PhoneInfo, front: string, back: string)
    requires BeforeExt(p.number) == front + back
    requires exists c :: c in front + back && IsDialChar(c)
    ensures PureNumber(p) == Ok(Filter(front, IsDialChar) + Filter(back, IsDialChar))
  {
    FilterAppend(front, back, IsDialChar);
  }

  /** A number already in dialable form is its own pure number. */
  lemma PureNumberOfDialable(p: PhoneInfo)
    requires p.number != [] && forall i :: 0 <= i < |p.number| ==> IsDialChar(p.number[i])
    ensures PureNumber(p) == Ok(p.number)
  {
    var b := BeforeExt(p.number);
    BeforeExtSpec(p.number);
    if b != p.number {
      assert false;
    }
    FilterKeepsAll(p.number, IsDialChar);
  }

  /** `serialize` */
  function Serialize(p: PhoneInfo): (r: PhoneData)
    ensures r.number == p.number
  {
    PhoneData(p.number, Some(p.note))
  }

  /** `deserialize` */
  function Deserialize(data: PhoneData): (r: PhoneInfo)
    ensures r.number == data.number
  {
    NewPhoneInfo(data.number, data.note)
  }

  /** Deserialising a serialised entry gives it back. */
  lemma PhoneRoundTrip(p: PhoneInfo)
    ensures Deserialize(Serialize(p)) == p
  {
  }
}
