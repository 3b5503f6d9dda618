/** The s-expression codec of sexp.py: a character-driven state machine that
    parses double-quoted escaped strings, integers and lists, and a recursive
    dumper.

    The parser is a method that walks the input as the Python loop does; it is
    proved equal to `ParseSpec`, a fold of `Step` (one loop iteration) over the
    input.  The codec properties are proved about `ParseSpec`. */
module Sexp {
  import opened Common
  import opened Text

  /** A parsed tree: Python strings, non-negative ints and lists. */
  datatype SExp = Str(s: string) | Num(n: nat) | List(items: seq<SExp>)

  /** What `parse` raises. */
  datatype ParseError =
    | UnclosedList                 // sexp.UnclosedList
    | IndexError                   // `state[-1]` on an empty stack, `lists.pop()[0]` on an empty list
    | NotAnInteger(text: string)   // `parsenum` on a buffer that is not a plain decimal integer

  /** The entries of the parser's `state` stack. */
  datatype Mode = StringMode | EscapeMode | NumberMode | ListMode

  /** The parser's variables between two characters, or the exception it raised. */
  datatype Machine =
    | Running(state: seq<Mode>, lists: seq<seq<SExp>>, buf: string, output: seq<SExp>)
    | Crashed(error: ParseError)

  /** NUMBER_RE matches this character. */
  predicate IsNumberChar(c: char) { IsDigit(c) || c == '.' }

  /** `parsenum`: a buffer of digits becomes an int. */
  function ParseNum(buf: string): (r: Result<SExp, ParseError>)
    ensures r.Ok? <==> buf != [] && AllDigits(buf)
  {
    if buf != [] && AllDigits(buf) then Ok(Num(DecimalValue(buf))) else Err(NotAnInteger(buf))
  }

  /** `lists[-1].append(x)` */
  function AppendTop(lists: seq<seq<SExp>>, x: SExp): (r: seq<seq<SExp>>)
    requires lists != []
    ensures |r| == |lists| && r[..|r| - 1] == lists[..|lists| - 1]
    ensures r[|r| - 1] == lists[|lists| - 1] + [x]
  {
    lists[..|lists| - 1] + [lists[|lists| - 1] + [x]]
  }

  lemma AppendTopSingle(l: seq<SExp>, x: SExp)
    ensures AppendTop([l], x) == [l + [x]]
  {
    assert [l][..0] + [l + [x]] == [l + [x]];
  }

  /** The LIST branch of the loop body, for character `c`. */
  function ListStep(m: Machine, c: char): (r: Machine)
    requires m.Running? && m.state != []
    ensures !IsNumberChar(c) && c != '"' && c != '(' && c != ')' ==> r == m
  {
    if IsNumberChar(c) then Running(m.state + [NumberMode], m.lists, m.buf + [c], m.output)
    else if c == '"' then Running(m.state + [StringMode], m.lists, m.buf, m.output)
    else if c == '(' then Running(m.state + [ListMode], m.lists + [[]], m.buf, m.output)
    else if c == ')' then
      if m.lists == [] then Crashed(IndexError)
      else
        var cur := m.lists[|m.lists| - 1];
        var rest := m.lists[..|m.lists| - 1];
        var below := m.state[..|m.state| - 1];
        if rest != [] then Running(below, AppendTop(rest, List(cur)), m.buf, m.output)
        else Running(below, [], m.buf, m.output + [List(cur)])
    else m
  }

  /** The STRING branch: a quote closes the atom, a backslash escapes the next
      character, anything else is kept. */
  function StringStep(m: Machine, c: char): Machine
    requires m.Running? && m.state != []
  {
    if c == '"' then
      if m.lists == [] then Crashed(IndexError)
      else Running(m.state[..|m.state| - 1], AppendTop(m.lists, Str(m.buf)), [], m.output)
    else if c == '\\' then Running(m.state + [EscapeMode], m.lists, m.buf, m.output)
    else Running(m.state, m.lists, m.buf + [c], m.output)
  }

  /** The NUMBER branch: digits and dots are kept; any other character flushes
      the number into the open list and, back in LIST state, is handled there. */
  function NumberStep(m: Machine, c: char): Machine
    requires m.Running? && m.state != []
  {
    if IsNumberChar(c) then Running(m.state, m.lists, m.buf + [c], m.output)
    else
      var below := m.state[..|m.state| - 1];
      match ParseNum(m.buf)
      case Err(e) => Crashed(e)
      case Ok(num) =>
        if m.lists == [] || below == [] then Crashed(IndexError)
        else
          var flushed := Running(below, AppendTop(m.lists, num), [], m.output);
          if below[|below| - 1] == ListMode then ListStep(flushed, c) else flushed
  }

  /** One iteration of the parser's `for char in inputstr[1:]` loop.  A machine
      whose state stack is empty has left the loop (`break`), and one that
      raised stays raised. */
  function Step(m: Machine, c: char): Machine
  {
    if m.Crashed? || m.state == [] then m
    else
      match m.state[|m.state| - 1]
      case StringMode => StringStep(m, c)
      case EscapeMode => Running(m.state[..|m.state| - 1], m.lists, m.buf + [c], m.output)
      case NumberMode => NumberStep(m, c)
      case ListMode => ListStep(m, c)
  }

  /** The parser runs its loop at all: a quote or parenthesis followed by more
      input, or a leading digit or dot. */
  predicate Starts(input: string)
  {
    (|input| > 1 && (input[0] == '"' || input[0] == '(')) || (|input| > 0 && IsNumberChar(input[0]))
  }

  /** The variables after "Fill initial state". */
  function Init(input: string): Machine
    requires Starts(input)
  {
    if |input| > 1 && input[0] == '"' then Running([StringMode], [[]], [], [])
    else if |input| > 1 && input[0] == '(' then Running([ListMode], [[]], [], [])
    else Running([NumberMode], [[]], [input[0]], [])
  }

  /** The machine after consuming `s`, one `Step` per character. */
  function Run(m: Machine, s: string): Machine
    decreases |s|
  {
    if s == [] then m else Run(Step(m, s[0]), s[1..])
  }

  /** What the parser returns or raises once the loop is over. */
  function Finish(m: Machine, atomic: bool): Result<SExp, ParseError>
  {
    match m
    case Crashed(e) => Err(e)
    case Running(_, lists, buf, output) =>
      if atomic then
        if buf != [] then ParseNum(buf)
        else if lists == [] || lists[|lists| - 1] == [] then Err(IndexError)
        else Ok(lists[|lists| - 1][0])
      else if |lists| > 0 then Err(UnclosedList)
      else if output == [] then Err(IndexError)
      else Ok(output[0])
  }

  /** The meaning of `parse(input)`.  An input that does not begin with a quote
      or parenthesis followed by more, or with a digit or dot, gives `''`. */
  function ParseSpec(input: string): (r: Result<SExp, ParseError>)
    ensures !Starts(input) ==> r == Ok(Str(""))
  {
    if !Starts(input) then Ok(Str(""))
    else Finish(Run(Init(input), input[1..]), input[0] != '(')
  }

  /** `parse`, as the loop in sexp.py runs it. */
  method Parse(input: string) returns (r: Result<SExp, ParseError>)
    ensures r == ParseSpec(input)
  {
    var state: seq<Mode> := [];
    var lists: seq<seq<SExp>> := [[]];
    var buf: string := [];
    var output: seq<SExp> := [];
    var isAtomic := true;

    if |input| > 1 && input[0] == '"' {
      state := [StringMode];
    } else if |input| > 1 && input[0] == '(' {
      state := [ListMode];
      isAtomic := false;
    } else if |input| > 0 && IsNumberChar(input[0]) {
      state := [NumberMode];
      buf := [input[0]];
    } else {
      return Ok(Str(""));
    }

    var i := 1;
    while i < |input|
      invariant 1 <= i <= |input|
      invariant Running(state, lists, buf, output) == Run(Init(input), input[1..i])
      invariant isAtomic == (input[0] != '(')
    {
      if state == [] {
        break;
      }
      var c := input[i];
      ghost var before := Running(state, lists, buf, output);
      assert input[1..i + 1] == input[1..i] + [c];
      RunSnoc(Init(input), input[1..i], c);
      var top := state[|state| - 1];
      if top == StringMode {
        var raised;
        state, lists, buf, raised := StringChar(state, lists, buf, output, c);
        if raised {
          RaisedStaysRaised(input, i + 1, IndexError);
          return Err(IndexError);
        }
      } else if top == EscapeMode {
        buf := buf + [c];
        state := state[..|state| - 1];
      } else if top == NumberMode {
        var err;
        state, lists, buf, output, err := NumberChar(state, lists, buf, output, c);
        if err.Some? {
          RaisedStaysRaised(input, i + 1, err.value);
          return Err(err.value);
        }
      } else {
        var raised;
        state, lists, buf, output, raised := ListChar(state, lists, buf, output, c);
        if raised {
          RaisedStaysRaised(input, i + 1, IndexError);
          return Err(IndexError);
        }
      }
      assert Running(state, lists, buf, output) == Step(before, c);
      i := i + 1;
    }

    HaltedStaysHalted(input, i);
    if isAtomic {
      if buf != [] {
        return ParseNum(buf);
      }
      if lists == [] || lists[|lists| - 1] == [] {
        return Err(IndexError);
      }
      return Ok(lists[|lists| - 1][0]);
    }
    if |lists| > 0 {
      return Err(UnclosedList);
    }
    if output == [] {
      return Err(IndexError);
    }
    return Ok(output[0]);
  }

  /** The STRING branch of the loop body; `raised` when the closing quote finds
      no open list. */
  method StringChar(state: seq<Mode>, lists: seq<seq<SExp>>, buf: string, output: seq<SExp>, c: char)
    returns (state': seq<Mode>, lists': seq<seq<SExp>>, buf': string, raised: bool)
    requires state != []
    ensures raised ==> StringStep(Running(state, lists, buf, output), c) == Crashed(IndexError)
    ensures !raised ==> StringStep(Running(state, lists, buf, output), c) == Running(state', lists', buf', output)
  {
    state', lists', buf', raised := state, lists, buf, false;
    if c == '"' {
      state' := state[..|state| - 1];
      if lists == [] {
        raised := true;
        return;
      }
      lists' := AppendTop(lists, Str(buf));
      buf' := [];
    } else if c == '\\' {
      state' := state + [EscapeMode];
    } else {
      buf' := buf + [c];
    }
  }

  /** The NUMBER branch of the loop body: keep a digit or dot, or pop the
      state, flush the number into the open list and go on to the LIST branch
      when the state below is LIST. */
  method NumberChar(state: seq<Mode>, lists: seq<seq<SExp>>, buf: string, output: seq<SExp>, c: char)
    returns (state': seq<Mode>, lists': seq<seq<SExp>>, buf': string, output': seq<SExp>, err: Option<ParseError>)
    requires state != []
    ensures err.Some? ==> NumberStep(Running(state, lists, buf, output), c) == Crashed(err.value)
    ensures err.None? ==> NumberStep(Running(state, lists, buf, output), c) == Running(state', lists', buf', output')
  {
    state', lists', buf', output', err := state, lists, buf, output, None;
    if IsNumberChar(c) {
      buf' := buf + [c];
      return;
    }
    state' := state[..|state| - 1];
    var num := ParseNum(buf);
    if num.Err? {
      err := Some(num.error);
      return;
    }
    if lists == [] || state' == [] {
      err := Some(IndexError);
      return;
    }
    lists' := AppendTop(lists, num.value);
    buf' := [];
    if state'[|state'| - 1] == ListMode {
      var raised;
      state', lists', buf', output', raised := ListChar(state', lists', buf', output', c);
      if raised {
        err := Some(IndexError);
      }
    }
  }

  /** The LIST branch of the loop body, entered from a LIST top or right after
      a number was flushed; `raised` when `lists.pop()` finds no list. */
  method ListChar(state: seq<Mode>, lists: seq<seq<SExp>>, buf: string, output: seq<SExp>, c: char)
    returns (state': seq<Mode>, lists': seq<seq<SExp>>, buf': string, output': seq<SExp>, raised: bool)
    requires state != []
    ensures raised ==> ListStep(Running(state, lists, buf, output), c) == Crashed(IndexError)
    ensures !raised ==> ListStep(Running(state, lists, buf, output), c) == Running(state', lists', buf', output')
  {
    state', lists', buf', output', raised := state, lists, buf, output, false;
    if IsNumberChar(c) {
      state' := state + [NumberMode];
      buf' := buf + [c];
    } else if c == '"' {
      state' := state + [StringMode];
    } else if c == '(' {
      state' := state + [ListMode];
      lists' := lists + [[]];
    } else if c == ')' {
      state' := state[..|state| - 1];
      if lists == [] {
        raised := true;
        return;
      }
      var cur := lists[|lists| - 1];
      lists' := lists[..|lists| - 1];
      if lists' != [] {
        lists' := AppendTop(lists', List(cur));
      } else {
        output' := output + [List(cur)];
      }
    }
  }

  lemma {:induction false} RunAppend(m: Machine, a: string, b: string)
    ensures Run(m, a + b) == Run(Run(m, a), b)
    decreases |a|
  {
    if a == [] {
      assert a + b == b;
    } else {
      assert (a + b)[1..] == a[1..] + b;
      RunAppend(Step(m, a[0]), a[1..], b);
    }
  }

  lemma RunSnoc(m: Machine, s: string, c: char)
    ensures Run(m, s + [c]) == Step(Run(m, s), c)
  {
    RunAppend(m, s, [c]);
  }

  lemma RunCons(m: Machine, c: char, s: string)
    ensures Run(m, [c] + s) == Run(Step(m, c), s)
  {
    assert ([c] + s)[1..] == s;
  }

  lemma {:induction false} RunStopped(m: Machine, s: string)
    requires m.Crashed? || m.state == []
    ensures Run(m, s) == m
    decreases |s|
  {
    if s != [] {
      RunStopped(m, s[1..]);
    }
  }

  lemma RaisedStaysRaised(input: string, i: nat, e: ParseError)
    requires Starts(input) && 1 <= i <= |input|
    requires Run(Init(input), input[1..i]) == Crashed(e)
    ensures ParseSpec(input) == Err(e)
  {
    assert input[1..] == input[1..i] + input[i..];
    RunAppend(Init(input), input[1..i], input[i..]);
    RunStopped(Crashed(e), input[i..]);
  }

  lemma HaltedStaysHalted(input: string, i: nat)
    requires Starts(input) && 1 <= i <= |input|
    requires i < |input| ==> Run(Init(input), input[1..i]).Running? && Run(Init(input), input[1..i]).state == []
    ensures Run(Init(input), input[1..]) == Run(Init(input), input[1..i])
  {
    assert input[1..] == input[1..i] + input[i..];
    RunAppend(Init(input), input[1..i], input[i..]);
    if i < |input| {
      RunStopped(Run(Init(input), input[1..i]), input[i..]);
    }
  }

  // ----- dump -----

  /** `escape`: a backslash before every double quote and backslash. */
  function EscapeChar(c: char): string
  {
    if c == '"' || c == '\\' then ['\\', c] else [c]
  }

  function Escape(s: string): (r: string)
    ensures |r| >= |s|
  {
    if s == [] then [] else EscapeChar(s[0]) + Escape(s[1..])
  }

  /** `dump`: numbers in decimal, strings quoted and escaped, lists as their
      elements' dumps joined by single spaces inside parentheses. */
  function Dump(t: SExp): (r: string)
    ensures r != []
  {
    match t
    case Num(n) => Decimal(n)
    case Str(s) => ['"'] + Escape(s) + ['"']
    case List(items) => ['('] + Join(" ", seq(|items|, i requires 0 <= i < |items| => Dump(items[i]))) + [')']
  }

  /** The dumps of a list's elements. */
  function Dumps(items: seq<SExp>): (r: seq<string>)
    ensures |r| == |items| && forall i :: 0 <= i < |items| ==> r[i] == Dump(items[i])
  {
    seq(|items|, i requires 0 <= i < |items| => Dump(items[i]))
  }

  lemma DumpList(items: seq<SExp>)
    ensures Dump(List(items)) == ['('] + Join(" ", Dumps(items)) + [')']
  {
    assert seq(|items|, i requires 0 <= i < |items| => Dump(items[i])) == Dumps(items);
  }

  lemma DumpsSplit(items: seq<SExp>)
    requires |items| > 1
    ensures Join(" ", Dumps(items)) == Dump(items[0]) + " " + Join(" ", Dumps(items[1..]))
  {
    assert Dumps(items)[1..] == Dumps(items[1..]);
  }

  /** A quoted atom's body: no bare double quote, and every backslash
      followed by the character it escapes. */
  predicate QuotedBody(b: string)
    decreases |b|
  {
    b == []
    || (b[0] == '\\' && |b| >= 2 && QuotedBody(b[2..]))
    || (b[0] != '\\' && b[0] != '"' && QuotedBody(b[1..]))
  }

  /** A quoted body with every escape `\c` replaced by `c`. */
  function Unescape(b: string): string
    requires QuotedBody(b)
    decreases |b|
  {
    if b == [] then []
    else if b[0] == '\\' then [b[1]] + Unescape(b[2..])
    else [b[0]] + Unescape(b[1..])
  }

  /** Escaping yields a quoted body that unescapes to the original string. */
  lemma {:induction false} EscapeUnescape(s: string)
    ensures QuotedBody(Escape(s)) && Unescape(Escape(s)) == s
  {
    if s != [] {
      EscapeUnescape(s[1..]);
      var e := Escape(s);
      if s[0] == '"' || s[0] == '\\' {
        assert e[2..] == Escape(s[1..]);
      } else {
        assert e[1..] == Escape(s[1..]);
      }
    }
  }

  // ----- the machine over dumped text -----

  /** Inside a list, between elements. */
  predicate InList(m: Machine)
  {
    m.Running? && m.state != [] && m.state[|m.state| - 1] == ListMode && m.lists != [] && m.buf == []
  }

  function Push(m: Machine, x: SExp): (r: Machine)
    requires InList(m)
    ensures InList(r)
  {
    Running(m.state, AppendTop(m.lists, x), [], m.output)
  }

  function PushAll(m: Machine, items: seq<SExp>): (r: Machine)
    requires InList(m)
    ensures InList(r) && r.state == m.state && r.output == m.output
    ensures r.lists == m.lists[..|m.lists| - 1] + [m.lists[|m.lists| - 1] + items]
    decreases |items|
  {
    if items == [] then
      assert m.lists[|m.lists| - 1] + items == m.lists[|m.lists| - 1];
      assert m.lists == m.lists[..|m.lists| - 1] + [m.lists[|m.lists| - 1]];
      m
    else
      var r := PushAll(Push(m, items[0]), items[1..]);
      assert m.lists[|m.lists| - 1] + [items[0]] + items[1..] == m.lists[|m.lists| - 1] + items;
      r
  }

  /** In STRING state an ordinary character is kept. */
  lemma StepStringChar(m: Machine, c: char)
    requires m.Running? && m.state != [] && m.state[|m.state| - 1] == StringMode
    requires c != '"' && c != '\\'
    ensures Step(m, c) == Running(m.state, m.lists, m.buf + [c], m.output)
  {
  }

  /** In STRING state a backslash and the next character keep that character. */
  lemma StepStringEscape(m: Machine, c: char)
    requires m.Running? && m.state != [] && m.state[|m.state| - 1] == StringMode
    ensures Step(Step(m, '\\'), c) == Running(m.state, m.lists, m.buf + [c], m.output)
  {
    var m1 := Step(m, '\\');
    assert m1 == Running(m.state + [EscapeMode], m.lists, m.buf, m.output);
    assert m1.state[..|m1.state| - 1] == m.state;
  }

  lemma {:induction false} RunQuotedBody(m: Machine, b: string)
    requires m.Running? && m.state != [] && m.state[|m.state| - 1] == StringMode
    requires QuotedBody(b)
    ensures Run(m, b) == Running(m.state, m.lists, m.buf + Unescape(b), m.output)
    decreases |b|
  {
    if b != [] {
      if b[0] == '\\' {
        var m2 := Running(m.state, m.lists, m.buf + [b[1]], m.output);
        StepStringEscape(m, b[1]);
        assert Run(m, b) == Run(Step(Step(m, b[0]), b[1]), b[2..]) by {
          assert b[1..][0] == b[1] && b[1..][1..] == b[2..];
        }
        RunQuotedBody(m2, b[2..]);
        assert m.buf + [b[1]] + Unescape(b[2..]) == m.buf + Unescape(b);
      } else {
        var m1 := Running(m.state, m.lists, m.buf + [b[0]], m.output);
        StepStringChar(m, b[0]);
        RunQuotedBody(m1, b[1..]);
        assert m.buf + [b[0]] + Unescape(b[1..]) == m.buf + Unescape(b);
      }
    }
  }

  lemma {:induction false} RunDigits(m: Machine, d: string)
    requires m.Running? && m.state != [] && m.state[|m.state| - 1] == NumberMode
    requires AllDigits(d)
    ensures Run(m, d) == Running(m.state, m.lists, m.buf + d, m.output)
    decreases |d|
  {
    if d != [] {
      var m1 := Running(m.state, m.lists, m.buf + [d[0]], m.output);
      assert Step(m, d[0]) == m1;
      RunDigits(m1, d[1..]);
      assert m.buf + [d[0]] + d[1..] == m.buf + d;
    }
  }

  /** In LIST state a quote opens a string atom. */
  lemma StepOpenQuote(m: Machine)
    requires InList(m)
    ensures Step(m, '"') == Running(m.state + [StringMode], m.lists, [], m.output)
  {
  }

  /** A closing quote appends the buffered string to the open list. */
  lemma StepCloseQuote(m: Machine, s: string)
    requires InList(m)
    ensures Step(Running(m.state + [StringMode], m.lists, s, m.output), '"') == Push(m, Str(s))
  {
    assert (m.state + [StringMode])[..|m.state|] == m.state;
  }

  /** A dumped string inside a list is appended to the open list. */
  lemma RunDumpStr(m: Machine, s: string)
    requires InList(m)
    ensures Run(m, Dump(Str(s))) == Push(m, Str(s))
  {
    var e := Escape(s);
    EscapeUnescape(s);
    assert Dump(Str(s)) == ['"'] + e + ['"'];
    var m1 := Running(m.state + [StringMode], m.lists, [], m.output);
    StepOpenQuote(m);
    RunCons(m, '"', e);
    RunQuotedBody(m1, e);
    assert Run(m, ['"'] + e) == Running(m.state + [StringMode], m.lists, s, m.output);
    RunSnoc(m, ['"'] + e, '"');
    StepCloseQuote(m, s);
  }

  /** In LIST state a digit opens a number. */
  lemma StepOpenNumber(m: Machine, c: char)
    requires InList(m) && IsDigit(c)
    ensures Step(m, c) == Running(m.state + [NumberMode], m.lists, [c], m.output)
  {
  }

  /** A dumped number inside a list leaves the machine in NUMBER state with the
      numeral in its buffer. */
  lemma RunDumpNum(m: Machine, n: nat)
    requires InList(m)
    ensures Run(m, Dump(Num(n))) == Running(m.state + [NumberMode], m.lists, Decimal(n), m.output)
  {
    var d := Decimal(n);
    assert d == [d[0]] + d[1..];
    RunCons(m, d[0], d[1..]);
    StepOpenNumber(m, d[0]);
    RunDigits(Running(m.state + [NumberMode], m.lists, [d[0]], m.output), d[1..]);
  }

  /** A character that cannot continue a number appends the number to the open
      list and is then handled in LIST state. */
  lemma StepEndNumber(m: Machine, n: nat, c: char)
    requires InList(m) && !IsNumberChar(c)
    ensures Step(Running(m.state + [NumberMode], m.lists, Decimal(n), m.output), c) == Step(Push(m, Num(n)), c)
  {
    DecimalRoundTrip(n);
    assert (m.state + [NumberMode])[..|m.state|] == m.state;
  }

  /** In LIST state an opening parenthesis opens a nested list. */
  lemma StepOpenParen(m: Machine)
    requires InList(m)
    ensures Step(m, '(') == Running(m.state + [ListMode], m.lists + [[]], [], m.output)
  {
  }

  /** A closing parenthesis appends the finished nested list to the enclosing one. */
  lemma StepCloseParen(m: Machine, items: seq<SExp>)
    requires InList(m)
    ensures Step(Running(m.state + [ListMode], m.lists + [items], [], m.output), ')') == Push(m, List(items))
  {
    assert (m.state + [ListMode])[..|m.state|] == m.state;
    assert (m.lists + [items])[..|m.lists|] == m.lists;
  }

  /** A space in LIST state changes nothing. */
  lemma StepSpace(m: Machine)
    requires InList(m)
    ensures Step(m, ' ') == m
  {
  }

  /** A dumped string or list inside a list is appended to the open list. */
  lemma {:induction false} RunDump(m: Machine, t: SExp)
    requires InList(m) && !t.Num?
    ensures Run(m, Dump(t)) == Push(m, t)
    decreases t, 1
  {
    match t
    case Str(s) => RunDumpStr(m, s);
    case List(items) =>
      DumpList(items);
      var body := Join(" ", Dumps(items)) + [')'];
      assert Dump(t) == ['('] + body;
      RunCons(m, '(', body);
      StepOpenParen(m);
      var m1 := Running(m.state + [ListMode], m.lists + [[]], [], m.output);
      RunItemsClose(m1, t, 0);
      assert items[0..] == items;
      var full := PushAll(m1, items);
      assert full.lists == m.lists + [items] by {
        assert (m.lists + [[]])[..|m.lists|] == m.lists;
        assert (m.lists + [[]])[|m.lists|] + items == items;
      }
      assert full == Running(m.state + [ListMode], m.lists + [items], [], m.output);
      StepCloseParen(m, items);
  }

  /** A dumped element followed by any character that ends a number: the
      element is appended and the character is handled in LIST state. */
  lemma {:induction false} ItemThen(m: Machine, t: SExp, c: char)
    requires InList(m) && !IsNumberChar(c)
    ensures Run(m, Dump(t) + [c]) == Step(Push(m, t), c)
    decreases t, 2
  {
    RunSnoc(m, Dump(t), c);
    if t.Num? {
      RunDumpNum(m, t.n);
      StepEndNumber(m, t.n, c);
    } else {
      RunDump(m, t);
    }
  }

  /** The elements of a list and its closing parenthesis, from LIST state. */
  lemma {:induction false} RunItemsClose(m: Machine, parent: SExp, k: nat)
    requires InList(m) && parent.List? && k <= |parent.items|
    ensures Run(m, Join(" ", Dumps(parent.items[k..])) + [')']) == Step(PushAll(m, parent.items[k..]), ')')
    decreases parent, 0, |parent.items| - k
  {
    var items := parent.items[k..];
    if items == [] {
      assert Join(" ", Dumps(items)) + [')'] == [')'];
      RunCons(m, ')', []);
    } else if |items| == 1 {
      assert Join(" ", Dumps(items)) == Dump(items[0]);
      assert items[0] == parent.items[k];
      ItemThen(m, items[0], ')');
      assert PushAll(m, items) == PushAll(Push(m, items[0]), []);
    } else {
      DumpsSplit(items);
      assert items[0] == parent.items[k];
      assert items[1..] == parent.items[k + 1..];
      var rest := Join(" ", Dumps(items[1..])) + [')'];
      assert Join(" ", Dumps(items)) + [')'] == (Dump(items[0]) + [' ']) + rest;
      RunAppend(m, Dump(items[0]) + [' '], rest);
      ItemThen(m, items[0], ' ');
      var m1 := Push(m, items[0]);
      StepSpace(m1);
      RunItemsClose(m1, parent, k + 1);
    }
  }

  // ----- codec properties -----

  /** A quoted atom parses to its body with every escape `\c` replaced by `c`;
      whatever follows the closing quote is ignored. */
  lemma QuotedAtom(b: string, rest: string)
    requires QuotedBody(b)
    ensures ParseSpec(['"'] + b + ['"'] + rest) == Ok(Str(Unescape(b)))
  {
    var tail := b + (['"'] + rest);
    var input := ['"'] + tail;
    assert input == ['"'] + b + ['"'] + rest;
    assert input[1..] == tail;
    assert Starts(input) && Init(input) == Running([StringMode], [[]], [], []);
    RunQuotedAtom(b, rest);
  }

  lemma RunQuotedAtom(b: string, rest: string)
    requires QuotedBody(b)
    ensures Run(Running([StringMode], [[]], [], []), b + (['"'] + rest)) == Running([], [[Str(Unescape(b))]], [], [])
  {
    var none: seq<SExp> := [];
    var m0 := Running([StringMode], [none], [], []);
    RunAppend(m0, b, ['"'] + rest);
    RunQuotedBody(m0, b);
    var m1 := Running([StringMode], [none], Unescape(b), []);
    assert [] + Unescape(b) == Unescape(b);
    assert Run(m0, b) == m1;
    RunCons(m1, '"', rest);
    var m2 := Running([], [[Str(Unescape(b))]], [], []);
    StepCloseAtom(Unescape(b));
    RunStopped(m2, rest);
  }

  /** The closing quote of a top-level string atom leaves the loop. */
  lemma StepCloseAtom(s: string)
    ensures Step(Running([StringMode], [[]], s, []), '"') == Running([], [[Str(s)]], [], [])
  {
    var st: seq<Mode> := [StringMode];
    assert st[..0] == [];
    var none: seq<SExp> := [];
    AppendTopSingle(none, Str(s));
    assert none + [Str(s)] == [Str(s)];
  }

  /** The closing parenthesis of the top-level list leaves the loop with the
      list as output. */
  lemma StepCloseOuter(items: seq<SExp>)
    ensures Step(Running([ListMode], [items], [], []), ')') == Running([], [], [], [List(items)])
  {
    var st: seq<Mode> := [ListMode];
    assert st[..0] == [];
    var lists: seq<seq<SExp>> := [items];
    assert lists[..0] == [];
    var none: seq<SExp> := [];
    assert none + [List(items)] == [List(items)];
  }

  /** The top-level list: its elements, its closing parenthesis and whatever
      follows give the list as output. */
  lemma TopLevelList(items: seq<SExp>, rest: string)
    ensures Run(Running([ListMode], [[]], [], []), Join(" ", Dumps(items)) + [')'] + rest)
         == Running([], [], [], [List(items)])
  {
    var none: seq<SExp> := [];
    var m0 := Running([ListMode], [none], [], []);
    var body := Join(" ", Dumps(items)) + [')'];
    RunAppend(m0, body, rest);
    RunItemsClose(m0, List(items), 0);
    assert items[0..] == items;
    var full := PushAll(m0, items);
    assert m0.lists[..|m0.lists| - 1] + [m0.lists[|m0.lists| - 1] + items] == [items] by {
      assert m0.lists[..0] == [];
      assert none + items == items;
    }
    assert full.lists == [items];
    assert full == Running([ListMode], [items], [], []);
    var closed := Running([], [], [], [List(items)]);
    StepCloseOuter(items);
    RunStopped(closed, rest);
  }

  /** `parse(dump(t)) == t`; after a string or list, trailing text is ignored. */
  lemma ParseDump(t: SExp, rest: string)
    requires !t.Num? || rest == []
    ensures ParseSpec(Dump(t) + rest) == Ok(t)
  {
    match t
    case Str(s) =>
      EscapeUnescape(s);
      QuotedAtom(Escape(s), rest);
    case Num(n) =>
      assert Dump(t) + rest == Decimal(n);
      ParseDecimal(n);
    case List(items) =>
      ParseDumpList(items, rest);
  }

  /** A numeral parses to its value. */
  lemma ParseDecimal(n: nat)
    ensures ParseSpec(Decimal(n)) == Ok(Num(n))
  {
    var d := Decimal(n);
    assert IsNumberChar(d[0]);
    var m0 := Running([NumberMode], [[]], [d[0]], []);
    assert Run(Init(d), d[1..]) == Running([NumberMode], [[]], d, []) by {
      RunDigits(m0, d[1..]);
      assert [d[0]] + d[1..] == d;
    }
    DecimalRoundTrip(n);
  }

  lemma ParseDumpList(items: seq<SExp>, rest: string)
    ensures ParseSpec(Dump(List(items)) + rest) == Ok(List(items))
  {
    DumpList(items);
    assert Dump(List(items)) + rest == ['('] + (Join(" ", Dumps(items)) + [')'] + rest);
    TopLevelList(items, rest);
    ParseOuterList(Join(" ", Dumps(items)) + [')'] + rest, items);
  }

  /** `dump(parse(dump(t))) == dump(t)` */
  lemma DumpParseDump(t: SExp)
    ensures ParseSpec(Dump(t)).Ok? && Dump(ParseSpec(Dump(t)).value) == Dump(t)
  {
    assert Dump(t) + [] == Dump(t);
    ParseDump(t, []);
  }

  /** The elements of a list without its closing parenthesis leave the list open. */
  lemma {:induction false} RunItemsOpen(m: Machine, parent: SExp, k: nat)
    requires InList(m) && parent.List? && k < |parent.items|
    ensures Run(m, Join(" ", Dumps(parent.items[k..]))).Running?
    ensures |Run(m, Join(" ", Dumps(parent.items[k..]))).lists| == |m.lists|
    decreases |parent.items| - k
  {
    var items := parent.items[k..];
    assert items[0] == parent.items[k];
    if |items| == 1 {
      assert Join(" ", Dumps(items)) == Dump(items[0]);
      if items[0].Num? {
        RunDumpNum(m, items[0].n);
      } else {
        RunDump(m, items[0]);
      }
    } else {
      DumpsSplit(items);
      assert items[1..] == parent.items[k + 1..];
      var rest := Join(" ", Dumps(items[1..]));
      assert Join(" ", Dumps(items)) == (Dump(items[0]) + [' ']) + rest;
      RunAppend(m, Dump(items[0]) + [' '], rest);
      ItemThen(m, items[0], ' ');
      StepSpace(Push(m, items[0]));
      RunItemsOpen(Push(m, items[0]), parent, k + 1);
    }
  }

  /** Input that ends while the outermost list is still open raises UnclosedList. */
  lemma UnclosedListRaises(items: seq<SExp>)
    requires items != []
    ensures ParseSpec(['('] + Join(" ", Dumps(items))) == Err(UnclosedList)
  {
    var j := Join(" ", Dumps(items));
    var input := ['('] + j;
    assert |j| >= |Dumps(items)[0]| > 0;
    assert input[1..] == j;
    var m0 := Running([ListMode], [[]], [], []);
    RunItemsOpen(m0, List(items), 0);
    assert List(items).items[0..] == items;
  }

  /** A character other than `)` never closes a list: as long as the
      machine runs, it holds at least as many open lists as before. */
  lemma {:induction false} NoCloseKeepsLists(m: Machine, s: string)
    requires m.Running? && ')' !in s
    ensures Run(m, s).Running? ==> |Run(m, s).lists| >= |m.lists|
    decreases |s|
  {
    if s != [] {
      var next := Step(m, s[0]);
      assert s[0] in s;
      assert next.Running? ==> |next.lists| >= |m.lists|;
      if next.Running? {
        assert forall c :: c in s[1..] ==> c in s;
        NoCloseKeepsLists(next, s[1..]);
      } else {
        RunStopped(next, s[1..]);
      }
    }
  }

  /** An input that opens a list and never closes one is an error, and
      UnclosedList whenever nothing raised earlier, however deeply the
      lists nest and whatever is still buffered. */
  lemma UnclosedWithoutClose(s: string)
    requires s != [] && ')' !in s
    ensures ParseSpec(['('] + s).Err?
    ensures Run(Running([ListMode], [[]], [], []), s).Running? ==> ParseSpec(['('] + s) == Err(UnclosedList)
  {
    var input := ['('] + s;
    assert input[1..] == s;
    NoCloseKeepsLists(Running([ListMode], [[]], [], []), s);
  }

  /** `(40 (30`: a nested list left open with a number still buffered
      raises UnclosedList. */
  lemma NestedUnclosedRaises()
    ensures ParseSpec("(40 (30") == Err(UnclosedList)
  {
    var s := "40 (30";
    assert "(40 (30" == ['('] + s;
    assert Run(Running([ListMode], [[]], [], []), s).Running? by {
      NestedUnclosedRun();
    }
    UnclosedWithoutClose(s);
  }

  /** The machine of `(40 (30` runs to the end without raising. */
  lemma NestedUnclosedRun()
    ensures Run(Running([ListMode], [[]], [], []), "40 (30").Running?
  {
    var m0 := Running([ListMode], [[]], [], []);
    NestedUnclosedPrefix();
    NestedUnclosedSuffix();
    RunAppend(m0, "40 (", "30");
    assert "40 (" + "30" == "40 (30";
  }

  /** The machine of `(40 (30` after `40 (`: `40` flushed into the outer
      list and an empty inner list open. */
  lemma NestedUnclosedPrefix()
    ensures Run(Running([ListMode], [[]], [], []), "40 (") == Running([ListMode, ListMode], [[Num(40)], []], [], [])
  {
    NestedUnclosedNumeral();
    NestedUnclosedOpen();
    RunAppend(Running([ListMode], [[]], [], []), "40", " (");
    assert "40" + " (" == "40 (";
  }

  /** Inside the outer list, `40` is buffered as a number. */
  lemma NestedUnclosedNumeral()
    ensures Run(Running([ListMode], [[]], [], []), "40") == Running([ListMode, NumberMode], [[]], "40", [])
  {
    var m0 := Running([ListMode], [[]], [], []);
    var m1 := Running([ListMode, NumberMode], [[]], "4", []);
    var m2 := Running([ListMode, NumberMode], [[]], "40", []);
    assert Step(m0, '4') == m1;
    assert Step(m1, '0') == m2;
    RunCons(m0, '4', "0");
    RunCons(m1, '0', []);
  }

  /** A space flushes the buffered `40` into the outer list, and `(` opens
      the inner one. */
  lemma NestedUnclosedOpen()
    ensures Run(Running([ListMode, NumberMode], [[]], "40", []), " (") == Running([ListMode, ListMode], [[Num(40)], []], [], [])
  {
    var m2 := Running([ListMode, NumberMode], [[]], "40", []);
    var m3 := Running([ListMode], [[Num(40)]], [], []);
    var m4 := Running([ListMode, ListMode], [[Num(40)], []], [], []);
    FlushForty();
    assert Step(m3, '(') == m4;
    RunCons(m2, ' ', "(");
    RunCons(m3, '(', []);
  }

  /** A space after the buffered `40` appends `Num(40)` to the open list. */
  lemma FlushForty()
    ensures Step(Running([ListMode, NumberMode], [[]], "40", []), ' ') == Running([ListMode], [[Num(40)]], [], [])
  {
    var m2 := Running([ListMode, NumberMode], [[]], "40", []);
    var none: seq<SExp> := [];
    var flushed := Running([ListMode], [[Num(40)]], [], []);
    ParseForty();
    AppendTopSingle(none, Num(40));
    assert none + [Num(40)] == [Num(40)];
    assert m2.state[..|m2.state| - 1] == [ListMode];
    assert NumberStep(m2, ' ') == ListStep(flushed, ' ');
  }

  /** `parsenum('40')` is 40. */
  lemma ParseForty()
    ensures ParseNum("40") == Ok(Num(40))
  {
    assert "40"[..1] == "4" && "4"[..0] == [];
  }

  /** The machine of `(40 (30` after `40 (` buffers `30` as a number. */
  lemma NestedUnclosedSuffix()
    ensures Run(Running([ListMode, ListMode], [[Num(40)], []], [], []), "30")
            == Running([ListMode, ListMode, NumberMode], [[Num(40)], []], "30", [])
  {
    var m4 := Running([ListMode, ListMode], [[Num(40)], []], [], []);
    var m5 := Running([ListMode, ListMode, NumberMode], [[Num(40)], []], "3", []);
    var m6 := Running([ListMode, ListMode, NumberMode], [[Num(40)], []], "30", []);
    assert Step(m4, '3') == m5;
    assert Step(m5, '0') == m6;
    RunCons(m4, '3', "0");
    RunCons(m5, '0', []);
  }

  /** List elements need no separator after a string or a list. */
  lemma NoSeparatorNeeded(a: SExp, b: SExp)
    requires !a.Num?
    ensures ParseSpec(['('] + Dump(a) + Dump(b) + [')']) == Ok(List([a, b]))
  {
    assert ['('] + Dump(a) + Dump(b) + [')'] == ['('] + (Dump(a) + (Dump(b) + [')']));
    RunPair(a, b);
    ParseOuterList(Dump(a) + (Dump(b) + [')']), [a, b]);
  }

  /** An input starting with a parenthesis whose remainder closes the outer
      list parses to that list. */
  lemma ParseOuterList(body: string, items: seq<SExp>)
    requires Run(Running([ListMode], [[]], [], []), body) == Running([], [], [], [List(items)])
    ensures ParseSpec(['('] + body) == Ok(List(items))
  {
    var input := ['('] + body;
    assert body != [];
    assert input[1..] == body;
  }

  lemma RunPair(a: SExp, b: SExp)
    requires !a.Num?
    ensures Run(Running([ListMode], [[]], [], []), Dump(a) + (Dump(b) + [')'])) == Running([], [], [], [List([a, b])])
  {
    var none: seq<SExp> := [];
    var m0 := Running([ListMode], [none], [], []);
    var m1 := Running([ListMode], [[a]], [], []);
    var m2 := Running([ListMode], [[a, b]], [], []);
    assert Run(m0, Dump(a)) == m1 by {
      RunDump(m0, a);
      AppendTopSingle(none, a);
      assert none + [a] == [a];
    }
    assert Run(m1, Dump(b) + [')']) == Step(m2, ')') by {
      ItemThen(m1, b, ')');
      AppendTopSingle([a], b);
      assert [a] + [b] == [a, b];
    }
    StepCloseOuter([a, b]);
    RunAppend(m0, Dump(a), Dump(b) + [')']);
  }

  /** Text after the outermost list closes is ignored: `())` parses to `[]`. */
  lemma ExtraCloseIgnored()
    ensures ParseSpec("())") == Ok(List([]))
  {
    assert Dump(List([])) == "()" by {
      DumpList([]);
    }
    assert Dump(List([])) + ")" == "())";
    ParseDump(List([]), ")");
  }
}
