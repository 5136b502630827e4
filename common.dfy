/** Python-level vocabulary shared by every model in this project: results that
    carry the exception a call raises, JSON values as `json.loads` produces them,
    truthiness, and the string operations the line protocols rely on
    (`strip`, `split`, `join`, `int`, `str` on integers). */
module Py {

  datatype Option<T> = None | Some(value: T)

  /** The Python exceptions the modelled code raises (or lets through). */
  datatype Error =
    | AttributeError
    | IndexError
    | KeyError
    | NameError
    | RuntimeError
    | TypeError
    | ValueError
    | ZeroDivisionError
    | StatisticsError
    | IOError
    | Raised            // a plain `raise Exception(...)`

  datatype Result<T> = Ok(value: T) | Err(error: Error) {
    predicate IsFailure() { Err? }
    function PropagateFailure<U>(): Result<U> requires Err? { Err(error) }
    function Extract(): T requires Ok? { value }
  }

  /** A decoded JSON value (RFC 8259 text handling itself is not modelled). */
  datatype Json =
    | JNull
    | JBool(b: bool)
    | JNum(r: real)
    | JStr(s: string)
    | JList(items: seq<Json>)
    | JObject(fields: map<string, Json>)

  /** Python truthiness of a decoded value. */
  predicate Truthy(v: Json)
  {
    match v
    case JNull => false
    case JBool(b) => b
    case JNum(r) => r != 0.0
    case JStr(s) => s != []
    case JList(items) => items != []
    case JObject(m) => m != map[]
  }

  /** The numeric value Python arithmetic sees (`bool` is an `int`). */
  function AsNumber(v: Json): Option<real>
  {
    match v
    case JBool(b) => Some(if b then 1.0 else 0.0)
    case JNum(r) => Some(r)
    case _ => None
  }

  /** `v == True` in Python: `True == 1 == 1.0`. */
  predicate EqualsTrue(v: Json)
  {
    v == JBool(true) || v == JNum(1.0)
  }

  /** `len(v)`. */
  function Len(v: Json): Result<nat>
  {
    match v
    case JStr(s) => Ok(|s|)
    case JList(items) => Ok(|items|)
    case JObject(m) => Ok(|m|)
    case _ => Err(TypeError)
  }

  /** The slot Python's `xs[i]` reaches in a sequence of length `n`:
      negative indices count from the end. */
  function Slot(i: int, n: nat): (r: Option<nat>)
    ensures r.Some? <==> -(n as int) <= i < n
    ensures r.Some? ==> r.value < n && (r.value == i || r.value == i + n)
  {
    if 0 <= i < n then Some(i) else if -(n as int) <= i < 0 then Some(i + n) else None
  }

  /** `v[i]` for an integer `i`. */
  function Index(v: Json, i: int): (r: Result<Json>)
    ensures v.JList? && 0 <= i < |v.items| ==> r == Ok(v.items[i])
    ensures v.JList? && (i >= |v.items| || i < -(|v.items| as int)) ==> r == Err(IndexError)
  {
    match v
    case JList(items) =>
      (match Slot(i, |items|)
       case Some(k) => Ok(items[k])
       case None => Err(IndexError))
    case JStr(s) =>
      (match Slot(i, |s|)
       case Some(k) => Ok(JStr([s[k]]))
       case None => Err(IndexError))
    case JObject(_) => Err(KeyError)   // JSON object keys are strings
    case _ => Err(TypeError)
  }

  /** `sum(items)`: numbers and booleans add up, anything else is a TypeError. */
  function Sum(items: seq<Json>): (r: Result<real>)
    ensures items == [] ==> r == Ok(0.0)
    ensures (forall k :: 0 <= k < |items| ==> AsNumber(items[k]).Some?) <==> r.Ok?
  {
    if items == [] then Ok(0.0)
    else
      match AsNumber(items[|items| - 1])
      case None => Err(TypeError)
      case Some(x) =>
        match Sum(items[..|items| - 1])
        case Err(e) => Err(e)
        case Ok(s) => Ok(s + x)
  }

  /** Sum of a list of reals. */
  function SumReals(xs: seq<real>): real
  {
    if xs == [] then 0.0 else SumReals(xs[..|xs| - 1]) + xs[|xs| - 1]
  }

  function Nums(xs: seq<real>): (r: seq<Json>)
    ensures |r| == |xs| && forall k :: 0 <= k < |xs| ==> r[k] == JNum(xs[k])
  {
    seq(|xs|, k requires 0 <= k < |xs| => JNum(xs[k]))
  }

  lemma {:induction false} SumOfNums(xs: seq<real>)
    ensures Sum(Nums(xs)) == Ok(SumReals(xs))
  {
    if xs != [] {
      assert Nums(xs)[..|xs| - 1] == Nums(xs[..|xs| - 1]);
      SumOfNums(xs[..|xs| - 1]);
    }
  }

  // ---------------------------------------------------------------------
  // Strings

  /** The characters `str.isspace()` accepts in ASCII text. */
  predicate IsSpace(c: char)
  {
    c == ' ' || c == '\t' || c == '\n' || c == '\r'
    || c == '\U{0B}' || c == '\U{0C}'
    || c == '\U{1C}' || c == '\U{1D}' || c == '\U{1E}' || c == '\U{1F}'
  }

  predicate NoSpace(s: string)
  {
    forall k :: 0 <= k < |s| ==> !IsSpace(s[k])
  }

  function StripLeft(s: string): (r: string)
    ensures |r| <= |s|
    ensures r == [] || !IsSpace(r[0])
  {
    if s != [] && IsSpace(s[0]) then StripLeft(s[1..]) else s
  }

  function StripRight(s: string): (r: string)
    ensures |r| <= |s|
    ensures r == [] || (!IsSpace(r[|r| - 1]) && r[0] == s[0])
  {
    if s != [] && IsSpace(s[|s| - 1]) then StripRight(s[..|s| - 1]) else s
  }

  /** `lstrip` removes a prefix made only of whitespace. */
  lemma {:induction false} StripLeftRemovesSpace(s: string)
    ensures var r := StripLeft(s);
            r == s[|s| - |r|..] && forall k :: 0 <= k < |s| - |r| ==> IsSpace(s[k])
  {
    if s != [] && IsSpace(s[0]) {
      StripLeftRemovesSpace(s[1..]);
    }
  }

  /** `rstrip` removes a suffix made only of whitespace. */
  lemma {:induction false} StripRightRemovesSpace(s: string)
    ensures var r := StripRight(s);
            r == s[..|r|] && forall k :: |r| <= k < |s| ==> IsSpace(s[k])
  {
    if s != [] && IsSpace(s[|s| - 1]) {
      StripRightRemovesSpace(s[..|s| - 1]);
    }
  }

  /** `s.strip()`. */
  function Strip(s: string): (r: string)
    ensures r == [] || (!IsSpace(r[0]) && !IsSpace(r[|r| - 1]))
  {
    StripRight(StripLeft(s))
  }

  lemma StripKeeps(s: string)
    requires s == [] || (!IsSpace(s[0]) && !IsSpace(s[|s| - 1]))
    ensures Strip(s) == s
  {
  }

  /** `s.split(sep)` for a one-character separator: never empty, and the
      pieces are exactly the text between separators. */
  function Split(s: string, sep: char): (r: seq<string>)
    ensures |r| >= 1
    ensures forall k :: 0 <= k < |r| ==> sep !in r[k]
    decreases |s|
  {
    if sep !in s then [s]
    else
      var i := IndexOf(s, sep);
      [s[..i]] + Split(s[i + 1..], sep)
  }

  function IndexOf(s: string, c: char): (i: nat)
    requires c in s
    ensures i < |s| && s[i] == c && c !in s[..i]
  {
    if s[0] == c then 0 else 1 + IndexOf(s[1..], c)
  }

  /** `sep.join(xs)` for a one-character separator. */
  function Join(xs: seq<string>, sep: char): string
  {
    if xs == [] then []
    else if |xs| == 1 then xs[0]
    else xs[0] + [sep] + Join(xs[1..], sep)
  }

  /** Splitting undoes joining when no piece holds the separator. */
  lemma {:induction false} SplitJoin(xs: seq<string>, sep: char)
    requires |xs| >= 1
    requires forall k :: 0 <= k < |xs| ==> sep !in xs[k]
    ensures Split(Join(xs, sep), sep) == xs
  {
    if |xs| > 1 {
      var s := Join(xs, sep);
      assert s == xs[0] + [sep] + Join(xs[1..], sep);
      assert s[|xs[0]|] == sep;
      assert sep in s;
      assert s[..|xs[0]|] == xs[0];
      assert IndexOf(s, sep) == |xs[0]|;
      assert s[|xs[0]| + 1..] == Join(xs[1..], sep);
      SplitJoin(xs[1..], sep);
    }
  }

  /** Joining undoes splitting. */
  lemma {:induction false} JoinSplit(s: string, sep: char)
    ensures Join(Split(s, sep), sep) == s
    decreases |s|
  {
    if sep in s {
      var i := IndexOf(s, sep);
      assert s == s[..i] + [sep] + s[i + 1..];
      JoinSplit(s[i + 1..], sep);
      var rest := Split(s[i + 1..], sep);
      var parts := [s[..i]] + rest;
      assert Split(s, sep) == parts;
      assert parts[0] == s[..i] && parts[1..] == rest && |parts| > 1;
    }
  }

  /** `s.split(sep, maxsplit=1)`. */
  function SplitOnce(s: string, sep: char): (r: seq<string>)
    ensures 1 <= |r| <= 2
    ensures |r| == 1 <==> sep !in s
    ensures |r| == 1 ==> r[0] == s
    ensures |r| == 2 ==> r[0] + [sep] + r[1] == s && sep !in r[0]
  {
    if sep !in s then [s]
    else
      var i := IndexOf(s, sep);
      assert s == s[..i] + [sep] + s[i + 1..];
      [s[..i], s[i + 1..]]
  }

  lemma SplitOnceAt(a: string, sep: char, b: string)
    requires sep !in a
    ensures SplitOnce(a + [sep] + b, sep) == [a, b]
  {
    var s := a + [sep] + b;
    assert s[|a|] == sep && s[..|a|] == a && s[|a| + 1..] == b;
    IndexOfAt(s, sep, |a|);
  }

  /** `s.split()` with no argument: the maximal runs of non-space characters. */
  function Words(s: string): (r: seq<string>)
    ensures forall k :: 0 <= k < |r| ==> r[k] != [] && NoSpace(r[k])
    decreases |s|
  {
    var t := StripLeft(s);
    if t == [] then []
    else
      var n := WordLength(t);
      [t[..n]] + Words(t[n..])
  }

  function WordLength(t: string): (n: nat)
    requires t != [] && !IsSpace(t[0])
    ensures 0 < n <= |t| && NoSpace(t[..n]) && (n == |t| || IsSpace(t[n]))
  {
    if |t| == 1 || IsSpace(t[1]) then 1 else 1 + WordLength(t[1..])
  }

  lemma {:induction false} IndexOfAt(s: string, c: char, i: nat)
    requires i < |s| && s[i] == c && c !in s[..i]
    ensures IndexOf(s, c) == i
  {
    if i > 0 {
      assert s[1..][..i - 1] == s[..i][1..];
      IndexOfAt(s[1..], c, i - 1);
    }
  }

  lemma {:induction false} WordLengthOf(w: string, rest: string)
    requires w != [] && NoSpace(w) && (rest == [] || IsSpace(rest[0]))
    ensures WordLength(w + rest) == |w|
  {
    if |w| > 1 {
      assert (w + rest)[1..] == w[1..] + rest;
      WordLengthOf(w[1..], rest);
    }
  }

  /** A word followed by nothing or by whitespace is the first word. */
  lemma WordsCons(w: string, rest: string)
    requires w != [] && NoSpace(w) && (rest == [] || IsSpace(rest[0]))
    ensures Words(w + rest) == [w] + Words(rest)
  {
    var s := w + rest;
    assert StripLeft(s) == s;
    WordLengthOf(w, rest);
    assert s[..|w|] == w && s[|w|..] == rest;
  }

  lemma WordsSkipSpace(s: string)
    requires s != [] && IsSpace(s[0])
    ensures Words(s) == Words(s[1..])
  {
    assert StripLeft(s) == StripLeft(s[1..]);
  }

  /** A word followed by one space: the word, then the words of the rest. */
  lemma WordsSpaced(w: string, rest: string)
    requires w != [] && NoSpace(w)
    ensures Words(w + ([' '] + rest)) == [w] + Words(rest)
  {
    WordsCons(w, [' '] + rest);
    assert ([' '] + rest)[1..] == rest;
    WordsSkipSpace([' '] + rest);
  }

  /** Two words separated by one space split back into those two words. */
  lemma WordsOfTwo(a: string, b: string)
    requires a != [] && NoSpace(a) && b != [] && NoSpace(b)
    ensures Words(a + ([' '] + b)) == [a, b]
  {
    WordsSpaced(a, b);
    assert b + [] == b;
    WordsCons(b, []);
    assert Words([]) == [];
  }

  /** Three words separated by single spaces split back into those words. */
  lemma WordsOfThree(h: string, a: string, b: string)
    requires h != [] && NoSpace(h) && a != [] && NoSpace(a) && b != [] && NoSpace(b)
    ensures Words(h + ([' '] + (a + ([' '] + b)))) == [h, a, b]
  {
    WordsSpaced(h, a + ([' '] + b));
    WordsOfTwo(a, b);
  }

  // ---------------------------------------------------------------------
  // Integers as decimal text: `str(n)` and `int(s)`

  predicate IsDigit(c: char) { '0' <= c <= '9' }

  predicate AllDigits(s: string) { forall k :: 0 <= k < |s| ==> IsDigit(s[k]) }

  function DigitChar(d: nat): (c: char)
    requires d < 10
    ensures IsDigit(c) && c as int - '0' as int == d
  {
    (d + '0' as int) as char
  }

  /** `str(n)` for `n >= 0`. */
  function NatToString(n: nat): (s: string)
    ensures s != [] && AllDigits(s)
    decreases n
  {
    if n < 10 then [DigitChar(n)] else NatToString(n / 10) + [DigitChar(n % 10)]
  }

  function DigitsValue(s: string): nat
    requires AllDigits(s)
  {
    if s == [] then 0
    else DigitsValue(s[..|s| - 1]) * 10 + (s[|s| - 1] as int - '0' as int)
  }

  /** `str(n)`. */
  function IntToString(n: int): (s: string)
    ensures s != [] && NoSpace(s) && ',' !in s && ' ' !in s
  {
    var s := if n < 0 then "-" + NatToString(-n) else NatToString(n);
    assert forall k :: 0 <= k < |s| ==> s[k] == '-' || IsDigit(s[k]);
    s
  }

  /** `int(s)` on decimal text: optional surrounding whitespace, an optional
      sign, then one or more ASCII digits. */
  function ParseInt(s: string): Option<int>
  {
    var t := Strip(s);
    if t == [] then None
    else if t[0] == '-' || t[0] == '+' then
      var d := t[1..];
      if d != [] && AllDigits(d) then
        Some(if t[0] == '-' then -(DigitsValue(d) as int) else DigitsValue(d))
      else None
    else if AllDigits(t) then Some(DigitsValue(t))
    else None
  }

  lemma {:induction false} NatToStringValue(n: nat)
    ensures DigitsValue(NatToString(n)) == n
    decreases n
  {
    if n >= 10 {
      var s := NatToString(n);
      assert s[..|s| - 1] == NatToString(n / 10);
      NatToStringValue(n / 10);
    }
  }

  /** `int(str(n)) == n` for `n >= 0`. */
  lemma ParseNatString(n: nat)
    ensures ParseInt(NatToString(n)) == Some(n)
  {
    var d := NatToString(n);
    StripKeeps(d);
    assert IsDigit(d[0]);
    NatToStringValue(n);
  }

  /** `int("-" + str(n)) == -n`. */
  lemma ParseNegString(n: nat)
    ensures ParseInt("-" + NatToString(n)) == Some(-(n as int))
  {
    var d := NatToString(n);
    var t := "-" + d;
    assert t[0] == '-' && t[1..] == d && t[|t| - 1] == d[|d| - 1];
    StripKeeps(t);
    NatToStringValue(n);
  }

  /** `int(str(n)) == n`. */
  lemma ParseIntToString(n: int)
    ensures ParseInt(IntToString(n)) == Some(n)
  {
    if n < 0 {
      ParseNegString(-n);
    } else {
      ParseNatString(n);
    }
  }

  /** `[int(w) for w in ws]`: None when any piece is not an integer. */
  function ParseInts(ws: seq<string>): (r: Option<seq<int>>)
    ensures r.Some? ==> |r.value| == |ws|
    ensures r.Some? <==> forall k :: 0 <= k < |ws| ==> ParseInt(ws[k]).Some?
    ensures r.Some? ==> forall k :: 0 <= k < |ws| ==> r.value[k] == ParseInt(ws[k]).value
  {
    if ws == [] then Some([])
    else
      match ParseInt(ws[0])
      case None => None
      case Some(x) =>
        match ParseInts(ws[1..])
        case None => None
        case Some(rest) => Some([x] + rest)
  }

  /** `[str(v) for v in xs]`. */
  function IntsToStrings(xs: seq<int>): (r: seq<string>)
    ensures |r| == |xs|
    ensures forall k :: 0 <= k < |xs| ==> r[k] == IntToString(xs[k])
  {
    seq(|xs|, k requires 0 <= k < |xs| => IntToString(xs[k]))
  }

  lemma ParseIntsOfStrings(xs: seq<int>)
    ensures ParseInts(IntsToStrings(xs)) == Some(xs)
  {
    var ws := IntsToStrings(xs);
    forall k | 0 <= k < |xs| ensures ParseInt(ws[k]) == Some(xs[k]) {
      ParseIntToString(xs[k]);
    }
    assert ParseInts(ws).value == xs;
  }

  /** `[f(w) for w in ws]` for an injected float parser. */
  function ParseReals(ws: seq<string>, parseReal: string -> Option<real>): (r: Option<seq<real>>)
    ensures r.Some? ==> |r.value| == |ws|
    ensures r.Some? <==> forall k :: 0 <= k < |ws| ==> parseReal(ws[k]).Some?
    ensures r.Some? ==> forall k :: 0 <= k < |ws| ==> r.value[k] == parseReal(ws[k]).value
  {
    if ws == [] then Some([])
    else
      match parseReal(ws[0])
      case None => None
      case Some(x) =>
        match ParseReals(ws[1..], parseReal)
        case None => None
        case Some(rest) => Some([x] + rest)
  }

  function Min(a: int, b: int): int { if a < b then a else b }

  // ---------------------------------------------------------------------
  // Order

  predicate StrictlyIncreasing(xs: seq<int>)
  {
    forall i, j :: 0 <= i < j < |xs| ==> xs[i] < xs[j]
  }

  predicate Distinct<T(==)>(xs: seq<T>)
  {
    forall i, j :: 0 <= i < j < |xs| ==> xs[i] != xs[j]
  }

  lemma DistinctAppend<T>(xs: seq<T>, x: T)
    requires Distinct(xs) && x !in xs
    ensures Distinct(xs + [x])
  {
    var r := xs + [x];
    forall i, j | 0 <= i < j < |r|
      ensures r[i] != r[j]
    {
      assert r[i] == xs[i];
    }
  }

  /** Inserts `x` into an ascending sequence. */
  function Insert(x: int, xs: seq<int>): (r: seq<int>)
    ensures multiset(r) == multiset(xs) + multiset{x} && |r| == |xs| + 1
  {
    if xs == [] || x < xs[0] then [x] + xs
    else
      assert xs == [xs[0]] + xs[1..];
      [xs[0]] + Insert(x, xs[1..])
  }

  /** A bound below `x` and below every element of `xs` stays below every
      element once `x` is inserted. */
  lemma {:induction false} InsertAbove(x: int, xs: seq<int>, b: int)
    requires b < x && forall k :: 0 <= k < |xs| ==> b < xs[k]
    ensures forall k :: 0 <= k < |Insert(x, xs)| ==> b < Insert(x, xs)[k]
  {
    if xs != [] && x >= xs[0] {
      InsertAbove(x, xs[1..], b);
      assert Insert(x, xs) == [xs[0]] + Insert(x, xs[1..]);
    }
  }

  lemma {:induction false} InsertSorted(x: int, xs: seq<int>)
    requires StrictlyIncreasing(xs) && x !in xs
    ensures StrictlyIncreasing(Insert(x, xs))
  {
    if xs != [] && x >= xs[0] {
      var tail := xs[1..];
      assert x !in tail && StrictlyIncreasing(tail);
      InsertSorted(x, tail);
      assert forall k :: 0 <= k < |tail| ==> xs[0] < tail[k];
      InsertAbove(x, tail, xs[0]);
      var t := Insert(x, tail);
      var r := [xs[0]] + t;
      assert Insert(x, xs) == r;
      forall i, j | 0 <= i < j < |r|
        ensures r[i] < r[j]
      {
        assert r[j] == t[j - 1];
        if i > 0 {
          assert r[i] == t[i - 1];
        }
      }
    }
  }

  /** `sorted(xs)` for integers: a rearrangement of `xs`. */
  function SortInts(xs: seq<int>): (r: seq<int>)
    ensures multiset(r) == multiset(xs) && |r| == |xs|
  {
    if xs == [] then []
    else
      var init := xs[..|xs| - 1];
      assert xs == init + [xs[|xs| - 1]];
      Insert(xs[|xs| - 1], SortInts(init))
  }

  /** Sorting keeps exactly the elements it was given. */
  lemma SortIntsMembers(xs: seq<int>)
    ensures forall i :: 0 <= i < |SortInts(xs)| ==> SortInts(xs)[i] in xs
    ensures forall v :: v in xs <==> v in SortInts(xs)
  {
    var r := SortInts(xs);
    forall v
      ensures v in xs <==> v in r
    {
      assert v in r <==> v in multiset(r);
      assert v in xs <==> v in multiset(xs);
    }
    forall i | 0 <= i < |r|
      ensures r[i] in xs
    {
      assert r[i] in r;
    }
  }

  /** Sorting distinct integers yields them in strictly ascending order. */
  lemma {:induction false} SortIntsSorted(xs: seq<int>)
    requires Distinct(xs)
    ensures StrictlyIncreasing(SortInts(xs))
  {
    if xs != [] {
      var init := xs[..|xs| - 1];
      var x := xs[|xs| - 1];
      assert xs == init + [x];
      SortIntsSorted(init);
      assert x !in multiset(init);
      assert x !in multiset(SortInts(init));
      InsertSorted(x, SortInts(init));
    }
  }
}
