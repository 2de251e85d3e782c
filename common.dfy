/** Python semantics shared by every module of the model: exceptions as a
    Result, `str.split`, `int()`, `str()` on integers and negative list
    indexing. */
module Common {

  /** The Python exceptions (and `sys.exit`) the modelled code can raise. */
  datatype Error = ValueError | IndexError | TypeError | AttributeError | Exit

  datatype Option<+T> = None | Some(value: T)

  /** How a call that returns nothing ended: normally, or by raising. */
  datatype Outcome = Done | Raised(error: Error)

  datatype Result<+T> = Ok(value: T) | Err(error: Error) {
    predicate IsFailure() { Err? }

    function PropagateFailure<U>(): Result<U>
      requires Err?
    {
      Err(error)
    }

    function Extract(): T
      requires Ok?
    {
      value
    }
  }

  // ---------------------------------------------------------------------
  // str.split(sep) with an explicit one-character separator

  /** `s.split(sep)`: the pieces between separators, empty pieces kept. */
  function Split(s: string, sep: char): (r: seq<string>)
    ensures |r| >= 1
    ensures forall i :: 0 <= i < |r| ==> sep !in r[i]
    decreases |s|
  {
    if |s| == 0 then [""]
    else
      var rest := Split(s[1..], sep);
      if s[0] == sep then [""] + rest
      else [[s[0]] + rest[0]] + rest[1..]
  }

  /** `sep.join(parts)`. */
  function Join(parts: seq<string>, sep: char): (r: string)
    decreases |parts|
  {
    if |parts| == 0 then ""
    else if |parts| == 1 then parts[0]
    else parts[0] + [sep] + Join(parts[1..], sep)
  }

  lemma {:induction false} SplitConsNoSep(c: char, t: string, sep: char)
    requires c != sep
    ensures Split([c] + t, sep) == [[c] + Split(t, sep)[0]] + Split(t, sep)[1..]
  {
    assert ([c] + t)[1..] == t;
  }

  lemma {:induction false} SplitPrefix(a: string, b: string, sep: char)
    requires sep !in a
    ensures |Split(a + b, sep)| == |Split(b, sep)|
    ensures Split(a + b, sep) == [a + Split(b, sep)[0]] + Split(b, sep)[1..]
    decreases |a|
  {
    if |a| == 0 {
      assert a + b == b;
      var r := Split(b, sep);
      assert a + r[0] == r[0];
      assert [r[0]] + r[1..] == r;
    } else {
      SplitPrefix(a[1..], b, sep);
      assert a + b == [a[0]] + (a[1..] + b);
      SplitConsNoSep(a[0], a[1..] + b, sep);
      assert [a[0]] + (a[1..] + Split(b, sep)[0]) == a + Split(b, sep)[0];
    }
  }

  /** Splitting a joined list gives the pieces back when no piece holds the
      separator: this is what lets a pcode line be taken apart again. */
  lemma {:induction false} SplitJoin(parts: seq<string>, sep: char)
    requires |parts| >= 1
    requires forall i :: 0 <= i < |parts| ==> sep !in parts[i]
    ensures Split(Join(parts, sep), sep) == parts
    decreases |parts|
  {
    if |parts| == 1 {
      SplitPrefix(parts[0], "", sep);
      assert parts[0] + "" == parts[0];
    } else {
      var rest := Join(parts[1..], sep);
      SplitJoin(parts[1..], sep);
      assert Join(parts, sep) == parts[0] + ([sep] + rest);
      SplitPrefix(parts[0], [sep] + rest, sep);
      assert ([sep] + rest)[1..] == rest;
      assert Split([sep] + rest, sep) == [""] + parts[1..];
      assert parts[0] + "" == parts[0];
    }
  }

  /** The characters a joined list can hold: those of its pieces, and the
      separator. */
  lemma {:induction false} JoinChars(parts: seq<string>, sep: char, c: char)
    requires c != sep && forall i :: 0 <= i < |parts| ==> c !in parts[i]
    ensures c !in Join(parts, sep)
    decreases |parts|
  {
    if |parts| > 1 {
      JoinChars(parts[1..], sep, c);
    }
  }

  /** The text written chunk by chunk. */
  function Concat(chunks: seq<string>): string
    decreases |chunks|
  {
    if |chunks| == 0 then "" else chunks[0] + Concat(chunks[1..])
  }

  /** Writing every piece but the last followed by the separator, then the
      last piece, writes the joined text. */
  lemma {:induction false} JoinAsChunks(parts: seq<string>, sep: char)
    requires |parts| >= 1
    ensures Join(parts, sep) == Concat(seq(|parts| - 1, i requires 0 <= i < |parts| - 1 => parts[i] + [sep]) + [parts[|parts| - 1]])
    decreases |parts|
  {
    var chunks := seq(|parts| - 1, i requires 0 <= i < |parts| - 1 => parts[i] + [sep]) + [parts[|parts| - 1]];
    if |parts| == 1 {
      assert chunks == [parts[0]];
      assert Concat(chunks[1..]) == "";
      assert parts[0] + "" == parts[0];
    } else {
      var tail := parts[1..];
      JoinAsChunks(tail, sep);
      var rest := seq(|tail| - 1, i requires 0 <= i < |tail| - 1 => tail[i] + [sep]) + [tail[|tail| - 1]];
      assert chunks[1..] == rest;
      assert chunks[0] == parts[0] + [sep];
      assert Join(parts, sep) == parts[0] + [sep] + Join(tail, sep);
      assert parts[0] + [sep] + Concat(rest) == (parts[0] + [sep]) + Concat(rest);
    }
  }

  // ---------------------------------------------------------------------
  // int() and str() on base-10 integers

  predicate IsDigit(c: char) { '0' <= c <= '9' }

  function DigitValue(c: char): (d: nat)
    requires IsDigit(c)
    ensures d < 10
  {
    (c as int - '0' as int) as nat
  }

  function DigitChar(d: nat): (c: char)
    requires d < 10
    ensures IsDigit(c) && DigitValue(c) == d
  {
    (d + '0' as int) as char
  }

  /** The value of a non-empty run of decimal digits. */
  function DigitsValue(s: string): (n: nat)
    requires forall i :: 0 <= i < |s| ==> IsDigit(s[i])
    decreases |s|
  {
    if |s| == 0 then 0
    else DigitsValue(s[..|s| - 1]) * 10 + DigitValue(s[|s| - 1])
  }

  /** Python `int(s)` for the forms the pcode files use: an optional sign
      followed by at least one decimal digit; anything else raises
      ValueError. */
  function ParseInt(s: string): (r: Result<int>)
    ensures r.Ok? ==> |s| >= 1
  {
    var neg := |s| > 0 && s[0] == '-';
    var body := if |s| > 0 && (s[0] == '-' || s[0] == '+') then s[1..] else s;
    if |body| == 0 || exists i :: 0 <= i < |body| && !IsDigit(body[i]) then Err(ValueError)
    else if neg then Ok(-(DigitsValue(body) as int))
    else Ok(DigitsValue(body))
  }

  /** `str(n)` for n >= 0. */
  function NatToString(n: nat): (s: string)
    ensures |s| >= 1
    ensures forall i :: 0 <= i < |s| ==> IsDigit(s[i])
    decreases n
  {
    if n < 10 then [DigitChar(n)] else NatToString(n / 10) + [DigitChar(n % 10)]
  }

  /** `str(n)` for any integer. */
  function IntToString(n: int): (s: string)
    ensures |s| >= 1
    ensures forall i :: 0 <= i < |s| ==> s[i] == '-' || IsDigit(s[i])
  {
    if n < 0 then "-" + NatToString(-n) else NatToString(n)
  }

  lemma {:induction false} DigitsOfNat(n: nat)
    ensures DigitsValue(NatToString(n)) == n
    decreases n
  {
    var s := NatToString(n);
    if n >= 10 {
      DigitsOfNat(n / 10);
      assert s[..|s| - 1] == NatToString(n / 10);
    }
  }

  /** `int(str(n)) == n`. */
  lemma {:induction false} ParseIntToString(n: int)
    ensures ParseInt(IntToString(n)) == Ok(n)
  {
    var s := IntToString(n);
    if n < 0 {
      DigitsOfNat(-n);
      assert s[1..] == NatToString(-n);
    } else {
      DigitsOfNat(n);
    }
  }

  /** A tagged field such as "t120": the tag character followed by str(n). */
  lemma TaggedIntHasNoSpace(tag: char, n: int)
    requires tag != ' '
    ensures ' ' !in [tag] + IntToString(n)
    ensures ([tag] + IntToString(n))[1..] == IntToString(n)
  {
  }

  // ---------------------------------------------------------------------
  // Python list indexing

  /** The position `xs[i]` reads in a list of length n, negative indices
      counting from the end; None where Python raises IndexError. */
  function PyIndex(n: nat, i: int): (r: Option<nat>)
    ensures r.Some? <==> -(n as int) <= i < n
    ensures r.Some? ==> r.value < n && (i >= 0 ==> r.value == i) && (i < 0 ==> r.value == n + i)
  {
    if 0 <= i < n then Some(i) else if -(n as int) <= i < 0 then Some(n + i) else None
  }

  /** `xs.index(x)`: the first position holding x, or ValueError. */
  function IndexOf<T(==)>(xs: seq<T>, x: T): (r: Result<nat>)
    ensures r.Ok? <==> x in xs
    ensures r.Err? ==> r.error == ValueError
    ensures r.Ok? ==> r.value < |xs| && xs[r.value] == x && forall j :: 0 <= j < r.value ==> xs[j] != x
    decreases |xs|
  {
    if |xs| == 0 then Err(ValueError)
    else if xs[0] == x then Ok(0)
    else match IndexOf(xs[1..], x)
      case Ok(k) => Ok(k + 1)
      case Err(e) => Err(e)
  }

  // ---------------------------------------------------------------------
  // A loop that converts every element and stops at the first exception

  /** f applied to every element in order, or the first element's error. */
  function MapResult<A, B>(xs: seq<A>, f: A -> Result<B>): (r: Result<seq<B>>)
    ensures r.Ok? ==> |r.value| == |xs|
    decreases |xs|
  {
    if |xs| == 0 then Ok([])
    else
      var init :- MapResult(xs[..|xs| - 1], f);
      var y :- f(xs[|xs| - 1]);
      Ok(init + [y])
  }

  /** A successful result holds f of each element, and fails exactly when
      some element fails. */
  lemma {:induction false} MapResultEach<A, B>(xs: seq<A>, f: A -> Result<B>)
    ensures MapResult(xs, f).Ok? <==> forall i :: 0 <= i < |xs| ==> f(xs[i]).Ok?
    ensures MapResult(xs, f).Ok? ==> forall i :: 0 <= i < |xs| ==> f(xs[i]) == Ok(MapResult(xs, f).value[i])
    decreases |xs|
  {
    if |xs| > 0 {
      var init := xs[..|xs| - 1];
      MapResultEach(init, f);
      forall i | 0 <= i < |xs| - 1 ensures xs[i] == init[i] { }
    }
  }

  /** A list of results, one per element, each f of its element, is the
      result. */
  lemma {:induction false} MapResultOfEach<A, B>(xs: seq<A>, f: A -> Result<B>, ys: seq<B>)
    requires |ys| == |xs| && forall i :: 0 <= i < |xs| ==> f(xs[i]) == Ok(ys[i])
    ensures MapResult(xs, f) == Ok(ys)
    decreases |xs|
  {
    if |xs| > 0 {
      MapResultOfEach(xs[..|xs| - 1], f, ys[..|ys| - 1]);
      assert ys[..|ys| - 1] + [ys[|ys| - 1]] == ys;
    }
  }

  /** When every element before j converts and element j fails, the whole
      list fails with element j's error. */
  lemma {:induction false} MapResultFirstError<A, B>(xs: seq<A>, f: A -> Result<B>, j: nat, n: nat)
    requires j < n <= |xs| && MapResult(xs[..j], f).Ok? && f(xs[j]).Err?
    ensures MapResult(xs[..n], f) == Err(f(xs[j]).error)
    decreases n
  {
    if n == j + 1 {
      assert xs[..n][..j] == xs[..j];
    } else {
      MapResultFirstError(xs, f, j, n - 1);
      assert xs[..n][..n - 1] == xs[..n - 1];
    }
  }

  /** Two lists that each convert convert together, one result after the
      other. */
  lemma {:induction false} MapResultAppend<A, B>(xs: seq<A>, ys: seq<A>, f: A -> Result<B>, rx: seq<B>, ry: seq<B>)
    requires MapResult(xs, f) == Ok(rx) && MapResult(ys, f) == Ok(ry)
    ensures MapResult(xs + ys, f) == Ok(rx + ry)
    decreases |ys|
  {
    if |ys| == 0 {
      assert xs + ys == xs && rx + ry == rx;
    } else {
      var init := ys[..|ys| - 1];
      var ri := MapResult(init, f).value;
      assert ry == ri + [f(ys[|ys| - 1]).value];
      MapResultAppend(xs, init, f, rx, ri);
      assert (xs + ys)[..|xs + ys| - 1] == xs + init;
      assert rx + ry == (rx + ri) + [f(ys[|ys| - 1]).value];
    }
  }

  /** One more element extends the result by f of it. */
  lemma MapResultStep<A, B>(xs: seq<A>, f: A -> Result<B>, n: nat, ys: seq<B>, y: B)
    requires n < |xs| && MapResult(xs[..n], f) == Ok(ys) && f(xs[n]) == Ok(y)
    ensures MapResult(xs[..n + 1], f) == Ok(ys + [y])
  {
    assert xs[..n + 1][..n] == xs[..n];
  }
}
