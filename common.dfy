/**
 * Values shared by every part of the ingestion model: the exceptions the
 * Python code raises, the JSON-like values that flow through dictionaries,
 * Python's `range` and decimal `str(int)`.
 */
module Common {

  newtype byte = x: int | 0 <= x < 256

  datatype Option<+T> = None | Some(value: T)

  /** The exceptions of the modelled code that a caller can observe. */
  datatype Error =
    | KeyError(key: string)
    | IntKeyError(index: int)  // a `KeyError` for an integer key, as `d[0]` on a dictionary raises
    | IndexError
    | TypeError(message: string)
    | ValueError
    | AttributeError
    | JsonDecodeError
    | UnicodeDecodeError
    | FileNotFound
    | TransportError

  /** A computation that either returns a value or raises. */
  datatype Result<+T> = Ok(value: T) | Err(error: Error)

  /** A value held in a Python dictionary decoded from JSON or GraphQL. */
  datatype Value =
    | Null
    | Bool(b: bool)
    | Num(n: int)
    | Str(s: string)
    | Bytes(data: seq<byte>)
    | Arr(items: seq<Value>)
    | Obj(fields: map<string, Value>)

  function Min(a: int, b: int): int { if a <= b then a else b }

  /** Python's `value[key]` on a decoded JSON value. */
  function Field(v: Value, key: string): (r: Result<Value>)
    ensures r.Ok? <==> v.Obj? && key in v.fields
    ensures r.Ok? ==> r.value == v.fields[key]
    ensures v.Obj? && key !in v.fields ==> r == Err(KeyError(key))
  {
    match v
    case Obj(m) => if key in m then Ok(m[key]) else Err(KeyError(key))
    case _ => Err(TypeError("value is not subscriptable by a string"))
  }

  /**
   * A Python set comprehension whose element expression may raise:
   * `{f(x) for x in xs}` evaluates the elements left to right and the first
   * exception escapes.
   */
  function SetOf(rs: seq<Result<Value>>): (r: Result<set<Value>>)
    ensures r.Ok? <==> forall i :: 0 <= i < |rs| ==> rs[i].Ok?
    ensures r.Ok? ==> forall v :: v in r.value <==> exists i :: 0 <= i < |rs| && rs[i] == Ok(v)
    ensures r.Err? ==> exists i :: 0 <= i < |rs| && rs[i] == Err(r.error) && forall j :: 0 <= j < i ==> rs[j].Ok?
  {
    if |rs| == 0 then Ok({})
    else match rs[0]
      case Err(e) => Err(e)
      case Ok(v) =>
        var rest := SetOf(rs[1..]);
        if rest.Err? then
          var i :| 0 <= i < |rs[1..]| && rs[1..][i] == Err(rest.error) && forall j :: 0 <= j < i ==> rs[1..][j].Ok?;
          assert rs[i + 1] == Err(rest.error);
          assert forall j :: 0 <= j < i + 1 ==> rs[j].Ok? by {
            forall j | 0 <= j < i + 1 ensures rs[j].Ok? {
              if j > 0 { assert rs[j] == rs[1..][j - 1]; }
            }
          }
          Err(rest.error)
        else
          assert forall i :: 1 <= i < |rs| ==> rs[i] == rs[1..][i - 1];
          Ok({v} + rest.value)
  }

  /**
   * Python's `range(start, stop, step)` for a non-zero step (a zero step
   * raises ValueError, which callers model themselves).
   */
  function Range(start: int, stop: int, step: int): seq<int>
    requires step != 0
    decreases if step > 0 then stop - start else start - stop
  {
    if (step > 0 && start < stop) || (step < 0 && start > stop) then
      [start] + Range(start + step, stop, step)
    else
      []
  }

  /**
   * For a positive step the range starts at `start`, climbs by exactly
   * `step`, stays strictly below `stop` and stops at the first value that
   * would reach it.
   */
  lemma {:induction false} RangeStep(start: int, stop: int, step: int)
    requires step > 0
    ensures var r := Range(start, stop, step);
      && (|r| == 0 <==> stop <= start)
      && (|r| > 0 ==> r[0] == start && r[|r| - 1] + step >= stop)
      && (forall j :: 0 <= j < |r| ==> start <= r[j] < stop)
      && (forall j :: 0 <= j < |r| - 1 ==> r[j + 1] == r[j] + step)
    decreases stop - start
  {
    if start < stop {
      RangeStep(start + step, stop, step);
      var r := Range(start, stop, step);
      var rest := Range(start + step, stop, step);
      assert r == [start] + rest;
      forall j | 0 <= j < |r| - 1 ensures r[j + 1] == r[j] + step {
        if j > 0 { assert r[j] == rest[j - 1] && r[j + 1] == rest[j]; }
      }
    }
  }

  /** Strictly increasing: no two pages of a range share an offset. */
  lemma RangeIncreasing(start: int, stop: int, step: int, i: int, j: int)
    requires step > 0
    requires 0 <= i < j < |Range(start, stop, step)|
    ensures Range(start, stop, step)[i] < Range(start, stop, step)[j]
    decreases j - i
  {
    RangeStep(start, stop, step);
    if i + 1 < j { RangeIncreasing(start, stop, step, i + 1, j); }
  }

  /** Every value of a range lies on the start's side: above it for a positive step, below for a negative one. */
  lemma {:induction false} RangeBounds(start: int, stop: int, step: int)
    requires step != 0
    ensures forall x :: x in Range(start, stop, step) ==> (step > 0 ==> start <= x) && (step < 0 ==> x <= start)
    decreases if step > 0 then stop - start else start - stop
  {
    if (step > 0 && start < stop) || (step < 0 && start > stop) {
      RangeBounds(start + step, stop, step);
    }
  }

  /** A range never repeats a value, whatever the sign of its step. */
  lemma {:induction false} RangeDistinct(start: int, stop: int, step: int, i: int, j: int)
    requires step != 0
    requires 0 <= i < j < |Range(start, stop, step)|
    ensures Range(start, stop, step)[i] != Range(start, stop, step)[j]
    decreases j
  {
    var rest := Range(start + step, stop, step);
    assert Range(start, stop, step) == [start] + rest;
    if i == 0 {
      RangeBounds(start + step, stop, step);
      assert rest[j - 1] in rest;
    } else {
      RangeDistinct(start + step, stop, step, i - 1, j - 1);
    }
  }

  function DigitChar(d: int): (c: char)
    requires 0 <= d < 10
    ensures '0' <= c <= '9'
  {
    (48 + d) as char
  }

  /** Decimal digits of a natural number, without leading zeros. */
  function NatToString(n: nat): (s: string)
    ensures 0 < |s|
    ensures forall i :: 0 <= i < |s| ==> '0' <= s[i] <= '9'
    ensures n >= 10 ==> |s| >= 2
    decreases n
  {
    if n < 10 then [DigitChar(n)] else NatToString(n / 10) + [DigitChar(n % 10)]
  }

  /** Python's `str(i)` for an int. */
  function IntToString(i: int): string
  {
    if i < 0 then "-" + NatToString(-i) else NatToString(i)
  }

  lemma {:induction false} NatToStringInjective(a: nat, b: nat)
    requires NatToString(a) == NatToString(b)
    ensures a == b
    decreases a
  {
    var s := NatToString(a);
    if a < 10 && b < 10 {
      assert s[0] == DigitChar(a) && s[0] == DigitChar(b);
    } else if a >= 10 && b >= 10 {
      var n := |s|;
      assert s[n - 1] == DigitChar(a % 10) == DigitChar(b % 10);
      assert s[..n - 1] == NatToString(a / 10) == NatToString(b / 10);
      NatToStringInjective(a / 10, b / 10);
    }
  }

  /** The sign of a printed integer is its first character. */
  lemma SignIsFirstChar(i: int)
    ensures 0 < |IntToString(i)|
    ensures IntToString(i)[0] == '-' <==> i < 0
  {
  }

  /** Distinct integers print differently. */
  lemma IntToStringInjective(a: int, b: int)
    requires IntToString(a) == IntToString(b)
    ensures a == b
  {
    SignIsFirstChar(a);
    SignIsFirstChar(b);
    if a < 0 {
      assert IntToString(a)[1..] == NatToString(-a);
      assert IntToString(b)[1..] == NatToString(-b);
      NatToStringInjective(-a, -b);
    } else {
      NatToStringInjective(a, b);
    }
  }

  // ---------------------------------------------------------------------
  // Sequence facts, stated once so that proofs about concrete sequences
  // need not rediscover them

  lemma ConcatSplit<T>(a: seq<T>, b: seq<T>)
    ensures (a + b)[..|a|] == a && (a + b)[|a|..] == b
  {
  }

  lemma ConcatAt<T>(a: seq<T>, b: seq<T>, n: int)
    requires 0 <= n <= |a|
    ensures (a + b)[..n] == a[..n] && (a + b)[n..] == a[n..] + b
  {
  }

  lemma ConcatAssoc<T>(a: seq<T>, b: seq<T>, c: seq<T>)
    ensures a + b + c == a + (b + c)
  {
  }

  lemma ConcatRegroup<T>(a: seq<T>, b: seq<T>, c: seq<T>, d: seq<T>)
    ensures a + b + c + d == a + (b + (c + d))
  {
  }

  lemma SnocTail<T>(xs: seq<T>, x: T)
    requires xs != []
    ensures (xs + [x])[0] == xs[0] && (xs + [x])[1..] == xs[1..] + [x]
  {
  }

  lemma TakeSnoc<T>(xs: seq<T>, j: int)
    requires 0 <= j < |xs|
    ensures xs[..j] + [xs[j]] == xs[..j + 1]
  {
  }

  lemma TakeSlice<T>(xs: seq<T>, a: int, b: int)
    requires 0 <= a <= b <= |xs|
    ensures xs[..a] + xs[a..b] == xs[..b]
  {
  }

  lemma TakeDrop<T>(xs: seq<T>, j: int)
    requires 0 <= j <= |xs|
    ensures xs[..j] + xs[j..] == xs
  {
  }
}
