/**
 * Shared vocabulary of the car-wash backend model: optional values, the
 * handlers' error responses, request fields as JSON delivers them, and a few
 * helpers over keys and strings.
 */
module Common {

  /** Record identifiers. The database generates them; the model allocates fresh naturals. */
  type Id = nat

  /** Money and percentages. Reals keep `total = sum of subtotals` and
      `commission = total * pct / 100` exact, where the source uses floats. */
  type Money = real

  datatype Option<+T> = None | Some(value: T)

  /** The HTTP error statuses the controllers answer with. */
  datatype Failure = BadRequest | Unauthorized | NotFound | Conflict | ServerError {
    function Code(): (c: int)
      ensures 400 <= c <= 500
    {
      match this
      case BadRequest => 400
      case Unauthorized => 401
      case NotFound => 404
      case Conflict => 409
      case ServerError => 500
    }
  }

  datatype Result<+T> = Ok(value: T) | Err(failure: Failure)

  /** A request-body field as JSON delivers it: absent (`undefined`), `null`, or a value. */
  datatype Input<+T> = Undefined | Null | Value(value: T) {
    /** The source's `x !== undefined`. */
    predicate Defined() { !Undefined? }
  }

  /** JavaScript truthiness of an optional string: present and not empty. */
  predicate Truthy(s: Option<string>) {
    s.Some? && s.value != ""
  }

  /** JavaScript truthiness of a string-valued request field. */
  predicate TruthyInput(s: Input<string>) {
    s.Value? && s.value != ""
  }

  /** What a column receives from a field that the update sets when `!== undefined`. */
  function Assigned<T>(current: Option<T>, given: Input<T>): (r: Option<T>)
    ensures given.Undefined? ==> r == current
    ensures given.Null? ==> r == None
    ensures given.Value? ==> r == Some(given.value)
  {
    match given
    case Undefined => current
    case Null => None
    case Value(v) => Some(v)
  }

  /** A key that is larger than every key in use, so a new record never overwrites one. */
  method FreshKey<V>(m: map<Id, V>) returns (k: Id)
    ensures k !in m
    ensures forall j :: j in m ==> j < k
  {
    k := 0;
    var rest := m.Keys;
    while rest != {}
      invariant rest <= m.Keys
      invariant forall j :: j in m && j !in rest ==> j < k
      decreases rest
    {
      var j :| j in rest;
      if k <= j {
        k := j + 1;
      }
      rest := rest - {j};
    }
  }

  /** Inserts the values one after another, each under a fresh key (a `createMany`),
      and returns the keys in the order of the values. */
  method InsertAll<V>(m: map<Id, V>, xs: seq<V>) returns (m': map<Id, V>, keys: seq<Id>)
    ensures |keys| == |xs|
    ensures forall i :: 0 <= i < |xs| ==> keys[i] !in m && keys[i] in m' && m'[keys[i]] == xs[i]
    ensures forall i, j :: 0 <= i < j < |keys| ==> keys[i] != keys[j]
    ensures m'.Keys == m.Keys + (set k | k in keys)
    ensures forall k :: k in m ==> k in m' && m'[k] == m[k]
  {
    m', keys := m, [];
    for n := 0 to |xs|
      invariant |keys| == n
      invariant forall i :: 0 <= i < n ==> keys[i] !in m && keys[i] in m' && m'[keys[i]] == xs[i]
      invariant forall i, j :: 0 <= i < j < n ==> keys[i] != keys[j]
      invariant m'.Keys == m.Keys + (set k | k in keys)
      invariant forall k :: k in m ==> k in m' && m'[k] == m[k]
    {
      var k := FreshKey(m');
      m' := m'[k := xs[n]];
      keys := keys + [k];
    }
  }

  /** Decimal digits of a natural number, as `${n}` prints it. */
  function NatToString(n: nat): (s: string)
    ensures |s| >= 1
    ensures forall i :: 0 <= i < |s| ==> '0' <= s[i] <= '9'
    decreases n
  {
    if n < 10 then [Digit(n)] else NatToString(n / 10) + [Digit(n % 10)]
  }

  function Digit(d: nat): (c: char)
    requires d < 10
    ensures '0' <= c <= '9'
  {
    ['0', '1', '2', '3', '4', '5', '6', '7', '8', '9'][d]
  }

  /** The value of a string of decimal digits. */
  function DigitsValue(s: string): (n: nat)
    requires forall i :: 0 <= i < |s| ==> '0' <= s[i] <= '9'
    decreases |s|
  {
    if s == [] then 0 else 10 * DigitsValue(s[..|s| - 1]) + (s[|s| - 1] as int - '0' as int)
  }

  lemma {:induction false} DigitsValueOfNatToString(n: nat)
    ensures DigitsValue(NatToString(n)) == n
    decreases n
  {
    if n >= 10 {
      var s := NatToString(n / 10) + [Digit(n % 10)];
      assert s[..|s| - 1] == NatToString(n / 10);
      DigitsValueOfNatToString(n / 10);
      assert Digit(n % 10) as int - '0' as int == n % 10;
    } else {
      assert Digit(n) as int - '0' as int == n;
      assert NatToString(n)[..0] == [];
    }
  }

  /** All characters are decimal digits (the empty string included). */
  predicate AllDigits(s: string) {
    forall i :: 0 <= i < |s| ==> '0' <= s[i] <= '9'
  }

  /** A minus sign followed by at least one decimal digit. */
  predicate NegativeNumeral(s: string) {
    |s| >= 2 && s[0] == '-' && AllDigits(s[1..])
  }

  /** JavaScript's `Number(s)` on the strings the model reads: decimal digits (the empty
      string is 0) and a minus followed by digits; anything else is NaN (None). */
  function NumeralValue(s: string): (r: Option<int>)
    ensures r.Some? <==> AllDigits(s) || NegativeNumeral(s)
    ensures AllDigits(s) ==> r == Some(DigitsValue(s))
    ensures NegativeNumeral(s) ==> r == Some(-(DigitsValue(s[1..]) as int))
  {
    if AllDigits(s) then Some(DigitsValue(s))
    else if NegativeNumeral(s) then Some(-(DigitsValue(s[1..]) as int))
    else None
  }

  /** An integer written in decimal, with a minus when negative. */
  function IntToString(n: int): (s: string)
  {
    if n < 0 then "-" + NatToString(-n) else NatToString(n)
  }

  /** Every integer written in decimal reads back as itself. */
  lemma {:induction false} NumeralValueOfIntToString(n: int)
    ensures NumeralValue(IntToString(n)) == Some(n)
  {
    if n < 0 {
      var t := NatToString(-n);
      var s := "-" + t;
      assert IntToString(n) == s;
      assert s[1..] == t;
      assert s[0] == '-';
      assert NegativeNumeral(s);
      DigitsValueOfNatToString(-n);
    } else {
      assert AllDigits(NatToString(n));
      DigitsValueOfNatToString(n);
    }
  }

  /** JavaScript's `s.split(c)`: the pieces between the separators, at least one. */
  function Split(s: string, c: char): (parts: seq<string>)
    ensures |parts| >= 1
    decreases |s|
  {
    if |s| == 0 then [""]
    else
      var rest := Split(s[1..], c);
      if s[0] == c then [""] + rest else [[s[0]] + rest[0]] + rest[1..]
  }

  /** `parts.join(c)`. */
  function Join(parts: seq<string>, c: char): string
    requires |parts| >= 1
    decreases |parts|
  {
    if |parts| == 1 then parts[0] else parts[0] + [c] + Join(parts[1..], c)
  }

  /** Splitting loses nothing: joining the pieces gives the string back. */
  lemma {:induction false} JoinSplit(s: string, c: char)
    ensures Join(Split(s, c), c) == s
    decreases |s|
  {
    if |s| > 0 {
      var rest := Split(s[1..], c);
      JoinSplit(s[1..], c);
      if s[0] == c {
        assert Split(s, c)[1..] == rest;
      } else {
        var parts := Split(s, c);
        if |rest| == 1 {
          assert parts == [[s[0]] + rest[0]];
        } else {
          assert parts[1..] == rest[1..];
          assert Join(rest, c) == rest[0] + [c] + Join(rest[1..], c);
        }
      }
    }
  }

  /** A string without the separator is one piece. */
  lemma {:induction false} SplitWithoutSeparator(s: string, c: char)
    requires c !in s
    ensures Split(s, c) == [s]
    decreases |s|
  {
    if |s| > 0 {
      assert c !in s[1..] by {
        forall i | 0 <= i < |s[1..]| ensures s[1..][i] != c {
          assert s[1..][i] == s[i + 1];
        }
      }
      SplitWithoutSeparator(s[1..], c);
      assert [s[0]] + s[1..] == s;
    }
  }

  /** A piece before the first separator is split off unchanged. */
  lemma {:induction false} SplitAtSeparator(a: string, c: char, b: string)
    requires c !in a
    ensures Split(a + [c] + b, c) == [a] + Split(b, c)
    decreases |a|
  {
    if |a| == 0 {
      assert a + [c] + b == [c] + b;
      assert ([c] + b)[1..] == b;
    } else {
      assert c !in a[1..] by {
        forall i | 0 <= i < |a[1..]| ensures a[1..][i] != c {
          assert a[1..][i] == a[i + 1];
        }
      }
      SplitAtSeparator(a[1..], c, b);
      assert (a + [c] + b)[1..] == a[1..] + [c] + b;
      assert [a[0]] + a[1..] == a;
    }
  }

  /** Joining pieces that do not contain the separator and splitting again gives the pieces back. */
  lemma {:induction false} SplitJoin(parts: seq<string>, c: char)
    requires |parts| >= 1
    requires forall i :: 0 <= i < |parts| ==> c !in parts[i]
    ensures Split(Join(parts, c), c) == parts
    ensures |parts| >= 2 ==> c in Join(parts, c)
    decreases |parts|
  {
    if |parts| == 1 {
      SplitWithoutSeparator(parts[0], c);
    } else {
      SplitJoin(parts[1..], c);
      SplitAtSeparator(parts[0], c, Join(parts[1..], c));
      assert (parts[0] + [c] + Join(parts[1..], c))[|parts[0]|] == c;
      assert [parts[0]] + parts[1..] == parts;
    }
  }
}
