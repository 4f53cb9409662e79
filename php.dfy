/**
 * The few PHP value semantics the plugin relies on: `empty()`, reading an
 * unset array key, `substr` with a negative start, `array_unique` and `sort`
 * on lists of strings.
 */
module Php {

  datatype Option<T> = None | Some(value: T)

  /** A PHP associative array whose keys and values are strings. */
  type Data = map<string, string>

  /** `empty($s)` on a string: the empty string and "0" are empty. */
  predicate Empty(s: string)
  {
    s == "" || s == "0"
  }

  /** `empty($m[$k])`: an unset key is empty as well. */
  predicate EmptyAt(m: Data, k: string)
  {
    k !in m || Empty(m[k])
  }

  /** `empty($o->p)` for an optional string property. */
  predicate EmptyOpt(o: Option<string>)
  {
    o.None? || Empty(o.value)
  }

  /** `$m[$k]` used as a string: an unset key reads as null, which compares and
      concatenates as "". */
  function Get(m: Data, k: string): (r: string)
  {
    if k in m then m[k] else ""
  }

  /** An optional string property used as a string. */
  function OrEmpty(o: Option<string>): string
  {
    if o.Some? then o.value else ""
  }

  /** `substr($s, -n)`: the last n characters, or all of s when it is shorter. */
  function SubstrLast(s: string, n: nat): (r: string)
    ensures |r| == if |s| < n then |s| else n
    ensures r == s[|s| - |r|..]
  {
    if |s| <= n then s else s[|s| - n..]
  }

  /** Decimal rendering of a non-negative integer, as PHP's string conversion.
      It stands for the blog id copied into `$data['blogid']`, which the
      database hands over as such a string; nothing later reads that key,
      so it fixes a representation rather than a behaviour. */
  function Decimal(n: nat): (r: string)
    ensures |r| > 0
    ensures forall i :: 0 <= i < |r| ==> '0' <= r[i] <= '9'
  {
    var d := ['0' + (n % 10) as char];
    if n < 10 then d else Decimal(n / 10) + d
  }

  /** The number a string of decimal digits denotes. */
  function DecimalValue(s: string): (r: nat)
    requires forall i :: 0 <= i < |s| ==> '0' <= s[i] <= '9'
  {
    if s == [] then 0
    else 10 * DecimalValue(s[..|s| - 1]) + (s[|s| - 1] - '0') as nat
  }

  /** The rendering names the number it renders, with no leading zero. */
  lemma {:induction false} DecimalRoundTrip(n: nat)
    ensures DecimalValue(Decimal(n)) == n
    ensures Decimal(n)[0] != '0' || n == 0
    decreases n
  {
    var r := Decimal(n);
    if n >= 10 {
      DecimalRoundTrip(n / 10);
      assert r[..|r| - 1] == Decimal(n / 10);
    }
  }

  /** The set of elements of a list. */
  function Elems(s: seq<string>): (r: set<string>)
    ensures forall x :: x in r <==> x in s
  {
    set x | x in s
  }

  predicate Distinct<T(==)>(s: seq<T>)
  {
    forall i, j :: 0 <= i < j < |s| ==> s[i] != s[j]
  }

  /** Two lists without repetition and without a common value concatenate
      to a list without repetition. */
  lemma DistinctConcat(a: seq<string>, b: seq<string>)
    requires Distinct(a) && Distinct(b)
    requires forall x :: x in a ==> x !in b
    ensures Distinct(a + b)
  {
    forall i, j | 0 <= i < j < |a + b|
      ensures (a + b)[i] != (a + b)[j]
    {
      if i < |a| <= j {
        assert (a + b)[i] == a[i] && (a + b)[j] == b[j - |a|];
        assert a[i] in a;
      } else if |a| <= i {
        assert (a + b)[i] == b[i - |a|] && (a + b)[j] == b[j - |a|];
      }
    }
  }

  /** `array_unique`: keeps the first occurrence of each value, in order. */
  function Unique(s: seq<string>): (r: seq<string>)
    ensures Distinct(r)
    ensures forall x :: x in r <==> x in s
    decreases |s|
  {
    if s == [] then []
    else
      var p := Unique(s[..|s| - 1]);
      var x := s[|s| - 1];
      if x in s[..|s| - 1] then p else p + [x]
  }

  /** A list with no repetition is its own `array_unique`. */
  lemma {:induction false} UniqueOfDistinct(s: seq<string>)
    requires Distinct(s)
    ensures Unique(s) == s
    decreases |s|
  {
    if s != [] {
      var p := s[..|s| - 1];
      assert Distinct(p);
      UniqueOfDistinct(p);
      assert s[|s| - 1] !in p;
      assert p + [s[|s| - 1]] == s;
    }
  }

  /** `array_unique` never reorders: what it keeps of s is kept, in the same
      order, at the front of what it keeps of s + t. */
  lemma {:induction false} UniquePrefix(s: seq<string>, t: seq<string>)
    ensures |Unique(s)| <= |Unique(s + t)|
    ensures Unique(s + t)[..|Unique(s)|] == Unique(s)
    decreases |t|
  {
    if t == [] {
      assert s + t == s;
    } else {
      var t' := t[..|t| - 1];
      UniquePrefix(s, t');
      assert (s + t)[..|s + t| - 1] == s + t';
    }
  }

  /** Bytewise string order, the comparison `sort()` applies to two
      non-numeric strings. */
  predicate Below(a: string, b: string)
    decreases |a|
  {
    if a == [] then b != []
    else if b == [] then false
    else if a[0] != b[0] then a[0] < b[0]
    else Below(a[1..], b[1..])
  }

  lemma {:induction false} BelowIrreflexive(a: string)
    ensures !Below(a, a)
    decreases |a|
  {
    if a != [] {
      BelowIrreflexive(a[1..]);
    }
  }

  lemma {:induction false} BelowTransitive(a: string, b: string, c: string)
    requires Below(a, b) && Below(b, c)
    ensures Below(a, c)
    decreases |a|
  {
    if a != [] && b != [] && c != [] && a[0] == b[0] && b[0] == c[0] {
      BelowTransitive(a[1..], b[1..], c[1..]);
    }
  }

  lemma {:induction false} BelowTotal(a: string, b: string)
    ensures a == b || Below(a, b) || Below(b, a)
    decreases |a|
  {
    if a != [] && b != [] && a[0] == b[0] {
      BelowTotal(a[1..], b[1..]);
      if a[1..] == b[1..] {
        assert a == [a[0]] + a[1..] && b == [b[0]] + b[1..];
      }
    }
  }

  /** Non-decreasing in the bytewise order. */
  predicate Ordered(s: seq<string>)
  {
    forall i, j :: 0 <= i < j < |s| ==> !Below(s[j], s[i])
  }

  /** Strictly increasing in the bytewise order. */
  predicate Ascending(s: seq<string>)
  {
    forall i, j :: 0 <= i < j < |s| ==> Below(s[i], s[j])
  }

  /** Puts x into an ordered list in front of the first element above it. */
  function Insert(x: string, s: seq<string>): (r: seq<string>)
    requires Ordered(s)
    ensures Ordered(r)
    ensures multiset(r) == multiset(s) + multiset{x}
    ensures Distinct(s) && x !in s ==> Distinct(r)
    decreases |s|
  {
    if s == [] then [x]
    else if !Below(s[0], x) then
      BelowNotBoth(s, x);
      [x] + s
    else
      var t := Insert(x, s[1..]);
      InsertBehindHead(s, x, t);
      [s[0]] + t
  }

  /** The facts about [s[0]] + t that Insert needs on its third branch. */
  lemma InsertBehindHead(s: seq<string>, x: string, t: seq<string>)
    requires Ordered(s) && s != [] && Below(s[0], x)
    requires Ordered(t) && multiset(t) == multiset(s[1..]) + multiset{x}
    requires Distinct(s[1..]) && x !in s[1..] ==> Distinct(t)
    ensures Ordered([s[0]] + t)
    ensures multiset([s[0]] + t) == multiset(s) + multiset{x}
    ensures Distinct(s) && x !in s ==> Distinct([s[0]] + t)
  {
    assert s == [s[0]] + s[1..];
    InsertKeepsLow(s, x, t);
    if Distinct(s) && x !in s {
      assert Distinct(s[1..]);
      assert s[0] !in multiset(t) by {
        assert s[0] !in s[1..];
        BelowIrreflexive(x);
      }
      ConsDistinct(s[0], t);
    }
  }

  lemma ConsDistinct(a: string, t: seq<string>)
    requires Distinct(t) && a !in t
    ensures Distinct([a] + t)
  {
    var u := [a] + t;
    forall i, j | 0 <= i < j < |u|
      ensures u[i] != u[j]
    {
      assert u[j] == t[j - 1];
      if i > 0 { assert u[i] == t[i - 1]; }
    }
  }

  /** When x is not above the head of an ordered list, it is not above any
      element of it. */
  lemma BelowNotBoth(s: seq<string>, x: string)
    requires Ordered(s) && s != [] && !Below(s[0], x)
    ensures forall j :: 0 <= j < |s| ==> !Below(s[j], x)
  {
    forall j | 0 <= j < |s|
      ensures !Below(s[j], x)
    {
      if j > 0 && Below(s[j], x) {
        BelowTotal(s[0], s[j]);
        assert !Below(s[j], s[0]);
        if s[0] == s[j] {
        } else {
          BelowTransitive(s[0], s[j], x);
        }
      }
    }
  }

  /** The head of an ordered list stays in front of its insertion into the
      tail, when the head is below the inserted value. */
  lemma InsertKeepsLow(s: seq<string>, x: string, t: seq<string>)
    requires Ordered(s) && s != [] && Below(s[0], x)
    requires Ordered(t) && multiset(t) == multiset(s[1..]) + multiset{x}
    ensures Ordered([s[0]] + t)
  {
    forall j | 0 <= j < |t|
      ensures !Below(t[j], s[0])
    {
      assert t[j] in multiset(t);
      if t[j] == x {
        BelowIrreflexive(s[0]);
        if Below(x, s[0]) { BelowTransitive(x, s[0], x); BelowIrreflexive(x); }
      } else {
        assert t[j] in multiset(s[1..]);
        var k :| 0 <= k < |s[1..]| && s[1..][k] == t[j];
        assert s[k + 1] == t[j];
      }
    }
  }

  /** PHP's `sort()` on a list of non-numeric strings. */
  function Sort(s: seq<string>): (r: seq<string>)
    ensures Ordered(r)
    ensures multiset(r) == multiset(s)
    ensures Distinct(s) ==> Distinct(r)
    decreases |s|
  {
    if s == [] then []
    else
      var t := Sort(s[1..]);
      assert s == [s[0]] + s[1..];
      assert Distinct(s) ==> s[0] !in multiset(t);
      Insert(s[0], t)
  }

  /** An ordered list without repetition is strictly increasing. */
  lemma OrderedDistinctAscending(s: seq<string>)
    requires Ordered(s) && Distinct(s)
    ensures Ascending(s)
  {
    forall i, j | 0 <= i < j < |s|
      ensures Below(s[i], s[j])
    {
      BelowTotal(s[i], s[j]);
    }
  }
}
