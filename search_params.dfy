/** The part of the WHATWG URL Standard's `URLSearchParams` (section 6.2)
    that the router uses: `get`, `set`, `sort` and the stringifier, over
    the list of name-value pairs. */
module SearchParams {
  import opened Common

  /** A name-value pair of the query. */
  type Param = (string, string)

  /** The pairs of `q` whose name is `n`, in their order in `q`. */
  function Named(q: seq<Param>, n: string): (r: seq<Param>)
    ensures |r| <= |q|
    ensures forall i :: 0 <= i < |r| ==> r[i].0 == n
  {
    if q == [] then []
    else (if q[0].0 == n then [q[0]] else []) + Named(q[1..], n)
  }

  /** `a` and `b` hold the same pairs under every name, in the same relative
      order: one is a rearrangement of the other that keeps the order of the
      pairs sharing a name. */
  ghost predicate SameByName(a: seq<Param>, b: seq<Param>)
  {
    forall n :: Named(a, n) == Named(b, n)
  }

  lemma {:induction false} NamedAppend(a: seq<Param>, b: seq<Param>, n: string)
    ensures Named(a + b, n) == Named(a, n) + Named(b, n)
  {
    if a != [] {
      assert (a + b)[1..] == a[1..] + b;
      NamedAppend(a[1..], b, n);
    } else {
      assert a + b == b;
    }
  }

  /** No pair of `q` is named `n` exactly when `Named(q, n)` is empty. */
  lemma {:induction false} NamedEmpty(q: seq<Param>, n: string)
    ensures Named(q, n) == [] <==> forall i :: 0 <= i < |q| ==> q[i].0 != n
  {
    if q != [] {
      NamedEmpty(q[1..], n);
      assert forall i :: 1 <= i < |q| ==> q[i] == q[1..][i - 1];
    }
  }

  /** The occurrences of a pair in `Named(q, n)` are its occurrences in `q`
      when it is named `n`, and none otherwise. */
  lemma {:induction false} NamedCount(q: seq<Param>, n: string, p: Param)
    ensures multiset(Named(q, n))[p] == if p.0 == n then multiset(q)[p] else 0
  {
    if q != [] {
      NamedCount(q[1..], n, p);
      assert q == [q[0]] + q[1..];
    }
  }

  /** Rearranging the pairs rearranges the pairs of each name. */
  lemma NamedPermutation(a: seq<Param>, b: seq<Param>, n: string)
    requires multiset(a) == multiset(b)
    ensures multiset(Named(a, n)) == multiset(Named(b, n))
  {
    forall p ensures multiset(Named(a, n))[p] == multiset(Named(b, n))[p] {
      NamedCount(a, n, p);
      NamedCount(b, n, p);
    }
  }

  /** Every name occurs at most once. */
  predicate DistinctNames(q: seq<Param>)
  {
    forall i, j :: 0 <= i < j < |q| ==> q[i].0 != q[j].0
  }

  lemma {:induction false} NamedOfDistinct(q: seq<Param>, n: string)
    requires DistinctNames(q)
    ensures |Named(q, n)| <= 1
  {
    if q != [] {
      NamedOfDistinct(q[1..], n);
      if q[0].0 == n {
        NamedEmpty(q[1..], n);
        assert forall i :: 0 <= i < |q[1..]| ==> q[1..][i] == q[i + 1];
      }
    }
  }

  /** A rearrangement of a query whose names are distinct keeps the pairs
      of each name in the same relative order (there is only one). */
  lemma PermutationOfDistinct(a: seq<Param>, b: seq<Param>)
    requires multiset(a) == multiset(b)
    requires DistinctNames(a)
    ensures SameByName(a, b)
  {
    forall n ensures Named(a, n) == Named(b, n) {
      NamedOfDistinct(a, n);
      NamedPermutation(a, b, n);
      var x, y := Named(a, n), Named(b, n);
      assert |y| == |multiset(y)| == |multiset(x)| == |x|;
      if |x| == 1 {
        assert y[0] in multiset(x);
        assert x == [x[0]] && y == [y[0]];
      }
    }
  }

  // ---------------------------------------------------------------- get

  /** `get(n)`: the value of the first pair named `n`, or null. */
  function FirstValue(q: seq<Param>, n: string): (r: Option<string>)
    ensures r == if Named(q, n) == [] then None else Some(Named(q, n)[0].1)
  {
    if q == [] then None
    else if q[0].0 == n then Some(q[0].1)
    else FirstValue(q[1..], n)
  }

  /** `get` looks only at the pairs of the name it is asked for. */
  lemma FirstValueByName(a: seq<Param>, b: seq<Param>, n: string)
    requires Named(a, n) == Named(b, n)
    ensures FirstValue(a, n) == FirstValue(b, n)
  {
  }

  // ---------------------------------------------------------------- set

  /** The index of the first pair named `n`, or `|q|`. */
  function FirstIndex(q: seq<Param>, n: string): (i: nat)
    ensures i <= |q|
    ensures i < |q| ==> q[i].0 == n
    ensures forall j :: 0 <= j < i ==> q[j].0 != n
  {
    if q == [] || q[0].0 == n then 0 else 1 + FirstIndex(q[1..], n)
  }

  /** `q` with every pair named `n` removed. */
  function Without(q: seq<Param>, n: string): (r: seq<Param>)
    ensures forall i :: 0 <= i < |r| ==> r[i].0 != n
  {
    if q == [] then []
    else (if q[0].0 == n then [] else [q[0]]) + Without(q[1..], n)
  }

  lemma {:induction false} NamedWithout(q: seq<Param>, n: string, m: string)
    ensures Named(Without(q, n), m) == if m == n then [] else Named(q, m)
  {
    if q != [] {
      NamedWithout(q[1..], n, m);
      var head := if q[0].0 == n then [] else [q[0]];
      NamedAppend(head, Without(q[1..], n), m);
    }
  }

  /** `set(n, v)`: the first pair named `n` gets the value `v` in its place
      and the later ones are removed; with no such pair, `(n, v)` is
      appended. */
  function Assign(q: seq<Param>, n: string, v: string): seq<Param>
  {
    var i := FirstIndex(q, n);
    if i == |q| then q + [(n, v)] else q[..i] + [(n, v)] + Without(q[i + 1..], n)
  }

  /** After `set(n, v)` exactly one pair is named `n`, its value is `v`,
      and the pairs of every other name are those of before, in order. */
  lemma AssignNamed(q: seq<Param>, n: string, v: string, m: string)
    ensures Named(Assign(q, n, v), m) == if m == n then [(n, v)] else Named(q, m)
  {
    var i := FirstIndex(q, n);
    NoneNamedBefore(q, n);
    if i == |q| {
      assert q[..i] == q;
      AssignAppendsNamed(q, n, v, m);
    } else {
      AssignReplacesNamed(q, n, v, m, i);
    }
  }

  /** No pair before the first one named `n` is named `n`. */
  lemma NoneNamedBefore(q: seq<Param>, n: string)
    ensures Named(q[..FirstIndex(q, n)], n) == []
  {
    var i := FirstIndex(q, n);
    forall j | 0 <= j < i
      ensures q[..i][j].0 != n
    {
      assert q[..i][j] == q[j];
    }
    NamedEmpty(q[..i], n);
  }

  /** The case of `AssignNamed` where no pair is named `n`. */
  lemma AssignAppendsNamed(q: seq<Param>, n: string, v: string, m: string)
    requires Named(q, n) == []
    ensures Named(q + [(n, v)], m) == if m == n then [(n, v)] else Named(q, m)
  {
    NamedAppend(q, [(n, v)], m);
    assert [(n, v)][1..] == [];
  }

  /** The case of `AssignNamed` where a pair named `n` exists, at `i`. */
  lemma AssignReplacesNamed(q: seq<Param>, n: string, v: string, m: string, i: nat)
    requires i < |q| && q[i].0 == n && Named(q[..i], n) == []
    ensures Named(q[..i] + [(n, v)] + Without(q[i + 1..], n), m) == if m == n then [(n, v)] else Named(q, m)
  {
    if m == n {
      ReplacedName(q[..i], n, v, q[i + 1..]);
    } else {
      assert q == q[..i] + [q[i]] + q[i + 1..];
      ReplacedOtherName(q[..i], q[i], v, q[i + 1..], m);
    }
  }

  lemma ReplacedName(pre: seq<Param>, n: string, v: string, post: seq<Param>)
    requires Named(pre, n) == []
    ensures Named(pre + [(n, v)] + Without(post, n), n) == [(n, v)]
  {
    NamedAround(pre, (n, v), Without(post, n), n);
    NamedWithout(post, n, n);
    assert [] + [(n, v)] + [] == [(n, v)];
  }

  lemma ReplacedOtherName(pre: seq<Param>, p: Param, v: string, post: seq<Param>, m: string)
    requires p.0 != m
    ensures Named(pre + [(p.0, v)] + Without(post, p.0), m) == Named(pre + [p] + post, m)
  {
    NamedAround(pre, (p.0, v), Without(post, p.0), m);
    NamedWithout(post, p.0, m);
    NamedAround(pre, p, post, m);
  }

  /** Filtering around one pair. */
  lemma NamedAround(a: seq<Param>, p: Param, b: seq<Param>, n: string)
    ensures Named(a + [p] + b, n) == Named(a, n) + (if p.0 == n then [p] else []) + Named(b, n)
  {
    NamedAppend(a + [p], b, n);
    NamedAppend(a, [p], n);
    assert [p][1..] == [];
  }

  /** `set` acts on the pairs of each name only through those pairs: two
      queries that agree name by name still agree after the same `set`. */
  lemma AssignByName(a: seq<Param>, b: seq<Param>, n: string, v: string)
    requires SameByName(a, b)
    ensures SameByName(Assign(a, n, v), Assign(b, n, v))
  {
    forall m ensures Named(Assign(a, n, v), m) == Named(Assign(b, n, v), m) {
      AssignNamed(a, n, v, m);
      AssignNamed(b, n, v, m);
    }
  }

  // ---------------------------------------------------------------- sort

  /** Names are compared code unit by code unit; a proper prefix comes
      first. */
  predicate NameLe(a: string, b: string)
  {
    a == [] || (b != [] && (a[0] < b[0] || (a[0] == b[0] && NameLe(a[1..], b[1..]))))
  }

  lemma {:induction false} NameLeReflexive(a: string)
    ensures NameLe(a, a)
  {
    if a != [] {
      NameLeReflexive(a[1..]);
    }
  }

  lemma {:induction false} NameLeTotal(a: string, b: string)
    ensures NameLe(a, b) || NameLe(b, a)
  {
    if a != [] && b != [] && a[0] == b[0] {
      NameLeTotal(a[1..], b[1..]);
    }
  }

  lemma {:induction false} NameLeAntisymmetric(a: string, b: string)
    requires NameLe(a, b) && NameLe(b, a)
    ensures a == b
  {
    if a != [] && b != [] {
      NameLeAntisymmetric(a[1..], b[1..]);
      assert a == [a[0]] + a[1..] && b == [b[0]] + b[1..];
    }
  }

  lemma {:induction false} NameLeTransitive(a: string, b: string, c: string)
    requires NameLe(a, b) && NameLe(b, c)
    ensures NameLe(a, c)
  {
    if a != [] && b != [] && c != [] && a[0] == b[0] == c[0] {
      NameLeTransitive(a[1..], b[1..], c[1..]);
    }
  }

  /** Each pair's name is at most the next one's. */
  predicate SortedByName(q: seq<Param>)
  {
    forall i :: 0 < i < |q| ==> NameLe(q[i - 1].0, q[i].0)
  }

  /** Inserts `p` in front of the first pair whose name is not below its
      own, so that it precedes the pairs sharing its name. */
  function InsertByName(p: Param, s: seq<Param>): (r: seq<Param>)
    ensures |r| == |s| + 1
    ensures r[0] == p || (s != [] && r[0] == s[0])
  {
    if s == [] then [p]
    else if NameLe(p.0, s[0].0) then [p] + s
    else [s[0]] + InsertByName(p, s[1..])
  }

  /** `sort()`: a stable sort of the pairs by name, here an insertion sort
      from the back of the list. */
  function SortByName(q: seq<Param>): (r: seq<Param>)
    ensures |r| == |q|
  {
    if q == [] then [] else InsertByName(q[0], SortByName(q[1..]))
  }

  lemma {:induction false} InsertSorted(p: Param, s: seq<Param>)
    requires SortedByName(s)
    ensures SortedByName(InsertByName(p, s))
  {
    if s != [] && !NameLe(p.0, s[0].0) {
      NameLeTotal(p.0, s[0].0);
      InsertSorted(p, s[1..]);
      var t := InsertByName(p, s[1..]);
      assert NameLe(s[0].0, t[0].0);
      assert InsertByName(p, s) == [s[0]] + t;
    }
  }

  lemma {:induction false} InsertPermutation(p: Param, s: seq<Param>)
    ensures multiset(InsertByName(p, s)) == multiset{p} + multiset(s)
  {
    if s != [] && !NameLe(p.0, s[0].0) {
      InsertPermutation(p, s[1..]);
      assert s == [s[0]] + s[1..];
    }
  }

  /** Insertion puts `p` in front of every pair of `s` sharing its name. */
  lemma {:induction false} InsertNamed(p: Param, s: seq<Param>, n: string)
    ensures Named(InsertByName(p, s), n) == Named([p] + s, n)
  {
    if s != [] && !NameLe(p.0, s[0].0) {
      InsertNamed(p, s[1..], n);
      NameLeReflexive(p.0);
      assert s[0].0 != p.0;
      assert ([p] + s)[1..] == s;
      assert ([p] + s[1..])[1..] == s[1..];
      assert InsertByName(p, s)[1..] == InsertByName(p, s[1..]);
    }
  }

  /** `sort()` orders the pairs by name. */
  lemma {:induction false} SortSorted(q: seq<Param>)
    ensures SortedByName(SortByName(q))
  {
    if q != [] {
      SortSorted(q[1..]);
      InsertSorted(q[0], SortByName(q[1..]));
    }
  }

  /** `sort()` only rearranges the pairs. */
  lemma {:induction false} SortPermutation(q: seq<Param>)
    ensures multiset(SortByName(q)) == multiset(q)
  {
    if q != [] {
      SortPermutation(q[1..]);
      InsertPermutation(q[0], SortByName(q[1..]));
      assert q == [q[0]] + q[1..];
    }
  }

  /** `sort()` is stable: the pairs sharing a name keep their relative
      order. */
  lemma {:induction false} SortStable(q: seq<Param>, n: string)
    ensures Named(SortByName(q), n) == Named(q, n)
  {
    if q != [] {
      SortStable(q[1..], n);
      var s := SortByName(q[1..]);
      InsertNamed(q[0], s, n);
      assert ([q[0]] + s)[1..] == s;
    }
  }

  /** In a sorted query the first pair's name is at most every name that
      occurs in it. */
  lemma {:induction false} SortedFirstLeast(a: seq<Param>, y: string)
    requires SortedByName(a) && a != [] && Named(a, y) != []
    ensures NameLe(a[0].0, y)
  {
    if a[0].0 == y {
      NameLeReflexive(y);
    } else {
      assert Named(a[1..], y) != [];
      assert a[1..][0] == a[1];
      SortedFirstLeast(a[1..], y);
      NameLeTransitive(a[0].0, a[1].0, y);
    }
  }

  /** There is only one sorted arrangement of a query that keeps the order
      of the pairs sharing a name. */
  lemma {:induction false} SortedUnique(a: seq<Param>, b: seq<Param>)
    requires SortedByName(a) && SortedByName(b)
    requires SameByName(a, b)
    ensures a == b
    decreases |a|
  {
    assert a != [] ==> Named(a, a[0].0) != [];
    assert b != [] ==> Named(b, b[0].0) != [];
    if a != [] && b != [] {
      var x, y := a[0].0, b[0].0;
      assert Named(b, y) != [];
      assert Named(a, x) != [];
      SortedFirstLeast(a, y);
      SortedFirstLeast(b, x);
      NameLeAntisymmetric(x, y);
      assert a[0] == Named(a, x)[0] == Named(b, x)[0] == b[0];
      forall n ensures Named(a[1..], n) == Named(b[1..], n) {
        var h := if x == n then [a[0]] else [];
        assert Named(a, n) == h + Named(a[1..], n);
        assert Named(b, n) == h + Named(b[1..], n);
        assert Named(a, n) == Named(b, n);
        assert (h + Named(a[1..], n))[|h|..] == Named(a[1..], n);
        assert (h + Named(b[1..], n))[|h|..] == Named(b[1..], n);
      }
      SortedUnique(a[1..], b[1..]);
      assert a == [a[0]] + a[1..] && b == [b[0]] + b[1..];
    }
  }

  /** The sorted list depends only on the pairs of each name and their
      relative order, not on how the names are interleaved. */
  lemma SortByNameDetermined(a: seq<Param>, b: seq<Param>)
    requires SameByName(a, b)
    ensures SortByName(a) == SortByName(b)
  {
    SortSorted(a);
    SortSorted(b);
    forall n ensures Named(SortByName(a), n) == Named(SortByName(b), n) {
      SortStable(a, n);
      SortStable(b, n);
    }
    SortedUnique(SortByName(a), SortByName(b));
  }

  /** Sorting a sorted query changes nothing. */
  lemma SortOfSorted(q: seq<Param>)
    requires SortedByName(q)
    ensures SortByName(q) == q
  {
    SortSorted(q);
    forall n ensures Named(SortByName(q), n) == Named(q, n) {
      SortStable(q, n);
    }
    SortedUnique(SortByName(q), q);
  }

  // ---------------------------------------------------------------- toString

  /** `name=value`. */
  function PairText(p: Param): string
  {
    p.0 + "=" + p.1
  }

  /** The stringifier: the pairs joined by `&`, with the percent-encoding
      of names and values left out. */
  function Serialize(q: seq<Param>): string
  {
    if q == [] then ""
    else if |q| == 1 then PairText(q[0])
    else PairText(q[0]) + "&" + Serialize(q[1..])
  }

  /** A non-empty query serialises to a text holding `=`. */
  lemma SerializeHasEquals(q: seq<Param>)
    requires q != []
    ensures '=' in Serialize(q)
  {
    var t := PairText(q[0]);
    assert t[|q[0].0|] == '=';
    if |q| > 1 {
      assert Serialize(q)[|q[0].0|] == '=';
    }
  }

  /** A `URLSearchParams` object: its list is reassigned by `set` and
      `sort`. */
  class ParamList {
    var list: seq<Param>

    constructor (init: seq<Param>)
      ensures list == init
    {
      list := init;
    }

    method Get(name: string) returns (v: Option<string>)
      ensures v == FirstValue(list, name)
    {
      v := FirstValue(list, name);
    }

    method Set(name: string, value: string)
      modifies this
      ensures list == Assign(old(list), name, value)
    {
      list := Assign(list, name, value);
    }

    method Sort()
      modifies this
      ensures list == SortByName(old(list))
    {
      list := SortByName(list);
    }

    method ToString() returns (s: string)
      ensures s == Serialize(list)
    {
      s := Serialize(list);
    }
  }
}
