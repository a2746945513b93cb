/**
 * The records the endpoint detector produces and the two orders it puts
 * them in: endpoints by `(file, line)` with Python's stable `list.sort`,
 * AJAX calls by the whole `(file, line, call)` tuple with `sorted`.
 */
module EndpointRecords {
  import opened Wrappers
  import opened Text

  /** One `(file, line, framework, method, endpoint)` tuple; `route` is `None` when the route group did not take part. */
  datatype Endpoint = Endpoint(file: string, line: nat, framework: string, verb: string, route: Option<string>)

  /** One `(file, line, call)` tuple of the AJAX set. */
  datatype AjaxCall = AjaxCall(file: string, line: nat, url: string)

  // ---------------------------------------------------------------- the (file, line) order

  /** `(a.file, a.line) <= (b.file, b.line)` on Python tuples. */
  predicate KeyLe(a: Endpoint, b: Endpoint) {
    StrLt(a.file, b.file) || (a.file == b.file && a.line <= b.line)
  }

  predicate SameKey(a: Endpoint, b: Endpoint) {
    a.file == b.file && a.line == b.line
  }

  lemma KeyLeTotal(a: Endpoint, b: Endpoint)
    ensures KeyLe(a, b) || KeyLe(b, a)
  {
    StrLeTotal(a.file, b.file);
  }

  lemma KeyLeTrans(a: Endpoint, b: Endpoint, c: Endpoint)
    requires KeyLe(a, b) && KeyLe(b, c)
    ensures KeyLe(a, c)
  {
    if StrLt(a.file, b.file) && StrLt(b.file, c.file) {
      StrLeTrans(a.file, b.file, c.file);
      if a.file == c.file {
        StrLeAntisym(a.file, b.file);
      }
    }
  }

  /** Every record is at or before every later one in `(file, line)` order. */
  predicate Sorted(s: seq<Endpoint>) {
    forall i, j :: 0 <= i < j < |s| ==> KeyLe(s[i], s[j])
  }

  /**
   * Inserting `x` into a sorted list the way a stable sort does: after every
   * element whose key is not greater than `x`'s.
   */
  function InsertKey(t: seq<Endpoint>, x: Endpoint): seq<Endpoint>
    decreases |t|
  {
    if t == [] then [x]
    else if KeyLe(t[|t| - 1], x) then t + [x]
    else InsertKey(t[..|t| - 1], x) + [t[|t| - 1]]
  }

  /** The raw endpoint list sorted by `(file, line)`, stably, as Python's list sort is. */
  function SortByFileLine(s: seq<Endpoint>): seq<Endpoint>
    decreases |s|
  {
    if s == [] then [] else InsertKey(SortByFileLine(s[..|s| - 1]), s[|s| - 1])
  }

  lemma {:induction false} InsertKeyPermutation(t: seq<Endpoint>, x: Endpoint)
    ensures multiset(InsertKey(t, x)) == multiset(t) + multiset{x}
    decreases |t|
  {
    if t != [] {
      assert t == t[..|t| - 1] + [t[|t| - 1]];
      if !KeyLe(t[|t| - 1], x) {
        InsertKeyPermutation(t[..|t| - 1], x);
      }
    }
  }

  lemma {:induction false} InsertKeySorted(t: seq<Endpoint>, x: Endpoint)
    requires Sorted(t)
    ensures Sorted(InsertKey(t, x))
    decreases |t|
  {
    if t != [] {
      var last := t[|t| - 1];
      var init := t[..|t| - 1];
      if KeyLe(last, x) {
        forall i | 0 <= i < |t| ensures KeyLe(t[i], x) {
          if i < |t| - 1 { KeyLeTrans(t[i], last, x); }
        }
      } else {
        KeyLeTotal(last, x);
        InsertKeySorted(init, x);
        InsertKeyPermutation(init, x);
        var u := InsertKey(init, x);
        forall i | 0 <= i < |u| ensures KeyLe(u[i], last) {
          assert u[i] in multiset(u);
          if u[i] != x {
            assert u[i] in multiset(init);
            var k :| 0 <= k < |init| && init[k] == u[i];
            assert t[k] == u[i];
          }
        }
      }
    }
  }

  /** The sorted list is ordered by `(file, line)`. */
  lemma {:induction false} SortByFileLineSorted(s: seq<Endpoint>)
    ensures Sorted(SortByFileLine(s))
    decreases |s|
  {
    if s != [] {
      SortByFileLineSorted(s[..|s| - 1]);
      InsertKeySorted(SortByFileLine(s[..|s| - 1]), s[|s| - 1]);
    }
  }

  /** Sorting neither drops nor duplicates a record: the output is a permutation of the input. */
  lemma {:induction false} SortByFileLinePermutation(s: seq<Endpoint>)
    ensures multiset(SortByFileLine(s)) == multiset(s)
    decreases |s|
  {
    if s != [] {
      var init, last := s[..|s| - 1], s[|s| - 1];
      var t := SortByFileLine(init);
      SortByFileLinePermutation(init);
      InsertKeyPermutation(t, last);
      MultisetSnoc(s);
      calc {
        multiset(SortByFileLine(s));
        multiset(InsertKey(t, last));
        multiset(t) + multiset{last};
        multiset(init) + multiset{last};
        multiset(s);
      }
    }
  }

  lemma MultisetSnoc<T>(s: seq<T>)
    requires s != []
    ensures multiset(s) == multiset(s[..|s| - 1]) + multiset{s[|s| - 1]}
  {
    assert s == s[..|s| - 1] + [s[|s| - 1]];
  }

  /** The records of `s` whose key is `(f, l)`, in their order in `s`. */
  function WithKey(s: seq<Endpoint>, f: string, l: nat): seq<Endpoint>
    decreases |s|
  {
    if s == [] then []
    else WithKey(s[..|s| - 1], f, l) + (if s[|s| - 1].file == f && s[|s| - 1].line == l then [s[|s| - 1]] else [])
  }

  lemma {:induction false} WithKeyAppend(a: seq<Endpoint>, b: seq<Endpoint>, f: string, l: nat)
    ensures WithKey(a + b, f, l) == WithKey(a, f, l) + WithKey(b, f, l)
    decreases |b|
  {
    if b != [] {
      assert (a + b)[..|a + b| - 1] == a + b[..|b| - 1];
      WithKeyAppend(a, b[..|b| - 1], f, l);
    } else {
      assert a + b == a;
    }
  }

  lemma {:induction false} InsertKeyStable(t: seq<Endpoint>, x: Endpoint, f: string, l: nat)
    ensures WithKey(InsertKey(t, x), f, l) == WithKey(t, f, l) + WithKey([x], f, l)
    decreases |t|
  {
    if t == [] {
    } else if KeyLe(t[|t| - 1], x) {
      WithKeyAppend(t, [x], f, l);
    } else {
      var init := t[..|t| - 1];
      var last := t[|t| - 1];
      InsertKeyStable(init, x, f, l);
      WithKeyAppend(InsertKey(init, x), [last], f, l);
      WithKeyAppend(init, [last], f, l);
      assert init + [last] == t;
      assert [x][..0] == [];
      assert [last][..0] == [];
      // x and last cannot both carry the key (f, l): equal keys would put last before x
    }
  }

  /** Stability: records with equal `(file, line)` keep the order in which they were found. */
  lemma {:induction false} SortByFileLineStable(s: seq<Endpoint>, f: string, l: nat)
    ensures WithKey(SortByFileLine(s), f, l) == WithKey(s, f, l)
    decreases |s|
  {
    if s != [] {
      var init, last := s[..|s| - 1], s[|s| - 1];
      assert SortByFileLine(s) == InsertKey(SortByFileLine(init), last);
      SortByFileLineStable(init, f, l);
      InsertKeyStable(SortByFileLine(init), last, f, l);
      WithKeyAppend(init, [last], f, l);
      assert init + [last] == s;
    }
  }

  /** One pass of the insertion sort: `a[i]` moves left past the greater records before it. */
  method InsertAt(a: array<Endpoint>, i: nat)
    requires i < a.Length
    modifies a
    ensures a[..i + 1] == InsertKey(old(a[..i]), old(a[i]))
    ensures a[i + 1..] == old(a[i + 1..])
  {
    var x := a[i];
    ghost var sorted := a[..i];
    ghost var after := a[i + 1..];
    var j := ShiftGreater(a, i, x);
    a[j] := x;
    ghost var placed := sorted[..j] + [x] + sorted[j..];
    forall k | 0 <= k <= i ensures a[k] == placed[k] {
      if k < j {
        assert placed[k] == sorted[k];
      } else if k > j {
        assert placed[k] == sorted[k - 1];
      }
    }
    assert a[..i + 1] == placed;
    assert a[i + 1..] == after;
  }

  /** Moves the records before `i` that are greater than `x` one place right and returns the gap left for `x`. */
  method ShiftGreater(a: array<Endpoint>, i: nat, x: Endpoint) returns (j: nat)
    requires i < a.Length
    modifies a
    ensures j <= i
    ensures forall k :: 0 <= k < j ==> a[k] == old(a[k])
    ensures forall k :: j < k <= i ==> a[k] == old(a[k - 1])
    ensures forall k :: i < k < a.Length ==> a[k] == old(a[k])
    ensures InsertKey(old(a[..i]), x) == old(a[..i])[..j] + [x] + old(a[..i])[j..]
  {
    ghost var sorted := a[..i];
    j := i;
    assert sorted[..j] == sorted && sorted[j..] == [];
    while j > 0 && !KeyLe(a[j - 1], x)
      invariant 0 <= j <= i
      invariant forall k :: 0 <= k < j ==> a[k] == old(a[k])
      invariant forall k :: j < k <= i ==> a[k] == old(a[k - 1])
      invariant forall k :: i < k < a.Length ==> a[k] == old(a[k])
      invariant InsertKey(sorted, x) == InsertKey(sorted[..j], x) + sorted[j..]
    {
      InsertKeyShift(sorted, x, j);
      a[j] := a[j - 1];
      j := j - 1;
    }
    InsertKeyStop(sorted, x, j);
  }

  /** Moving `x` one place left past a greater record. */
  lemma InsertKeyShift(sorted: seq<Endpoint>, x: Endpoint, j: nat)
    requires 0 < j <= |sorted| && !KeyLe(sorted[j - 1], x)
    ensures InsertKey(sorted[..j], x) + sorted[j..] == InsertKey(sorted[..j - 1], x) + sorted[j - 1..]
  {
    assert sorted[..j][..j - 1] == sorted[..j - 1];
    assert sorted[j - 1..] == [sorted[j - 1]] + sorted[j..];
  }

  /** `x` stays where the record before it is not greater. */
  lemma InsertKeyStop(sorted: seq<Endpoint>, x: Endpoint, j: nat)
    requires j <= |sorted| && (j == 0 || KeyLe(sorted[j - 1], x))
    ensures InsertKey(sorted[..j], x) == sorted[..j] + [x]
  {
    if j > 0 {
      assert sorted[..j][j - 1] == sorted[j - 1];
    }
  }

  /** `raw.sort(key=...)`: insertion sort in place, stable because a record never moves past an equal key. */
  method SortEndpoints(a: array<Endpoint>)
    modifies a
    ensures a[..] == SortByFileLine(old(a[..]))
  {
    ghost var input := a[..];
    var i := 0;
    while i < a.Length
      invariant 0 <= i <= a.Length
      invariant a[..i] == SortByFileLine(input[..i])
      invariant a[i..] == input[i..]
    {
      assert input[..i + 1][..i] == input[..i];
      assert input[i] == a[i];
      InsertAt(a, i);
      assert a[..i + 1] == SortByFileLine(input[..i + 1]);
      assert a[i + 1..] == input[i + 1..];
      i := i + 1;
    }
    assert input[..a.Length] == input;
  }

  // ---------------------------------------------------------------- the (file, line, call) order

  /** `a <= b` on `(file, line, call)` tuples. */
  predicate AjaxLe(a: AjaxCall, b: AjaxCall) {
    StrLt(a.file, b.file)
    || (a.file == b.file && (a.line < b.line || (a.line == b.line && StrLe(a.url, b.url))))
  }

  lemma AjaxLeTotal(a: AjaxCall, b: AjaxCall)
    ensures AjaxLe(a, b) || AjaxLe(b, a)
  {
    StrLeTotal(a.file, b.file);
    StrLeTotal(a.url, b.url);
  }

  lemma AjaxLeAntisym(a: AjaxCall, b: AjaxCall)
    requires AjaxLe(a, b) && AjaxLe(b, a)
    ensures a == b
  {
    if StrLt(a.file, b.file) {
      if a.file != b.file { StrLeAntisym(a.file, b.file); }
    } else if StrLt(b.file, a.file) {
      StrLeAntisym(a.file, b.file);
    } else {
      StrLeAntisym(a.url, b.url);
    }
  }

  lemma AjaxLeTrans(a: AjaxCall, b: AjaxCall, c: AjaxCall)
    requires AjaxLe(a, b) && AjaxLe(b, c)
    ensures AjaxLe(a, c)
  {
    if StrLt(a.file, b.file) && StrLt(b.file, c.file) {
      StrLeTrans(a.file, b.file, c.file);
      if a.file == c.file { StrLeAntisym(a.file, b.file); }
    } else if a.file == b.file && b.file == c.file && a.line == b.line && b.line == c.line {
      StrLeTrans(a.url, b.url, c.url);
    }
  }

  /** Strictly increasing: ordered and without repeats, as `sorted(set)` yields. */
  predicate StrictlySorted(s: seq<AjaxCall>) {
    forall i, j :: 0 <= i < j < |s| ==> AjaxLe(s[i], s[j]) && s[i] != s[j]
  }

  lemma {:induction false} MinimumExists(s: set<AjaxCall>)
    requires s != {}
    ensures exists m :: m in s && forall y :: y in s ==> AjaxLe(m, y)
    decreases |s|
  {
    var x :| x in s;
    if s - {x} == {} {
      assert s == {x};
      StrLeRefl(x.url);
      assert AjaxLe(x, x);
    } else {
      MinimumExists(s - {x});
      var m :| m in s - {x} && forall y :: y in s - {x} ==> AjaxLe(m, y);
      AjaxLeTotal(m, x);
      if AjaxLe(m, x) {
        assert forall y :: y in s ==> AjaxLe(m, y);
      } else {
        forall y | y in s ensures AjaxLe(x, y) {
          if y == x { StrLeRefl(x.url); } else { AjaxLeTrans(x, m, y); }
        }
      }
    }
  }

  /** The AJAX set's elements in increasing tuple order, as Python sorts a set of tuples. */
  method SortAjax(s: set<AjaxCall>) returns (r: seq<AjaxCall>)
    ensures StrictlySorted(r)
    ensures forall x :: x in r <==> x in s
  {
    r := [];
    var rest := s;
    while rest != {}
      invariant forall x :: x in s <==> x in r || x in rest
      invariant forall x :: x in r ==> x !in rest
      invariant StrictlySorted(r)
      invariant forall i, y :: 0 <= i < |r| && y in rest ==> AjaxLe(r[i], y)
      decreases rest
    {
      MinimumExists(rest);
      var m :| m in rest && forall y :: y in rest ==> AjaxLe(m, y);
      forall y | y in rest - {m}
        ensures AjaxLe(m, y)
      {
      }
      r := r + [m];
      rest := rest - {m};
    }
  }

  /** A strictly sorted list is determined by its elements, so "the sorted set" names one list. */
  lemma {:induction false} StrictlySortedUnique(r1: seq<AjaxCall>, r2: seq<AjaxCall>)
    requires StrictlySorted(r1) && StrictlySorted(r2)
    requires forall x :: x in r1 <==> x in r2
    ensures r1 == r2
    decreases |r1|
  {
    if r1 != [] { assert r1[0] in r1; }
    if r2 != [] { assert r2[0] in r2; }
    if r1 != [] && r2 != [] {
      var k1 :| 0 <= k1 < |r2| && r2[k1] == r1[0];
      var k2 :| 0 <= k2 < |r1| && r1[k2] == r2[0];
      if r1[0] != r2[0] {
        assert AjaxLe(r1[0], r1[k2]);
        assert AjaxLe(r2[0], r2[k1]);
        AjaxLeAntisym(r1[0], r2[0]);
      }
      forall x ensures x in r1[1..] <==> x in r2[1..] {
        if x in r1[1..] {
          var i :| 1 <= i < |r1| && r1[i] == x;
          assert x != r1[0];
          assert x in r2;
          var j :| 0 <= j < |r2| && r2[j] == x;
          assert j != 0;
          assert r2[1..][j - 1] == x;
        }
        if x in r2[1..] {
          var j :| 1 <= j < |r2| && r2[j] == x;
          assert x != r2[0];
          assert x in r1;
          var i :| 0 <= i < |r1| && r1[i] == x;
          assert i != 0;
          assert r1[1..][i - 1] == x;
        }
      }
      StrictlySortedUnique(r1[1..], r2[1..]);
      assert r1 == [r1[0]] + r1[1..];
      assert r2 == [r2[0]] + r2[1..];
    }
  }
}
