/** Small building blocks shared by every module. */
module Common {

  datatype Option<+T> = None | Some(value: T)

  /** A Python slice `s[:n]`, where a negative bound counts from the end. */
  function Prefix<T>(s: seq<T>, n: int): (r: seq<T>)
    ensures r <= s
    ensures n >= 0 ==> |r| == if n < |s| then n else |s|
    ensures n < 0 ==> |r| == if -n < |s| then |s| + n else 0
  {
    if n >= 0 then (if n < |s| then s[..n] else s)
    else if -n < |s| then s[..|s| + n] else []
  }

  /** Applies `f` to every element, in order. */
  function Map<S, T>(f: S -> T, s: seq<S>): (r: seq<T>)
    ensures |r| == |s|
    ensures forall i :: 0 <= i < |s| ==> r[i] == f(s[i])
  {
    seq(|s|, i requires 0 <= i < |s| => f(s[i]))
  }

  /** The elements of `s` satisfying `p`, in order. */
  function Filter<T(!new)>(p: T -> bool, s: seq<T>): (r: seq<T>)
    ensures forall x :: x in r <==> x in s && p(x)
  {
    if s == [] then []
    else Filter(p, s[..|s| - 1]) + if p(s[|s| - 1]) then [s[|s| - 1]] else []
  }

  /** The answer of `ORDER BY key LIMIT limit` over a set of rows: rows that tie may come in any order. */
  ghost predicate OrderedLimit<T(!new)>(rows: set<T>, key: T -> real, limit: nat, out: seq<T>) {
    && |out| == (if |rows| < limit then |rows| else limit)
    && (forall i :: 0 <= i < |out| ==> out[i] in rows)
    && (forall i, j :: 0 <= i < j < |out| ==> out[i] != out[j] && key(out[i]) <= key(out[j]))
    && (forall r, i :: r in rows && r !in out && 0 <= i < |out| ==> key(out[i]) <= key(r))
  }

  /** Selects the rows one by one, always taking a least remaining one. */
  method OrderByLimit<T(!new, ==)>(rows: set<T>, key: T -> real, limit: nat) returns (out: seq<T>)
    ensures OrderedLimit(rows, key, limit, out)
  {
    out := [];
    var rest := rows;
    while |out| < limit && rest != {}
      invariant |out| <= limit && |out| + |rest| == |rows| && rest <= rows
      invariant forall r :: r in rows <==> r in rest || r in out
      invariant forall i :: 0 <= i < |out| ==> out[i] !in rest
      invariant forall i, j :: 0 <= i < j < |out| ==> out[i] != out[j] && key(out[i]) <= key(out[j])
      invariant forall r, i :: r in rest && 0 <= i < |out| ==> key(out[i]) <= key(r)
      decreases rest
    {
      var least := Least(rest, key);
      var x :| x in rest && key(x) <= key(least);
      out, rest := out + [x], rest - {x};
    }
  }

  /** A finite non-empty set has an element of least key. */
  method Least<T(!new, ==)>(rows: set<T>, key: T -> real) returns (least: T)
    requires rows != {}
    ensures least in rows && forall r :: r in rows ==> key(least) <= key(r)
  {
    least :| least in rows;
    var rest := rows - {least};
    while rest != {}
      invariant least in rows && rest <= rows
      invariant forall r :: r in rows && r !in rest ==> key(least) <= key(r)
      decreases rest
    {
      var x :| x in rest;
      if key(x) < key(least) { least := x; }
      rest := rest - {x};
    }
  }

  /** Every set of rows has an answer. */
  lemma {:induction false} SomeOrder<T(!new)>(rows: set<T>, key: T -> real, limit: nat) returns (out: seq<T>)
    ensures OrderedLimit(rows, key, limit, out)
    decreases limit
  {
    if limit == 0 || rows == {} {
      out := [];
    } else {
      var least := SomeLeast(rows, key);
      var rest := SomeOrder(rows - {least}, key, limit - 1);
      out := [least] + rest;
    }
  }

  lemma {:induction false} SomeLeast<T(!new)>(rows: set<T>, key: T -> real) returns (least: T)
    requires rows != {}
    ensures least in rows && forall r :: r in rows ==> key(least) <= key(r)
    decreases rows
  {
    var x :| x in rows;
    if rows == {x} {
      least := x;
    } else {
      var y := SomeLeast(rows - {x}, key);
      least := if key(x) <= key(y) then x else y;
    }
  }

  function Sum(s: seq<nat>): nat {
    if s == [] then 0 else Sum(s[..|s| - 1]) + s[|s| - 1]
  }

  /** Two texts made of characters of `p` and cut at the first other character agree piece by piece. */
  lemma SameCut(p: char -> bool, u: string, x: string, v: string, y: string)
    requires u + x == v + y
    requires forall c :: c in u || c in v ==> p(c)
    requires x != [] && !p(x[0]) && y != [] && !p(y[0])
    ensures u == v && x == y
  {
    if |u| != |v| {
      if |u| < |v| { CutsDiffer(p, u, x, v, y); } else { CutsDiffer(p, v, y, u, x); }
    }
    assert (u + x)[..|u|] == u && (v + y)[..|v|] == v;
    DropPrefix(u, x, y);
  }

  lemma CutsDiffer(p: char -> bool, u: string, x: string, v: string, y: string)
    requires |u| < |v| && forall c :: c in v ==> p(c)
    requires x != [] && !p(x[0])
    ensures u + x != v + y
  {
    assert (u + x)[|u|] == x[0] && (v + y)[|u|] == v[|u|];
  }

  lemma Regroup<T>(x: seq<T>, y: seq<T>, z: seq<T>)
    ensures (x + y) + z == x + (y + z)
  {}

  /** A common prefix may be dropped from both sides of an equation. */
  lemma DropPrefix<T>(p: seq<T>, x: seq<T>, y: seq<T>)
    requires p + x == p + y
    ensures x == y
  {
    assert (p + x)[|p|..] == x && (p + y)[|p|..] == y;
  }

  lemma {:induction false} DistinctCount<T>(s: seq<T>)
    requires forall i, j :: 0 <= i < j < |s| ==> s[i] != s[j]
    ensures |set x | x in s| == |s|
  {
    if s != [] {
      DistinctCount(s[1..]);
      assert (set x | x in s) == (set x | x in s[1..]) + {s[0]};
    }
  }

  lemma {:induction false} SubsetSize<T>(a: set<T>, b: set<T>)
    requires a <= b
    ensures |a| <= |b|
  {
    if a != {} {
      var x :| x in a;
      SubsetSize(a - {x}, b - {x});
    }
  }

  /** As many distinct members as the set has are all of them. */
  lemma ListIsComplete<T>(all: set<T>, rows: seq<T>)
    requires |rows| == |all| && forall i :: 0 <= i < |rows| ==> rows[i] in all
    requires forall i, j :: 0 <= i < j < |rows| ==> rows[i] != rows[j]
    ensures forall r :: r in all ==> r in rows
  {
    var seen := set r | r in rows;
    DistinctCount(rows);
    forall r | r in all ensures r in seen {
      SubsetSize(seen, all - {r} + (seen * {r}));
    }
  }

  lemma FilterNone<T(!new)>(p: T -> bool, s: seq<T>)
    requires forall x :: x in s ==> !p(x)
    ensures Filter(p, s) == []
  {}

  lemma FilterLast<T(!new)>(p: T -> bool, s: seq<T>, last: T)
    ensures Filter(p, s + [last]) == Filter(p, s) + if p(last) then [last] else []
  {}

  lemma NoneAfter<T(!new)>(p: T -> bool, q: T -> bool, s: seq<T>, last: T)
    requires p(last) && forall i :: 0 <= i < |s| ==> !q(s[i])
    requires Filter(p, s) + Filter(q, s) == s && !q(last)
    ensures Filter(p, s + [last]) + Filter(q, s + [last]) == s + [last]
  {
    hide Filter;
    FilterNone(q, s);
    FilterLast(p, s, last);
    FilterLast(q, s, last);
  }

  /** Where everything satisfying `p` comes first, filtering by `p` and by its opposite cuts the list in two. */
  lemma {:induction false} SplitFilter<T(!new)>(p: T -> bool, q: T -> bool, s: seq<T>)
    requires forall i :: 0 <= i < |s| ==> (q(s[i]) <==> !p(s[i]))
    requires forall i, j :: 0 <= i < j < |s| && p(s[j]) ==> p(s[i])
    ensures Filter(p, s) + Filter(q, s) == s
  {
    hide Filter;
    if s == [] {
      FilterNone(p, s);
      FilterNone(q, s);
    } else {
      var init, last := s[..|s| - 1], s[|s| - 1];
      SplitFilter(p, q, init);
      assert s == init + [last];
      if p(last) {
        NoneAfter(p, q, init, last);
      } else {
        FilterLast(p, init, last);
        FilterLast(q, init, last);
        Regroup(Filter(p, init), Filter(q, init), [last]);
      }
    }
  }
}
