/** Sequence operations the components use through JavaScript's array and
    string methods: `filter`, `filter` by index, `join` and `split`. */
module Seqs {

  /** `r` is `s` with some elements left out, the rest kept in order. */
  ghost predicate Subseq<T>(r: seq<T>, s: seq<T>)
    decreases |s|
  {
    if r == [] then true
    else if s == [] then false
    else (r[0] == s[0] && Subseq(r[1..], s[1..])) || Subseq(r, s[1..])
  }

  /** `s.filter(p)`: the elements of `s` that satisfy `p`, in order. */
  function Filter<T>(p: T -> bool, s: seq<T>): (r: seq<T>)
    ensures |r| <= |s|
    ensures forall i :: 0 <= i < |r| ==> p(r[i])
    ensures forall x :: x in r ==> x in s
    decreases |s|
  {
    if s == [] then []
    else if p(s[0]) then [s[0]] + Filter(p, s[1..])
    else Filter(p, s[1..])
  }

  /** Filtering keeps the surviving elements in their original order. */
  lemma {:induction false} FilterIsSubseq<T>(p: T -> bool, s: seq<T>)
    ensures Subseq(Filter(p, s), s)
    decreases |s|
  {
    if s != [] {
      FilterIsSubseq(p, s[1..]);
      var r := Filter(p, s);
      if p(s[0]) {
        assert r[0] == s[0] && r[1..] == Filter(p, s[1..]);
      } else if r != [] {
        assert r == Filter(p, s[1..]);
      }
    }
  }

  /** Filtering drops no element that satisfies `p`: each keeps its multiplicity. */
  lemma {:induction false} FilterKeepsEverySatisfier<T>(p: T -> bool, s: seq<T>, x: T)
    requires p(x)
    ensures multiset(Filter(p, s))[x] == multiset(s)[x]
    decreases |s|
  {
    if s != [] {
      FilterKeepsEverySatisfier(p, s[1..], x);
      assert s == [s[0]] + s[1..];
      assert multiset(s) == multiset{s[0]} + multiset(s[1..]);
      if p(s[0]) {
        assert multiset(Filter(p, s)) == multiset{s[0]} + multiset(Filter(p, s[1..]));
      } else {
        assert s[0] != x;
      }
    }
  }

  /** Filtering a sequence none of whose elements satisfy `p` gives `[]`. */
  lemma {:induction false} FilterNone<T>(p: T -> bool, s: seq<T>)
    requires forall i :: 0 <= i < |s| ==> !p(s[i])
    ensures Filter(p, s) == []
    decreases |s|
  {
    if s != [] {
      FilterNone(p, s[1..]);
    }
  }

  /** Filtering a sequence all of whose elements satisfy `p` changes nothing. */
  lemma {:induction false} FilterAll<T>(p: T -> bool, s: seq<T>)
    requires forall i :: 0 <= i < |s| ==> p(s[i])
    ensures Filter(p, s) == s
    decreases |s|
  {
    if s != [] {
      FilterAll(p, s[1..]);
      assert [s[0]] + s[1..] == s;
    }
  }

  /** `s.filter((_, i) => i !== index)`: `s` without the element at `index`;
      an index outside `s` removes nothing. */
  function RemoveIndex<T>(s: seq<T>, index: int): (r: seq<T>)
    ensures 0 <= index < |s| ==> r == s[..index] + s[index + 1..]
    ensures !(0 <= index < |s|) ==> r == s
    decreases |s|
  {
    if s == [] then []
    else (if index == 0 then [] else [s[0]]) + RemoveIndex(s[1..], index - 1)
  }

  /** `parts.join(sep)`: the parts with `sep` between neighbours. */
  function Join<T>(parts: seq<seq<T>>, sep: seq<T>): seq<T>
    decreases |parts|
  {
    if |parts| == 0 then []
    else if |parts| == 1 then parts[0]
    else parts[0] + sep + Join(parts[1..], sep)
  }

  /** `s.split(sep)` for a one-element separator: the maximal pieces between
      occurrences of `sep`; there is always at least one piece. */
  function Split<T(==)>(s: seq<T>, sep: T): (r: seq<seq<T>>)
    ensures |r| >= 1
    ensures forall i :: 0 <= i < |r| ==> sep !in r[i]
    decreases |s|
  {
    if s == [] then [[]]
    else
      var rest := Split(s[1..], sep);
      if s[0] == sep then [[]] + rest
      else [[s[0]] + rest[0]] + rest[1..]
  }

  /** Joining the pieces of a split with the separator gives back the input. */
  lemma {:induction false} JoinSplit<T>(s: seq<T>, sep: T)
    ensures Join(Split(s, sep), [sep]) == s
    decreases |s|
  {
    if s != [] {
      var rest := Split(s[1..], sep);
      JoinSplit(s[1..], sep);
      assert Join(rest, [sep]) == s[1..];
      if s[0] == sep {
        assert Join(Split(s, sep), [sep]) == [] + [sep] + Join(rest, [sep]);
      } else if |rest| == 1 {
        assert Join(Split(s, sep), [sep]) == [s[0]] + rest[0];
      } else {
        assert Join(rest, [sep]) == rest[0] + [sep] + Join(rest[1..], [sep]);
        assert Join(Split(s, sep), [sep]) == ([s[0]] + rest[0]) + [sep] + Join(rest[1..], [sep]);
      }
      assert s == [s[0]] + s[1..];
    }
  }

  /** Splitting a sequence that does not contain the separator gives one piece: the input. */
  lemma {:induction false} SplitWithoutSeparator<T>(s: seq<T>, sep: T)
    requires sep !in s
    ensures Split(s, sep) == [s]
    decreases |s|
  {
    if s != [] {
      assert sep !in s[1..];
      SplitWithoutSeparator(s[1..], sep);
      assert [s[0]] + s[1..] == s;
    }
  }
}
