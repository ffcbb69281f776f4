/** The object merge of merge-similar: `[previous, current].flatten.uniq`. */
module Merging {
  import opened Records

  predicate NoDup<T(==)>(s: seq<T>) {
    forall i, j :: 0 <= i < j < |s| ==> s[i] != s[j]
  }

  /** `Array#uniq` as it runs: left to right, skipping what it has already seen. */
  function UniqFrom<T(==)>(s: seq<T>, seen: set<T>): (r: seq<T>)
    ensures |r| <= |s|
    ensures forall i :: 0 <= i < |r| ==> r[i] !in seen
    decreases |s|
  {
    if s == [] then []
    else if s[0] in seen then UniqFrom(s[1..], seen)
    else [s[0]] + UniqFrom(s[1..], seen + {s[0]})
  }

  function Uniq<T(==)>(s: seq<T>): seq<T> {
    UniqFrom(s, {})
  }

  /** The reference reading of `uniq`: the elements of `s` at their first
      occurrence, in order. */
  function FirstOccurrences<T(==)>(s: seq<T>): seq<T>
    decreases |s|
  {
    if s == [] then []
    else
      var init, last := s[..|s| - 1], s[|s| - 1];
      FirstOccurrences(init) + (if last in init then [] else [last])
  }

  /** `uniq` keeps exactly the elements of `s` not seen yet. */
  lemma {:induction false} UniqFromElements<T>(s: seq<T>, seen: set<T>)
    ensures forall x :: x in UniqFrom(s, seen) <==> x in s && x !in seen
    decreases |s|
  {
    if s != [] {
      UniqFromElements(s[1..], if s[0] in seen then seen else seen + {s[0]});
      assert forall x :: x in s <==> x == s[0] || x in s[1..];
    }
  }

  /** `uniq` leaves no element twice. */
  lemma {:induction false} UniqFromNoDup<T>(s: seq<T>, seen: set<T>)
    ensures NoDup(UniqFrom(s, seen))
    decreases |s|
  {
    if s != [] && s[0] !in seen {
      var rest := UniqFrom(s[1..], seen + {s[0]});
      UniqFromNoDup(s[1..], seen + {s[0]});
      UniqFromElements(s[1..], seen + {s[0]});
      assert s[0] !in rest;
      var r := [s[0]] + rest;
      forall i, j | 0 <= i < j < |r| ensures r[i] != r[j] {
        if i == 0 {
          assert r[j] == rest[j - 1];
        } else {
          assert r[i] == rest[i - 1] && r[j] == rest[j - 1];
        }
      }
    } else if s != [] {
      UniqFromNoDup(s[1..], seen);
    }
  }

  /** Running `uniq` over `a + b` is running it over `a`, then over `b` with
      everything in `a` already seen. */
  lemma {:induction false} UniqFromAppend<T>(a: seq<T>, b: seq<T>, seen: set<T>)
    ensures UniqFrom(a + b, seen) == UniqFrom(a, seen) + UniqFrom(b, seen + set x | x in a)
    decreases |a|
  {
    if a == [] {
      assert a + b == b;
      assert (set x | x in a) == {};
      assert seen + {} == seen;
    } else {
      assert (a + b)[1..] == a[1..] + b;
      assert (a + b)[0] == a[0];
      var seen' := if a[0] in seen then seen else seen + {a[0]};
      UniqFromAppend(a[1..], b, seen');
      assert seen' + (set x | x in a[1..]) == seen + (set x | x in a) by {
        assert forall x :: x in a <==> x == a[0] || x in a[1..];
      }
    }
  }

  /** `uniq` is the list of first occurrences. */
  lemma {:induction false} UniqIsFirstOccurrences<T>(s: seq<T>)
    ensures Uniq(s) == FirstOccurrences(s)
    decreases |s|
  {
    if s != [] {
      var init, last := s[..|s| - 1], s[|s| - 1];
      assert s == init + [last];
      UniqFromAppend(init, [last], {});
      UniqIsFirstOccurrences(init);
      var seen := {} + set x | x in init;
      assert last in seen <==> last in init;
      assert UniqFrom([last], seen) == (if last in init then [] else [last]) by {
        assert [last][1..] == [];
      }
    }
  }

  /** On a list without repeats `uniq` changes nothing. */
  lemma {:induction false} UniqFromOfNoDup<T>(s: seq<T>, seen: set<T>)
    requires NoDup(s)
    requires forall i :: 0 <= i < |s| ==> s[i] !in seen
    ensures UniqFrom(s, seen) == s
    decreases |s|
  {
    if s != [] {
      forall i | 0 <= i < |s[1..]| ensures s[1..][i] !in seen + {s[0]} {
        assert s[1..][i] == s[i + 1];
      }
      UniqFromOfNoDup(s[1..], seen + {s[0]});
    }
  }

  /** `[object].flatten`: a single hash stays one element, an array (an earlier
      merge) contributes its elements. */
  function Flatten(o: ObjectField): (r: seq<Ref>)
    ensures o.One? ==> r == [o.ref]
    ensures o.Many? ==> r == o.refs
  {
    match o
    case One(r) => [r]
    case Many(rs) => rs
  }

  /** `[previous, current].flatten.uniq`: the previous object's hashes first,
      then those of the new one it did not already hold, each once. */
  function MergeObjects(previous: ObjectField, current: ObjectField): (r: ObjectField)
    ensures r.Many?
    ensures NoDup(r.refs)
    ensures forall x :: x in r.refs <==> x in Flatten(previous) || x in Flatten(current)
    ensures r.refs == Uniq(Flatten(previous)) + UniqFrom(Flatten(current), set x | x in Flatten(previous))
  {
    var all := Flatten(previous) + Flatten(current);
    UniqFromNoDup(all, {});
    UniqFromElements(all, {});
    UniqFromAppend(Flatten(previous), Flatten(current), {});
    assert {} + (set x | x in Flatten(previous)) == set x | x in Flatten(previous);
    Many(Uniq(all))
  }

  /** When the previous object holds no repeats (a single hash, or an earlier
      merge), it survives intact at the front of the merged array. */
  lemma MergeKeepsPrevious(previous: ObjectField, current: ObjectField)
    requires NoDup(Flatten(previous))
    ensures var r := MergeObjects(previous, current).refs;
      |Flatten(previous)| <= |r| && r[..|Flatten(previous)|] == Flatten(previous)
  {
    UniqFromOfNoDup(Flatten(previous), {});
  }

  /** Merging two distinct single objects gives both, previous first; merging
      an object with itself gives it once. */
  lemma MergeTwoSingles(o1: Ref, o2: Ref)
    ensures MergeObjects(One(o1), One(o2)) == if o1 == o2 then Many([o1]) else Many([o1, o2])
  {
    var all := [o1] + [o2];
    assert all[0] == o1 && all[1..] == [o2];
    assert [o2][1..] == [];
    var none: set<Ref> := {};
    assert none + {o1} == {o1};
    assert Uniq(all) == [o1] + UniqFrom([o2], none + {o1});
    assert UniqFrom([o2], {o1}) == if o1 == o2 then [] else [o2];
  }
}
