/** List comprehensions with an `if` clause, `min` on ints, and a few facts about lists and sets. */
module Lists {

  function Min(a: int, b: int): (r: int)
    ensures r <= a && r <= b && (r == a || r == b)
  {
    if a <= b then a else b
  }

  /** `[x for x in s if p(x)]`: the elements of `s` that satisfy `p`, in their order. */
  function Filter<T(!new)>(s: seq<T>, p: T -> bool): (r: seq<T>)
    ensures |r| <= |s|
    ensures forall x :: x in r <==> x in s && p(x)
    ensures r == [] <==> forall k :: 0 <= k < |s| ==> !p(s[k])
    ensures r != [] ==> exists i :: 0 <= i < |s| && s[i] == r[0] && forall k :: 0 <= k < i ==> !p(s[k])
  {
    if s == [] then []
    else
      var rest := Filter(s[1..], p);
      assert forall k :: 1 <= k < |s| ==> s[k] == s[1..][k - 1];
      if p(s[0]) then [s[0]] + rest
      else
        assert rest != [] ==> exists i :: 1 <= i < |s| && s[i] == rest[0] && forall k :: 0 <= k < i ==> !p(s[k]) by {
          if rest != [] {
            var i :| 0 <= i < |s[1..]| && s[1..][i] == rest[0] && forall k :: 0 <= k < i ==> !p(s[1..][k]);
            assert forall k :: 1 <= k < i + 1 ==> !p(s[k]) by {
              forall k | 1 <= k < i + 1 ensures !p(s[k]) { assert s[k] == s[1..][k - 1]; }
            }
          }
        }
        rest
  }

  /**
   * The comprehension keeps order and multiplicity: filtering a concatenation
   * filters each part in turn.
   */
  lemma {:induction false} FilterAppend<T(!new)>(a: seq<T>, b: seq<T>, p: T -> bool)
    ensures Filter(a + b, p) == Filter(a, p) + Filter(b, p)
  {
    if a != [] {
      assert (a + b)[1..] == a[1..] + b;
      FilterAppend(a[1..], b, p);
    } else {
      assert a + b == b;
    }
  }

  /** One more element is kept, at the end, exactly when it satisfies the condition. */
  lemma FilterSnoc<T(!new)>(s: seq<T>, x: T, p: T -> bool)
    ensures Filter(s + [x], p) == Filter(s, p) + (if p(x) then [x] else [])
  {
    FilterAppend(s, [x], p);
    assert [x][1..] == [];
  }

  /** The lists of `ss` one after another. */
  function Flatten<T>(ss: seq<seq<T>>): seq<T>
  {
    if ss == [] then [] else Flatten(ss[..|ss| - 1]) + ss[|ss| - 1]
  }

  lemma FlattenSnoc<T>(ss: seq<seq<T>>, i: nat)
    requires i < |ss|
    ensures Flatten(ss[..i + 1]) == Flatten(ss[..i]) + ss[i]
  {
    assert ss[..i + 1][..i] == ss[..i];
  }

  /** Concatenation regroups freely; loops that append to an answer use it to move a bracket. */
  lemma AppendAssoc<T>(a: seq<T>, b: seq<T>, c: seq<T>)
    ensures (a + b) + c == a + (b + c)
  {
  }

  /** Some element of a non-empty set: the order in which Python iterates a set is not modelled. */
  method Pick<T>(s: set<T>) returns (x: T)
    requires s != {}
    ensures x in s
  {
    x :| x in s;
  }
}
