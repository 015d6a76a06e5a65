/** `slices.DeleteFunc`, the one Go library call both registries rely on for
    removal. */
module GoSlices {

  /** `slices.DeleteFunc(s, del)`: every element on which del holds is
      dropped; the others stay, in their original order. */
  function DeleteFunc<T(==)>(s: seq<T>, del: T -> bool): (r: seq<T>)
    ensures |r| <= |s|
    ensures forall i :: 0 <= i < |r| ==> r[i] in s && !del(r[i])
    ensures forall i :: 0 <= i < |s| && !del(s[i]) ==> s[i] in r
  {
    if s == [] then []
    else (if del(s[0]) then [] else [s[0]]) + DeleteFunc(s[1..], del)
  }

  /** Deletion works element by element: on a concatenation it is the
      concatenation of the deletions, so survivors keep their relative order. */
  lemma {:induction false} DeleteFuncAppend<T>(a: seq<T>, b: seq<T>, del: T -> bool)
    ensures DeleteFunc(a + b, del) == DeleteFunc(a, del) + DeleteFunc(b, del)
  {
    if a == [] {
      assert a + b == b;
    } else {
      assert (a + b)[1..] == a[1..] + b;
      DeleteFuncAppend(a[1..], b, del);
    }
  }

  /** The result is shorter exactly when some element matched. */
  lemma {:induction false} DeleteFuncShrinks<T>(s: seq<T>, del: T -> bool)
    ensures |DeleteFunc(s, del)| < |s| <==> exists i :: 0 <= i < |s| && del(s[i])
  {
    if s != [] {
      DeleteFuncShrinks(s[1..], del);
      if exists i :: 0 <= i < |s| - 1 && del(s[1..][i]) {
        var i :| 0 <= i < |s| - 1 && del(s[1..][i]);
        assert del(s[i + 1]);
      }
      if exists i :: 0 <= i < |s| && del(s[i]) {
        var i :| 0 <= i < |s| && del(s[i]);
        if i > 0 {
          assert del(s[1..][i - 1]);
        }
      }
    }
  }

  /** When nothing matches, the slice comes back unchanged. */
  lemma {:induction false} DeleteFuncKeepsAll<T>(s: seq<T>, del: T -> bool)
    requires forall i :: 0 <= i < |s| ==> !del(s[i])
    ensures DeleteFunc(s, del) == s
  {
    if s != [] {
      assert forall i :: 0 <= i < |s| - 1 ==> s[1..][i] == s[i + 1];
      DeleteFuncKeepsAll(s[1..], del);
      assert [s[0]] + s[1..] == s;
    }
  }

  /** When x is the only element that matches, deleting takes out x and
      nothing else: adding x and then deleting it restores the slice. */
  lemma {:induction false} DeleteFuncDropsOnly<T>(a: seq<T>, x: T, b: seq<T>, del: T -> bool)
    requires del(x)
    requires forall i :: 0 <= i < |a| ==> !del(a[i])
    requires forall i :: 0 <= i < |b| ==> !del(b[i])
    ensures DeleteFunc(a + [x] + b, del) == a + b
  {
    if a == [] {
      assert (a + [x] + b)[1..] == b;
      DeleteFuncKeepsAll(b, del);
    } else {
      assert (a + [x] + b)[1..] == a[1..] + [x] + b;
      assert a + b == [a[0]] + (a[1..] + b);
      DeleteFuncDropsOnly(a[1..], x, b, del);
    }
  }
}
