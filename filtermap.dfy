/**
 * An order-preserving filter-map over a sequence: each element contributes
 * the value `f` gives it, or nothing when `f` gives `None`.  This is the shape
 * of a loop that appends one value per element it does not skip.
 */
module FilterMaps {
  import opened Wrappers

  /** The contribution of one element: one value, or none. */
  function OptSeq<U>(o: Option<U>): (s: seq<U>)
    ensures |s| == (if o.Some? then 1 else 0)
    ensures o.Some? ==> s[0] == o.value
  {
    if o.Some? then [o.value] else []
  }

  /** The values collected after visiting the elements of `s` in order. */
  function FilterMap<T, U>(s: seq<T>, f: T -> Option<U>): seq<U>
    decreases |s|
  {
    if s == [] then [] else FilterMap(s[..|s| - 1], f) + OptSeq(f(s[|s| - 1]))
  }

  /** Visiting one more element appends its contribution. */
  lemma FilterMapStep<T, U>(s: seq<T>, i: nat, f: T -> Option<U>)
    requires i < |s|
    ensures FilterMap(s[..i + 1], f) == FilterMap(s[..i], f) + OptSeq(f(s[i]))
  {
    assert s[..i + 1][..i] == s[..i];
  }

  lemma {:induction false} FilterMapBound<T, U>(s: seq<T>, f: T -> Option<U>)
    ensures |FilterMap(s, f)| <= |s|
    decreases |s|
  {
    if s != [] {
      FilterMapBound(s[..|s| - 1], f);
    }
  }

  /** Nothing is collected exactly when every element is skipped. */
  lemma {:induction false} FilterMapEmptyIff<T, U>(s: seq<T>, f: T -> Option<U>)
    ensures FilterMap(s, f) == [] <==> forall i :: 0 <= i < |s| ==> f(s[i]).None?
    decreases |s|
  {
    if s != [] {
      var n := |s| - 1;
      var init := s[..n];
      FilterMapEmptyIff(init, f);
      var none := forall i :: 0 <= i < |s| ==> f(s[i]).None?;
      var noneInit := forall i :: 0 <= i < n ==> f(init[i]).None?;
      assert none <==> noneInit && f(s[n]).None? by {
        forall i | 0 <= i < n ensures init[i] == s[i] { }
      }
    }
  }

  /** One value per element exactly when no element is skipped. */
  lemma {:induction false} FilterMapAllIff<T, U>(s: seq<T>, f: T -> Option<U>)
    ensures |FilterMap(s, f)| == |s| <==> forall i :: 0 <= i < |s| ==> f(s[i]).Some?
    decreases |s|
  {
    if s != [] {
      var n := |s| - 1;
      var init := s[..n];
      FilterMapAllIff(init, f);
      FilterMapBound(init, f);
      var all := forall i :: 0 <= i < |s| ==> f(s[i]).Some?;
      var allInit := forall i :: 0 <= i < n ==> f(init[i]).Some?;
      assert all <==> allInit && f(s[n]).Some? by {
        forall i | 0 <= i < n ensures init[i] == s[i] { }
      }
    }
  }

  /**
   * The collected values are those of the elements not skipped, in order:
   * `Origins` lists the indices they come from, strictly increasing, and
   * misses no element that is not skipped.
   */
  function Origins<T, U>(s: seq<T>, f: T -> Option<U>): (idx: seq<nat>)
    ensures |idx| == |FilterMap(s, f)|
    ensures forall j :: 0 <= j < |idx| ==>
              idx[j] < |s| && f(s[idx[j]]).Some? && FilterMap(s, f)[j] == f(s[idx[j]]).value
    ensures forall j, j' :: 0 <= j < j' < |idx| ==> idx[j] < idx[j']
    ensures forall i :: 0 <= i < |s| && f(s[i]).Some? ==> i in idx
    decreases |s|
  {
    if s == [] then []
    else
      var n := |s| - 1;
      var init := s[..n];
      var pre := Origins(init, f);
      assert forall i :: 0 <= i < n ==> init[i] == s[i];
      if f(s[n]).Some? then pre + [n] else pre
  }
}
