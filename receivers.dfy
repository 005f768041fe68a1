/** A JavaScript `Set` of receivers: distinct members, kept in insertion
    order, which is the order `Set.prototype.forEach` visits them in. */
module Receivers {
  import opened Types

  ghost predicate Distinct(s: seq<Handler>) {
    forall i, j :: 0 <= i < j < |s| ==> s[i] != s[j]
  }

  /** `Set.prototype.add`: a new member goes at the end, an existing one keeps
      its place. */
  function Add(s: seq<Handler>, x: Handler): (r: seq<Handler>)
    ensures forall y :: y in r <==> y in s || y == x
    ensures s <= r && |r| <= |s| + 1
    ensures Distinct(s) ==> Distinct(r)
  {
    if x in s then s else s + [x]
  }

  /** `Set.prototype.delete`: drops the member, keeps the others in order. */
  function Remove(s: seq<Handler>, x: Handler): (r: seq<Handler>)
    ensures forall y :: y in r <==> y in s && y != x
    ensures |r| <= |s|
    ensures x !in s ==> r == s
  {
    if s == [] then []
    else if s[0] == x then Remove(s[1..], x)
    else [s[0]] + Remove(s[1..], x)
  }

  /** Deleting keeps the members distinct. */
  lemma {:induction false} RemoveDistinct(s: seq<Handler>, x: Handler)
    requires Distinct(s)
    ensures Distinct(Remove(s, x))
  {
    if s != [] {
      assert Distinct(s[1..]) by {
        forall i, j | 0 <= i < j < |s[1..]| ensures s[1..][i] != s[1..][j] {
          assert s[1..][i] == s[i + 1] && s[1..][j] == s[j + 1];
        }
      }
      RemoveDistinct(s[1..], x);
      if s[0] != x {
        assert s[0] !in s[1..] by {
          forall k | 0 <= k < |s[1..]| ensures s[1..][k] != s[0] {
            assert s[1..][k] == s[k + 1];
          }
        }
        var t := Remove(s[1..], x);
        assert Remove(s, x) == [s[0]] + t;
        forall i, j | 0 <= i < j < |[s[0]] + t| ensures ([s[0]] + t)[i] != ([s[0]] + t)[j] {
          if i == 0 {
            assert ([s[0]] + t)[j] == t[j - 1];
          } else {
            assert ([s[0]] + t)[i] == t[i - 1] && ([s[0]] + t)[j] == t[j - 1];
          }
        }
      }
    }
  }

  /** Adding twice is the same as adding once. */
  lemma AddTwice(s: seq<Handler>, x: Handler)
    ensures Add(Add(s, x), x) == Add(s, x)
  {
  }

  /** Deleting twice is the same as deleting once. */
  lemma {:induction false} RemoveTwice(s: seq<Handler>, x: Handler)
    ensures Remove(Remove(s, x), x) == Remove(s, x)
  {
  }

  /** Deleting a member that was just added to a set without it gives the
      set back. */
  lemma {:induction false} RemoveAdded(s: seq<Handler>, x: Handler)
    requires x !in s
    ensures Remove(Add(s, x), x) == s
  {
    if s == [] {
      assert Add(s, x) == [x];
    } else {
      var t := s + [x];
      assert Add(s, x) == t;
      assert t[0] == s[0] && t[1..] == s[1..] + [x];
      assert Add(s[1..], x) == s[1..] + [x];
      RemoveAdded(s[1..], x);
      assert s == [s[0]] + s[1..];
    }
  }
}
