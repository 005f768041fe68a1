/** Which signals a mux's `watch` connects: each signal not watched yet,
    once, in the order given. */
module Watching {
  import opened Types

  /** The signals of `signals` that `watch` newly connects, given the
      signals already watched. */
  function Fresh(watching: set<SigId>, signals: seq<SigId>): (r: seq<SigId>)
    ensures forall s :: s in r ==> s in signals && s !in watching
    decreases |signals|
  {
    if signals == [] then []
    else
      var p := Fresh(watching, signals[..|signals| - 1]);
      var s := signals[|signals| - 1];
      if s in watching || s in p then p else p + [s]
  }

  function Members(r: seq<SigId>): set<SigId> {
    set s | s in r
  }

  lemma FreshPrefix(watching: set<SigId>, signals: seq<SigId>, i: nat)
    requires i < |signals|
    ensures Fresh(watching, signals[..i + 1]) ==
      var p := Fresh(watching, signals[..i]);
      if signals[i] in watching || signals[i] in p then p else p + [signals[i]]
  {
    assert signals[..i + 1][..i] == signals[..i];
  }

  ghost predicate Unique(r: seq<SigId>) {
    forall a, b :: 0 <= a < b < |r| ==> r[a] != r[b]
  }

  /** No signal is connected twice by one call. */
  lemma {:induction false} FreshDistinct(watching: set<SigId>, signals: seq<SigId>)
    ensures Unique(Fresh(watching, signals))
    decreases |signals|
  {
    if signals != [] {
      var pre := signals[..|signals| - 1];
      FreshDistinct(watching, pre);
      var p := Fresh(watching, pre);
      assert Unique(p);
      var s := signals[|signals| - 1];
      if !(s in watching || s in p) {
        var r := p + [s];
        assert Fresh(watching, signals) == r;
        forall a, b | 0 <= a < b < |r| ensures r[a] != r[b] {
          if b == |p| {
            assert r[a] == p[a];
            assert p[a] in p;
            assert r[b] == s;
          } else {
            assert r[a] == p[a];
            assert r[b] == p[b];
            assert p[a] != p[b];
          }
        }
      }
    }
  }

  /** Afterwards every given signal is watched, and nothing else is added. */
  lemma {:induction false} FreshCovers(watching: set<SigId>, signals: seq<SigId>)
    ensures watching + Members(Fresh(watching, signals)) == watching + Members(signals)
    decreases |signals|
  {
    if signals != [] {
      var pre := signals[..|signals| - 1];
      FreshCovers(watching, pre);
      assert Members(signals) == Members(pre) + {signals[|signals| - 1]} by {
        assert signals == pre + [signals[|signals| - 1]];
      }
    }
  }

  /** Watching the same signals again connects nothing. */
  lemma WatchAgain(watching: set<SigId>, signals: seq<SigId>)
    ensures Fresh(watching + Members(signals), signals) == []
  {
    FreshNone(watching + Members(signals), signals);
  }

  lemma {:induction false} FreshNone(watching: set<SigId>, signals: seq<SigId>)
    requires forall k :: 0 <= k < |signals| ==> signals[k] in watching
    ensures Fresh(watching, signals) == []
    decreases |signals|
  {
    if signals != [] {
      FreshNone(watching, signals[..|signals| - 1]);
      assert signals[|signals| - 1] in watching;
    }
  }

  /** The `disconnectList` entries a watch pushes. */
  function Entries(r: seq<SigId>): (e: seq<Option<SigId>>)
    ensures |e| == |r|
    ensures forall k :: 0 <= k < |r| ==> e[k] == Some(r[k])
    decreases |r|
  {
    if r == [] then [] else Entries(r[..|r| - 1]) + [Some(r[|r| - 1])]
  }

  lemma EntriesStep(r: seq<SigId>, s: SigId)
    ensures Entries(r + [s]) == Entries(r) + [Some(s)]
  {
    assert (r + [s])[..|r|] == r;
  }

  lemma MembersStep(r: seq<SigId>, s: SigId)
    ensures Members(r + [s]) == Members(r) + {s}
  {
  }

  /** The members of one more element of a list. */
  lemma MembersPrefix(r: seq<SigId>, i: nat)
    requires i < |r|
    ensures Members(r[..i + 1]) == Members(r[..i]) + {r[i]}
  {
    assert r[..i + 1] == r[..i] + [r[i]];
    MembersStep(r[..i], r[i]);
  }
}
