/** The text a mux publishes: its slot list holds the literal fragments at
    even slots and the current value of part `i` at slot `2*i+1`, and the
    published string is `''.concat` over all slots. */
module MuxText {
  import opened Types

  /** A dynamic part of a mux, told apart the way the engine does: a plain
      value, a plain function, or a signal (a function carrying the signal tag). */
  datatype Part = Literal(v: Value) | Fn(f: FnId) | Sig(s: SigId)

  /** `''.concat(...slots)`. */
  function Concat(slots: seq<Value>): string
    decreases |slots|
  {
    if slots == [] then "" else ToStr(slots[0]) + Concat(slots[1..])
  }

  /** The template reading: fragment 0, part 0, fragment 1, ..., last fragment. */
  function Interleave(frags: seq<string>, vals: seq<Value>): string
    requires |frags| == |vals| + 1
    decreases |vals|
  {
    if vals == [] then frags[0]
    else frags[0] + ToStr(vals[0]) + Interleave(frags[1..], vals[1..])
  }

  /** `slots` holds fragment `i` at slot `2*i` and value `i` at slot `2*i+1`. */
  ghost predicate Laid(slots: seq<Value>, frags: seq<string>, vals: seq<Value>) {
    && |frags| == |vals| + 1
    && |slots| == 2 * |vals| + 1
    && (forall i :: 0 <= i < |frags| ==> slots[2 * i] == Text(frags[i]))
    && (forall i :: 0 <= i < |vals| ==> slots[2 * i + 1] == vals[i])
  }

  /** The slot list a mux starts with: fragments in place, parts `undefined`. */
  function InitialSlots(frags: seq<string>, n: nat): (slots: seq<Value>)
    requires |frags| == n + 1
    ensures Laid(slots, frags, seq(n, _ => Undefined))
  {
    seq(2 * n + 1, k requires 0 <= k < 2 * n + 1 => if k % 2 == 0 then Text(frags[k / 2]) else Undefined)
  }

  /** Concatenating the slots is reading the template. */
  lemma {:induction false} ConcatInterleaves(slots: seq<Value>, frags: seq<string>, vals: seq<Value>)
    requires Laid(slots, frags, vals)
    ensures Concat(slots) == Interleave(frags, vals)
    decreases |vals|
  {
    if vals == [] {
      assert slots == [Text(frags[0])];
      assert Concat(slots) == ToStr(Text(frags[0])) + Concat([]);
    } else {
      assert slots[0] == Text(frags[0]);
      assert slots[1] == vals[0];
      var rest := slots[2..];
      assert Laid(rest, frags[1..], vals[1..]) by {
        forall i | 0 <= i < |frags[1..]| ensures rest[2 * i] == Text(frags[1..][i]) {
          assert rest[2 * i] == slots[2 * (i + 1)];
        }
        forall i | 0 <= i < |vals[1..]| ensures rest[2 * i + 1] == vals[1..][i] {
          assert rest[2 * i + 1] == slots[2 * (i + 1) + 1];
        }
      }
      ConcatInterleaves(rest, frags[1..], vals[1..]);
      assert slots[1..][1..] == rest;
      assert Concat(slots) == ToStr(slots[0]) + (ToStr(slots[1]) + Concat(rest));
      Associative(frags[0], ToStr(vals[0]), Interleave(frags[1..], vals[1..]));
    }
  }

  lemma Associative(a: string, b: string, c: string)
    ensures (a + b) + c == a + (b + c)
  {
  }

  /** The indices of the parts a mux re-evaluates at every flush, in order:
      every function or signal part; a literal is placed once, at activation. */
  function Tracked(parts: seq<Part>, n: nat): (idx: seq<nat>)
    requires n <= |parts|
    ensures forall k :: 0 <= k < |idx| ==> idx[k] < n
    decreases n
  {
    if n == 0 then []
    else Tracked(parts, n - 1) + (if parts[n - 1].Literal? then [] else [n - 1])
  }

  /** The tracked indices are exactly the non-literal parts, in increasing
      order. */
  lemma {:induction false} TrackedIndices(parts: seq<Part>, n: nat)
    requires n <= |parts|
    ensures var idx := Tracked(parts, n);
      && (forall i: nat :: i in idx <==> i < n && !parts[i].Literal?)
      && (forall a, b :: 0 <= a < b < |idx| ==> idx[a] < idx[b])
    decreases n
  {
    if n > 0 {
      TrackedIndices(parts, n - 1);
    }
  }

  /** The value part `p` has when evaluated against the current signal
      values: the literal itself, what the function returns, or the
      signal's value. */
  function PartValue(w: World, p: Part, vals: map<SigId, Value>): Value
    requires p.Sig? ==> p.s in vals
  {
    match p
    case Literal(v) => v
    case Fn(f) => w.fnValue(f, vals)
    case Sig(s) => vals[s]
  }

  ghost predicate SigsIn(parts: seq<Part>, vals: map<SigId, Value>) {
    forall i :: 0 <= i < |parts| && parts[i].Sig? ==> parts[i].s in vals
  }

  /** The values of all parts. */
  function PartValues(w: World, parts: seq<Part>, vals: map<SigId, Value>): seq<Value>
    requires SigsIn(parts, vals)
  {
    seq(|parts|, i requires 0 <= i < |parts| => PartValue(w, parts[i], vals))
  }

  /** The slot list after the parts listed in `idx` are re-evaluated (the
      `evalList` thunks, each assigning slot `2*i+1`). */
  function Refreshed(w: World, slots: seq<Value>, parts: seq<Part>, idx: seq<nat>, vals: map<SigId, Value>): (r: seq<Value>)
    requires |slots| == 2 * |parts| + 1 && SigsIn(parts, vals)
    requires forall k :: 0 <= k < |idx| ==> idx[k] < |parts|
    ensures |r| == |slots|
  {
    seq(|slots|, k requires 0 <= k < |slots| =>
      if k % 2 == 1 && k / 2 in idx then PartValue(w, parts[k / 2], vals) else slots[k])
  }

  /** Re-evaluating no part changes nothing. */
  lemma RefreshedNone(w: World, slots: seq<Value>, parts: seq<Part>, vals: map<SigId, Value>)
    requires |slots| == 2 * |parts| + 1 && SigsIn(parts, vals)
    ensures Refreshed(w, slots, parts, [], vals) == slots
  {
  }

  /** The signals of the signal parts among the parts listed in `idx`. */
  function SigParts(parts: seq<Part>, idx: seq<nat>): (r: set<SigId>)
    requires forall k :: 0 <= k < |idx| ==> idx[k] < |parts|
    ensures forall k :: 0 <= k < |idx| && parts[idx[k]].Sig? ==> parts[idx[k]].s in r
  {
    set k | 0 <= k < |idx| && parts[idx[k]].Sig? :: parts[idx[k]].s
  }

  lemma SigPartsStep(parts: seq<Part>, idx: seq<nat>, j: nat)
    requires (forall k :: 0 <= k < |idx| ==> idx[k] < |parts|) && j < |parts|
    ensures SigParts(parts, idx + [j]) == SigParts(parts, idx) + if parts[j].Sig? then {parts[j].s} else {}
  {
    var a, b := SigParts(parts, idx + [j]), SigParts(parts, idx) + if parts[j].Sig? then {parts[j].s} else {};
    forall t | t in a ensures t in b {
      var k :| 0 <= k < |idx + [j]| && parts[(idx + [j])[k]].Sig? && parts[(idx + [j])[k]].s == t;
      if k < |idx| {
        assert (idx + [j])[k] == idx[k];
      }
    }
    forall t | t in b ensures t in a {
      if t in SigParts(parts, idx) {
        var k :| 0 <= k < |idx| && parts[idx[k]].Sig? && parts[idx[k]].s == t;
        assert (idx + [j])[k] == idx[k];
      } else {
        assert (idx + [j])[|idx|] == j;
      }
    }
  }

  /** The tracked parts hold every signal part. */
  lemma SigPartsTracked(parts: seq<Part>)
    ensures forall i :: 0 <= i < |parts| && parts[i].Sig? ==> parts[i].s in SigParts(parts, Tracked(parts, |parts|))
  {
    var idx := Tracked(parts, |parts|);
    TrackedIndices(parts, |parts|);
    forall i | 0 <= i < |parts| && parts[i].Sig? ensures parts[i].s in SigParts(parts, idx) {
      assert i in idx;
      var k :| 0 <= k < |idx| && idx[k] == i;
    }
  }

  /** Re-evaluating one more part changes its slot only. */
  lemma RefreshedStep(w: World, slots: seq<Value>, parts: seq<Part>, idx: seq<nat>, j: nat, vals: map<SigId, Value>)
    requires |slots| == 2 * |parts| + 1 && SigsIn(parts, vals)
    requires forall k :: 0 <= k < |idx| ==> idx[k] < |parts|
    requires j < |parts|
    ensures Refreshed(w, slots, parts, idx + [j], vals)
         == Refreshed(w, slots, parts, idx, vals)[2 * j + 1 := PartValue(w, parts[j], vals)]
  {
    var a := Refreshed(w, slots, parts, idx + [j], vals);
    var b := Refreshed(w, slots, parts, idx, vals)[2 * j + 1 := PartValue(w, parts[j], vals)];
    forall k | 0 <= k < |slots| ensures a[k] == b[k] {
      if k == 2 * j + 1 {
        assert k % 2 == 1 && k / 2 == j;
      } else if k % 2 == 1 && k / 2 == j {
        assert false;
      }
    }
  }

  /** Once a mux is active (its literals placed, its function and signal
      parts tracked), a flush publishes the template read with every part's
      current value. */
  lemma FlushText(w: World, frags: seq<string>, parts: seq<Part>, slots: seq<Value>, vals: map<SigId, Value>)
    requires |frags| == |parts| + 1 && |slots| == 2 * |parts| + 1 && SigsIn(parts, vals)
    requires forall i :: 0 <= i < |frags| ==> slots[2 * i] == Text(frags[i])
    requires forall i :: 0 <= i < |parts| && parts[i].Literal? ==> slots[2 * i + 1] == parts[i].v
    ensures Concat(Refreshed(w, slots, parts, Tracked(parts, |parts|), vals))
         == Interleave(frags, PartValues(w, parts, vals))
  {
    TrackedIndices(parts, |parts|);
    RefreshedLaid(w, frags, parts, slots, vals);
    ConcatInterleaves(Refreshed(w, slots, parts, Tracked(parts, |parts|), vals), frags, PartValues(w, parts, vals));
  }

  lemma RefreshedLaid(w: World, frags: seq<string>, parts: seq<Part>, slots: seq<Value>, vals: map<SigId, Value>)
    requires |frags| == |parts| + 1 && |slots| == 2 * |parts| + 1 && SigsIn(parts, vals)
    requires forall i :: 0 <= i < |frags| ==> slots[2 * i] == Text(frags[i])
    requires forall i :: 0 <= i < |parts| && parts[i].Literal? ==> slots[2 * i + 1] == parts[i].v
    ensures Laid(Refreshed(w, slots, parts, Tracked(parts, |parts|), vals), frags, PartValues(w, parts, vals))
  {
    var idx := Tracked(parts, |parts|);
    TrackedIndices(parts, |parts|);
    var r := Refreshed(w, slots, parts, idx, vals);
    forall i | 0 <= i < |frags| ensures r[2 * i] == Text(frags[i]) {
      RefreshedEven(w, slots, parts, idx, vals, i);
    }
    forall i | 0 <= i < |parts| ensures r[2 * i + 1] == PartValues(w, parts, vals)[i] {
      RefreshedOdd(w, slots, parts, idx, vals, i);
    }
  }

  /** A fragment slot is never re-evaluated. */
  lemma RefreshedEven(w: World, slots: seq<Value>, parts: seq<Part>, idx: seq<nat>, vals: map<SigId, Value>, i: nat)
    requires |slots| == 2 * |parts| + 1 && SigsIn(parts, vals)
    requires forall k :: 0 <= k < |idx| ==> idx[k] < |parts|
    requires i <= |parts|
    ensures Refreshed(w, slots, parts, idx, vals)[2 * i] == slots[2 * i]
  {
    assert (2 * i) % 2 == 0;
  }

  /** The slot of part `i` holds its value when the part is tracked, and
      what it held before otherwise. */
  lemma RefreshedOdd(w: World, slots: seq<Value>, parts: seq<Part>, idx: seq<nat>, vals: map<SigId, Value>, i: nat)
    requires |slots| == 2 * |parts| + 1 && SigsIn(parts, vals)
    requires forall k :: 0 <= k < |idx| ==> idx[k] < |parts|
    requires i < |parts|
    ensures Refreshed(w, slots, parts, idx, vals)[2 * i + 1] ==
      if i in idx then PartValue(w, parts[i], vals) else slots[2 * i + 1]
  {
    var k := 2 * i + 1;
    assert k % 2 == 1 && k / 2 == i;
  }

  /** Flushing twice with the same signal values gives the same slots, so
      the second publication writes an equal string. */
  lemma RefreshedTwice(w: World, slots: seq<Value>, parts: seq<Part>, idx: seq<nat>, vals: map<SigId, Value>)
    requires |slots| == 2 * |parts| + 1 && SigsIn(parts, vals)
    requires forall k :: 0 <= k < |idx| ==> idx[k] < |parts|
    ensures Refreshed(w, Refreshed(w, slots, parts, idx, vals), parts, idx, vals) == Refreshed(w, slots, parts, idx, vals)
  {
  }
}
