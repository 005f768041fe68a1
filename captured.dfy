/** The state the engine's closures capture (a signal's value, receivers
    and cleanups; a mux's slot list, counters and upstream wiring; the
    global tracking slot), the invariant the engine keeps over it, and how
    each kind of update keeps that invariant. */
module Captured {
  import opened Types
  import opened Receivers
  import opened MuxText
  import Notify

  /** The state a signal's closure captures: `val`, the `receivers` set and
      the `cleanups` map. */
  datatype SigState = SigState(val: Value, receivers: seq<Handler>, cleanups: map<Handler, CleanupId>)

  /** The global `monitorCallBack`: nothing, a monitor's re-run callback,
      or a mux (a function carrying the signal tag) while it activates. */
  datatype Tracker = NoTracker | MonitorTracker(m: MonId) | MuxTracker(x: MuxId)

  /** `isUberSignal` applied to the tracking slot. */
  predicate IsUberSignal(t: Tracker) {
    t.MuxTracker?
  }

  /** The state a mux's closure captures, apart from its upstream wiring. */
  datatype MuxState = MuxState(
    frags: seq<string>,      // the static strings
    parts: seq<Part>,        // the dynamic arguments
    valList: seq<Value>,     // fragments at even slots, part values at odd slots
    depth: int,              // batchDepth
    handlerCount: int,       // subscribers counted by connect
    evalList: seq<nat>,      // the parts re-evaluated at each flush, by index
    str: SigId)              // the inner result signal strMux

  /** A mux's upstream wiring: `disconnectList` (null while inactive; an
      entry `Some(s)` stands for `() => s.disconnect(flush)`) and
      `watchingSignals`. */
  datatype Links = Links(disconnectList: Option<seq<Option<SigId>>>, watching: set<SigId>)

  /** The current value of every signal. */
  function Values(sigs: map<SigId, SigState>): (vals: map<SigId, Value>)
    ensures vals.Keys == sigs.Keys
    ensures forall s :: s in sigs ==> vals[s] == sigs[s].val
  {
    map s | s in sigs :: sigs[s].val
  }

  /** The cleanup map after `cleanups.delete(h)` behind an `if (cleanup)`. */
  function Dropped(cl: map<Handler, CleanupId>, h: Handler): (r: map<Handler, CleanupId>)
    ensures h !in r && forall g :: g != h ==> (g in r <==> g in cl) && (g in r ==> r[g] == cl[g])
  {
    if h in cl then cl - {h} else cl
  }

  // ---------------------------------------------------------------- the invariant

  /** The ids in use are exactly those below the counter. */
  ghost predicate Dense(keys: set<nat>, n: nat) {
    forall k: nat :: k in keys <==> k < n
  }

  ghost predicate HandlerIn(h: Handler, nMon: nat, nMux: nat) {
    match h
    case User(_) => true
    case MonitorCb(m) => m < nMon
    case MuxFlush(x) => x < nMux
  }

  /** Mux `x` is active and its disconnect list holds `s.disconnect(flush)`. */
  ghost predicate Listed(s: SigId, x: MuxId, links: map<MuxId, Links>) {
    x in links && links[x].disconnectList.Some? && Some(s) in links[x].disconnectList.value
  }

  /** Every signal holding the flush of mux `x` got it from the mux's own
      wiring (activation or `watch`), not from client code connecting the
      public `flush`. */
  ghost predicate OnlyWired(sigs: map<SigId, SigState>, x: MuxId, links: map<MuxId, Links>) {
    forall s :: s in sigs && MuxFlush(x) in sigs[s].receivers ==> Listed(s, x, links)
  }

  /** No signal holds the flush of mux `x`. */
  ghost predicate Unheld(sigs: map<SigId, SigState>, x: MuxId) {
    forall s :: s in sigs ==> MuxFlush(x) !in sigs[s].receivers
  }

  /** The flush of every mux outside `client` is held only where the mux's
      own wiring put it; `client` holds the muxes whose public `flush`
      client code connected to a signal outside the mux's list. */
  ghost predicate FlushesWired(sigs: map<SigId, SigState>, links: map<MuxId, Links>, client: set<MuxId>) {
    forall x :: x !in client ==> OnlyWired(sigs, x, links)
  }

  /** `client` after `connect(h)` on signal `s`: a mux's flush connected
      outside the mux's own list marks that mux. */
  ghost function Flagged(client: set<MuxId>, s: SigId, h: Handler, links: map<MuxId, Links>): set<MuxId> {
    if h.MuxFlush? && !Listed(s, h.x, links) then client + {h.x} else client
  }

  /** A signal's receivers form a set of known handlers, and only client
      handlers have cleanups (a monitor's callback and a mux's flush return
      nothing). */
  ghost predicate SigOk(st: SigState, nMon: nat, nMux: nat) {
    && Distinct(st.receivers)
    && (forall h :: h in st.receivers ==> HandlerIn(h, nMon, nMux))
    && (forall h :: h in st.cleanups ==> h.User? && h in st.receivers)
  }

  ghost predicate SigsInv(sigs: map<SigId, SigState>, nMon: nat, nMux: nat) {
    forall s :: s in sigs ==> SigOk(sigs[s], nMon, nMux)
  }

  /** Every subscription a monitor recorded is to a signal in use. */
  ghost predicate MonsInv(mons: map<MonId, MonState>, nSig: nat) {
    forall m :: m in mons ==> forall k :: 0 <= k < |mons[m].disposers| ==> mons[m].disposers[k] < nSig
  }

  /** A mux's slot list matches its template, its result signal differs
      from its parts, and, exactly while active, it tracks every function
      and signal part and has its literals placed. */
  ghost predicate MuxOk(st: MuxState, ln: Links, nSig: nat) {
    && |st.frags| == |st.parts| + 1
    && |st.valList| == 2 * |st.parts| + 1
    && (forall i :: 0 <= i < |st.frags| ==> st.valList[2 * i] == Text(st.frags[i]))
    && st.depth >= 0
    && st.str < nSig
    && (forall i :: 0 <= i < |st.parts| && st.parts[i].Sig? ==> st.parts[i].s < nSig && st.parts[i].s != st.str)
    && (forall k :: 0 <= k < |st.evalList| ==> st.evalList[k] < |st.parts|)
    && (ln.disconnectList.None? ==> st.evalList == [])
    && (ln.disconnectList.Some? ==>
          && st.evalList == Tracked(st.parts, |st.parts|)
          && (forall i :: 0 <= i < |st.parts| && st.parts[i].Literal? ==> st.valList[2 * i + 1] == st.parts[i].v)
          && (forall k :: 0 <= k < |ln.disconnectList.value| && ln.disconnectList.value[k].Some? ==>
                ln.disconnectList.value[k].value < nSig))
  }

  ghost predicate MuxesInv(muxes: map<MuxId, MuxState>, links: map<MuxId, Links>, nSig: nat) {
    forall x :: x in muxes ==> x in links && MuxOk(muxes[x], links[x], nSig)
  }

  /** The tracking slot: a monitor's callback comes with that monitor's
      disposer list; a mux is the tracker only while active. */
  ghost predicate SlotInv(tracker: Tracker, disposeList: Option<MonId>, nMon: nat, links: map<MuxId, Links>) {
    && (disposeList.Some? ==> disposeList.value < nMon)
    && (tracker.MonitorTracker? ==> disposeList == Some(tracker.m))
    && (tracker.MuxTracker? ==> tracker.x in links && links[tracker.x].disconnectList.Some?)
  }

  /** The whole invariant over the engine's state. */
  ghost predicate Inv(sigs: map<SigId, SigState>, nSig: nat, mons: map<MonId, MonState>, nMon: nat,
                      muxes: map<MuxId, MuxState>, links: map<MuxId, Links>, nMux: nat,
                      tracker: Tracker, disposeList: Option<MonId>) {
    && Dense(sigs.Keys, nSig) && Dense(mons.Keys, nMon) && Dense(muxes.Keys, nMux) && Dense(links.Keys, nMux)
    && SigsInv(sigs, nMon, nMux)
    && MonsInv(mons, nSig)
    && MuxesInv(muxes, links, nSig)
    && SlotInv(tracker, disposeList, nMon, links)
  }

  // ---------------------------------------------------------------- relations between two states

  /** Every mux keeps its template and result signal. */
  ghost predicate SameTemplates(a: map<MuxId, MuxState>, b: map<MuxId, MuxState>) {
    forall x :: x in a ==> x in b && a[x].frags == b[x].frags && a[x].parts == b[x].parts && a[x].str == b[x].str
  }

  /** The signals a mux watches only grow. */
  ghost predicate WatchGrows(a: map<MuxId, Links>, b: map<MuxId, Links>) {
    forall x :: x in a ==> x in b && a[x].watching <= b[x].watching
  }

  /** Every monitor keeps its body. */
  ghost predicate SameBodies(a: map<MonId, MonState>, b: map<MonId, MonState>) {
    forall m :: m in a ==> m in b && a[m].body == b[m].body
  }

  /** No handler left any signal. */
  ghost predicate Grows(a: map<SigId, SigState>, b: map<SigId, SigState>) {
    && (forall s :: s in a ==> s in b)
    && (forall s, h :: s in a && h in a[s].receivers ==> h in b[s].receivers)
  }

  /** No handler joined any signal, and no signal appeared. */
  ghost predicate Shrinks(a: map<SigId, SigState>, b: map<SigId, SigState>) {
    && (forall s :: s in b ==> s in a)
    && (forall s, h :: s in b && h in b[s].receivers ==> s in a && h in a[s].receivers)
  }

  /** No active mux was deactivated. */
  ghost predicate StaysActive(a: map<MuxId, Links>, b: map<MuxId, Links>) {
    forall y :: y in a && a[y].disconnectList.Some? ==> y in b && b[y].disconnectList.Some?
  }

  /** The monitor being tracked (if any) gained exactly the subscriptions in
      `read`; every other monitor's list is as it was. */
  ghost predicate Subscribed(a: map<MonId, MonState>, b: map<MonId, MonState>, t: Tracker, read: seq<SigId>) {
    && a.Keys == b.Keys
    && forall m :: m in b ==> b[m].disposers == a[m].disposers + if t == MonitorTracker(m) then read else []
  }

  /** `h` is a receiver of every signal in `ids`. */
  ghost predicate Receives(sigs: map<SigId, SigState>, h: Handler, ids: seq<SigId>) {
    forall k :: 0 <= k < |ids| ==> ids[k] in sigs && h in sigs[ids[k]].receivers
  }

  /** The signals after handler `h` is removed from each signal in `ids`. */
  function Detached(sigs: map<SigId, SigState>, ids: set<SigId>, h: Handler): (r: map<SigId, SigState>)
    ensures r.Keys == sigs.Keys
  {
    map s | s in sigs :: if s in ids then sigs[s].(receivers := Remove(sigs[s].receivers, h)) else sigs[s]
  }

  /** The signals after handler `h` is added to each signal in `ids`. */
  function Attached(sigs: map<SigId, SigState>, ids: set<SigId>, h: Handler): (r: map<SigId, SigState>)
    ensures r.Keys == sigs.Keys
  {
    map s | s in sigs :: if s in ids then sigs[s].(receivers := Add(sigs[s].receivers, h)) else sigs[s]
  }

  /** The `disconnectList` a mux's activation builds: one entry per part,
      a disconnector for a signal part and null otherwise. */
  function Wiring(parts: seq<Part>): (dl: seq<Option<SigId>>)
    ensures |dl| == |parts|
    ensures forall i :: 0 <= i < |parts| ==> (dl[i].Some? <==> parts[i].Sig?)
    ensures forall i :: 0 <= i < |parts| && parts[i].Sig? ==> dl[i] == Some(parts[i].s)
  {
    seq(|parts|, i requires 0 <= i < |parts| => if parts[i].Sig? then Some(parts[i].s) else None)
  }

  /** The signals a disconnect list disconnects. */
  function Targets(dl: seq<Option<SigId>>): set<SigId> {
    set k | 0 <= k < |dl| && dl[k].Some? :: dl[k].value
  }

  /** The signals an activation wires the flush to (and its disconnect list
      later unwires) are exactly the signals among the parts. */
  lemma WiringTargets(parts: seq<Part>)
    ensures Targets(Wiring(parts)) == set i | 0 <= i < |parts| && parts[i].Sig? :: parts[i].s
  {
    var dl := Wiring(parts);
    var sigParts := set i | 0 <= i < |parts| && parts[i].Sig? :: parts[i].s;
    forall t ensures t in Targets(dl) <==> t in sigParts {
      if t in Targets(dl) {
        var k :| 0 <= k < |dl| && dl[k].Some? && dl[k].value == t;
        assert parts[k].Sig? && parts[k].s == t;
      }
      if t in sigParts {
        var k :| 0 <= k < |parts| && parts[k].Sig? && parts[k].s == t;
        assert dl[k] == Some(t);
      }
    }
  }

  // ---------------------------------------------------------------- how updates keep the invariant

  lemma DenseSet<V>(m: map<nat, V>, n: nat, k: nat, v: V)
    requires Dense(m.Keys, n) && k in m
    ensures Dense(m[k := v].Keys, n)
  {
    assert m[k := v].Keys == m.Keys;
  }

  lemma DenseAdd<V>(m: map<nat, V>, n: nat, v: V)
    requires Dense(m.Keys, n)
    ensures n !in m && Dense(m[n := v].Keys, n + 1)
  {
  }

  /** Two maps whose ids are dense up to the same counter have the same ids. */
  lemma DenseSame(a: set<nat>, b: set<nat>, n: nat)
    requires Dense(a, n) && Dense(b, n)
    ensures a == b
  {
    assert forall k :: k in a <==> k in b;
  }

  lemma SigsInvSet(sigs: map<SigId, SigState>, s: SigId, st: SigState, nMon: nat, nMux: nat)
    requires SigsInv(sigs, nMon, nMux) && SigOk(st, nMon, nMux)
    ensures SigsInv(sigs[s := st], nMon, nMux)
  {
  }

  /** A signal's value plays no part in the invariant. */
  lemma SigOkVal(st: SigState, v: Value, nMon: nat, nMux: nat)
    requires SigOk(st, nMon, nMux)
    ensures SigOk(st.(val := v), nMon, nMux)
  {
  }

  /** Adding a known handler keeps a signal well formed. */
  lemma SigOkAdd(st: SigState, h: Handler, nMon: nat, nMux: nat)
    requires SigOk(st, nMon, nMux) && HandlerIn(h, nMon, nMux)
    ensures SigOk(st.(receivers := Add(st.receivers, h)), nMon, nMux)
  {
  }

  /** Removing a handler and its cleanup keeps a signal well formed. */
  lemma SigOkRemove(st: SigState, h: Handler, nMon: nat, nMux: nat)
    requires SigOk(st, nMon, nMux)
    ensures SigOk(st.(receivers := Remove(st.receivers, h), cleanups := Dropped(st.cleanups, h)), nMon, nMux)
  {
    RemoveDistinct(st.receivers, h);
  }

  lemma SigOkDrop(st: SigState, h: Handler, nMon: nat, nMux: nat)
    requires SigOk(st, nMon, nMux)
    ensures SigOk(st.(cleanups := st.cleanups - {h}), nMon, nMux)
  {
  }

  /** Storing the cleanup a client handler returned keeps a signal well formed. */
  lemma SigOkStore(st: SigState, h: Handler, c: CleanupId, nMon: nat, nMux: nat)
    requires SigOk(st, nMon, nMux) && h.User? && h in st.receivers
    ensures SigOk(st.(cleanups := st.cleanups[h := c]), nMon, nMux)
  {
  }

  /** More ids in use. */
  lemma SigsInvGrow(sigs: map<SigId, SigState>, nMon: nat, nMux: nat, nMon': nat, nMux': nat)
    requires SigsInv(sigs, nMon, nMux) && nMon <= nMon' && nMux <= nMux'
    ensures SigsInv(sigs, nMon', nMux')
  {
    forall s | s in sigs ensures SigOk(sigs[s], nMon', nMux') {
      assert SigOk(sigs[s], nMon, nMux);
    }
  }

  /** Removing handler `h` from the signals in `ids` keeps the invariant. */
  lemma SigsInvDetached(sigs: map<SigId, SigState>, ids: set<SigId>, h: Handler, nMon: nat, nMux: nat)
    requires SigsInv(sigs, nMon, nMux)
    requires forall s :: s in sigs ==> h !in sigs[s].cleanups
    ensures SigsInv(Detached(sigs, ids, h), nMon, nMux)
  {
    var r := Detached(sigs, ids, h);
    forall s | s in r ensures SigOk(r[s], nMon, nMux) {
      assert SigOk(sigs[s], nMon, nMux);
      if s in ids {
        SigOkRemove(sigs[s], h, nMon, nMux);
        assert Dropped(sigs[s].cleanups, h) == sigs[s].cleanups;
      }
    }
  }

  /** A signal's handler that is not a client's has no cleanup. */
  lemma NoCleanup(sigs: map<SigId, SigState>, h: Handler, nMon: nat, nMux: nat)
    requires SigsInv(sigs, nMon, nMux) && !h.User?
    ensures forall s :: s in sigs ==> h !in sigs[s].cleanups
  {
    forall s | s in sigs ensures h !in sigs[s].cleanups {
      assert SigOk(sigs[s], nMon, nMux);
    }
  }

  /** One more signal detached, in the order the loops visit them. */
  lemma DetachedStep(sigs: map<SigId, SigState>, ids: set<SigId>, s: SigId, h: Handler)
    requires s in sigs
    ensures var d := Detached(sigs, ids, h);
      Detached(sigs, ids + {s}, h) == d[s := d[s].(receivers := Remove(d[s].receivers, h))]
  {
    var d := Detached(sigs, ids, h);
    RemoveTwice(sigs[s].receivers, h);
    assert Detached(sigs, ids + {s}, h) == d[s := d[s].(receivers := Remove(d[s].receivers, h))];
  }

  /** One more signal attached. */
  lemma AttachedStep(sigs: map<SigId, SigState>, ids: set<SigId>, s: SigId, h: Handler)
    requires s in sigs
    ensures var a := Attached(sigs, ids, h);
      Attached(sigs, ids + {s}, h) == a[s := a[s].(receivers := Add(a[s].receivers, h))]
  {
    var a := Attached(sigs, ids, h);
    AddTwice(sigs[s].receivers, h);
    assert Attached(sigs, ids + {s}, h) == a[s := a[s].(receivers := Add(a[s].receivers, h))];
  }

  /** Detaching adds no receiver. */
  lemma ShrinksDetached(a: map<SigId, SigState>, ids: set<SigId>, h: Handler)
    ensures Shrinks(a, Detached(a, ids, h))
  {
  }

  /** Detaching and attaching leave every value as it was. */
  lemma ValuesDetached(sigs: map<SigId, SigState>, ids: set<SigId>, h: Handler)
    ensures Values(Detached(sigs, ids, h)) == Values(sigs) && Values(Attached(sigs, ids, h)) == Values(sigs)
  {
  }

  lemma ValuesSet(sigs: map<SigId, SigState>, s: SigId, st: SigState)
    requires s in sigs && st.val == sigs[s].val
    ensures Values(sigs[s := st]) == Values(sigs)
  {
  }

  /** Storing a signal's state changes that signal's value only. */
  lemma ValuesPut(sigs: map<SigId, SigState>, s: SigId, st: SigState)
    ensures Values(sigs[s := st]) == Values(sigs)[s := st.val]
  {
  }

  /** From `a` to `b` every signal but `s` kept its value. */
  ghost predicate OnlyResult(s: SigId, a: map<SigId, SigState>, b: map<SigId, SigState>) {
    s in b && Values(b) == Values(a)[s := b[s].val]
  }

  lemma OnlyResultNone(s: SigId, a: map<SigId, SigState>)
    requires s in a
    ensures OnlyResult(s, a, a)
  {
    assert Values(a)[s := a[s].val] == Values(a);
  }

  /** Two updates that change only signal `s`'s value change only its value. */
  lemma ValuesOnly(a: map<SigId, SigState>, b: map<SigId, SigState>, c: map<SigId, SigState>, s: SigId)
    requires OnlyResult(s, a, b) && OnlyResult(s, b, c)
    ensures OnlyResult(s, a, c)
  {
  }

  lemma TargetsStep(dl: seq<Option<SigId>>, i: nat)
    requires i < |dl|
    ensures Targets(dl[..i + 1]) == Targets(dl[..i]) + if dl[i].Some? then {dl[i].value} else {}
  {
    var a := dl[..i + 1];
    var b := dl[..i];
    forall t ensures t in Targets(a) <==> t in Targets(b) + if dl[i].Some? then {dl[i].value} else {} {
      if t in Targets(a) {
        var k :| 0 <= k < |a| && a[k].Some? && a[k].value == t;
        if k < i {
          assert b[k] == a[k];
        }
      }
      if t in Targets(b) {
        var k :| 0 <= k < |b| && b[k].Some? && b[k].value == t;
        assert a[k] == b[k];
      }
    }
  }

  // ---------------------------------------------------------------- where flushes are held

  /** Setting one signal whose every flush receiver outside `client` was
      already there or is listed by its mux. */
  lemma WiredSet(sigs: map<SigId, SigState>, links: map<MuxId, Links>, client: set<MuxId>, s: SigId, st: SigState)
    requires FlushesWired(sigs, links, client)
    requires forall h :: h in st.receivers && h.MuxFlush? && h.x !in client ==>
               (s in sigs && h in sigs[s].receivers) || Listed(s, h.x, links)
    ensures FlushesWired(sigs[s := st], links, client)
  {
    var r := sigs[s := st];
    forall x | x !in client ensures OnlyWired(r, x, links) {
      assert OnlyWired(sigs, x, links);
      forall t | t in r && MuxFlush(x) in r[t].receivers ensures Listed(t, x, links) {
        if t == s {
          assert MuxFlush(x) in st.receivers;
        }
      }
    }
  }

  /** A `connect` of `h` to signal `s`, with `client` marking the mux of a
      flush connected outside its list. */
  lemma WiredConnect(sigs: map<SigId, SigState>, links: map<MuxId, Links>, client: set<MuxId>, s: SigId, h: Handler)
    requires FlushesWired(sigs, links, client) && s in sigs
    ensures client <= Flagged(client, s, h, links)
    ensures FlushesWired(sigs, links, Flagged(client, s, h, links))
    ensures h.MuxFlush? && h.x !in Flagged(client, s, h, links) ==> Listed(s, h.x, links)
  {
    var c := Flagged(client, s, h, links);
    forall x | x !in c ensures OnlyWired(sigs, x, links) {
      assert x !in client;
    }
  }

  /** Changing the wiring of mux `x` in a way that keeps its flush held
      only where listed. */
  lemma WiredLinks(sigs: map<SigId, SigState>, links: map<MuxId, Links>, client: set<MuxId>, x: MuxId, ln: Links)
    requires FlushesWired(sigs, links, client)
    requires x !in client ==> OnlyWired(sigs, x, links[x := ln])
    ensures FlushesWired(sigs, links[x := ln], client)
  {
    var l1 := links[x := ln];
    forall z | z !in client ensures OnlyWired(sigs, z, l1) {
      if z != x {
        assert OnlyWired(sigs, z, links);
        forall t | t in sigs && MuxFlush(z) in sigs[t].receivers ensures Listed(t, z, l1) {
          assert Listed(t, z, links);
        }
      }
    }
  }

  /** A watch's new entry keeps every listed signal listed. */
  lemma OnlyWiredPush(sigs: map<SigId, SigState>, x: MuxId, links: map<MuxId, Links>, e: Option<SigId>, w: set<SigId>)
    requires OnlyWired(sigs, x, links) && x in links && links[x].disconnectList.Some?
    ensures OnlyWired(sigs, x, links[x := Links(Some(links[x].disconnectList.value + [e]), w)])
  {
    var dl := links[x].disconnectList.value;
    forall t | t in sigs && MuxFlush(x) in sigs[t].receivers
      ensures Listed(t, x, links[x := Links(Some(dl + [e]), w)])
    {
      assert Some(t) in dl;
      var k :| 0 <= k < |dl| && dl[k] == Some(t);
      assert (dl + [e])[k] == Some(t);
    }
  }

  /** The flush of a mux with a null list that only its wiring connects is
      held nowhere. */
  lemma InactiveUnheld(sigs: map<SigId, SigState>, x: MuxId, links: map<MuxId, Links>)
    requires OnlyWired(sigs, x, links) && x in links && links[x].disconnectList.None?
    ensures Unheld(sigs, x)
  {
  }

  /** A flush held nowhere is held only where listed, whatever the wiring. */
  lemma UnheldWired(sigs: map<SigId, SigState>, x: MuxId, links: map<MuxId, Links>)
    requires Unheld(sigs, x)
    ensures OnlyWired(sigs, x, links)
  {
  }

  /** Forgetting the wiring of mux `x`, whose flush no signal holds unless
      client code connected it, keeps every unmarked flush wired-only. */
  lemma WiredForget(sigs: map<SigId, SigState>, links: map<MuxId, Links>, client: set<MuxId>, x: MuxId, ln: Links)
    requires FlushesWired(sigs, links, client) && (x !in client ==> Unheld(sigs, x))
    ensures FlushesWired(sigs, links[x := ln], client)
  {
    if x !in client {
      UnheldWired(sigs, x, links[x := ln]);
    }
    WiredLinks(sigs, links, client, x, ln);
  }

  /** The flush of a mux not created yet is held nowhere. */
  lemma UnheldNew(sigs: map<SigId, SigState>, nMon: nat, nMux: nat)
    requires SigsInv(sigs, nMon, nMux)
    ensures Unheld(sigs, nMux)
  {
    forall s | s in sigs ensures MuxFlush(nMux) !in sigs[s].receivers {
      assert SigOk(sigs[s], nMon, nMux);
    }
  }

  /** Once every signal its list names is detached, no signal has the flush
      of mux `x` as a receiver, provided only the mux's own wiring connected
      it. */
  lemma DetachedListed(sigs: map<SigId, SigState>, x: MuxId, links: map<MuxId, Links>)
    requires OnlyWired(sigs, x, links) && x in links && links[x].disconnectList.Some?
    ensures Unheld(Detached(sigs, Targets(links[x].disconnectList.value), MuxFlush(x)), x)
  {
    var dl := links[x].disconnectList.value;
    var r := Detached(sigs, Targets(dl), MuxFlush(x));
    forall s | s in r ensures MuxFlush(x) !in r[s].receivers {
      if MuxFlush(x) in sigs[s].receivers {
        var k :| 0 <= k < |dl| && dl[k] == Some(s);
        assert s in Targets(dl);
      }
    }
  }

  lemma MonsInvSet(mons: map<MonId, MonState>, m: MonId, ms: MonState, nSig: nat)
    requires MonsInv(mons, nSig)
    requires forall k :: 0 <= k < |ms.disposers| ==> ms.disposers[k] < nSig
    ensures MonsInv(mons[m := ms], nSig)
  {
  }

  lemma MonsInvGrow(mons: map<MonId, MonState>, nSig: nat, nSig': nat)
    requires MonsInv(mons, nSig) && nSig <= nSig'
    ensures MonsInv(mons, nSig')
  {
  }

  lemma MuxesInvSet(muxes: map<MuxId, MuxState>, links: map<MuxId, Links>, x: MuxId, st: MuxState, nSig: nat)
    requires MuxesInv(muxes, links, nSig) && x in links && MuxOk(st, links[x], nSig)
    ensures MuxesInv(muxes[x := st], links, nSig)
  {
  }

  lemma MuxesInvLinks(muxes: map<MuxId, MuxState>, links: map<MuxId, Links>, x: MuxId, ln: Links, nSig: nat)
    requires MuxesInv(muxes, links, nSig) && (x in muxes ==> MuxOk(muxes[x], ln, nSig))
    ensures MuxesInv(muxes, links[x := ln], nSig)
  {
  }

  lemma MuxesInvGrow(muxes: map<MuxId, MuxState>, links: map<MuxId, Links>, nSig: nat, nSig': nat)
    requires MuxesInv(muxes, links, nSig) && nSig <= nSig'
    ensures MuxesInv(muxes, links, nSig')
  {
    forall x | x in muxes ensures x in links && MuxOk(muxes[x], links[x], nSig') {
      assert MuxOk(muxes[x], links[x], nSig);
    }
  }

  /** The counters of a mux play no part in its invariant, beyond the depth
      never being negative. */
  lemma MuxOkCounters(st: MuxState, ln: Links, nSig: nat, depth: int, count: int)
    requires MuxOk(st, ln, nSig) && depth >= 0
    ensures MuxOk(st.(depth := depth, handlerCount := count), ln, nSig)
  {
  }

  /** Re-evaluating a tracked part keeps the slot list well formed. */
  lemma MuxOkSlot(st: MuxState, ln: Links, nSig: nat, j: nat, v: Value)
    requires MuxOk(st, ln, nSig) && j < |st.parts|
    requires ln.disconnectList.Some? ==> !st.parts[j].Literal?
    ensures MuxOk(st.(valList := st.valList[2 * j + 1 := v]), ln, nSig)
  {
    var vl := st.valList[2 * j + 1 := v];
    forall i | 0 <= i < |st.frags| ensures vl[2 * i] == Text(st.frags[i]) {
      assert 2 * i != 2 * j + 1;
    }
    if ln.disconnectList.Some? {
      forall i | 0 <= i < |st.parts| && st.parts[i].Literal? ensures vl[2 * i + 1] == st.parts[i].v {
        assert i != j;
      }
    }
  }

  /** A watch that pushes one more disconnector keeps an active mux well formed. */
  lemma MuxOkWatch(st: MuxState, ln: Links, nSig: nat, s: SigId)
    requires MuxOk(st, ln, nSig) && ln.disconnectList.Some? && s < nSig
    ensures MuxOk(st, Links(Some(ln.disconnectList.value + [Some(s)]), ln.watching + {s}), nSig)
  {
    var dl := ln.disconnectList.value + [Some(s)];
    forall k | 0 <= k < |dl| && dl[k].Some? ensures dl[k].value < nSig {
      if k < |ln.disconnectList.value| {
        assert dl[k] == ln.disconnectList.value[k];
      }
    }
  }

  /** A destroyed mux: nothing tracked, no subscribers, no disconnect list. */
  lemma MuxOkDestroyed(st: MuxState, ln: Links, nSig: nat)
    requires MuxOk(st, ln, nSig)
    ensures MuxOk(st.(evalList := [], handlerCount := 0), Links(None, ln.watching), nSig)
  {
  }

  lemma SlotInvLinks(t: Tracker, d: Option<MonId>, nMon: nat, links: map<MuxId, Links>, links': map<MuxId, Links>)
    requires SlotInv(t, d, nMon, links) && StaysActive(links, links')
    ensures SlotInv(t, d, nMon, links')
  {
  }

  // ---------------------------------------------------------------- relations compose

  lemma SameTemplatesTrans(a: map<MuxId, MuxState>, b: map<MuxId, MuxState>, c: map<MuxId, MuxState>)
    requires SameTemplates(a, b) && SameTemplates(b, c)
    ensures SameTemplates(a, c)
  {
  }

  lemma WatchGrowsTrans(a: map<MuxId, Links>, b: map<MuxId, Links>, c: map<MuxId, Links>)
    requires WatchGrows(a, b) && WatchGrows(b, c)
    ensures WatchGrows(a, c)
  {
  }

  lemma SameBodiesTrans(a: map<MonId, MonState>, b: map<MonId, MonState>, c: map<MonId, MonState>)
    requires SameBodies(a, b) && SameBodies(b, c)
    ensures SameBodies(a, c)
  {
  }

  lemma GrowsTrans(a: map<SigId, SigState>, b: map<SigId, SigState>, c: map<SigId, SigState>)
    requires Grows(a, b) && Grows(b, c)
    ensures Grows(a, c)
  {
  }

  lemma StaysActiveTrans(a: map<MuxId, Links>, b: map<MuxId, Links>, c: map<MuxId, Links>)
    requires StaysActive(a, b) && StaysActive(b, c)
    ensures StaysActive(a, c)
  {
  }

  lemma SubscribedTrans(a: map<MonId, MonState>, b: map<MonId, MonState>, c: map<MonId, MonState>, t: Tracker,
                        r1: seq<SigId>, r2: seq<SigId>)
    requires Subscribed(a, b, t, r1) && Subscribed(b, c, t, r2)
    ensures Subscribed(a, c, t, r1 + r2)
  {
    forall m | m in c ensures c[m].disposers == a[m].disposers + if t == MonitorTracker(m) then r1 + r2 else [] {
      if t == MonitorTracker(m) {
        assert c[m].disposers == (a[m].disposers + r1) + r2;
      } else {
        assert c[m].disposers == (a[m].disposers + []) + [];
      }
    }
  }

  /** Nothing changed is every relation's base case. */
  lemma Unchanged(sigs: map<SigId, SigState>, mons: map<MonId, MonState>, muxes: map<MuxId, MuxState>, links: map<MuxId, Links>)
    ensures Grows(sigs, sigs) && SameBodies(mons, mons) && SameTemplates(muxes, muxes)
    ensures WatchGrows(links, links) && StaysActive(links, links)
  {
  }

  /** Every relation that only grows or stays, from one state to another. */
  ghost predicate Evolved(s0: map<SigId, SigState>, m0: map<MonId, MonState>, x0: map<MuxId, MuxState>, l0: map<MuxId, Links>,
                          s1: map<SigId, SigState>, m1: map<MonId, MonState>, x1: map<MuxId, MuxState>, l1: map<MuxId, Links>) {
    SameTemplates(x0, x1) && WatchGrows(l0, l1) && SameBodies(m0, m1) && Grows(s0, s1) && StaysActive(l0, l1)
  }

  lemma EvolvedTrans(s0: map<SigId, SigState>, m0: map<MonId, MonState>, x0: map<MuxId, MuxState>, l0: map<MuxId, Links>,
                     s1: map<SigId, SigState>, m1: map<MonId, MonState>, x1: map<MuxId, MuxState>, l1: map<MuxId, Links>,
                     s2: map<SigId, SigState>, m2: map<MonId, MonState>, x2: map<MuxId, MuxState>, l2: map<MuxId, Links>)
    requires Evolved(s0, m0, x0, l0, s1, m1, x1, l1) && Evolved(s1, m1, x1, l1, s2, m2, x2, l2)
    ensures Evolved(s0, m0, x0, l0, s2, m2, x2, l2)
  {
    SameTemplatesTrans(x0, x1, x2);
    WatchGrowsTrans(l0, l1, l2);
    SameBodiesTrans(m0, m1, m2);
    GrowsTrans(s0, s1, s2);
    StaysActiveTrans(l0, l1, l2);
  }

  lemma EvolvedNone(sigs: map<SigId, SigState>, mons: map<MonId, MonState>, muxes: map<MuxId, MuxState>, links: map<MuxId, Links>, t: Tracker)
    ensures Evolved(sigs, mons, muxes, links, sigs, mons, muxes, links)
    ensures Subscribed(mons, mons, t, [])
  {
  }

  /** Updating one mux's counters or slots keeps its template. */
  lemma SameTemplatesSet(a: map<MuxId, MuxState>, x: MuxId, st: MuxState)
    requires x in a && st.frags == a[x].frags && st.parts == a[x].parts && st.str == a[x].str
    ensures SameTemplates(a, a[x := st])
  {
  }

  /** Updating one mux's links so that it watches more. */
  lemma WatchGrowsSet(a: map<MuxId, Links>, x: MuxId, ln: Links)
    requires x in a && a[x].watching <= ln.watching
    ensures WatchGrows(a, a[x := ln])
  {
  }

  /** Updating one mux's links so that it stays active. */
  lemma StaysActiveSet(a: map<MuxId, Links>, x: MuxId, ln: Links)
    requires x in a && ln.disconnectList.Some?
    ensures StaysActive(a, a[x := ln])
  {
  }

  /** Updating one monitor so that it keeps its body. */
  lemma SameBodiesSet(a: map<MonId, MonState>, m: MonId, ms: MonState)
    requires m in a && ms.body == a[m].body
    ensures SameBodies(a, a[m := ms])
  {
  }

  /** Updating one signal so that it keeps its receivers. */
  lemma GrowsSet(a: map<SigId, SigState>, s: SigId, st: SigState)
    requires s in a && forall h :: h in a[s].receivers ==> h in st.receivers
    ensures Grows(a, a[s := st])
  {
  }

  lemma GrowsAttached(a: map<SigId, SigState>, ids: set<SigId>, h: Handler)
    ensures Grows(a, Attached(a, ids, h))
  {
  }

  /** A round that changes no subscription or body leaves the subscriptions
      of every monitor as they were. */
  lemma SameMonitorsKeep(a: map<MonId, MonState>, b: map<MonId, MonState>, t: Tracker)
    requires Notify.SameMonitors(a, b)
    ensures Subscribed(a, b, t, []) && SameBodies(a, b)
  {
  }

  /** Recording a subscription of monitor `m`. */
  lemma SubscribedPush(a: map<MonId, MonState>, m: MonId, read: seq<SigId>)
    requires m in a
    ensures Subscribed(a, a[m := a[m].(disposers := a[m].disposers + read)], MonitorTracker(m), read)
    ensures SameBodies(a, a[m := a[m].(disposers := a[m].disposers + read)])
  {
    assert a[m := a[m].(disposers := a[m].disposers + read)].Keys == a.Keys;
  }

  lemma SubscribedNone(a: map<MonId, MonState>, t: Tracker, read: seq<SigId>)
    requires !t.MonitorTracker?
    ensures Subscribed(a, a, t, read)
  {
  }

  /** No step at all subscribes nothing. */
  lemma SubscribedSame(a: map<MonId, MonState>, t: Tracker)
    ensures Subscribed(a, a, t, [])
  {
    forall m | m in a ensures a[m].disposers == a[m].disposers + if t == MonitorTracker(m) then [] else [] {
      assert a[m].disposers + [] == a[m].disposers;
    }
  }

  lemma MapSetTwice<K, V>(m: map<K, V>, k: K, a: V, b: V)
    ensures m[k := a][k := b] == m[k := b]
  {
  }

  /** Nothing subscribed, then `read`: `read` in all. */
  lemma SubscribedThen(a: map<MonId, MonState>, b: map<MonId, MonState>, c: map<MonId, MonState>, t: Tracker, read: seq<SigId>)
    requires Subscribed(a, b, t, []) && Subscribed(b, c, t, read)
    ensures Subscribed(a, c, t, read)
  {
    SubscribedTrans(a, b, c, t, [], read);
    assert [] + read == read;
  }

  /** Subscriptions of nothing do not depend on who is tracking. */
  lemma SubscribedEmpty(a: map<MonId, MonState>, b: map<MonId, MonState>, t: Tracker, t': Tracker)
    requires Subscribed(a, b, t, [])
    ensures Subscribed(a, b, t', [])
  {
  }

  /** Deactivating a mux that is not the tracker. */
  lemma SlotInvDeactivate(t: Tracker, d: Option<MonId>, nMon: nat, links: map<MuxId, Links>, x: MuxId, ln: Links)
    requires SlotInv(t, d, nMon, links) && t != MuxTracker(x)
    ensures SlotInv(t, d, nMon, links[x := ln])
  {
  }

  /** `vl` is `slots` with every literal part's value in its slot (part `i`
      sits in slot `2 * i + 1`) and every other slot as it was. */
  ghost predicate Placed(parts: seq<Part>, slots: seq<Value>, vl: seq<Value>) {
    && |slots| == 2 * |parts| + 1 && |vl| == |slots|
    && forall k :: 0 <= k < |slots| ==>
         vl[k] == if k % 2 == 1 && parts[k / 2].Literal? then parts[k / 2].v else slots[k]
  }

  /** Activating an inactive mux: its literals placed, its function and
      signal parts tracked, its disconnect list built from its parts. */
  lemma MuxOkActivated(st: MuxState, ln: Links, nSig: nat, vl: seq<Value>)
    requires MuxOk(st, ln, nSig) && ln.disconnectList.None?
    requires Placed(st.parts, st.valList, vl)
    ensures MuxOk(st.(valList := vl, evalList := Tracked(st.parts, |st.parts|)),
                  Links(Some(Wiring(st.parts)), ln.watching), nSig)
  {
    forall i | 0 <= i < |st.frags| ensures vl[2 * i] == Text(st.frags[i]) {
      assert (2 * i) % 2 == 0;
    }
    forall i | 0 <= i < |st.parts| && st.parts[i].Literal? ensures vl[2 * i + 1] == st.parts[i].v {
      var k := 2 * i + 1;
      assert k % 2 == 1 && k / 2 == i;
    }
  }

  /** Updating a mux and its wiring together. */
  lemma MuxesInvPut(muxes: map<MuxId, MuxState>, links: map<MuxId, Links>, x: MuxId, st: MuxState, ln: Links, nSig: nat)
    requires MuxesInv(muxes, links, nSig) && MuxOk(st, ln, nSig)
    ensures MuxesInv(muxes[x := st], links[x := ln], nSig)
  {
  }

  /** Detaching a handler a second time changes nothing. */
  lemma DetachedTwice(sigs: map<SigId, SigState>, ids: set<SigId>, h: Handler)
    ensures Detached(Detached(sigs, ids, h), ids, h) == Detached(sigs, ids, h)
  {
    var d := Detached(sigs, ids, h);
    forall s | s in ids && s in sigs ensures Remove(d[s].receivers, h) == d[s].receivers {
      RemoveTwice(sigs[s].receivers, h);
    }
    assert Detached(d, ids, h) == d;
  }

  // ---------------------------------------------------------------- how each update keeps the invariant

  /** Updating one signal to a well-formed state. */
  lemma InvSig(sigs: map<SigId, SigState>, nSig: nat, mons: map<MonId, MonState>, nMon: nat,
               muxes: map<MuxId, MuxState>, links: map<MuxId, Links>, nMux: nat,
               tracker: Tracker, disposeList: Option<MonId>, s: SigId, st: SigState)
    requires Inv(sigs, nSig, mons, nMon, muxes, links, nMux, tracker, disposeList)
    requires s in sigs && SigOk(st, nMon, nMux)
    ensures Inv(sigs[s := st], nSig, mons, nMon, muxes, links, nMux, tracker, disposeList)
  {
    DenseSet(sigs, nSig, s, st);
    SigsInvSet(sigs, s, st, nMon, nMux);
  }

  /** Adding a signal with no receivers. */
  lemma InvNewSig(sigs: map<SigId, SigState>, nSig: nat, mons: map<MonId, MonState>, nMon: nat,
                  muxes: map<MuxId, MuxState>, links: map<MuxId, Links>, nMux: nat,
                  tracker: Tracker, disposeList: Option<MonId>, v: Value)
    requires Inv(sigs, nSig, mons, nMon, muxes, links, nMux, tracker, disposeList)
    ensures nSig !in sigs
    ensures Inv(sigs[nSig := SigState(v, [], map[])], nSig + 1, mons, nMon, muxes, links, nMux, tracker, disposeList)
  {
    DenseAdd(sigs, nSig, SigState(v, [], map[]));
    SigsInvSet(sigs, nSig, SigState(v, [], map[]), nMon, nMux);
    MonsInvGrow(mons, nSig, nSig + 1);
    MuxesInvGrow(muxes, links, nSig, nSig + 1);
  }

  /** Updating one monitor whose subscriptions are to signals in use. */
  lemma InvMon(sigs: map<SigId, SigState>, nSig: nat, mons: map<MonId, MonState>, nMon: nat,
               muxes: map<MuxId, MuxState>, links: map<MuxId, Links>, nMux: nat,
               tracker: Tracker, disposeList: Option<MonId>, m: MonId, ms: MonState)
    requires Inv(sigs, nSig, mons, nMon, muxes, links, nMux, tracker, disposeList)
    requires m in mons && forall k :: 0 <= k < |ms.disposers| ==> ms.disposers[k] < nSig
    ensures Inv(sigs, nSig, mons[m := ms], nMon, muxes, links, nMux, tracker, disposeList)
  {
    DenseSet(mons, nMon, m, ms);
    MonsInvSet(mons, m, ms, nSig);
  }

  /** Adding a monitor with no subscriptions. */
  lemma InvNewMon(sigs: map<SigId, SigState>, nSig: nat, mons: map<MonId, MonState>, nMon: nat,
                  muxes: map<MuxId, MuxState>, links: map<MuxId, Links>, nMux: nat,
                  tracker: Tracker, disposeList: Option<MonId>, body: BodyId)
    requires Inv(sigs, nSig, mons, nMon, muxes, links, nMux, tracker, disposeList)
    ensures nMon !in mons
    ensures Inv(sigs, nSig, mons[nMon := MonState(body, None, [])], nMon + 1, muxes, links, nMux, tracker, disposeList)
  {
    DenseAdd(mons, nMon, MonState(body, None, []));
    MonsInvSet(mons, nMon, MonState(body, None, []), nSig);
    SigsInvGrow(sigs, nMon, nMux, nMon + 1, nMux);
  }

  /** Updating one mux's state, keeping its wiring. */
  lemma InvMux(sigs: map<SigId, SigState>, nSig: nat, mons: map<MonId, MonState>, nMon: nat,
               muxes: map<MuxId, MuxState>, links: map<MuxId, Links>, nMux: nat,
               tracker: Tracker, disposeList: Option<MonId>, x: MuxId, st: MuxState)
    requires Inv(sigs, nSig, mons, nMon, muxes, links, nMux, tracker, disposeList)
    requires x in muxes && MuxOk(st, links[x], nSig)
    ensures Inv(sigs, nSig, mons, nMon, muxes[x := st], links, nMux, tracker, disposeList)
  {
    DenseSet(muxes, nMux, x, st);
    MuxesInvSet(muxes, links, x, st, nSig);
  }

  /** Updating one mux's state and wiring together. */
  lemma InvWire(sigs: map<SigId, SigState>, nSig: nat, mons: map<MonId, MonState>, nMon: nat,
                muxes: map<MuxId, MuxState>, links: map<MuxId, Links>, nMux: nat,
                tracker: Tracker, disposeList: Option<MonId>, x: MuxId, st: MuxState, ln: Links)
    requires Inv(sigs, nSig, mons, nMon, muxes, links, nMux, tracker, disposeList)
    requires x in muxes && MuxOk(st, ln, nSig)
    requires tracker == MuxTracker(x) ==> ln.disconnectList.Some?
    ensures Inv(sigs, nSig, mons, nMon, muxes[x := st], links[x := ln], nMux, tracker, disposeList)
  {
    DenseSet(muxes, nMux, x, st);
    DenseSet(links, nMux, x, ln);
    MuxesInvPut(muxes, links, x, st, ln, nSig);
  }

  /** Deactivating mux `x`, whose flush no signal holds unless client code
      connected it, keeps the invariant and every template. */
  lemma InvDeactivate(sigs: map<SigId, SigState>, nSig: nat, mons: map<MonId, MonState>, nMon: nat,
                      muxes: map<MuxId, MuxState>, links: map<MuxId, Links>, nMux: nat,
                      tracker: Tracker, disposeList: Option<MonId>, client: set<MuxId>, x: MuxId)
    requires Inv(sigs, nSig, mons, nMon, muxes, links, nMux, tracker, disposeList) && FlushesWired(sigs, links, client)
    requires x in muxes && tracker != MuxTracker(x) && (x !in client ==> Unheld(sigs, x))
    ensures x in links
    ensures var ln := Links(None, links[x].watching);
      var st := muxes[x].(evalList := [], handlerCount := 0);
      && Inv(sigs, nSig, mons, nMon, muxes[x := st], links[x := ln], nMux, tracker, disposeList)
      && FlushesWired(sigs, links[x := ln], client)
      && SameTemplates(muxes, muxes[x := st]) && WatchGrows(links, links[x := ln])
  {
    var ln := Links(None, links[x].watching);
    var st := muxes[x].(evalList := [], handlerCount := 0);
    MuxOkDestroyed(muxes[x], links[x], nSig);
    InvWire(sigs, nSig, mons, nMon, muxes, links, nMux, tracker, disposeList, x, st, ln);
    WiredForget(sigs, links, client, x, ln);
    SameTemplatesSet(muxes, x, st);
    WatchGrowsSet(links, x, ln);
  }

  /** Adding an inactive mux whose result signal is in use. */
  lemma InvNewMux(sigs: map<SigId, SigState>, nSig: nat, mons: map<MonId, MonState>, nMon: nat,
                  muxes: map<MuxId, MuxState>, links: map<MuxId, Links>, nMux: nat,
                  tracker: Tracker, disposeList: Option<MonId>, st: MuxState)
    requires Inv(sigs, nSig, mons, nMon, muxes, links, nMux, tracker, disposeList)
    requires MuxOk(st, Links(None, {}), nSig)
    ensures nMux !in muxes && nMux !in links
    ensures Inv(sigs, nSig, mons, nMon, muxes[nMux := st], links[nMux := Links(None, {})], nMux + 1, tracker, disposeList)
  {
    var ln := Links(None, {});
    DenseAdd(muxes, nMux, st);
    DenseAdd(links, nMux, ln);
    SigsInvGrow(sigs, nMon, nMux, nMon, nMux + 1);
    MuxesInvPut(muxes, links, nMux, st, ln, nSig);
  }

  /** Setting the tracking slot. */
  lemma InvSlot(sigs: map<SigId, SigState>, nSig: nat, mons: map<MonId, MonState>, nMon: nat,
                muxes: map<MuxId, MuxState>, links: map<MuxId, Links>, nMux: nat,
                tracker: Tracker, disposeList: Option<MonId>, t: Tracker, d: Option<MonId>)
    requires Inv(sigs, nSig, mons, nMon, muxes, links, nMux, tracker, disposeList)
    requires SlotInv(t, d, nMon, links)
    ensures Inv(sigs, nSig, mons, nMon, muxes, links, nMux, t, d)
  {
  }

  /** Updating one mux's wiring, keeping its state. */
  lemma InvLinks(sigs: map<SigId, SigState>, nSig: nat, mons: map<MonId, MonState>, nMon: nat,
                 muxes: map<MuxId, MuxState>, links: map<MuxId, Links>, nMux: nat,
                 tracker: Tracker, disposeList: Option<MonId>, x: MuxId, ln: Links)
    requires Inv(sigs, nSig, mons, nMon, muxes, links, nMux, tracker, disposeList)
    requires x in links && (x in muxes ==> MuxOk(muxes[x], ln, nSig))
    requires tracker == MuxTracker(x) ==> ln.disconnectList.Some?
    ensures Inv(sigs, nSig, mons, nMon, muxes, links[x := ln], nMux, tracker, disposeList)
  {
    DenseSet(links, nMux, x, ln);
    MuxesInvLinks(muxes, links, x, ln, nSig);
  }

  lemma ReceivesGrow(a: map<SigId, SigState>, b: map<SigId, SigState>, h: Handler, ids: seq<SigId>)
    requires Receives(a, h, ids) && Grows(a, b)
    ensures Receives(b, h, ids)
  {
  }

  lemma ReceivesPush(a: map<SigId, SigState>, h: Handler, ids: seq<SigId>, s: SigId)
    requires Receives(a, h, ids) && s in a && h in a[s].receivers
    ensures Receives(a, h, ids + [s])
  {
  }
}
