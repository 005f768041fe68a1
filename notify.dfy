/** What a signal's write does once the value has changed: one round over the
    receivers, each getting its stored cleanup run and dropped, then being
    called with `(new, old)`, and storing what it returns as its next cleanup.
    The round is specified here as a fold over the receivers; the lemmas say
    what the round amounts to. */
module Notify {
  import opened Types
  import opened Receivers

  /** A handler that names a monitor names one that exists. */
  ghost predicate Known(h: Handler, mons: map<MonId, MonState>) {
    h.MonitorCb? ==> h.m in mons
  }

  /** A round changes no monitor's body or subscriptions, only cleanups. */
  ghost predicate SameMonitors(a: map<MonId, MonState>, b: map<MonId, MonState>) {
    a.Keys == b.Keys &&
    forall m :: m in a ==> b[m].body == a[m].body && b[m].disposers == a[m].disposers
  }

  /** The re-run callback of monitor `m`: the stored cleanup (if any), then
      the body, whose result becomes the stored cleanup. */
  function Rerun(w: World, m: MonId, st: MonState, vals: map<SigId, Value>): (MonState, seq<Event>) {
    (st.(cleanup := w.body(st.body, vals)),
     (if st.cleanup.Some? then [RunCleanup(st.cleanup.value)] else []) + [RunBody(m)])
  }

  /** What a receiver call leaves behind. */
  datatype Outcome = Outcome(mons: map<MonId, MonState>, events: seq<Event>, ret: Option<CleanupId>)

  /** The cleanup a call to `h` returns: only client handlers return one;
      the monitor callback and the mux flush return nothing. */
  function Returned(w: World, h: Handler, args: seq<Value>): Option<CleanupId> {
    if h.User? then w.reply(h.u, args) else None
  }

  /** Calling receiver `h` with `args`. A client handler is recorded and
      returns what the client returns; a monitor callback re-runs the
      monitor; a mux flush called in this way is recorded and not run
      here (it is the separate Flush operation of the engine). */
  function Call(w: World, mons: map<MonId, MonState>, h: Handler, args: seq<Value>,
                vals: map<SigId, Value>): (o: Outcome)
    requires Known(h, mons)
    ensures SameMonitors(mons, o.mons)
    ensures o.ret == Returned(w, h, args)
  {
    match h
    case User(u) => Outcome(mons, [Invoke(h, args)], w.reply(u, args))
    case MonitorCb(m) =>
      var (st, ev) := Rerun(w, m, mons[m], vals);
      Outcome(mons[m := st], ev, None)
    case MuxFlush(_) => Outcome(mons, [Invoke(h, args)], None)
  }

  /** The state a notification round works on. */
  datatype Round = Round(cleanups: map<Handler, CleanupId>, mons: map<MonId, MonState>, events: seq<Event>)

  /** One receiver's turn (the body of the `forEach` callback). */
  function Visit(w: World, r: Round, h: Handler, newV: Value, oldV: Value, vals: map<SigId, Value>): Round
    requires Known(h, r.mons)
  {
    var cl := r.cleanups - {h};
    var pre := if h in r.cleanups then [RunCleanup(r.cleanups[h])] else [];
    var o := Call(w, r.mons, h, [newV, oldV], vals);
    Round(if o.ret.Some? then cl[h := o.ret.value] else cl, o.mons, r.events + pre + o.events)
  }

  /** The whole round, receivers visited in order. */
  function NotifyAll(w: World, r: Round, rs: seq<Handler>, newV: Value, oldV: Value,
                     vals: map<SigId, Value>): (n: Round)
    requires forall h :: h in rs ==> Known(h, r.mons)
    ensures SameMonitors(r.mons, n.mons)
    decreases |rs|
  {
    if rs == [] then r
    else
      assert forall h :: h in rs[..|rs| - 1] ==> h in rs;
      var n0 := NotifyAll(w, r, rs[..|rs| - 1], newV, oldV, vals);
      assert rs[|rs| - 1] in rs;
      assert Known(rs[|rs| - 1], r.mons);
      assert r.mons.Keys == n0.mons.Keys;
      assert Known(rs[|rs| - 1], n0.mons);
      Visit(w, n0, rs[|rs| - 1], newV, oldV, vals)
  }

  /** What receiver `h` contributes to the trace, judged from the state
      before the round: its old cleanup, then its call. */
  function Segment(w: World, r: Round, h: Handler, newV: Value, oldV: Value, vals: map<SigId, Value>): seq<Event>
    requires Known(h, r.mons)
  {
    (if h in r.cleanups then [RunCleanup(r.cleanups[h])] else []) +
    Call(w, r.mons, h, [newV, oldV], vals).events
  }

  /** The segments of all receivers, in receiver order. */
  function Segments(w: World, r: Round, rs: seq<Handler>, newV: Value, oldV: Value, vals: map<SigId, Value>): seq<Event>
    requires forall h :: h in rs ==> Known(h, r.mons)
    decreases |rs|
  {
    if rs == [] then []
    else
      assert forall h :: h in rs[..|rs| - 1] ==> h in rs;
      Segments(w, r, rs[..|rs| - 1], newV, oldV, vals) + Segment(w, r, rs[|rs| - 1], newV, oldV, vals)
  }

  lemma Associative(a: seq<Event>, b: seq<Event>, c: seq<Event>)
    ensures (a + b) + c == a + (b + c)
  {
  }

  /** Dropping the last receiver keeps the rest distinct and without it. */
  lemma DistinctInit(rs: seq<Handler>)
    requires Distinct(rs) && rs != []
    ensures Distinct(rs[..|rs| - 1]) && rs[|rs| - 1] !in rs[..|rs| - 1]
  {
    var pre := rs[..|rs| - 1];
    forall k | 0 <= k < |pre| ensures pre[k] != rs[|rs| - 1] {
      assert pre[k] == rs[k];
    }
  }

  /** Every receiver of the shorter list is a receiver of the whole one. */
  lemma KnownInit(rs: seq<Handler>, mons: map<MonId, MonState>)
    requires rs != [] && forall h :: h in rs ==> Known(h, mons)
    ensures forall h :: h in rs[..|rs| - 1] ==> Known(h, mons)
    ensures Known(rs[|rs| - 1], mons)
  {
    assert forall h :: h in rs[..|rs| - 1] ==> h in rs;
  }

  /** A receiver's turn, taken in a state that agrees with the state before
      the round on that receiver, yields that receiver's segment. */
  lemma VisitSegment(w: World, r: Round, n0: Round, h: Handler, newV: Value, oldV: Value, vals: map<SigId, Value>)
    requires Known(h, r.mons) && r.mons.Keys == n0.mons.Keys
    requires h in n0.cleanups <==> h in r.cleanups
    requires h in n0.cleanups ==> n0.cleanups[h] == r.cleanups[h]
    requires h.MonitorCb? ==> n0.mons[h.m] == r.mons[h.m]
    ensures Visit(w, n0, h, newV, oldV, vals).events == n0.events + Segment(w, r, h, newV, oldV, vals)
  {
    assert Call(w, n0.mons, h, [newV, oldV], vals).events == Call(w, r.mons, h, [newV, oldV], vals).events;
  }

  /** A receiver not yet visited still has the cleanup and, if it is a
      monitor callback, the monitor state it had before the round. */
  lemma {:induction false} NotifyLeavesOthers(w: World, r: Round, rs: seq<Handler>, newV: Value, oldV: Value,
                                              vals: map<SigId, Value>, h: Handler)
    requires forall g :: g in rs ==> Known(g, r.mons)
    requires h !in rs
    ensures var n := NotifyAll(w, r, rs, newV, oldV, vals);
      && (h in n.cleanups <==> h in r.cleanups)
      && (h in n.cleanups ==> n.cleanups[h] == r.cleanups[h])
      && (h.MonitorCb? && h.m in r.mons ==> n.mons[h.m] == r.mons[h.m])
    decreases |rs|
  {
    if rs != [] {
      KnownInit(rs, r.mons);
      NotifyLeavesOthers(w, r, rs[..|rs| - 1], newV, oldV, vals, h);
    }
  }

  /** The trace of a round is the receivers' segments in receiver order: for
      each receiver, its stored cleanup runs (and is dropped) before it is
      called with `(new, old)`, and both are as they were before the round. */
  lemma {:induction false} NotifyEvents(w: World, r: Round, rs: seq<Handler>, newV: Value, oldV: Value,
                                        vals: map<SigId, Value>)
    requires Distinct(rs)
    requires forall h :: h in rs ==> Known(h, r.mons)
    ensures NotifyAll(w, r, rs, newV, oldV, vals).events == r.events + Segments(w, r, rs, newV, oldV, vals)
    decreases |rs|
  {
    if rs != [] {
      var pre := rs[..|rs| - 1];
      var h := rs[|rs| - 1];
      DistinctInit(rs);
      KnownInit(rs, r.mons);
      NotifyEvents(w, r, pre, newV, oldV, vals);
      NotifyLeavesOthers(w, r, pre, newV, oldV, vals, h);
      var n0 := NotifyAll(w, r, pre, newV, oldV, vals);
      VisitSegment(w, r, n0, h, newV, oldV, vals);
      assert NotifyAll(w, r, rs, newV, oldV, vals) == Visit(w, n0, h, newV, oldV, vals);
      assert Segments(w, r, rs, newV, oldV, vals) == Segments(w, r, pre, newV, oldV, vals) + Segment(w, r, h, newV, oldV, vals);
      Associative(r.events, Segments(w, r, pre, newV, oldV, vals), Segment(w, r, h, newV, oldV, vals));
    }
  }

  /** After the round a receiver has a cleanup exactly when its call
      returned one, and it is that one. */
  lemma {:induction false} NotifyCleanupsVisited(w: World, r: Round, rs: seq<Handler>, newV: Value, oldV: Value,
                                                 vals: map<SigId, Value>, h: Handler)
    requires forall g :: g in rs ==> Known(g, r.mons)
    requires h in rs
    ensures var n := NotifyAll(w, r, rs, newV, oldV, vals);
      && (h in n.cleanups <==> Returned(w, h, [newV, oldV]).Some?)
      && (h in n.cleanups ==> n.cleanups[h] == Returned(w, h, [newV, oldV]).value)
    decreases |rs|
  {
    KnownInit(rs, r.mons);
    if h != rs[|rs| - 1] {
      assert h in rs[..|rs| - 1] by {
        var k :| 0 <= k < |rs| && rs[k] == h;
        assert rs[..|rs| - 1][k] == h;
      }
      NotifyCleanupsVisited(w, r, rs[..|rs| - 1], newV, oldV, vals, h);
    }
  }

  /** A turn of a receiver other than monitor `m`'s callback leaves `m` alone. */
  lemma VisitOtherMonitor(w: World, r: Round, h: Handler, newV: Value, oldV: Value, vals: map<SigId, Value>, m: MonId)
    requires Known(h, r.mons) && h != MonitorCb(m) && m in r.mons
    ensures Visit(w, r, h, newV, oldV, vals).mons[m] == r.mons[m]
  {
  }

  /** The round re-runs each monitor whose callback is a receiver once, from
      its state before the round, and leaves the other monitors alone. */
  lemma {:induction false} NotifyMonitors(w: World, r: Round, rs: seq<Handler>, newV: Value, oldV: Value,
                                          vals: map<SigId, Value>, m: MonId)
    requires Distinct(rs)
    requires forall g :: g in rs ==> Known(g, r.mons)
    requires m in r.mons
    ensures var n := NotifyAll(w, r, rs, newV, oldV, vals);
      n.mons[m] == if MonitorCb(m) in rs then Rerun(w, m, r.mons[m], vals).0 else r.mons[m]
    decreases |rs|
  {
    if MonitorCb(m) !in rs {
      NotifyLeavesOthers(w, r, rs, newV, oldV, vals, MonitorCb(m));
    } else {
      var pre := rs[..|rs| - 1];
      DistinctInit(rs);
      KnownInit(rs, r.mons);
      var n0 := NotifyAll(w, r, pre, newV, oldV, vals);
      assert NotifyAll(w, r, rs, newV, oldV, vals) == Visit(w, n0, rs[|rs| - 1], newV, oldV, vals);
      if rs[|rs| - 1] == MonitorCb(m) {
        NotifyLeavesOthers(w, r, pre, newV, oldV, vals, MonitorCb(m));
      } else {
        assert MonitorCb(m) in pre by {
          var k :| 0 <= k < |rs| && rs[k] == MonitorCb(m);
          assert pre[k] == MonitorCb(m);
        }
        NotifyMonitors(w, r, pre, newV, oldV, vals, m);
        VisitOtherMonitor(w, n0, rs[|rs| - 1], newV, oldV, vals, m);
      }
    }
  }

  /** An empty set of receivers: the round does nothing. */
  lemma NoReceivers(w: World, r: Round, newV: Value, oldV: Value, vals: map<SigId, Value>)
    ensures NotifyAll(w, r, [], newV, oldV, vals) == r
  {
  }

  /** The round over one more receiver is one more visit. */
  lemma NotifyStep(w: World, r: Round, rs: seq<Handler>, i: nat, newV: Value, oldV: Value, vals: map<SigId, Value>)
    requires i < |rs| && forall h :: h in rs ==> Known(h, r.mons)
    ensures forall h :: h in rs[..i] ==> Known(h, r.mons)
    ensures Known(rs[i], NotifyAll(w, r, rs[..i], newV, oldV, vals).mons)
    ensures NotifyAll(w, r, rs[..i + 1], newV, oldV, vals)
         == Visit(w, NotifyAll(w, r, rs[..i], newV, oldV, vals), rs[i], newV, oldV, vals)
  {
    assert forall h :: h in rs[..i] ==> h in rs;
    assert rs[i] in rs;
    assert rs[..i + 1][..i] == rs[..i];
  }
}
