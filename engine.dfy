/** The reactive engine: signals, the tracking slot, monitors and muxes, as
    one runtime whose fields are the state the closures capture. Client code
    is the runtime's `world`; every call into it is appended to `trace`. */
module Engine {
  import opened Types
  import opened Receivers
  import opened Notify
  import opened MuxText
  import opened Watching
  import opened Captured
  import Batching

  /** The one argument of a write: a value, or a function of the old value.
      A written function is always `Update(f)`, so the value of `Plain` is
      never a function. */
  datatype WriteArg = Plain(v: Value) | Update(f: FnId)

  /** The value a write stores. */
  function NewValue(w: World, arg: WriteArg, oldV: Value): (v: Value)
    ensures arg.Plain? ==> v == arg.v
    ensures arg.Update? ==> v == w.update(arg.f, oldV)
  {
    match arg
    case Plain(v) => v
    case Update(f) => w.update(f, oldV)
  }

  /** A write of `newV` over the signal state `o`, from the monitors `m`
      and the trace `t` at the moment the value is stored, leaving the
      signal state `n`: a value `===` the old one calls nobody; any other
      runs the notification round over `o`'s receivers with the values
      `vals` after the write. */
  ghost predicate Delivered(w: World, o: SigState, newV: Value, m: map<MonId, MonState>, t: seq<Event>, vals: map<SigId, Value>,
                            n: SigState, mons: map<MonId, MonState>, trace: seq<Event>)
  {
    && (forall h :: h in o.receivers ==> Known(h, m))
    && n == SigState(newV, o.receivers, n.cleanups)
    && (StrictEq(newV, o.val) ==> n.cleanups == o.cleanups && mons == m && trace == t)
    && (!StrictEq(newV, o.val) ==>
          var r := NotifyAll(w, Round(o.cleanups, m, t), o.receivers, newV, o.val, vals);
          n.cleanups == r.cleanups && mons == r.mons && trace == r.events)
  }

  /** The call re-evaluating part `j` records: a function part is called. */
  function FnCall(parts: seq<Part>, j: nat): (r: seq<Event>)
    ensures |r| <= 1 && (r != [] <==> j < |parts| && parts[j].Fn?)
  {
    if j < |parts| && parts[j].Fn? then [CallFn(parts[j].f)] else []
  }

  /** The calls re-evaluating the parts `ev` in order records when no mux
      is activating: one per function part, none for a signal part. */
  function FnCalls(parts: seq<Part>, ev: seq<nat>): (r: seq<Event>)
    ensures |r| <= |ev|
    ensures forall e :: e in r ==> e.CallFn?
  {
    if ev == [] then [] else FnCalls(parts, ev[..|ev| - 1]) + FnCall(parts, ev[|ev| - 1])
  }

  lemma FnCallsStep(parts: seq<Part>, ev: seq<nat>, j: nat)
    ensures FnCalls(parts, ev + [j]) == FnCalls(parts, ev) + FnCall(parts, j)
  {
    assert (ev + [j])[..|ev|] == ev;
  }

  /** What re-evaluating the parts `done` under the tracking slot `t`
      did since the monitors `m0` and the trace `t0`: with no tracking
      context the monitors are as they were, and with no mux activating
      only the function parts were called. */
  ghost predicate CallsSince(t: Tracker, parts: seq<Part>, done: seq<nat>, m0: map<MonId, MonState>, t0: seq<Event>,
                             mons: map<MonId, MonState>, trace: seq<Event>)
  {
    && (t.NoTracker? ==> mons == m0)
    && (!t.MuxTracker? ==> trace == t0 + FnCalls(parts, done))
  }

  /** Part `j` re-evaluated from the monitors `ms` and the trace `ts`. */
  lemma CallsStep(t: Tracker, parts: seq<Part>, done: seq<nat>, j: nat, m0: map<MonId, MonState>, t0: seq<Event>,
                  ms: map<MonId, MonState>, ts: seq<Event>, mons: map<MonId, MonState>, trace: seq<Event>)
    requires CallsSince(t, parts, done, m0, t0, ms, ts)
    requires (t.NoTracker? ==> mons == ms) && (!t.MuxTracker? ==> trace == ts + FnCall(parts, j))
    ensures CallsSince(t, parts, done + [j], m0, t0, mons, trace)
  {
    FnCallsStep(parts, done, j);
  }

  /** The disposers the engine hands out. */
  datatype Disposer =
    | SigDisconnect(s: SigId, h: Handler)  // returned by a signal's connect
    | MuxHandle(x: MuxId, h: Handler)      // returned by a mux's connect
    | MonitorDispose(m: MonId)             // returned by monitor

  /** A tracked read made by a monitor's first run. */
  datatype Source = FromSignal(s: SigId) | FromMux(x: MuxId)

  /** What a mux's connect returns: the current value when called without
      a handler, a disposer otherwise. */
  datatype ConnectResult = Current(v: Value) | Handle(d: Disposer)

  /** The flush calls a watch makes, one per newly connected signal, each
      passed that signal's value. */
  function FlushCalls(x: MuxId, added: seq<SigId>, sigs: map<SigId, SigState>): (e: seq<Event>)
    requires forall s :: s in added ==> s in sigs
    ensures |e| == |added|
    ensures forall k :: 0 <= k < |added| ==> e[k] == Invoke(MuxFlush(x), [sigs[added[k]].val])
    decreases |added|
  {
    if added == [] then []
    else
      assert forall s :: s in added[..|added| - 1] ==> s in added;
      FlushCalls(x, added[..|added| - 1], sigs) + [Invoke(MuxFlush(x), [sigs[added[|added| - 1]].val])]
  }

  /** `n` copies of `x`. */
  function Repeat(x: MuxId, n: nat): (r: seq<MuxId>)
    ensures |r| == n && forall k :: 0 <= k < n ==> r[k] == x
  {
    seq(n, _ => x)
  }

  ghost predicate SourceOk(src: Source, sigs: map<SigId, SigState>, muxes: map<MuxId, MuxState>) {
    (src.FromSignal? ==> src.s in sigs) && (src.FromMux? ==> src.x in muxes)
  }

  /** The reads of a monitor's first run are of signals and muxes in use. */
  ghost predicate ScriptOk(script: seq<Source>, sigs: map<SigId, SigState>, muxes: map<MuxId, MuxState>) {
    forall k :: 0 <= k < |script| ==> SourceOk(script[k], sigs, muxes)
  }

  /** The signal a read subscribes to: the signal itself, or a mux's result signal. */
  function ReadOf(src: Source, ms: map<MuxId, MuxState>): SigId
    requires src.FromMux? ==> src.x in ms
  {
    if src.FromSignal? then src.s else ms[src.x].str
  }

  /** The subscriptions a first run records, one per read. */
  function ReadSignals(script: seq<Source>, ms: map<MuxId, MuxState>): (r: seq<SigId>)
    requires forall k :: 0 <= k < |script| && script[k].FromMux? ==> script[k].x in ms
    ensures |r| == |script|
    ensures forall k :: 0 <= k < |script| ==> r[k] == ReadOf(script[k], ms)
    decreases |script|
  {
    if script == [] then []
    else ReadSignals(script[..|script| - 1], ms) + [ReadOf(script[|script| - 1], ms)]
  }

  lemma ReadSignalsStep(script: seq<Source>, i: nat, ms: map<MuxId, MuxState>)
    requires i < |script| && forall k :: 0 <= k < |script| && script[k].FromMux? ==> script[k].x in ms
    ensures ReadSignals(script[..i + 1], ms) == ReadSignals(script[..i], ms) + [ReadOf(script[i], ms)]
  {
    assert script[..i + 1][..i] == script[..i];
  }

  lemma ConsStep<T>(pre: seq<T>, ops: seq<T>)
    requires ops != []
    ensures pre + [ops[0]] + ops[1..] == pre + ops
  {
    assert ops == [ops[0]] + ops[1..];
  }

  lemma PrefixStep<T>(s: seq<T>, k: nat)
    requires k < |s|
    ensures s[..k + 1] == s[..k] + [s[k]]
  {
  }

  /** What one of the mux's own calls does to its depth and to the
      publications, as the reference model `Batching.Step` says. */
  ghost predicate Stepped(x: MuxId, op: Batching.Op, d: int, p0: seq<MuxId>, muxes: map<MuxId, MuxState>, published: seq<MuxId>) {
    x in muxes && var a := Batching.Step(d, op);
    muxes[x].depth == a.depth && published == if a.published then p0 + [x] else p0
  }

  /** A flush that was not held back leaves depth 0 and one publication. */
  lemma FlushedStepped(w: World, x: MuxId, op: Batching.Op, d: int, s0: map<SigId, SigState>, x0: map<MuxId, MuxState>,
                       l0: map<MuxId, Links>, n0: nat, p0: seq<MuxId>, sigs: map<SigId, SigState>, muxes: map<MuxId, MuxState>,
                       published: seq<MuxId>)
    requires FlushResult(w, x, s0, x0, l0, n0, p0, sigs, muxes, published)
    requires Batching.Step(d, op) == Batching.After(0, true)
    ensures Stepped(x, op, d, p0, muxes, published)
  {
  }

  /** The state of a batch after the calls `done`, from depth `d0` and the
      state `x0`, `l0`, `m0`, `p0` it started in. */
  ghost predicate BatchState(x: MuxId, d0: int, done: seq<Batching.Op>, x0: map<MuxId, MuxState>, l0: map<MuxId, Links>,
                             m0: map<MonId, MonState>, p0: seq<MuxId>, muxes: map<MuxId, MuxState>, links: map<MuxId, Links>,
                             mons: map<MonId, MonState>, published: seq<MuxId>) {
    && SameTemplates(x0, muxes) && WatchGrows(l0, links) && SameBodies(m0, mons)
    && x in muxes && var t := Batching.Run(d0, done);
       muxes[x].depth == t.depth && published == p0 + Repeat(x, t.publications)
  }

  lemma BatchStart(x: MuxId, muxes: map<MuxId, MuxState>, links: map<MuxId, Links>, mons: map<MonId, MonState>, published: seq<MuxId>)
    requires x in muxes
    ensures BatchState(x, muxes[x].depth, [], muxes, links, mons, published, muxes, links, mons, published)
  {
    Unchanged(map[], mons, muxes, links);
    assert Repeat(x, 0) == [];
  }

  /** A whole batch, `pause()`, `body`, `resume()`, run to its end: the
      reference model's tally, and for a balanced body one publication from
      the outermost level and none inside another batch. */
  lemma BatchDone(x: MuxId, d0: int, body: seq<Batching.Op>, x0: map<MuxId, MuxState>, l0: map<MuxId, Links>,
                  m0: map<MonId, MonState>, p0: seq<MuxId>, muxes: map<MuxId, MuxState>, links: map<MuxId, Links>,
                  mons: map<MonId, MonState>, published: seq<MuxId>)
    requires d0 >= 0
    requires BatchState(x, d0, [Batching.Pause] + body + [Batching.Resume], x0, l0, m0, p0, muxes, links, mons, published)
    ensures SameTemplates(x0, muxes) && WatchGrows(l0, links) && SameBodies(m0, mons) && x in muxes
    ensures var t := Batching.Run(d0, [Batching.Pause] + body + [Batching.Resume]);
      muxes[x].depth == t.depth && published == p0 + Repeat(x, t.publications)
    ensures Batching.Nested(body) && Batching.Count(body, Batching.Pause) == Batching.Count(body, Batching.Resume) ==>
      muxes[x].depth == d0 && published == p0 + if d0 == 0 then [x] else []
  {
    if Batching.Nested(body) && Batching.Count(body, Batching.Pause) == Batching.Count(body, Batching.Resume) {
      Batching.BatchPublishesAtMostOnce(d0, body);
      assert Repeat(x, 1) == [x];
    }
  }

  lemma BatchStateStep(x: MuxId, op: Batching.Op, d0: int, done: seq<Batching.Op>, x0: map<MuxId, MuxState>, l0: map<MuxId, Links>,
                       m0: map<MonId, MonState>, p0: seq<MuxId>, xs: map<MuxId, MuxState>, ls: map<MuxId, Links>,
                       ms: map<MonId, MonState>, ps: seq<MuxId>, muxes: map<MuxId, MuxState>, links: map<MuxId, Links>,
                       mons: map<MonId, MonState>, published: seq<MuxId>)
    requires BatchState(x, d0, done, x0, l0, m0, p0, xs, ls, ms, ps)
    requires SameTemplates(xs, muxes) && WatchGrows(ls, links) && SameBodies(ms, mons)
    requires Stepped(x, op, xs[x].depth, ps, muxes, published)
    ensures BatchState(x, d0, done + [op], x0, l0, m0, p0, muxes, links, mons, published)
  {
    var t := Batching.Run(d0, done);
    assert (done + [op])[..|done|] == done;
    if Batching.Step(t.depth, op).published {
      assert Repeat(x, t.publications + 1) == Repeat(x, t.publications) + [x];
    }
    SameTemplatesTrans(x0, xs, muxes);
    WatchGrowsTrans(l0, ls, links);
    SameBodiesTrans(m0, ms, mons);
  }

  /** Mux `x` after `pause()` and the placing of `init` from the state `x0`,
      `l0`: one level deeper, every literal in its slot, every other part
      listed for re-evaluation, and the disconnect list of its signal parts
      installed. */
  ghost predicate ArmedAs(x: MuxId, x0: map<MuxId, MuxState>, l0: map<MuxId, Links>, muxes: map<MuxId, MuxState>, links: map<MuxId, Links>) {
    && x in x0 && x in l0 && x in muxes
    && var st := x0[x];
       && muxes == x0[x := muxes[x]]
       && muxes[x] == st.(depth := st.depth + 1, valList := muxes[x].valList, evalList := Tracked(st.parts, |st.parts|))
       && Placed(st.parts, st.valList, muxes[x].valList)
       && links == l0[x := Links(Some(Wiring(st.parts)), l0[x].watching)]
  }

  /** Mux `x` one level deeper than in `x0`, nothing else changed. */
  ghost predicate Paused(x: MuxId, x0: map<MuxId, MuxState>, muxes: map<MuxId, MuxState>) {
    x in x0 && muxes == x0[x := x0[x].(depth := x0[x].depth + 1)]
  }

  lemma ArmSteps(x: MuxId, x0: map<MuxId, MuxState>, l0: map<MuxId, Links>, x1: map<MuxId, MuxState>, st: MuxState,
                 vl: seq<Value>, ev: seq<nat>, ln: Links, muxes: map<MuxId, MuxState>, links: map<MuxId, Links>)
    requires x in x0 && x in l0 && Paused(x, x0, x1) && st == x1[x]
    requires Placed(st.parts, st.valList, vl) && ev == Tracked(st.parts, |st.parts|)
    requires ln == Links(Some(Wiring(st.parts)), l0[x].watching)
    requires muxes == x1[x := st.(valList := vl, evalList := ev)] && links == l0[x := ln]
    ensures ArmedAs(x, x0, l0, muxes, links)
    ensures SameTemplates(x0, muxes) && WatchGrows(l0, links) && StaysActive(l0, links)
  {
    MapSetTwice(x0, x, x1[x], st.(valList := vl, evalList := ev));
    SameTemplatesSet(x0, x, st.(valList := vl, evalList := ev));
    WatchGrowsSet(l0, x, ln);
    StaysActiveSet(l0, x, ln);
  }

  /** The flush of mux `x` connected to the signal parts among the first
      `i` of `parts`, no value changed and no receiver lost since `s0`. */
  ghost predicate Wired(x: MuxId, parts: seq<Part>, i: nat, s0: map<SigId, SigState>, sigs: map<SigId, SigState>) {
    && i <= |parts| && Grows(s0, sigs) && Values(sigs) == Values(s0)
    && forall k :: 0 <= k < i && parts[k].Sig? ==> parts[k].s in sigs && MuxFlush(x) in sigs[parts[k].s].receivers
  }

  lemma WiredNone(x: MuxId, parts: seq<Part>, sigs: map<SigId, SigState>)
    ensures Wired(x, parts, 0, sigs, sigs)
  {
    Unchanged(sigs, map[], map[], map[]);
  }

  /** Activation done: every signal part of the template connected. */
  lemma WiredAll(x: MuxId, x0: map<MuxId, MuxState>, l0: map<MuxId, Links>, x1: map<MuxId, MuxState>, l1: map<MuxId, Links>,
                 parts: seq<Part>, s0: map<SigId, SigState>, sigs: map<SigId, SigState>)
    requires ArmedAs(x, x0, l0, x1, l1) && parts == x1[x].parts && Wired(x, parts, |parts|, s0, sigs)
    ensures Grows(s0, sigs) && Values(sigs) == Values(s0)
    ensures var parts := x0[x].parts;
      forall i :: 0 <= i < |parts| && parts[i].Sig? ==> parts[i].s in sigs && MuxFlush(x) in sigs[parts[i].s].receivers
  {
  }

  lemma WiredStep(x: MuxId, parts: seq<Part>, i: nat, s0: map<SigId, SigState>, ss: map<SigId, SigState>, sigs: map<SigId, SigState>)
    requires i < |parts| && Wired(x, parts, i, s0, ss) && Grows(ss, sigs) && Values(sigs) == Values(ss)
    requires parts[i].Sig? ==> parts[i].s in sigs && MuxFlush(x) in sigs[parts[i].s].receivers
    ensures Wired(x, parts, i + 1, s0, sigs)
  {
    GrowsTrans(s0, ss, sigs);
    forall k | 0 <= k < i + 1 && parts[k].Sig? ensures parts[k].s in sigs && MuxFlush(x) in sigs[parts[k].s].receivers {
      if k < i {
        assert MuxFlush(x) in ss[parts[k].s].receivers;
      }
    }
  }

  /** Every signal part of mux `x` is among the signals it watches. */
  ghost predicate PartsWatched(muxes: map<MuxId, MuxState>, links: map<MuxId, Links>, x: MuxId) {
    && x in muxes && x in links
    && forall i :: 0 <= i < |muxes[x].parts| && muxes[x].parts[i].Sig? ==> muxes[x].parts[i].s in links[x].watching
  }

  /** The publication a flush of a mux with result signal `str`, parts
      `parts` and re-evaluation list `ev` makes, from the signals `s0`, the
      monitors `m0` and the trace `t0` before it, under the tracking slot
      `t`, through the result signal's state `o`, the monitors `m1` and
      the trace `t1` re-evaluation leaves: the value `o` holds is the old
      one; with no tracking context the re-evaluation touches nothing,
      and with no mux activating it records exactly the function parts'
      calls; then `strMux` writes the text as a write does. */
  ghost predicate PublishedFrom(w: World, t: Tracker, str: SigId, parts: seq<Part>, ev: seq<nat>,
                                s0: map<SigId, SigState>, m0: map<MonId, MonState>, t0: seq<Event>,
                                o: SigState, m1: map<MonId, MonState>, t1: seq<Event>,
                                sigs: map<SigId, SigState>, mons: map<MonId, MonState>, trace: seq<Event>)
  {
    && str in s0 && str in sigs && o.val == s0[str].val
    && (t.NoTracker? ==> o == s0[str] && m1 == m0 && sigs == s0[str := sigs[str]])
    && (!t.MuxTracker? ==> t1 == t0 + FnCalls(parts, ev))
    && Delivered(w, o, sigs[str].val, m1, t1, Values(sigs), sigs[str], mons, trace)
  }

  /** The publication round of a flush, through whatever state its
      re-evaluation left. */
  ghost predicate PublishRound(w: World, t: Tracker, str: SigId, parts: seq<Part>, ev: seq<nat>,
                               s0: map<SigId, SigState>, m0: map<MonId, MonState>, t0: seq<Event>,
                               sigs: map<SigId, SigState>, mons: map<MonId, MonState>, trace: seq<Event>)
  {
    exists o: SigState, m1: map<MonId, MonState>, t1: seq<Event> ::
      PublishedFrom(w, t, str, parts, ev, s0, m0, t0, o, m1, t1, sigs, mons, trace)
  }

  /** With no tracking context, a flush's publication is a write of its
      text over the result signal as the flush found it, after the function
      parts' calls: a text `===` the old value leaves the signal, the
      monitors and everything but those calls as they were; any other text
      runs the round over the old receivers. */
  lemma PlainPublishRound(w: World, str: SigId, parts: seq<Part>, ev: seq<nat>, s0: map<SigId, SigState>,
                          m0: map<MonId, MonState>, t0: seq<Event>, sigs: map<SigId, SigState>,
                          mons: map<MonId, MonState>, trace: seq<Event>)
    requires PublishRound(w, NoTracker, str, parts, ev, s0, m0, t0, sigs, mons, trace)
    ensures str in s0 && str in sigs && sigs == s0[str := sigs[str]]
    ensures sigs[str].val.Text? ==> (StrictEq(sigs[str].val, s0[str].val) <==> sigs[str].val == s0[str].val)
    ensures StrictEq(sigs[str].val, s0[str].val) ==>
      sigs[str] == s0[str].(val := sigs[str].val) && mons == m0 && trace == t0 + FnCalls(parts, ev)
    ensures !StrictEq(sigs[str].val, s0[str].val) ==>
      var r := NotifyAll(w, Round(s0[str].cleanups, m0, t0 + FnCalls(parts, ev)), s0[str].receivers,
                         sigs[str].val, s0[str].val, Values(sigs));
      && sigs[str] == SigState(sigs[str].val, s0[str].receivers, r.cleanups)
      && mons == r.mons && trace == r.events
  {
    var o, m1, t1 :| PublishedFrom(w, NoTracker, str, parts, ev, s0, m0, t0, o, m1, t1, sigs, mons, trace);
  }

  /** What a flush of mux `x` that is not held back leaves, from the
      state `s0`, `x0`, `l0` with `n0` signals and publications `p0`: every
      tracked part re-evaluated, the concatenation written to the result
      signal, every other signal keeping its value, every other mux as it
      was, the depth reset; an active mux publishes its template read with
      the current values. */
  ghost predicate FlushResult(w: World, x: MuxId, s0: map<SigId, SigState>, x0: map<MuxId, MuxState>, l0: map<MuxId, Links>,
                              n0: nat, p0: seq<MuxId>, sigs: map<SigId, SigState>, muxes: map<MuxId, MuxState>, published: seq<MuxId>)
  {
    && x in x0 && x in l0 && x in muxes
    && var st := x0[x];
       && MuxOk(st, l0[x], n0) && SigsIn(st.parts, Values(s0))
       && var slots := Refreshed(w, st.valList, st.parts, st.evalList, Values(s0));
          && muxes == x0[x := st.(valList := slots, depth := 0)]
          && published == p0 + [x]
          && st.str in sigs && sigs[st.str].val == Text(Concat(slots))
          && Values(sigs) == Values(s0)[st.str := sigs[st.str].val]
          && (l0[x].disconnectList.Some? ==> sigs[st.str].val == Text(Interleave(st.frags, PartValues(w, st.parts, Values(s0)))))
  }

  /** A flush's three steps (re-evaluation to `s1`, `m1`, `x1`, `l1`,
      publication to `s2`, `m2`, the depth reset to `x3`) make one flush. */
  lemma FlushSteps(w: World, x: MuxId, t: Tracker, s0: map<SigId, SigState>, m0: map<MonId, MonState>, x0: map<MuxId, MuxState>,
                   l0: map<MuxId, Links>, n0: nat, p0: seq<MuxId>,
                   s1: map<SigId, SigState>, m1: map<MonId, MonState>, x1: map<MuxId, MuxState>, l1: map<MuxId, Links>,
                   s2: map<SigId, SigState>, m2: map<MonId, MonState>, x3: map<MuxId, MuxState>, p2: seq<MuxId>)
    requires x in x0 && x in l0
    requires Evolved(s0, m0, x0, l0, s1, m1, x1, l1) && Values(s1) == Values(s0)
    requires var st := x0[x];
      && MuxOk(st, l0[x], n0) && SigsIn(st.parts, Values(s0))
      && x1 == x0[x := st.(valList := Refreshed(w, st.valList, st.parts, st.evalList, Values(s0)))]
    requires !t.MonitorTracker? ==> Subscribed(m0, m1, t, [])
    requires t == MuxTracker(x) ==> PartsWatched(x1, l1, x)
    requires Grows(s1, s2) && Notify.SameMonitors(m1, m2) && p2 == p0 + [x]
    requires x1[x].str in s2 && s2[x1[x].str].val == Text(Concat(x1[x].valList))
    requires Values(s2) == Values(s1)[x1[x].str := s2[x1[x].str].val]
    requires x3 == x1[x := x1[x].(depth := 0)]
    ensures Evolved(s0, m0, x0, l0, s2, m2, x3, l1)
    ensures !t.MonitorTracker? ==> Subscribed(m0, m2, t, [])
    ensures t == MuxTracker(x) ==> PartsWatched(x3, l1, x)
    ensures FlushResult(w, x, s0, x0, l0, n0, p0, s2, x3, p2)
  {
    var st := x0[x];
    SameMonitorsKeep(m1, m2, t);
    Unchanged(s2, m2, x1, l1);
    SameTemplatesSet(x1, x, x1[x].(depth := 0));
    EvolvedTrans(s0, m0, x0, l0, s1, m1, x1, l1, s2, m2, x3, l1);
    if !t.MonitorTracker? {
      SubscribedTrans(m0, m1, m2, t, [], []);
      var none: seq<SigId> := [];
      assert none + none == none;
    }
    MapSetTwice(x0, x, x1[x], x3[x]);
    if l0[x].disconnectList.Some? {
      FlushText(w, st.frags, st.parts, st.valList, Values(s0));
    }
  }

  /** The body of a flush without the depth reset, from the state `s0`,
      `x0`, `l0` with `n0` signals and publications `p0`: every tracked part
      re-evaluated and the concatenation written to the result signal,
      every other signal keeping its value. */
  ghost predicate Republished(w: World, x: MuxId, s0: map<SigId, SigState>, x0: map<MuxId, MuxState>, l0: map<MuxId, Links>,
                              n0: nat, p0: seq<MuxId>, sigs: map<SigId, SigState>, muxes: map<MuxId, MuxState>, published: seq<MuxId>)
  {
    && x in x0 && x in l0 && x in muxes
    && var st := x0[x];
       && MuxOk(st, l0[x], n0) && SigsIn(st.parts, Values(s0))
       && var slots := Refreshed(w, st.valList, st.parts, st.evalList, Values(s0));
          && muxes == x0[x := st.(valList := slots)]
          && published == p0 + [x]
          && st.str in sigs && sigs[st.str].val == Text(Concat(slots))
          && Values(sigs) == Values(s0)[st.str := sigs[st.str].val]
  }

  /** Re-evaluation to `s1`, `m1`, `x1`, `l1`, then publication to `s2`,
      `m2`, make the body of a flush. */
  lemma RepublishSteps(w: World, x: MuxId, t: Tracker, s0: map<SigId, SigState>, m0: map<MonId, MonState>, x0: map<MuxId, MuxState>,
                       l0: map<MuxId, Links>, n0: nat, p0: seq<MuxId>,
                       s1: map<SigId, SigState>, m1: map<MonId, MonState>, x1: map<MuxId, MuxState>, l1: map<MuxId, Links>,
                       s2: map<SigId, SigState>, m2: map<MonId, MonState>, p2: seq<MuxId>)
    requires x in x0 && x in l0
    requires Evolved(s0, m0, x0, l0, s1, m1, x1, l1) && Values(s1) == Values(s0)
    requires var st := x0[x];
      && MuxOk(st, l0[x], n0) && SigsIn(st.parts, Values(s0))
      && x1 == x0[x := st.(valList := Refreshed(w, st.valList, st.parts, st.evalList, Values(s0)))]
    requires !t.MonitorTracker? ==> Subscribed(m0, m1, t, [])
    requires Grows(s1, s2) && Notify.SameMonitors(m1, m2) && p2 == p0 + [x]
    requires x1[x].str in s2 && s2[x1[x].str].val == Text(Concat(x1[x].valList))
    requires Values(s2) == Values(s1)[x1[x].str := s2[x1[x].str].val]
    ensures Evolved(s0, m0, x0, l0, s2, m2, x1, l1)
    ensures !t.MonitorTracker? ==> Subscribed(m0, m2, t, [])
    ensures Republished(w, x, s0, x0, l0, n0, p0, s2, x1, p2)
  {
    SameMonitorsKeep(m1, m2, t);
    Unchanged(s2, m2, x1, l1);
    EvolvedTrans(s0, m0, x0, l0, s1, m1, x1, l1, s2, m2, x1, l1);
    if !t.MonitorTracker? {
      SubscribedTrans(m0, m1, m2, t, [], []);
      var none: seq<SigId> := [];
      assert none + none == none;
    }
  }

  /** What `init`'s `resume()` and the evaluation after it leave, from the
      state `s0`, `x0`, `l0` right after activation: the parts re-evaluated
      and published once, every other signal keeping its value, and the
      depth one less but never below 0. */
  ghost predicate InitFlushed(w: World, x: MuxId, s0: map<SigId, SigState>, x0: map<MuxId, MuxState>, l0: map<MuxId, Links>,
                              n0: nat, p0: seq<MuxId>, sigs: map<SigId, SigState>, muxes: map<MuxId, MuxState>, published: seq<MuxId>)
  {
    && x in x0 && x in l0 && x in muxes
    && var st := x0[x];
       && MuxOk(st, l0[x], n0) && SigsIn(st.parts, Values(s0))
       && var slots := Refreshed(w, st.valList, st.parts, st.evalList, Values(s0));
          && muxes == x0[x := st.(valList := slots, depth := if st.depth - 1 <= 0 then 0 else st.depth - 1)]
          && published == p0 + [x]
          && st.str in sigs && sigs[st.str].val == Text(Concat(slots))
          && Values(sigs) == Values(s0)[st.str := sigs[st.str].val]
  }

  /** The flush `resume()` ran is `init`'s publication. */
  lemma FlushedInit(w: World, x: MuxId, s0: map<SigId, SigState>, x0: map<MuxId, MuxState>, l0: map<MuxId, Links>,
                    n0: nat, p0: seq<MuxId>, sigs: map<SigId, SigState>, muxes: map<MuxId, MuxState>, published: seq<MuxId>)
    requires x in x0 && x0[x].depth - 1 <= 0
    requires FlushResult(w, x, s0, x0, l0, n0, p0, sigs, muxes, published)
    ensures InitFlushed(w, x, s0, x0, l0, n0, p0, sigs, muxes, published)
  {
  }

  /** Held back by an outer pause, `resume()` only lowered the depth, and
      `init`'s own evaluation to `sigs`, `mons`, `muxes`, `links` from the
      state `x1` it left is the publication. */
  lemma HeldInit(w: World, x: MuxId, t: Tracker, s0: map<SigId, SigState>, m0: map<MonId, MonState>, x0: map<MuxId, MuxState>,
                 l0: map<MuxId, Links>, n0: nat, p0: seq<MuxId>, x1: map<MuxId, MuxState>,
                 sigs: map<SigId, SigState>, mons: map<MonId, MonState>, muxes: map<MuxId, MuxState>, links: map<MuxId, Links>,
                 published: seq<MuxId>)
    requires x in x0 && x in l0 && MuxOk(x0[x], l0[x], n0) && x0[x].depth - 1 > 0
    requires x1 == x0[x := x0[x].(depth := x0[x].depth - 1)]
    requires Evolved(s0, m0, x1, l0, sigs, mons, muxes, links)
    requires !t.MonitorTracker? ==> Subscribed(m0, mons, t, [])
    requires Republished(w, x, s0, x1, l0, n0, p0, sigs, muxes, published)
    ensures Evolved(s0, m0, x0, l0, sigs, mons, muxes, links)
    ensures InitFlushed(w, x, s0, x0, l0, n0, p0, sigs, muxes, published)
  {
    var st := x0[x];
    SameTemplatesSet(x0, x, x1[x]);
    SameTemplatesTrans(x0, x1, muxes);
    MapSetTwice(x0, x, x1[x], x1[x].(valList := Refreshed(w, st.valList, st.parts, st.evalList, Values(s0))));
  }

  /** `init` of an inactive mux, from the state `s0`, `x0`, `l0`, `p0`
      before it: the depth and subscriber count as they were, the parts
      listed for re-evaluation, one publication of the template read with
      the current values, every signal part watched and its flush
      connected; every other mux as it was and every other signal keeping
      its value. */
  ghost predicate InitResult(w: World, x: MuxId, s0: map<SigId, SigState>, x0: map<MuxId, MuxState>, p0: seq<MuxId>,
                             sigs: map<SigId, SigState>, muxes: map<MuxId, MuxState>, links: map<MuxId, Links>, published: seq<MuxId>)
  {
    && x in x0 && x in muxes && x in links
    && var st := x0[x];
       && |st.frags| == |st.parts| + 1 && SigsIn(st.parts, Values(s0))
       && muxes == x0[x := muxes[x]]
       && muxes[x].depth == st.depth && muxes[x].handlerCount == st.handlerCount
       && muxes[x].evalList == Tracked(st.parts, |st.parts|)
       && published == p0 + [x]
       && st.str in sigs && sigs[st.str].val == Text(Interleave(st.frags, PartValues(w, st.parts, Values(s0))))
       && Values(sigs) == Values(s0)[st.str := sigs[st.str].val]
       && PartsWatched(muxes, links, x)
       && (forall i :: 0 <= i < |st.parts| && st.parts[i].Sig? ==>
             st.parts[i].s in sigs && MuxFlush(x) in sigs[st.parts[i].s].receivers)
  }

  /** Activation to `s1`, `x1`, `l1`, then the flush to `sigs`, `muxes`,
      `links`, make `init`. */
  lemma InitSteps(w: World, x: MuxId, s0: map<SigId, SigState>, x0: map<MuxId, MuxState>, l0: map<MuxId, Links>, n0: nat,
                  p0: seq<MuxId>, s1: map<SigId, SigState>, x1: map<MuxId, MuxState>, l1: map<MuxId, Links>, n1: nat,
                  sigs: map<SigId, SigState>, muxes: map<MuxId, MuxState>, links: map<MuxId, Links>, published: seq<MuxId>)
    requires x in x0 && x in l0 && MuxOk(x0[x], l0[x], n0) && n0 <= n1
    requires ArmedAs(x, x0, l0, x1, l1) && Grows(s0, s1) && Values(s1) == Values(s0)
    requires var parts := x0[x].parts;
      forall i :: 0 <= i < |parts| && parts[i].Sig? ==> parts[i].s in s1 && MuxFlush(x) in s1[parts[i].s].receivers
    requires InitFlushed(w, x, s1, x1, l1, n1, p0, sigs, muxes, published)
    requires Grows(s1, sigs) && PartsWatched(muxes, links, x)
    ensures InitResult(w, x, s0, x0, p0, sigs, muxes, links, published)
  {
    var st := x0[x];
    FlushText(w, st.frags, st.parts, x1[x].valList, Values(s0));
    forall i | 0 <= i < |st.parts| && st.parts[i].Sig? ensures st.parts[i].s in sigs && MuxFlush(x) in sigs[st.parts[i].s].receivers {
      assert MuxFlush(x) in s1[st.parts[i].s].receivers;
    }
  }

  /** A flush from the state with mux `x`'s depth stored as 0 is a flush
      from the state before. */
  lemma ResumeSteps(w: World, x: MuxId, s0: map<SigId, SigState>, m0: map<MonId, MonState>, x0: map<MuxId, MuxState>,
                    l0: map<MuxId, Links>, n0: nat, p0: seq<MuxId>, x1: map<MuxId, MuxState>,
                    sigs: map<SigId, SigState>, mons: map<MonId, MonState>, muxes: map<MuxId, MuxState>,
                    links: map<MuxId, Links>, published: seq<MuxId>)
    requires x in x0 && x in l0 && MuxOk(x0[x], l0[x], n0) && x1 == x0[x := x0[x].(depth := 0)]
    requires Evolved(s0, m0, x1, l0, sigs, mons, muxes, links)
    requires FlushResult(w, x, s0, x1, l0, n0, p0, sigs, muxes, published)
    ensures Evolved(s0, m0, x0, l0, sigs, mons, muxes, links)
    ensures FlushResult(w, x, s0, x0, l0, n0, p0, sigs, muxes, published)
  {
    var st := x0[x];
    SameTemplatesSet(x0, x, x1[x]);
    SameTemplatesTrans(x0, x1, muxes);
    MapSetTwice(x0, x, x1[x], muxes[x]);
  }

  /** Where a monitor's first run stands in the state `sigs`, `mons`,
      `muxes`, `links`: monitor `m` subscribed to the signals `done` since
      the state `s0`, `m0`, `x0`, `l0`. */
  ghost predicate ReadState(sigs: map<SigId, SigState>, mons: map<MonId, MonState>, muxes: map<MuxId, MuxState>,
                            links: map<MuxId, Links>, m: MonId, done: seq<SigId>,
                            s0: map<SigId, SigState>, m0: map<MonId, MonState>, x0: map<MuxId, MuxState>, l0: map<MuxId, Links>)
  {
    && SameTemplates(x0, muxes) && StaysActive(l0, links) && Grows(s0, sigs)
    && WatchGrows(l0, links) && SameBodies(m0, mons) && Subscribed(m0, mons, MonitorTracker(m), done)
    && m in m0 && m in mons && mons[m].body == m0[m].body && mons[m].disposers == done
    && Receives(sigs, MonitorCb(m), done)
  }

  /** The monitors after `monitor(handler)`: one more, whose subscriptions
      are the reads of its first run; every other monitor keeps its body and
      its subscriptions. */
  lemma MonitorRan(m0: map<MonId, MonState>, m1: map<MonId, MonState>, m2: map<MonId, MonState>,
                   m3: map<MonId, MonState>, m: MonId, body: BodyId, read: seq<SigId>)
    requires m !in m0 && m1 == m0[m := MonState(body, None, [])]
    requires SameBodies(m1, m2) && Subscribed(m1, m2, MonitorTracker(m), read)
    requires m in m3 && m3 == m2[m := m2[m].(cleanup := m3[m].cleanup)]
    ensures SameBodies(m0, m3) && m3.Keys == m0.Keys + {m}
    ensures forall k :: k in m0 ==> m3[k].disposers == m0[k].disposers
  {
    forall k | k in m0 ensures m3[k].disposers == m0[k].disposers {
      assert k != m;
      assert m2[k].disposers == m1[k].disposers + [];
    }
  }

  /** A first run that has read nothing yet. */
  lemma ReadStateStart(sigs: map<SigId, SigState>, mons: map<MonId, MonState>, muxes: map<MuxId, MuxState>,
                       links: map<MuxId, Links>, m: MonId)
    requires m in mons && mons[m].disposers == []
    ensures ReadState(sigs, mons, muxes, links, m, [], sigs, mons, muxes, links)
  {
    Unchanged(sigs, mons, muxes, links);
    SubscribedSame(mons, MonitorTracker(m));
  }

  /** A read subscribing `m` to `r`, run from the loop state `ss`, `ms`,
      `xs`, `ls`, moves the first run one read on. */
  lemma ReadStateStep(m: MonId, r: SigId, done: seq<SigId>,
                      s0: map<SigId, SigState>, m0: map<MonId, MonState>, x0: map<MuxId, MuxState>, l0: map<MuxId, Links>,
                      ss: map<SigId, SigState>, ms: map<MonId, MonState>, xs: map<MuxId, MuxState>, ls: map<MuxId, Links>,
                      sigs: map<SigId, SigState>, mons: map<MonId, MonState>, muxes: map<MuxId, MuxState>, links: map<MuxId, Links>)
    requires ReadState(ss, ms, xs, ls, m, done, s0, m0, x0, l0)
    requires SameTemplates(xs, muxes) && Grows(ss, sigs) && StaysActive(ls, links)
    requires WatchGrows(ls, links) && SameBodies(ms, mons) && Subscribed(ms, mons, MonitorTracker(m), [r])
    requires r in sigs && MonitorCb(m) in sigs[r].receivers
    requires m in mons && mons[m].body == ms[m].body && mons[m].disposers == ms[m].disposers + [r]
    ensures ReadState(sigs, mons, muxes, links, m, done + [r], s0, m0, x0, l0)
  {
    ReceivesGrow(ss, sigs, MonitorCb(m), done);
    ReceivesPush(sigs, MonitorCb(m), done, r);
    SameTemplatesTrans(x0, xs, muxes);
    StaysActiveTrans(l0, ls, links);
    GrowsTrans(s0, ss, sigs);
    WatchGrowsTrans(l0, ls, links);
    SameBodiesTrans(m0, ms, mons);
    SubscribedTrans(m0, ms, mons, MonitorTracker(m), done, [r]);
  }

  /** Where a flush's `evalList` loop stands in the state `sigs`, `mons`,
      `muxes`, `links`: the parts `done` of mux `x` re-evaluated with signal
      values `vals` since the state `s0`, `m0`, `x0`, `l0`. */
  ghost predicate EvalState(w: World, sigs: map<SigId, SigState>, mons: map<MonId, MonState>, muxes: map<MuxId, MuxState>,
                            links: map<MuxId, Links>, tracker: Tracker, x: MuxId, done: seq<nat>, vals: map<SigId, Value>,
                            s0: map<SigId, SigState>, m0: map<MonId, MonState>, x0: map<MuxId, MuxState>, l0: map<MuxId, Links>)
  {
    && Values(sigs) == vals && x in x0
    && var st := x0[x];
       && |st.valList| == 2 * |st.parts| + 1 && SigsIn(st.parts, vals)
       && (forall k :: 0 <= k < |done| ==> done[k] < |st.parts|)
       && muxes == x0[x := st.(valList := Refreshed(w, st.valList, st.parts, done, vals))]
       && Evolved(s0, m0, x0, l0, sigs, mons, muxes, links)
       && (!tracker.MonitorTracker? ==> Subscribed(m0, mons, tracker, []))
       && (tracker.NoTracker? ==> sigs == s0 && links == l0)
       && (tracker.MuxTracker? ==> tracker.x in links && SigParts(st.parts, done) <= links[tracker.x].watching)
  }

  /** The thunk of part `j`, run from the loop state `ss`, `ms`, `xs`,
      `ls`, moves the loop one part on. */
  lemma EvalStateStep(w: World, x: MuxId, j: nat, done: seq<nat>, vals: map<SigId, Value>, s0: map<SigId, SigState>,
                      m0: map<MonId, MonState>, x0: map<MuxId, MuxState>, l0: map<MuxId, Links>,
                      ss: map<SigId, SigState>, ms: map<MonId, MonState>, xs: map<MuxId, MuxState>, ls: map<MuxId, Links>,
                      sigs: map<SigId, SigState>, mons: map<MonId, MonState>, muxes: map<MuxId, MuxState>,
                      links: map<MuxId, Links>, tracker: Tracker)
    requires EvalState(w, ss, ms, xs, ls, tracker, x, done, vals, s0, m0, x0, l0)
    requires j < |x0[x].parts| && !x0[x].parts[j].Literal?
    requires Evolved(ss, ms, xs, ls, sigs, mons, muxes, links) && Values(sigs) == vals
    requires tracker.MuxTracker? ==> tracker.x in links
    requires var st := xs[x]; var p := st.parts[j];
      && muxes == xs[x := st.(valList := st.valList[2 * j + 1 := PartValue(w, p, vals)])]
      && Subscribed(ms, mons, tracker, if p.Sig? then [p.s] else [])
      && (tracker.MuxTracker? && p.Sig? ==> p.s in links[tracker.x].watching)
      && (tracker.NoTracker? ==> sigs == ss && links == ls)
    ensures EvalState(w, sigs, mons, muxes, links, tracker, x, done + [j], vals, s0, m0, x0, l0)
  {
    var st := x0[x];
    SlotsStep(w, x, j, done, vals, x0, xs, muxes);
    EvolvedTrans(s0, m0, x0, l0, ss, ms, xs, ls, sigs, mons, muxes, links);
    SigPartsStep(st.parts, done, j);
    if !tracker.MonitorTracker? {
      SubscribedTrans(m0, ms, mons, tracker, [], if st.parts[j].Sig? then [st.parts[j].s] else []);
      SubscribedEmpty(m0, mons, tracker, tracker);
    }
    if tracker.MuxTracker? {
      assert ls[tracker.x].watching <= links[tracker.x].watching;
    }
  }

  /** One more part re-evaluated into mux `x`'s slots, from the muxes `x0`
      before the loop through `xs` to `ms`. */
  lemma SlotsStep(w: World, x: MuxId, j: nat, done: seq<nat>, vals: map<SigId, Value>,
                  x0: map<MuxId, MuxState>, xs: map<MuxId, MuxState>, ms: map<MuxId, MuxState>)
    requires x in x0 && j < |x0[x].parts|
    requires var st := x0[x];
      && |st.valList| == 2 * |st.parts| + 1 && SigsIn(st.parts, vals)
      && (forall k :: 0 <= k < |done| ==> done[k] < |st.parts|)
      && xs == x0[x := st.(valList := Refreshed(w, st.valList, st.parts, done, vals))]
    requires ms == xs[x := xs[x].(valList := xs[x].valList[2 * j + 1 := PartValue(w, xs[x].parts[j], vals)])]
    ensures forall k :: 0 <= k < |done + [j]| ==> (done + [j])[k] < |x0[x].parts|
    ensures var st := x0[x]; ms == x0[x := st.(valList := Refreshed(w, st.valList, st.parts, done + [j], vals))]
  {
    var st := x0[x];
    RefreshedStep(w, st.valList, st.parts, done, j, vals);
    MapSetTwice(x0, x, xs[x], ms[x]);
  }

  /** A watch of mux `x` from the links `l0`, signals `s0` and trace `t0`
      after the signals `done`: each one not watched yet is pushed to the
      `disconnectList`, watched, has the flush as a receiver and was
      flushed with its value, once and in order. */
  ghost predicate WatchedSoFar(x: MuxId, done: seq<SigId>, l0: map<MuxId, Links>, s0: map<SigId, SigState>, t0: seq<Event>,
                               links: map<MuxId, Links>, sigs: map<SigId, SigState>, trace: seq<Event>)
  {
    && x in l0 && l0[x].disconnectList.Some?
    && (forall s :: s in done ==> s in s0)
    && var added := Fresh(l0[x].watching, done);
       && links == l0[x := Links(Some(l0[x].disconnectList.value + Entries(added)), l0[x].watching + Members(added))]
       && sigs == Attached(s0, Members(added), MuxFlush(x))
       && trace == t0 + FlushCalls(x, added, s0)
  }

  lemma WatchStart(x: MuxId, l0: map<MuxId, Links>, s0: map<SigId, SigState>, t0: seq<Event>)
    requires x in l0 && l0[x].disconnectList.Some?
    ensures WatchedSoFar(x, [], l0, s0, t0, l0, s0, t0)
  {
    var none: seq<SigId> := [];
    assert Fresh(l0[x].watching, none) == none;
    assert Members(none) == {};
    assert l0[x].disconnectList.value + Entries(none) == l0[x].disconnectList.value;
    assert Links(Some(l0[x].disconnectList.value), l0[x].watching + {}) == l0[x];
    assert l0[x := l0[x]] == l0;
    assert Attached(s0, {}, MuxFlush(x)) == s0;
  }

  lemma SeqAssociative<T>(a: seq<T>, b: seq<T>, c: seq<T>)
    ensures (a + b) + c == a + (b + c)
  {
  }

  lemma FlushCallsStep(x: MuxId, added: seq<SigId>, s: SigId, sigs: map<SigId, SigState>)
    requires (forall t :: t in added ==> t in sigs) && s in sigs
    ensures FlushCalls(x, added + [s], sigs) == FlushCalls(x, added, sigs) + [Invoke(MuxFlush(x), [sigs[s].val])]
  {
    assert (added + [s])[..|added|] == added;
  }

  /** A signal not watched yet: pushed to the list and watched, ... */
  lemma WatchFreshLinks(x: MuxId, added: seq<SigId>, s: SigId, l0: map<MuxId, Links>, ls: map<MuxId, Links>, links: map<MuxId, Links>)
    requires x in l0 && l0[x].disconnectList.Some?
    requires ls == l0[x := Links(Some(l0[x].disconnectList.value + Entries(added)), l0[x].watching + Members(added))]
    requires links == ls[x := Links(Some(ls[x].disconnectList.value + [Some(s)]), ls[x].watching + {s})]
    ensures links == l0[x := Links(Some(l0[x].disconnectList.value + Entries(added + [s])), l0[x].watching + Members(added + [s]))]
  {
    var dl0, w0 := l0[x].disconnectList.value, l0[x].watching;
    assert ls[x] == Links(Some(dl0 + Entries(added)), w0 + Members(added));
    EntriesStep(added, s);
    MembersStep(added, s);
    SeqAssociative(dl0, Entries(added), [Some(s)]);
    assert w0 + Members(added) + {s} == w0 + Members(added + [s]);
    assert links[x] == Links(Some(dl0 + Entries(added + [s])), w0 + Members(added + [s]));
    MapSetTwice(l0, x, ls[x], links[x]);
  }

  /** ... attached to the flush, ... */
  lemma WatchFreshSigs(x: MuxId, added: seq<SigId>, s: SigId, s0: map<SigId, SigState>, ss: map<SigId, SigState>,
                       sigs: map<SigId, SigState>)
    requires s in s0 && ss == Attached(s0, Members(added), MuxFlush(x))
    requires sigs == ss[s := ss[s].(receivers := Add(ss[s].receivers, MuxFlush(x)))]
    ensures sigs == Attached(s0, Members(added + [s]), MuxFlush(x))
  {
    MembersStep(added, s);
    AttachedStep(s0, Members(added), s, MuxFlush(x));
  }

  /** ... and flushed with its value. */
  lemma WatchFreshTrace(x: MuxId, added: seq<SigId>, s: SigId, s0: map<SigId, SigState>, t0: seq<Event>, ts: seq<Event>,
                        v: Value, trace: seq<Event>)
    requires s in s0 && (forall t :: t in added ==> t in s0) && v == s0[s].val
    requires ts == t0 + FlushCalls(x, added, s0) && trace == ts + [Invoke(MuxFlush(x), [v])]
    ensures trace == t0 + FlushCalls(x, added + [s], s0)
  {
    FlushCallsStep(x, added, s, s0);
    SeqAssociative(t0, FlushCalls(x, added, s0), [Invoke(MuxFlush(x), [v])]);
  }

  lemma PrefixIn(signals: seq<SigId>, i: nat, s0: map<SigId, SigState>)
    requires i < |signals| && signals[i] in s0 && forall t :: t in signals[..i] ==> t in s0
    ensures forall t :: t in signals[..i + 1] ==> t in s0
  {
    assert signals[..i + 1] == signals[..i] + [signals[i]];
  }

  /** One more signal of a watch: what `WatchOne` leaves from the state
      `ls`, `ss`, `ts` after `signals[..i]` is the state after `signals[..i + 1]`. */
  lemma WatchStepped(x: MuxId, signals: seq<SigId>, i: nat, l0: map<MuxId, Links>, s0: map<SigId, SigState>, t0: seq<Event>,
                     ls: map<MuxId, Links>, ss: map<SigId, SigState>, ts: seq<Event>,
                     links: map<MuxId, Links>, sigs: map<SigId, SigState>, trace: seq<Event>)
    requires i < |signals| && signals[i] in s0
    requires WatchedSoFar(x, signals[..i], l0, s0, t0, ls, ss, ts)
    requires var s := signals[i];
      && (s in ls[x].watching ==> links == ls && sigs == ss && trace == ts)
      && (s !in ls[x].watching ==>
        && links == ls[x := Links(Some(ls[x].disconnectList.value + [Some(s)]), ls[x].watching + {s})]
        && sigs == ss[s := ss[s].(receivers := Add(ss[s].receivers, MuxFlush(x)))]
        && trace == ts + [Invoke(MuxFlush(x), [ss[s].val])])
    ensures WatchedSoFar(x, signals[..i + 1], l0, s0, t0, links, sigs, trace)
  {
    var w0 := l0[x].watching;
    var added := Fresh(w0, signals[..i]);
    var s := signals[i];
    FreshPrefix(w0, signals, i);
    PrefixIn(signals, i, s0);
    assert ls[x].watching == w0 + Members(added);
    if s !in ls[x].watching {
      assert Fresh(w0, signals[..i + 1]) == added + [s];
      WatchFreshLinks(x, added, s, l0, ls, links);
      WatchFreshSigs(x, added, s, s0, ss, sigs);
      WatchFreshTrace(x, added, s, s0, t0, ts, ss[s].val, trace);
    } else {
      assert Fresh(w0, signals[..i + 1]) == added;
    }
  }

  /** What a whole watch leaves: signals and links only grow, values are
      as they were, and every given signal is watched. */
  lemma WatchEnd(x: MuxId, signals: seq<SigId>, l0: map<MuxId, Links>, s0: map<SigId, SigState>, t0: seq<Event>,
                 links: map<MuxId, Links>, sigs: map<SigId, SigState>, trace: seq<Event>)
    requires WatchedSoFar(x, signals, l0, s0, t0, links, sigs, trace)
    ensures Grows(s0, sigs) && StaysActive(l0, links) && WatchGrows(l0, links) && Values(sigs) == Values(s0)
    ensures forall k :: 0 <= k < |signals| ==> signals[k] in links[x].watching
  {
    var added := Fresh(l0[x].watching, signals);
    GrowsAttached(s0, Members(added), MuxFlush(x));
    ValuesDetached(s0, Members(added), MuxFlush(x));
    FreshCovers(l0[x].watching, signals);
    WatchGrowsSet(l0, x, links[x]);
    StaysActiveSet(l0, x, links[x]);
    forall k | 0 <= k < |signals| ensures signals[k] in links[x].watching {
      assert signals[k] in Members(signals);
    }
  }

  /** After `disconnect(h)` on signal `s`: the result says whether `h` was
      a receiver, it is one no longer, and only its cleanup (if any) ran. */
  ghost predicate Unsubscribed(s0: map<SigId, SigState>, t0: seq<Event>, s: SigId, h: Handler, removed: bool,
                               sigs: map<SigId, SigState>, trace: seq<Event>) {
    && s in s0 && s in sigs
    && (removed <==> h in s0[s].receivers)
    && h !in sigs[s].receivers
    && trace == t0 + if h in s0[s].cleanups then [RunCleanup(s0[s].cleanups[h])] else []
  }

  /** What running disposer `d` did: a signal or mux disposer is a
      `disconnect` of its handler; a monitor's disposer detaches the
      monitor's callback from every signal it read and runs no cleanup. */
  ghost predicate Disposed(d: Disposer, r: bool, s0: map<SigId, SigState>, t0: seq<Event>, x0: map<MuxId, MuxState>,
                           mons: map<MonId, MonState>, sigs: map<SigId, SigState>, trace: seq<Event>) {
    match d
    case SigDisconnect(s, h) => Unsubscribed(s0, t0, s, h, r, sigs, trace)
    case MuxHandle(x, h) => x in x0 && Unsubscribed(s0, t0, x0[x].str, h, r, sigs, trace)
    case MonitorDispose(m) =>
      && r && m in mons && trace == t0
      && sigs == Detached(s0, Members(mons[m].disposers), MonitorCb(m))
  }

  /** What `cleanup()` of mux `x` did: with no subscriber left the mux is
      inactive; otherwise only its subscriber count went down. */
  ghost predicate CleanedUp(x: MuxId, x0: map<MuxId, MuxState>, l0: map<MuxId, Links>,
                            muxes: map<MuxId, MuxState>, links: map<MuxId, Links>) {
    && x in x0
    && (x0[x].handlerCount - 1 <= 0 ==> !(x in links && links[x].disconnectList.Some?))
    && (x0[x].handlerCount - 1 > 0 ==>
          links == l0 && muxes == x0[x := x0[x].(handlerCount := x0[x].handlerCount - 1)])
  }

  /** A notification round of signal `s` has visited the first `i`
      receivers `rs`, starting from round `r0`. */
  ghost predicate NotifiedSoFar(w: World, s: SigId, s0: map<SigId, SigState>, r0: Round, rs: seq<Handler>, i: nat,
                                newV: Value, oldV: Value, vals: map<SigId, Value>,
                                sigs: map<SigId, SigState>, mons: map<MonId, MonState>, trace: seq<Event>) {
    && s in s0 && rs == s0[s].receivers && i <= |rs|
    && (forall h :: h in rs ==> Known(h, r0.mons))
    && (forall h :: h in rs[..i] ==> h in rs)
    && var n := NotifyAll(w, r0, rs[..i], newV, oldV, vals);
       sigs == s0[s := s0[s].(cleanups := n.cleanups)] && mons == n.mons && trace == n.events
  }

  lemma NotifiedStart(w: World, s: SigId, s0: map<SigId, SigState>, r0: Round, rs: seq<Handler>,
                      newV: Value, oldV: Value, vals: map<SigId, Value>)
    requires s in s0 && rs == s0[s].receivers && r0.cleanups == s0[s].cleanups
    requires forall h :: h in rs ==> Known(h, r0.mons)
    ensures NotifiedSoFar(w, s, s0, r0, rs, 0, newV, oldV, vals, s0, r0.mons, r0.events)
  {
    assert rs[..0] == [];
    assert s0[s := s0[s].(cleanups := r0.cleanups)] == s0;
  }

  /** A whole notification round of signal `s` from the state `s0`, `m0`,
      `t0`: every receiver known, and the signals, monitors and trace
      afterwards those of `NotifyAll` over the receivers in order. */
  ghost predicate NotifiedRound(w: World, s: SigId, s0: map<SigId, SigState>, m0: map<MonId, MonState>, t0: seq<Event>,
                                newV: Value, oldV: Value, sigs: map<SigId, SigState>, mons: map<MonId, MonState>,
                                trace: seq<Event>) {
    && s in s0 && (forall h :: h in s0[s].receivers ==> Known(h, m0))
    && var o := s0[s];
       var n := NotifyAll(w, Round(o.cleanups, m0, t0), o.receivers, newV, oldV, Values(s0));
       && sigs == s0[s := o.(cleanups := n.cleanups)]
       && mons == n.mons && trace == n.events
  }

  lemma NotifiedAll(w: World, s: SigId, s0: map<SigId, SigState>, r0: Round, rs: seq<Handler>,
                    newV: Value, oldV: Value, vals: map<SigId, Value>, i: nat,
                    sigs: map<SigId, SigState>, mons: map<MonId, MonState>, trace: seq<Event>)
    requires i == |rs| && NotifiedSoFar(w, s, s0, r0, rs, i, newV, oldV, vals, sigs, mons, trace)
    requires r0.cleanups == s0[s].cleanups && vals == Values(s0)
    ensures SameMonitors(r0.mons, mons) && SameBodies(r0.mons, mons) && Values(sigs) == vals
    ensures NotifiedRound(w, s, s0, r0.mons, r0.events, newV, oldV, sigs, mons, trace)
  {
    assert rs[..|rs|] == rs;
    assert Round(s0[s].cleanups, r0.mons, r0.events) == r0;
  }

  lemma UnsubscribedShrinks(s0: map<SigId, SigState>, t0: seq<Event>, s: SigId, h: Handler, removed: bool,
                            s1: map<SigId, SigState>, sigs: map<SigId, SigState>, trace: seq<Event>)
    requires Unsubscribed(s0, t0, s, h, removed, s1, trace) && Shrinks(s1, sigs) && s in sigs
    ensures Unsubscribed(s0, t0, s, h, removed, sigs, trace)
  {
  }

  /** The literal placements and `evalList` pushes of activation's
      `args.map`: a literal part's slot gets its value, every other part is
      listed for re-evaluation, in order. */
  method Place(parts: seq<Part>, slots: seq<Value>) returns (vl: seq<Value>, ev: seq<nat>)
    requires |slots| == 2 * |parts| + 1
    ensures Placed(parts, slots, vl) && ev == Tracked(parts, |parts|)
  {
    vl, ev := slots, [];
    var i := 0;
    while i < |parts|
      invariant 0 <= i <= |parts| && |vl| == |slots| && ev == Tracked(parts, i)
      invariant forall k :: 0 <= k < |slots| ==>
        vl[k] == if k % 2 == 1 && k / 2 < i && parts[k / 2].Literal? then parts[k / 2].v else slots[k]
    {
      if parts[i].Literal? {
        vl := vl[2 * i + 1 := parts[i].v];
      } else {
        ev := ev + [i];
      }
      forall k | 0 <= k < |slots| && k % 2 == 1 && k / 2 == i ensures k == 2 * i + 1 {
      }
      i := i + 1;
    }
  }

  class Runtime {
    const world: World
    var sigs: map<SigId, SigState>
    var nextSig: nat
    var mons: map<MonId, MonState>
    var nextMon: nat
    var muxes: map<MuxId, MuxState>
    var links: map<MuxId, Links>
    var nextMux: nat
    var tracker: Tracker            // monitorCallBack
    var disposeList: Option<MonId>  // the disposer list of this monitor, or null
    var trace: seq<Event>
    /** The muxes that wrote their concatenation to their result signal, in order. */
    ghost var published: seq<MuxId>
    /** The muxes whose public `flush` client code connected to a signal
        outside the mux's own disconnect list. */
    ghost var clientFlushes: set<MuxId>

    // ---------------------------------------------------------------- invariant

    ghost predicate Valid()
      reads this
    {
      && Inv(sigs, nextSig, mons, nextMon, muxes, links, nextMux, tracker, disposeList)
      && FlushesWired(sigs, links, clientFlushes)
    }

    /** What no operation changes: templates and monitor bodies; and the
        signals a mux watches only grow. */
    twostate predicate Kept()
      reads this
    {
      SameTemplates(old(muxes), muxes) && WatchGrows(old(links), links) && SameBodies(old(mons), mons)
    }

    /** `handler === monitorCallBack`. */
    predicate IsTracking(h: Handler)
      reads this
    {
      tracker.MonitorTracker? && h == MonitorCb(tracker.m)
    }

    ghost predicate Active(x: MuxId)
      reads this
    {
      x in links && links[x].disconnectList.Some?
    }

    /** Every signal part of mux `x` is among the signals it watches. */
    ghost predicate WatchesParts(x: MuxId)
      reads this
    {
      PartsWatched(muxes, links, x)
    }

    constructor (w: World)
      ensures Valid() && world == w
      ensures sigs == map[] && mons == map[] && muxes == map[] && links == map[]
      ensures nextSig == 0 && nextMon == 0 && nextMux == 0
      ensures tracker == NoTracker && disposeList == None && trace == [] && published == [] && clientFlushes == {}
    {
      world := w;
      sigs, nextSig := map[], 0;
      mons, nextMon := map[], 0;
      muxes, links, nextMux := map[], map[], 0;
      tracker, disposeList := NoTracker, None;
      trace, published, clientFlushes := [], [], {};
    }

    // ---------------------------------------------------------------- signal

    /** `signal(v)`. */
    method NewSignal(v: Value) returns (s: SigId)
      requires Valid()
      modifies this`sigs, this`nextSig
      ensures Valid() && s == old(nextSig) && nextSig == s + 1 && s !in old(sigs)
      ensures sigs == old(sigs)[s := SigState(v, [], map[])]
    {
      s := nextSig;
      InvNewSig(sigs, nextSig, mons, nextMon, muxes, links, nextMux, tracker, disposeList, v);
      WiredSet(sigs, links, clientFlushes, s, SigState(v, [], map[]));
      sigs, nextSig := sigs[s := SigState(v, [], map[])], nextSig + 1;
    }

    /** Calling a receiver `h(args...)`. */
    method CallHandler(h: Handler, args: seq<Value>) returns (ret: Option<CleanupId>)
      requires Valid() && HandlerIn(h, nextMon, nextMux)
      modifies this`mons, this`trace
      ensures Valid() && Kept()
      ensures Known(h, old(mons))
      ensures sigs == old(sigs) && links == old(links) && muxes == old(muxes) && tracker == old(tracker) && published == old(published)
      ensures var o := Call(world, old(mons), h, args, Values(sigs));
        mons == o.mons && trace == old(trace) + o.events && ret == o.ret
    {
      match h
      case User(u) =>
        trace := trace + [Invoke(h, args)];
        ret := world.reply(u, args);
      case MonitorCb(m) =>
        MonitorRerun(m);
        ret := None;
      case MuxFlush(_) =>
        trace := trace + [Invoke(h, args)];
        ret := None;
    }

    /** A monitor's re-run `callback`. */
    method MonitorRerun(m: MonId)
      requires Valid() && m in mons
      modifies this`mons, this`trace
      ensures Valid() && Kept()
      ensures sigs == old(sigs) && links == old(links) && muxes == old(muxes) && tracker == old(tracker) && published == old(published)
      ensures mons == old(mons)[m := Rerun(world, m, old(mons)[m], Values(sigs)).0]
      ensures trace == old(trace) + Rerun(world, m, old(mons)[m], Values(sigs)).1
    {
      var st := mons[m];
      var pre := if st.cleanup.Some? then [RunCleanup(st.cleanup.value)] else [];
      var st1 := st.(cleanup := world.body(st.body, Values(sigs)));
      InvMon(sigs, nextSig, mons, nextMon, muxes, links, nextMux, tracker, disposeList, m, st1);
      SameBodiesSet(mons, m, st1);
      Unchanged(sigs, mons, muxes, links);
      trace := trace + pre + [RunBody(m)];
      mons := mons[m := st1];
    }

    /** `trigger.connect(handler)`, for any handler client code holds, a
        mux's public `flush` included. A flush connected outside its mux's
        list puts the mux in `clientFlushes`. */
    method Connect(s: SigId, h: Handler) returns (d: Disposer)
      requires Valid() && s in sigs && HandlerIn(h, nextMon, nextMux)
      modifies this`sigs, this`mons, this`trace, this`clientFlushes
      ensures Valid() && Kept() && Grows(old(sigs), sigs) && d == SigDisconnect(s, h)
      ensures tracker == old(tracker) && published == old(published) && links == old(links) && muxes == old(muxes)
      ensures sigs == old(sigs)[s := old(sigs)[s].(receivers := Add(old(sigs)[s].receivers, h))]
      ensures Values(sigs) == Values(old(sigs))
      ensures IsTracking(h) ==> mons == old(mons) && trace == old(trace)
      ensures !IsTracking(h) ==> Known(h, old(mons))
      ensures !IsTracking(h) ==>
        var o := Call(world, old(mons), h, [old(sigs)[s].val], Values(old(sigs)));
        mons == o.mons && trace == old(trace) + o.events
      ensures clientFlushes == Flagged(old(clientFlushes), s, h, links)
    {
      WiredConnect(sigs, links, clientFlushes, s, h);
      clientFlushes := Flagged(clientFlushes, s, h, links);
      d := Attach(s, h);
    }

    /** The work of `trigger.connect(handler)`: the handler joins the
        receivers and, unless it is the tracking callback, is called once with
        the current value. A flush given here is one its mux's own wiring
        lists, or one of a mux already in `clientFlushes`. */
    method Attach(s: SigId, h: Handler) returns (d: Disposer)
      requires Valid() && s in sigs && HandlerIn(h, nextMon, nextMux)
      requires h.MuxFlush? && h.x !in clientFlushes ==> Listed(s, h.x, links)
      modifies this`sigs, this`mons, this`trace
      ensures Valid() && Kept() && Grows(old(sigs), sigs) && d == SigDisconnect(s, h)
      ensures tracker == old(tracker) && published == old(published) && links == old(links) && muxes == old(muxes)
      ensures sigs == old(sigs)[s := old(sigs)[s].(receivers := Add(old(sigs)[s].receivers, h))]
      ensures Values(sigs) == Values(old(sigs))
      ensures IsTracking(h) ==> mons == old(mons) && trace == old(trace)
      ensures !IsTracking(h) ==> Known(h, old(mons))
      ensures !IsTracking(h) ==>
        var o := Call(world, old(mons), h, [old(sigs)[s].val], Values(old(sigs)));
        mons == o.mons && trace == old(trace) + o.events
    {
      var st := sigs[s];
      var st1 := st.(receivers := Add(st.receivers, h));
      SigOkAdd(st, h, nextMon, nextMux);
      InvSig(sigs, nextSig, mons, nextMon, muxes, links, nextMux, tracker, disposeList, s, st1);
      WiredSet(sigs, links, clientFlushes, s, st1);
      ValuesSet(sigs, s, st1);
      GrowsSet(sigs, s, st1);
      sigs := sigs[s := st1];
      if !IsTracking(h) {
        var _ := CallHandler(h, [st.val]);
      }
      d := SigDisconnect(s, h);
    }

    /** `trigger.disconnect(handler)`: its cleanup (if any) runs and is
        dropped; the result says whether it was a receiver. */
    method Disconnect(s: SigId, h: Handler) returns (removed: bool)
      requires Valid() && s in sigs
      modifies this`sigs, this`trace
      ensures Valid() && Kept() && Values(sigs) == Values(old(sigs))
      ensures links == old(links) && muxes == old(muxes) && mons == old(mons) && tracker == old(tracker)
      ensures removed <==> h in old(sigs)[s].receivers
      ensures Unsubscribed(old(sigs), old(trace), s, h, removed, sigs, trace)
      ensures var o := old(sigs)[s];
        && sigs == old(sigs)[s := o.(receivers := Remove(o.receivers, h), cleanups := Dropped(o.cleanups, h))]
        && trace == old(trace) + if h in o.cleanups then [RunCleanup(o.cleanups[h])] else []
    {
      var st := sigs[s];
      var pre := if h in st.cleanups then [RunCleanup(st.cleanups[h])] else [];
      removed := h in st.receivers;
      var st1 := st.(receivers := Remove(st.receivers, h), cleanups := Dropped(st.cleanups, h));
      SigOkRemove(st, h, nextMon, nextMux);
      InvSig(sigs, nextSig, mons, nextMon, muxes, links, nextMux, tracker, disposeList, s, st1);
      WiredSet(sigs, links, clientFlushes, s, st1);
      ValuesSet(sigs, s, st1);
      assert st1 == old(sigs)[s].(receivers := Remove(old(sigs)[s].receivers, h), cleanups := Dropped(old(sigs)[s].cleanups, h));
      sigs, trace := sigs[s := st1], trace + pre;
    }

    /** Disconnecting twice: the second call finds nothing to remove and
        runs no cleanup. */
    method DisconnectTwice(s: SigId, h: Handler) returns (first: bool, second: bool)
      requires Valid() && s in sigs
      modifies this`sigs, this`trace
      ensures Valid() && (first <==> h in old(sigs)[s].receivers) && !second
      ensures h !in sigs[s].receivers && h !in sigs[s].cleanups
      ensures trace == old(trace) + if h in old(sigs)[s].cleanups then [RunCleanup(old(sigs)[s].cleanups[h])] else []
    {
      first := Disconnect(s, h);
      second := Disconnect(s, h);
    }

    /** `trigger()`: a read. While a mux activates, the signal is watched by
        it; while a monitor's first run, the monitor's callback is connected
        and its disconnector recorded. */
    method Read(s: SigId) returns (v: Value)
      requires Valid() && s in sigs
      modifies this`sigs, this`mons, this`links, this`trace
      ensures Valid() && Kept() && Grows(old(sigs), sigs) && StaysActive(old(links), links)
      ensures tracker == old(tracker) && published == old(published) && muxes == old(muxes)
      ensures v == old(sigs)[s].val && Values(sigs) == Values(old(sigs))
      ensures Subscribed(old(mons), mons, tracker, [s])
      ensures tracker.NoTracker? ==> sigs == old(sigs) && links == old(links) && trace == old(trace) && mons == old(mons)
      ensures tracker.MonitorTracker? ==>
        && sigs == old(sigs)[s := old(sigs)[s].(receivers := Add(old(sigs)[s].receivers, MonitorCb(tracker.m)))]
        && links == old(links) && trace == old(trace)
      ensures tracker.MuxTracker? ==> Watched(tracker.x, [s]) && s in links[tracker.x].watching
      ensures tracker.MonitorTracker? ==> MonitorCb(tracker.m) in sigs[s].receivers
    {
      v := sigs[s].val;
      if tracker.NoTracker? {
        Unchanged(sigs, mons, muxes, links);
        SubscribedNone(mons, tracker, [s]);
      } else if IsUberSignal(tracker) {
        WatchActive(tracker.x, [s]);
        SubscribedNone(mons, tracker, [s]);
      } else {
        Subscribe(s);
      }
    }

    /** The read under a monitor's first run: the callback is connected and
        the disconnector recorded in the monitor's list. */
    method Subscribe(s: SigId)
      requires Valid() && s in sigs && tracker.MonitorTracker?
      modifies this`sigs, this`mons, this`trace
      ensures Valid() && Kept() && Grows(old(sigs), sigs) && Values(sigs) == Values(old(sigs)) && trace == old(trace)
      ensures tracker == old(tracker) && published == old(published) && links == old(links) && muxes == old(muxes)
      ensures Subscribed(old(mons), mons, tracker, [s])
      ensures sigs == old(sigs)[s := old(sigs)[s].(receivers := Add(old(sigs)[s].receivers, MonitorCb(tracker.m)))]
    {
      var m := tracker.m;
      var _ := Attach(s, MonitorCb(m));
      var ms := mons[m].(disposers := mons[m].disposers + [s]);
      SubscribedPush(mons, m, [s]);
      InvMon(sigs, nextSig, mons, nextMon, muxes, links, nextMux, tracker, disposeList, m, ms);
      Unchanged(sigs, mons, muxes, links);
      mons := mons[m := ms];
    }

    /** `trigger(arg)`: a write. When the value changed, one notification
        round over the receivers as they were when it started. */
    method Write(s: SigId, arg: WriteArg)
      requires Valid() && s in sigs
      modifies this`sigs, this`mons, this`trace
      ensures Valid() && Kept() && Grows(old(sigs), sigs) && SameMonitors(old(mons), mons)
      ensures Wrote(s, arg)
    {
      var st := sigs[s];
      var oldV := st.val;
      if arg.Update? {
        trace := trace + [CallFn(arg.f)];
      }
      var newV := NewValue(world, arg, oldV);
      var st1 := st.(val := newV);
      SigOkVal(st, newV, nextMon, nextMux);
      InvSig(sigs, nextSig, mons, nextMon, muxes, links, nextMux, tracker, disposeList, s, st1);
      WiredSet(sigs, links, clientFlushes, s, st1);
      GrowsSet(sigs, s, st1);
      sigs := sigs[s := st1];
      if !StrictEq(newV, oldV) {
        ghost var s1 := sigs;
        NotifyReceivers(s, newV, oldV);
        GrowsSet(old(sigs), s, sigs[s]);
        assert sigs == s1[s := sigs[s]];
        MapSetTwice(old(sigs), s, st1, sigs[s]);
      }
    }

    /** The notification round of a write: every receiver, in order, has its
        cleanup run and is called with the new and old values. */
    method NotifyReceivers(s: SigId, newV: Value, oldV: Value)
      requires Valid() && s in sigs
      modifies this`sigs, this`mons, this`trace
      ensures Valid() && Kept() && Values(sigs) == Values(old(sigs)) && SameMonitors(old(mons), mons)
      ensures links == old(links) && muxes == old(muxes) && tracker == old(tracker) && published == old(published)
      ensures NotifiedRound(world, s, old(sigs), old(mons), old(trace), newV, oldV, sigs, mons, trace)
    {
      var rs := sigs[s].receivers;
      ghost var vals := Values(sigs);
      ghost var r0 := Round(sigs[s].cleanups, mons, trace);
      assert forall h :: h in rs ==> Known(h, r0.mons) by {
        assert SigOk(sigs[s], nextMon, nextMux);
      }
      NotifiedStart(world, s, sigs, r0, rs, newV, oldV, vals);
      NotifyLoop(s, rs, newV, oldV, sigs, r0, vals);
      NotifiedAll(world, s, old(sigs), r0, rs, newV, oldV, vals, |rs|, sigs, mons, trace);
      Unchanged(sigs, mons, muxes, links);
    }

    /** The `forEach` over the receivers of the round. */
    method NotifyLoop(s: SigId, rs: seq<Handler>, newV: Value, oldV: Value,
                      ghost s0: map<SigId, SigState>, ghost r0: Round, ghost vals: map<SigId, Value>)
      requires Valid() && Values(sigs) == vals
      requires NotifiedSoFar(world, s, s0, r0, rs, 0, newV, oldV, vals, sigs, mons, trace)
      modifies this`sigs, this`mons, this`trace
      ensures Valid() && Values(sigs) == vals
      ensures links == old(links) && muxes == old(muxes) && tracker == old(tracker) && published == old(published)
      ensures NotifiedSoFar(world, s, s0, r0, rs, |rs|, newV, oldV, vals, sigs, mons, trace)
    {
      var i := 0;
      while i < |rs|
        invariant 0 <= i <= |rs|
        invariant Valid() && Values(sigs) == vals
        invariant links == old(links) && muxes == old(muxes) && tracker == old(tracker) && published == old(published)
        invariant NotifiedSoFar(world, s, s0, r0, rs, i, newV, oldV, vals, sigs, mons, trace)
      {
        NotifyNext(s, rs, i, newV, oldV, s0, r0, vals);
        i := i + 1;
      }
    }

    /** The next receiver's turn of a notification round. */
    method NotifyNext(s: SigId, rs: seq<Handler>, i: nat, newV: Value, oldV: Value,
                      ghost s0: map<SigId, SigState>, ghost r0: Round, ghost vals: map<SigId, Value>)
      requires Valid() && Values(sigs) == vals && i < |rs|
      requires NotifiedSoFar(world, s, s0, r0, rs, i, newV, oldV, vals, sigs, mons, trace)
      modifies this`sigs, this`mons, this`trace
      ensures Valid() && Values(sigs) == vals
      ensures links == old(links) && muxes == old(muxes) && tracker == old(tracker) && published == old(published)
      ensures NotifiedSoFar(world, s, s0, r0, rs, i + 1, newV, oldV, vals, sigs, mons, trace)
    {
      ghost var prev := sigs;
      NotifyStep(world, r0, rs, i, newV, oldV, vals);
      assert rs[i] in sigs[s].receivers;
      Deliver(s, rs[i], newV, oldV);
      MapSetTwice(s0, s, prev[s], sigs[s]);
    }

    /** What a write promises: an update function is called first, the new
        value is stored, the receivers stay, and when the new value is not
        strictly equal to the old one the round ran over the receivers. */
    twostate predicate Wrote(s: SigId, arg: WriteArg)
      reads this
    {
      && s in old(sigs) && s in sigs
      && var o := old(sigs)[s];
         var newV := NewValue(world, arg, o.val);
         var t1 := if arg.Update? then old(trace) + [CallFn(arg.f)] else old(trace);
         && sigs == old(sigs)[s := sigs[s]]
         && Delivered(world, o, newV, old(mons), t1, Values(sigs), sigs[s], mons, trace)
    }

    /** One receiver's turn in a notification round. */
    method Deliver(s: SigId, h: Handler, newV: Value, oldV: Value)
      requires Valid() && s in sigs && h in sigs[s].receivers
      modifies this`sigs, this`mons, this`trace
      ensures Valid() && Kept() && Values(sigs) == Values(old(sigs)) && SameMonitors(old(mons), mons)
      ensures Known(h, old(mons))
      ensures links == old(links) && muxes == old(muxes) && tracker == old(tracker) && published == old(published)
      ensures var r := Visit(world, Round(old(sigs)[s].cleanups, old(mons), old(trace)), h, newV, oldV, Values(old(sigs)));
        && sigs == old(sigs)[s := old(sigs)[s].(cleanups := r.cleanups)]
        && mons == r.mons && trace == r.events
    {
      DropCleanup(s, h);
      ghost var s1, t1 := sigs, trace;
      var ret := CallHandler(h, [newV, oldV]);
      if ret.Some? {
        StoreCleanup(s, h, ret.value);
        MapSetTwice(old(sigs), s, s1[s], sigs[s]);
      }
    }

    /** `trigger.cleanups.get(handler)?.()` and the entry's removal, before
        a receiver is called. */
    method DropCleanup(s: SigId, h: Handler)
      requires Valid() && s in sigs
      modifies this`sigs, this`trace
      ensures Valid() && Values(sigs) == Values(old(sigs))
      ensures links == old(links) && muxes == old(muxes) && mons == old(mons) && tracker == old(tracker) && published == old(published)
      ensures var o := old(sigs)[s];
        && sigs == old(sigs)[s := o.(cleanups := o.cleanups - {h})]
        && trace == old(trace) + if h in o.cleanups then [RunCleanup(o.cleanups[h])] else []
    {
      var cur := sigs[s];
      assert SigOk(cur, nextMon, nextMux);
      var pre := if h in cur.cleanups then [RunCleanup(cur.cleanups[h])] else [];
      var c1 := cur.(cleanups := cur.cleanups - {h});
      SigOkDrop(cur, h, nextMon, nextMux);
      InvSig(sigs, nextSig, mons, nextMon, muxes, links, nextMux, tracker, disposeList, s, c1);
      WiredSet(sigs, links, clientFlushes, s, c1);
      ValuesSet(sigs, s, c1);
      assert c1 == old(sigs)[s].(cleanups := old(sigs)[s].cleanups - {h});
      sigs, trace := sigs[s := c1], trace + pre;
    }

    /** `trigger.cleanups.set(handler, cleanup)` when a receiver returned a
        function. */
    method StoreCleanup(s: SigId, h: Handler, c: CleanupId)
      requires Valid() && s in sigs && h in sigs[s].receivers && h.User?
      modifies this`sigs
      ensures Valid() && Values(sigs) == Values(old(sigs))
      ensures links == old(links) && muxes == old(muxes) && mons == old(mons) && tracker == old(tracker) && published == old(published)
      ensures sigs == old(sigs)[s := old(sigs)[s].(cleanups := old(sigs)[s].cleanups[h := c])]
    {
      var cur := sigs[s];
      assert SigOk(cur, nextMon, nextMux);
      var c2 := cur.(cleanups := cur.cleanups[h := c]);
      SigOkStore(cur, h, c, nextMon, nextMux);
      InvSig(sigs, nextSig, mons, nextMon, muxes, links, nextMux, tracker, disposeList, s, c2);
      WiredSet(sigs, links, clientFlushes, s, c2);
      ValuesSet(sigs, s, c2);
      sigs := sigs[s := c2];
    }

    // ---------------------------------------------------------------- monitor

    /** One read of a monitor's first run: the signal read, or the mux's
        result signal, gets the monitor as a subscriber. */
    method ReadSource(src: Source) returns (v: Value)
      requires Valid() && SourceOk(src, sigs, muxes) && tracker.MonitorTracker? && tracker.m in mons
      modifies this`sigs, this`mons, this`links, this`muxes, this`trace, this`published, this`tracker
      ensures Valid() && Kept() && tracker == old(tracker) && tracker.m in mons
      ensures Grows(old(sigs), sigs) && StaysActive(old(links), links)
      ensures Subscribed(old(mons), mons, tracker, [ReadOf(src, old(muxes))])
      ensures ReadOf(src, old(muxes)) in sigs && v == sigs[ReadOf(src, old(muxes))].val
      ensures MonitorCb(tracker.m) in sigs[ReadOf(src, old(muxes))].receivers
      ensures mons[tracker.m].body == old(mons)[tracker.m].body
      ensures mons[tracker.m].disposers == old(mons)[tracker.m].disposers + [ReadOf(src, old(muxes))]
    {
      match src
      case FromSignal(s) =>
        v := Read(s);
      case FromMux(x) =>
        v := MuxRead(x);
    }

    /** `monitor(handler)`, the handler's first run being the reads of
        `script`, after which it returns `world.body(body, …)` as its
        cleanup. */
    method Monitor(body: BodyId, script: seq<Source>) returns (d: Disposer)
      requires Valid() && ScriptOk(script, sigs, muxes)
      modifies this`sigs, this`mons, this`nextMon, this`links, this`muxes, this`trace, this`published,
               this`tracker, this`disposeList
      ensures Valid() && Kept() && Grows(old(sigs), sigs)
      ensures tracker == old(tracker) && disposeList == old(disposeList)
      ensures d == MonitorDispose(old(nextMon)) && nextMon == old(nextMon) + 1
      ensures mons.Keys == old(mons).Keys + {old(nextMon)}
      ensures forall k :: k in old(mons) ==> mons[k].disposers == old(mons)[k].disposers
      ensures old(nextMon) in mons && mons[old(nextMon)].body == body
      ensures mons[old(nextMon)].disposers == ReadSignals(script, old(muxes))
      ensures Receives(sigs, MonitorCb(old(nextMon)), mons[old(nextMon)].disposers)
      ensures mons[old(nextMon)].cleanup == world.body(body, Values(sigs))
    {
      var prevT, prevD := tracker, disposeList;
      var m := StartMonitor(body);
      ghost var ls, m1 := links, mons;
      FirstRun(script);
      ghost var m2 := mons;
      SlotInvLinks(prevT, prevD, nextMon, ls, links);
      FinishMonitor(m, prevT, prevD);
      MonitorRan(old(mons), m1, m2, mons, m, body, ReadSignals(script, old(muxes)));
      d := MonitorDispose(m);
    }

    /** A new monitor becomes the tracker, with an empty disposer list,
        and its handler starts its first run. */
    method StartMonitor(body: BodyId) returns (m: MonId)
      requires Valid()
      modifies this`mons, this`nextMon, this`trace, this`tracker, this`disposeList
      ensures Valid() && m == old(nextMon) && nextMon == m + 1 && m !in old(mons)
      ensures mons == old(mons)[m := MonState(body, None, [])]
      ensures tracker == MonitorTracker(m) && disposeList == Some(m) && trace == old(trace) + [RunBody(m)]
      ensures SlotInv(old(tracker), old(disposeList), nextMon, links)
    {
      m := nextMon;
      InvNewMon(sigs, nextSig, mons, nextMon, muxes, links, nextMux, tracker, disposeList, body);
      mons, nextMon := mons[m := MonState(body, None, [])], nextMon + 1;
      InvSlot(sigs, nextSig, mons, nextMon, muxes, links, nextMux, tracker, disposeList, MonitorTracker(m), Some(m));
      tracker, disposeList := MonitorTracker(m), Some(m);
      trace := trace + [RunBody(m)];
    }

    /** The first run's result is stored as the monitor's cleanup and the
        tracking slot gets back what it held. */
    method FinishMonitor(m: MonId, prevT: Tracker, prevD: Option<MonId>)
      requires Valid() && m in mons && SlotInv(prevT, prevD, nextMon, links)
      modifies this`mons, this`tracker, this`disposeList
      ensures Valid() && tracker == prevT && disposeList == prevD
      ensures mons == old(mons)[m := old(mons)[m].(cleanup := world.body(old(mons)[m].body, Values(sigs)))]
    {
      var ms := mons[m].(cleanup := world.body(mons[m].body, Values(sigs)));
      InvMon(sigs, nextSig, mons, nextMon, muxes, links, nextMux, tracker, disposeList, m, ms);
      mons := mons[m := ms];
      InvSlot(sigs, nextSig, mons, nextMon, muxes, links, nextMux, tracker, disposeList, prevT, prevD);
      tracker, disposeList := prevT, prevD;
    }

    /** The reads of a monitor's first run, each subscribing the monitor. */
    method FirstRun(script: seq<Source>)
      requires Valid() && tracker.MonitorTracker? && tracker.m in mons && mons[tracker.m].disposers == []
      requires ScriptOk(script, sigs, muxes)
      modifies this`sigs, this`mons, this`links, this`muxes, this`trace, this`published, this`tracker
      ensures Valid() && tracker == old(tracker)
      ensures ReadState(sigs, mons, muxes, links, tracker.m, ReadSignals(script, old(muxes)),
                        old(sigs), old(mons), old(muxes), old(links))
    {
      var m := tracker.m;
      var i := 0;
      ghost var done := [];
      ghost var s0, m0, x0, l0 := sigs, mons, muxes, links;
      ReadStateStart(sigs, mons, muxes, links, m);
      while i < |script|
        invariant 0 <= i <= |script| && done == ReadSignals(script[..i], x0)
        invariant Valid() && tracker == MonitorTracker(m)
        invariant ReadState(sigs, mons, muxes, links, m, done, s0, m0, x0, l0)
      {
        var src := script[i];
        assert SourceOk(src, s0, x0);
        ReadSignalsStep(script, i, x0);
        i := i + 1;
        assert done + [ReadOf(src, x0)] == ReadSignals(script[..i], x0);
        ReadStep(src, done, s0, m0, x0, l0);
        done := done + [ReadOf(src, x0)];
      }
      assert script[..i] == script;
    }

    /** One read of a first run. */
    method ReadStep(src: Source, ghost done: seq<SigId>, ghost s0: map<SigId, SigState>, ghost m0: map<MonId, MonState>,
                    ghost x0: map<MuxId, MuxState>, ghost l0: map<MuxId, Links>)
      requires Valid() && tracker.MonitorTracker? && SourceOk(src, s0, x0)
      requires ReadState(sigs, mons, muxes, links, tracker.m, done, s0, m0, x0, l0)
      modifies this`sigs, this`mons, this`links, this`muxes, this`trace, this`published, this`tracker
      ensures Valid() && tracker == old(tracker)
      ensures ReadState(sigs, mons, muxes, links, tracker.m, done + [ReadOf(src, x0)], s0, m0, x0, l0)
    {
      ghost var xs, ls, ss, ms := muxes, links, sigs, mons;
      assert ReadOf(src, muxes) == ReadOf(src, x0);
      var _ := ReadSource(src);
      ReadStateStep(tracker.m, ReadOf(src, x0), done, s0, m0, x0, l0, ss, ms, xs, ls, sigs, mons, muxes, links);
    }

    /** The disposer `monitor` returns: every recorded disconnector runs;
        the result is `true`. */
    method DisposeMonitor(m: MonId) returns (r: bool)
      requires Valid() && m in mons
      modifies this`sigs, this`trace
      ensures Valid() && Kept() && r && trace == old(trace) && Values(sigs) == Values(old(sigs))
      ensures links == old(links) && muxes == old(muxes) && mons == old(mons) && tracker == old(tracker)
      ensures sigs == Detached(old(sigs), Members(mons[m].disposers), MonitorCb(m))
      ensures forall k :: 0 <= k < |mons[m].disposers| ==>
        mons[m].disposers[k] in sigs && MonitorCb(m) !in sigs[mons[m].disposers[k]].receivers
    {
      var ds := mons[m].disposers;
      var i := 0;
      while i < |ds|
        invariant 0 <= i <= |ds|
        invariant Valid() && trace == old(trace) && Values(sigs) == Values(old(sigs))
        invariant links == old(links) && muxes == old(muxes) && mons == old(mons) && tracker == old(tracker)
        invariant sigs == Detached(old(sigs), Members(ds[..i]), MonitorCb(m))
      {
        NoCleanup(sigs, MonitorCb(m), nextMon, nextMux);
        assert ds[i] < nextSig;
        MembersPrefix(ds, i);
        DetachedStep(old(sigs), Members(ds[..i]), ds[i], MonitorCb(m));
        var _ := Disconnect(ds[i], MonitorCb(m));
        i := i + 1;
      }
      assert ds[..i] == ds;
      r := true;
    }

    /** Running a monitor's disposer twice: the second run changes nothing. */
    method DisposeTwice(m: MonId) returns (first: bool, second: bool)
      requires Valid() && m in mons
      modifies this`sigs, this`trace
      ensures Valid() && first && second && trace == old(trace)
      ensures sigs == Detached(old(sigs), Members(mons[m].disposers), MonitorCb(m))
    {
      first := DisposeMonitor(m);
      ghost var once := sigs;
      second := DisposeMonitor(m);
      DetachedTwice(old(sigs), Members(mons[m].disposers), MonitorCb(m));
    }

    // ---------------------------------------------------------------- mux

    /** `` mux`...` `` with template `frags` and dynamic arguments `parts`:
        a new result signal and an inactive mux. */
    method NewMux(frags: seq<string>, parts: seq<Part>) returns (x: MuxId)
      requires Valid() && |frags| == |parts| + 1
      requires forall i :: 0 <= i < |parts| && parts[i].Sig? ==> parts[i].s in sigs
      modifies this`sigs, this`nextSig, this`muxes, this`links, this`nextMux
      ensures Valid() && x == old(nextMux) && nextMux == x + 1 && x !in old(muxes)
      ensures nextSig == old(nextSig) + 1 && old(nextSig) !in old(sigs)
      ensures sigs == old(sigs)[old(nextSig) := SigState(Undefined, [], map[])]
      ensures muxes == old(muxes)[x := MuxState(frags, parts, InitialSlots(frags, |parts|), 0, 0, [], old(nextSig))]
      ensures links == old(links)[x := Links(None, {})]
    {
      var str := NewSignal(Undefined);
      x := nextMux;
      var st := MuxState(frags, parts, InitialSlots(frags, |parts|), 0, 0, [], str);
      var ln := Links(None, {});
      assert MuxOk(st, ln, nextSig);
      InvNewMux(sigs, nextSig, mons, nextMon, muxes, links, nextMux, tracker, disposeList, st);
      UnheldNew(sigs, nextMon, nextMux);
      WiredLinks(sigs, links, clientFlushes, x, ln);
      var m1, l1 := muxes[x := st], links[x := ln];
      assert Inv(sigs, nextSig, mons, nextMon, m1, l1, x + 1, tracker, disposeList);
      muxes, links, nextMux := m1, l1, x + 1;
    }

    /** One `evalList` thunk: `valList[2*j+1] = sig()`. */
    method Thunk(x: MuxId, j: nat)
      requires Valid() && x in muxes && j < |muxes[x].parts| && !muxes[x].parts[j].Literal?
      modifies this`sigs, this`mons, this`links, this`muxes, this`trace
      ensures Valid() && Kept() && Grows(old(sigs), sigs) && StaysActive(old(links), links)
      ensures Values(sigs) == Values(old(sigs))
      ensures var st := old(muxes)[x]; var p := st.parts[j];
        && (p.Sig? ==> p.s in old(sigs))
        && muxes == old(muxes)[x := st.(valList := st.valList[2 * j + 1 := PartValue(world, p, Values(old(sigs)))])]
        && Subscribed(old(mons), mons, tracker, if p.Sig? then [p.s] else [])
        && (tracker.MuxTracker? && p.Sig? ==> p.s in links[tracker.x].watching)
        && (tracker.NoTracker? ==> sigs == old(sigs) && links == old(links) && mons == old(mons))
        && (!tracker.MuxTracker? ==> trace == old(trace) + FnCall(st.parts, j))
    {
      var st := muxes[x];
      assert MuxOk(st, links[x], nextSig);
      var v := EvalPart(st.parts[j]);
      var st1 := st.(valList := st.valList[2 * j + 1 := v]);
      assert MuxOk(st, links[x], nextSig);
      MuxOkSlot(st, links[x], nextSig, j, v);
      InvMux(sigs, nextSig, mons, nextMon, muxes, links, nextMux, tracker, disposeList, x, st1);
      SameTemplatesSet(muxes, x, st1);
      assert st1 == old(muxes)[x].(valList := old(muxes)[x].valList[2 * j + 1 := PartValue(world, old(muxes)[x].parts[j], Values(old(sigs)))]);
      muxes := muxes[x := st1];
    }

    /** The value of a signal or function part: a tracked read of the
        signal, or a call of the function on the current values. */
    method EvalPart(p: Part) returns (v: Value)
      requires Valid() && !p.Literal? && (p.Sig? ==> p.s in sigs)
      modifies this`sigs, this`mons, this`links, this`trace
      ensures Valid() && Kept() && Grows(old(sigs), sigs) && StaysActive(old(links), links)
      ensures tracker == old(tracker) && published == old(published) && muxes == old(muxes)
      ensures Values(sigs) == Values(old(sigs)) && v == PartValue(world, p, Values(old(sigs)))
      ensures Subscribed(old(mons), mons, tracker, if p.Sig? then [p.s] else [])
      ensures tracker.MuxTracker? && p.Sig? ==> p.s in links[tracker.x].watching
      ensures tracker.NoTracker? ==> sigs == old(sigs) && links == old(links) && mons == old(mons)
      ensures !tracker.MuxTracker? ==> trace == old(trace) + if p.Fn? then [CallFn(p.f)] else []
    {
      if p.Fn? {
        trace := trace + [CallFn(p.f)];
        v := world.fnValue(p.f, Values(sigs));
      } else {
        v := Read(p.s);
      }
    }

    /** `for (let i of evalList) i()`. */
    method Evaluate(x: MuxId)
      requires Valid() && x in muxes
      modifies this`sigs, this`mons, this`links, this`muxes, this`trace
      ensures Valid() && Kept() && Grows(old(sigs), sigs) && StaysActive(old(links), links)
      ensures Values(sigs) == Values(old(sigs))
      ensures var st := old(muxes)[x];
        && MuxOk(st, old(links)[x], nextSig) && SigsIn(st.parts, Values(old(sigs)))
        && muxes == old(muxes)[x := st.(valList := Refreshed(world, st.valList, st.parts, st.evalList, Values(old(sigs))))]
      ensures !tracker.MonitorTracker? ==> Subscribed(old(mons), mons, tracker, [])
      ensures tracker.NoTracker? ==> sigs == old(sigs) && links == old(links)
      ensures tracker == MuxTracker(x) ==> WatchesParts(x)
      ensures tracker.NoTracker? ==> mons == old(mons)
      ensures !tracker.MuxTracker? ==> trace == old(trace) + FnCalls(old(muxes)[x].parts, old(muxes)[x].evalList)
    {
      assert MuxOk(muxes[x], links[x], nextSig);
      ghost var vals := Values(sigs);
      ghost var t0, parts := trace, muxes[x].parts;
      var ev := muxes[x].evalList;
      EvaluatingStart(x);
      var k := 0;
      ghost var done := [];
      while k < |ev|
        invariant 0 <= k <= |ev| && done == ev[..k]
        invariant Evaluating(x, done, vals, old(sigs), old(mons), old(muxes), old(links))
        invariant CallsSoFar(parts, done, old(mons), t0)
      {
        var j := ev[k];
        PrefixStep(ev, k);
        k := k + 1;
        assert done + [j] == ev[..k];
        EvalStep(x, j, done, vals, old(sigs), old(mons), old(muxes), old(links), t0);
        done := done + [j];
      }
      assert done == ev;
      EvaluatingDone(x, vals, old(sigs), old(mons), old(muxes), old(links));
    }

    /** Before the first thunk: nothing re-evaluated; every listed part is
        one to re-evaluate. */
    lemma EvaluatingStart(x: MuxId)
      requires Valid() && x in muxes
      ensures Evaluating(x, [], Values(sigs), sigs, mons, muxes, links)
      ensures forall k :: 0 <= k < |muxes[x].evalList| ==>
        muxes[x].evalList[k] < |muxes[x].parts| && !muxes[x].parts[muxes[x].evalList[k]].Literal?
      ensures tracker == MuxTracker(x) ==> muxes[x].evalList == Tracked(muxes[x].parts, |muxes[x].parts|)
    {
      var st := muxes[x];
      assert MuxOk(st, links[x], nextSig);
      RefreshedNone(world, st.valList, st.parts, Values(sigs));
      EvolvedNone(sigs, mons, muxes, links, tracker);
      assert muxes == muxes[x := st.(valList := st.valList)];
      if links[x].disconnectList.Some? {
        TrackedIndices(st.parts, |st.parts|);
      }
    }

    /** After the last thunk, in the terms of a flush. */
    lemma EvaluatingDone(x: MuxId, vals: map<SigId, Value>, s0: map<SigId, SigState>,
                         m0: map<MonId, MonState>, x0: map<MuxId, MuxState>, l0: map<MuxId, Links>)
      requires x in x0 && Evaluating(x, x0[x].evalList, vals, s0, m0, x0, l0)
      requires tracker == MuxTracker(x) ==> x0[x].evalList == Tracked(x0[x].parts, |x0[x].parts|)
      ensures Valid() && Values(sigs) == vals
      ensures SameTemplates(x0, muxes) && WatchGrows(l0, links) && SameBodies(m0, mons) && Grows(s0, sigs) && StaysActive(l0, links)
      ensures var st := x0[x];
        && SigsIn(st.parts, vals)
        && muxes == x0[x := st.(valList := Refreshed(world, st.valList, st.parts, st.evalList, vals))]
      ensures !tracker.MonitorTracker? ==> Subscribed(m0, mons, tracker, [])
      ensures tracker.NoTracker? ==> sigs == s0 && links == l0
      ensures tracker == MuxTracker(x) ==> WatchesParts(x)
    {
      if tracker == MuxTracker(x) {
        SigPartsTracked(x0[x].parts);
      }
    }

    /** The state since `s0`, `m0`, `x0`, `l0` grew in every relation. */
    ghost predicate Since(s0: map<SigId, SigState>, m0: map<MonId, MonState>, x0: map<MuxId, MuxState>, l0: map<MuxId, Links>)
      reads this
    {
      Evolved(s0, m0, x0, l0, sigs, mons, muxes, links)
    }

    /** Where a flush's `evalList` loop stands, the parts `done` re-evaluated
        since the state `s0`, `m0`, `x0`, `l0` with signal values `vals`. */
    ghost predicate Evaluating(x: MuxId, done: seq<nat>, vals: map<SigId, Value>, s0: map<SigId, SigState>,
                               m0: map<MonId, MonState>, x0: map<MuxId, MuxState>, l0: map<MuxId, Links>)
      reads this
    {
      Valid() && EvalState(world, sigs, mons, muxes, links, tracker, x, done, vals, s0, m0, x0, l0)
    }

    /** The calls the parts `done` re-evaluated since the monitors `m0`
        and the trace `t0` recorded. */
    ghost predicate CallsSoFar(parts: seq<Part>, done: seq<nat>, m0: map<MonId, MonState>, t0: seq<Event>)
      reads this
    {
      CallsSince(tracker, parts, done, m0, t0, mons, trace)
    }

    /** One thunk of a flush's `evalList` loop. */
    method EvalStep(x: MuxId, j: nat, ghost done: seq<nat>, ghost vals: map<SigId, Value>, ghost s0: map<SigId, SigState>,
                    ghost m0: map<MonId, MonState>, ghost x0: map<MuxId, MuxState>, ghost l0: map<MuxId, Links>, ghost t0: seq<Event>)
      requires Evaluating(x, done, vals, s0, m0, x0, l0) && j < |x0[x].parts| && !x0[x].parts[j].Literal?
      requires CallsSoFar(x0[x].parts, done, m0, t0)
      modifies this`sigs, this`mons, this`links, this`muxes, this`trace
      ensures tracker == old(tracker)
      ensures Evaluating(x, done + [j], vals, s0, m0, x0, l0)
      ensures CallsSoFar(x0[x].parts, done + [j], m0, t0)
    {
      ghost var ms, ls, xs, ss, ts := mons, links, muxes, sigs, trace;
      assert xs[x].parts == x0[x].parts;
      Thunk(x, j);
      EvalStateStep(world, x, j, done, vals, s0, m0, x0, l0, ss, ms, xs, ls, sigs, mons, muxes, links, tracker);
      CallsStep(tracker, x0[x].parts, done, j, m0, t0, ms, ts, mons, trace);
    }

    /** `strMux(''.concat(...valList))`. */
    method Publish(x: MuxId)
      requires Valid() && x in muxes
      modifies this`sigs, this`mons, this`trace, this`published
      ensures Valid() && Kept() && Grows(old(sigs), sigs) && SameMonitors(old(mons), mons)
      ensures published == old(published) + [x]
      ensures Wrote(muxes[x].str, Plain(Text(Concat(muxes[x].valList))))
      ensures muxes[x].str in sigs && sigs[muxes[x].str].val == Text(Concat(muxes[x].valList))
      ensures Values(sigs) == Values(old(sigs))[muxes[x].str := Text(Concat(muxes[x].valList))]
    {
      assert MuxOk(muxes[x], links[x], nextSig);
      Write(muxes[x].str, Plain(Text(Concat(muxes[x].valList))));
      ValuesPut(old(sigs), muxes[x].str, sigs[muxes[x].str]);
      published := published + [x];
    }

    /** What a flush that is not held back promises: its state change,
        and its publication round. */
    twostate predicate Flushed(x: MuxId)
      reads this
    {
      && FlushResult(world, x, old(sigs), old(muxes), old(links), old(nextSig), old(published), sigs, muxes, published)
      && var st := old(muxes)[x];
         PublishRound(world, tracker, st.str, st.parts, st.evalList, old(sigs), old(mons), old(trace), sigs, mons, trace)
    }

    /** `flush()`. */
    method Flush(x: MuxId)
      requires Valid() && x in muxes
      modifies this`sigs, this`mons, this`links, this`muxes, this`trace, this`published
      ensures Valid() && Kept() && Grows(old(sigs), sigs) && StaysActive(old(links), links)
      ensures !tracker.MonitorTracker? ==> Subscribed(old(mons), mons, tracker, [])
      ensures old(muxes)[x].depth > 0 ==>
        && sigs == old(sigs) && mons == old(mons) && links == old(links) && muxes == old(muxes)
        && trace == old(trace) && published == old(published)
      ensures old(muxes)[x].depth <= 0 ==> Flushed(x)
      ensures old(muxes)[x].depth <= 0 && tracker == MuxTracker(x) ==> WatchesParts(x)
    {
      if muxes[x].depth <= 0 {
        FlushNow(x);
      } else {
        EvolvedNone(sigs, mons, muxes, links, tracker);
      }
    }

    /** A flush that is not held back: the parts are re-evaluated, the
        concatenation published and the depth reset. */
    method FlushNow(x: MuxId)
      requires Valid() && x in muxes
      modifies this`sigs, this`mons, this`links, this`muxes, this`trace, this`published
      ensures Valid() && Kept() && Grows(old(sigs), sigs) && StaysActive(old(links), links)
      ensures !tracker.MonitorTracker? ==> Subscribed(old(mons), mons, tracker, [])
      ensures Flushed(x)
      ensures tracker == MuxTracker(x) ==> WatchesParts(x)
    {
      ghost var s0, m0, x0, l0, n0, p0, t0 := sigs, mons, muxes, links, nextSig, published, trace;
      Evaluate(x);
      ghost var s1, m1, x1, l1, t1 := sigs, mons, muxes, links, trace;
      Publish(x);
      ghost var s2, m2 := sigs, mons;
      SetDepth(x, 0);
      FlushSteps(world, x, tracker, s0, m0, x0, l0, n0, p0, s1, m1, x1, l1, s2, m2, muxes, published);
      ghost var str := x0[x].str;
      assert PublishedFrom(world, tracker, str, x0[x].parts, x0[x].evalList, s0, m0, t0, s1[str], m1, t1, sigs, mons, trace);
    }

    /** `batchDepth = d`. */
    method SetDepth(x: MuxId, d: nat)
      requires Valid() && x in muxes
      modifies this`muxes
      ensures Valid() && SameTemplates(old(muxes), muxes)
      ensures muxes == old(muxes)[x := old(muxes)[x].(depth := d)]
    {
      var st := muxes[x];
      assert MuxOk(st, links[x], nextSig);
      var st1 := st.(depth := d);
      MuxOkCounters(st, links[x], nextSig, d, st.handlerCount);
      InvMux(sigs, nextSig, mons, nextMon, muxes, links, nextMux, tracker, disposeList, x, st1);
      SameTemplatesSet(muxes, x, st1);
      assert st1 == old(muxes)[x].(depth := d);
      muxes := muxes[x := st1];
    }

    /** `pause()`. */
    method Pause(x: MuxId)
      requires Valid() && x in muxes
      modifies this`muxes
      ensures Valid() && Kept() && Paused(x, old(muxes), muxes)
      ensures muxes == old(muxes)[x := old(muxes)[x].(depth := old(muxes)[x].depth + 1)]
    {
      assert MuxOk(muxes[x], links[x], nextSig);
      SetDepth(x, muxes[x].depth + 1);
    }

    /** `resume()`: one level less, and a flush once the depth is no longer
        positive. */
    method Resume(x: MuxId)
      requires Valid() && x in muxes
      modifies this`sigs, this`mons, this`links, this`muxes, this`trace, this`published
      ensures Valid() && Kept() && Grows(old(sigs), sigs) && StaysActive(old(links), links)
      ensures !tracker.MonitorTracker? ==> Subscribed(old(mons), mons, tracker, [])
      ensures old(muxes)[x].depth - 1 > 0 ==>
        && muxes == old(muxes)[x := old(muxes)[x].(depth := old(muxes)[x].depth - 1)]
        && sigs == old(sigs) && mons == old(mons) && links == old(links)
        && trace == old(trace) && published == old(published)
      ensures old(muxes)[x].depth - 1 <= 0 ==> Flushed(x)
      ensures old(muxes)[x].depth - 1 <= 0 && tracker == MuxTracker(x) ==> WatchesParts(x)
    {
      var d := muxes[x].depth - 1;
      if d > 0 {
        ResumeHeld(x, d);
      } else {
        // At or below zero the flush that follows leaves the depth at 0, so
        // it is stored as 0 already and never goes negative.
        ResumeFlush(x);
      }
    }

    /** Still paused: the depth one less, nothing else changes. */
    method ResumeHeld(x: MuxId, d: nat)
      requires Valid() && x in muxes && d == muxes[x].depth - 1
      modifies this`muxes
      ensures Valid() && Kept() && Grows(old(sigs), sigs) && StaysActive(old(links), links)
      ensures Subscribed(old(mons), mons, tracker, [])
      ensures muxes == old(muxes)[x := old(muxes)[x].(depth := d)]
    {
      SetDepth(x, d);
      EvolvedNone(sigs, mons, muxes, links, tracker);
    }

    /** The depth stored as 0, then the flush. */
    method ResumeFlush(x: MuxId)
      requires Valid() && x in muxes
      modifies this`sigs, this`mons, this`links, this`muxes, this`trace, this`published
      ensures Valid() && Kept() && Grows(old(sigs), sigs) && StaysActive(old(links), links)
      ensures !tracker.MonitorTracker? ==> Subscribed(old(mons), mons, tracker, [])
      ensures Flushed(x)
      ensures tracker == MuxTracker(x) ==> WatchesParts(x)
    {
      ghost var s0, m0, x0, l0, n0, p0 := sigs, mons, muxes, links, nextSig, published;
      assert MuxOk(muxes[x], links[x], nextSig);
      SetDepth(x, 0);
      ghost var x1 := muxes;
      FlushNow(x);
      ResumeSteps(world, x, s0, m0, x0, l0, n0, p0, x1, sigs, mons, muxes, links, published);
    }

    /** One of the mux's own calls inside a batch. */
    method BatchStep(x: MuxId, op: Batching.Op)
      requires Valid() && x in muxes
      modifies this`sigs, this`mons, this`links, this`muxes, this`trace, this`published
      ensures Valid() && Kept()
      ensures Stepped(x, op, old(muxes)[x].depth, old(published), muxes, published)
      ensures OnlyResult(old(muxes)[x].str, old(sigs), sigs)
    {
      ghost var s0, x0, l0, n0, p0 := sigs, muxes, links, nextSig, published;
      assert MuxOk(muxes[x], links[x], nextSig);
      assert Values(s0)[x0[x].str := s0[x0[x].str].val] == Values(s0);
      var d := muxes[x].depth;
      match op
      case Pause =>
        Pause(x);
      case Resume =>
        Resume(x);
        if d - 1 <= 0 {
          FlushedStepped(world, x, op, d, s0, x0, l0, n0, p0, sigs, muxes, published);
        }
      case Flush =>
        Flush(x);
        if d <= 0 {
          FlushedStepped(world, x, op, d, s0, x0, l0, n0, p0, sigs, muxes, published);
        }
    }

    /** One more call of the batch's body. */
    method BatchOne(x: MuxId, op: Batching.Op, ghost d0: int, ghost done: seq<Batching.Op>, ghost x0: map<MuxId, MuxState>,
                    ghost l0: map<MuxId, Links>, ghost m0: map<MonId, MonState>, ghost p0: seq<MuxId>)
      requires Valid() && BatchState(x, d0, done, x0, l0, m0, p0, muxes, links, mons, published)
      modifies this`sigs, this`mons, this`links, this`muxes, this`trace, this`published
      ensures Valid() && BatchState(x, d0, done + [op], x0, l0, m0, p0, muxes, links, mons, published)
      ensures muxes[x].str == old(muxes)[x].str && OnlyResult(old(muxes)[x].str, old(sigs), sigs)
    {
      ghost var xs, ls, ms, ps := muxes, links, mons, published;
      BatchStep(x, op);
      BatchStateStep(x, op, d0, done, x0, l0, m0, p0, xs, ls, ms, ps, muxes, links, mons, published);
    }

    /** The handler's calls `ops`, after the calls `pre` of the batch. */
    method BatchCalls(x: MuxId, ops: seq<Batching.Op>, ghost d0: int, ghost pre: seq<Batching.Op>, ghost x0: map<MuxId, MuxState>,
                      ghost l0: map<MuxId, Links>, ghost m0: map<MonId, MonState>, ghost p0: seq<MuxId>)
      requires Valid() && BatchState(x, d0, pre, x0, l0, m0, p0, muxes, links, mons, published)
      modifies this`sigs, this`mons, this`links, this`muxes, this`trace, this`published
      ensures Valid() && BatchState(x, d0, pre + ops, x0, l0, m0, p0, muxes, links, mons, published)
      ensures muxes[x].str == old(muxes)[x].str && OnlyResult(old(muxes)[x].str, old(sigs), sigs)
      decreases |ops|
    {
      if ops == [] {
        assert pre + ops == pre;
        assert MuxOk(muxes[x], links[x], nextSig);
        OnlyResultNone(muxes[x].str, sigs);
      } else {
        ConsStep(pre, ops);
        BatchOne(x, ops[0], d0, pre, x0, l0, m0, p0);
        ghost var s1 := sigs;
        BatchCalls(x, ops[1..], d0, pre + [ops[0]], x0, l0, m0, p0);
        ValuesOnly(old(sigs), s1, sigs, old(muxes)[x].str);
      }
    }

    /** `batch(handler)`: `pause()`, the handler's calls of this mux's
        pause, resume and flush, `resume()`. */
    method Batch(x: MuxId, body: seq<Batching.Op>)
      requires Valid() && x in muxes
      modifies this`sigs, this`mons, this`links, this`muxes, this`trace, this`published
      ensures Valid() && Kept() && x in muxes
      ensures var t := Batching.Run(old(muxes)[x].depth, [Batching.Pause] + body + [Batching.Resume]);
        muxes[x].depth == t.depth && published == old(published) + Repeat(x, t.publications)
      ensures Batching.Nested(body) && Batching.Count(body, Batching.Pause) == Batching.Count(body, Batching.Resume) ==>
        muxes[x].depth == old(muxes)[x].depth && published == old(published) + if old(muxes)[x].depth == 0 then [x] else []
      ensures OnlyResult(old(muxes)[x].str, old(sigs), sigs)
    {
      assert MuxOk(muxes[x], links[x], nextSig);
      ghost var x0, l0, m0, p0 := muxes, links, mons, published;
      ghost var d0 := muxes[x].depth;
      BatchStart(x, muxes, links, mons, published);
      ghost var none: seq<Batching.Op> := [];
      assert none + [Batching.Pause] == [Batching.Pause];
      BatchOne(x, Batching.Pause, d0, none, x0, l0, m0, p0);
      ghost var s1 := sigs;
      BatchCalls(x, body, d0, [Batching.Pause], x0, l0, m0, p0);
      ValuesOnly(old(sigs), s1, sigs, x0[x].str);
      ghost var s2 := sigs;
      BatchOne(x, Batching.Resume, d0, [Batching.Pause] + body, x0, l0, m0, p0);
      ValuesOnly(old(sigs), s2, sigs, x0[x].str);
      BatchDone(x, d0, body, x0, l0, m0, p0, muxes, links, mons, published);
    }

    /** The first part of `init`: `pause()`, then `args.map` placing the
        literals, listing the other parts for re-evaluation and connecting
        the flush to every signal part. */
    method Activate(x: MuxId)
      requires Valid() && x in muxes && !Active(x)
      modifies this`sigs, this`mons, this`links, this`muxes, this`trace
      ensures Valid() && Kept() && Active(x) && Grows(old(sigs), sigs) && mons == old(mons)
      ensures Values(sigs) == Values(old(sigs)) && StaysActive(old(links), links)
      ensures ArmedAs(x, old(muxes), old(links), muxes, links)
      ensures var parts := old(muxes)[x].parts;
        forall i :: 0 <= i < |parts| && parts[i].Sig? ==> parts[i].s in sigs && MuxFlush(x) in sigs[parts[i].s].receivers
    {
      Arm(x);
      ghost var s0, x1, l1 := sigs, muxes, links;
      assert s0 == old(sigs);
      var parts := muxes[x].parts;
      WireParts(x, parts);
      WiredAll(x, old(muxes), old(links), x1, l1, parts, s0, sigs);
      Unchanged(sigs, mons, muxes, links);
    }

    /** `args.map`'s connections: the flush connected to every signal part. */
    method WireParts(x: MuxId, parts: seq<Part>)
      requires Valid() && x in muxes && parts == muxes[x].parts
      requires x in links && links[x].disconnectList == Some(Wiring(parts))
      modifies this`sigs, this`mons, this`trace
      ensures Valid() && mons == old(mons) && Wired(x, parts, |parts|, old(sigs), sigs)
    {
      WiredNone(x, parts, sigs);
      var i := 0;
      while i < |parts|
        invariant Valid() && mons == old(mons) && Wired(x, parts, i, old(sigs), sigs)
      {
        WireOne(x, parts, i, old(sigs));
        i := i + 1;
      }
    }

    /** `pause()`, then the literals placed, the other parts listed for
        re-evaluation and the disconnect list installed. */
    method Arm(x: MuxId)
      requires Valid() && x in muxes && !Active(x)
      modifies this`muxes, this`links
      ensures Valid() && Active(x) && ArmedAs(x, old(muxes), old(links), muxes, links)
      ensures SameTemplates(old(muxes), muxes) && WatchGrows(old(links), links) && StaysActive(old(links), links)
      ensures links[x].disconnectList == Some(Wiring(muxes[x].parts))
    {
      assert MuxOk(muxes[x], links[x], nextSig);
      var vl, ev := Place(muxes[x].parts, muxes[x].valList);
      ghost var x0, l0 := muxes, links;
      Pause(x);
      ghost var x1 := muxes;
      Install(x, vl, ev);
      ArmSteps(x, x0, l0, x1, x1[x], vl, ev, links[x], muxes, links);
    }

    /** The placed slots, the parts to re-evaluate and the disconnect list
        stored. */
    method Install(x: MuxId, vl: seq<Value>, ev: seq<nat>)
      requires Valid() && x in muxes && !Active(x)
      requires Placed(muxes[x].parts, muxes[x].valList, vl) && ev == Tracked(muxes[x].parts, |muxes[x].parts|)
      modifies this`muxes, this`links
      ensures Valid() && Active(x)
      ensures muxes == old(muxes)[x := old(muxes)[x].(valList := vl, evalList := ev)]
      ensures links == old(links)[x := Links(Some(Wiring(old(muxes)[x].parts)), old(links)[x].watching)]
    {
      var st := muxes[x];
      assert MuxOk(st, links[x], nextSig);
      var st1 := st.(valList := vl, evalList := ev);
      var ln := Links(Some(Wiring(st.parts)), links[x].watching);
      MuxOkActivated(st, links[x], nextSig, vl);
      InvWire(sigs, nextSig, mons, nextMon, muxes, links, nextMux, tracker, disposeList, x, st1, ln);
      if x !in clientFlushes {
        InactiveUnheld(sigs, x, links);
      }
      WiredLinks(sigs, links, clientFlushes, x, ln);
      muxes, links := muxes[x := st1], links[x := ln];
    }

    /** The flush connected to part `i` when it is a signal. */
    method WireOne(x: MuxId, parts: seq<Part>, i: nat, ghost s0: map<SigId, SigState>)
      requires Valid() && x in muxes && parts == muxes[x].parts && i < |parts|
      requires x in links && links[x].disconnectList == Some(Wiring(parts))
      requires Wired(x, parts, i, s0, sigs)
      modifies this`sigs, this`mons, this`trace
      ensures Valid() && mons == old(mons) && Wired(x, parts, i + 1, s0, sigs)
    {
      ghost var ss := sigs;
      if parts[i].Sig? {
        assert Wiring(parts)[i] == Some(parts[i].s);
        assert MuxOk(muxes[x], links[x], nextSig);
        var _ := Attach(parts[i].s, MuxFlush(x));
      }
      WiredStep(x, parts, i, s0, ss, sigs);
    }

    /** What activating an inactive mux promises. */
    twostate predicate Initialised(x: MuxId)
      reads this
    {
      InitResult(world, x, old(sigs), old(muxes), old(published), sigs, muxes, links, published)
    }

    /** `init()`: nothing when already active; otherwise activation, then
        with the mux as the tracker a `resume()`, and, when that held the
        flush back, an evaluation and publication of its own. */
    method Init(x: MuxId)
      requires Valid() && x in muxes
      modifies this`sigs, this`mons, this`links, this`muxes, this`trace, this`published, this`tracker
      ensures Valid() && Kept() && Active(x) && tracker == old(tracker)
      ensures Grows(old(sigs), sigs) && StaysActive(old(links), links) && Subscribed(old(mons), mons, tracker, [])
      ensures Since(old(sigs), old(mons), old(muxes), old(links))
      ensures old(Active(x)) ==>
        && sigs == old(sigs) && mons == old(mons) && links == old(links) && muxes == old(muxes)
        && trace == old(trace) && published == old(published)
      ensures !old(Active(x)) ==> Initialised(x)
    {
      if links[x].disconnectList.Some? {
        EvolvedNone(sigs, mons, muxes, links, tracker);
        return;
      }
      ghost var s0, m0, x0, l0, n0, p0 := sigs, mons, muxes, links, nextSig, published;
      assert MuxOk(muxes[x], links[x], nextSig);
      Activate(x);
      ghost var s1, x1, l1, n1 := sigs, muxes, links, nextSig;
      TrackedFlush(x);
      InitSteps(world, x, s0, x0, l0, n0, p0, s1, x1, l1, n1, sigs, muxes, links, published);
      EvolvedTrans(s0, m0, x0, l0, s1, m0, x1, l1, sigs, mons, muxes, links);
    }

    /** `init` with the mux as the tracker: `monitorCallBack = muxedSignal`,
        `resume()` and what follows it, `monitorCallBack = prevCallBack`. */
    method TrackedFlush(x: MuxId)
      requires Valid() && x in muxes && Active(x)
      modifies this`sigs, this`mons, this`links, this`muxes, this`trace, this`published, this`tracker
      ensures Valid() && tracker == old(tracker)
      ensures Since(old(sigs), old(mons), old(muxes), old(links)) && Subscribed(old(mons), mons, tracker, [])
      ensures InitFlushed(world, x, old(sigs), old(muxes), old(links), old(nextSig), old(published), sigs, muxes, published)
      ensures WatchesParts(x)
    {
      ghost var m0, l0, d, nMon := mons, links, disposeList, nextMon;
      assert SlotInv(tracker, d, nMon, l0);
      var prev := tracker;
      SetTracker(MuxTracker(x));
      InitFlush(x);
      SlotInvLinks(prev, d, nMon, l0, links);
      SetTracker(prev);
      SubscribedEmpty(m0, mons, MuxTracker(x), prev);
    }

    /** `monitorCallBack = t`. */
    method SetTracker(t: Tracker)
      requires Valid() && SlotInv(t, disposeList, nextMon, links)
      modifies this`tracker
      ensures Valid() && tracker == t
    {
      InvSlot(sigs, nextSig, mons, nextMon, muxes, links, nextMux, tracker, disposeList, t, disposeList);
      tracker := t;
    }

    /** `init`'s `resume()`, and an evaluation and publication when an
        outer pause held the flush back. */
    method InitFlush(x: MuxId)
      requires Valid() && x in muxes && tracker == MuxTracker(x)
      modifies this`sigs, this`mons, this`links, this`muxes, this`trace, this`published
      ensures Valid() && Since(old(sigs), old(mons), old(muxes), old(links)) && Subscribed(old(mons), mons, tracker, [])
      ensures InitFlushed(world, x, old(sigs), old(muxes), old(links), old(nextSig), old(published), sigs, muxes, published)
      ensures WatchesParts(x)
    {
      // `resume()` is `ResumeHeld` or `ResumeFlush` as in `Resume`; the
      // depth it leaves is positive exactly when it held the flush back.
      var d := muxes[x].depth - 1;
      if d > 0 {
        InitHeld(x, d);
      } else {
        InitResumed(x);
      }
    }

    /** `resume()` ran the flush. */
    method InitResumed(x: MuxId)
      requires Valid() && x in muxes && tracker == MuxTracker(x) && muxes[x].depth - 1 <= 0
      modifies this`sigs, this`mons, this`links, this`muxes, this`trace, this`published
      ensures Valid() && Since(old(sigs), old(mons), old(muxes), old(links)) && Subscribed(old(mons), mons, tracker, [])
      ensures InitFlushed(world, x, old(sigs), old(muxes), old(links), old(nextSig), old(published), sigs, muxes, published)
      ensures WatchesParts(x)
    {
      ghost var s0, x0, l0, n0, p0 := sigs, muxes, links, nextSig, published;
      ResumeFlush(x);
      FlushedInit(world, x, s0, x0, l0, n0, p0, sigs, muxes, published);
    }

    /** `resume()` held the flush back, and `init` evaluates and publishes
        itself. */
    method InitHeld(x: MuxId, d: nat)
      requires Valid() && x in muxes && tracker == MuxTracker(x) && d == muxes[x].depth - 1 && d > 0
      modifies this`sigs, this`mons, this`links, this`muxes, this`trace, this`published
      ensures Valid() && Since(old(sigs), old(mons), old(muxes), old(links)) && Subscribed(old(mons), mons, tracker, [])
      ensures InitFlushed(world, x, old(sigs), old(muxes), old(links), old(nextSig), old(published), sigs, muxes, published)
      ensures WatchesParts(x)
    {
      ghost var s0, m0, x0, l0, n0, p0 := sigs, mons, muxes, links, nextSig, published;
      assert MuxOk(muxes[x], links[x], nextSig);
      ResumeHeld(x, d);
      ghost var x1 := muxes;
      Refresh(x);
      HeldInit(world, x, tracker, s0, m0, x0, l0, n0, p0, x1, sigs, mons, muxes, links, published);
    }

    /** A flush's body without the depth reset: `for (let i of evalList)
        i()` and the concatenation published. */
    method Refresh(x: MuxId)
      requires Valid() && x in muxes
      modifies this`sigs, this`mons, this`links, this`muxes, this`trace, this`published
      ensures Valid() && Since(old(sigs), old(mons), old(muxes), old(links))
      ensures !tracker.MonitorTracker? ==> Subscribed(old(mons), mons, tracker, [])
      ensures Republished(world, x, old(sigs), old(muxes), old(links), old(nextSig), old(published), sigs, muxes, published)
      ensures tracker == MuxTracker(x) ==> WatchesParts(x)
    {
      ghost var s0, m0, x0, l0, n0, p0 := sigs, mons, muxes, links, nextSig, published;
      Evaluate(x);
      ghost var s1, m1, x1, l1 := sigs, mons, muxes, links;
      Publish(x);
      RepublishSteps(world, x, tracker, s0, m0, x0, l0, n0, p0, s1, m1, x1, l1, sigs, mons, published);
    }

    /** `destroy()`: nothing when inactive; otherwise every disconnector in
        the list runs and the mux forgets its wiring, its tracked parts and
        its subscriber count. */
    method Destroy(x: MuxId)
      requires Valid() && x in muxes && tracker != MuxTracker(x)
      modifies this`sigs, this`links, this`muxes, this`trace
      ensures Valid() && Kept() && trace == old(trace) && Values(sigs) == Values(old(sigs)) && !Active(x)
      ensures mons == old(mons) && tracker == old(tracker) && Shrinks(old(sigs), sigs)
      ensures x !in clientFlushes ==> Unheld(sigs, x)
      ensures !old(Active(x)) ==> sigs == old(sigs) && links == old(links) && muxes == old(muxes)
      ensures old(Active(x)) ==> Destroyed(x)
    {
      if links[x].disconnectList.None? {
        if x !in clientFlushes {
          InactiveUnheld(sigs, x, links);
        }
        return;
      }
      DestroyActive(x);
    }

    /** `destroy()` on an active mux. */
    method DestroyActive(x: MuxId)
      requires Valid() && x in muxes && Active(x) && tracker != MuxTracker(x)
      modifies this`sigs, this`links, this`muxes, this`trace
      ensures Valid() && Kept() && trace == old(trace) && Values(sigs) == Values(old(sigs)) && !Active(x)
      ensures mons == old(mons) && tracker == old(tracker) && Shrinks(old(sigs), sigs)
      ensures x !in clientFlushes ==> Unheld(sigs, x)
      ensures Destroyed(x)
    {
      var dl := links[x].disconnectList.value;
      if x !in clientFlushes {
        DetachedListed(sigs, x, links);
      }
      ShrinksDetached(sigs, Targets(dl), MuxFlush(x));
      Unwire(x, dl);
      Deactivate(x);
    }

    /** The disconnectors in an active mux's list, run in order. */
    method Unwire(x: MuxId, dl: seq<Option<SigId>>)
      requires Valid() && Active(x) && dl == links[x].disconnectList.value
      modifies this`sigs, this`trace
      ensures Valid() && trace == old(trace) && Values(sigs) == Values(old(sigs))
      ensures links == old(links) && muxes == old(muxes) && mons == old(mons) && tracker == old(tracker)
      ensures sigs == Detached(old(sigs), Targets(dl), MuxFlush(x))
    {
      var i := 0;
      while i < |dl|
        invariant 0 <= i <= |dl|
        invariant Valid() && trace == old(trace) && links == old(links) && muxes == old(muxes)
        invariant mons == old(mons) && tracker == old(tracker)
        invariant Values(sigs) == Values(old(sigs))
        invariant sigs == Detached(old(sigs), Targets(dl[..i]), MuxFlush(x))
      {
        UnwireOne(x, dl, i, old(sigs));
        i := i + 1;
      }
      assert dl[..i] == dl;
    }

    /** One disconnector of that list. */
    method UnwireOne(x: MuxId, dl: seq<Option<SigId>>, i: nat, ghost s0: map<SigId, SigState>)
      requires Valid() && Active(x) && dl == links[x].disconnectList.value && i < |dl|
      requires Values(sigs) == Values(s0) && sigs == Detached(s0, Targets(dl[..i]), MuxFlush(x))
      modifies this`sigs, this`trace
      ensures Valid() && trace == old(trace) && Values(sigs) == Values(s0)
      ensures links == old(links) && muxes == old(muxes) && mons == old(mons) && tracker == old(tracker)
      ensures sigs == Detached(s0, Targets(dl[..i + 1]), MuxFlush(x))
    {
      TargetsStep(dl, i);
      if dl[i].Some? {
        NoCleanup(sigs, MuxFlush(x), nextMon, nextMux);
        DetachedStep(s0, Targets(dl[..i]), dl[i].value, MuxFlush(x));
        var _ := Disconnect(dl[i].value, MuxFlush(x));
      }
    }

    /** The mux forgets its wiring, its tracked parts and its subscriber count. */
    method Deactivate(x: MuxId)
      requires Valid() && x in muxes && Active(x) && tracker != MuxTracker(x)
      requires x !in clientFlushes ==> Unheld(sigs, x)
      modifies this`links, this`muxes
      ensures Valid() && !Active(x) && SameTemplates(old(muxes), muxes) && WatchGrows(old(links), links)
      ensures sigs == old(sigs) && trace == old(trace) && mons == old(mons) && tracker == old(tracker)
      ensures links == old(links)[x := Links(None, old(links)[x].watching)]
      ensures muxes == old(muxes)[x := old(muxes)[x].(evalList := [], handlerCount := 0)]
    {
      InvDeactivate(sigs, nextSig, mons, nextMon, muxes, links, nextMux, tracker, disposeList, clientFlushes, x);
      links, muxes := links[x := Links(None, links[x].watching)], muxes[x := muxes[x].(evalList := [], handlerCount := 0)];
    }

    /** What destroying an active mux promises. */
    twostate predicate Destroyed(x: MuxId)
      reads this
    {
      && x in old(links) && old(links)[x].disconnectList.Some? && x in old(muxes)
      && links == old(links)[x := Links(None, old(links)[x].watching)]
      && muxes == old(muxes)[x := old(muxes)[x].(evalList := [], handlerCount := 0)]
      && sigs == Detached(old(sigs), Targets(old(links)[x].disconnectList.value), MuxFlush(x))
    }

    /** `cleanup()`: one subscriber less, and a destroy once none is left. */
    method Cleanup(x: MuxId)
      requires Valid() && x in muxes && tracker != MuxTracker(x)
      modifies this`sigs, this`links, this`muxes, this`trace
      ensures Valid() && Kept() && trace == old(trace) && Values(sigs) == Values(old(sigs))
      ensures mons == old(mons) && tracker == old(tracker) && Shrinks(old(sigs), sigs)
      ensures old(muxes)[x].handlerCount - 1 <= 0 ==> !Active(x)
      ensures old(muxes)[x].handlerCount - 1 > 0 ==>
        && sigs == old(sigs) && links == old(links)
        && muxes == old(muxes)[x := old(muxes)[x].(handlerCount := old(muxes)[x].handlerCount - 1)]
      ensures !old(Active(x)) ==>
        && sigs == old(sigs) && links == old(links)
        && muxes == old(muxes)[x := old(muxes)[x].(handlerCount := old(muxes)[x].handlerCount - 1)]
      ensures old(muxes)[x].handlerCount - 1 <= 0 && old(Active(x)) ==> Destroyed(x)
      ensures CleanedUp(x, old(muxes), old(links), muxes, links)
    {
      if muxes[x].handlerCount - 1 <= 0 {
        CleanupLast(x);
      } else {
        Uncount(x);
      }
    }

    /** `handlerCount--`. */
    method Uncount(x: MuxId)
      requires Valid() && x in muxes
      modifies this`muxes
      ensures Valid() && SameTemplates(old(muxes), muxes)
      ensures sigs == old(sigs) && links == old(links) && trace == old(trace) && mons == old(mons) && tracker == old(tracker)
      ensures muxes == old(muxes)[x := old(muxes)[x].(handlerCount := old(muxes)[x].handlerCount - 1)]
    {
      var st := muxes[x];
      assert MuxOk(st, links[x], nextSig);
      var st1 := st.(handlerCount := st.handlerCount - 1);
      MuxOkCounters(st, links[x], nextSig, st.depth, st1.handlerCount);
      InvMux(sigs, nextSig, mons, nextMon, muxes, links, nextMux, tracker, disposeList, x, st1);
      SameTemplatesSet(muxes, x, st1);
      assert st1 == old(muxes)[x].(handlerCount := old(muxes)[x].handlerCount - 1);
      muxes := muxes[x := st1];
    }

    /** The last subscriber's `cleanup()`: the count drops and the mux is destroyed. */
    method CleanupLast(x: MuxId)
      requires Valid() && x in muxes && tracker != MuxTracker(x) && muxes[x].handlerCount - 1 <= 0
      modifies this`sigs, this`links, this`muxes, this`trace
      ensures Valid() && Kept() && trace == old(trace) && Values(sigs) == Values(old(sigs)) && !Active(x)
      ensures mons == old(mons) && tracker == old(tracker) && Shrinks(old(sigs), sigs)
      ensures !old(Active(x)) ==>
        && sigs == old(sigs) && links == old(links)
        && muxes == old(muxes)[x := old(muxes)[x].(handlerCount := old(muxes)[x].handlerCount - 1)]
      ensures old(Active(x)) ==> Destroyed(x)
    {
      Uncount(x);
      ghost var x1 := muxes;
      Destroy(x);
      SameTemplatesTrans(old(muxes), x1, muxes);
      MapSetTwice(old(muxes), x, x1[x], muxes[x]);
    }

    /** `connect(handler)`: without a handler, a read of the result signal;
        with one, activation if needed, one subscriber more, and the handler
        connected to the result signal. */
    method MuxConnect(x: MuxId, h: Option<Handler>) returns (r: ConnectResult)
      requires Valid() && x in muxes
      requires h.Some? ==> HandlerIn(h.value, nextMon, nextMux)
      modifies this`sigs, this`mons, this`links, this`muxes, this`trace, this`published, this`tracker, this`clientFlushes
      ensures Valid() && Kept() && tracker == old(tracker) && Grows(old(sigs), sigs) && StaysActive(old(links), links)
      ensures h.None? ==>
        && r == Current(old(sigs)[old(muxes)[x].str].val) && muxes == old(muxes)
        && Subscribed(old(mons), mons, tracker, [old(muxes)[x].str])
      ensures h.Some? ==>
        && r == Handle(MuxHandle(x, h.value)) && Active(x)
        && h.value in sigs[old(muxes)[x].str].receivers
        && muxes[x].handlerCount == old(muxes)[x].handlerCount + 1
        && published == if old(Active(x)) then old(published) else old(published) + [x]
      ensures clientFlushes == if h.Some? then Flagged(old(clientFlushes), old(muxes)[x].str, h.value, links)
                               else old(clientFlushes)
    {
      if h.None? {
        var v := Read(muxes[x].str);
        r := Current(v);
      } else if links[x].disconnectList.None? {
        InitSubscribe(x, h.value);
        r := Handle(MuxHandle(x, h.value));
      } else {
        AddSubscriber(x, h.value);
        r := Handle(MuxHandle(x, h.value));
      }
    }

    /** A handler's connect to an active mux: one subscriber more, and the
        handler connected to the result signal. */
    method AddSubscriber(x: MuxId, h: Handler)
      requires Valid() && Active(x) && x in muxes && HandlerIn(h, nextMon, nextMux)
      modifies this`sigs, this`mons, this`muxes, this`trace, this`clientFlushes
      ensures Valid() && Kept() && Grows(old(sigs), sigs) && Active(x)
      ensures Since(old(sigs), old(mons), old(muxes), old(links))
      ensures tracker == old(tracker) && published == old(published)
      ensures h in sigs[old(muxes)[x].str].receivers
      ensures muxes[x].handlerCount == old(muxes)[x].handlerCount + 1
      ensures clientFlushes == Flagged(old(clientFlushes), old(muxes)[x].str, h, links)
    {
      var st := muxes[x];
      assert MuxOk(st, links[x], nextSig);
      var st1 := st.(handlerCount := st.handlerCount + 1);
      MuxOkCounters(st, links[x], nextSig, st.depth, st1.handlerCount);
      InvMux(sigs, nextSig, mons, nextMon, muxes, links, nextMux, tracker, disposeList, x, st1);
      SameTemplatesSet(muxes, x, st1);
      ghost var xs := muxes;
      muxes := muxes[x := st1];
      var _ := Connect(st.str, h);
      SameTemplatesTrans(old(muxes), xs, muxes);
    }

    /** A handler's connect to a mux not active yet: `init()` first. */
    method InitSubscribe(x: MuxId, h: Handler)
      requires Valid() && !Active(x) && x in muxes && HandlerIn(h, nextMon, nextMux)
      modifies this`sigs, this`mons, this`links, this`muxes, this`trace, this`published, this`tracker, this`clientFlushes
      ensures Valid() && Kept() && tracker == old(tracker) && Grows(old(sigs), sigs) && StaysActive(old(links), links)
      ensures Active(x) && h in sigs[old(muxes)[x].str].receivers
      ensures muxes[x].handlerCount == old(muxes)[x].handlerCount + 1
      ensures published == old(published) + [x]
      ensures clientFlushes == Flagged(old(clientFlushes), old(muxes)[x].str, h, links)
    {
      ghost var str := muxes[x].str;
      Init(x);
      assert muxes[x].str == str;
      ghost var s1, m1, x1, l1 := sigs, mons, muxes, links;
      AddSubscriber(x, h);
      EvolvedTrans(old(sigs), old(mons), old(muxes), old(links), s1, m1, x1, l1, sigs, mons, muxes, links);
    }

    /** `strMux.disconnect(handler)`, then `cleanup()` when it was a
        subscriber. The result is what the disposer of `connect` returns. */
    method MuxDisconnect(x: MuxId, h: Handler) returns (removed: bool)
      requires Valid() && x in muxes && tracker != MuxTracker(x)
      modifies this`sigs, this`links, this`muxes, this`trace
      ensures Valid() && Kept() && Values(sigs) == Values(old(sigs))
      ensures Unsubscribed(old(sigs), old(trace), old(muxes)[x].str, h, removed, sigs, trace)
      ensures !removed ==> links == old(links) && muxes == old(muxes)
      ensures removed ==> CleanedUp(x, old(muxes), old(links), muxes, links)
    {
      var str := muxes[x].str;
      assert MuxOk(muxes[x], links[x], nextSig);
      removed := Disconnect(str, h);
      ghost var s1, t1 := sigs, trace;
      assert Unsubscribed(old(sigs), old(trace), str, h, removed, s1, t1);
      assert muxes[x] == old(muxes)[x];
      if removed {
        Cleanup(x);
        UnsubscribedShrinks(old(sigs), old(trace), str, h, removed, s1, sigs, trace);
      }
    }

    /** A mux's connect disposer run twice: the second run finds the
        handler gone, returns false and changes no count. */
    method MuxDisconnectTwice(x: MuxId, h: Handler) returns (first: bool, second: bool)
      requires Valid() && x in muxes && tracker != MuxTracker(x)
      modifies this`sigs, this`links, this`muxes, this`trace
      ensures Valid() && !second
      ensures first <==> h in old(sigs)[old(muxes)[x].str].receivers
      ensures first ==> CleanedUp(x, old(muxes), old(links), muxes, links)
      ensures !first ==> muxes == old(muxes) && links == old(links)
    {
      first := MuxDisconnect(x, h);
      assert muxes[x].str == old(muxes)[x].str;
      second := MuxDisconnect(x, h);
    }

    /** Running a disposer the engine handed out. */
    method RunDisposer(d: Disposer) returns (r: bool)
      requires Valid()
      requires d.SigDisconnect? ==> d.s in sigs
      requires d.MuxHandle? ==> d.x in muxes && tracker != MuxTracker(d.x)
      requires d.MonitorDispose? ==> d.m in mons
      modifies this`sigs, this`links, this`muxes, this`trace
      ensures Valid() && Kept()
      ensures Disposed(d, r, old(sigs), old(trace), old(muxes), mons, sigs, trace)
    {
      match d
      case SigDisconnect(s, h) =>
        r := Disconnect(s, h);
      case MuxHandle(x, h) =>
        r := MuxDisconnect(x, h);
      case MonitorDispose(m) =>
        r := DisposeMonitor(m);
    }

    /** What a watch of an active mux promises: each signal not watched yet
        is watched, gets the flush as a receiver and a disconnector in the
        list, and the flush is called once with its value. */
    twostate predicate Watched(x: MuxId, signals: seq<SigId>)
      reads this
    {
      WatchedSoFar(x, signals, old(links), old(sigs), old(trace), links, sigs, trace) && mons == old(mons)
    }

    /** One signal of a watch. */
    method WatchOne(x: MuxId, s: SigId)
      requires Valid() && Active(x) && s in sigs
      modifies this`sigs, this`mons, this`links, this`trace
      ensures Valid() && Kept() && mons == old(mons) && Values(sigs) == Values(old(sigs))
      ensures Grows(old(sigs), sigs) && StaysActive(old(links), links)
      ensures s in old(links)[x].watching ==> sigs == old(sigs) && links == old(links) && trace == old(trace)
      ensures s !in old(links)[x].watching ==>
        && links == old(links)[x := Links(Some(old(links)[x].disconnectList.value + [Some(s)]), old(links)[x].watching + {s})]
        && sigs == old(sigs)[s := old(sigs)[s].(receivers := Add(old(sigs)[s].receivers, MuxFlush(x)))]
        && trace == old(trace) + [Invoke(MuxFlush(x), [old(sigs)[s].val])]
    {
      var ln := links[x];
      if s !in ln.watching {
        var ln1 := Links(Some(ln.disconnectList.value + [Some(s)]), ln.watching + {s});
        if x in muxes {
          assert MuxOk(muxes[x], ln, nextSig);
          MuxOkWatch(muxes[x], ln, nextSig, s);
        }
        InvLinks(sigs, nextSig, mons, nextMon, muxes, links, nextMux, tracker, disposeList, x, ln1);
        if x !in clientFlushes {
          OnlyWiredPush(sigs, x, links, Some(s), ln.watching + {s});
        }
        WiredLinks(sigs, links, clientFlushes, x, ln1);
        WatchGrowsSet(links, x, ln1);
        StaysActiveSet(links, x, ln1);
        links := links[x := ln1];
        var _ := Attach(s, MuxFlush(x));
      }
    }

    /** The loop of `watch` on an active mux. */
    method WatchActive(x: MuxId, signals: seq<SigId>)
      requires Valid() && Active(x) && forall s :: s in signals ==> s in sigs
      modifies this`sigs, this`mons, this`links, this`trace
      ensures Valid() && Kept() && Grows(old(sigs), sigs) && StaysActive(old(links), links)
      ensures tracker == old(tracker) && published == old(published) && muxes == old(muxes)
      ensures Values(sigs) == Values(old(sigs))
      ensures Watched(x, signals)
      ensures forall k :: 0 <= k < |signals| ==> signals[k] in links[x].watching
    {
      ghost var l0, s0, t0 := links, sigs, trace;
      WatchStart(x, l0, s0, t0);
      assert signals[..0] == [];
      var i := 0;
      while i < |signals|
        invariant 0 <= i <= |signals|
        invariant Valid() && Active(x) && mons == old(mons)
        invariant WatchedSoFar(x, signals[..i], l0, s0, t0, links, sigs, trace)
      {
        WatchNext(x, signals, i, l0, s0, t0);
        i := i + 1;
      }
      assert signals[..i] == signals;
      WatchEnd(x, signals, l0, s0, t0, links, sigs, trace);
    }

    /** One turn of that loop. */
    method WatchNext(x: MuxId, signals: seq<SigId>, i: nat, ghost l0: map<MuxId, Links>, ghost s0: map<SigId, SigState>,
                     ghost t0: seq<Event>)
      requires Valid() && Active(x) && i < |signals| && forall s :: s in signals ==> s in s0
      requires WatchedSoFar(x, signals[..i], l0, s0, t0, links, sigs, trace)
      modifies this`sigs, this`mons, this`links, this`trace
      ensures Valid() && Active(x) && mons == old(mons)
      ensures WatchedSoFar(x, signals[..i + 1], l0, s0, t0, links, sigs, trace)
    {
      ghost var ls, ss, ts := links, sigs, trace;
      assert signals[i] in signals;
      WatchOne(x, signals[i]);
      WatchStepped(x, signals, i, l0, s0, t0, ls, ss, ts, links, sigs, trace);
    }

    /** `watch(...signals)`: activation if needed, then each signal not
        watched yet is connected to the flush. */
    method Watch(x: MuxId, signals: seq<SigId>) returns (r: MuxId)
      requires Valid() && x in muxes && forall s :: s in signals ==> s in sigs
      modifies this`sigs, this`mons, this`links, this`muxes, this`trace, this`published, this`tracker
      ensures Valid() && Kept() && r == x && Active(x) && tracker == old(tracker)
      ensures Grows(old(sigs), sigs) && StaysActive(old(links), links)
      ensures forall k :: 0 <= k < |signals| ==> signals[k] in links[x].watching
      ensures old(Active(x)) ==> Watched(x, signals)
    {
      if links[x].disconnectList.None? {
        InitWatch(x, signals);
      } else {
        WatchActive(x, signals);
      }
      r := x;
    }

    /** A watch of a mux not active yet: `init()` first. */
    method InitWatch(x: MuxId, signals: seq<SigId>)
      requires Valid() && x in muxes && !Active(x) && forall s :: s in signals ==> s in sigs
      modifies this`sigs, this`mons, this`links, this`muxes, this`trace, this`published, this`tracker
      ensures Valid() && Kept() && Active(x) && tracker == old(tracker)
      ensures Grows(old(sigs), sigs) && StaysActive(old(links), links)
      ensures forall k :: 0 <= k < |signals| ==> signals[k] in links[x].watching
    {
      Init(x);
      ghost var s1, m1, x1, l1 := sigs, mons, muxes, links;
      WatchActive(x, signals);
      EvolvedTrans(old(sigs), old(mons), old(muxes), old(links), s1, m1, x1, l1, sigs, mons, muxes, links);
    }

    /** `muxedSignal()`: activation if needed, then a read of the result signal. */
    method MuxRead(x: MuxId) returns (v: Value)
      requires Valid() && x in muxes
      modifies this`sigs, this`mons, this`links, this`muxes, this`trace, this`published, this`tracker
      ensures Valid() && Kept() && Active(x) && tracker == old(tracker)
      ensures Grows(old(sigs), sigs) && StaysActive(old(links), links)
      ensures old(muxes)[x].str in sigs && v == sigs[old(muxes)[x].str].val
      ensures Subscribed(old(mons), mons, tracker, [old(muxes)[x].str])
      ensures tracker.MonitorTracker? ==> MonitorCb(tracker.m) in sigs[old(muxes)[x].str].receivers
      ensures muxes == old(muxes)[x := muxes[x]]
      ensures muxes[x].depth == old(muxes)[x].depth && muxes[x].handlerCount == old(muxes)[x].handlerCount
      ensures Values(sigs) == Values(old(sigs))[old(muxes)[x].str := v]
      ensures old(Active(x)) ==> v == old(sigs)[old(muxes)[x].str].val
      ensures !old(Active(x)) ==>
        && |old(muxes)[x].frags| == |old(muxes)[x].parts| + 1 && SigsIn(old(muxes)[x].parts, Values(old(sigs)))
        && v == Text(Interleave(old(muxes)[x].frags, PartValues(world, old(muxes)[x].parts, Values(old(sigs)))))
    {
      if links[x].disconnectList.None? {
        v := InitRead(x);
      } else {
        v := Read(muxes[x].str);
        assert Values(old(sigs))[old(muxes)[x].str := v] == Values(old(sigs));
      }
    }

    /** `muxedSignal()` on a mux not active yet: `init()`, then the read. */
    method InitRead(x: MuxId) returns (v: Value)
      requires Valid() && x in muxes && !Active(x)
      modifies this`sigs, this`mons, this`links, this`muxes, this`trace, this`published, this`tracker
      ensures Valid() && Kept() && Active(x) && tracker == old(tracker)
      ensures Grows(old(sigs), sigs) && StaysActive(old(links), links)
      ensures old(muxes)[x].str in sigs && v == sigs[old(muxes)[x].str].val
      ensures Subscribed(old(mons), mons, tracker, [old(muxes)[x].str])
      ensures tracker.MonitorTracker? ==> MonitorCb(tracker.m) in sigs[old(muxes)[x].str].receivers
      ensures |old(muxes)[x].frags| == |old(muxes)[x].parts| + 1 && SigsIn(old(muxes)[x].parts, Values(old(sigs)))
      ensures v == Text(Interleave(old(muxes)[x].frags, PartValues(world, old(muxes)[x].parts, Values(old(sigs)))))
      ensures muxes == old(muxes)[x := muxes[x]]
      ensures muxes[x].depth == old(muxes)[x].depth && muxes[x].handlerCount == old(muxes)[x].handlerCount
      ensures Values(sigs) == Values(old(sigs))[old(muxes)[x].str := v]
    {
      ghost var st := muxes[x];
      Init(x);
      ghost var s1, m1, x1, l1 := sigs, mons, muxes, links;
      var str := muxes[x].str;
      assert str == st.str && str in s1;
      v := Read(str);
      assert tracker.MonitorTracker? ==> MonitorCb(tracker.m) in sigs[st.str].receivers;
      EvolvedTrans(old(sigs), old(mons), old(muxes), old(links), s1, m1, x1, l1, sigs, mons, muxes, links);
      SubscribedThen(old(mons), m1, mons, tracker, [st.str]);
    }
  }
}
