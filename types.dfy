/** Values, identities and observable events shared by every part of the
    model of the reactive engine (signal, monitor, mux). */
module Types {

  datatype Option<T> = None | Some(value: T)

  /** A JavaScript value as the engine handles it: `undefined` (the initial
      value of a mux's result signal and of its unfilled slots), a string,
      `NaN`, or any other value (a number, boolean, `null`, object, array or
      function) given by its identity under `===` (equal primitives share an
      id, every object has its own) and the text `''.concat` makes of it. */
  datatype Value = Undefined | Text(s: string) | NaN | Ref(id: nat, text: string)

  /** The text `''.concat` produces for a value. */
  function ToStr(v: Value): string {
    match v
    case Undefined => "undefined"
    case Text(s) => s
    case NaN => "NaN"
    case Ref(_, t) => t
  }

  /** `a === b`: strings by content, other values by identity, `NaN` equal to
      nothing. */
  predicate StrictEq(a: Value, b: Value) {
    match a
    case Undefined => b.Undefined?
    case Text(s) => b.Text? && b.s == s
    case NaN => false
    case Ref(i, _) => b.Ref? && b.id == i
  }

  /** Strictly equal values are of one kind; two values of different kinds
      (the number 1 and the string "1") never are. */
  lemma StrictEqKinds(a: Value, b: Value)
    requires StrictEq(a, b)
    ensures a.Undefined? == b.Undefined? && a.Text? == b.Text? && a.Ref? == b.Ref? && !a.NaN? && !b.NaN?
  {
  }

  /** Strict equality is symmetric, and reflexive on every value but `NaN`. */
  lemma StrictEqSymmetric(a: Value, b: Value)
    ensures StrictEq(a, b) <==> StrictEq(b, a)
    ensures StrictEq(a, a) <==> !a.NaN?
  {
  }

  /** Two values with the same text need not be strictly equal: two
      distinct objects (arrays that both read `1,2`, say) that concatenate
      alike, or a number and the string of its digits. */
  lemma SameTextNotEqual(i: nat, j: nat, t: string)
    requires i != j
    ensures ToStr(Ref(i, t)) == ToStr(Ref(j, t)) && !StrictEq(Ref(i, t), Ref(j, t))
    ensures ToStr(Ref(i, t)) == ToStr(Text(t)) && !StrictEq(Ref(i, t), Text(t))
  {
  }

  type SigId = nat
  type MonId = nat
  type MuxId = nat
  type UserId = nat
  type FnId = nat
  type BodyId = nat
  type CleanupId = nat

  /** The identity of a callback that a signal can hold as a receiver. */
  datatype Handler =
    | User(u: UserId)       // a handler passed in by client code
    | MonitorCb(m: MonId)   // the re-run callback of a monitor
    | MuxFlush(x: MuxId)    // the flush routine of a mux

  /** A call from the engine into code outside it, in the order it happens. */
  datatype Event =
    | RunCleanup(c: CleanupId)              // a cleanup returned earlier by a handler or a monitor body
    | Invoke(h: Handler, args: seq<Value>)  // a receiver called by a signal with these arguments
    | RunBody(m: MonId)                     // the body of a monitor
    | CallFn(f: FnId)                       // an update function passed to a write, or a function part of a mux

  /** What client code computes, as functions of what it is given:
      an update function passed to a write, the cleanup a handler returns,
      the cleanup a monitor body returns, and the value of a function part.
      Bodies and function parts see the current values of all signals. */
  datatype World = World(
    update: (FnId, Value) -> Value,
    reply: (UserId, seq<Value>) -> Option<CleanupId>,
    body: (BodyId, map<SigId, Value>) -> Option<CleanupId>,
    fnValue: (FnId, map<SigId, Value>) -> Value)

  /** The closure state of one monitor: its body, the cleanup its last run
      returned, and the signals it subscribed to, one entry per tracked read
      (each entry stands for the disposer `() => signal.disconnect(callback)`). */
  datatype MonState = MonState(body: BodyId, cleanup: Option<CleanupId>, disposers: seq<SigId>)
}
