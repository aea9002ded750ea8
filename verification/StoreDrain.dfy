/** The operation gate of the store: counting running operations, draining, closing. Every
    critical section under the asyncio lock is one atomic step, and the code after the drained
    wait (sync, close, mark closed) has no await in it, so it is one step too. */
module StoreDrain {

  datatype Gate = Gate(active: int, drained: bool, closing: bool, closed: bool, envOpen: bool)

  const OPEN_GATE := Gate(0, true, false, false, true)

  function Entered(g: Gate): Gate {
    if g.closed || g.closing then g else g.(active := g.active + 1, drained := false)
  }

  function Left(g: Gate): Gate {
    g.(active := g.active - 1, drained := g.drained || g.active == 1)
  }

  function Requested(g: Gate): Gate {
    if g.closed then g else g.(closing := true)
  }

  function Shut(g: Gate): Gate { g.(envOpen := false, closed := true) }

  class OperationGate {
    var activeOperations: int
    var drained: bool
    var closing: bool
    var closed: bool
    var envOpen: bool

    ghost function State(): Gate
      reads this
    {
      Gate(activeOperations, drained, closing, closed, envOpen)
    }

    constructor ()
      ensures State() == OPEN_GATE
    {
      activeOperations, drained, closing, closed, envOpen := 0, true, false, false, true;
    }

    /** Entry of the operation context manager; false stands for "StoreService is closed". */
    method EnterOperation() returns (ok: bool)
      modifies this
      ensures State() == Entered(old(State()))
      ensures ok <==> !old(closed) && !old(closing)
    {
      if closed || closing { return false; }
      activeOperations := activeOperations + 1;
      drained := false;
      ok := true;
    }

    method LeaveOperation()
      modifies this
      ensures State() == Left(old(State()))
    {
      activeOperations := activeOperations - 1;
      if activeOperations == 0 {
        drained := true;
      }
    }

    /** The locked section of shutdown; false when the store is already closed. */
    method RequestShutdown() returns (proceed: bool)
      modifies this
      ensures State() == Requested(old(State())) && proceed == !old(closed)
    {
      if closed { return false; }
      closing := true;
      proceed := true;
    }

    /** The tail of shutdown after the drained wait. Syncing a closed environment raises, but the
        environment is closed either way. */
    method CloseEnvironment() returns (synced: bool)
      modifies this
      ensures synced == old(envOpen)
      ensures envOpen == false && closed == (old(closed) || synced)
      ensures activeOperations == old(activeOperations) && drained == old(drained) && closing == old(closing)
    {
      synced := envOpen;
      envOpen := false;
      if synced {
        closed := true;
      }
    }
  }

  // ---- Interleavings ----------------------------------------------------------------------------

  // where a shutdown call stands: before its locked section, waiting, or released by the event
  datatype ShutdownPhase = Called | Waiting | Woken | Returned | Raised

  type OpId = nat
  type CallId = nat

  datatype World = World(gate: Gate, ops: set<OpId>, calls: map<CallId, ShutdownPhase>,
                         usedClosed: bool, syncedClosed: bool)

  datatype Label =
    | Enter(op: OpId) | Use(op: OpId) | Leave(op: OpId)
    | CallShutdown(call: CallId) | Lock(call: CallId) | Wake(call: CallId) | Close(call: CallId)

  const FRESH := World(OPEN_GATE, {}, map[], false, false)

  predicate At(w: World, call: CallId, phase: ShutdownPhase) {
    call in w.calls && w.calls[call] == phase
  }

  /** One atomic step; a step that is not enabled does nothing. */
  function Step(w: World, l: Label): World {
    match l
    case Enter(op) =>
      if op in w.ops || w.gate.closed || w.gate.closing then w
      else w.(gate := Entered(w.gate), ops := w.ops + {op})
    case Use(op) =>
      if op in w.ops then w.(usedClosed := w.usedClosed || !w.gate.envOpen) else w
    case Leave(op) =>
      if op in w.ops then w.(gate := Left(w.gate), ops := w.ops - {op}) else w
    case CallShutdown(call) =>
      if call in w.calls then w
      else w.(calls := w.calls[call := if w.gate.closed then Returned else Called])
    case Lock(call) =>
      if !At(w, call, Called) then w
      else w.(gate := Requested(w.gate), calls := w.calls[call := if w.gate.closed then Returned else Waiting])
    case Wake(call) =>
      if At(w, call, Waiting) && w.gate.drained then w.(calls := w.calls[call := Woken]) else w
    case Close(call) =>
      if !At(w, call, Woken) then w
      else if w.gate.envOpen then w.(gate := Shut(w.gate), calls := w.calls[call := Returned])
      else w.(syncedClosed := true, calls := w.calls[call := Raised])
  }

  function Run(w: World, ls: seq<Label>): World
    decreases ls
  {
    if ls == [] then w else Run(Step(w, ls[0]), ls[1..])
  }

  /** The drained flag is exact, closing is never undone while someone waits, and nobody is inside
      once a shutdown has been woken or the environment is closed. */
  ghost predicate Safe(w: World) {
    && w.gate.active == |w.ops|
    && (w.gate.drained <==> w.gate.active == 0)
    && (w.gate.envOpen <==> !w.gate.closed)
    && (w.gate.closed ==> w.gate.closing && w.ops == {})
    && (forall c :: c in w.calls && w.calls[c] == Waiting ==> w.gate.closing)
    && (forall c :: c in w.calls && w.calls[c] == Woken ==> w.gate.closing && w.ops == {})
    && !w.usedClosed
  }

  lemma StepSafe(w: World, l: Label)
    requires Safe(w)
    ensures Safe(Step(w, l))
  {
  }

  /** In every interleaving of operations and shutdown calls no operation ever touches a closed
      environment, and the flag and the counter stay exact. */
  lemma {:induction false} AlwaysSafe(w: World, ls: seq<Label>)
    requires Safe(w)
    ensures Safe(Run(w, ls))
    decreases ls
  {
    if ls != [] {
      StepSafe(w, ls[0]);
      AlwaysSafe(Step(w, ls[0]), ls[1..]);
    }
  }

  /** No operation starts once closing is set, and closing is never unset. */
  lemma {:induction false} NothingStartsWhileClosing(w: World, ls: seq<Label>)
    requires w.gate.closing
    ensures Run(w, ls).gate.closing && Run(w, ls).ops <= w.ops
    decreases ls
  {
    if ls != [] { NothingStartsWhileClosing(Step(w, ls[0]), ls[1..]); }
  }

  // ---- Overlapping shutdowns --------------------------------------------------------------------

  /** The shutdown calls past their locked section that have not finished. */
  function Inside(w: World): set<CallId> {
    set c | c in w.calls && (w.calls[c] == Waiting || w.calls[c] == Woken)
  }

  /** The step lets a shutdown call past its locked section while another one is inside. */
  predicate Joins(w: World, l: Label) {
    l.Lock? && At(w, l.call, Called) && !w.gate.closed && Inside(w) != {}
  }

  predicate Overlaps(w: World, ls: seq<Label>)
    decreases ls
  {
    ls != [] && (Joins(w, ls[0]) || Overlaps(Step(w, ls[0]), ls[1..]))
  }

  /** At most one call is inside, none after closing, and none has synced a closed environment. */
  ghost predicate Serial(w: World) {
    && (forall c, d | c in Inside(w) && d in Inside(w) :: c == d)
    && (w.gate.closed ==> Inside(w) == {})
    && !w.syncedClosed
  }

  lemma StepSerial(w: World, l: Label)
    requires Safe(w) && Serial(w) && !Joins(w, l)
    ensures Serial(Step(w, l))
  {
    var w' := Step(w, l);
    assert forall c | c in Inside(w') :: c in Inside(w) || (l.Lock? && c == l.call && Inside(w) == {});
    if l.Close? && At(w, l.call, Woken) { assert l.call in Inside(w); }
  }

  /** Shutdown calls that do not overlap never fail, however many there are. */
  lemma {:induction false} SerialShutdownsNeverFail(w: World, ls: seq<Label>)
    requires Safe(w) && Serial(w) && !Overlaps(w, ls)
    ensures Serial(Run(w, ls))
    decreases ls
  {
    hide Safe, Serial, Joins, Step;
    if ls != [] {
      StepSafe(w, ls[0]);
      StepSerial(w, ls[0]);
      SerialShutdownsNeverFail(Step(w, ls[0]), ls[1..]);
    }
  }

  /** A call has failed, or one is bound to: two are inside, or one that finds the environment closed. */
  ghost predicate Doomed(w: World) {
    w.syncedClosed || exists c :: c in Inside(w) && (w.gate.closed || exists d :: d in Inside(w) && d != c)
  }

  lemma StepDoomed(w: World, l: Label)
    requires Safe(w) && (Doomed(w) || Joins(w, l))
    ensures Doomed(Step(w, l))
  {
    var w' := Step(w, l);
    if !w'.syncedClosed {
      if Joins(w, l) {
        var c :| c in Inside(w);
        assert c in Inside(w') && l.call in Inside(w') && c != l.call;
      } else {
        var c :| c in Inside(w) && (w.gate.closed || exists d :: d in Inside(w) && d != c);
        if l.Close? && At(w, l.call, Woken) {
          var d :| d in Inside(w) && d != l.call;
          assert d in Inside(w') && w'.gate.closed;
        } else {
          assert Inside(w) <= Inside(w');
        }
      }
    }
  }

  lemma {:induction false} DoomedStays(w: World, ls: seq<Label>)
    requires Safe(w) && (Doomed(w) || Overlaps(w, ls))
    ensures Doomed(Run(w, ls))
    decreases ls
  {
    hide Safe, Doomed, Joins, Step;
    if ls != [] {
      StepSafe(w, ls[0]);
      if Doomed(w) || Joins(w, ls[0]) { StepDoomed(w, ls[0]); }
      DoomedStays(Step(w, ls[0]), ls[1..]);
    }
  }

  /** Exactly when a closed environment is synced: in every run in which no shutdown call is left
      inside, one of them fails if and only if two overlapped. */
  lemma FailsExactlyWhenOverlapping(ls: seq<Label>)
    requires Inside(Run(FRESH, ls)) == {}
    ensures Run(FRESH, ls).syncedClosed <==> Overlaps(FRESH, ls)
  {
    if Overlaps(FRESH, ls) { DoomedStays(FRESH, ls); } else { SerialShutdownsNeverFail(FRESH, ls); }
  }

  /** From every state with two calls inside, letting the operations leave and the two calls go on
      makes one of them fail. */
  lemma {:induction false} OverlappingShutdownsFail(w: World, a: CallId, b: CallId) returns (ls: seq<Label>)
    requires Safe(w) && a in Inside(w) && b in Inside(w) && a != b
    ensures Run(w, ls).syncedClosed
    decreases |w.ops|, (if At(w, a, Waiting) then 1 else 0) + (if At(w, b, Waiting) then 1 else 0)
  {
    if At(w, a, Woken) && At(w, b, Woken) {
      ls := [Close(a), Close(b)];
      RunTwo(w, Close(a), Close(b), []);
      assert ls == ls + [];
    } else {
      var l;
      if w.ops != {} {
        var op :| op in w.ops;
        l := Leave(op);
      } else {
        l := Wake(if At(w, a, Waiting) then a else b);
      }
      StepSafe(w, l);
      var rest := OverlappingShutdownsFail(Step(w, l), a, b);
      ls := [l] + rest;
      assert ls[1..] == rest;
    }
  }

  lemma RunTwo(w: World, a: Label, b: Label, rest: seq<Label>)
    ensures Run(w, [a, b] + rest) == Run(Step(Step(w, a), b), rest)
  {
    assert ([a, b] + rest)[1..] == [b] + rest;
    assert ([b] + rest)[1..] == rest;
  }

  /** A waiting shutdown is never stuck: letting the running operations finish wakes and closes. */
  lemma {:induction false} DrainCompletes(w: World, call: CallId) returns (ls: seq<Label>)
    requires Safe(w) && At(w, call, Waiting) && w.gate.envOpen
    ensures Run(w, ls).gate.closed && !Run(w, ls).gate.envOpen && Run(w, ls).ops == {}
    decreases |w.ops|
  {
    if w.ops == {} {
      ls := [Wake(call), Close(call)];
      RunTwo(w, Wake(call), Close(call), []);
      assert ls == ls + [];
    } else {
      var op :| op in w.ops;
      StepSafe(w, Leave(op));
      var rest := DrainCompletes(Step(w, Leave(op)), call);
      ls := [Leave(op)] + rest;
      assert ls[1..] == rest;
    }
  }
}
