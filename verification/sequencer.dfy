/**
 Operation traces of the reset routines and a reference semantics for them:
 a recipe is the fixed list of requests and waits a routine intends to
 perform, and `Execute` runs it against a transport-result oracle, stopping
 at the first request whose return code is nonzero.
 */
module Sequencer {
  import opened Ints
  import opened Pstn

  /** One externally visible step. */
  datatype Op =
    | SetLines(state: uint8)          // SET_CONTROL_LINE_STATE
    | SetCoding(coding: LineCoding)   // SET_LINE_CODING
    | Delay(ms: uint32)               // a blocking wait; it cannot fail
    | OnInit                          // the asynchronous-operation owner's callback

  /** A step that returns a code, as opposed to a wait. */
  predicate IsCall(op: Op) {
    !op.Delay?
  }

  /** The transport-result oracle: `o(n, op)` is the return code of the
      call `op` when it is the n-th call (counting from 0) of the routine.
      Zero means success. */
  type Oracle = (nat, Op) -> uint8

  /** The routine's return code together with the steps it performed. */
  datatype Outcome = Outcome(rcode: uint8, trace: seq<Op>)

  /** How many of the first `i` steps of `recipe` are calls. */
  function CallsBefore(recipe: seq<Op>, i: nat): (n: nat)
    requires i <= |recipe|
    ensures n <= i
  {
    if i == 0 then 0
    else CallsBefore(recipe, i - 1) + (if IsCall(recipe[i - 1]) then 1 else 0)
  }

  /** The return code of step `i` of a recipe: the oracle's answer for a
      call, numbered by the calls before it, and 0 for a wait. */
  function CodeAt(recipe: seq<Op>, o: Oracle, i: nat): uint8
    requires i < |recipe|
  {
    if IsCall(recipe[i]) then o(CallsBefore(recipe, i), recipe[i]) else 0
  }

  predicate Succeeds(recipe: seq<Op>, o: Oracle, i: nat)
    requires i < |recipe|
  {
    CodeAt(recipe, o, i) == 0
  }

  /** Runs `recipe` from step `i`: each step is performed and recorded; the
      first failing step is the last one recorded and its code is returned. */
  function RunFrom(recipe: seq<Op>, o: Oracle, i: nat): (r: Outcome)
    requires i <= |recipe|
    decreases |recipe| - i
    ensures i + |r.trace| <= |recipe| && r.trace == recipe[i..i + |r.trace|]
    ensures r.rcode == 0 <==> forall j :: i <= j < |recipe| ==> Succeeds(recipe, o, j)
    ensures r.rcode == 0 ==> r.trace == recipe[i..]
    ensures r.rcode != 0 ==>
      && |r.trace| > 0
      && IsCall(recipe[i + |r.trace| - 1])
      && r.rcode == CodeAt(recipe, o, i + |r.trace| - 1)
      && forall j :: i <= j < i + |r.trace| - 1 ==> Succeeds(recipe, o, j)
  {
    if i == |recipe| then Outcome(0, [])
    else if !Succeeds(recipe, o, i) then Outcome(CodeAt(recipe, o, i), [recipe[i]])
    else
      var rest := RunFrom(recipe, o, i + 1);
      Outcome(rest.rcode, [recipe[i]] + rest.trace)
  }

  /** Runs a whole recipe. The trace is always a prefix of the recipe; the
      routine succeeds exactly when every step does, and then the trace is
      the whole recipe; otherwise it ends with the first failing call, whose
      code is returned. */
  function Execute(recipe: seq<Op>, o: Oracle): (r: Outcome)
    ensures |r.trace| <= |recipe| && r.trace == recipe[..|r.trace|]
    ensures r.rcode == 0 <==> forall j :: 0 <= j < |recipe| ==> Succeeds(recipe, o, j)
    ensures r.rcode == 0 ==> r.trace == recipe
    ensures r.rcode != 0 ==>
      && |r.trace| > 0
      && IsCall(r.trace[|r.trace| - 1])
      && r.rcode == CodeAt(recipe, o, |r.trace| - 1)
      && forall j :: 0 <= j < |r.trace| - 1 ==> Succeeds(recipe, o, j)
  {
    RunFrom(recipe, o, 0)
  }

  /** Protocol A: DTR and RTS low, hold for `ms`, DTR and RTS high. */
  function DtrRtsPulse(ms: uint32): seq<Op> {
    [SetLines(ControlLines(false, false)), Delay(ms), SetLines(ControlLines(true, true))]
  }

  /** The wait between the steps of the 1200 bps touch. */
  const TouchWait: uint32 := 4

  /** The rate whose brief opening asks a bootloader to reset. */
  const TouchRate: uint32 := 1200

  /** Protocol B: DTR and RTS high, reopen at 1200 bps 8-N-1, DTR low, RTS
      low, with a short wait after each of the first three requests. */
  function Touch1200(): seq<Op> {
    [ SetLines(ControlLines(true, true)), Delay(TouchWait),
      SetCoding(EightNOne(TouchRate)), Delay(TouchWait),
      SetLines(ControlLines(false, true)), Delay(TouchWait),
      SetLines(ControlLines(false, false)) ]
  }

  /** Bring-up after enumeration: raise DTR and RTS when the board resets by
      a pulse, set the line coding to the board's rate, then hand over to
      the owner's callback. */
  function Bringup(baudRate: uint32, resetMsec: uint16): seq<Op> {
    (if resetMsec != 0 then [SetLines(ControlLines(true, true))] else [])
      + [SetCoding(EightNOne(baudRate)), OnInit]
  }
}
