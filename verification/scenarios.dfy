/**
 Whole-device consequences of the model: what bring-up followed by a reset
 does for each kind of board, and the abort behaviour of the reset routines
 stated in terms of the routines themselves.
 */
module Scenarios {
  import opened Ints
  import opened Pstn
  import opened Sequencer
  import opened Catalog
  import opened Ard

  /** A transport on which every call succeeds. */
  function AllSucceed(): Oracle {
    (n: nat, op: Op) => 0
  }

  /** The lookup result depends on the IDs alone, and only the target
      fields of the session are written. */
  lemma FindTargetDependsOnlyOnIds(s1: Session, s2: Session, vid: uint16, pid: uint16)
    ensures ApplyTarget(s1, vid, pid).0 == ApplyTarget(s2, vid, pid).0
    ensures TargetPolicy(ApplyTarget(s1, vid, pid).1) == TargetPolicy(ApplyTarget(s2, vid, pid).1)
    ensures ApplyTarget(s1, vid, pid).1.(targetBaudRate := s1.targetBaudRate, targetResetMsec := s1.targetResetMsec) == s1
  {
  }

  /** If any step of the 1200 bps touch fails, its code is returned, every
      earlier step succeeded, and the trace stops at that step. */
  lemma TouchAbortsAtFirstFailure(o: Oracle)
    ensures var r := ResetTouch1200bps(o);
      && r.trace == Touch1200()[..|r.trace|]
      && (r.rcode != 0 ==>
            && IsCall(r.trace[|r.trace| - 1])
            && r.rcode == CodeAt(Touch1200(), o, |r.trace| - 1)
            && forall j :: 0 <= j < |r.trace| - 1 ==> Succeeds(Touch1200(), o, j))
  {
    ResetTouchFollowsTouch1200(o);
  }

  /** An Uno: bring-up raises DTR and RTS, opens the port at 115200 8-N-1 and
      marks the device ready; a reset then pulses the lines low for 250 ms. */
  lemma UnoBringupAndReset(s: Session)
    requires IdVendor(s) == 0x2341 && IdProduct(s) == 0x0043
    ensures var r := InitTail(s, AllSucceed());
      && r.ready && r.rcode == 0
      && r.trace == [SetLines(LinesOn), SetCoding(EightNOne(115200)), OnInit]
      && ResetTarget(r.session, AllSucceed()) == [SetLines(LinesOff), Delay(250), SetLines(LinesOn)]
  {
    KnownBoards();
    PolicyTable();
    var r := InitTail(s, AllSucceed());
    assert TargetPolicy(r.session) == Policy(115200, 250);
    IssueBringupFollowsRecipe(r.session, AllSucceed());
    var recipe := Bringup(115200, 250);
    assert forall j :: 0 <= j < |recipe| ==> Succeeds(recipe, AllSucceed(), j);
    assert ResetDtrRts(WidenToInt(250), AllSucceed()).rcode == 0;
  }

  /** A Leonardo: no line is raised at bring-up, the port opens at 57600, and
      a reset does nothing, since its touch protocol is not called. */
  lemma LeonardoBringupAndReset(s: Session)
    requires IdVendor(s) == 0x2341 && IdProduct(s) == 0x0036
    ensures var r := InitTail(s, AllSucceed());
      && r.ready
      && r.trace == [SetCoding(EightNOne(57600)), OnInit]
      && ResetTarget(r.session, AllSucceed()) == []
  {
    KnownBoards();
    PolicyTable();
    InitTailFollowsBringup(s, AllSucceed());
  }

  /** An unknown board is reported as not recognised, yet brought up and
      reset as an Uno. */
  lemma UnknownBoardBringup(s: Session)
    requires IdVendor(s) == 0x9999 && IdProduct(s) == 0x0001
    ensures !Classify(0x9999, 0x0001).recognized
    ensures var r := InitTail(s, AllSucceed());
      && r.ready
      && TargetPolicy(r.session) == Policy(115200, 250)
      && r.trace == [SetLines(LinesOn), SetCoding(EightNOne(115200)), OnInit]
      && ResetTarget(r.session, AllSucceed()) == DtrRtsPulse(250)
  {
    UnknownVendor(0x9999, 0x0001);
    InitTailFollowsBringup(s, AllSucceed());
    var r := InitTail(s, AllSucceed());
    ResetTargetFollowsPulse(r.session, AllSucceed());
  }

  /** A device that reports IDs (0, 0) matches the table's zero rows. */
  lemma ZeroIdsBringup()
    ensures var r := InitTail(NewSession(), AllSucceed());
      && TargetPolicy(r.session) == ActionPolicy(Uno)
      && ResetTarget(r.session, AllSucceed()) == DtrRtsPulse(250)
  {
    ZeroIdsMatchUno();
    PolicyTable();
    var r := InitTail(NewSession(), AllSucceed());
    ResetTargetFollowsPulse(r.session, AllSucceed());
  }

  /** A failing SET_LINE_CODING at bring-up leaves the device not ready and
      returns the transport's code; the callback is never reached. */
  lemma CodingFailureStopsBringup(s: Session, o: Oracle)
    requires var p := Classify(IdVendor(s), IdProduct(s)).policy;
      var n := if p.resetMsec != 0 then 1 else 0;
      (p.resetMsec != 0 ==> o(0, SetLines(LinesOn)) == 0)
      && o(n, SetCoding(EightNOne(p.baudRate))) != 0
    ensures var r := InitTail(s, o);
      && !r.ready
      && r.rcode != 0
      && OnInit !in r.trace
      && r.trace[|r.trace| - 1] == SetCoding(EightNOne(TargetPolicy(r.session).baudRate))
  {
  }
}
