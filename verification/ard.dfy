/**
 The Arduino-board specialisation of the CDC ACM driver: the per-device
 state it adds, the table scan that fills it, the two reset routines, the
 reset dispatcher and the bring-up that ends device initialisation.

 The routines are written as the C++ performs them, one request at a time,
 and each is proved equal to running its recipe in `Sequencer`.
 */
module Ard {
  import opened Ints
  import opened Pstn
  import opened Sequencer
  import opened Catalog

  /** The fields the specialisation adds to a CDC ACM device. */
  datatype Session = Session(vid: uint16, pid: uint16, targetBaudRate: uint32, targetResetMsec: uint16)

  /** The state a freshly constructed device starts in. */
  function NewSession(): (s: Session)
    ensures IdVendor(s) == 0 && IdProduct(s) == 0
    ensures TargetPolicy(s) == Policy(0, 0)
    ensures ProtocolOf(TargetPolicy(s)) == Touch
  {
    Session(0, 0, 0, 0)
  }

  function IdVendor(s: Session): uint16 {
    s.vid
  }

  function IdProduct(s: Session): uint16 {
    s.pid
  }

  function TargetPolicy(s: Session): Policy {
    Policy(s.targetBaudRate, s.targetResetMsec)
  }

  /** Enumeration copies the IDs out of the device descriptor. */
  function StoreDescriptorIds(s: Session, idVendor: uint16, idProduct: uint16): Session {
    s.(vid := idVendor, pid := idProduct)
  }

  /** The accessors give back exactly the IDs enumeration stored, and
      nothing else about the session is touched by storing them. */
  lemma AccessorsReturnStoredIds(s: Session, idVendor: uint16, idProduct: uint16)
    ensures IdVendor(StoreDescriptorIds(s, idVendor, idProduct)) == idVendor
    ensures IdProduct(StoreDescriptorIds(s, idVendor, idProduct)) == idProduct
    ensures TargetPolicy(StoreDescriptorIds(s, idVendor, idProduct)) == TargetPolicy(s)
  {
  }

  /** The effect of the table scan: the target fields take the looked-up
      policy and nothing else changes. */
  function ApplyTarget(s: Session, vid: uint16, pid: uint16): (r: (bool, Session))
    ensures r.0 == Classify(vid, pid).recognized
    ensures TargetPolicy(r.1) == Classify(vid, pid).policy
    ensures IdVendor(r.1) == IdVendor(s) && IdProduct(r.1) == IdProduct(s)
  {
    var c := Classify(vid, pid);
    (c.recognized, s.(targetBaudRate := c.policy.baudRate, targetResetMsec := c.policy.resetMsec))
  }

  /** The scan over all declared rows of the table, as a loop: the first row
      with both IDs equal sets the target fields from its policy and reports
      success; after the last row the default policy is stored and failure
      is reported. The IDs the session holds are not changed. */
  method FindTarget(s: Session, vid: uint16, pid: uint16) returns (found: bool, s': Session)
    ensures found <==> exists i :: 0 <= i < |Boards| && Matches(Boards[i], vid, pid)
    ensures found ==> exists i ::
      && 0 <= i < |Boards|
      && Matches(Boards[i], vid, pid)
      && (forall j :: 0 <= j < i ==> !Matches(Boards[j], vid, pid))
      && TargetPolicy(s') == ActionPolicy(Boards[i].action)
    ensures !found ==> s'.targetBaudRate == 115200 && s'.targetResetMsec == 250
    ensures s'.vid == s.vid && s'.pid == s.pid
    ensures (found, s') == ApplyTarget(s, vid, pid)
  {
    var i := 0;
    while i < |Boards|
      invariant 0 <= i <= |Boards|
      invariant forall j :: 0 <= j < i ==> !Matches(Boards[j], vid, pid)
    {
      if vid == Boards[i].vendorId && pid == Boards[i].productId {
        var p := BoardActions[Ordinal(Boards[i].action)];
        s' := s.(targetBaudRate := p.baudRate, targetResetMsec := p.resetMsec);
        AnyMatchAgrees(vid, pid, i);
        return true, s';
      }
      i := i + 1;
    }
    s' := s.(targetBaudRate := 115200, targetResetMsec := 250);
    return false, s';
  }

  /** Protocol A as the driver issues it: DTR = RTS = 0, wait, DTR = RTS = 1,
      returning the first nonzero code. */
  function ResetDtrRts(resetLowMsec: int32, o: Oracle): (r: Outcome)
    ensures r.rcode == 0 <==> o(0, SetLines(LinesOff)) == 0 && o(1, SetLines(LinesOn)) == 0
    ensures r.rcode == 0 ==>
      r.trace == [SetLines(LinesOff), Delay(UnsignedLong(resetLowMsec)), SetLines(LinesOn)]
    ensures o(0, SetLines(LinesOff)) != 0 ==>
      r == Outcome(o(0, SetLines(LinesOff)), [SetLines(LinesOff)])
    ensures o(0, SetLines(LinesOff)) == 0 && o(1, SetLines(LinesOn)) != 0 ==>
      && r.rcode == o(1, SetLines(LinesOn))
      && r.trace == [SetLines(LinesOff), Delay(UnsignedLong(resetLowMsec)), SetLines(LinesOn)]
  {
    var rcode := o(0, SetLines(0));
    if rcode != 0 then Outcome(rcode, [SetLines(0)])
    else
      var trace := [SetLines(0), Delay(UnsignedLong(resetLowMsec)), SetLines(3)];
      var rcode := o(1, SetLines(3));
      if rcode != 0 then Outcome(rcode, trace)
      else Outcome(0, trace)
  }

  /** Protocol B as the driver issues it. */
  function ResetTouch1200bps(o: Oracle): (r: Outcome)
    ensures r.rcode == 0 ==>
      r.trace == [ SetLines(LinesOn), Delay(4), SetCoding(LineCoding(1200, 0, 0, 8)), Delay(4),
                   SetLines(RtsOnly), Delay(4), SetLines(LinesOff) ]
    ensures r.rcode == 0 <==>
      && o(0, SetLines(LinesOn)) == 0 && o(1, SetCoding(LineCoding(1200, 0, 0, 8))) == 0
      && o(2, SetLines(RtsOnly)) == 0 && o(3, SetLines(LinesOff)) == 0
    ensures |r.trace| in {1, 3, 5, 7}
    ensures r.trace == Touch1200()[..|r.trace|]
  {
    var rcode := o(0, SetLines(3));
    if rcode != 0 then Outcome(rcode, [SetLines(3)])
    else
      var lc := LineCoding(1200, 0, 0, 8);
      var rcode := o(1, SetCoding(lc));
      if rcode != 0 then Outcome(rcode, [SetLines(3), Delay(4), SetCoding(lc)])
      else
        var rcode := o(2, SetLines(2));
        if rcode != 0 then Outcome(rcode, [SetLines(3), Delay(4), SetCoding(lc), Delay(4), SetLines(2)])
        else
          var trace := [SetLines(3), Delay(4), SetCoding(lc), Delay(4), SetLines(2), Delay(4), SetLines(0)];
          var rcode := o(3, SetLines(0));
          if rcode != 0 then Outcome(rcode, trace)
          else Outcome(0, trace)
  }

  /** The reset dispatcher: Protocol A for a nonzero pulse length, nothing
      for zero (the touch call is disabled). Its return value is not defined
      by the driver, so only the steps it performs are modelled. */
  function ResetTarget(s: Session, o: Oracle): (trace: seq<Op>)
    ensures s.targetResetMsec == 0 ==> trace == []
    ensures s.targetResetMsec != 0 ==>
      && |trace| in {1, 3}
      && trace == DtrRtsPulse(s.targetResetMsec as int as uint32)[..|trace|]
    ensures forall k :: 0 <= k < |trace| ==> !trace[k].SetCoding?
  {
    if s.targetResetMsec != 0 then
      ResetDtrRts(WidenToInt(s.targetResetMsec), o).trace
    else
      []
  }

  /** The result of bring-up: the code `Init` returns, the steps performed,
      the session with its target fields filled in, and whether the device
      was marked ready. */
  datatype BringupResult = BringupResult(rcode: uint8, trace: seq<Op>, session: Session, ready: bool)

  /** The requests at the end of `Init` for a device whose policy is already
      stored: raise DTR and RTS when it resets by a pulse, set the line
      coding to its rate, then call the owner's callback, stopping at the
      first nonzero code. */
  function IssueBringup(s1: Session, o: Oracle): (r: Outcome)
    ensures SetLines(LinesOn) in r.trace <==> s1.targetResetMsec != 0
    ensures s1.targetResetMsec != 0 && o(0, SetLines(LinesOn)) != 0 ==>
      r == Outcome(o(0, SetLines(LinesOn)), [SetLines(LinesOn)])
    ensures r.rcode == 0 ==>
      && |r.trace| > 0 && r.trace[|r.trace| - 1] == OnInit
      && SetCoding(EightNOne(s1.targetBaudRate)) in r.trace
  {
    var lc := LineCoding(s1.targetBaudRate, 0, 0, 8);
    if s1.targetResetMsec != 0 && o(0, SetLines(3)) != 0 then
      Outcome(o(0, SetLines(3)), [SetLines(3)])
    else
      var pre := if s1.targetResetMsec != 0 then [SetLines(3)] else [];
      var n := |pre|;
      var rcode := o(n, SetCoding(lc));
      if rcode != 0 then Outcome(rcode, pre + [SetCoding(lc)])
      else
        var rcode := o(n + 1, OnInit);
        if rcode != 0 then Outcome(rcode, pre + [SetCoding(lc), OnInit])
        else Outcome(0, pre + [SetCoding(lc), OnInit])
  }

  /** The end of `Init`, after the configuration has been selected: look up
      the board by its own IDs, issue the bring-up requests, and mark the
      device ready only when all of them return 0. */
  function InitTail(s: Session, o: Oracle): (r: BringupResult)
    ensures IdVendor(r.session) == IdVendor(s) && IdProduct(r.session) == IdProduct(s)
    ensures TargetPolicy(r.session) == Classify(IdVendor(s), IdProduct(s)).policy
    ensures r.ready <==> r.rcode == 0
    ensures SetLines(LinesOn) in r.trace <==> r.session.targetResetMsec != 0
    ensures r.session.targetResetMsec != 0 && o(0, SetLines(LinesOn)) != 0 ==>
      r.rcode == o(0, SetLines(LinesOn)) && r.trace == [SetLines(LinesOn)]
    ensures r.ready ==> |r.trace| > 0 && r.trace[|r.trace| - 1] == OnInit
    ensures r.ready ==> SetCoding(EightNOne(r.session.targetBaudRate)) in r.trace
  {
    var (_, s1) := ApplyTarget(s, s.vid, s.pid);
    var out := IssueBringup(s1, o);
    BringupResult(out.rcode, out.trace, s1, out.rcode == 0)
  }

  /** Protocol A as issued is Protocol A as specified, for every oracle. */
  lemma {:induction false} ResetDtrRtsFollowsPulse(resetLowMsec: int32, o: Oracle)
    ensures ResetDtrRts(resetLowMsec, o) == Execute(DtrRtsPulse(UnsignedLong(resetLowMsec)), o)
  {
    var d := UnsignedLong(resetLowMsec);
    var recipe := DtrRtsPulse(d);
    assert recipe == [SetLines(0), Delay(d), SetLines(3)];
    assert CodeAt(recipe, o, 0) == o(0, SetLines(0));
    assert CallsBefore(recipe, 1) == 1;
    assert CallsBefore(recipe, 2) == 1;
    var r2 := RunFrom(recipe, o, 2);
    assert r2.trace == [SetLines(3)] && r2.rcode == o(1, SetLines(3));
    var r1 := RunFrom(recipe, o, 1);
    assert r1.trace == [Delay(d), SetLines(3)] && r1.rcode == r2.rcode;
  }

  /** Protocol B as issued is Protocol B as specified, for every oracle: so
      a failing step ends the trace and its code is returned. */
  lemma {:induction false} ResetTouchFollowsTouch1200(o: Oracle)
    ensures ResetTouch1200bps(o) == Execute(Touch1200(), o)
  {
    var recipe := Touch1200();
    var lc := LineCoding(1200, 0, 0, 8);
    assert recipe == [SetLines(3), Delay(4), SetCoding(lc), Delay(4), SetLines(2), Delay(4), SetLines(0)];
    assert CallsBefore(recipe, 1) == 1;
    assert CallsBefore(recipe, 2) == 1;
    assert CallsBefore(recipe, 3) == 2;
    assert CallsBefore(recipe, 4) == 2;
    assert CallsBefore(recipe, 5) == 3;
    assert CallsBefore(recipe, 6) == 3;
    var r6 := RunFrom(recipe, o, 6);
    assert r6 == Outcome(o(3, SetLines(0)), [SetLines(0)]);
    var r5 := RunFrom(recipe, o, 5);
    assert r5 == Outcome(r6.rcode, [Delay(4), SetLines(0)]);
    var r4 := RunFrom(recipe, o, 4);
    assert r4 == if o(2, SetLines(2)) != 0 then Outcome(o(2, SetLines(2)), [SetLines(2)])
                 else Outcome(r5.rcode, [SetLines(2)] + r5.trace);
    var r3 := RunFrom(recipe, o, 3);
    assert r3 == Outcome(r4.rcode, [Delay(4)] + r4.trace);
    var r2 := RunFrom(recipe, o, 2);
    assert r2 == if o(1, SetCoding(lc)) != 0 then Outcome(o(1, SetCoding(lc)), [SetCoding(lc)])
                 else Outcome(r3.rcode, [SetCoding(lc)] + r3.trace);
    var r1 := RunFrom(recipe, o, 1);
    assert r1 == Outcome(r2.rcode, [Delay(4)] + r2.trace);
    var r0 := RunFrom(recipe, o, 0);
    assert r0 == if o(0, SetLines(3)) != 0 then Outcome(o(0, SetLines(3)), [SetLines(3)])
                 else Outcome(r1.rcode, [SetLines(3)] + r1.trace);
  }

  /** The dispatcher performs Protocol A with the stored pulse length. */
  lemma {:induction false} ResetTargetFollowsPulse(s: Session, o: Oracle)
    requires s.targetResetMsec != 0
    ensures ResetTarget(s, o) == Execute(DtrRtsPulse(s.targetResetMsec as int as uint32), o).trace
  {
    ResetDtrRtsFollowsPulse(WidenToInt(s.targetResetMsec), o);
  }

  /** The bring-up requests as issued are the bring-up recipe for the stored
      policy, for every oracle. */
  lemma {:induction false} IssueBringupFollowsRecipe(s1: Session, o: Oracle)
    ensures IssueBringup(s1, o) == Execute(Bringup(s1.targetBaudRate, s1.targetResetMsec), o)
  {
    var lc := LineCoding(s1.targetBaudRate, 0, 0, 8);
    var recipe := Bringup(s1.targetBaudRate, s1.targetResetMsec);
    if s1.targetResetMsec != 0 {
      assert recipe == [SetLines(3), SetCoding(lc), OnInit];
      assert CallsBefore(recipe, 1) == 1;
      assert CallsBefore(recipe, 2) == 2;
      var r2 := RunFrom(recipe, o, 2);
      assert r2 == Outcome(o(2, OnInit), [OnInit]);
      var r1 := RunFrom(recipe, o, 1);
      assert r1 == if o(1, SetCoding(lc)) != 0 then Outcome(o(1, SetCoding(lc)), [SetCoding(lc)])
                   else Outcome(r2.rcode, [SetCoding(lc), OnInit]);
    } else {
      assert recipe == [SetCoding(lc), OnInit];
      assert CallsBefore(recipe, 1) == 1;
      var r1 := RunFrom(recipe, o, 1);
      assert r1 == Outcome(o(1, OnInit), [OnInit]);
    }
  }

  /** Bring-up is the bring-up recipe for the looked-up policy, and the
      device is ready exactly when that recipe succeeds. */
  lemma InitTailFollowsBringup(s: Session, o: Oracle)
    ensures var r := InitTail(s, o);
      var p := Classify(IdVendor(s), IdProduct(s)).policy;
      && Outcome(r.rcode, r.trace) == Execute(Bringup(p.baudRate, p.resetMsec), o)
      && (r.ready <==> forall j :: 0 <= j < |Bringup(p.baudRate, p.resetMsec)| ==>
                         Succeeds(Bringup(p.baudRate, p.resetMsec), o, j))
  {
    IssueBringupFollowsRecipe(ApplyTarget(s, s.vid, s.pid).1, o);
  }

  /** The zero-length sentinel decides the reset protocol: a policy read as
      the 1200 bps touch gets no reset at all (the touch is not called) and
      no line raised at bring-up; a policy read as a pulse gets Protocol A
      with that length and DTR/RTS raised at bring-up. */
  lemma ProtocolGovernsReset(s: Session, o: Oracle)
    ensures ProtocolOf(TargetPolicy(s)) == Touch ==> ResetTarget(s, o) == []
    ensures ProtocolOf(TargetPolicy(s)).Pulse? ==>
      ResetTarget(s, o) == Execute(DtrRtsPulse(ProtocolOf(TargetPolicy(s)).ms as int as uint32), o).trace
    ensures SetLines(LinesOn) in IssueBringup(s, o).trace <==> ProtocolOf(TargetPolicy(s)).Pulse?
  {
    if s.targetResetMsec != 0 {
      ResetTargetFollowsPulse(s, o);
    }
  }

  /** Every pulse length a device can hold after bring-up is at most 250 ms,
      so it reaches `reset_dtr_rts` unchanged whether C `int` has 32 bits or
      16 bits. */
  lemma StoredPulseFitsInt(s: Session, o: Oracle)
    ensures var ms := InitTail(s, o).session.targetResetMsec;
      && ms <= 250
      && NarrowToInt16(ms) == ms as int
      && UnsignedLong(WidenToInt(ms)) as int == ms as int
  {
    PulseLengthsAtMost250(IdVendor(s), IdProduct(s));
  }
}
