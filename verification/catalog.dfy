/**
 The board catalog: the per-family reset policies, the vendor/product ID
 table taken from the Arduino IDE's boards.txt, and the first-match lookup
 with its Uno-style fallback.
 */
module Catalog {
  import opened Ints

  datatype Option<T> = None | Some(value: T)

  /** The board families, in the declaration order of the C++ enum, so that
      `Ordinal` is the value the compiler gives each tag. */
  datatype BoardAction = Uno | Mega | Leonardo | NanoEvery

  function Ordinal(a: BoardAction): (k: nat)
    ensures k < |BoardActions|
  {
    match a
    case Uno => 0
    case Mega => 1
    case Leonardo => 2
    case NanoEvery => 3
  }

  /** A reset policy: the serial rate to open the port at, and the length of
      the DTR/RTS low pulse; a zero pulse length stands for the 1200 bps
      touch instead of a pulse. */
  datatype Policy = Policy(baudRate: uint32, resetMsec: uint16)

  /** The two reset protocols a policy can call for. */
  datatype ResetProtocol = Pulse(ms: uint16) | Touch

  function ProtocolOf(p: Policy): (r: ResetProtocol)
    ensures r.Touch? <==> p.resetMsec == 0
    ensures r.Pulse? ==> r.ms == p.resetMsec
  {
    if p.resetMsec == 0 then Touch else Pulse(p.resetMsec)
  }

  /** The policy table, indexed by the enum's ordinal. */
  const BoardActions: seq<Policy> := [
    Policy(115200, 250),   // Uno / ATmega328P
    Policy(115200, 50),    // Mega / ATmega2560
    Policy(57600, 0),      // Leonardo / ATmega32U4
    Policy(115200, 0)      // Nano Every / ATmega4809
  ]

  function ActionPolicy(a: BoardAction): Policy {
    BoardActions[Ordinal(a)]
  }

  /** The policy given to a device the table does not list. */
  const DefaultPolicy: Policy := Policy(115200, 250)

  /** One row of the vendor/product table. */
  datatype BoardEntry = BoardEntry(vendorId: uint16, productId: uint16, action: BoardAction)

  predicate Matches(e: BoardEntry, vid: uint16, pid: uint16) {
    e.vendorId == vid && e.productId == pid
  }

  /** A row the table's initialiser does not mention: every member is zero,
      and the enum's zero is the Uno tag. */
  const ZeroEntry: BoardEntry := BoardEntry(0, 0, Uno)

  /** The number of rows the table is declared with. */
  const DeclaredSlots: nat := 17

  /** The rows the initialiser lists. */
  const ListedBoards: seq<BoardEntry> := [
    BoardEntry(0x2341, 0x0043, Uno),
    BoardEntry(0x2341, 0x0001, Uno),
    BoardEntry(0x2A03, 0x0043, Uno),
    BoardEntry(0x2341, 0x0243, Uno),

    BoardEntry(0x2341, 0x0010, Mega),
    BoardEntry(0x2341, 0x0042, Mega),
    BoardEntry(0x2A03, 0x0010, Mega),
    BoardEntry(0x2A03, 0x0042, Mega),
    BoardEntry(0x2341, 0x0210, Mega),
    BoardEntry(0x2341, 0x0242, Mega),

    BoardEntry(0x2341, 0x0036, Leonardo),
    BoardEntry(0x2341, 0x8036, Leonardo),
    BoardEntry(0x2A03, 0x0036, Leonardo),
    BoardEntry(0x2A03, 0x8036, Leonardo),

    BoardEntry(0x2341, 0x0058, NanoEvery)
  ]

  /** Aggregate initialisation of an array of `n` rows from a shorter list:
      the listed rows first, every remaining row zero. */
  function ZeroFill(listed: seq<BoardEntry>, n: nat): (r: seq<BoardEntry>)
    requires |listed| <= n
    decreases n - |listed|
    ensures |r| == n
    ensures r[..|listed|] == listed
    ensures forall i :: |listed| <= i < n ==> r[i] == ZeroEntry
  {
    if |listed| == n then listed else ZeroFill(listed + [ZeroEntry], n)
  }

  /** The table the lookup scans: all 17 declared rows. */
  const Boards: seq<BoardEntry> := ZeroFill(ListedBoards, DeclaredSlots)

  /** The table is the fifteen listed rows followed by two zero rows. */
  lemma BoardsLayout()
    ensures |Boards| == 17
    ensures Boards == ListedBoards + [ZeroEntry, ZeroEntry]
  {
    var r := ZeroFill(ListedBoards, DeclaredSlots);
    assert |ListedBoards| == 15;
    assert r[..15] == ListedBoards;
    assert r[15] == ZeroEntry && r[16] == ZeroEntry;
    assert r == r[..15] + [r[15], r[16]];
  }

  /** The index of the first row at or after `from` with the given IDs. */
  function FirstMatchFrom(table: seq<BoardEntry>, vid: uint16, pid: uint16, from: nat): (r: Option<nat>)
    requires from <= |table|
    decreases |table| - from
    ensures r.Some? ==>
      && from <= r.value < |table|
      && Matches(table[r.value], vid, pid)
      && forall j :: from <= j < r.value ==> !Matches(table[j], vid, pid)
    ensures r.None? ==> forall j :: from <= j < |table| ==> !Matches(table[j], vid, pid)
  {
    if from == |table| then None
    else if Matches(table[from], vid, pid) then Some(from)
    else FirstMatchFrom(table, vid, pid, from + 1)
  }

  /** The outcome of a lookup: whether the board was recognised, and the
      policy to use for it. */
  datatype Classification = Classification(recognized: bool, policy: Policy)

  /** First exact match wins; an unlisted device gets the default policy and
      is reported as not recognised. */
  function Classify(vid: uint16, pid: uint16): (c: Classification)
    ensures c.recognized <==> exists i :: 0 <= i < |Boards| && Matches(Boards[i], vid, pid)
    ensures c.recognized ==> exists i ::
      && 0 <= i < |Boards|
      && Matches(Boards[i], vid, pid)
      && (forall j :: 0 <= j < i ==> !Matches(Boards[j], vid, pid))
      && c.policy == ActionPolicy(Boards[i].action)
    ensures !c.recognized ==> c.policy == DefaultPolicy
  {
    match FirstMatchFrom(Boards, vid, pid, 0)
    case Some(k) => Classification(true, ActionPolicy(Boards[k].action))
    case None => Classification(false, DefaultPolicy)
  }

  /** The four policies, and which protocol each calls for. */
  lemma PolicyTable()
    ensures ActionPolicy(Uno) == Policy(115200, 250) && ProtocolOf(ActionPolicy(Uno)) == Pulse(250)
    ensures ActionPolicy(Mega) == Policy(115200, 50) && ProtocolOf(ActionPolicy(Mega)) == Pulse(50)
    ensures ActionPolicy(Leonardo) == Policy(57600, 0) && ProtocolOf(ActionPolicy(Leonardo)) == Touch
    ensures ActionPolicy(NanoEvery) == Policy(115200, 0) && ProtocolOf(ActionPolicy(NanoEvery)) == Touch
    ensures DefaultPolicy == ActionPolicy(Uno)
  {
  }

  /** Every tag in the table indexes the policy table, including the tags
      of the two zero rows. */
  lemma TagsAreValidIndices()
    ensures |BoardActions| == 4
    ensures forall i :: 0 <= i < |Boards| ==> Ordinal(Boards[i].action) < |BoardActions|
  {
  }

  /** No vendor/product pair appears with two different tags: the only
      repeated pair is (0, 0), and both of its rows carry the Uno tag. */
  lemma IdsDetermineAction()
    ensures forall i, j ::
      0 <= i < |Boards| && 0 <= j < |Boards| && Matches(Boards[j], Boards[i].vendorId, Boards[i].productId)
      ==> Boards[i].action == Boards[j].action
  {
    BoardsLayout();
  }

  /** Hence first match and any match agree: every row with the given IDs
      carries the policy the lookup returns. */
  lemma AnyMatchAgrees(vid: uint16, pid: uint16, i: nat)
    requires i < |Boards| && Matches(Boards[i], vid, pid)
    ensures Classify(vid, pid) == Classification(true, ActionPolicy(Boards[i].action))
  {
    IdsDetermineAction();
    var c := Classify(vid, pid);
    var k :| 0 <= k < |Boards| && Matches(Boards[k], vid, pid) && c.policy == ActionPolicy(Boards[k].action);
    assert Matches(Boards[i], Boards[k].vendorId, Boards[k].productId);
  }

  /** The two zero rows make (0, 0) a recognised Uno-style board. */
  lemma ZeroIdsMatchUno()
    ensures Classify(0, 0) == Classification(true, Policy(115200, 250))
  {
    BoardsLayout();
    AnyMatchAgrees(0, 0, 15);
  }

  /** Lookups of listed boards, one per family. */
  lemma KnownBoards()
    ensures Classify(0x2341, 0x0043) == Classification(true, ActionPolicy(Uno))
    ensures Classify(0x2341, 0x0036) == Classification(true, ActionPolicy(Leonardo))
    ensures Classify(0x2341, 0x0058) == Classification(true, ActionPolicy(NanoEvery))
    ensures Classify(0x2A03, 0x0042) == Classification(true, ActionPolicy(Mega))
  {
    BoardsLayout();
    AnyMatchAgrees(0x2341, 0x0043, 0);
    AnyMatchAgrees(0x2341, 0x0036, 10);
    AnyMatchAgrees(0x2341, 0x0058, 14);
    AnyMatchAgrees(0x2A03, 0x0042, 7);
  }

  /** A vendor ID outside the table falls back to the default policy and is
      reported as not recognised. */
  lemma UnknownVendor(vid: uint16, pid: uint16)
    requires vid !in {0, 0x2341, 0x2A03}
    ensures Classify(vid, pid) == Classification(false, DefaultPolicy)
  {
    BoardsLayout();
    assert forall i :: 0 <= i < |Boards| ==> Boards[i].vendorId in {0, 0x2341, 0x2A03};
  }

  /** Every policy the lookup can return has a pulse of at most 250 ms. */
  lemma PulseLengthsAtMost250(vid: uint16, pid: uint16)
    ensures Classify(vid, pid).policy.resetMsec <= 250
  {
    var c := Classify(vid, pid);
    if c.recognized {
      var i :| 0 <= i < |Boards| && c.policy == ActionPolicy(Boards[i].action);
      match Boards[i].action
      case Uno =>
      case Mega =>
      case Leonardo =>
      case NanoEvery =>
    }
  }
}
