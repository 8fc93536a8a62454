# Arduino board detection and reset for a USB CDC ACM host driver — Dafny model

The driver specialises a generic USB CDC ACM (virtual serial port) host
class for Arduino boards. It does two things beyond USB plumbing:

* **Board catalog.** It looks up the device's (vendor ID, product ID) in a
  fixed table copied from the Arduino IDE's `boards.txt`. The lookup yields
  a reset policy: the baud rate to open the port at, and the length of a
  DTR/RTS low pulse. A pulse length of 0 means "1200 bps touch" instead of
  a pulse. An unlisted device gets the Uno policy (115200 baud, 250 ms) and
  is reported as not recognised.
* **Reset sequencer.** It drives the two CDC PSTN requests.
  SET_CONTROL_LINE_STATE is section 6.3.12 of the USB CDC PSTN Subclass 1.2
  specification; bit 0 is DTR and bit 1 is RTS. SET_LINE_CODING is section
  6.3.10. Two reset protocols use them:
  - Protocol A, the DTR/RTS pulse: lines low, wait, lines high.
  - Protocol B, the 1200 bps touch: lines high, reopen at 1200 bps 8-N-1,
    DTR low, RTS low, with a 4 ms wait between steps.

  The dispatcher `reset_target` runs Protocol A for a nonzero pulse length.
  For a zero pulse length it does nothing, because the touch call is
  commented out. At the end of device initialisation the driver does four
  things in order. It looks the board up by its own IDs. It raises DTR and
  RTS if the board resets by a pulse. It sets the line coding to the
  board's rate, 8-N-1. It calls the owner's callback. The result of the
  lookup is discarded. The device is marked ready only if the three calls
  (raising the lines when issued, setting the line coding, and the
  callback) all return 0.

The model is functional. The C++ class's added fields form an immutable
`Session`. Each routine is a pure function. It takes a transport-result
oracle, `o(n, op)`: the return code of the n-th call of the routine,
numbered from 0. It returns an `Outcome`: the return code and the trace of
operations performed (`SetLines`, `SetCoding`, `Delay`, `OnInit`). Each
routine is written the way the C++ performs it, one request at a time.
Each is then proved equal, for every oracle, to a *recipe* (the intended
list of steps) run by `Sequencer.Execute`. `Execute` is a reference
semantics with abort-on-first-failure proved once for all recipes.

Modules: `Ints` (fixed-width integers), `Pstn` (control-line bitmap, line
coding), `Sequencer` (trace, oracle, runner, recipes), `Catalog` (the
header's tables and the lookup), `Ard` (the class's routines), `Scenarios`
(whole-device consequences).

### Two behaviours of the code worth knowing

Both refine the summary of the catalog and the dispatcher given above.

* The table is declared with 17 rows but its initialiser lists only 15.
  C aggregate initialisation fills rows 15 and 16 with zeros: vendor 0,
  product 0, and tag 0, which is the Uno tag. The scan visits all 17 rows.
  So a device reporting (0, 0) is *recognised* as an Uno-style board
  (`Catalog.ZeroIdsMatchUno`). A description that says every pair absent
  from the listed boards falls back as "unrecognised" is therefore not
  exact for (0, 0). The policy is the same either way.
* `reset_target` is declared to return `bool` but has no `return`
  statement. In C++, flowing off the end of a non-void function is
  undefined behaviour for the whole call, not only for its value. The
  model gives it no result and states only the steps it performs,
  assuming the compiled function performs its body and returns normally.
  The code `reset_dtr_rts` returns is discarded there.

## Model

| member | source | states |
|---|---|---|
| Ints.UnsignedLong | src/cdcarduino.cpp:38-48 | the `int` pulse length passed to `delay` is converted modulo 2^32, and is unchanged when nonnegative |
| Ints.WidenToInt | src/cdcarduino.cpp:105-106 | with a 32-bit C `int`, the stored 16-bit pulse length is nonnegative as an `int` and reaches `delay` unchanged after the further `unsigned long` conversion |
| Ints.NarrowToInt16 | src/cdcarduino.cpp:105-106 | with a 16-bit C `int`, the conversion is congruent modulo 2^16, and keeps the value exactly when it is below 0x8000 |
| Pstn.ControlLines | src/cdcarduino.cpp:42-51 | the bitmap written for given DTR/RTS levels decodes back to those levels (bit 0 DTR, bit 1 RTS) and is below 4 |
| Pstn.ControlLinesRoundTrip | src/cdcarduino.cpp:86-95 | every two-bit bitmap the driver writes is the encoding of its own decoded levels |
| Pstn.NamedBitmaps | src/cdcarduino.cpp:63-95 | the literals 0, 2 and 3 are "both low", "RTS only" and "both high" |
| Pstn.EightNOne | src/cdcarduino.cpp:71-76 | the coding the driver sends is a valid line coding at the given rate with 8 data bits, no parity, 1 stop bit |
| Sequencer.Execute | src/cdcarduino.cpp:59-101 | running a step list yields a prefix of it; return code 0 exactly when every call succeeds, and then the whole list; otherwise the trace ends at the first failing call and returns its code |
| Catalog.Ordinal | src/cdcarduino.h:58-59 | every enum tag is a valid index into the 4-entry policy table |
| Catalog.ProtocolOf | src/cdcarduino.h:52-55 | a zero pulse length means the 1200 bps touch, a nonzero one a pulse of that length |
| Catalog.PulseLengthsAtMost250 | src/cdcarduino.cpp:113-125 | every policy the lookup can store, default included, has a pulse length of at most 250 ms |
| Catalog.PolicyTable | src/cdcarduino.h:59-64 | Uno (115200, 250), Mega (115200, 50), Leonardo (57600, 0), Nano Every (115200, 0), and which protocol each needs; the default equals Uno's policy |
| Catalog.TagsAreValidIndices | src/cdcarduino.h:58-93 | every tag in the 17-row table, zero rows included, indexes the policy table |
| Catalog.ZeroFill | src/cdcarduino.h:74-93 | aggregate initialisation: the listed rows come first, unlisted rows are {0, 0, BA_UNO}, and the length is the declared size |
| Catalog.BoardsLayout | src/cdcarduino.h:74-93 | the scanned table is the 15 listed rows followed by two zero rows |
| Catalog.FirstMatchFrom | src/cdcarduino.cpp:115-121 | the returned index holds a row with both IDs equal and no earlier row does; no index means no row matches |
| Catalog.Classify | src/cdcarduino.cpp:113-125 | recognised exactly when some row matches; then the policy of the first matching row's tag; otherwise (115200, 250) |
| Catalog.IdsDetermineAction | src/cdcarduino.h:75-92 | no (vid, pid) pair occurs in the table with two different tags |
| Catalog.AnyMatchAgrees | src/cdcarduino.cpp:115-120 | any matching row, not only the first, carries the policy the lookup returns |
| Catalog.ZeroIdsMatchUno | src/cdcarduino.h:74-93 | lookup of (0, 0) succeeds with (115200, 250) |
| Catalog.KnownBoards | src/cdcarduino.h:75-92 | (0x2341,0x0043) is Uno, (0x2341,0x0036) Leonardo, (0x2341,0x0058) Nano Every, (0x2A03,0x0042) Mega |
| Catalog.UnknownVendor | src/cdcarduino.cpp:122-124 | an unlisted vendor is not recognised and gets 115200 baud, 250 ms |
| Ard.NewSession | src/cdcarduino.cpp:33-36 | a new device has IDs 0, rate 0 and pulse length 0 (so its policy reads as the touch) |
| Ard.AccessorsReturnStoredIds | src/cdcarduino.h:40-41 | `idVendor`/`idProduct` return exactly the stored IDs |
| Ard.ApplyTarget | src/cdcarduino.cpp:113-125 | the scan reports recognition, stores the looked-up policy and leaves the stored IDs alone |
| Ard.FindTarget | src/cdcarduino.cpp:113-125 | the loop returns true exactly when a row matches, then storing the first matching row's policy; otherwise false with 115200 and 250; only the target fields change |
| Ard.ResetDtrRts | src/cdcarduino.cpp:38-57 | on success the trace is [lines 0, delay, lines 3] and the code is 0; if the first write fails its code is returned and neither the delay nor the second write happens; if only the second fails, its code is returned after the full trace |
| Ard.ResetDtrRtsFollowsPulse | src/cdcarduino.cpp:38-57 | the routine is Protocol A run with abort-on-first-failure, for every transport |
| Ard.ResetTouch1200bps | src/cdcarduino.cpp:59-101 | code 0 exactly when all four requests return 0, and then the trace is [lines 3, 4 ms, 1200 8-N-1, 4 ms, lines 2, 4 ms, lines 0]; every trace is a prefix of that list ending right after a request |
| Ard.ResetTouchFollowsTouch1200 | src/cdcarduino.cpp:59-101 | the routine is Protocol B run with abort-on-first-failure, for every transport |
| Ard.ResetTarget | src/cdcarduino.cpp:103-111 | zero pulse length: no operation; otherwise the first write alone or the whole pulse with the stored length; never a line-coding change |
| Ard.ResetTargetFollowsPulse | src/cdcarduino.cpp:103-107 | with a nonzero pulse length the dispatcher performs exactly `reset_dtr_rts` of the stored length |
| Ard.ProtocolGovernsReset | src/cdcarduino.cpp:103-111 | a policy read as the touch gets no reset and no line raised at bring-up; a policy read as a pulse gets Protocol A of that length and DTR/RTS raised at bring-up |
| Ard.StoredPulseFitsInt | src/cdcarduino.cpp:105-106 | the pulse length held after bring-up is at most 250 ms, so it reaches `delay` unchanged whether C `int` has 16 or 32 bits |
| Ard.IssueBringup | src/cdcarduino.cpp:270-284 | "lines 3" is issued exactly when the pulse length is nonzero, and its failure ends the sequence with its code; on success the coding at the stored rate was set and the callback came last |
| Ard.IssueBringupFollowsRecipe | src/cdcarduino.cpp:270-284 | the bring-up requests are the recipe [lines 3 if pulse] + [coding 8-N-1 at rate, callback] run with abort-on-first-failure, for every transport |
| Ard.InitTail | src/cdcarduino.cpp:267-289 | the board is looked up by its own IDs; "lines 3" is issued exactly when the pulse length is nonzero; ready exactly when the code is 0, and then the line coding at the board's rate was set and the callback came last |
| Ard.InitTailFollowsBringup | src/cdcarduino.cpp:267-289 | bring-up runs that recipe for the policy looked up by the device's own IDs, and the device is ready exactly when every step of it succeeds |
| Scenarios.FindTargetDependsOnlyOnIds | src/cdcarduino.cpp:113-125 | the lookup result depends only on (vid, pid), and nothing but the target fields is written |
| Scenarios.TouchAbortsAtFirstFailure | src/cdcarduino.cpp:64-99 | a failing touch step returns its code, all earlier steps succeeded, and the trace ends at it |
| Scenarios.UnoBringupAndReset | src/cdcarduino.cpp:267-289 | an Uno is brought up at 115200 with lines raised, and its reset is lines 0, 250 ms, lines 3 |
| Scenarios.LeonardoBringupAndReset | src/cdcarduino.cpp:103-111 | a Leonardo is brought up at 57600 without raising lines, and its reset does nothing |
| Scenarios.UnknownBoardBringup | src/cdcarduino.cpp:122-124 | an unknown board is reported as not recognised, yet becomes ready after Uno-style bring-up, and its reset is the 250 ms pulse |
| Scenarios.ZeroIdsBringup | src/cdcarduino.h:74-93 | a device reporting (0, 0) gets the Uno policy and the 250 ms pulse |
| Scenarios.CodingFailureStopsBringup | src/cdcarduino.cpp:280-284 | a failing SET_LINE_CODING leaves the device not ready, returns a nonzero code, and the callback is never called |

## Left out

- USB enumeration in `Init` (src/cdcarduino.cpp:127-265): address pool, descriptor fetches, address and endpoint setup, configuration parsing and selection. These are calls into a USB host library that is not part of this model. Only the copying of the two IDs out of the device descriptor is kept, as `Ard.StoreDescriptorIds`.
- `Release()` on the failure path of `Init`, the conditional diagnostic chain, and all trace and error-message output. These are resource plumbing and debugging output; the model keeps only the return code and `ready`.
- Real time: `delay()` is a `Delay(ms)` event in the trace.
- The internals of `SetControlLineState`, `SetLineCoding` and the owner's `OnInit` callback, including the wire encoding of the requests. Their return codes come from the oracle.
- Ard.ResetTarget: its `bool` result is not modelled, because the C++ function has no `return` statement. Flowing off its end is undefined behaviour for the call. The stated trace assumes the compiled function performs its body and returns normally.
- Ints.WidenToInt: assumes a 32-bit C `int`. On AVR targets `int` has 16 bits, and a stored length of 32768 or more would turn negative (`Ints.NarrowToInt16`). No policy the lookup stores exceeds 250 ms (`Ard.StoredPulseFitsInt`), so the two widths agree for every session bring-up produces. A session built by other means with a larger length is not covered on 16-bit targets.
- Ints.UnsignedLong: assumes a 32-bit `unsigned long`, as on the AVR and 32-bit Arduino targets; a host with a 64-bit `unsigned long` would wrap negative values differently.
