# RotEncoder: a verified model of the quadrature decoder

This project models the core of the Arduino RotEncoder library. RotEncoder
decodes the two contacts (A and B) of a mechanical rotary encoder into a
signed position. It does this from a pin-change interrupt, and it keeps the
idle current low by driving a closed contact's pin low.

The model covers:

- the pin side (`Pins`): the `PullUp` / `DrivenLow` modes that `enPinX` and
  `diPinX` select, the electrical level a pin shows for a given contact state,
  and `rdPinX`, which reports "closed" on a low level;
- the debounce loop of `intr` (`Debounce.Settle`). It re-reads A and B until
  a second reading of both agrees with the first. It is modelled over a given
  finite sequence of the contact states that the successive pin reads see;
- the four-case state machine of `intr` as a pure step function
  (`Quadrature.Step`) over a debounced sample. `Quadrature.Run` folds it over
  sequences of samples. `Quadrature.ModesAfter` gives the pin modes an event
  leaves behind;
- a reference definition of the decoder in terms of the history of samples:
  the side of the last single-contact resolution, whether both contacts
  closed since then, and the step each sample grants
  (`LastSingle`, `LatchBefore`, `ArmedBefore`, `StepAt`, `Reference`). It is
  proved equal to the fold of `Step` for every sequence of samples;
- the `RotEncoder` class, whose fields `position`, `cntflg`, `lrflg`, `inA`,
  `inB` and pin modes its methods update in place. `Intr` is proved against
  `Settle`, `Step` and `ModesAfter`;
- the static `intHandle`, modelled as a `Registry` object holding
  `handle: RotEncoder?`. `Begin`, `End`, the destructor (`Destroy` as written,
  `DestroyIntended` as intended; see "## Findings") and the
  static `Isr` dispatch act on it.

The direction of counting is the code's: A-only, then both, then B-only
decrements `position` (RotEncoder.cpp line 94), and B-only, then both, then
A-only increments it (line 87) (`TransitionDirection`, `DetentTraces`).

`lrflg` has no initializer (RotEncoder.h line 74), and the constructors leave
it arbitrary. No lemma fixes the initial latch except the jitter lemmas,
which come as a pair, one for each value; the detent-trace lemmas start
unarmed, as a fresh instance does, with either latch.

## Model

| member | source | states |
|---|---|---|
| Pins.ReadThroughMode | src/RotEncoder.h:56-63 | A pulled-up pin's read reports its contact (closed exactly when the level is low); a driven-low pin reads closed whatever the contact does |
| Quadrature.StepCases | src/RotEncoder.cpp:82-99 | Both closed sets `cntflg` and keeps `position` and `lrflg`; neither closed changes nothing; A-only gives `lrflg` true, `cntflg` false, and `position` + 1 exactly when `!lrflg && cntflg`, else unchanged; B-only gives `lrflg` false, `cntflg` false, and `position` - 1 exactly when `lrflg && cntflg`, else unchanged |
| Quadrature.StepMovesAtMostOne | src/RotEncoder.cpp:82-99 | Each event moves `position` by at most one, and only on a single-contact sample while armed |
| Quadrature.StaticCurrent | src/RotEncoder.cpp:76-93 | After an event current flows through a pull-up if and only if both contacts are closed; a pin is driven low only while its contact is closed |
| Quadrature.RunAppend | src/RotEncoder.cpp:82-99 | Handling two sample sequences one after the other equals handling their concatenation |
| Quadrature.CountsBoundedByBoth | src/RotEncoder.cpp:82-99 | Over any sample sequence, the position moves by at most the number of both-closed samples, plus one if the machine started armed |
| Quadrature.BounceNeverCounts | src/RotEncoder.cpp:82-99 | Samples that never resolve to a single contact (common-terminal bounce) never move the position or the side latch |
| Quadrature.JitterOnANeverCounts | src/RotEncoder.cpp:85-96 | With the latch on side A, any sequence without a B-only sample leaves the position unchanged and the latch on A |
| Quadrature.JitterOnBNeverCounts | src/RotEncoder.cpp:85-96 | With the latch on side B, any sequence without an A-only sample leaves the position unchanged and the latch on B |
| Quadrature.TransitionDirection | src/RotEncoder.cpp:85-96 | From any state, A-only, both, B-only ends one below the first resolution; B-only, both, A-only ends one above it; A-only, both, A-only and B-only, both, B-only add nothing |
| Quadrature.DetentTraces | src/RotEncoder.cpp:82-99 | From an unarmed state with either latch: open, A, both, B, open gives position - 1; open, B, both, A, open gives + 1; open, A, both, A, open gives no change; open, both, open, both, open gives no change and keeps the latch; each with the full final state |
| Quadrature.RepeatedCycles | src/RotEncoder.cpp:82-99 | n full cycles in one direction from an unarmed state move the position by exactly n |
| Quadrature.LastSingle | src/RotEncoder.cpp:85-96 | The index returned is the last single-contact sample before i (or -1): it is one, and no later sample before i is |
| Quadrature.RunMatchesReference | src/RotEncoder.cpp:82-99 | After every prefix of any sample sequence, the machine's state equals the reference: position is the initial one plus the steps granted (an armed resolution to the side opposite the last one); `cntflg` is "both closed since the last resolution"; `lrflg` is the side of the last resolution |
| Quadrature.RunIsReference | src/RotEncoder.cpp:82-99 | The same for the whole sequence: only full transitions count |
| Debounce.SettleConfirmed | src/RotEncoder.cpp:77-79 | The loop never yields an unconfirmed read: the pair it yields is the last A, B reading and equals the immediately following re-read of both |
| Debounce.SettleSteady | src/RotEncoder.cpp:77-79 | A pass whose re-reads agree is accepted at once, after four reads |
| Encoder.Registry.constructor | src/RotEncoder.cpp:30 | `intHandle` starts null, with no interrupt attached |
| Encoder.RotEncoder.constructor | src/RotEncoder.h:72-74 | A fresh instance is on pins 2 and 3 with `position` 0 and `cntflg` false; `lrflg` is unspecified |
| Encoder.RotEncoder.WithPins | src/RotEncoder.h:85-86 | `RotEncoderPins<PinA, PinB>` uses its template pins, with the same initial state |
| Encoder.RotEncoder.EnPinA | src/RotEncoder.h:58 | Pin A becomes pulled-up input; nothing else changes |
| Encoder.RotEncoder.EnPinB | src/RotEncoder.h:59 | Pin B becomes pulled-up input; nothing else changes |
| Encoder.RotEncoder.DiPinA | src/RotEncoder.h:62 | Pin A becomes output driven low; nothing else changes |
| Encoder.RotEncoder.DiPinB | src/RotEncoder.h:63 | Pin B becomes output driven low; nothing else changes |
| Encoder.RotEncoder.GetPosition | src/RotEncoder.cpp:66-72 | Returns the current `position` and changes nothing |
| Encoder.RotEncoder.Intr | src/RotEncoder.cpp:74-101 | Re-enables both pull-ups, then stores in `inA`, `inB` the pair the debounce loop confirms (equal to the re-read that follows it); the new `position`, `cntflg`, `lrflg` are `Step` of the old ones on that pair, and the pin modes are `ModesAfter` it |
| Encoder.RotEncoder.Isr | src/RotEncoder.h:78 | With a null handle nothing changes; otherwise exactly the handle instance handles the event as `Intr` does, and the handle stays the same |
| Encoder.RotEncoder.Begin | src/RotEncoder.cpp:33-48 | Succeeds exactly when no instance holds the handle (this one included); then the handle is this instance, both pins are pulled up and both interrupts attached; on failure nothing changes |
| Encoder.RotEncoder.End | src/RotEncoder.cpp:50-64 | Succeeds exactly when this instance holds the handle; then the handle is null and both interrupts detached; on failure nothing changes |
| Encoder.RotEncoder.EndOn | src/RotEncoder.cpp:50-64 | `end` with its pin accessors resolved to a given pair: succeeds exactly when this instance holds the handle, then clears it and detaches that pair; on failure nothing changes |
| Encoder.RotEncoder.Destroy | src/RotEncoder.h:69 | The destructor as written: destroying the active instance clears the handle and detaches the default pins 2 and 3 (the base-class accessors); destroying any other changes nothing |
| Encoder.RotEncoder.DestroyIntended | src/RotEncoder.h:69 | The destructor as intended: destroying the active instance clears the handle and detaches its own pins; destroying any other changes nothing |
| Encoder.TemplateDestroyLeaks | src/RotEncoder.h:69 | Beginning and then destroying a `RotEncoderPins<5, 6>` leaves the handle null but pins 5 and 6 still attached |
| Encoder.TemplateDestroyIntended | src/RotEncoder.h:69 | With the intended destructor the same sequence leaves nothing attached |
| Encoder.BeginTwice | src/RotEncoder.cpp:33-48 | `begin` twice gives true then false, and the handle stays this instance |
| Encoder.EndTwice | src/RotEncoder.cpp:50-64 | `end` twice on the active instance gives true then false, and the handle ends null |
| Encoder.TwoInstances | src/RotEncoder.cpp:35-57 | With two instances, the second's `begin` (and `end`) fails while the first is active, and its `begin` succeeds after the first calls `end` |

## Left out

- `position` is an unbounded integer. The source's `long` is 32 bits on AVR, and its `position++` / `position--` at the ends of that range is undefined behaviour in C++; the model does not represent that width.
- `cli()` / `sei()`, `ATOMIC_BLOCK` and `volatile`: each handler call and each `getPosition` is treated as atomic, so the torn-read question of `getPosition` is not modelled.
- `pinMode`, `digitalWrite`, `digitalRead`, `attachInterrupt`, `detachInterrupt`, `digitalPinToInterrupt` are platform calls. Pins are modelled as a mode per pin, a read as a function of mode and contact state, and attach/detach as the ghost set `Registry.attached`.
- Encoder.RotEncoder.Intr: the source spins until the pins settle, without bound. The model takes the contact states of a finite sequence of reads and requires a confirmed pass among them; what happens on hardware that never settles is not modelled, and no retry cap is added.
- The electrical level of a pin driven low is not fed back into later reads within an event, because both pins are pulled up before the first read.
- Virtual dispatch, `always_inline` and the template mechanics of `RotEncoderPins` are modelled by the pin numbers they give (two constructors) and, in the destructor, by the base-class pins its call to `end` resolves to (`EndOn` with the default pins).
- `getPinA` / `getPinB` are the `pinA` / `pinB` constants of the class.

## Findings

| source | as written | input that shows it | evidently intended | confidence | as-written member | corrected member |
|---|---|---|---|---|---|---|
| src/RotEncoder.h:69 | `~RotEncoder` calls `end()`; during the base-class destructor the virtual `getPinA()`/`getPinB()` resolve to the base class, so `end` detaches pins 2 and 3 | a `RotEncoderPins<5, 6>` that called `begin` and is then destroyed: pins 5 and 6 stay attached (and pins 2 and 3, possibly another user's, are detached) | detach the pins the instance attached | medium, not executed | Encoder.TemplateDestroyLeaks | Encoder.TemplateDestroyIntended |
