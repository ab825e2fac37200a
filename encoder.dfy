/** RotEncoder (RotEncoder.h, RotEncoder.cpp): one encoder instance with its
    pins and counting state, and the process-wide interrupt handle. */
module Encoder {
  import opened Options
  import opened Pins
  import opened Quadrature
  import opened Debounce

  /** The static RotEncoder::intHandle: the instance the pin-change interrupt
      is routed to, or null. `attached` records the pins whose change
      interrupt is attached (attachInterrupt / detachInterrupt). */
  class Registry {
    var handle: RotEncoder?
    ghost var attached: set<PinId>

    /** intHandle starts null, before any instance exists. */
    constructor ()
      ensures handle == null && attached == {}
    {
      handle := null;
      attached := {};
    }
  }

  class RotEncoder {
    const pinA: PinId
    const pinB: PinId

    var position: int
    var cntflg: bool
    var lrflg: bool
    var inA: bool
    var inB: bool

    /** The modes of the two pins, as pinMode last set them. */
    var modeA: Mode
    var modeB: Mode

    /** A RotEncoder on the default pins. `lrflg` has no initializer in the
        source, so nothing is promised about it. */
    constructor ()
      ensures pinA == DefaultPinA && pinB == DefaultPinB
      ensures position == 0 && !cntflg
    {
      pinA, pinB := DefaultPinA, DefaultPinB;
      position, cntflg := 0, false;
    }

    /** RotEncoderPins<PinA, PinB>: the same encoder on the given pins. */
    constructor WithPins(a: PinId, b: PinId)
      ensures pinA == a && pinB == b
      ensures position == 0 && !cntflg
    {
      pinA, pinB := a, b;
      position, cntflg := 0, false;
    }

    function State(): Decoder
      reads this
    {
      Decoder(position, cntflg, lrflg)
    }

    function Modes(): PinModes
      reads this
    {
      PinModes(modeA, modeB)
    }

    /** rdPinA: what reading pin A reports when its contact is as given. */
    predicate RdPinA(contactClosed: bool)
      reads this
    {
      RdPin(LevelOf(modeA, contactClosed))
    }

    predicate RdPinB(contactClosed: bool)
      reads this
    {
      RdPin(LevelOf(modeB, contactClosed))
    }

    method EnPinA()
      modifies this`modeA
      ensures modeA == PullUp
    {
      modeA := PullUp;
    }

    method EnPinB()
      modifies this`modeB
      ensures modeB == PullUp
    {
      modeB := PullUp;
    }

    method DiPinA()
      modifies this`modeA
      ensures modeA == DrivenLow
    {
      modeA := DrivenLow;
    }

    method DiPinB()
      modifies this`modeB
      ensures modeB == DrivenLow
    {
      modeB := DrivenLow;
    }

    /** getPosition: the current count; changes nothing. */
    method GetPosition() returns (pos: int)
      ensures pos == position
    {
      pos := position;
    }

    /** intr: one pin-change event. `contacts[n]` is the state of the contact
        that the n-th pin read of the event sees; the event's reads must
        include a confirmed pass (the source would otherwise keep reading). */
    method Intr(contacts: seq<bool>)
      requires Settle(contacts, 0).Some?
      modifies this`position, this`cntflg, this`lrflg, this`inA, this`inB, this`modeA, this`modeB
      ensures Sample(inA, inB) == Settle(contacts, 0).value.sample
      ensures var n := Settle(contacts, 0).value.used;
        4 <= n <= |contacts| && contacts[n - 2] == inA && contacts[n - 1] == inB
      ensures State() == Step(old(State()), Sample(inA, inB))
      ensures Modes() == ModesAfter(Sample(inA, inB))
    {
      EnPinA(); EnPinB();
      var k := 0;
      var stable := false;
      while !stable
        invariant k <= |contacts|
        invariant modeA == PullUp && modeB == PullUp
        invariant State() == old(State())
        invariant !stable ==> Settle(contacts, k) == Settle(contacts, 0)
        invariant stable ==> Settle(contacts, 0) == Some(Settled(Sample(inA, inB), k))
        decreases |contacts| - k
      {
        inA := RdPinA(contacts[k]); inB := RdPinB(contacts[k + 1]);
        if inA != RdPinA(contacts[k + 2]) {
          k := k + 3;
        } else if inB != RdPinB(contacts[k + 3]) {
          k := k + 4;
        } else {
          k := k + 4;
          stable := true;
        }
      }
      SettleConfirmed(contacts, 0);

      if inA {
        if inB {
          cntflg := true;
        } else {
          DiPinA();
          if !lrflg && cntflg { position := position + 1; }
          lrflg := true;
          cntflg := false;
        }
      } else {
        if inB {
          DiPinB();
          if lrflg && cntflg { position := position - 1; }
          lrflg := false;
          cntflg := false;
        }
      }
    }

    /** isr: runs intr on the active instance, or does nothing when there is none. */
    static method Isr(reg: Registry, contacts: seq<bool>)
      requires reg.handle != null ==> Settle(contacts, 0).Some?
      modifies reg.handle
      ensures reg.handle == old(reg.handle)
      ensures reg.handle != null ==>
        var e := reg.handle;
        Sample(e.inA, e.inB) == Settle(contacts, 0).value.sample &&
        e.State() == Step(old(e.State()), Sample(e.inA, e.inB)) &&
        e.Modes() == ModesAfter(Sample(e.inA, e.inB))
    {
      if reg.handle != null {
        reg.handle.Intr(contacts);
      }
    }

    /** begin: only when no instance holds the handle, take it, enable both
        pull-ups and attach both pin-change interrupts. */
    method Begin(reg: Registry) returns (ok: bool)
      modifies reg, this`modeA, this`modeB
      ensures ok <==> old(reg.handle) == null
      ensures ok ==> reg.handle == this && Modes() == PinModes(PullUp, PullUp) &&
                     reg.attached == old(reg.attached) + {pinA, pinB}
      ensures !ok ==> unchanged(reg) && unchanged(this)
    {
      if reg.handle == null {
        reg.handle := this;
        EnPinA();
        EnPinB();
        reg.attached := reg.attached + {pinA, pinB};
        return true;
      }
      return false;
    }

    /** end: only when this instance holds the handle, clear it and detach
        both pin-change interrupts. */
    method End(reg: Registry) returns (ok: bool)
      modifies reg
      ensures ok <==> old(reg.handle) == this
      ensures ok ==> reg.handle == null && reg.attached == old(reg.attached) - {pinA, pinB}
      ensures !ok ==> unchanged(reg)
    {
      ok := EndOn(reg, pinA, pinB);
    }

    /** The body of end, with getPinA() and getPinB() resolved to a and b:
        the instance's own pins when called on the object, the base-class
        defaults when called from the RotEncoder destructor. */
    method EndOn(reg: Registry, a: PinId, b: PinId) returns (ok: bool)
      modifies reg
      ensures ok <==> old(reg.handle) == this
      ensures ok ==> reg.handle == null && reg.attached == old(reg.attached) - {a, b}
      ensures !ok ==> unchanged(reg)
    {
      if reg.handle == this {
        reg.handle := null;
        reg.attached := reg.attached - {a, b};
        return true;
      }
      return false;
    }

    /** The destructor as written: `~RotEncoder` calls end, and inside a
        base-class destructor the virtual getPinA()/getPinB() resolve to the
        base class, so the pins detached are the defaults 2 and 3, whatever
        pins a RotEncoderPins instance attached. */
    method Destroy(reg: Registry)
      modifies reg
      ensures old(reg.handle) == this ==>
        reg.handle == null && reg.attached == old(reg.attached) - {DefaultPinA, DefaultPinB}
      ensures old(reg.handle) != this ==> unchanged(reg)
    {
      var stopped := EndOn(reg, DefaultPinA, DefaultPinB);
    }

    /** The destructor as evidently intended: end on the instance's own pins. */
    method DestroyIntended(reg: Registry)
      modifies reg
      ensures old(reg.handle) == this ==>
        reg.handle == null && reg.attached == old(reg.attached) - {pinA, pinB}
      ensures old(reg.handle) != this ==> unchanged(reg)
    {
      var stopped := End(reg);
    }
  }

  /** Destroying an active RotEncoderPins<5, 6> as written clears the handle
      but leaves the interrupts of pins 5 and 6 attached. */
  method TemplateDestroyLeaks() returns (reg: Registry, e: RotEncoder)
    ensures reg.handle == null && reg.attached == {5, 6}
  {
    reg := new Registry();
    e := new RotEncoder.WithPins(5, 6);
    var started := e.Begin(reg);
    e.Destroy(reg);
  }

  /** With the intended destructor, nothing stays attached. */
  method TemplateDestroyIntended() returns (reg: Registry, e: RotEncoder)
    ensures reg.handle == null && reg.attached == {}
  {
    reg := new Registry();
    e := new RotEncoder.WithPins(5, 6);
    var started := e.Begin(reg);
    e.DestroyIntended(reg);
  }

  /** begin twice: success, then failure with the handle still this instance. */
  method BeginTwice(reg: Registry, e: RotEncoder) returns (first: bool, second: bool)
    requires reg.handle == null
    modifies reg, e`modeA, e`modeB
    ensures first && !second && reg.handle == e
  {
    first := e.Begin(reg);
    second := e.Begin(reg);
  }

  /** end twice: success, then a harmless failure. */
  method EndTwice(reg: Registry, e: RotEncoder) returns (first: bool, second: bool)
    requires reg.handle == e
    modifies reg
    ensures first && !second && reg.handle == null
  {
    first := e.End(reg);
    second := e.End(reg);
  }

  /** Two instances: the second cannot begin while the first is active, nor
      end it; once the first ends, the second begins. */
  method TwoInstances(reg: Registry, e1: RotEncoder, e2: RotEncoder)
    returns (begin1: bool, begin2: bool, end2: bool, end1: bool, retry2: bool)
    requires reg.handle == null && e1 != e2
    modifies reg, e1`modeA, e1`modeB, e2`modeA, e2`modeB
    ensures begin1 && !begin2 && !end2 && end1 && retry2
    ensures reg.handle == e2
  {
    begin1 := e1.Begin(reg);
    begin2 := e2.Begin(reg);
    end2 := e2.End(reg);
    end1 := e1.End(reg);
    retry2 := e2.Begin(reg);
  }
}
