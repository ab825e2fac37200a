/** The pin side of RotEncoder (RotEncoder.h): pin numbers, the two modes a
    contact pin is switched between, and what reading a pin reports. */
module Pins {
  /** An Arduino pin number (`uint8_t`). */
  newtype PinId = x: int | 0 <= x < 256

  /** The pins RotEncoder uses unless RotEncoderPins<PinA, PinB> names others. */
  const DefaultPinA: PinId := 2
  const DefaultPinB: PinId := 3

  /** `INPUT_PULLUP` (enPinX: sensing) or `OUTPUT` written `LOW` (diPinX:
      no current through the pull-up resistor). */
  datatype Mode = PullUp | DrivenLow

  datatype Level = Low | High

  /** The electrical level of a pin whose contact to the common (ground)
      terminal is open or closed. The encoder only ever pulls a pin low, so a
      pulled-up pin is low exactly when its contact is closed, and a driven-low
      pin is low whatever its contact does. */
  function LevelOf(mode: Mode, contactClosed: bool): Level {
    match mode
    case PullUp => if contactClosed then Low else High
    case DrivenLow => Low
  }

  /** rdPinA / rdPinB: `!digitalRead(pin)`, "closed" when the level is low. */
  predicate RdPin(level: Level) {
    level == Low
  }

  /** A pulled-up pin reports its contact; a driven-low pin reports "closed"
      whatever the contact does, which is why every event re-enables both
      pull-ups before it samples. */
  lemma ReadThroughMode(contactClosed: bool)
    ensures RdPin(LevelOf(PullUp, contactClosed)) == contactClosed
    ensures RdPin(LevelOf(DrivenLow, contactClosed))
  {
  }
}
