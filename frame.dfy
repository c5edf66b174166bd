/** The frame value types of the library: an RGBW colour with a transition time. */
module Frames {
  import opened JavaText

  /** nanoleafapi.Frame: five ints fixed by the constructor, with no mutators. Each
      getter (getRed, getGreen, getBlue, getWhite, getTransitionTime) is the
      destructor of the same name. */
  datatype Frame = Frame(red: Int32, green: Int32, blue: Int32, white: Int32, transitionTime: Int32)

  /** What Frame.equals can be handed: null, a Frame, or an object of another class. */
  datatype Other = NullObject | FrameObject(frame: Frame) | OtherObject

  /** Frame.equals: true exactly for a Frame whose five fields are all equal. */
  function Equals(f: Frame, other: Other): (b: bool)
    ensures b <==> other == FrameObject(f)
    ensures other.NullObject? || other.OtherObject? ==> !b
  {
    match other
    case FrameObject(g) =>
      f.red == g.red && f.green == g.green && f.blue == g.blue &&
      f.white == g.white && f.transitionTime == g.transitionTime
    case _ => false
  }

  /** Frame.equals is reflexive and symmetric. */
  lemma EqualsReflexiveSymmetric(f: Frame, g: Frame)
    ensures Equals(f, FrameObject(f))
    ensures Equals(f, FrameObject(g)) == Equals(g, FrameObject(f))
  {
  }

  /** Effect.Animation.Frame: the same five values, but a class that does not override
      equals, so a list removes one of these only when handed the very same object. */
  class AnimFrame {
    const red: Int32
    const green: Int32
    const blue: Int32
    const white: Int32
    const transitionTime: Int32

    constructor(red: Int32, green: Int32, blue: Int32, white: Int32, transitionTime: Int32)
      ensures this.red == red && this.green == green && this.blue == blue
      ensures this.white == white && this.transitionTime == transitionTime
    {
      this.red := red;
      this.green := green;
      this.blue := blue;
      this.white := white;
      this.transitionTime := transitionTime;
    }

    /** The five values the frame carries. */
    function Value(): Frame
    {
      Frame(red, green, blue, white, transitionTime)
    }
  }
}
