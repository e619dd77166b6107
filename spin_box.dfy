/**
  The integer input boxes (`QSpinBox`) that feed counts and lengths to the
  generators. Only the part of Qt's documented behaviour the windows rely on
  is modelled: a range and a current value that is always kept inside it.
*/
module SpinBoxes {
  datatype SpinBox = SpinBox(minimum: int, maximum: int, value: int) {
    predicate Valid() {
      minimum <= value <= maximum
    }

    /** `setValue(v)`: the value is bounded to the range. */
    function SetValue(v: int): (b: SpinBox)
      requires Valid()
      ensures b.Valid() && b.minimum == minimum && b.maximum == maximum
      ensures minimum <= v <= maximum ==> b.value == v
      ensures v < minimum ==> b.value == minimum
      ensures v > maximum ==> b.value == maximum
    {
      SpinBox(minimum, maximum, if v < minimum then minimum else if v > maximum then maximum else v)
    }

    /**
      `setRange(lo, hi)`: when `hi < lo`, `lo` becomes the only legal value;
      the current value is bounded to the new range.
    */
    function SetRange(lo: int, hi: int): (b: SpinBox)
      ensures b.Valid() && b.minimum == lo && b.maximum == (if hi < lo then lo else hi)
      ensures b.minimum <= value <= b.maximum ==> b.value == value
    {
      var top := if hi < lo then lo else hi;
      SpinBox(lo, top, if value < lo then lo else if value > top then top else value)
    }
  }

  /** A fresh `QSpinBox()`: range 0 to 99, value 0. */
  const Fresh: SpinBox := SpinBox(0, 99, 0)

  /** `setRange(lo, hi); setValue(v)` on a fresh box, as the windows build their inputs. */
  function Configured(lo: int, hi: int, v: int): (b: SpinBox)
    requires lo <= hi
    ensures b.Valid() && b.minimum == lo && b.maximum == hi
    ensures lo <= v <= hi ==> b.value == v
  {
    Fresh.SetRange(lo, hi).SetValue(v)
  }

  /** The box after the user enters each value of `typed` in turn. */
  function Typed(b: SpinBox, typed: seq<int>): SpinBox
    requires b.Valid()
    decreases |typed|
  {
    if |typed| == 0 then b else Typed(b.SetValue(typed[0]), typed[1..])
  }

  /** Whatever is typed into a box, its range stays as set up and its value stays inside it. */
  lemma {:induction false} TypedKeepsRange(b: SpinBox, typed: seq<int>)
    requires b.Valid()
    ensures Typed(b, typed).Valid()
    ensures Typed(b, typed).minimum == b.minimum && Typed(b, typed).maximum == b.maximum
    decreases |typed|
  {
    if |typed| > 0 {
      TypedKeepsRange(b.SetValue(typed[0]), typed[1..]);
    }
  }
}
