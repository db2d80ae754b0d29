/** Values shared by the workspace, the staging zone and the rulers: optional
    values, the JavaScript `||` fallback the components apply to numbers and
    colours, and the record every shape is saved as. */
module Snapshot {

  datatype Option<+T> = None | Some(value: T)

  /** `v || d` on a number: a missing value, NaN (both `None`) and `0` fall
      back to `d`; any other number is kept. */
  function NumberOr(v: Option<real>, d: real): (r: real)
    ensures v.Some? && v.value != 0.0 ==> r == v.value
    ensures r == d || v == Some(r)
    ensures d != 0.0 ==> r != 0.0
  {
    if v.Some? && v.value != 0.0 then v.value else d
  }

  /** A colour attribute is only written when the saved colour is truthy,
      that is present and not the empty string. */
  predicate Truthy(c: Option<string>)
  {
    c.Some? && c.value != ""
  }

  /** The colour attribute a restored or dropped shape ends up with:
      `getAttribute("color")` later yields the colour if it was written and
      null (`None`) otherwise. */
  function KeptColor(c: Option<string>): (r: Option<string>)
    ensures Truthy(c) ==> r == c
    ensures !Truthy(c) ==> r == None
    ensures r == None || Truthy(r)
  {
    if Truthy(c) then c else None
  }

  /** One entry of a saved shape list. The workspace writes `left`/`top`
      (the shape's CSS position, `None` when no position is set) and
      `buffer: false`; the staging zone writes no position and `buffer: true`.
      A missing `buffer` field reads as `false`. */
  datatype SavedShape = SavedShape(
    points: string,
    color: Option<string>,
    left: Option<real>,
    top: Option<real>,
    buffer: bool)

  /** A saved viewport: the fields `scale`, `translateX` and `translateY`,
      each `None` when missing or not a number. */
  datatype SavedView = SavedView(
    scale: Option<real>,
    translateX: Option<real>,
    translateY: Option<real>)
}
