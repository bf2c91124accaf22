/**
 * The pinned forecasts the forecast page writes to the browser's localStorage
 * under 'pinnedForecasts' and the dashboard reads back
 * (CarbMine/frontend/src/pages/Predict.js, CarbMine/frontend/src/pages/Dashboard.js).
 */
module Pins {
  import opened Wrappers
  import opened Numbers
  import opened Series

  /** One year of a forecast as the backend returns it; a missing or non-numeric field is NaN once converted. */
  datatype Point = Point(year: JsNum, total: JsNum)

  /** A pinned forecast; an empty title stands for a missing `label`, an empty list for missing predictions. */
  datatype Pin = Pin(
    id: string, title: string, createdAt: int, predictions: seq<Point>,
    startYear: string, endYear: string, productionOverride: Option<string>, energyOverride: Option<string>)

  /**
   * What reading and parsing the stored entry gives: nothing (a missing or
   * empty entry), text that is not JSON, JSON that is not an array, or a list of pins.
   */
  datatype Slot = Empty | Malformed | NotAnArray | Pinned(items: seq<Pin>)

  /** The localStorage entry 'pinnedForecasts'. */
  class LocalStore {
    var slot: Slot

    constructor(initial: Slot)
      ensures slot == initial
    {
      slot := initial;
    }

    /** `localStorage.setItem(STORAGE_KEY, JSON.stringify(items))`. */
    method Save(items: seq<Pin>)
      modifies this
      ensures slot == Pinned(items)
    {
      slot := Pinned(items);
    }
  }

  /** `Number(x) || 0` over the totals of a prediction list. */
  function Totals(points: seq<Point>): (values: seq<real>)
    ensures |values| == |points|
    ensures forall i :: 0 <= i < |points| ==> values[i] == OrZero(points[i].total)
  {
    seq(|points|, i requires 0 <= i < |points| => OrZero(points[i].total))
  }
}
