/**
 * The dashboard (CarbMine/frontend/src/pages/Dashboard.js): the defensive load
 * of the pinned forecasts, removing a pin, the chart series built from the
 * pins, each pin's summary figures and the trend chart's time-range lookup.
 */
module Dashboard {
  import opened Wrappers
  import opened Text
  import opened Numbers
  import opened Series
  import opened Seqs
  import opened Pins

  /** `loadPinned`: anything but a stored array of pins reads as no pins. */
  function LoadPinned(slot: Slot): (pins: seq<Pin>)
    ensures slot.Pinned? ==> pins == slot.items
    ensures !slot.Pinned? ==> pins == []
  {
    if slot.Pinned? then slot.items else []
  }

  /** The pins other than those with the given id, in their order. */
  function WithoutId(pins: seq<Pin>, id: string): (kept: seq<Pin>)
    ensures |kept| <= |pins|
    ensures forall i :: 0 <= i < |kept| ==> kept[i].id != id && kept[i] in pins
  {
    Filter(pins, (p: Pin) => p.id != id)
  }

  /** Removing drops exactly the pins with that id and keeps the others in order. */
  lemma WithoutIdProperties(pins: seq<Pin>, id: string)
    ensures forall i :: 0 <= i < |WithoutId(pins, id)| ==> WithoutId(pins, id)[i].id != id
    ensures forall p :: p in pins && p.id != id ==> p in WithoutId(pins, id)
    ensures IsSubsequence(WithoutId(pins, id), pins)
    ensures (forall i :: 0 <= i < |pins| ==> pins[i].id != id) ==> WithoutId(pins, id) == pins
  {
    FilterIsSubsequence(pins, (p: Pin) => p.id != id);
    forall p | p in pins && p.id != id
      ensures p in WithoutId(pins, id)
    {
      FilterComplete(pins, (q: Pin) => q.id != id, p);
    }
    if forall i :: 0 <= i < |pins| ==> pins[i].id != id {
      FilterAll(pins, (q: Pin) => q.id != id);
    }
  }

  /** The dashboard's `pinned` state and the storage it persists to. */
  class DashboardPins {
    var pinned: seq<Pin>
    const store: LocalStore

    /** The state is initialised from storage. */
    constructor(store: LocalStore)
      ensures this.store == store && pinned == LoadPinned(store.slot)
    {
      this.store := store;
      pinned := LoadPinned(store.slot);
    }

    /** `removePin`: filter out the id, then replace the state and save it. */
    method RemovePin(id: string)
      modifies this, store
      ensures pinned == WithoutId(old(pinned), id)
      ensures store.slot == Pinned(pinned)
    {
      var next := WithoutId(pinned, id);
      pinned := next;
      store.Save(next);
    }
  }

  /** The seven line colours, cycled over the pins. */
  const COLOURS: seq<string> := ["#3B82F6", "#10B981", "#F59E0B", "#EF4444", "#8B5CF6", "#06B6D4", "#84CC16"]

  datatype Dataset = Dataset(caption: string, data: seq<JsNum>, borderColor: string)

  /** The line for the pin at position idx. */
  function DatasetOf(p: Pin, idx: nat): (d: Dataset)
    ensures d.borderColor == COLOURS[idx % 7]
    ensures p.title != "" ==> d.caption == p.title
    ensures p.title == "" ==> d.caption == "Forecast " + ShowNat(idx + 1)
    ensures |d.data| == |p.predictions| && forall i :: 0 <= i < |d.data| ==> d.data[i] == p.predictions[i].total
  {
    Dataset(if p.title != "" then p.title else "Forecast " + ShowNat(idx + 1),
            seq(|p.predictions|, i requires 0 <= i < |p.predictions| => p.predictions[i].total),
            COLOURS[idx % |COLOURS|])
  }

  /** `datasets`: one line per pin, in pin order. */
  function Datasets(pins: seq<Pin>): (ds: seq<Dataset>)
    ensures |ds| == |pins|
    ensures forall i :: 0 <= i < |pins| ==> ds[i] == DatasetOf(pins[i], i)
  {
    seq(|pins|, i requires 0 <= i < |pins| => DatasetOf(pins[i], i))
  }

  /** Unlabelled pins get distinct fallback labels. */
  lemma FallbackLabelsDistinct(pins: seq<Pin>, i: nat, j: nat)
    requires i < j < |pins| && pins[i].title == "" && pins[j].title == ""
    ensures Datasets(pins)[i].caption != Datasets(pins)[j].caption
  {
    var a := ShowNat(i + 1);
    var b := ShowNat(j + 1);
    assert Datasets(pins)[i].caption == "Forecast " + a;
    assert Datasets(pins)[j].caption == "Forecast " + b;
    if "Forecast " + a == "Forecast " + b {
      assert a == ("Forecast " + a)[9..];
      assert b == ("Forecast " + b)[9..];
      ShowNatInjective(i + 1, j + 1);
    }
  }

  /** `labels`: the first pin's years, or none without pins. */
  function Labels(pins: seq<Pin>): (ls: seq<JsNum>)
    ensures pins == [] ==> ls == []
    ensures pins != [] ==> |ls| == |pins[0].predictions|
                           && forall i :: 0 <= i < |ls| ==> ls[i] == pins[0].predictions[i].year
  {
    if pins == [] then []
    else seq(|pins[0].predictions|, i requires 0 <= i < |pins[0].predictions| => pins[0].predictions[i].year)
  }

  /** The figures shown on each pin's card. */
  datatype PinFigures = PinFigures(avg: real, min: real, max: real, first: real, last: real, pct: real)

  /** A pin's average, minimum, maximum and percent change; all 0 without predictions. */
  function PinStats(p: Pin): (f: PinFigures)
    ensures p.predictions == [] ==> f == PinFigures(0.0, 0.0, 0.0, 0.0, 0.0, 0.0)
    ensures p.predictions != [] ==>
              && f.min == Min(Totals(p.predictions))
              && f.max == Max(Totals(p.predictions))
              && f.avg == Mean(Totals(p.predictions))
    ensures p.predictions != [] ==>
              f.first == OrZero(p.predictions[0].total) && f.last == OrZero(p.predictions[|p.predictions| - 1].total)
    ensures p.predictions != [] ==> f.min <= f.avg <= f.max
    ensures forall i :: 0 <= i < |p.predictions| ==> f.min <= OrZero(p.predictions[i].total) <= f.max
    ensures f.first == 0.0 ==> f.pct == 0.0
    ensures f.pct == PctChange(f.first, f.last)
  {
    var values := Totals(p.predictions);
    if values == [] then PinFigures(0.0, 0.0, 0.0, 0.0, 0.0, 0.0)
    else
      MinMeanMax(values);
      PinFigures(Mean(values), Min(values), Max(values), values[0], values[|values| - 1],
                 PctChange(values[0], values[|values| - 1]))
  }

  datatype Trend = Trend(labels: seq<string>, data: seq<real>)

  const TRENDS: map<string, Trend> := map[
    "6m" := Trend(["Jan", "Feb", "Mar", "Apr", "May", "Jun"],
                  [12000.0, 11500.0, 11000.0, 10800.0, 10500.0, 10200.0]),
    "1y" := Trend(["Jan", "Feb", "Mar", "Apr", "May", "Jun", "Jul", "Aug", "Sep", "Oct", "Nov", "Dec"],
                  [12000.0, 11500.0, 11000.0, 10800.0, 10500.0, 10200.0,
                   10000.0, 9800.0, 9600.0, 9400.0, 9200.0, 9000.0]),
    "2y" := Trend(["2022", "2023"], [150000.0, 125000.0])]

  /** `dataByTimeRange[timeRange] || dataByTimeRange['6m']`. */
  function TrendFor(timeRange: string): (t: Trend)
    ensures timeRange in TRENDS ==> t == TRENDS[timeRange]
    ensures timeRange !in TRENDS ==> t == TRENDS["6m"]
    ensures |t.labels| == |t.data|
  {
    if timeRange in TRENDS then TRENDS[timeRange] else TRENDS["6m"]
  }
}
