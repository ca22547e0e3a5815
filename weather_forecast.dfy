/** The `WeatherForecast` component: which of the three-hourly forecast slots
    it shows, and when it shows nothing or the short-forecast notice. */
module WeatherForecast {
  import opened Js
  import opened Sequences

  /** What the component renders: nothing, the notice, one card per selected
      slot, or it throws while reading a slot. */
  datatype ForecastView = Hidden | NoDetailedForecast | Days(slots: seq<Value>) | TypeError

  /** Reading `item.dt` throws on these. */
  predicate IsNullish(v: Value) {
    v.Null? || v.Undefined?
  }

  /** How many indices below `j` are 4 modulo 8, counted one by one. */
  function SlotsBefore(j: nat): nat {
    if j == 0 then 0 else SlotsBefore(j - 1) + (if (j - 1) % 8 == 4 then 1 else 0)
  }

  /** The count has the closed form `(j + 3) / 8`. */
  lemma {:induction false} SlotsBeforeClosedForm(j: nat)
    ensures SlotsBefore(j) == (j + 3) / 8
  {
    if j > 0 {
      SlotsBeforeClosedForm(j - 1);
      var q := (j - 1) / 8;
      assert j - 1 == 8 * q + (j - 1) % 8;
    }
  }

  /** Index `j`, when it is selected, is the slot numbered by the count below it. */
  lemma SelectedIndex(j: nat)
    requires j % 8 == 4
    ensures 8 * SlotsBefore(j) + 4 == j
  {
    SlotsBeforeClosedForm(j);
    var q := j / 8;
    assert j == 8 * q + 4;
  }

  /** The selected slots at or after index `j`. */
  function SlotsFrom(items: seq<Value>, j: nat): (r: seq<Value>)
    requires j <= |items|
    ensures |r| == SlotsBefore(|items|) - SlotsBefore(j)
    decreases |items| - j
  {
    if j == |items| then []
    else if j % 8 == 4 then [items[j]] + SlotsFrom(items, j + 1)
    else SlotsFrom(items, j + 1)
  }

  /** The selected slots keep the list order. */
  lemma {:induction false} SlotsFromSubsequence(items: seq<Value>, j: nat)
    requires j <= |items|
    ensures IsSubsequence(SlotsFrom(items, j), items[j..])
    decreases |items| - j
  {
    if j < |items| {
      SlotsFromSubsequence(items, j + 1);
      var rest := SlotsFrom(items, j + 1);
      assert items[j..][1..] == items[j + 1..];
      if j % 8 == 4 {
        var r := [items[j]] + rest;
        assert r[1..] == rest;
      }
    }
  }

  /** Selected slot number `k` from index `j` on is the item at index
      `8 * (SlotsBefore(j) + k) + 4`. */
  lemma {:induction false} SlotsFromAt(items: seq<Value>, j: nat, k: nat)
    requires j <= |items| && k < |SlotsFrom(items, j)|
    ensures 8 * (SlotsBefore(j) + k) + 4 < |items|
    ensures SlotsFrom(items, j)[k] == items[8 * (SlotsBefore(j) + k) + 4]
    decreases |items| - j
  {
    var rest := SlotsFrom(items, j + 1);
    var c := SlotsBefore(j);
    if j % 8 == 4 {
      SelectedIndex(j);
      assert SlotsBefore(j + 1) == c + 1;
      assert SlotsFrom(items, j) == [items[j]] + rest;
      if k > 0 {
        SlotsFromAt(items, j + 1, k - 1);
        assert 8 * (c + 1 + (k - 1)) + 4 == 8 * (c + k) + 4;
      }
    } else {
      assert SlotsBefore(j + 1) == c;
      assert SlotsFrom(items, j) == rest;
      SlotsFromAt(items, j + 1, k);
    }
  }

  /** `list.filter((item, index) => index % 8 === 4)`: the slots at indices
      4, 12, 20, …, in list order; the dates computed in the callback are
      unused, so the choice depends on the position alone. */
  function DailySlots(items: seq<Value>): (r: seq<Value>)
    ensures |r| == (|items| + 3) / 8
    ensures forall k | 0 <= k < |r| :: 8 * k + 4 < |items| && r[k] == items[8 * k + 4]
    ensures IsSubsequence(r, items)
  {
    assert items[0..] == items;
    SlotsBeforeClosedForm(|items|);
    var r := SlotsFrom(items, 0);
    SlotsFromSubsequence(items, 0);
    assert forall k | 0 <= k < |r| :: 8 * k + 4 < |items| && r[k] == items[8 * k + 4] by {
      forall k | 0 <= k < |r| ensures 8 * k + 4 < |items| && r[k] == items[8 * k + 4] {
        SlotsFromAt(items, 0, k);
      }
    }
    r
  }

  /** Whether the component renders nothing before filtering: no data, no
      list, or a list of length 0. */
  predicate HidesForecast(forecastData: Value) {
    var list := Get(forecastData, "list");
    !Truthy(forecastData) || !Truthy(list) || Length(list) == Number(Finite(0.0))
  }

  /** The component's output for its `forecastData` prop. */
  function RenderForecast(forecastData: Value): (v: ForecastView)
    ensures v.Hidden? <==> HidesForecast(forecastData)
    ensures var list := Get(forecastData, "list");
      && (v.TypeError? <==> !HidesForecast(forecastData) && (!list.Arr? || exists i | 0 <= i < |list.items| :: IsNullish(list.items[i])))
      && (v.NoDetailedForecast? ==> list.Arr? && 1 <= |list.items| <= 4)
      && (v.Days? ==> list.Arr? && |list.items| >= 5 && v.slots == DailySlots(list.items))
  {
    if HidesForecast(forecastData) then Hidden
    else
      var list := Get(forecastData, "list");
      if !list.Arr? then TypeError
      else if exists i | 0 <= i < |list.items| :: IsNullish(list.items[i]) then TypeError
      else
        var slots := DailySlots(list.items);
        if slots == [] then NoDetailedForecast else Days(slots)
  }

  /** A list of a whole day-aligned forecast, 40 slots, shows five days, those
      at indices 4, 12, 20, 28 and 36. */
  lemma FortySlotsGiveFiveDays(items: seq<Value>)
    requires |items| == 40
    ensures DailySlots(items) == [items[4], items[12], items[20], items[28], items[36]]
  {
    var r := DailySlots(items);
    var e := [items[4], items[12], items[20], items[28], items[36]];
    assert |r| == 5;
    forall k | 0 <= k < 5 ensures r[k] == e[k] {
      assert r[k] == items[8 * k + 4];
    }
  }

  /** One to four slots, none of them null, give the short-forecast notice;
      an empty list gives nothing. */
  lemma ShortListsShowNotice(items: seq<Value>)
    requires forall i | 0 <= i < |items| :: !IsNullish(items[i])
    ensures 1 <= |items| <= 4 ==> RenderForecast(Obj([("list", Arr(items))])) == NoDetailedForecast
    ensures |items| == 0 ==> RenderForecast(Obj([("list", Arr(items))])) == Hidden
    ensures |items| >= 5 ==> RenderForecast(Obj([("list", Arr(items))])).Days?
  {
    var fd := Obj([("list", Arr(items))]);
    assert Get(fd, "list") == Arr(items);
  }

  /** Without data or without a list the component renders nothing. */
  lemma AbsentDataHides()
    ensures RenderForecast(Null) == Hidden
    ensures RenderForecast(Undefined) == Hidden
    ensures RenderForecast(Obj([])) == Hidden
  {
  }
}
