/** The shared defaults of the additive-regression (Prophet) forecast form,
    web/app/services/prophet_defaults.py. */
module ProphetDefaults {
  import opened Common
  import opened Text
  import opened Series

  /** `PROPHET_DAY_OPTIONS`, in the source's order. */
  const DayOptions: seq<int> := [0, 1825, 1095, 730, 365]

  /** `PROPHET_DAY_LABELS`. */
  const DayLabels: map<int, string> :=
    map[0 := "All", 1825 := "5 years", 1095 := "3 years", 730 := "2 years", 365 := "1 year"]

  const DefaultDays: int := 365
  const DefaultYearly: string := "true"
  const DefaultChangepoint: real := 0.001
  const DefaultSeasonality: real := 1.0
  const DefaultChangepointRange: real := 0.9

  /** The dictionary `resolve_prophet_defaults` returns. */
  datatype Defaults = Defaults(
    days: int,
    yearly: string,
    changepoint: real,
    seasonality: real,
    changepointRange: real,
    dayOptions: seq<int>,
    dayLabels: map<int, string>)

  /** The window actually requested: a known option, else the default. */
  function ChosenDays(selectedDays: Option<int>): (d: int)
    ensures d in DayOptions
    ensures selectedDays.Some? && selectedDays.value in DayOptions ==> d == selectedDays.value
    ensures !(selectedDays.Some? && selectedDays.value in DayOptions) ==> d == DefaultDays
  {
    if selectedDays.Some? && selectedDays.value in DayOptions then selectedDays.value else DefaultDays
  }

  /** `resolve_prophet_defaults`: the chosen window goes through
      `clamp_days(str(days), max_days)`; every other field is a module
      constant, so the result depends on nothing but the two arguments. */
  function ResolveProphetDefaults(selectedDays: Option<int>, maxDays: int): (r: Defaults)
    ensures r.days == Min(ChosenDays(selectedDays), maxDays)
    ensures r.days <= maxDays
    ensures selectedDays == Some(0) && maxDays >= 0 ==> r.days == 0
    ensures maxDays >= 0 ==> 0 <= r.days
    ensures r.yearly == "true" && r.changepoint == 0.001 && r.seasonality == 1.0
    ensures r.changepointRange == 0.9
    ensures r.dayOptions == [0, 1825, 1095, 730, 365] && r.dayLabels == DayLabels
  {
    var chosen := ChosenDays(selectedDays);
    ParseNatToString(chosen);
    var days := ClampDays(IntToString(chosen), maxDays);
    Defaults(days, DefaultYearly, DefaultChangepoint, DefaultSeasonality,
             DefaultChangepointRange, DayOptions, DayLabels)
  }
}
