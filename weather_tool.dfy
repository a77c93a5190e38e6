/**
 * The local weather forecast tool: the clamp of the requested horizon, the
 * time zone that falls back to "auto", and the projection of the forecast
 * response's column arrays into one entry per hour and one per day, each
 * entry holding the values found at its own index. The response is a JSON
 * value; fetching it is not modelled.
 */
module WeatherTool {
  import opened Wrappers
  import opened Strings
  import opened Json

  const MaxHourlyHorizon := 72

  /** `Math.min(Math.max(hoursAhead, 1), MAX_HOURLY_HORIZON)` */
  function CappedHours(hoursAhead: int): (r: int)
    ensures 1 <= r <= MaxHourlyHorizon
    ensures 1 <= hoursAhead <= MaxHourlyHorizon ==> r == hoursAhead
    ensures hoursAhead < 1 ==> r == 1
    ensures hoursAhead > MaxHourlyHorizon ==> r == MaxHourlyHorizon
  {
    var atLeastOne := if hoursAhead > 1 then hoursAhead else 1;
    if atLeastOne < MaxHourlyHorizon then atLeastOne else MaxHourlyHorizon
  }

  /** Clamping twice changes nothing, and the clamp keeps the order of requests. */
  lemma CappedHoursStable(a: int, b: int)
    ensures CappedHours(CappedHours(a)) == CappedHours(a)
    ensures a <= b ==> CappedHours(a) <= CappedHours(b)
  {
  }

  /** `timeZone.trim() || "auto"` */
  function ResolvedTimeZone(timeZone: string): (r: string)
    ensures r != []
    ensures Trim(timeZone) != [] ==> r == Trim(timeZone)
    ensures Trim(timeZone) == [] ==> r == "auto"
  {
    var trimmed := Trim(timeZone);
    if trimmed != [] then trimmed else "auto"
  }

  /** A resolved time zone resolves to itself. */
  lemma ResolvedTimeZoneStable(timeZone: string)
    ensures ResolvedTimeZone(ResolvedTimeZone(timeZone)) == ResolvedTimeZone(timeZone)
  {
    var t := Trim(timeZone);
    if t != [] {
      TrimOfTrimmed(t);
    } else {
      assert Trim("auto") == "auto" by {
        assert !IsWhitespace('a') && !IsWhitespace('o');
      }
    }
  }

  // ---------------------------------------------------------------------
  // Index-aligned projection
  // ---------------------------------------------------------------------

  /** `column?.[i] ?? null` for whatever JSON value the column holds (None: the field is absent). */
  function ValueAt(column: Option<Json>, i: nat): (r: Json)
    ensures column.None? ==> r == JNull
    ensures column.Some? && column.value.JArr? ==>
      r == if i < |column.value.elems| then column.value.elems[i] else JNull
  {
    match column
    case None => JNull
    case Some(JArr(es)) => if i < |es| then es[i] else JNull
    case Some(JStr(s)) => if i < |s| then JStr([s[i]]) else JNull
    case Some(JObj(fields)) =>
      (match FieldLookup(fields, NatToString(i))
       case Some(v) => v
       case None => JNull)
    case Some(_) => JNull
  }

  /** `Array.isArray(source.time) ? source.time : []`, where a missing section reads as `{}`. */
  function TimeValues(section: Option<Json>, timeKey: string): (r: seq<Json>)
    ensures section.Some? && Get(section.value, timeKey).Some? && Get(section.value, timeKey).value.JArr? ==>
      r == Get(section.value, timeKey).value.elems
    ensures section.None? ==> r == []
  {
    if section.None? then []
    else
      match Get(section.value, timeKey)
      case Some(JArr(es)) => es
      case _ => []
  }

  /** A column of the output: its name in the entry and its key in the response. */
  type Column = (string, string)

  /** `section.key`, None when the section or the field is absent. */
  function Field(section: Option<Json>, key: string): Option<Json> {
    if section.None? then None else Get(section.value, key)
  }

  /** The index-`i` value of each column, under its output name. */
  function Values(section: Option<Json>, columns: seq<Column>, i: nat): (r: seq<(string, Json)>)
    ensures |r| == |columns|
    ensures forall c :: 0 <= c < |columns| ==> r[c] == (columns[c].0, ValueAt(Field(section, columns[c].1), i))
  {
    if columns == [] then []
    else [(columns[0].0, ValueAt(Field(section, columns[0].1), i))] + Values(section, columns[1..], i)
  }

  /** One entry: the time under `timeName`, then the values of the columns at the same index. */
  function Entry(section: Option<Json>, timeName: string, columns: seq<Column>, time: Json, i: nat): Json {
    JObj([(timeName, time)] + Values(section, columns, i))
  }

  /** Output names are distinct from each other and from the name of the time field. */
  predicate DistinctNames(timeName: string, columns: seq<Column>) {
    && (forall c :: 0 <= c < |columns| ==> columns[c].0 != timeName)
    && forall c, d :: 0 <= c < d < |columns| ==> columns[c].0 != columns[d].0
  }

  /**
   * An entry carries its time, and under each output name the value of that
   * column at the entry's index: null when the column is missing or too short.
   */
  lemma EntryFields(section: Option<Json>, timeName: string, columns: seq<Column>, time: Json, i: nat, c: nat)
    requires DistinctNames(timeName, columns) && c < |columns|
    ensures Get(Entry(section, timeName, columns, time, i), timeName) == Some(time)
    ensures Get(Entry(section, timeName, columns, time, i), columns[c].0) == Some(ValueAt(Field(section, columns[c].1), i))
  {
    var vs := Values(section, columns, i);
    var fields := [(timeName, time)] + vs;
    FieldLookupFirst(fields, c + 1);
  }

  /** A missing column, or one too short for the index, gives null. */
  lemma MissingValueNull(column: Option<Json>, i: nat)
    requires column.None? || (column.value.JArr? && |column.value.elems| <= i)
    ensures ValueAt(column, i) == JNull
  {
  }

  // ---------------------------------------------------------------------
  // pickHourlyEntries and mapDailyEntries
  // ---------------------------------------------------------------------

  /** The hourly columns: output name, response key. */
  const HourlyColumns: seq<Column> := [
    ("temperature", "temperature_2m"),
    ("apparent_temperature", "apparent_temperature"),
    ("precipitation_probability", "precipitation_probability"),
    ("precipitation", "precipitation"),
    ("rain", "rain"),
    ("showers", "showers"),
    ("snowfall", "snowfall"),
    ("cloud_cover", "cloud_cover"),
    ("visibility", "visibility"),
    ("relative_humidity", "relative_humidity_2m"),
    ("dew_point", "dew_point_2m"),
    ("wind_speed", "wind_speed_10m"),
    ("wind_direction", "wind_direction_10m"),
    ("wind_gusts", "wind_gusts_10m")]

  /** The daily columns: output name, response key. */
  const DailyColumns: seq<Column> := [
    ("sunrise", "sunrise"),
    ("sunset", "sunset"),
    ("uv_index_max", "uv_index_max"),
    ("uv_index_clear_sky_max", "uv_index_clear_sky_max"),
    ("precipitation_probability_max", "precipitation_probability_max"),
    ("wind_speed_max", "wind_speed_10m_max"),
    ("wind_gusts_max", "wind_gusts_10m_max")]

  /** Entry `i` of the hourly projection. */
  function HourlyEntry(hourly: Option<Json>, i: nat): Json
    requires i < |TimeValues(hourly, "time")|
  {
    Entry(hourly, "time", HourlyColumns, TimeValues(hourly, "time")[i], i)
  }

  /**
   * `pickHourlyEntries`: the first `min(|time|, hoursAhead)` hours, each with
   * the values at its own index.
   */
  method PickHourlyEntries(hourly: Option<Json>, hoursAhead: int) returns (result: seq<Json>)
    ensures var times := TimeValues(hourly, "time");
      |result| == (if hoursAhead <= 0 then 0 else if |times| < hoursAhead then |times| else hoursAhead)
    ensures forall i :: 0 <= i < |result| ==> i < |TimeValues(hourly, "time")| && result[i] == HourlyEntry(hourly, i)
  {
    result := PickEntries(hourly, "time", HourlyColumns, hoursAhead);
  }

  /** The loop of `pickHourlyEntries`, for any table of columns. */
  method PickEntries(section: Option<Json>, timeName: string, columns: seq<Column>, hoursAhead: int)
    returns (result: seq<Json>)
    ensures var times := TimeValues(section, "time");
      |result| == (if hoursAhead <= 0 then 0 else if |times| < hoursAhead then |times| else hoursAhead)
    ensures forall i :: 0 <= i < |result| ==>
      i < |TimeValues(section, "time")| && result[i] == Entry(section, timeName, columns, TimeValues(section, "time")[i], i)
  {
    var times := TimeValues(section, "time");
    var limit := if |times| < hoursAhead then |times| else hoursAhead;
    result := [];
    var i := 0;
    while i < limit
      invariant 0 <= i && (limit <= 0 ==> i == 0) && (limit > 0 ==> i <= limit)
      invariant |result| == i
      invariant forall j :: 0 <= j < i ==> j < |times| && result[j] == Entry(section, timeName, columns, times[j], j)
    {
      result := result + [Entry(section, timeName, columns, times[i], i)];
      i := i + 1;
    }
  }

  /** `mapDailyEntries`: one entry per day of `daily.time`, in order. */
  function MapDailyEntries(daily: Option<Json>): (r: seq<Json>)
    ensures |r| == |TimeValues(daily, "time")|
    ensures forall i :: 0 <= i < |r| ==> r[i] == Entry(daily, "date", DailyColumns, TimeValues(daily, "time")[i], i)
  {
    var times := TimeValues(daily, "time");
    seq(|times|, i requires 0 <= i < |times| => Entry(daily, "date", DailyColumns, times[i], i))
  }

  /** The output names of the hourly projection are distinct. */
  lemma HourlyNames()
    ensures DistinctNames("time", HourlyColumns)
  {
    assert forall c, d :: 0 <= c < d < 14 ==> HourlyColumns[c].0 != HourlyColumns[d].0;
  }

  /** The output names of the daily projection are distinct. */
  lemma DailyNames()
    ensures DistinctNames("date", DailyColumns)
  {
  }

  /**
   * Each hourly entry has the hour's time and, for each hourly column, the
   * value at the same index, or null when that column is missing or too short.
   */
  lemma HourlyAligned(hourly: Option<Json>, i: nat, c: nat)
    requires i < |TimeValues(hourly, "time")| && c < |HourlyColumns|
    ensures Get(HourlyEntry(hourly, i), "time") == Some(TimeValues(hourly, "time")[i])
    ensures Get(HourlyEntry(hourly, i), HourlyColumns[c].0) == Some(ValueAt(Field(hourly, HourlyColumns[c].1), i))
  {
    HourlyNames();
    EntryFields(hourly, "time", HourlyColumns, TimeValues(hourly, "time")[i], i, c);
  }

  /** Each daily entry has the day's date and, for each daily column, the value at the same index. */
  lemma DailyAligned(daily: Option<Json>, i: nat, c: nat)
    requires i < |MapDailyEntries(daily)| && c < |DailyColumns|
    ensures Get(MapDailyEntries(daily)[i], "date") == Some(TimeValues(daily, "time")[i])
    ensures Get(MapDailyEntries(daily)[i], DailyColumns[c].0) == Some(ValueAt(Field(daily, DailyColumns[c].1), i))
  {
    DailyNames();
    EntryFields(daily, "date", DailyColumns, TimeValues(daily, "time")[i], i, c);
  }

  /** Without an hourly section, or without a time array in it, there are no entries. */
  lemma NoHourlyTimes(hourly: Option<Json>)
    requires hourly.None? || Get(hourly.value, "time").None? || !Get(hourly.value, "time").value.JArr?
    ensures TimeValues(hourly, "time") == []
  {
  }
}
