/**
 * The rows of the OpeningHours.jsx component: one row per day key of a restaurant's
 * `openingHours`, with its label, the hours shown, and whether the day is marked closed.
 */
module OpeningHoursView {
  import opened Options
  import opened Strings
  import opened JsValues
  import StructuredData

  /** `DAY_NAMES[day]` (src/constants/index.js): the capitalised label of a French day name. */
  function DayName(day: string): (r: Option<string>)
    ensures r.Some? ==> |r.value| == |day| > 0 && r.value[1..] == day[1..] && ToLower(r.value) == day
  {
    if day == "lundi" then Some("Lundi")
    else if day == "mardi" then Some("Mardi")
    else if day == "mercredi" then Some("Mercredi")
    else if day == "jeudi" then Some("Jeudi")
    else if day == "vendredi" then Some("Vendredi")
    else if day == "samedi" then Some("Samedi")
    else if day == "dimanche" then Some("Dimanche")
    else None
  }

  /** The days that get a label are exactly the days the structured data gives a schema.org code. */
  lemma DayNamesMatchDayCodes(day: string)
    ensures DayName(day).Some? <==> StructuredData.DayCode(day).Some?
    ensures DayName(day).Some? ==> |DayName(day).value| == |day| && DayName(day).value[1..] == day[1..]
  {
  }

  /** `Array.isArray(hours) ? hours : [hours]`. */
  function HoursList(hours: JsValue): (r: seq<JsValue>)
    ensures hours.Arr? ==> r == hours.elems
    ensures !hours.Arr? ==> r == [hours]
  {
    if hours.Arr? then hours.elems else [hours]
  }

  /** `hoursArray.some(h => h === 'Fermé')`. */
  function AnyClosed(list: seq<JsValue>): (r: bool)
    ensures r <==> exists j :: 0 <= j < |list| && list[j] == Str("Fermé")
  {
    if |list| == 0 then false
    else list[0] == Str("Fermé") || AnyClosed(list[1..])
  }

  /** One row: the day key, its label, the hours shown and the closed flag. */
  datatype Row = Row(day: string, dayLabel: Option<string>, display: string, closed: bool)

  /** What the component renders: the "Horaires non disponibles" placeholder, or the rows. */
  datatype View = Placeholder | Rows(rows: seq<Row>)

  function RowOf(day: string, hours: JsValue): (row: Row)
    ensures row.day == day && row.dayLabel == DayName(day)
    ensures row.closed <==> exists j :: 0 <= j < |HoursList(hours)| && HoursList(hours)[j] == Str("Fermé")
    ensures row.display == Join(Texts(HoursList(hours)), ", ")
  {
    var list := HoursList(hours);
    Row(day, DayName(day), Join(Texts(list), ", "), AnyClosed(list))
  }

  /** The text `join` uses for each slot. */
  function Texts(list: seq<JsValue>): (r: seq<string>)
    ensures |r| == |list| && forall i :: 0 <= i < |list| ==> r[i] == ElementText(list[i])
  {
    seq(|list|, i requires 0 <= i < |list| => ElementText(list[i]))
  }

  /** The component's output for an `openingHours` value. */
  function Render(openingHours: JsValue): (v: View)
    ensures v.Placeholder? <==> !Truthy(openingHours) || |Keys(openingHours)| == 0
    ensures v.Rows? ==> |v.rows| == |Entries(openingHours)|
    ensures v.Rows? ==> forall k :: 0 <= k < |v.rows| ==> v.rows[k] == RowOf(Entries(openingHours)[k].0, Entries(openingHours)[k].1)
  {
    if !Truthy(openingHours) || |Keys(openingHours)| == 0 then Placeholder
    else
      var entries := Entries(openingHours);
      Rows(seq(|entries|, k requires 0 <= k < |entries| => RowOf(entries[k].0, entries[k].1)))
  }

  /** A single string value is shown as it is, and marks the day closed exactly when it is "Fermé". */
  lemma SingleValueRow(day: string, s: string)
    ensures RowOf(day, Str(s)).display == s
    ensures RowOf(day, Str(s)).closed <==> s == "Fermé"
  {
    var list := HoursList(Str(s));
    assert list == [Str(s)] && ElementText(list[0]) == s;
    assert Texts(list) == [s];
  }

  /** Two slots are shown joined by ", ". */
  lemma TwoSlotRow(day: string, a: string, b: string)
    ensures RowOf(day, Arr([Str(a), Str(b)])).display == a + ", " + b
  {
    var list := HoursList(Arr([Str(a), Str(b)]));
    assert list == [Str(a), Str(b)];
    assert ToText(Str(a)) == a && ToText(Str(b)) == b;
    assert ElementText(Str(a)) == a && ElementText(Str(b)) == b;
    assert Texts(list) == [a, b];
    assert Join([a, b], ", ") == a + ", " + Join([b], ", ");
  }

  /**
   * A day the row marks closed because its first slot is "Fermé" is one the structured data
   * drops; a day whose "Fermé" is not first is marked closed here but still published there.
   */
  lemma ClosedRowsAgainstStructuredData(day: string, rest: seq<JsValue>)
    ensures RowOf(day, Arr([Str("Fermé")] + rest)).closed
    ensures StructuredData.FormatDay(day, Arr([Str("Fermé")] + rest)) == StructuredData.Dropped
  {
    assert HoursList(Arr([Str("Fermé")] + rest))[0] == Str("Fermé");
  }
}
