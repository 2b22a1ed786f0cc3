/**
 * The schema.org structured data of StructuredData.jsx: `formatOpeningHours`, the opening-hours
 * specifications, the WebSite / Restaurant / BreadcrumbList / FoodEstablishment records, and the
 * effect that replaces every JSON-LD script of the head with freshly built ones.
 *
 * A JavaScript `TypeError` thrown while building (a `replace` call on a slot that is not a
 * string) is the `None` answer of the builders.
 */
module StructuredData {
  import opened Options
  import opened Strings
  import opened JsValues
  import opened JsonLd
  import opened DocumentHead

  // ---------------------------------------------------------------------------------------------
  // formatOpeningHours

  /** The schema.org day codes `dayMap` maps to. */
  const DayCodes: set<string> := {"Mo", "Tu", "We", "Th", "Fr", "Sa", "Su"}

  /** The French day names `dayMap` has keys for. */
  const FrenchDays: set<string> := {"lundi", "mardi", "mercredi", "jeudi", "vendredi", "samedi", "dimanche"}

  /** `dayMap[day]`: the schema.org code of a French day name, `None` for any other key. */
  function DayCode(day: string): (r: Option<string>)
    ensures r.Some? <==> day in FrenchDays
    ensures r.Some? ==> r.value in DayCodes
  {
    if day == "lundi" then Some("Mo")
    else if day == "mardi" then Some("Tu")
    else if day == "mercredi" then Some("We")
    else if day == "jeudi" then Some("Th")
    else if day == "vendredi" then Some("Fr")
    else if day == "samedi" then Some("Sa")
    else if day == "dimanche" then Some("Su")
    else None
  }

  /** Distinct French days get distinct codes. */
  lemma DayCodeInjective(d1: string, d2: string)
    requires DayCode(d1).Some? && DayCode(d1) == DayCode(d2)
    ensures d1 == d2
  {
  }

  /** A day code is two characters with no space, dash or en dash. */
  lemma DayCodeShape(code: string)
    requires code in DayCodes
    ensures |code| == 2 && ' ' !in code && '-' !in code
  {
  }

  /** Every element of a list is a string. */
  predicate AllStrings(elems: seq<JsValue>)
  {
    forall i :: 0 <= i < |elems| ==> elems[i].Str?
  }

  /** `` `${dayCode} ${hour.replace('–', '-')}` `` for one string slot. */
  function SlotText(code: string, slot: string): string
  {
    code + " " + ReplaceFirst(slot, '–', "-")
  }

  /** `hours.map(hour => …)`: fails (a `TypeError`) as soon as one slot is not a string. */
  function SlotTexts(code: string, slots: seq<JsValue>): (r: Option<seq<string>>)
    ensures r.Some? <==> AllStrings(slots)
    ensures r.Some? ==> |r.value| == |slots|
    ensures r.Some? ==> forall i :: 0 <= i < |slots| ==> r.value[i] == SlotText(code, slots[i].s)
  {
    if |slots| == 0 then Some([])
    else if !slots[0].Str? then None
    else match SlotTexts(code, slots[1..])
      case None => None
      case Some(rest) => Some([SlotText(code, slots[0].s)] + rest)
  }

  /** What the `map` callback of `formatOpeningHours` makes of one entry. */
  datatype DayOutcome = Dropped | Kept(text: string) | Failed

  /** A formatted entry: a day code, a space, then the slot text. */
  predicate StartsWithDayCode(t: string)
  {
    |t| >= 3 && t[..2] in DayCodes && t[2] == ' '
  }

  /** The `map` callback of `formatOpeningHours` on one `[day, hours]` entry. */
  function FormatDay(day: string, hours: JsValue): (r: DayOutcome)
    ensures r == Dropped <==>
      DayCode(day).None? || !hours.Arr? || |hours.elems| == 0 || hours.elems[0] == Str("Fermé")
    ensures r.Failed? <==> r != Dropped && !AllStrings(hours.elems)
    ensures r.Kept? ==> DayCode(day).Some? && hours.Arr? && AllStrings(hours.elems) && StartsWithDayCode(r.text)
    ensures r.Kept? ==>
      SlotTexts(DayCode(day).value, hours.elems).Some? &&
      r.text == Join(SlotTexts(DayCode(day).value, hours.elems).value, ", ")
  {
    var code := DayCode(day);
    if code.None? then Dropped
    else if !(hours.Arr? && |hours.elems| > 0) then Dropped
    else if hours.elems[0] == Str("Fermé") then Dropped
    else match SlotTexts(code.value, hours.elems)
      case None => Failed
      case Some(texts) =>
        DayCodeShape(code.value);
        JoinHead(texts, ", ");
        var t := Join(texts, ", ");
        assert texts[0] == code.value + " " + ReplaceFirst(hours.elems[0].s, '–', "-");
        assert t[..2] == texts[0][..2] == code.value;
        assert t[2] == texts[0][2] == ' ';
        Kept(t)
  }

  /** `entries.map(callback)`: the outcome of every entry, in entry order. */
  function Outcomes(entries: seq<(string, JsValue)>): seq<DayOutcome>
  {
    seq(|entries|, k requires 0 <= k < |entries| => FormatDay(entries[k].0, entries[k].1))
  }

  /**
   * `.filter(Boolean)` on the outcomes: the texts of the kept days, in order (a kept text is never
   * empty, so `Boolean` keeps every one of them).
   */
  function KeptTexts(outcomes: seq<DayOutcome>): (r: seq<string>)
    ensures |r| <= |outcomes|
    ensures forall t :: t in r <==> Kept(t) in outcomes
  {
    if |outcomes| == 0 then []
    else
      assert outcomes == [outcomes[0]] + outcomes[1..];
      (if outcomes[0].Kept? then [outcomes[0].text] else []) + KeptTexts(outcomes[1..])
  }

  /** `entries.map(callback).filter(Boolean)`: the kept texts in entry order, or the error. */
  function FormatEntries(entries: seq<(string, JsValue)>): (r: Option<seq<string>>)
    ensures r.None? <==> exists k :: 0 <= k < |entries| && FormatDay(entries[k].0, entries[k].1).Failed?
    ensures r.Some? ==> r.value == KeptTexts(Outcomes(entries))
    ensures r.Some? ==> |r.value| <= |entries|
    ensures r.Some? ==> forall k :: 0 <= k < |r.value| ==> StartsWithDayCode(r.value[k])
  {
    if |entries| == 0 then Some([])
    else
      var rest := FormatEntries(entries[1..]);
      assert forall k :: 0 < k < |entries| ==> entries[k] == entries[1..][k - 1];
      assert forall k :: 0 <= k < |entries| - 1 ==> entries[1..][k] == entries[k + 1];
      assert Outcomes(entries)[0] == FormatDay(entries[0].0, entries[0].1);
      assert Outcomes(entries)[1..] == Outcomes(entries[1..]);
      match FormatDay(entries[0].0, entries[0].1)
      case Failed => None
      case Dropped => rest
      case Kept(t) => if rest.None? then None else Some([t] + rest.value)
  }

  /** `formatOpeningHours(openingHours)`: `[]` for a falsy value, otherwise the formatted entries. */
  function FormatOpeningHours(openingHours: JsValue): (r: Option<seq<string>>)
    ensures !Truthy(openingHours) ==> r == Some([])
    ensures Truthy(openingHours) && r.Some? ==> r.value == KeptTexts(Outcomes(Entries(openingHours)))
    ensures r.Some? ==> |r.value| <= |Entries(openingHours)|
    ensures r.Some? ==> forall k :: 0 <= k < |r.value| ==> StartsWithDayCode(r.value[k])
  {
    if !Truthy(openingHours) then Some([]) else FormatEntries(Entries(openingHours))
  }

  // ---------------------------------------------------------------------------------------------
  // openingHoursSpecification

  /** A spec record from one dash-separated time range: `const [open, close] = range.split('-')`. */
  function RangeSpec(code: string, range: string): (r: HoursSpec)
    ensures r.dayOfWeek == code
    ensures '-' !in range ==> r == HoursSpec(code, range, None)
  {
    var halves := Split(range, '-');
    SplitHead(range, '-');
    HoursSpec(code, halves[0], if |halves| >= 2 then Some(halves[1]) else None)
  }

  /**
   * The record built from one formatted string, as written: the string is split at spaces and its
   * first two pieces are taken as the day and the time range; `None` is the `TypeError` raised when
   * there is no second piece.
   */
  function SpecOfAsWritten(h: string): (r: Option<HoursSpec>)
    ensures r.Some? <==> ' ' in h
  {
    var parts := Split(h, ' ');
    SplitHead(h, ' ');
    if |parts| < 2 then None
    else Some(RangeSpec(parts[0], parts[1]))
  }

  /** `openingHours.map(hours => …)` as written: one record per formatted string. */
  function SpecsAsWritten(formatted: seq<string>): (r: Option<seq<HoursSpec>>)
    ensures r.None? <==> exists k :: 0 <= k < |formatted| && SpecOfAsWritten(formatted[k]).None?
    ensures r.Some? ==> |r.value| == |formatted|
    ensures r.Some? ==> forall k :: 0 <= k < |formatted| ==> r.value[k] == SpecOfAsWritten(formatted[k]).value
  {
    if |formatted| == 0 then Some([])
    else
      assert forall k :: 0 < k < |formatted| ==> formatted[k] == formatted[1..][k - 1];
      match (SpecOfAsWritten(formatted[0]), SpecsAsWritten(formatted[1..]))
      case (Some(spec), Some(rest)) => Some([spec] + rest)
      case _ => None
  }

  /** Every formatted string yields a record for its own day code under the as-written split. */
  lemma FormattedSpecAsWritten(t: string)
    requires StartsWithDayCode(t)
    ensures SpecOfAsWritten(t).Some? && SpecOfAsWritten(t).value.dayOfWeek == t[..2]
  {
    DayCodeShape(t[..2]);
    assert t == t[..2] + [' '] + t[3..];
    SplitAt(t[..2], ' ', t[3..]);
  }

  /** The as-written mapping never fails on `formatOpeningHours` output and keeps its length. */
  lemma {:induction false} SpecsAsWrittenTotal(formatted: seq<string>)
    requires forall k :: 0 <= k < |formatted| ==> StartsWithDayCode(formatted[k])
    ensures SpecsAsWritten(formatted).Some? && |SpecsAsWritten(formatted).value| == |formatted|
    ensures forall k :: 0 <= k < |formatted| ==>
      StartsWithDayCode(formatted[k]) && SpecsAsWritten(formatted).value[k].dayOfWeek == formatted[k][..2]
  {
    if |formatted| > 0 {
      FormattedSpecAsWritten(formatted[0]);
      SpecsAsWrittenTotal(formatted[1..]);
    }
  }

  /** The record of one slot, as intended: the slot's own time range after the dash rewrite. */
  function SlotSpec(code: string, slot: string): (r: HoursSpec)
    ensures r.dayOfWeek == code
  {
    RangeSpec(code, ReplaceFirst(slot, '–', "-"))
  }

  /** The intended records of one entry: one per slot of a kept day, none for a dropped day. */
  function DaySpecs(day: string, hours: JsValue): (r: Option<seq<HoursSpec>>)
    ensures r.None? <==> FormatDay(day, hours).Failed?
    ensures r.Some? && FormatDay(day, hours).Kept? ==> |r.value| == |hours.elems| >= 1
    ensures r.Some? && !FormatDay(day, hours).Kept? ==> r.value == []
    ensures r.Some? ==> forall k :: 0 <= k < |r.value| ==> r.value[k].dayOfWeek in DayCodes
  {
    match FormatDay(day, hours)
    case Dropped => Some([])
    case Failed => None
    case Kept(_) =>
      var code := DayCode(day).value;
      Some(seq(|hours.elems|, i requires 0 <= i < |hours.elems| => SlotSpec(code, hours.elems[i].s)))
  }

  /** The intended records of every entry, in entry and slot order; each is for a day code. */
  function SpecsOfEntries(entries: seq<(string, JsValue)>): (r: Option<seq<HoursSpec>>)
    ensures r.Some? ==> forall k :: 0 <= k < |r.value| ==> r.value[k].dayOfWeek in DayCodes
  {
    if |entries| == 0 then Some([])
    else match (DaySpecs(entries[0].0, entries[0].1), SpecsOfEntries(entries[1..]))
      case (Some(first), Some(rest)) =>
        assert forall k :: 0 <= k < |first + rest| ==>
          (first + rest)[k] == (if k < |first| then first[k] else rest[k - |first|]);
        Some(first + rest)
      case _ => None
  }

  /**
   * The `openingHoursSpecification` records as intended (the corrected builder): one record per
   * slot of every kept day, in entry and slot order.
   */
  function HoursSpecifications(openingHours: JsValue): (r: Option<seq<HoursSpec>>)
    ensures r.None? <==> FormatOpeningHours(openingHours).None?
    ensures r.Some? ==> forall k :: 0 <= k < |r.value| ==> r.value[k].dayOfWeek in DayCodes
  {
    if !Truthy(openingHours) then Some([])
    else
      SpecsFollowFormatting(Entries(openingHours));
      SpecsOfEntries(Entries(openingHours))
  }

  /**
   * The corrected records fail exactly when `formatOpeningHours` does; otherwise there is at least
   * one record per formatted string (none exactly when there is no formatted string), each for a
   * day code.
   */
  lemma {:induction false} SpecsFollowFormatting(entries: seq<(string, JsValue)>)
    ensures SpecsOfEntries(entries).None? <==> FormatEntries(entries).None?
    ensures SpecsOfEntries(entries).Some? ==>
      |SpecsOfEntries(entries).value| >= |FormatEntries(entries).value| &&
      (|SpecsOfEntries(entries).value| == 0 <==> |FormatEntries(entries).value| == 0)
  {
    if |entries| > 0 {
      SpecsFollowFormatting(entries[1..]);
      var rest := SpecsOfEntries(entries[1..]);
      var formattedRest := FormatEntries(entries[1..]);
      match FormatDay(entries[0].0, entries[0].1)
      case Failed =>
        assert FormatEntries(entries).None? && SpecsOfEntries(entries).None?;
      case Dropped =>
        assert FormatEntries(entries) == formattedRest;
        assert SpecsOfEntries(entries) == if rest.Some? then Some([] + rest.value) else None;
      case Kept(t) =>
        var first := DaySpecs(entries[0].0, entries[0].1).value;
        assert |first| >= 1;
        assert FormatEntries(entries) == if formattedRest.None? then None else Some([t] + formattedRest.value);
        assert SpecsOfEntries(entries) == if rest.Some? then Some(first + rest.value) else None;
    }
  }

  /** `HoursSpecifications` at the level of a whole `openingHours` value. */
  lemma SpecsFollowFormattedHours(openingHours: JsValue)
    ensures HoursSpecifications(openingHours).None? <==> FormatOpeningHours(openingHours).None?
    ensures HoursSpecifications(openingHours).Some? ==>
      (|HoursSpecifications(openingHours).value| == 0 <==> |FormatOpeningHours(openingHours).value| == 0)
    ensures HoursSpecifications(openingHours).Some? ==>
      |HoursSpecifications(openingHours).value| >= |FormatOpeningHours(openingHours).value|
    ensures HoursSpecifications(openingHours).Some? ==>
      forall k :: 0 <= k < |HoursSpecifications(openingHours).value| ==>
        HoursSpecifications(openingHours).value[k].dayOfWeek in DayCodes
  {
    if Truthy(openingHours) {
      SpecsFollowFormatting(Entries(openingHours));
    }
  }

  /** A text with no space, dash or en dash: one side of a time range such as "11:30". */
  predicate Plain(t: string)
  {
    ' ' !in t && '-' !in t && '–' !in t
  }

  /** For a single-slot day both builders agree: the as-written split is only wrong for several slots. */
  lemma SingleSlotAgrees(code: string, slot: string)
    requires code in DayCodes && ' ' !in slot
    ensures SpecOfAsWritten(SlotText(code, slot)) == Some(SlotSpec(code, slot))
  {
    DayCodeShape(code);
    var range := ReplaceFirst(slot, '–', "-");
    if '–' in slot {
      var i := FirstIndex(slot, '–');
      assert range == slot[..i] + "-" + slot[i + 1..];
      assert slot == slot[..i] + [slot[i]] + slot[i + 1..];
    }
    assert ' ' !in range;
    SplitHead(range, ' ');
    SplitAt(code, ' ', range);
  }

  /** A kept day of two string slots formats to the two slot texts joined by ", ". */
  lemma TwoSlotsFormatted(day: string, s1: string, s2: string)
    requires day in FrenchDays && s1 != "Fermé"
    ensures var code := DayCode(day).value;
      FormatOpeningHours(Obj([(day, Arr([Str(s1), Str(s2)]))])) == Some([SlotText(code, s1) + ", " + SlotText(code, s2)])
  {
    var code := DayCode(day).value;
    var slots := [Str(s1), Str(s2)];
    assert AllStrings(slots);
    var texts := SlotTexts(code, slots).value;
    assert texts[0] == SlotText(code, slots[0].s) && texts[1] == SlotText(code, slots[1].s);
    var t := SlotText(code, s1) + ", " + SlotText(code, s2);
    assert Join(texts, ", ") == t;
    assert FormatDay(day, Arr(slots)) == Kept(t);
    var entries := [(day, Arr(slots))];
    assert entries[0].0 == day && entries[0].1 == Arr(slots) && entries[1..] == [];
    assert FormatEntries(entries[1..]) == Some([]);
    assert FormatEntries(entries) == Some([t] + []);
    assert Truthy(Obj(entries)) && Entries(Obj(entries)) == entries;
    assert [t] + [] == [t];
    assert FormatOpeningHours(Obj(entries)) == FormatEntries(Entries(Obj(entries)));
    assert FormatOpeningHours(Obj(entries)) == Some([t]);
  }

  /** A kept day of two string slots gives one corrected record per slot. */
  lemma TwoSlotsCorrected(day: string, s1: string, s2: string)
    requires day in FrenchDays && s1 != "Fermé"
    ensures var code := DayCode(day).value;
      HoursSpecifications(Obj([(day, Arr([Str(s1), Str(s2)]))])) == Some([SlotSpec(code, s1), SlotSpec(code, s2)])
  {
    var slots := [Str(s1), Str(s2)];
    assert AllStrings(slots);
    assert FormatDay(day, Arr(slots)).Kept?;
    var entries := [(day, Arr(slots))];
    assert entries[0].0 == day && entries[0].1 == Arr(slots) && entries[1..] == [];
    assert SpecsOfEntries(entries[1..]) == Some([]);
    assert DaySpecs(day, Arr(slots)).value == [SlotSpec(DayCode(day).value, s1), SlotSpec(DayCode(day).value, s2)];
    var specs := [SlotSpec(DayCode(day).value, s1), SlotSpec(DayCode(day).value, s2)];
    assert SpecsOfEntries(entries) == Some(specs + []);
    assert specs + [] == specs;
    assert Truthy(Obj(entries)) && Entries(Obj(entries)) == entries;
    assert HoursSpecifications(Obj(entries)) == SpecsOfEntries(Entries(Obj(entries)));
  }

  /** The as-written space split of "Mo o1-c1, Mo o2-c2": the time range taken is "o1-c1,". */
  lemma TwoSlotsSplitAsWritten(code: string, o1: string, c1: string, rest: string)
    requires code in DayCodes && Plain(o1) && Plain(c1)
    ensures SpecOfAsWritten(code + " " + (o1 + "-" + c1) + ", " + rest) == Some(HoursSpec(code, o1, Some(c1 + ",")))
  {
    DayCodeShape(code);
    var s1 := o1 + "-" + c1;
    var t := code + " " + s1 + ", " + rest;
    assert t == code + [' '] + ((s1 + ",") + [' '] + rest);
    SplitAt(code, ' ', (s1 + ",") + [' '] + rest);
    assert ' ' !in s1 + ",";
    SplitAt(s1 + ",", ' ', rest);
    assert s1 + "," == o1 + ['-'] + (c1 + ",");
    SplitAt(o1, '-', c1 + ",");
    assert '-' !in c1 + ",";
    SplitHead(c1 + ",", '-');
  }

  /** The corrected record of a slot "o-c" opens at o and closes at c. */
  lemma PlainSlotSpec(code: string, o: string, c: string)
    requires Plain(o) && Plain(c)
    ensures SlotSpec(code, o + "-" + c) == HoursSpec(code, o, Some(c))
  {
    var s := o + "-" + c;
    assert '–' !in s;
    assert s == o + ['-'] + c;
    SplitAt(o, '-', c);
    SplitHead(c, '-');
  }

  /**
   * A day with two slots "o1-c1" and "o2-c2", as written: `formatOpeningHours` gives the single
   * string "Mo o1-c1, Mo o2-c2", whose space split yields one record closing at "c1," (with the
   * comma) and no record for the second slot. The corrected builder gives one record per slot.
   */
  lemma TwoSlotsAsWritten(day: string, o1: string, c1: string, o2: string, c2: string)
    requires day in FrenchDays && Plain(o1) && Plain(c1) && Plain(o2) && Plain(c2)
    ensures var code := DayCode(day).value;
      var hours := Obj([(day, Arr([Str(o1 + "-" + c1), Str(o2 + "-" + c2)]))]);
      var t := code + " " + (o1 + "-" + c1) + ", " + (code + " " + (o2 + "-" + c2));
      && FormatOpeningHours(hours) == Some([t])
      && SpecsAsWritten([t]) == Some([HoursSpec(code, o1, Some(c1 + ","))])
      && HoursSpecifications(hours) == Some([HoursSpec(code, o1, Some(c1)), HoursSpec(code, o2, Some(c2))])
  {
    var code := DayCode(day).value;
    var s1, s2 := o1 + "-" + c1, o2 + "-" + c2;
    NotFerme(o1, c1);
    NoEnDash(s1);
    NoEnDash(s2);
    TwoSlotsFormatted(day, s1, s2);
    TwoSlotsSplitAsWritten(code, o1, c1, code + " " + s2);
    var t := code + " " + s1 + ", " + (code + " " + s2);
    assert SpecsAsWritten([t]) == Some([HoursSpec(code, o1, Some(c1 + ","))]) by {
      assert [t][0] == t && [t][1..] == [];
      assert SpecOfAsWritten(t) == Some(HoursSpec(code, o1, Some(c1 + ",")));
      assert SpecsAsWritten([]) == Some([]);
      assert [HoursSpec(code, o1, Some(c1 + ","))] + [] == [HoursSpec(code, o1, Some(c1 + ","))];
    }
    TwoSlotsCorrected(day, s1, s2);
    PlainSlotSpec(code, o1, c1);
    PlainSlotSpec(code, o2, c2);
  }

  /** A time range "o-c" is never the closed marker. */
  lemma NotFerme(o: string, c: string)
    ensures o + "-" + c != "Fermé"
  {
    assert (o + "-" + c)[|o|] == '-';
    assert '-' !in "Fermé";
  }

  /** Replacing the en dash leaves a text without one unchanged. */
  lemma NoEnDash(s: string)
    requires '–' !in s
    ensures ReplaceFirst(s, '–', "-") == s
  {
  }

  // ---------------------------------------------------------------------------------------------
  // The records

  /** The `PostalAddress` both restaurant records carry. */
  function AddressOf(r: JsValue): PostalAddress
  {
    PostalAddress(Get(r, "address"), Get(r, "city"), Get(r, "postalCode"))
  }

  /**
   * The `openingHoursSpecification` member of a restaurant record, as written: `None` when
   * formatting fails, `Some(None)` (member absent) when the formatted list is empty, and otherwise
   * one record per formatted string, split at its space and then at its dash.
   */
  function HoursMember(openingHours: JsValue): (r: Option<Option<seq<HoursSpec>>>)
    ensures r.None? <==> FormatOpeningHours(openingHours).None?
    ensures r.Some? ==> (r.value.Some? <==> |FormatOpeningHours(openingHours).value| > 0)
    ensures r.Some? && r.value.Some? ==>
      var formatted := FormatOpeningHours(openingHours).value;
      && |r.value.value| == |formatted| > 0
      && (forall k :: 0 <= k < |formatted| ==> r.value.value[k] == SpecOfAsWritten(formatted[k]).value)
      && (forall k :: 0 <= k < |formatted| ==> r.value.value[k].dayOfWeek in DayCodes)
  {
    match FormatOpeningHours(openingHours)
    case None => None
    case Some(formatted) =>
      if |formatted| == 0 then Some(None)
      else
        SpecsAsWrittenTotal(formatted);
        Some(Some(SpecsAsWritten(formatted).value))
  }

  /**
   * The `openingHoursSpecification` member as intended (the corrected builder): one record per
   * slot of every kept day, present exactly when the program's member is.
   */
  function HoursMemberCorrected(openingHours: JsValue): (r: Option<Option<seq<HoursSpec>>>)
    ensures r.None? <==> FormatOpeningHours(openingHours).None?
    ensures r.Some? ==> (r.value.Some? <==> |FormatOpeningHours(openingHours).value| > 0)
    ensures r.Some? && r.value.Some? ==>
      |r.value.value| >= |FormatOpeningHours(openingHours).value| > 0 &&
      forall k :: 0 <= k < |r.value.value| ==> r.value.value[k].dayOfWeek in DayCodes
  {
    SpecsFollowFormattedHours(openingHours);
    match FormatOpeningHours(openingHours)
    case None => None
    case Some(formatted) =>
      if |formatted| > 0 then Some(Some(HoursSpecifications(openingHours).value)) else Some(None)
  }

  /**
   * The two-slot day of `TwoSlotsAsWritten` inside a restaurant record: the program publishes a
   * single specification closing at "c1," and nothing for the second slot, while the corrected
   * member carries both slots.
   */
  lemma TwoSlotsMemberAsWritten(day: string, o1: string, c1: string, o2: string, c2: string)
    requires day in FrenchDays && Plain(o1) && Plain(c1) && Plain(o2) && Plain(c2)
    ensures var code := DayCode(day).value;
      var hours := Obj([(day, Arr([Str(o1 + "-" + c1), Str(o2 + "-" + c2)]))]);
      && HoursMember(hours) == Some(Some([HoursSpec(code, o1, Some(c1 + ","))]))
      && HoursMemberCorrected(hours) == Some(Some([HoursSpec(code, o1, Some(c1)), HoursSpec(code, o2, Some(c2))]))
  {
    TwoSlotsAsWritten(day, o1, c1, o2, c2);
  }

  /** The WebSite record, with its search action's URL template. */
  function WebSiteSchema(base: string): (s: Schema)
    ensures s.WebSite? && s.url == base && base <= s.urlTemplate
  {
    WebSite(base, base + "/carte?search={search_term_string}")
  }

  /** The Restaurant record of one restaurant; `None` when its opening hours cannot be formatted. */
  function RestaurantSchema(base: string, r: JsValue): (s: Option<Schema>)
    ensures s.None? <==> FormatOpeningHours(Get(r, "openingHours")).None?
    ensures s.Some? ==> s.value.Restaurant?
    ensures s.Some? ==>
      && s.value.hours == HoursMember(Get(r, "openingHours")).value
      && s.value.name == Get(r, "name") && s.value.address == AddressOf(r) && s.value.telephone == Get(r, "phone")
      && s.value.url == base + "/carte?name=" + ToText(Get(r, "id"))
  {
    match HoursMember(Get(r, "openingHours"))
    case None => None
    case Some(hours) =>
      Some(Restaurant(Get(r, "name"), AddressOf(r), Get(r, "phone"), base + "/carte?name=" + ToText(Get(r, "id")), hours))
  }

  /** The FoodEstablishment record of the selected restaurant on the current path. */
  function LocalBusinessSchema(base: string, path: string, r: JsValue): (s: Option<Schema>)
    ensures s.None? <==> FormatOpeningHours(Get(r, "openingHours")).None?
    ensures s.Some? ==> s.value.FoodEstablishment? && s.value.image == base + "/logo.webp"
    ensures s.Some? ==>
      && s.value.hours == HoursMember(Get(r, "openingHours")).value
      && s.value.name == Get(r, "name") && s.value.address == AddressOf(r) && s.value.telephone == Get(r, "phone")
      && s.value.url == base + path + "?name=" + ToText(Get(r, "id"))
  {
    match HoursMember(Get(r, "openingHours"))
    case None => None
    case Some(hours) =>
      Some(FoodEstablishment(Get(r, "name"), base + "/logo.webp", AddressOf(r), Get(r, "phone"),
                             base + path + "?name=" + ToText(Get(r, "id")), hours))
  }

  /**
   * The selected restaurant's FoodEstablishment record describes the same restaurant as its
   * Restaurant record: same name, address, telephone and hours, and on "/carte" the same URL.
   */
  lemma LocalBusinessMatchesRestaurant(base: string, path: string, r: JsValue)
    ensures RestaurantSchema(base, r).None? <==> LocalBusinessSchema(base, path, r).None?
    ensures RestaurantSchema(base, r).Some? ==>
      var a, b := RestaurantSchema(base, r).value, LocalBusinessSchema(base, path, r).value;
      a.name == b.name && a.address == b.address && a.telephone == b.telephone && a.hours == b.hours &&
      (path == "/carte" ==> a.url == b.url)
  {
  }

  /** The breadcrumb name of a path; "Page" for a path the site does not name. */
  function PageName(path: string): (name: string)
    ensures name == "Page" <==> path !in {"/carte", "/a-emporter", "/reservation", "/contact", "/histoire"}
  {
    if path == "/carte" then "Carte"
    else if path == "/a-emporter" then "À emporter"
    else if path == "/reservation" then "Réservation"
    else if path == "/contact" then "Contact"
    else if path == "/histoire" then "Histoire"
    else "Page"
  }

  /** The BreadcrumbList: the home item alone on "/", followed by the page's item elsewhere. */
  function Breadcrumb(base: string, path: string): (s: Schema)
    ensures s.BreadcrumbList?
    ensures |s.items| == if path == "/" then 1 else 2
    ensures s.items[0] == ListItem(1, "Accueil", base)
    ensures path != "/" ==> s.items[1] == ListItem(2, PageName(path), base + path)
    ensures forall k :: 0 <= k < |s.items| ==> s.items[k].position == k + 1
  {
    BreadcrumbList([ListItem(1, "Accueil", base)] +
      (if path != "/" then [ListItem(2, PageName(path), base + path)] else []))
  }

  // ---------------------------------------------------------------------------------------------
  // Replacing the scripts of the head

  /** The children of the head without its ld+json scripts, in order. */
  function WithoutLdJson(nodes: seq<HeadNode>): (r: seq<HeadNode>)
    ensures |r| <= |nodes|
    ensures forall k :: 0 <= k < |r| ==> !r[k].LdJson?
  {
    if |nodes| == 0 then []
    else WithoutLdJson(nodes[..|nodes| - 1]) + (if nodes[|nodes| - 1].LdJson? then [] else [nodes[|nodes| - 1]])
  }

  /** The number of ld+json scripts among the children of the head. */
  function CountLdJson(nodes: seq<HeadNode>): nat
  {
    if |nodes| == 0 then 0
    else CountLdJson(nodes[..|nodes| - 1]) + (if nodes[|nodes| - 1].LdJson? then 1 else 0)
  }

  /** Both measures split over a concatenation. */
  lemma {:induction false} ConcatNodes(a: seq<HeadNode>, b: seq<HeadNode>)
    ensures WithoutLdJson(a + b) == WithoutLdJson(a) + WithoutLdJson(b)
    ensures CountLdJson(a + b) == CountLdJson(a) + CountLdJson(b)
    decreases |b|
  {
    if |b| == 0 {
      assert a + b == a;
    } else {
      assert (a + b)[..|a + b| - 1] == a + b[..|b| - 1];
      assert (a + b)[|a + b| - 1] == b[|b| - 1];
      ConcatNodes(a, b[..|b| - 1]);
    }
  }

  /** A head without scripts is left as it is by the removal, and counts no script. */
  lemma {:induction false} NoLdJsonFixed(nodes: seq<HeadNode>)
    requires forall k :: 0 <= k < |nodes| ==> !nodes[k].LdJson?
    ensures WithoutLdJson(nodes) == nodes && CountLdJson(nodes) == 0
  {
    if |nodes| > 0 {
      NoLdJsonFixed(nodes[..|nodes| - 1]);
      assert nodes == nodes[..|nodes| - 1] + [nodes[|nodes| - 1]];
    }
  }

  /** Scripts only: removed entirely, each one counted. */
  lemma {:induction false} AllLdJson(nodes: seq<HeadNode>)
    requires forall k :: 0 <= k < |nodes| ==> nodes[k].LdJson?
    ensures WithoutLdJson(nodes) == [] && CountLdJson(nodes) == |nodes|
  {
    if |nodes| > 0 {
      AllLdJson(nodes[..|nodes| - 1]);
    }
  }

  /** One script per record, in order. */
  function Scripts(schemas: seq<Schema>): (r: seq<HeadNode>)
    ensures |r| == |schemas| && forall k :: 0 <= k < |r| ==> r[k] == LdJson(schemas[k])
  {
    seq(|schemas|, k requires 0 <= k < |schemas| => LdJson(schemas[k]))
  }

  /** `restaurants.map(…)`: every Restaurant record in order, or the error of the first that fails. */
  function RestaurantSchemas(base: string, restaurants: seq<JsValue>): (r: Option<seq<Schema>>)
    ensures r.Some? ==> |r.value| == |restaurants|
    ensures r.Some? ==> forall k :: 0 <= k < |restaurants| ==> Some(r.value[k]) == RestaurantSchema(base, restaurants[k])
  {
    if |restaurants| == 0 then Some([])
    else
      var n := |restaurants| - 1;
      var init := RestaurantSchemas(base, restaurants[..n]);
      var last := RestaurantSchema(base, restaurants[n]);
      if init.Some? && last.Some? then
        RestaurantSchemasSnoc(base, restaurants, init.value, last.value);
        Some(init.value + [last.value])
      else None
  }

  /** The index bookkeeping of one step of `RestaurantSchemas`. */
  lemma RestaurantSchemasSnoc(base: string, restaurants: seq<JsValue>, init: seq<Schema>, last: Schema)
    requires |restaurants| > 0 && |init| == |restaurants| - 1
    requires forall k :: 0 <= k < |init| ==> Some(init[k]) == RestaurantSchema(base, restaurants[..|init|][k])
    requires Some(last) == RestaurantSchema(base, restaurants[|init|])
    ensures forall k :: 0 <= k < |restaurants| ==> Some((init + [last])[k]) == RestaurantSchema(base, restaurants[k])
  {
    forall k | 0 <= k < |restaurants|
      ensures Some((init + [last])[k]) == RestaurantSchema(base, restaurants[k])
    {
      if k < |init| {
        assert restaurants[..|init|][k] == restaurants[k];
      }
    }
  }

  /** One restaurant whose record fails makes the whole mapping fail. */
  lemma {:induction false} RestaurantSchemasFailAt(base: string, restaurants: seq<JsValue>, j: nat)
    requires j < |restaurants| && RestaurantSchema(base, restaurants[j]).None?
    ensures RestaurantSchemas(base, restaurants).None?
  {
    if j < |restaurants| - 1 {
      RestaurantSchemasFailAt(base, restaurants[..|restaurants| - 1], j);
    }
  }

  /** Appending one record appends its script. */
  lemma ScriptsSnoc(schemas: seq<Schema>, schema: Schema)
    ensures Scripts(schemas + [schema]) == Scripts(schemas) + [LdJson(schema)]
  {
  }

  /**
   * The records one run of the effect appends, in order, and whether the run ends normally
   * (`false`: a `TypeError` stopped it after the records listed).
   */
  function AppendedRecords(base: string, path: string, restaurants: seq<JsValue>, selected: JsValue): (r: (seq<Schema>, bool))
    ensures r.1 ==> |r.0| == |restaurants| + 2 + (if Truthy(selected) then 1 else 0)
    ensures r.1 ==> r.0[0] == WebSiteSchema(base) && r.0[|restaurants| + 1] == Breadcrumb(base, path)
    ensures r.1 ==> forall k :: 1 <= k <= |restaurants| ==> Some(r.0[k]) == RestaurantSchema(base, restaurants[k - 1])
    ensures r.1 && Truthy(selected) ==> Some(r.0[|restaurants| + 2]) == LocalBusinessSchema(base, path, selected)
    ensures !r.1 ==> r.0 == [] || (Truthy(selected) && LocalBusinessSchema(base, path, selected).None?)
  {
    match RestaurantSchemas(base, restaurants)
    case None => ([], false)
    case Some(schemas) =>
      var records := [WebSiteSchema(base)] + schemas + [Breadcrumb(base, path)];
      RecordsLayout(WebSiteSchema(base), schemas, Breadcrumb(base, path));
      if !Truthy(selected) then (records, true)
      else match LocalBusinessSchema(base, path, selected)
        case None => (records, false)
        case Some(local) => (records + [local], true)
  }

  /** Where each record sits in `[first] + middle + [last]`. */
  lemma RecordsLayout(first: Schema, middle: seq<Schema>, last: Schema)
    ensures var records := [first] + middle + [last];
      && |records| == |middle| + 2 && records[0] == first && records[|middle| + 1] == last
      && forall k :: 1 <= k <= |middle| ==> records[k] == middle[k - 1]
  {
  }

  /** One run of the effect on the children of the head: the old scripts go, the new ones are appended. */
  function EffectResult(nodes: seq<HeadNode>, base: string, path: string, restaurants: seq<JsValue>, selected: JsValue)
    : (r: (seq<HeadNode>, bool))
    ensures |WithoutLdJson(nodes)| <= |r.0| && r.0[..|WithoutLdJson(nodes)|] == WithoutLdJson(nodes)
    ensures forall k :: 0 <= k < |r.0| ==> (r.0[k].LdJson? <==> k >= |WithoutLdJson(nodes)|)
  {
    var (records, completed) := AppendedRecords(base, path, restaurants, selected);
    (WithoutLdJson(nodes) + Scripts(records), completed)
  }

  /**
   * A run leaves every other child of the head as it was and, when it completes, exactly
   * `|restaurants| + 2` scripts, plus one when a restaurant is selected.
   */
  lemma ScriptCount(nodes: seq<HeadNode>, base: string, path: string, restaurants: seq<JsValue>, selected: JsValue)
    ensures var (after, completed) := EffectResult(nodes, base, path, restaurants, selected);
      && WithoutLdJson(after) == WithoutLdJson(nodes)
      && (completed ==> CountLdJson(after) == |restaurants| + 2 + (if Truthy(selected) then 1 else 0))
  {
    var kept := WithoutLdJson(nodes);
    var records := AppendedRecords(base, path, restaurants, selected).0;
    NoLdJsonFixed(kept);
    AllLdJson(Scripts(records));
    ConcatNodes(kept, Scripts(records));
  }

  /** Running the effect again with the same inputs gives the same head: the scripts are replaced, not added. */
  lemma EffectRepeatable(nodes: seq<HeadNode>, base: string, path: string, restaurants: seq<JsValue>, selected: JsValue)
    ensures var once := EffectResult(nodes, base, path, restaurants, selected);
      EffectResult(once.0, base, path, restaurants, selected) == once
  {
    ScriptCount(nodes, base, path, restaurants, selected);
  }

  /** `existingScripts.forEach(script => script.remove())`: removes every ld+json script of the head. */
  method RemoveLdJson(head: Head)
    modifies head
    ensures head.nodes == WithoutLdJson(old(head.nodes))
    ensures head.title == old(head.title)
  {
    var kept: seq<HeadNode> := [];
    var i := 0;
    while i < |head.nodes|
      invariant 0 <= i <= |head.nodes|
      invariant kept == WithoutLdJson(head.nodes[..i])
    {
      assert head.nodes[..i + 1][..i] == head.nodes[..i];
      if !head.nodes[i].LdJson? {
        kept := kept + [head.nodes[i]];
      }
      i := i + 1;
    }
    assert head.nodes[..i] == head.nodes;
    head.nodes := kept;
  }

  /** `restaurants.map(…)`: builds the Restaurant records one by one, stopping at the first failure. */
  method BuildRestaurantSchemas(base: string, restaurants: seq<JsValue>) returns (r: Option<seq<Schema>>)
    ensures r == RestaurantSchemas(base, restaurants)
  {
    var schemas: seq<Schema> := [];
    var j := 0;
    while j < |restaurants|
      invariant 0 <= j <= |restaurants|
      invariant RestaurantSchemas(base, restaurants[..j]) == Some(schemas)
    {
      assert restaurants[..j + 1][..j] == restaurants[..j];
      var schema := RestaurantSchema(base, restaurants[j]);
      if schema.None? {
        RestaurantSchemasFailAt(base, restaurants, j);
        return None;
      }
      schemas := schemas + [schema.value];
      j := j + 1;
    }
    assert restaurants[..j] == restaurants;
    return Some(schemas);
  }

  /** `addStructuredData` for each record in turn: appends one ld+json script per record. */
  method AppendScripts(head: Head, records: seq<Schema>)
    modifies head
    ensures head.nodes == old(head.nodes) + Scripts(records)
    ensures head.title == old(head.title)
  {
    var k := 0;
    while k < |records|
      invariant 0 <= k <= |records|
      invariant head.nodes == old(head.nodes) + Scripts(records[..k])
      invariant head.title == old(head.title)
    {
      assert records[..k + 1] == records[..k] + [records[k]];
      ScriptsSnoc(records[..k], records[k]);
      head.nodes := head.nodes + [LdJson(records[k])];
      k := k + 1;
    }
    assert records[..k] == records;
  }

  /**
   * The effect of StructuredData.jsx on the head: remove every ld+json script, build the records,
   * then append the WebSite, Restaurant and BreadcrumbList scripts and, for a selected restaurant,
   * its FoodEstablishment script. `completed` is false when a `TypeError` stops the run.
   */
  method ReplaceStructuredData(head: Head, base: string, path: string, restaurants: seq<JsValue>, selected: JsValue)
    returns (completed: bool)
    modifies head
    ensures (head.nodes, completed) == EffectResult(old(head.nodes), base, path, restaurants, selected)
    ensures head.title == old(head.title)
  {
    RemoveLdJson(head);
    var schemas := BuildRestaurantSchemas(base, restaurants);
    if schemas.None? {
      assert head.nodes == head.nodes + Scripts([]);
      return false;
    }
    var records := [WebSiteSchema(base)] + schemas.value + [Breadcrumb(base, path)];
    AppendScripts(head, records);
    if Truthy(selected) {
      var local := LocalBusinessSchema(base, path, selected);
      if local.None? {
        return false;
      }
      ghost var kept := WithoutLdJson(old(head.nodes));
      AppendScripts(head, [local.value]);
      ScriptsSnoc(records, local.value);
      assert Scripts([local.value]) == [LdJson(local.value)];
      assert head.nodes == kept + Scripts(records + [local.value]);
    }
    return true;
  }
}
