/** The date operators of the expression builder (expr/_Date.kt). */
module ExprDates {
  import opened Wrappers
  import opened Bson
  import opened Slots
  import opened Expressions

  /** The date-part extractors. Each has a one-argument form that embeds the date directly and
      a form with a timezone that always writes a `{date, timezone?}` document. */
  datatype DatePart =
    | DayOfMonth | DayOfWeek | DayOfYear | Hour | IsoDayOfWeek | IsoWeek | IsoWeekYear
    | Millisecond | Minute | Month | Second | Week | Year

  function PartKey(part: DatePart): string {
    match part
    case DayOfMonth => "$dayOfMonth"
    case DayOfWeek => "$dayOfWeek"
    case DayOfYear => "$dayOfYear"
    case Hour => "$hour"
    case IsoDayOfWeek => "$isoDayOfWeek"
    case IsoWeek => "$isoWeek"
    case IsoWeekYear => "$isoWeekYear"
    case Millisecond => "$millisecond"
    case Minute => "$minute"
    case Month => "$month"
    case Second => "$second"
    case Week => "$week"
    case Year => "$year"
  }

  /** `dateAdd` and `dateSubtract` take the same arguments. */
  datatype ShiftOperator = DateAdd | DateSubtract

  function ShiftKey(op: ShiftOperator): string {
    match op
    case DateAdd => "$dateAdd"
    case DateSubtract => "$dateSubtract"
  }

  /** `dayOfMonth(date)` and the other one-argument extractors: `{$part: date}`. */
  function Extract(part: DatePart, date: Expr): (r: Expr)
    ensures IsOperator(r, PartKey(part)) && Operand(r) == date.element
  {
    Operator(PartKey(part), date.element)
  }

  /** `dayOfMonth(date, timezone)` and its siblings: a document with `date`, and `timezone`
      only when given. */
  function ExtractIn(part: DatePart, date: Expr, timezone: Option<Expr>): (r: Expr)
    ensures IsOperator(r, PartKey(part)) && Operand(r).Doc?
    ensures Lookup(r, "date") == Some(date.element)
    ensures Lookup(r, "timezone") == ElementOf(timezone)
    ensures KeysInOrder(r, ["date", "timezone"])
  {
    Fields2(PartKey(part), Always("date", date.element), IfPresent("timezone", ElementOf(timezone)))
  }

  /** `toDate(expression)`: `{$toDate: expression}`. */
  function ToDate(e: Expr): (r: Expr)
    ensures IsOperator(r, "$toDate") && Operand(r) == e.element
  {
    Operator("$toDate", e.element)
  }

  /** `dateAdd(startDate, unit, amount, timezone?)` and `dateSubtract`. */
  function Shift(op: ShiftOperator, startDate: Expr, unit: Expr, amount: Expr, timezone: Option<Expr>): (r: Expr)
    ensures IsOperator(r, ShiftKey(op)) && Operand(r).Doc?
    ensures Lookup(r, "startDate") == Some(startDate.element)
    ensures Lookup(r, "unit") == Some(unit.element)
    ensures Lookup(r, "amount") == Some(amount.element)
    ensures Lookup(r, "timezone") == ElementOf(timezone)
    ensures KeysInOrder(r, ["startDate", "unit", "amount", "timezone"])
  {
    Fields4(ShiftKey(op), Always("startDate", startDate.element), Always("unit", unit.element),
            Always("amount", amount.element), IfPresent("timezone", ElementOf(timezone)))
  }

  /** `dateDiff(startDate, endDate, unit, timezone?, startOfWeek?)`. */
  function DateDiff(startDate: Expr, endDate: Expr, unit: Expr, timezone: Option<Expr>, startOfWeek: Option<Expr>): (r: Expr)
    ensures IsOperator(r, "$dateDiff") && Operand(r).Doc?
    ensures Lookup(r, "startDate") == Some(startDate.element)
    ensures Lookup(r, "endDate") == Some(endDate.element)
    ensures Lookup(r, "unit") == Some(unit.element)
    ensures Lookup(r, "timezone") == ElementOf(timezone)
    ensures Lookup(r, "startOfWeek") == ElementOf(startOfWeek)
    ensures KeysInOrder(r, ["startDate", "endDate", "unit", "timezone", "startOfWeek"])
  {
    Fields5("$dateDiff", Always("startDate", startDate.element), Always("endDate", endDate.element),
            Always("unit", unit.element), IfPresent("timezone", ElementOf(timezone)),
            IfPresent("startOfWeek", ElementOf(startOfWeek)))
  }

  /** `dateFromParts(year, month?, day?, hour?, minute?, second?, millisecond?, timezone?)`. */
  function DateFromParts(year: Expr, month: Option<Expr>, day: Option<Expr>, hour: Option<Expr>,
                         minute: Option<Expr>, second: Option<Expr>, millisecond: Option<Expr>,
                         timezone: Option<Expr>): (r: Expr)
    ensures IsOperator(r, "$dateFromParts") && Operand(r).Doc?
    ensures Lookup(r, "year") == Some(year.element)
    ensures Lookup(r, "month") == ElementOf(month)
    ensures Lookup(r, "day") == ElementOf(day)
    ensures Lookup(r, "hour") == ElementOf(hour)
    ensures Lookup(r, "minute") == ElementOf(minute)
    ensures Lookup(r, "second") == ElementOf(second)
    ensures Lookup(r, "millisecond") == ElementOf(millisecond)
    ensures Lookup(r, "timezone") == ElementOf(timezone)
    ensures KeysInOrder(r, ["year", "month", "day", "hour", "minute", "second", "millisecond", "timezone"])
    ensures |Operand(r).fields| > 0 && Operand(r).fields[0] == Field("year", year.element)
  {
    Fields8("$dateFromParts", Always("year", year.element), IfPresent("month", ElementOf(month)),
            IfPresent("day", ElementOf(day)), IfPresent("hour", ElementOf(hour)),
            IfPresent("minute", ElementOf(minute)), IfPresent("second", ElementOf(second)),
            IfPresent("millisecond", ElementOf(millisecond)), IfPresent("timezone", ElementOf(timezone)))
  }

  /** `dateFromParts_IsoWeek(isoWeekYear, isoWeek?, isoDayOfWeek?, hour?, ...)`: the same
      operator key as `dateFromParts`, led by `isoWeekYear`. */
  function DateFromIsoWeekParts(isoWeekYear: Expr, isoWeek: Option<Expr>, isoDayOfWeek: Option<Expr>,
                                hour: Option<Expr>, minute: Option<Expr>, second: Option<Expr>,
                                millisecond: Option<Expr>, timezone: Option<Expr>): (r: Expr)
    ensures IsOperator(r, "$dateFromParts") && Operand(r).Doc?
    ensures Lookup(r, "isoWeekYear") == Some(isoWeekYear.element)
    ensures Lookup(r, "isoWeek") == ElementOf(isoWeek)
    ensures Lookup(r, "isoDayOfWeek") == ElementOf(isoDayOfWeek)
    ensures Lookup(r, "hour") == ElementOf(hour)
    ensures Lookup(r, "minute") == ElementOf(minute)
    ensures Lookup(r, "second") == ElementOf(second)
    ensures Lookup(r, "millisecond") == ElementOf(millisecond)
    ensures Lookup(r, "timezone") == ElementOf(timezone)
    ensures KeysInOrder(r, ["isoWeekYear", "isoWeek", "isoDayOfWeek", "hour", "minute", "second", "millisecond", "timezone"])
    ensures |Operand(r).fields| > 0 && Operand(r).fields[0] == Field("isoWeekYear", isoWeekYear.element)
  {
    Fields8("$dateFromParts", Always("isoWeekYear", isoWeekYear.element), IfPresent("isoWeek", ElementOf(isoWeek)),
            IfPresent("isoDayOfWeek", ElementOf(isoDayOfWeek)), IfPresent("hour", ElementOf(hour)),
            IfPresent("minute", ElementOf(minute)), IfPresent("second", ElementOf(second)),
            IfPresent("millisecond", ElementOf(millisecond)), IfPresent("timezone", ElementOf(timezone)))
  }

  /** `dateFromString(dateString, format?, timezone?, onError?, onNull?)`. */
  function DateFromString(dateString: Expr, format: Option<Expr>, timezone: Option<Expr>,
                          onError: Option<Expr>, onNull: Option<Expr>): (r: Expr)
    ensures IsOperator(r, "$dateFromString") && Operand(r).Doc?
    ensures Lookup(r, "dateString") == Some(dateString.element)
    ensures Lookup(r, "format") == ElementOf(format)
    ensures Lookup(r, "timezone") == ElementOf(timezone)
    ensures Lookup(r, "onError") == ElementOf(onError)
    ensures Lookup(r, "onNull") == ElementOf(onNull)
    ensures KeysInOrder(r, ["dateString", "format", "timezone", "onError", "onNull"])
  {
    Fields5("$dateFromString", Always("dateString", dateString.element), IfPresent("format", ElementOf(format)),
            IfPresent("timezone", ElementOf(timezone)), IfPresent("onError", ElementOf(onError)),
            IfPresent("onNull", ElementOf(onNull)))
  }

  /** `dateToParts(date, timezone?, iso8601?)`: `iso8601` is a Boolean element. */
  function DateToParts(date: Expr, timezone: Option<Expr>, iso8601: Option<bool>): (r: Expr)
    ensures IsOperator(r, "$dateToParts") && Operand(r).Doc?
    ensures Lookup(r, "date") == Some(date.element)
    ensures Lookup(r, "timezone") == ElementOf(timezone)
    ensures Lookup(r, "iso8601") == BoolOf(iso8601)
    ensures KeysInOrder(r, ["date", "timezone", "iso8601"])
  {
    Fields3("$dateToParts", Always("date", date.element), IfPresent("timezone", ElementOf(timezone)),
            IfPresent("iso8601", BoolOf(iso8601)))
  }

  /** `dateToString(date, format?, timezone?, onNull?)`. */
  function DateToString(date: Expr, format: Option<Expr>, timezone: Option<Expr>, onNull: Option<Expr>): (r: Expr)
    ensures IsOperator(r, "$dateToString") && Operand(r).Doc?
    ensures Lookup(r, "date") == Some(date.element)
    ensures Lookup(r, "format") == ElementOf(format)
    ensures Lookup(r, "timezone") == ElementOf(timezone)
    ensures Lookup(r, "onNull") == ElementOf(onNull)
    ensures KeysInOrder(r, ["date", "format", "timezone", "onNull"])
  {
    Fields4("$dateToString", Always("date", date.element), IfPresent("format", ElementOf(format)),
            IfPresent("timezone", ElementOf(timezone)), IfPresent("onNull", ElementOf(onNull)))
  }

  /** `dateTrunc(date, unit, binSize?, timezone?, startOfWeek?)`. */
  function DateTrunc(date: Expr, unit: Expr, binSize: Option<Expr>, timezone: Option<Expr>, startOfWeek: Option<Expr>): (r: Expr)
    ensures IsOperator(r, "$dateTrunc") && Operand(r).Doc?
    ensures Lookup(r, "date") == Some(date.element)
    ensures Lookup(r, "unit") == Some(unit.element)
    ensures Lookup(r, "binSize") == ElementOf(binSize)
    ensures Lookup(r, "timezone") == ElementOf(timezone)
    ensures Lookup(r, "startOfWeek") == ElementOf(startOfWeek)
    ensures KeysInOrder(r, ["date", "unit", "binSize", "timezone", "startOfWeek"])
  {
    Fields5("$dateTrunc", Always("date", date.element), Always("unit", unit.element),
            IfPresent("binSize", ElementOf(binSize)), IfPresent("timezone", ElementOf(timezone)),
            IfPresent("startOfWeek", ElementOf(startOfWeek)))
  }

  /** The timezone form of an extractor with no timezone still writes a `{date: ...}`
      document, never the bare date of the one-argument form. */
  lemma ExtractFormsDiffer(part: DatePart, date: Expr)
    ensures Operand(ExtractIn(part, date, None)) == Doc([Field("date", date.element)])
    ensures Operand(ExtractIn(part, date, None)) != Operand(Extract(part, date))
  {
    var slots := [Always("date", date.element), IfPresent("timezone", None)];
    assert slots[1..] == [IfPresent("timezone", None)];
    assert slots[1..][1..] == [];
    assert Written(slots[1..]) == [];
    assert Written(slots) == [Field("date", date.element)];
    BuildWritten(slots);
    var d := Doc([Field("date", date.element)]);
    assert d.fields[0] in d.fields;
    assert date.element < d;
  }

  /** The calendar and ISO-week forms of `dateFromParts` share the operator key but never
      build the same expression: one leads with `year`, the other with `isoWeekYear`. */
  lemma FromPartsFormsDiffer(year: Expr, month: Option<Expr>, day: Option<Expr>,
                             isoWeekYear: Expr, isoWeek: Option<Expr>, isoDayOfWeek: Option<Expr>,
                             hour: Option<Expr>, minute: Option<Expr>, second: Option<Expr>,
                             millisecond: Option<Expr>, timezone: Option<Expr>)
    ensures DateFromParts(year, month, day, hour, minute, second, millisecond, timezone)
         != DateFromIsoWeekParts(isoWeekYear, isoWeek, isoDayOfWeek, hour, minute, second, millisecond, timezone)
  {
    var p := DateFromParts(year, month, day, hour, minute, second, millisecond, timezone);
    var q := DateFromIsoWeekParts(isoWeekYear, isoWeek, isoDayOfWeek, hour, minute, second, millisecond, timezone);
    assert Operand(p).fields[0].name != Operand(q).fields[0].name;
  }

  /** The extractors write distinct keys. */
  lemma PartKeysDistinct(a: DatePart, b: DatePart)
    requires a != b
    ensures PartKey(a) != PartKey(b)
  {
  }
}
