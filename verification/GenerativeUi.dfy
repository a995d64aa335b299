/**
  Cards of the generative interface: the renderer that normalises a model's payload, and the validator
  that normalises the result again before it crosses to a native client.

  A component's normaliser is a tree of rules: one leaf per value check, and per object or list the
  conditions its code checks on the normalised members. Calls into the standard library (Unicode
  normalisation, dates, digests, JSON text) are the functions of a `Host`.
*/
module GenerativeUi {
  import opened Strings
  import opened Wrappers

  const V2_MAX_BYTES := 32768
  const MAX_MAGNITUDE := 1000000000000
  const MAX_AGE := 31536000
  const FORM_LIFE := 300
  const CLOCK_SLACK := 300

  // What a Python datetime can hold, in seconds of UTC: the years 1 to 9999.
  const MIN_INSTANT := -62135596800
  const MAX_INSTANT := 253402300799
  type Instant = t: int | MIN_INSTANT <= t <= MAX_INSTANT witness 0

  datatype Json =
    | Null | Boolean(b: bool) | Integer(n: int) | Float(r: real) | NotFinite
    | Text(s: string) | Array(items: seq<Json>) | Object(fields: map<string, Json>)

  datatype Pattern = TimeZoneName | StockSymbol | Currency | Abbreviation | ShortId | Hex32

  datatype Host = Host(
    nfc: string -> string,                    // UAX #15, Normalization Form C
    lower: string -> string,
    matches: (Pattern, string) -> bool,
    parseTime: string -> Option<Instant>,     // section 5.6 of RFC 3339, in whole seconds of UTC
    timeText: Instant -> string,
    parseDate: string -> Option<string>,      // to the form YYYY-MM-DD
    sha256: Content -> string,
    size: Envelope -> nat,                    // bytes of the canonical JSON text
    canonical: Envelope -> string)

  // ---- Leaves ----

  predicate NoControls(t: string, textarea: bool) {
    forall i :: 0 <= i < |t| ==> t[i] as int >= 32 || (textarea && (t[i] == '\n' || t[i] == '\t'))
  }

  function String(h: Host, v: Json, minimum: nat, maximum: nat, textarea: bool): Option<Json> {
    if !v.Text? then None
    else
      var t := h.nfc(v.s);
      if minimum <= |t| <= maximum && NoControls(t, textarea) then Some(Text(t)) else None
  }

  predicate IsWhole(r: real) { r.Floor as real == r }

  // At most six fractional digits; a whole float becomes an integer.
  function Number(v: Json, lo: real, hi: real): Option<Json> {
    match v
    case Integer(n) => if -MAX_MAGNITUDE <= n <= MAX_MAGNITUDE && lo <= n as real <= hi then Some(v) else None
    case Float(r) =>
      if !(-MAX_MAGNITUDE as real <= r <= MAX_MAGNITUDE as real && lo <= r <= hi) || !IsWhole(r * 1000000.0) then None
      else if IsWhole(r) then Some(Integer(r.Floor)) else Some(v)
    case _ => None
  }

  // ---- Rules ----

  datatype ListCheck = AnyItems | DistinctIds | WeatherPeriods | ChartSeries | AscendingPoints | DistinctItems

  datatype RecordCheck =
    | AnyFields | PeriodFields | GameFields | QuoteFields | AxisFields | PointTotal(maximum: nat) | TextFieldLimits(maximum: nat)
    | SelectFieldDefault | MultiFieldDefault | NumberFieldRange | DateFieldRange | SelectionFields | AutomationFields

  // What happens to a normalised object before its conditions are checked.
  datatype Finish = Keep | AwayTeamFirst | FillMaxSelected

  datatype Rule =
    | StringRule(minimum: nat, maximum: nat, textarea: bool)
    | PatternRule(minimum: nat, maximum: nat, pattern: Pattern)
    | EnumRule(choices: set<string>)
    | NumberRule(lo: real, hi: real)
    | IntegerRule(least: int, most: int)
    | BooleanRule
    | OfferedRule                                    // a string compared with what is offered, kept as it is
    | TimestampRule
    | DateRule
    | NullOr(rule: Rule)
    | ListRule(minimum: nat, maximum: nat, item: Rule, items: ListCheck)
    | RecordRule(members: map<string, Member>, fields: RecordCheck, finish: Finish)
    | SwitchRule(path: seq<string>, cases: map<string, Rule>)   // by the string found along the path

  datatype Member = Required(rule: Rule) | Optional(rule: Rule)

  // The string at the end of a path of object keys.
  function Tag(v: Json, path: seq<string>): Option<string> {
    if path == [] then (if v.Text? then Some(v.s) else None)
    else if v.Object? && path[0] in v.fields then Tag(v.fields[path[0]], path[1..])
    else None
  }

  function Leaf(h: Host, rule: Rule, v: Json): Option<Json> {
    match rule
    case StringRule(lo, hi, textarea) => String(h, v, lo, hi, textarea)
    case PatternRule(lo, hi, p) =>
      var t := String(h, v, lo, hi, false);
      if t.Some? && h.matches(p, t.value.s) then t else None
    case EnumRule(choices) => if v.Text? && v.s in choices then Some(v) else None
    case NumberRule(lo, hi) => Number(v, lo, hi)
    case IntegerRule(least, most) => if v.Integer? && least <= v.n <= most then Some(v) else None
    case BooleanRule => if v.Boolean? then Some(v) else None
    case OfferedRule => if v.Text? then Some(v) else None
    case TimestampRule =>
      if v.Text? && h.parseTime(v.s).Some? then Some(Text(h.timeText(h.parseTime(v.s).value))) else None
    case DateRule =>
      if v.Text? && h.parseDate(v.s).Some? then Some(Text(h.parseDate(v.s).value)) else None
    case _ => None
  }

  function Normalize(h: Host, rule: Rule, v: Json): Option<Json>
    decreases rule
  {
    match rule
    case NullOr(inner) => if v == Null then Some(Null) else Normalize(h, inner, v)
    case ListRule(lo, hi, item, check) =>
      if !v.Array? || !(lo <= |v.items| <= hi) || exists i :: 0 <= i < |v.items| && Normalize(h, item, v.items[i]).None? then None
      else
        var out := seq(|v.items|, i requires 0 <= i < |v.items| => Normalize(h, item, v.items[i]).value);
        if ListOk(h, check, out) then Some(Array(out)) else None
    case RecordRule(members, check, finish) =>
      if !v.Object? || !KeysOk(members, v.fields) || exists k :: k in v.fields && Normalize(h, members[k].rule, v.fields[k]).None? then None
      else
        var out := Finished(finish, map k | k in v.fields :: Normalize(h, members[k].rule, v.fields[k]).value);
        if RecordOk(h, check, out) then Some(Object(out)) else None
    case SwitchRule(path, cases) =>
      (match Tag(v, path)
       case Some(t) => if t in cases then Normalize(h, cases[t], v) else None
       case None => None)
    case _ => Leaf(h, rule, v)
  }

  predicate KeysOk(members: map<string, Member>, fields: map<string, Json>) {
    && (forall k :: k in fields ==> k in members)
    && (forall k :: k in members && members[k].Required? ==> k in fields)
  }

  // ---- Conditions on normalised members ----

  function At(o: map<string, Json>, k: string): Json { if k in o then o[k] else Null }

  function FieldOf(v: Json, k: string): Json { if v.Object? then At(v.fields, k) else Null }

  function TextOf(v: Json): string { if v.Text? then v.s else [] }

  function ItemsOf(v: Json): seq<Json> { if v.Array? then v.items else [] }

  function IntOf(v: Json, default: int): int { if v.Integer? then v.n else default }

  function RealOf(v: Json): real { if v.Integer? then v.n as real else if v.Float? then v.r else 0.0 }

  predicate IsNumber(v: Json) { v.Integer? || v.Float? }

  function TimeOf(h: Host, v: Json): int { if v.Text? && h.parseTime(v.s).Some? then h.parseTime(v.s).value else 0 }

  predicate DistinctBy(items: seq<Json>, k: string) {
    forall i, j :: 0 <= i < j < |items| ==> FieldOf(items[i], k) != FieldOf(items[j], k)
  }

  predicate Distinct(items: seq<Json>) { forall i, j :: 0 <= i < j < |items| ==> items[i] != items[j] }

  // Two optional numbers in order, when both are given.
  predicate InOrder(o: map<string, Json>, lo: string, hi: string) {
    lo in o && hi in o ==> RealOf(o[lo]) <= RealOf(o[hi])
  }

  predicate TextInOrder(o: map<string, Json>, lo: string, hi: string) {
    lo in o && hi in o ==> !Less(TextOf(o[hi]), TextOf(o[lo]))
  }

  predicate Offered(options: seq<Json>, v: Json) { exists o :: o in options && FieldOf(o, "id") == v }

  predicate ListOk(h: Host, check: ListCheck, items: seq<Json>) {
    match check
    case AnyItems => true
    case DistinctIds => DistinctBy(items, "id")
    case WeatherPeriods =>
      DistinctBy(items, "id")
      && forall i :: 0 < i < |items| ==> TimeOf(h, FieldOf(items[i - 1], "start_at")) < TimeOf(h, FieldOf(items[i], "start_at"))
    case ChartSeries => DistinctBy(items, "id") && DistinctBy(items, "label")
    case AscendingPoints =>
      forall i :: 0 < i < |items| ==> Less(TextOf(FieldOf(items[i - 1], "x")), TextOf(FieldOf(items[i], "x")))
    case DistinctItems => Distinct(items)
  }

  function PointsIn(series: seq<Json>): nat {
    if series == [] then 0 else |ItemsOf(FieldOf(series[0], "points"))| + PointsIn(series[1..])
  }

  function Min(a: int, b: int): int { if a < b then a else b }

  predicate GameOk(o: map<string, Json>) {
    var status := TextOf(At(o, "status"));
    var teams := ItemsOf(At(o, "teams"));
    && (TextOf(At(o, "league")) == "other" <==> "league_label" in o)
    && ("period_label" in o ==> status == "live" || status == "final")
    && ("clock" in o ==> status == "live")
    && DistinctBy(teams, "id") && DistinctBy(teams, "abbreviation") && DistinctBy(teams, "home")
    && (status == "live" || status == "final" ==> forall t :: t in teams ==> FieldOf(t, "score") != Null)
  }

  predicate RecordOk(h: Host, check: RecordCheck, o: map<string, Json>) {
    match check
    case AnyFields => true
    case PeriodFields => TimeOf(h, At(o, "start_at")) < TimeOf(h, At(o, "end_at")) && InOrder(o, "low", "high")
    case GameFields => GameOk(o)
    case QuoteFields => InOrder(o, "day_low", "day_high")
    case AxisFields => "min" in o && "max" in o ==> RealOf(o["min"]) < RealOf(o["max"])
    case PointTotal(maximum) => PointsIn(ItemsOf(At(o, "series"))) <= maximum
    case TextFieldLimits(maximum) =>
      var least, most := IntOf(At(o, "min_length"), 0), IntOf(At(o, "max_length"), maximum);
      least <= most && ("default" in o ==> least <= |TextOf(o["default"])| <= most)
    case SelectFieldDefault => "default" in o ==> Offered(ItemsOf(At(o, "options")), o["default"])
    case MultiFieldDefault =>
      var options, chosen := ItemsOf(At(o, "options")), ItemsOf(At(o, "default"));
      && IntOf(At(o, "max_selected"), 0) <= Min(10, |options|) && |chosen| <= IntOf(At(o, "max_selected"), 0)
      && Distinct(chosen) && forall v :: v in chosen ==> Offered(options, v)
    case NumberFieldRange => InOrder(o, "min", "max") && InOrder(o, "min", "default") && InOrder(o, "default", "max")
    case DateFieldRange => TextInOrder(o, "min", "max") && TextInOrder(o, "min", "default") && TextInOrder(o, "default", "max")
    case SelectionFields =>
      if TextOf(At(o, "mode")) == "multiple" then IntOf(At(o, "max_selected"), 0) <= Min(10, |ItemsOf(At(o, "options"))|)
      else "max_selected" !in o
    case AutomationFields =>
      var operations, state := ItemsOf(At(o, "operations")), TextOf(At(o, "state"));
      (Text("pause") in operations ==> state == "active") && (Text("resume") in operations ==> state == "paused")
  }

  // sorted(teams, key=home): of two teams of which one is at home, the other comes first.
  function TeamsSorted(teams: seq<Json>): seq<Json> {
    if |teams| == 2 && FieldOf(teams[0], "home") == Boolean(true) && FieldOf(teams[1], "home") == Boolean(false)
    then [teams[1], teams[0]] else teams
  }

  function Finished(finish: Finish, o: map<string, Json>): map<string, Json> {
    match finish
    case Keep => o
    case AwayTeamFirst => if "teams" in o && o["teams"].Array? then o["teams" := Array(TeamsSorted(o["teams"].items))] else o
    case FillMaxSelected =>
      if TextOf(At(o, "mode")) == "multiple" && "max_selected" !in o && "options" in o && o["options"].Array? && o["options"].items != []
      then o["max_selected" := Integer(Min(10, |o["options"].items|))] else o
  }

  // ---- The whole payload ----

  const V2_FORBIDDEN: set<string> := {
    "url", "uri", "href", "style", "styles", "css", "html", "javascript", "js", "route", "routes", "module", "native",
    "command", "shell", "rpc", "method", "endpoint", "headers", "token", "secret", "password", "script", "eval", "action", "actions"}

  predicate Permitted(h: Host, key: string) { h.lower(key) !in V2_FORBIDDEN }

  // Lists do not consume nesting.
  predicate GlobalOk(h: Host, v: Json, depth: nat) {
    depth <= 6 &&
    match v
    case Object(fields) => forall k :: k in fields ==> Permitted(h, k) && GlobalOk(h, fields[k], depth + 1)
    case Array(items) => forall i :: 0 <= i < |items| ==> GlobalOk(h, items[i], depth)
    case Text(s) => String(h, v, 0, if |s| < 500 then 500 else |s|, false).Some?
    case Boolean(_) => true
    case Null => true
    case _ => Number(v, -MAX_MAGNITUDE as real, MAX_MAGNITUDE as real).Some?
  }

  // A renderer payload, a renderer result, or anything else at its place: the keys the code knows, and the others.
  datatype Envelope = Envelope(
    schema: Option<Json>, version: Option<Json>, component: Option<Json>, title: Option<Json>, subtitle: Option<Json>,
    data: Option<Json>, provenance: Option<Json>, contentHash: Option<Json>, createdAt: Option<Json>, origin: Option<Json>,
    cardId: Option<Json>, action: Option<Action>, others: map<string, Json>)

  // The submit action of a form, with exactly its keys, or something else.
  datatype Action = Action(kind: Json, requestId: Json, profile: Json, sessionId: Json, expiresAt: Json) | Malformed

  // What the content hash covers.
  datatype Content = Content(component: string, title: Json, data: Json, subtitle: Option<Json>, provenance: Option<Json>)

  // ---- The components ----

  function Line(maximum: nat): Rule { StringRule(1, maximum, false) }

  function Area(maximum: nat): Rule { StringRule(1, maximum, true) }

  function IdText(): Rule { PatternRule(1, 40, ShortId) }

  function Condition(): Rule { EnumRule({"clear", "partly_cloudy", "cloudy", "rain", "snow", "sleet", "storm", "fog", "wind", "smoke", "unknown"}) }

  function WeatherForecast(): Rule {
    RecordRule(
      map["location" := Required(Line(120)), "timezone" := Required(PatternRule(1, 64, TimeZoneName)),
          "units" := Required(EnumRule({"us", "metric"})), "current" := Required(WeatherNow()),
          "periods" := Required(ListRule(1, 14, WeatherPeriod(), WeatherPeriods))],
      AnyFields, Keep)
  }

  function WeatherNow(): Rule {
    RecordRule(
      map["condition_code" := Required(Condition()), "condition_label" := Required(Line(80)),
          "temperature" := Required(NumberRule(-150.0, 150.0)), "feels_like" := Optional(NumberRule(-150.0, 150.0)),
          "wind_speed" := Optional(NumberRule(0.0, 500.0)), "humidity_percent" := Optional(IntegerRule(0, 100)),
          "wind_direction" := Optional(Line(16))],
      AnyFields, Keep)
  }

  function WeatherPeriod(): Rule {
    RecordRule(
      map["id" := Required(IdText()), "label" := Required(Line(40)), "start_at" := Required(TimestampRule), "end_at" := Required(TimestampRule),
          "condition_code" := Required(Condition()), "condition_label" := Required(Line(80)),
          "precipitation_percent" := Required(IntegerRule(0, 100)),
          "high" := Optional(NumberRule(-150.0, 150.0)), "low" := Optional(NumberRule(-150.0, 150.0))],
      PeriodFields, Keep)
  }

  function Team(): Rule {
    RecordRule(
      map["id" := Required(IdText()), "name" := Required(Line(80)), "abbreviation" := Required(PatternRule(1, 8, Abbreviation)),
          "home" := Required(BooleanRule), "score" := Required(NullOr(IntegerRule(0, 999))), "record" := Optional(Line(24))],
      AnyFields, Keep)
  }

  function SportsGame(): Rule {
    RecordRule(
      map["league" := Required(EnumRule({"nfl", "nba", "wnba", "mlb", "nhl", "ncaaf", "ncaam", "ncaaw", "mls", "other"})),
          "league_label" := Optional(Line(40)),
          "status" := Required(EnumRule({"scheduled", "live", "final", "postponed", "cancelled"})),
          "start_at" := Required(TimestampRule), "period_label" := Optional(Line(20)), "clock" := Optional(Line(20)),
          "venue" := Optional(Line(120)), "teams" := Required(ListRule(2, 2, Team(), AnyItems)),
          "highlights" := Optional(ListRule(0, 8, Line(160), AnyItems))],
      GameFields, AwayTeamFirst)
  }

  function Amount(): Rule { NumberRule(0.0, MAX_MAGNITUDE as real) }

  function Signed(): Rule { NumberRule(-MAX_MAGNITUDE as real, MAX_MAGNITUDE as real) }

  function StockQuote(): Rule {
    RecordRule(
      map["symbol" := Required(PatternRule(1, 12, StockSymbol)), "exchange" := Required(Line(20)), "company_name" := Required(Line(120)),
          "currency" := Required(PatternRule(3, 3, Currency)),
          "market_status" := Required(EnumRule({"pre_market", "open", "after_hours", "closed", "halted"})),
          "price" := Required(Amount()), "change" := Required(Signed()), "change_percent" := Required(NumberRule(-1000000.0, 1000000.0)),
          "previous_close" := Optional(Amount()), "session_open" := Optional(Amount()), "day_high" := Optional(Amount()),
          "day_low" := Optional(Amount()), "volume" := Optional(IntegerRule(0, MAX_MAGNITUDE))],
      QuoteFields, Keep)
  }

  function ChartPoint(x: Rule): Rule {
    RecordRule(map["x" := Required(x), "y" := Required(Signed()), "label" := Optional(Line(80))], AnyFields, Keep)
  }

  function Series(points: nat, x: Rule, order: ListCheck): Rule {
    RecordRule(
      map["id" := Required(IdText()), "label" := Required(Line(60)),
          "semantic" := Required(EnumRule({"primary", "comparison", "positive", "warning", "negative", "neutral"})),
          "status_label" := Required(Line(60)), "points" := Required(ListRule(1, points, ChartPoint(x), order))],
      AnyFields, Keep)
  }

  function XAxis(): Rule {
    RecordRule(
      map["label" := Required(Line(60)), "kind" := Required(EnumRule({"category", "time"})), "unit" := Optional(Line(20))], AnyFields, Keep)
  }

  function YAxis(): Rule {
    RecordRule(
      map["label" := Required(Line(60)), "unit" := Optional(Line(20)), "min" := Optional(Signed()), "max" := Optional(Signed())], AxisFields, Keep)
  }

  function ChartOf(series: nat, total: nat, item: Rule): Rule {
    RecordRule(
      map["chart_type" := Required(EnumRule({"line", "bar", "area"})), "description" := Required(Line(300)),
          "x_axis" := Required(XAxis()), "y_axis" := Required(YAxis()),
          "series" := Required(ListRule(1, series, item, ChartSeries))],
      PointTotal(total), Keep)
  }

  // Points are times, in order, or labels, as the x axis says.
  function Chart(series: nat, points: nat, total: nat): Rule {
    SwitchRule(["x_axis", "kind"],
      map["category" := ChartOf(series, total, Series(points, Line(40), AnyItems)),
          "time" := ChartOf(series, total, Series(points, TimestampRule, AscendingPoints))])
  }

  function Metric(): Rule {
    RecordRule(
      map["id" := Required(IdText()), "label" := Required(Line(80)), "value_text" := Required(Line(60)), "secondary_text" := Optional(Line(100)),
          "status" := Required(EnumRule({"neutral", "positive", "warning", "negative"})), "status_label" := Required(Line(60))],
      AnyFields, Keep)
  }

  function Dashboard(): Rule {
    RecordRule(
      map["description" := Required(Line(300)), "metrics" := Required(ListRule(1, 12, Metric(), DistinctIds)),
          "charts" := Optional(ListRule(0, 2, Chart(3, 40, 120), AnyItems))],
      AnyFields, Keep)
  }

  // Every form field has these, and those of its kind.
  function FormField(kind: string, own: map<string, Member>, check: RecordCheck): Rule {
    RecordRule(
      own + map["id" := Required(IdText()), "kind" := Required(EnumRule({kind})), "label" := Required(Line(100)),
                "help_text" := Optional(Line(240)), "required" := Required(BooleanRule)],
      check, Keep)
  }

  function TextField(kind: string, maximum: nat, textarea: bool): Rule {
    FormField(kind,
      map["default" := Optional(StringRule(0, maximum, textarea)), "min_length" := Optional(IntegerRule(0, maximum)),
          "max_length" := Optional(IntegerRule(1, maximum))],
      TextFieldLimits(maximum))
  }

  function NumberField(kind: string, value: Rule, step: Rule): Rule {
    FormField(kind,
      map["min" := Optional(value), "max" := Optional(value), "step" := Optional(step), "default" := Optional(value)], NumberFieldRange)
  }

  function FormOption(): Rule { RecordRule(map["id" := Required(IdText()), "label" := Required(Line(80))], AnyFields, Keep) }

  function SelectField(): Rule {
    FormField("select",
      map["options" := Required(ListRule(1, 20, FormOption(), DistinctIds)), "default" := Optional(OfferedRule)], SelectFieldDefault)
  }

  function MultiSelectField(): Rule {
    FormField("multi_select",
      map["options" := Required(ListRule(1, 20, FormOption(), DistinctIds)), "max_selected" := Required(IntegerRule(1, 10)),
          "default" := Optional(ListRule(0, 10, OfferedRule, AnyItems))],
      MultiFieldDefault)
  }

  function ToggleField(): Rule { FormField("toggle", map["default" := Optional(BooleanRule)], AnyFields) }

  function DateField(): Rule {
    FormField("date", map["min" := Optional(DateRule), "max" := Optional(DateRule), "default" := Optional(DateRule)], DateFieldRange)
  }

  function IntegerField(): Rule {
    NumberField("integer", IntegerRule(-MAX_MAGNITUDE, MAX_MAGNITUDE), IntegerRule(1, 1000000000))
  }

  function DecimalField(): Rule { NumberField("decimal", Signed(), NumberRule(0.000001, 1000000000.0)) }

  function AnyFormField(): Rule {
    SwitchRule(["kind"],
      map["text" := TextField("text", 500, false), "textarea" := TextField("textarea", 2000, true), "select" := SelectField(),
          "multi_select" := MultiSelectField(), "toggle" := ToggleField(), "integer" := IntegerField(), "decimal" := DecimalField(),
          "date" := DateField()])
  }

  function Form(): Rule {
    RecordRule(
      map["description" := Required(Line(300)), "submit_label" := Required(Line(40)),
          "fields" := Required(ListRule(1, 12, AnyFormField(), DistinctIds))],
      AnyFields, Keep)
  }

  function Checklist(): Rule {
    RecordRule(
      map["description" := Optional(Line(300)), "items" := Required(ListRule(1, 40, ChecklistItem(), DistinctIds))], AnyFields, Keep)
  }

  function ChecklistItem(): Rule {
    RecordRule(
      map["id" := Required(IdText()), "label" := Required(Line(120)), "detail" := Optional(Line(240)), "completed" := Required(BooleanRule)],
      AnyFields, Keep)
  }

  function Selection(): Rule {
    RecordRule(
      map["description" := Optional(Line(300)), "mode" := Required(EnumRule({"single", "multiple"})),
          "options" := Required(ListRule(1, 24, SelectionOption(), DistinctIds)),
          "max_selected" := Optional(IntegerRule(1, 10)), "submit_label" := Required(Line(40))],
      SelectionFields, FillMaxSelected)
  }

  function SelectionOption(): Rule {
    RecordRule(
      map["id" := Required(IdText()), "label" := Required(Line(120)), "detail" := Optional(Line(240)), "enabled" := Required(BooleanRule),
          "stage_text" := Required(Area(500))],
      AnyFields, Keep)
  }

  function Automation(): Rule {
    RecordRule(
      map["description" := Optional(Line(300)), "job_id" := Required(Line(120)), "profile" := Required(Line(120)),
          "state" := Required(EnumRule({"active", "paused", "completed", "failed"})), "schedule" := Required(Line(240)),
          "delivery" := Required(Line(160)), "prompt" := Required(Area(1600)),
          "next_runs" := Optional(ListRule(0, 7, TimestampRule, AnyItems)),
          "operations" := Required(ListRule(0, 3, EnumRule({"pause", "resume", "run"}), DistinctItems)),
          "stage_text" := Optional(Area(1600))],
      AutomationFields, Keep)
  }

  function ProvenanceFields(): Rule {
    RecordRule(
      map["source_name" := Required(Line(80)), "source_timestamp" := Required(TimestampRule), "retrieved_at" := Required(TimestampRule),
          "valid_until" := Optional(TimestampRule), "cache_status" := Required(EnumRule({"live", "cached", "stale", "historical"})),
          "age_seconds" := Optional(IntegerRule(0, MAX_AGE)), "attribution" := Optional(Line(160))],
      AnyFields, Keep)
  }

  // V2_COMPONENTS, each with its rule.
  function ComponentRule(component: string): Option<Rule> {
    if component == "weather_forecast" then Some(WeatherForecast())
    else if component == "sports_game" then Some(SportsGame())
    else if component == "stock_quote" then Some(StockQuote())
    else if component == "chart" then Some(Chart(6, 60, 240))
    else if component == "dashboard" then Some(Dashboard())
    else if component == "form" then Some(Form())
    else if component == "checklist" then Some(Checklist())
    else if component == "selection" then Some(Selection())
    else if component == "automation" then Some(Automation())
    else None
  }

  predicate Fresh(h: Host, o: map<string, Json>, created: Instant) {
    var source, retrieved := TimeOf(h, At(o, "source_timestamp")), TimeOf(h, At(o, "retrieved_at"));
    && source <= retrieved <= created + CLOCK_SLACK <= MAX_INSTANT && created - source <= MAX_AGE
    && ("valid_until" in o ==> retrieved <= TimeOf(h, o["valid_until"]))
  }

  function AgeOf(h: Host, o: map<string, Json>, created: Instant): int {
    var age := created - TimeOf(h, At(o, "source_timestamp"));
    if age < 0 then 0 else age
  }

  // The freshness facts of a card, with the age derived from them whatever the payload says.
  function Provenance(h: Host, v: Json, created: Instant): Option<Json> {
    var n := Normalize(h, ProvenanceFields(), v);
    if n.None? || !n.value.Object? || !Fresh(h, n.value.fields, created) then None
    else Some(Object(n.value.fields["age_seconds" := Integer(AgeOf(h, n.value.fields, created))]))
  }

  // ---- Rendering and validating ----

  const SCHEMA := Text("loopdy.generative_ui")
  const LIVE := Text("live")
  const SUBMIT_FORM := Text("submit_form")
  const FORM_NAME := "form"

  // An absent member passes, a present one must not raise.
  predicate AllOk(h: Host, v: Option<Json>) { v.Some? ==> GlobalOk(h, v.value, 1) }

  // _global_check of the whole object; the action of a form is left out by the caller.
  predicate EnvelopeGlobalOk(h: Host, e: Envelope) {
    && AllOk(h, e.schema) && AllOk(h, e.version) && AllOk(h, e.component) && AllOk(h, e.title) && AllOk(h, e.subtitle)
    && AllOk(h, e.data) && AllOk(h, e.provenance) && AllOk(h, e.contentHash) && AllOk(h, e.createdAt) && AllOk(h, e.origin)
    && AllOk(h, e.cardId)
    && forall k :: k in e.others ==> Permitted(h, k) && GlobalOk(h, e.others[k], 1)
  }

  predicate IsTwo(v: Json) { v == Integer(2) || v == Float(2.0) }

  // Title, data, subtitle and provenance, each normalised; None as soon as one of them is refused.
  function Normalized(h: Host, component: string, e: Envelope, created: Instant): Option<Content>
    requires e.title.Some? && e.data.Some? && ComponentRule(component).Some?
  {
    var title := Normalize(h, Line(120), e.title.value);
    var data := Normalize(h, ComponentRule(component).value, e.data.value);
    var subtitle := if e.subtitle.Some? then Normalize(h, Line(240), e.subtitle.value) else None;
    var provenance := if component != FORM_NAME && e.provenance.Some? then Provenance(h, e.provenance.value, created) else None;
    if title.None? || data.None? || (e.subtitle.Some? && subtitle.None?) || (component != FORM_NAME && provenance.None?) then None
    else Some(Content(component, title.value, data.value, subtitle, provenance))
  }

  // The members every result has, from the normalised content.
  function Result(h: Host, c: Content, created: Instant, cardId: string, action: Option<Action>): Envelope {
    Envelope(Some(SCHEMA), Some(Integer(2)), Some(Text(c.component)), Some(c.title), c.subtitle, Some(c.data), c.provenance,
             Some(Text(h.sha256(c))), Some(Text(h.timeText(created))), Some(LIVE), Some(Text(cardId)), action, map[])
  }

  function CardId(h: Host, c: Content): string { h.sha256(c)[..Min(32, |h.sha256(c)|)] }

  function Sized(h: Host, e: Envelope): Option<Envelope> { if h.size(e) <= V2_MAX_BYTES then Some(e) else None }

  predicate OnlyPayloadKeys(component: string, e: Envelope) {
    && e.schema.Some? && e.version.Some? && e.component.Some? && e.title.Some? && e.data.Some?
    && e.contentHash.None? && e.createdAt.None? && e.origin.None? && e.cardId.None? && e.action.None? && e.others == map[]
    && (e.provenance.Some? <==> component != FORM_NAME)
  }

  // What the host adds to a form: who may submit it, and the request it answers to.
  datatype Owner = Owner(profile: string, session: string, requestId: string)

  // render_v2_envelope; `now` in whole seconds of UTC, the owner strings stripped.
  function Render(h: Host, tool: string, payload: Envelope, now: Instant, owner: Owner): Option<Envelope> {
    if h.size(payload) > V2_MAX_BYTES || ComponentRule(tool).None? || !OnlyPayloadKeys(tool, payload)
       || payload.schema != Some(SCHEMA) || !IsTwo(payload.version.value) || payload.component != Some(Text(tool))
       || !EnvelopeGlobalOk(h, payload)
    then None
    else
      var content := Normalized(h, tool, payload, now);
      if content.None? then None
      else if tool != FORM_NAME then Sized(h, Result(h, content.value, now, CardId(h, content.value), None))
      else
        var profile, session := String(h, Text(owner.profile), 1, 80, false), String(h, Text(owner.session), 1, 180, false);
        if profile.None? || session.None? || !h.matches(Hex32, owner.requestId) || now + FORM_LIFE > MAX_INSTANT then None
        else
          var action := Action(SUBMIT_FORM, Text(owner.requestId), profile.value, session.value, Text(h.timeText(now + FORM_LIFE)));
          Sized(h, Result(h, content.value, now, owner.requestId, Some(action)))
  }

  function TimeIn(h: Host, v: Option<Json>): Option<Instant> {
    if v.Some? && v.value.Text? then h.parseTime(v.value.s) else None
  }

  // The action of a form result, checked against the card, or refused.
  function ValidAction(h: Host, a: Action, cardId: Json, created: Instant): Option<Action> {
    if a.Malformed? || a.kind != SUBMIT_FORM || TimeIn(h, Some(a.expiresAt)).None? then None
    else
      var requestId := String(h, a.requestId, 32, 32, false);
      var profile, session := String(h, a.profile, 1, 80, false), String(h, a.sessionId, 1, 180, false);
      if requestId.None? || !h.matches(Hex32, requestId.value.s) || cardId != requestId.value || profile.None? || session.None? then None
      else
        var expires := TimeIn(h, Some(a.expiresAt)).value;
        if !(created < expires <= created + FORM_LIFE <= MAX_INSTANT) then None
        else Some(Action(SUBMIT_FORM, requestId.value, profile.value, session.value, Text(h.timeText(expires))))
  }

  predicate OnlyResultKeys(e: Envelope) {
    && e.schema.Some? && e.title.Some? && e.data.Some? && e.contentHash.Some? && e.createdAt.Some? && e.origin.Some? && e.cardId.Some?
    && e.others == map[]
  }

  // The keys and constants of a result of this component.
  predicate ResultShape(component: string, e: Envelope) {
    && OnlyResultKeys(e) && e.schema == Some(SCHEMA) && e.origin == Some(LIVE)
    && (if component == FORM_NAME then e.action.Some? else e.provenance.Some? && e.action.None?)
  }

  function Rebuilt(h: Host, component: string, e: Envelope, created: Instant): Option<Envelope>
    requires ComponentRule(component).Some? && ResultShape(component, e)
  {
    var content := Normalized(h, component, e, created);
    if content.None? || e.contentHash != Some(Text(h.sha256(content.value))) then None
    else if component != FORM_NAME then
      if e.cardId != Some(Text(CardId(h, content.value))) then None
      else Sized(h, Result(h, content.value, created, CardId(h, content.value), None))
    else
      var action := ValidAction(h, e.action.value, e.cardId.value, created);
      if action.None? then None else Sized(h, Result(h, content.value, created, TextOf(action.value.requestId), action))
  }

  // validate_rendered_envelope, for a result of version 2
  function Validate(h: Host, e: Envelope): Option<Envelope> {
    if e.version.None? || !IsTwo(e.version.value) || h.size(e) > V2_MAX_BYTES || !EnvelopeGlobalOk(h, e) then None
    else if e.component.None? || !e.component.value.Text? || ComponentRule(e.component.value.s).None? then None
    else if !ResultShape(e.component.value.s, e) || TimeIn(h, e.createdAt).None? then None
    else Rebuilt(h, e.component.value.s, e, TimeIn(h, e.createdAt).value)
  }

  // ---- What the standard library is taken to do ----

  predicate IsAscii(t: string) { forall i :: 0 <= i < |t| ==> 0x20 <= t[i] as int <= 0x7E }

  // A short text that normalisation and the control check leave alone.
  predicate IsPlain(t: string) { IsAscii(t) && |t| <= 500 }

  predicate NfcSettles(h: Host, t: string) { h.nfc(h.nfc(t)) == h.nfc(t) }

  predicate DateSettles(h: Host, t: string) {
    h.parseDate(t).Some? ==> IsPlain(h.parseDate(t).value) && h.parseDate(h.parseDate(t).value) == h.parseDate(t)
  }

  ghost predicate TextFacts(h: Host) {
    && (forall t :: NfcSettles(h, t))
    && (forall t :: IsAscii(t) ==> h.nfc(t) == t)
    && (forall t :: h.matches(Hex32, t) ==> IsPlain(t) && |t| == 32)
    && (forall c :: IsPlain(h.sha256(c)))
  }

  // The two keys a normaliser may add.
  ghost predicate KeyFacts(h: Host) { Permitted(h, "max_selected") && Permitted(h, "age_seconds") }

  predicate TimeSettles(h: Host, n: Instant) { h.parseTime(h.timeText(n)) == Some(n) && IsPlain(h.timeText(n)) }

  ghost predicate TimeFacts(h: Host) {
    && (forall n :: TimeSettles(h, n))
    && (forall t :: DateSettles(h, t))
  }

  ghost predicate Facts(h: Host) { TextFacts(h) && TimeFacts(h) && KeyFacts(h) }

  // ---- Every rule is a fixed point ----

  lemma StringAgain(h: Host, v: Json, lo: nat, hi: nat, textarea: bool)
    requires TextFacts(h) && String(h, v, lo, hi, textarea).Some?
    ensures var w := String(h, v, lo, hi, textarea).value; w.Text? && String(h, w, lo, hi, textarea) == Some(w)
  {
    assert NfcSettles(h, v.s);
  }

  lemma NumberAgain(v: Json, lo: real, hi: real)
    requires Number(v, lo, hi).Some?
    ensures Number(Number(v, lo, hi).value, lo, hi) == Number(v, lo, hi)
  {
  }

  lemma LeafAgain(h: Host, rule: Rule, v: Json)
    requires Facts(h) && Leaf(h, rule, v).Some?
    ensures Leaf(h, rule, Leaf(h, rule, v).value) == Leaf(h, rule, v)
  {
    hide String, Number, IsPlain, KeyFacts;
    match rule
    case StringRule(lo, hi, textarea) => StringAgain(h, v, lo, hi, textarea);
    case PatternRule(lo, hi, p) => StringAgain(h, v, lo, hi, false);
    case NumberRule(lo, hi) => NumberAgain(v, lo, hi);
    case TimestampRule => assert TimeSettles(h, h.parseTime(v.s).value);
    case DateRule => assert DateSettles(h, v.s);
    case _ =>
  }

  // The path leads to an enumerated string that no normalising changes.
  predicate PathKept(rule: Rule, path: seq<string>)
    decreases |path|
  {
    if path == [] then rule.EnumRule?
    else rule.RecordRule? && rule.finish == Keep && path[0] in rule.members && PathKept(rule.members[path[0]].rule, path[1..])
  }

  predicate FinishFits(members: map<string, Member>, finish: Finish) {
    match finish
    case Keep => true
    case AwayTeamFirst => "teams" in members && members["teams"].rule.ListRule? && members["teams"].rule.items == AnyItems
    case FillMaxSelected => "max_selected" in members && members["max_selected"].rule == IntegerRule(1, 10)
  }

  ghost predicate WellFormed(rule: Rule)
    decreases rule
  {
    match rule
    case NullOr(inner) => WellFormed(inner)
    case ListRule(_, _, item, _) => WellFormed(item)
    case RecordRule(members, _, finish) => FinishFits(members, finish) && forall k :: k in members ==> WellFormed(members[k].rule)
    case SwitchRule(path, cases) => forall t :: t in cases ==> PathKept(cases[t], path) && WellFormed(cases[t])
    case _ => true
  }

  lemma {:induction false} TagKept(h: Host, rule: Rule, v: Json, path: seq<string>)
    requires PathKept(rule, path) && Normalize(h, rule, v).Some?
    ensures Tag(Normalize(h, rule, v).value, path) == Tag(v, path)
    decreases |path|
  {
    hide RecordOk;
    if path != [] && path[0] in v.fields {
      TagKept(h, rule.members[path[0]].rule, v.fields[path[0]], path[1..]);
    }
  }

  // Each member is what its rule makes of it.
  ghost predicate Settled(h: Host, members: map<string, Member>, o: map<string, Json>) {
    forall k :: k in o ==> k in members && Normalize(h, members[k].rule, o[k]) == Some(o[k])
  }

  lemma ListSettled(h: Host, item: Rule, items: seq<Json>, lo: nat, hi: nat, check: ListCheck)
    requires lo <= |items| <= hi && ListOk(h, check, items)
    requires forall i :: 0 <= i < |items| ==> Normalize(h, item, items[i]) == Some(items[i])
    ensures Normalize(h, ListRule(lo, hi, item, check), Array(items)) == Some(Array(items))
  {
    hide ListOk;
    assert seq(|items|, i requires 0 <= i < |items| => Normalize(h, item, items[i]).value) == items;
  }

  lemma TeamsSettled(h: Host, rule: Rule, teams: seq<Json>)
    requires rule.ListRule? && rule.items == AnyItems && Normalize(h, rule, Array(teams)) == Some(Array(teams))
    ensures Normalize(h, rule, Array(TeamsSorted(teams))) == Some(Array(TeamsSorted(teams)))
  {
    forall i | 0 <= i < |teams| ensures Normalize(h, rule.item, teams[i]) == Some(teams[i]) {
      assert seq(|teams|, k requires 0 <= k < |teams| => Normalize(h, rule.item, teams[k]).value)[i] == teams[i];
    }
    ListSettled(h, rule.item, TeamsSorted(teams), rule.minimum, rule.maximum, AnyItems);
  }

  lemma UpdateSettled(h: Host, members: map<string, Member>, o: map<string, Json>, k: string, v: Json)
    requires Settled(h, members, o) && k in members && Normalize(h, members[k].rule, v) == Some(v)
    ensures Settled(h, members, o[k := v])
  {
    hide Normalize;
  }

  lemma IntegerSettled(h: Host, least: int, most: int, n: int)
    requires least <= n <= most
    ensures Normalize(h, IntegerRule(least, most), Integer(n)) == Some(Integer(n))
  {
  }

  lemma FinishSettled(h: Host, members: map<string, Member>, finish: Finish, o: map<string, Json>)
    requires FinishFits(members, finish) && Settled(h, members, o)
    ensures Settled(h, members, Finished(finish, o)) && Finished(finish, Finished(finish, o)) == Finished(finish, o)
    ensures o.Keys <= Finished(finish, o).Keys
  {
    hide Normalize;
    if finish == AwayTeamFirst && "teams" in o && o["teams"].Array? {
      var teams := o["teams"].items;
      TeamsSettled(h, members["teams"].rule, teams);
      UpdateSettled(h, members, o, "teams", Array(TeamsSorted(teams)));
    } else if finish == FillMaxSelected && Finished(finish, o) != o {
      var n := Min(10, |o["options"].items|);
      IntegerSettled(h, 1, 10, n);
      UpdateSettled(h, members, o, "max_selected", Integer(n));
    }
  }

  lemma RecordSettled(h: Host, members: map<string, Member>, check: RecordCheck, finish: Finish, o: map<string, Json>)
    requires Settled(h, members, o) && KeysOk(members, o) && Finished(finish, o) == o && RecordOk(h, check, o)
    ensures Normalize(h, RecordRule(members, check, finish), Object(o)) == Some(Object(o))
  {
    hide RecordOk, Finished;
    var again := map k | k in o :: Normalize(h, members[k].rule, o[k]).value;
    assert again == o;
    assert Normalize(h, RecordRule(members, check, finish), Object(o))
        == if RecordOk(h, check, Finished(finish, again)) then Some(Object(Finished(finish, again))) else None;
  }

  /** Normalising what was normalised changes nothing, for every rule of every component. */
  lemma {:induction false} NormalizeAgain(h: Host, rule: Rule, v: Json)
    requires Facts(h) && WellFormed(rule) && Normalize(h, rule, v).Some?
    ensures Normalize(h, rule, Normalize(h, rule, v).value) == Normalize(h, rule, v)
    decreases rule
  {
    hide ListOk, RecordOk, Finished, Leaf, Facts, FinishFits, Tag, PathKept;
    match rule
    case NullOr(inner) =>
      if v != Null {
        NormalizeAgain(h, inner, v);
      }
    case ListRule(lo, hi, item, check) =>
      var out := Normalize(h, rule, v).value.items;
      forall i | 0 <= i < |out| ensures Normalize(h, item, out[i]) == Some(out[i]) {
        NormalizeAgain(h, item, v.items[i]);
      }
      ListSettled(h, item, out, lo, hi, check);
    case RecordRule(members, check, finish) =>
      var first := map k | k in v.fields :: Normalize(h, members[k].rule, v.fields[k]).value;
      forall k | k in first ensures Normalize(h, members[k].rule, first[k]) == Some(first[k]) {
        NormalizeAgain(h, members[k].rule, v.fields[k]);
      }
      FinishSettled(h, members, finish, first);
      RecordSettled(h, members, check, finish, Finished(finish, first));
    case SwitchRule(path, cases) =>
      var t := Tag(v, path).value;
      NormalizeAgain(h, cases[t], v);
      TagKept(h, cases[t], v, path);
    case _ => LeafAgain(h, rule, v);
  }

  // ---- Normalising keeps the content ----

  // The same string, or its Normalization Form C, or another way to write the same instant or the same day.
  predicate SameText(h: Host, s: string, t: string) {
    || t == s || t == h.nfc(s)
    || (h.parseTime(s).Some? && h.parseTime(t) == h.parseTime(s))
    || (h.parseDate(s).Some? && h.parseDate(t) == h.parseDate(s))
  }

  // The second value says what the first says.
  predicate SameContent(h: Host, a: Json, b: Json)
    decreases a
  {
    match a
    case Float(r) => IsNumber(b) && RealOf(b) == r
    case NotFinite => false
    case Text(s) => b.Text? && SameText(h, s, b.s)
    case Array(items) => b.Array? && |b.items| == |items| && forall i :: 0 <= i < |items| ==> SameContent(h, items[i], b.items[i])
    case Object(fields) =>
      && b.Object?
      && (forall k :: k in fields ==> k in b.fields && (SameContent(h, fields[k], b.fields[k]) || (k == "teams" && Swapped(h, fields[k], b.fields[k]))))
      && (forall k :: k in b.fields && k !in fields ==> IsFilledIn(b.fields, k))
    case _ => b == a
  }

  // Two teams, the one at home first, exchanged.
  predicate Swapped(h: Host, a: Json, b: Json)
    decreases a, 0
  {
    && a.Array? && b.Array? && |a.items| == |b.items| == 2
    && FieldOf(a.items[0], "home") == Boolean(true) && FieldOf(a.items[1], "home") == Boolean(false)
    && SameContent(h, a.items[0], b.items[1]) && SameContent(h, a.items[1], b.items[0])
  }

  // The limit of a multiple selection, when none was given: all its options, or ten.
  predicate IsFilledIn(o: map<string, Json>, k: string) {
    k == "max_selected" && At(o, "mode") == Text("multiple") && At(o, k) == Integer(Min(10, |ItemsOf(At(o, "options"))|))
  }

  lemma IntegersAreWhole(n: int)
    ensures IsWhole(n as real)
  {
  }

  lemma InMillionths(n: int)
    ensures n as real * 1000000.0 == (n * 1000000) as real
  {
  }

  lemma MillionsAreWhole(n: int)
    ensures IsWhole(n as real * 1000000.0) && IsWhole(n as real)
  {
    InMillionths(n);
    IntegersAreWhole(n * 1000000);
    IntegersAreWhole(n);
    hide IsWhole;
  }

  /** A number is accepted by its value alone, whichever way it is written, and keeps it. */
  lemma NumberIff(v: Json, lo: real, hi: real)
    ensures Number(v, lo, hi).Some? <==>
              IsNumber(v) && lo <= RealOf(v) <= hi && -1000000000000.0 <= RealOf(v) <= 1000000000000.0 && IsWhole(RealOf(v) * 1000000.0)
    ensures Number(v, lo, hi).Some? ==> var w := Number(v, lo, hi).value;
              IsNumber(w) && RealOf(w) == RealOf(v) && (w.Integer? <==> IsWhole(RealOf(v)))
  {
    if v.Integer? {
      MillionsAreWhole(v.n);
      hide IsWhole;
      assert -MAX_MAGNITUDE <= v.n <= MAX_MAGNITUDE <==> -1000000000000.0 <= v.n as real <= 1000000000000.0;
    } else if v.Float? {
      FloatIff(v.r, lo, hi);
      hide IsWhole, Number;
    }
  }

  lemma FloatIff(r: real, lo: real, hi: real)
    ensures Number(Float(r), lo, hi).Some? <==> lo <= r <= hi && -1000000000000.0 <= r <= 1000000000000.0 && IsWhole(r * 1000000.0)
    ensures Number(Float(r), lo, hi).Some? ==> var w := Number(Float(r), lo, hi).value;
              IsNumber(w) && RealOf(w) == r && (w.Integer? <==> IsWhole(r))
  {
    assert -MAX_MAGNITUDE as real == -1000000000000.0;
    assert IsWhole(r) ==> r.Floor as real == r;
    hide IsWhole;
  }

  // What each value check leaves of the value.
  lemma LeafMeans(h: Host, rule: Rule, v: Json)
    requires TimeFacts(h) && Leaf(h, rule, v).Some?
    ensures var w := Leaf(h, rule, v).value;
      && (rule.StringRule? || rule.PatternRule? ==> v.Text? && w == Text(h.nfc(v.s)) && rule.minimum <= |w.s| <= rule.maximum)
      && (rule.EnumRule? || rule.IntegerRule? || rule.BooleanRule? || rule.OfferedRule? ==> w == v)
      && (rule.NumberRule? ==> IsNumber(v) && IsNumber(w) && RealOf(w) == RealOf(v) && rule.lo <= RealOf(w) <= rule.hi)
      && (rule.PatternRule? ==> h.matches(rule.pattern, w.s))
      && (rule.TimestampRule? ==> v.Text? && w.Text? && h.parseTime(w.s) == h.parseTime(v.s) != None && w.s == h.timeText(h.parseTime(v.s).value))
      && (rule.DateRule? ==> v.Text? && w.Text? && h.parseDate(w.s) == h.parseDate(v.s) != None)
  {
    hide IsPlain, NoControls;
    match rule
    case TimestampRule => assert TimeSettles(h, h.parseTime(v.s).value);
    case DateRule => assert DateSettles(h, v.s);
    case _ =>
  }

  lemma LeafKeeps(h: Host, rule: Rule, v: Json)
    requires TimeFacts(h) && Leaf(h, rule, v).Some?
    ensures SameContent(h, v, Leaf(h, rule, v).value)
  {
    LeafMeans(h, rule, v);
    hide TimeFacts, String;
    if rule.NumberRule? {
      NumberIff(v, rule.lo, rule.hi);
    }
  }

  // A flag can only come from that flag.
  lemma FlagKept(h: Host, a: Json, b: Json, k: string, flag: bool)
    requires SameContent(h, a, b) && FieldOf(b, k) == Boolean(flag) && k != "teams"
    ensures FieldOf(a, k) == Boolean(flag)
  {
    hide SameText, Swapped;
  }

  // Each member has the content it had, but for the teams of a game.
  lemma MembersSame(h: Host, fields: map<string, Json>, o: map<string, Json>)
    requires fields.Keys <= o.Keys && forall k :: k in o && k !in fields ==> IsFilledIn(o, k)
    requires forall k :: k in fields ==> SameContent(h, fields[k], o[k]) || (k == "teams" && Swapped(h, fields[k], o[k]))
    ensures SameContent(h, Object(fields), Object(o))
  {
    hide Swapped, IsFilledIn, SameText;
  }

  lemma TeamsSwapped(h: Host, a: Json, b: Json)
    requires b.Array? && SameContent(h, a, b) && TeamsSorted(b.items) != b.items
    ensures Swapped(h, a, Array(TeamsSorted(b.items)))
  {
    hide SameText, FieldOf;
    assert TeamsSorted(b.items) == [b.items[1], b.items[0]] && a.Array?;
    FlagKept(h, a.items[0], b.items[0], "home", true);
    FlagKept(h, a.items[1], b.items[1], "home", false);
  }

  lemma FinishKeeps(h: Host, finish: Finish, fields: map<string, Json>, o: map<string, Json>)
    requires fields.Keys == o.Keys && forall k :: k in fields ==> SameContent(h, fields[k], o[k])
    ensures SameContent(h, Object(fields), Object(Finished(finish, o)))
  {
    hide SameText, SameContent, Swapped, TeamsSorted;
    var done := Finished(finish, o);
    if finish == AwayTeamFirst && done != o {
      TeamsSwapped(h, fields["teams"], o["teams"]);
    } else if finish == FillMaxSelected && done != o {
      assert IsFilledIn(done, "max_selected");
    }
    MembersSame(h, fields, done);
  }

  /**
    Normalising changes the form and not the content, for every rule and every value: numbers keep their
    value, flags and integers everything, texts their Normalization Form C, instants and days what they name;
    lists keep their items in order, and objects their members - but for the two teams of a game, which may
    be exchanged, and the limit of a multiple selection, which may be added.
  */
  lemma {:induction false} NormalizeKeepsContent(h: Host, rule: Rule, v: Json)
    requires TimeFacts(h) && Normalize(h, rule, v).Some?
    ensures SameContent(h, v, Normalize(h, rule, v).value)
    decreases rule
  {
    hide ListOk, RecordOk, Finished, Leaf, TimeFacts, Tag, SameText, Swapped, IsFilledIn;
    match rule
    case NullOr(inner) =>
      if v != Null {
        NormalizeKeepsContent(h, inner, v);
      }
    case ListRule(lo, hi, item, check) =>
      forall i | 0 <= i < |v.items| ensures SameContent(h, v.items[i], Normalize(h, item, v.items[i]).value) {
        NormalizeKeepsContent(h, item, v.items[i]);
      }
    case RecordRule(members, check, finish) =>
      var first := map k | k in v.fields :: Normalize(h, members[k].rule, v.fields[k]).value;
      forall k | k in v.fields ensures SameContent(h, v.fields[k], first[k]) {
        NormalizeKeepsContent(h, members[k].rule, v.fields[k]);
      }
      FinishKeeps(h, finish, v.fields, first);
    case SwitchRule(path, cases) => NormalizeKeepsContent(h, cases[Tag(v, path).value], v);
    case _ => LeafKeeps(h, rule, v);
  }

  // ---- Normalising keeps a payload permitted ----

  lemma PlainIsOk(h: Host, t: string, depth: nat)
    requires TextFacts(h) && IsPlain(t) && depth <= 6
    ensures GlobalOk(h, Text(t), depth)
  {
  }

  lemma LeafPermitted(h: Host, rule: Rule, v: Json, depth: nat)
    requires Facts(h) && Leaf(h, rule, v).Some? && GlobalOk(h, v, depth)
    ensures GlobalOk(h, Leaf(h, rule, v).value, depth)
  {
    hide Permitted, KeyFacts;
    match rule
    case StringRule(lo, hi, textarea) => StringPermitted(h, v, depth);
    case PatternRule(lo, hi, p) => StringPermitted(h, v, depth);
    case TimestampRule =>
      assert TimeSettles(h, h.parseTime(v.s).value);
      PlainIsOk(h, h.timeText(h.parseTime(v.s).value), depth);
    case DateRule =>
      assert DateSettles(h, v.s);
      PlainIsOk(h, h.parseDate(v.s).value, depth);
    case _ =>
  }

  lemma StringPermitted(h: Host, v: Json, depth: nat)
    requires TextFacts(h) && v.Text? && GlobalOk(h, v, depth)
    ensures GlobalOk(h, Text(h.nfc(v.s)), depth)
  {
    assert NfcSettles(h, v.s);
  }

  lemma UpdatePermitted(h: Host, o: map<string, Json>, k: string, v: Json, depth: nat)
    requires GlobalOk(h, Object(o), depth) && Permitted(h, k) && GlobalOk(h, v, depth + 1)
    ensures GlobalOk(h, Object(o[k := v]), depth)
  {
    hide Permitted;
  }

  lemma TeamsPermitted(h: Host, teams: seq<Json>, depth: nat)
    requires GlobalOk(h, Array(teams), depth)
    ensures GlobalOk(h, Array(TeamsSorted(teams)), depth)
  {
    hide Permitted, FieldOf;
  }

  lemma SmallIsPermitted(h: Host, n: int, depth: nat)
    requires depth <= 6 && 0 <= n <= MAX_AGE
    ensures GlobalOk(h, Integer(n), depth)
  {
  }

  lemma FinishPermitted(h: Host, finish: Finish, o: map<string, Json>, depth: nat)
    requires Facts(h) && GlobalOk(h, Object(o), depth)
    ensures GlobalOk(h, Object(Finished(finish, o)), depth)
  {
    hide Permitted, TextFacts, TimeFacts, TeamsSorted;
    if finish == AwayTeamFirst && "teams" in o && o["teams"].Array? {
      var teams := o["teams"];
      assert GlobalOk(h, teams, depth + 1) && Permitted(h, "teams");
      TeamsPermitted(h, teams.items, depth + 1);
      UpdatePermitted(h, o, "teams", Array(TeamsSorted(teams.items)), depth);
    } else if finish == FillMaxSelected && "options" in o && o["options"].Array? && o["options"].items != [] {
      var n := Min(10, |o["options"].items|);
      assert GlobalOk(h, o["options"], depth + 1);
      SmallIsPermitted(h, n, depth + 1);
      UpdatePermitted(h, o, "max_selected", Integer(n), depth);
    }
  }

  /** What a rule makes of permitted data is permitted, at the same depth. */
  lemma {:induction false} NormalizedIsPermitted(h: Host, rule: Rule, v: Json, depth: nat)
    requires Facts(h) && Normalize(h, rule, v).Some? && GlobalOk(h, v, depth)
    ensures GlobalOk(h, Normalize(h, rule, v).value, depth)
    decreases rule
  {
    hide ListOk, RecordOk, Finished, Leaf, Facts, Permitted;
    match rule
    case NullOr(inner) =>
      if v != Null {
        NormalizedIsPermitted(h, inner, v, depth);
      }
    case ListRule(lo, hi, item, check) =>
      var out := Normalize(h, rule, v).value.items;
      forall i | 0 <= i < |out| ensures GlobalOk(h, out[i], depth) {
        NormalizedIsPermitted(h, item, v.items[i], depth);
      }
    case RecordRule(members, check, finish) =>
      var first := map k | k in v.fields :: Normalize(h, members[k].rule, v.fields[k]).value;
      forall k | k in first ensures Permitted(h, k) && GlobalOk(h, first[k], depth + 1) {
        NormalizedIsPermitted(h, members[k].rule, v.fields[k], depth + 1);
      }
      FinishPermitted(h, finish, first, depth);
    case SwitchRule(path, cases) => NormalizedIsPermitted(h, cases[Tag(v, path).value], v, depth);
    case _ => LeafPermitted(h, rule, v, depth);
  }

  // ---- The tables are well formed ----

  lemma SwitchFormed(path: seq<string>, cases: map<string, Rule>)
    requires forall t :: t in cases ==> PathKept(cases[t], path) && WellFormed(cases[t])
    ensures WellFormed(SwitchRule(path, cases))
  {
  }

  lemma RecordFormed(members: map<string, Member>, fields: RecordCheck)
    requires forall k :: k in members ==> WellFormed(members[k].rule)
    ensures WellFormed(RecordRule(members, fields, Keep))
  {
  }

  lemma ListFormed(lo: nat, hi: nat, item: Rule, check: ListCheck)
    requires WellFormed(item)
    ensures WellFormed(ListRule(lo, hi, item, check))
  {
  }

  lemma WeatherFormed()
    ensures WellFormed(WeatherForecast())
  {
    assert WellFormed(WeatherNow());
    assert WellFormed(WeatherPeriod());
  }

  lemma SportsFormed()
    ensures WellFormed(SportsGame())
  {
    assert WellFormed(Team());
  }

  lemma StockFormed()
    ensures WellFormed(StockQuote())
  {
  }

  lemma ChartCaseFormed(series: nat, points: nat, total: nat, x: Rule, order: ListCheck)
    requires WellFormed(x)
    ensures WellFormed(ChartOf(series, total, Series(points, x, order)))
    ensures PathKept(ChartOf(series, total, Series(points, x, order)), ["x_axis", "kind"])
  {
    assert WellFormed(ChartPoint(x));
    assert WellFormed(Series(points, x, order));
    assert WellFormed(XAxis());
    assert WellFormed(YAxis());
    assert PathKept(XAxis(), ["kind"]) by {
      assert ["kind"][1..] == [];
    }
    assert ["x_axis", "kind"][1..] == ["kind"];
  }

  lemma ChartFormed(series: nat, points: nat, total: nat)
    ensures WellFormed(Chart(series, points, total))
  {
    ChartCaseFormed(series, points, total, Line(40), AnyItems);
    ChartCaseFormed(series, points, total, TimestampRule, AscendingPoints);
    hide ChartOf;
  }

  lemma DashboardFormed()
    ensures WellFormed(Dashboard())
  {
    assert WellFormed(Metric());
    hide WellFormed, Chart, Metric, Line;
    ChartFormed(3, 40, 120);
    ListFormed(1, 12, Metric(), DistinctIds);
    ListFormed(0, 2, Chart(3, 40, 120), AnyItems);
    LineFormed(300);
    RecordFormed(Dashboard().members, AnyFields);
  }

  lemma FormFieldFormed(kind: string, own: map<string, Member>, check: RecordCheck)
    requires forall k :: k in own ==> WellFormed(own[k].rule)
    ensures WellFormed(FormField(kind, own, check)) && PathKept(FormField(kind, own, check), ["kind"])
  {
    assert ["kind"][1..] == [];
  }

  lemma TextFieldFormed(kind: string, maximum: nat, textarea: bool)
    ensures WellFormed(TextField(kind, maximum, textarea)) && PathKept(TextField(kind, maximum, textarea), ["kind"])
  {
    FormFieldFormed(kind,
      map["default" := Optional(StringRule(0, maximum, textarea)), "min_length" := Optional(IntegerRule(0, maximum)),
          "max_length" := Optional(IntegerRule(1, maximum))],
      TextFieldLimits(maximum));
  }

  lemma NumberFieldFormed(kind: string, value: Rule, step: Rule)
    requires WellFormed(value) && WellFormed(step)
    ensures WellFormed(NumberField(kind, value, step)) && PathKept(NumberField(kind, value, step), ["kind"])
  {
    FormFieldFormed(kind,
      map["min" := Optional(value), "max" := Optional(value), "step" := Optional(step), "default" := Optional(value)], NumberFieldRange);
  }

  lemma ChoiceFieldsFormed()
    ensures WellFormed(SelectField()) && PathKept(SelectField(), ["kind"])
    ensures WellFormed(MultiSelectField()) && PathKept(MultiSelectField(), ["kind"])
  {
    assert WellFormed(FormOption());
    hide FormField, FormOption;
    FormFieldFormed("select",
      map["options" := Required(ListRule(1, 20, FormOption(), DistinctIds)), "default" := Optional(OfferedRule)], SelectFieldDefault);
    FormFieldFormed("multi_select",
      map["options" := Required(ListRule(1, 20, FormOption(), DistinctIds)), "max_selected" := Required(IntegerRule(1, 10)),
          "default" := Optional(ListRule(0, 10, OfferedRule, AnyItems))], MultiFieldDefault);
  }

  lemma OtherFieldsFormed()
    ensures WellFormed(ToggleField()) && PathKept(ToggleField(), ["kind"])
    ensures WellFormed(DateField()) && PathKept(DateField(), ["kind"])
    ensures WellFormed(IntegerField()) && PathKept(IntegerField(), ["kind"])
    ensures WellFormed(DecimalField()) && PathKept(DecimalField(), ["kind"])
  {
    hide FormField, NumberField;
    FormFieldFormed("toggle", map["default" := Optional(BooleanRule)], AnyFields);
    FormFieldFormed("date",
      map["min" := Optional(DateRule), "max" := Optional(DateRule), "default" := Optional(DateRule)], DateFieldRange);
    NumberFieldFormed("integer", IntegerRule(-MAX_MAGNITUDE, MAX_MAGNITUDE), IntegerRule(1, 1000000000));
    NumberFieldFormed("decimal", Signed(), NumberRule(0.000001, 1000000000.0));
  }

  lemma AnyFormFieldFormed()
    ensures WellFormed(AnyFormField())
  {
    hide WellFormed, TextField, SelectField, MultiSelectField, ToggleField, DateField, IntegerField, DecimalField, PathKept;
    TextFieldFormed("text", 500, false);
    TextFieldFormed("textarea", 2000, true);
    ChoiceFieldsFormed();
    OtherFieldsFormed();
    SwitchFormed(["kind"], AnyFormField().cases);
  }

  lemma FormFormed()
    ensures WellFormed(Form())
  {
    AnyFormFieldFormed();
    hide AnyFormField;
  }

  lemma ChecklistFormed()
    ensures WellFormed(Checklist())
  {
    assert WellFormed(ChecklistItem());
    hide ChecklistItem;
  }

  lemma SelectionFormed()
    ensures WellFormed(Selection())
  {
    assert WellFormed(SelectionOption());
    hide SelectionOption;
  }

  lemma AutomationFormed()
    ensures WellFormed(Automation())
  {
  }

  lemma ComponentsFormed(component: string)
    requires ComponentRule(component).Some?
    ensures WellFormed(ComponentRule(component).value)
  {
    hide WellFormed, WeatherForecast, SportsGame, StockQuote, Chart, Dashboard, Form, Checklist, Selection, Automation;
    WeatherFormed();
    SportsFormed();
    StockFormed();
    ChartFormed(6, 60, 240);
    DashboardFormed();
    FormFormed();
    ChecklistFormed();
    SelectionFormed();
    AutomationFormed();
  }

  // ---- Provenance ----

  lemma ProvenanceFormed()
    ensures WellFormed(ProvenanceFields())
  {
  }

  lemma SettledFrom(h: Host, members: map<string, Member>, check: RecordCheck, o: map<string, Json>)
    requires Normalize(h, RecordRule(members, check, Keep), Object(o)) == Some(Object(o))
    ensures Settled(h, members, o) && KeysOk(members, o)
  {
    hide RecordOk;
    var again := map k | k in o :: Normalize(h, members[k].rule, o[k]).value;
    assert Normalize(h, RecordRule(members, check, Keep), Object(o)) == Some(Object(again));
    forall k | k in o ensures Normalize(h, members[k].rule, o[k]) == Some(o[k]) {
      assert again[k] == o[k];
    }
  }

  lemma AgeSettles(h: Host, o: map<string, Json>, age: int)
    requires Normalize(h, ProvenanceFields(), Object(o)) == Some(Object(o)) && 0 <= age <= MAX_AGE
    ensures Normalize(h, ProvenanceFields(), Object(o["age_seconds" := Integer(age)])) == Some(Object(o["age_seconds" := Integer(age)]))
  {
    var members := ProvenanceFields().members;
    var o' := o["age_seconds" := Integer(age)];
    SettledFrom(h, members, AnyFields, o);
    assert members["age_seconds"] == Optional(IntegerRule(0, MAX_AGE));
    assert Settled(h, members, o');
    RecordSettled(h, members, AnyFields, Keep, o');
  }

  lemma FreshnessIgnoresAge(h: Host, o: map<string, Json>, created: Instant, age: Json)
    ensures Fresh(h, o["age_seconds" := age], created) == Fresh(h, o, created)
    ensures AgeOf(h, o["age_seconds" := age], created) == AgeOf(h, o, created)
  {
    var o' := o["age_seconds" := age];
    assert At(o', "source_timestamp") == At(o, "source_timestamp") && At(o', "retrieved_at") == At(o, "retrieved_at");
    assert "valid_until" in o' <==> "valid_until" in o;
    hide TimeOf;
  }

  /** The derived age never invalidates a card: its provenance is accepted again, unchanged, and stays permitted. */
  lemma ProvenanceAgain(h: Host, v: Json, created: Instant)
    requires Facts(h) && Provenance(h, v, created).Some? && GlobalOk(h, v, 1)
    ensures var w := Provenance(h, v, created).value;
      Provenance(h, w, created) == Some(w) && GlobalOk(h, w, 1)
  {
    hide ProvenanceFields, Normalize, WellFormed, GlobalOk, Permitted, TextFacts, TimeFacts;
    ProvenanceFormed();
    NormalizeAgain(h, ProvenanceFields(), v);
    NormalizedIsPermitted(h, ProvenanceFields(), v, 1);
    var o := Normalize(h, ProvenanceFields(), v).value.fields;
    var age := Integer(AgeOf(h, o, created));
    FreshnessIgnoresAge(h, o, created, age);
    AgeInRange(h, o, created);
    hide Fresh, AgeOf;
    AgeSettles(h, o, age.n);
    SmallIsPermitted(h, age.n, 2);
    UpdatePermitted(h, o, "age_seconds", age, 1);
    assert o["age_seconds" := age]["age_seconds" := age] == o["age_seconds" := age];
  }

  lemma AgeInRange(h: Host, o: map<string, Json>, created: Instant)
    requires Fresh(h, o, created)
    ensures 0 <= AgeOf(h, o, created) <= MAX_AGE
  {
  }

  // ---- Rendering, then validating ----

  lemma ContentAgain(h: Host, component: string, e: Envelope, created: Instant, out: Envelope)
    requires Facts(h) && e.title.Some? && e.data.Some? && ComponentRule(component).Some? && EnvelopeGlobalOk(h, e)
    requires Normalized(h, component, e, created).Some?
    requires var c := Normalized(h, component, e, created).value;
      out.title == Some(c.title) && out.data == Some(c.data) && out.subtitle == c.subtitle && out.provenance == c.provenance
    ensures Normalized(h, component, out, created) == Normalized(h, component, e, created)
    ensures AllOk(h, out.title) && AllOk(h, out.data) && AllOk(h, out.subtitle) && AllOk(h, out.provenance)
  {
    hide Normalize, Provenance, GlobalOk, ComponentRule, WellFormed, Facts;
    ComponentsFormed(component);
    LineFormed(120);
    LineFormed(240);
    NormalizeAgain(h, Line(120), e.title.value);
    NormalizedIsPermitted(h, Line(120), e.title.value, 1);
    NormalizeAgain(h, ComponentRule(component).value, e.data.value);
    NormalizedIsPermitted(h, ComponentRule(component).value, e.data.value, 1);
    if e.subtitle.Some? {
      NormalizeAgain(h, Line(240), e.subtitle.value);
      NormalizedIsPermitted(h, Line(240), e.subtitle.value, 1);
    }
    if component != FORM_NAME && e.provenance.Some? {
      ProvenanceAgain(h, e.provenance.value, created);
    }
  }

  lemma LineFormed(maximum: nat)
    ensures WellFormed(Line(maximum))
  {
  }

  lemma LiteralsPlain()
    ensures IsPlain("live")
  {
  }

  lemma PrefixPlain(t: string, n: nat)
    requires IsPlain(t) && n <= |t|
    ensures IsPlain(t[..n])
  {
  }

  // The members the renderer adds pass the check of the whole object.
  lemma AddedPermitted(h: Host, c: Content, created: Instant, cardId: string)
    requires Facts(h) && IsPlain(cardId)
    ensures GlobalOk(h, Text(h.sha256(c)), 1) && GlobalOk(h, Text(h.timeText(created)), 1) && GlobalOk(h, Text(cardId), 1)
    ensures GlobalOk(h, Integer(2), 1) && GlobalOk(h, LIVE, 1)
  {
    LiteralsPlain();
    assert TimeSettles(h, created);
    hide Permitted, KeyFacts;
    PlainIsOk(h, "live", 1);
    PlainIsOk(h, h.sha256(c), 1);
    PlainIsOk(h, h.timeText(created), 1);
    PlainIsOk(h, cardId, 1);
    SmallIsPermitted(h, 2, 1);
  }

  lemma ResultPermitted(h: Host, payload: Envelope, c: Content, created: Instant, cardId: string, action: Option<Action>)
    requires Facts(h) && EnvelopeGlobalOk(h, payload) && payload.schema == Some(SCHEMA) && payload.component == Some(Text(c.component))
    requires AllOk(h, Some(c.title)) && AllOk(h, Some(c.data)) && AllOk(h, c.subtitle) && AllOk(h, c.provenance) && IsPlain(cardId)
    ensures EnvelopeGlobalOk(h, Result(h, c, created, cardId, action))
  {
    hide GlobalOk, Facts, IsPlain, Permitted;
    AddedPermitted(h, c, created, cardId);
  }

  lemma ActionParts(h: Host, profile: Json, session: Json, requestId: string, created: Instant)
    requires String(h, profile, 1, 80, false) == Some(profile) && String(h, session, 1, 180, false) == Some(session)
    requires h.matches(Hex32, requestId) && String(h, Text(requestId), 32, 32, false) == Some(Text(requestId))
    requires created + FORM_LIFE <= MAX_INSTANT && TimeSettles(h, created + FORM_LIFE)
    ensures var action := Action(SUBMIT_FORM, Text(requestId), profile, session, Text(h.timeText(created + FORM_LIFE)));
      ValidAction(h, action, Text(requestId), created) == Some(action)
  {
    hide String, IsPlain;
  }

  lemma ActionAgain(h: Host, profile: Json, session: Json, requestId: string, created: Instant, owner: Owner)
    requires Facts(h) && h.matches(Hex32, requestId) && created + FORM_LIFE <= MAX_INSTANT
    requires String(h, Text(owner.profile), 1, 80, false) == Some(profile) && String(h, Text(owner.session), 1, 180, false) == Some(session)
    ensures var action := Action(SUBMIT_FORM, Text(requestId), profile, session, Text(h.timeText(created + FORM_LIFE)));
      ValidAction(h, action, Text(requestId), created) == Some(action)
  {
    assert TimeSettles(h, created + FORM_LIFE);
    hide String, TimeFacts, TextFacts, KeyFacts, TimeSettles, ValidAction;
    StringAgain(h, Text(owner.profile), 1, 80, false);
    StringAgain(h, Text(owner.session), 1, 180, false);
    HexIsKept(h, requestId);
    ActionParts(h, profile, session, requestId, created);
  }

  lemma HexIsKept(h: Host, t: string)
    requires TextFacts(h) && h.matches(Hex32, t)
    ensures String(h, Text(t), 32, 32, false) == Some(Text(t))
  {
  }

  lemma HexIsPlain(h: Host, t: string)
    requires TextFacts(h) && h.matches(Hex32, t)
    ensures IsPlain(t)
  {
  }

  // A result built from content that it normalises to again, with its own identity, is returned as it is.
  lemma ValidateResult(h: Host, c: Content, created: Instant, cardId: string, action: Option<Action>)
    requires ComponentRule(c.component).Some? && TimeSettles(h, created)
    requires var e := Result(h, c, created, cardId, action);
      h.size(e) <= V2_MAX_BYTES && EnvelopeGlobalOk(h, e) && Normalized(h, c.component, e, created) == Some(c)
    requires if c.component == FORM_NAME
             then action.Some? && action.value.Action? && action.value.requestId == Text(cardId) && ValidAction(h, action.value, Text(cardId), created) == action
             else action.None? && c.provenance.Some? && cardId == CardId(h, c)
    ensures var e := Result(h, c, created, cardId, action); Validate(h, e) == Some(e)
  {
    hide Normalized, EnvelopeGlobalOk, ValidAction, ComponentRule, CardId;
    var e := Result(h, c, created, cardId, action);
    assert TimeIn(h, e.createdAt) == Some(created);
    assert ResultShape(c.component, e);
    assert Rebuilt(h, c.component, e, created) == Sized(h, e);
  }

  lemma NormalizedComponent(h: Host, component: string, e: Envelope, created: Instant)
    requires e.title.Some? && e.data.Some? && ComponentRule(component).Some? && Normalized(h, component, e, created).Some?
    ensures var c := Normalized(h, component, e, created).value;
      c.component == component && (component != FORM_NAME ==> c.provenance.Some?)
  {
    hide Normalize, Provenance, ComponentRule;
  }

  /**
    Rendering, then validating, is the identity: whatever payload, component, clock and owner, a card
    that is rendered is accepted by the validator and returned unchanged.
  */
  lemma RenderThenValidate(h: Host, tool: string, payload: Envelope, now: Instant, owner: Owner)
    requires Facts(h) && Render(h, tool, payload, now, owner).Some?
    ensures var card := Render(h, tool, payload, now, owner).value; Validate(h, card) == Some(card)
  {
    assert TimeSettles(h, now);
    hide Normalized, EnvelopeGlobalOk, ValidAction, Facts, String, ComponentRule, IsPlain, CardId, Validate, TimeSettles;
    var c := Normalized(h, tool, payload, now).value;
    var card := Render(h, tool, payload, now, owner).value;
    NormalizedComponent(h, tool, payload, now);
    ContentAgain(h, tool, payload, now, card);
    if tool == FORM_NAME {
      var profile, session := String(h, Text(owner.profile), 1, 80, false).value, String(h, Text(owner.session), 1, 180, false).value;
      ActionAgain(h, profile, session, owner.requestId, now, owner);
      TextFactsOf(h);
      HexIsPlain(h, owner.requestId);
      ResultPermitted(h, payload, c, now, owner.requestId, card.action);
      ValidateResult(h, c, now, owner.requestId, card.action);
    } else {
      CardIdPlain(h, c);
      ResultPermitted(h, payload, c, now, CardId(h, c), None);
      ValidateResult(h, c, now, CardId(h, c), None);
    }
  }

  lemma TextFactsOf(h: Host)
    requires Facts(h)
    ensures TextFacts(h)
  {
  }

  lemma CardIdPlain(h: Host, c: Content)
    requires Facts(h)
    ensures IsPlain(CardId(h, c))
  {
    PrefixPlain(h.sha256(c), Min(32, |h.sha256(c)|));
  }

  // ---- What a card says ----

  // Title, subtitle and data of a card, against what they come from.
  predicate SameHead(h: Host, e: Envelope, card: Envelope) {
    && e.title.Some? && e.title.value.Text? && card.title == Some(Text(h.nfc(e.title.value.s)))
    && (if e.subtitle.Some? then e.subtitle.value.Text? && card.subtitle == Some(Text(h.nfc(e.subtitle.value.s))) else card.subtitle == None)
    && e.data.Some? && card.data.Some? && SameContent(h, e.data.value, card.data.value)
    && card.component == e.component
  }

  function InstantAt(h: Host, v: Json, k: string): int { TimeOf(h, FieldOf(v, k)) }

  // A provenance in order at this time: what was given, but for the age, which is counted from the source's own time.
  predicate SameProvenance(h: Host, a: Json, b: Json, created: Instant) {
    && a.Object? && b.Object? && SameContent(h, Object(a.fields - {"age_seconds"}), Object(b.fields - {"age_seconds"}))
    && var source, retrieved := InstantAt(h, a, "source_timestamp"), InstantAt(h, a, "retrieved_at");
    && FieldOf(b, "age_seconds") == Integer(if created < source then 0 else created - source)
    && source <= retrieved <= created + 300 && created - source <= MAX_AGE
    && ("valid_until" in a.fields ==> retrieved <= InstantAt(h, a, "valid_until"))
  }

  // The members that identify a card: its hash covers all its content.
  predicate Identified(h: Host, card: Envelope, created: Instant) {
    && card.schema == Some(Text("loopdy.generative_ui")) && card.version == Some(Integer(2)) && card.origin == Some(Text("live"))
    && card.component.Some? && card.component.value.Text? && card.title.Some? && card.data.Some?
    && TimeIn(h, card.createdAt) == Some(created) && card.others == map[]
    && card.contentHash.Some? && card.contentHash.value.Text?
    && card.contentHash.value.s == h.sha256(Content(card.component.value.s, card.title.value, card.data.value, card.subtitle, card.provenance))
  }

  // A card that is no form has its provenance, no action, and half its hash for an id.
  predicate CardOf(h: Host, e: Envelope, card: Envelope, created: Instant)
    requires Identified(h, card, created)
  {
    var hash := card.contentHash.value.s;
    && e.provenance.Some? && card.provenance.Some? && SameProvenance(h, e.provenance.value, card.provenance.value, created)
    && card.action == None && card.cardId == Some(Text(if |hash| < 32 then hash else hash[..32]))
  }

  lemma RecordParts(h: Host, members: map<string, Member>, check: RecordCheck, finish: Finish, v: Json)
    requires Normalize(h, RecordRule(members, check, finish), v).Some?
    ensures var w := Normalize(h, RecordRule(members, check, finish), v).value;
      && v.Object? && w.Object? && KeysOk(members, v.fields) && RecordOk(h, check, w.fields)
      && (finish == Keep ==> w.fields.Keys == v.fields.Keys && forall k :: k in v.fields ==> Normalize(h, members[k].rule, v.fields[k]) == Some(w.fields[k]))
  {
    hide RecordOk;
  }

  lemma ListParts(h: Host, lo: nat, hi: nat, item: Rule, check: ListCheck, v: Json)
    requires Normalize(h, ListRule(lo, hi, item, check), v).Some?
    ensures var w := Normalize(h, ListRule(lo, hi, item, check), v).value;
      && v.Array? && w.Array? && lo <= |w.items| == |v.items| <= hi && ListOk(h, check, w.items)
      && forall i :: 0 <= i < |w.items| ==> Normalize(h, item, v.items[i]) == Some(w.items[i])
  {
    hide ListOk;
  }

  lemma SameBut(h: Host, a: map<string, Json>, n: map<string, Json>, k: string, x: Json)
    requires SameContent(h, Object(a), Object(n)) && k !in {"mode", "options", "max_selected"}
    ensures SameContent(h, Object(a - {k}), Object(n[k := x] - {k}))
  {
    hide Swapped, SameText;
    var a', n' := a - {k}, n[k := x] - {k};
    forall j | j in n' && j !in a' ensures IsFilledIn(n', j) {
      assert IsFilledIn(n, j);
      assert At(n', "mode") == At(n, "mode") && At(n', "options") == At(n, "options") && At(n', j) == At(n, j);
    }
    hide IsFilledIn;
    forall j | j in a' ensures j in n' && (SameContent(h, a'[j], n'[j]) || (j == "teams" && Swapped(h, a'[j], n'[j]))) {
      assert n'[j] == n[j] && a'[j] == a[j];
    }
  }

  lemma ProvenanceTimes(h: Host, v: Json)
    requires TimeFacts(h) && Normalize(h, ProvenanceFields(), v).Some?
    ensures var w := Normalize(h, ProvenanceFields(), v).value;
      && v.Object? && w.Object? && "source_timestamp" in v.fields && "retrieved_at" in v.fields && ("valid_until" in w.fields <==> "valid_until" in v.fields)
      && forall k :: k in {"source_timestamp", "retrieved_at", "valid_until"} ==> InstantAt(h, w, k) == InstantAt(h, v, k)
  {
    var members := ProvenanceFields().members;
    assert members["source_timestamp"] == Required(TimestampRule) && members["retrieved_at"] == Required(TimestampRule)
           && members["valid_until"] == Optional(TimestampRule);
    hide ProvenanceFields, TimeFacts, Normalize, Leaf, RecordOk;
    RecordParts(h, members, AnyFields, Keep, v);
    forall k | k in {"source_timestamp", "retrieved_at", "valid_until"} && k in v.fields
      ensures TimeOf(h, FieldOf(Normalize(h, ProvenanceFields(), v).value, k)) == TimeOf(h, v.fields[k])
    {
      TimestampIsLeaf(h, v.fields[k]);
      LeafMeans(h, TimestampRule, v.fields[k]);
    }
  }

  lemma TimestampIsLeaf(h: Host, v: Json)
    ensures Normalize(h, TimestampRule, v) == Leaf(h, TimestampRule, v)
  {
  }

  lemma LineMeans(h: Host, maximum: nat, v: Json)
    requires Normalize(h, Line(maximum), v).Some?
    ensures v.Text? && Normalize(h, Line(maximum), v) == Some(Text(h.nfc(v.s)))
  {
  }

  lemma ProvenanceMeans(h: Host, v: Json, created: Instant)
    requires TimeFacts(h) && Provenance(h, v, created).Some?
    ensures SameProvenance(h, v, Provenance(h, v, created).value, created)
  {
    NormalizeKeepsContent(h, ProvenanceFields(), v);
    ProvenanceTimes(h, v);
    hide TimeFacts, Normalize, ProvenanceFields, SameContent;
    var n := Normalize(h, ProvenanceFields(), v).value;
    SameBut(h, v.fields, n.fields, "age_seconds", Integer(AgeOf(h, n.fields, created)));
    assert At(n.fields, "source_timestamp") == FieldOf(n, "source_timestamp") && At(n.fields, "retrieved_at") == FieldOf(n, "retrieved_at");
    hide TimeOf;
  }

  lemma NormalizedMeans(h: Host, component: string, e: Envelope, created: Instant)
    requires TimeFacts(h) && e.title.Some? && e.data.Some? && ComponentRule(component).Some? && Normalized(h, component, e, created).Some?
    ensures var c := Normalized(h, component, e, created).value;
      && c.component == component && e.title.value.Text? && c.title == Text(h.nfc(e.title.value.s)) && SameContent(h, e.data.value, c.data)
      && (if e.subtitle.Some? then e.subtitle.value.Text? && c.subtitle == Some(Text(h.nfc(e.subtitle.value.s))) else c.subtitle == None)
      && (component == "form" ==> c.provenance == None)
      && (component != "form" ==> e.provenance.Some? && c.provenance.Some? && SameProvenance(h, e.provenance.value, c.provenance.value, created))
  {
    hide Normalize, Provenance, ComponentRule, SameContent, SameProvenance, TimeFacts, Line;
    LineMeans(h, 120, e.title.value);
    NormalizeKeepsContent(h, ComponentRule(component).value, e.data.value);
    if e.subtitle.Some? {
      LineMeans(h, 240, e.subtitle.value);
    }
    if component != FORM_NAME && e.provenance.Some? {
      ProvenanceMeans(h, e.provenance.value, created);
    }
  }

  lemma ResultIdentified(h: Host, c: Content, created: Instant, cardId: string, action: Option<Action>)
    requires TimeFacts(h)
    ensures Identified(h, Result(h, c, created, cardId, action), created)
    ensures Result(h, c, created, cardId, action).contentHash == Some(Text(h.sha256(c)))
  {
    assert TimeSettles(h, created);
    hide TimeFacts;
  }

  lemma ResultHead(h: Host, e: Envelope, c: Content, created: Instant, cardId: string, action: Option<Action>)
    requires TimeFacts(h) && e.component == Some(Text(c.component)) && e.title.Some? && e.data.Some? && ComponentRule(c.component).Some?
    requires Normalized(h, c.component, e, created) == Some(c)
    ensures SameHead(h, e, Result(h, c, created, cardId, action))
    ensures c.component == "form" ==> c.provenance == None
    ensures c.component != "form" ==> e.provenance.Some? && c.provenance.Some? && SameProvenance(h, e.provenance.value, c.provenance.value, created)
  {
    NormalizedMeans(h, c.component, e, created);
    hide Normalized, SameContent, SameProvenance, ComponentRule, TimeFacts;
  }

  lemma ResultCard(h: Host, e: Envelope, c: Content, created: Instant)
    requires TimeFacts(h) && e.component == Some(Text(c.component)) && e.title.Some? && e.data.Some? && ComponentRule(c.component).Some?
    requires Normalized(h, c.component, e, created) == Some(c) && c.component != "form"
    ensures var card := Result(h, c, created, CardId(h, c), None); Identified(h, card, created) && CardOf(h, e, card, created)
  {
    ResultIdentified(h, c, created, CardId(h, c), None);
    ResultHead(h, e, c, created, CardId(h, c), None);
    CardIdMeans(h, c);
    hide Normalized, SameProvenance, ComponentRule, TimeFacts, SameHead, Identified, CardId, Min;
  }

  lemma CardIdMeans(h: Host, c: Content)
    ensures CardId(h, c) == if |h.sha256(c)| < 32 then h.sha256(c) else h.sha256(c)[..32]
  {
  }

  /**
    A rendered card says what the payload says: its title and subtitle in Normalization Form C, its data and
    provenance with the same content, the age counted from the source's time to now, under a hash of all of
    it. A form names, besides, the given owner and request, and expires in five minutes.
  */
  lemma RenderKeepsContent(h: Host, tool: string, payload: Envelope, now: Instant, owner: Owner)
    requires TimeFacts(h) && Render(h, tool, payload, now, owner).Some?
    ensures var card := Render(h, tool, payload, now, owner).value;
      && SameHead(h, payload, card) && card.component == Some(Text(tool)) && Identified(h, card, now)
      && h.size(payload) <= 32768 && h.size(card) <= 32768
      && (tool != "form" ==> CardOf(h, payload, card, now))
      && (tool == "form" ==>
            && card.provenance == None && card.cardId == Some(Text(owner.requestId)) && card.action.Some? && card.action.value.Action?
            && var a := card.action.value;
            && a.kind == Text("submit_form") && a.requestId == Text(owner.requestId)
            && a.profile == Text(h.nfc(owner.profile)) && a.sessionId == Text(h.nfc(owner.session))
            && TimeIn(h, Some(a.expiresAt)) == Some(now + 300))
  {
    hide Normalized, EnvelopeGlobalOk, TimeFacts, ComponentRule, SameHead, CardId, Identified;
    var c := Normalized(h, tool, payload, now).value;
    var card := Render(h, tool, payload, now, owner).value;
    NormalizedComponent(h, tool, payload, now);
    if tool == FORM_NAME {
      ResultHead(h, payload, c, now, owner.requestId, card.action);
      ResultIdentified(h, c, now, owner.requestId, card.action);
      ExpiryMeans(h, now);
    } else {
      ResultHead(h, payload, c, now, CardId(h, c), None);
      ResultCard(h, payload, c, now);
      hide CardOf, SameProvenance;
    }
  }

  lemma ExpiryMeans(h: Host, now: Instant)
    requires TimeFacts(h)
    ensures forall t: Instant :: t == now + 300 ==> h.parseTime(h.timeText(t)) == Some(t)
  {
    forall t: Instant | t == now + 300 ensures h.parseTime(h.timeText(t)) == Some(t) {
      assert TimeSettles(h, t);
    }
  }

  /**
    The validator lets through what its hash covers, and changes nothing but the form: an accepted result has
    the hash of its own content, its card id is half that hash, or the request of its form, and the card
    that comes out says what the result said.
  */
  lemma ValidateKeepsContent(h: Host, e: Envelope)
    requires TimeFacts(h) && Validate(h, e).Some?
    ensures var card := Validate(h, e).value;
      TimeIn(h, e.createdAt).Some? && var created := TimeIn(h, e.createdAt).value;
      && SameHead(h, e, card) && Identified(h, card, created) && card.contentHash == e.contentHash
      && (card.component != Some(Text("form")) ==> CardOf(h, e, card, created) && card.cardId == e.cardId)
      && (card.component == Some(Text("form")) ==>
            && card.provenance == None && card.cardId == e.cardId
            && e.action.Some? && e.action.value.Action? && card.action.Some? && SameAction(h, e.action.value, card.action.value, created)
            && card.cardId == Some(card.action.value.requestId))
  {
    hide Normalized, EnvelopeGlobalOk, TimeFacts, ComponentRule, SameHead, CardId, Identified, ValidAction, SameAction;
    var component, created := e.component.value.s, TimeIn(h, e.createdAt).value;
    var c := Normalized(h, component, e, created).value;
    NormalizedComponent(h, component, e, created);
    if component == FORM_NAME {
      var action := ValidAction(h, e.action.value, e.cardId.value, created);
      ActionMeans(h, e.action.value, e.cardId.value, created);
      ResultHead(h, e, c, created, TextOf(action.value.requestId), action);
      ResultIdentified(h, c, created, TextOf(action.value.requestId), action);
    } else {
      ResultHead(h, e, c, created, CardId(h, c), None);
      ResultIdentified(h, c, created, CardId(h, c), None);
      ResultCard(h, e, c, created);
      hide CardOf, SameProvenance;
    }
  }

  // The same submission, within five minutes of the card.
  predicate SameAction(h: Host, a: Action, b: Action, created: Instant) {
    && a.Action? && b.Action? && a.kind == b.kind == Text("submit_form")
    && a.requestId.Text? && a.profile.Text? && a.sessionId.Text?
    && b.requestId == Text(h.nfc(a.requestId.s)) && b.profile == Text(h.nfc(a.profile.s)) && b.sessionId == Text(h.nfc(a.sessionId.s))
    && TimeIn(h, Some(a.expiresAt)).Some? && TimeIn(h, Some(b.expiresAt)) == TimeIn(h, Some(a.expiresAt))
    && created < TimeIn(h, Some(a.expiresAt)).value <= created + 300
  }

  lemma ActionMeans(h: Host, a: Action, cardId: Json, created: Instant)
    requires TimeFacts(h) && ValidAction(h, a, cardId, created).Some?
    ensures var b := ValidAction(h, a, cardId, created).value;
      SameAction(h, a, b, created) && a.Action? && b.Action? && b.requestId.Text? && b.requestId == cardId && h.matches(Hex32, b.requestId.s)
  {
    assert TimeSettles(h, TimeIn(h, Some(a.expiresAt)).value);
    hide TimeFacts, NoControls;
  }

  // ---- What no payload may hold ----

  datatype Turn = Key(name: string) | Item(index: nat)

  // The value at the end of a path into another.
  function Inside(v: Json, path: seq<Turn>): Option<Json>
    decreases |path|
  {
    if path == [] then Some(v)
    else
      match path[0]
      case Key(k) => if v.Object? && k in v.fields then Inside(v.fields[k], path[1..]) else None
      case Item(i) => if v.Array? && i < |v.items| then Inside(v.items[i], path[1..]) else None
  }

  function KeysOn(path: seq<Turn>): nat { if path == [] then 0 else (if path[0].Key? then 1 else 0) + KeysOn(path[1..]) }

  // A text without control characters in Normalization Form C, and no longer than it was, or than 500; a number in range.
  predicate PlainValue(h: Host, v: Json) {
    && (v.Text? ==> |h.nfc(v.s)| <= 500 || |h.nfc(v.s)| <= |v.s|)
    && (v.Text? ==> forall i :: 0 <= i < |h.nfc(v.s)| ==> ' ' <= h.nfc(v.s)[i])
    && v != NotFinite
    && (IsNumber(v) ==> -1000000000000.0 <= RealOf(v) <= 1000000000000.0 && IsWhole(RealOf(v) * 1000000.0))
  }

  // Whatever the path leads to is at most six keys deep, under keys that are not forbidden in any case.
  predicate SpotOk(h: Host, v: Json, path: seq<Turn>, depth: nat) {
    Inside(v, path).Some? ==>
      && depth + KeysOn(path) <= 6 && PlainValue(h, Inside(v, path).value)
      && forall i :: 0 <= i < |path| && path[i].Key? ==> h.lower(path[i].name) !in V2_FORBIDDEN
  }

  lemma PlainIff(h: Host, v: Json, depth: nat)
    requires !v.Object? && !v.Array?
    ensures GlobalOk(h, v, depth) <==> depth <= 6 && PlainValue(h, v)
  {
    match v
    case Text(s) => TextIff(h, s);
    case Integer(_) => NumberIff(v, -1000000000000.0, 1000000000000.0); RangeOf();
    case Float(_) => NumberIff(v, -1000000000000.0, 1000000000000.0); RangeOf();
    case _ =>
  }

  lemma RangeOf()
    ensures -MAX_MAGNITUDE as real == -1000000000000.0 && MAX_MAGNITUDE as real == 1000000000000.0
  {
  }

  lemma TextIff(h: Host, s: string)
    ensures var t := h.nfc(s);
      String(h, Text(s), 0, if |s| < 500 then 500 else |s|, false).Some?
      <==> (|t| <= 500 || |t| <= |s|) && forall i :: 0 <= i < |t| ==> ' ' <= t[i]
  {
    var t := h.nfc(s);
    assert forall i :: 0 <= i < |t| ==> (' ' <= t[i] <==> t[i] as int >= 32);
  }

  lemma {:induction false} EverySpotOk(h: Host, v: Json, path: seq<Turn>, depth: nat)
    requires GlobalOk(h, v, depth)
    ensures SpotOk(h, v, path, depth)
    decreases |path|
  {
    hide PlainValue, V2_FORBIDDEN;
    if path == [] {
      if !v.Object? && !v.Array? { PlainIff(h, v, depth); } else { NotPlain(h, v); }
    } else {
      match path[0]
      case Key(k) => if v.Object? && k in v.fields {
        assert Permitted(h, k);
        EverySpotOk(h, v.fields[k], path[1..], depth + 1);
      }
      case Item(i) => if v.Array? && i < |v.items| {
        EverySpotOk(h, v.items[i], path[1..], depth);
      }
    }
  }

  lemma NotPlain(h: Host, v: Json)
    requires v.Object? || v.Array?
    ensures PlainValue(h, v)
  {
  }

  lemma SpotsBelow(h: Host, v: Json, turn: Turn, below: Json, depth: nat, next: nat)
    requires Inside(v, [turn]) == Some(below) && (forall path :: SpotOk(h, v, path, depth))
    requires next == depth + if turn.Key? then 1 else 0
    ensures forall path :: SpotOk(h, below, path, next)
    ensures turn.Key? ==> Permitted(h, turn.name)
  {
    hide PlainValue;
    forall path: seq<Turn> ensures SpotOk(h, below, path, next) {
      assert ([turn] + path)[1..] == path && [turn][1..] == [];
      assert SpotOk(h, v, [turn] + path, depth);
      forall i | 0 <= i < |path| && path[i].Key? && Inside(below, path).Some? ensures h.lower(path[i].name) !in V2_FORBIDDEN {
        assert ([turn] + path)[i + 1] == path[i];
      }
    }
    assert SpotOk(h, v, [turn], depth);
    assert [turn][0] == turn;
  }

  /**
    The check of the whole payload is exact: it passes if and only if along no path there is a forbidden key,
    in any case, a seventh nested object, a control character, or a number out of range or too fine.
  */
  lemma {:induction false} GlobalOkIff(h: Host, v: Json, depth: nat)
    ensures GlobalOk(h, v, depth) <==> forall path :: SpotOk(h, v, path, depth)
    decreases v
  {
    hide PlainValue, Permitted;
    if GlobalOk(h, v, depth) {
      forall path ensures SpotOk(h, v, path, depth) {
        EverySpotOk(h, v, path, depth);
      }
    }
    if forall path :: SpotOk(h, v, path, depth) {
      assert SpotOk(h, v, [], depth);
      match v
      case Object(fields) =>
        forall k | k in fields ensures Permitted(h, k) && GlobalOk(h, fields[k], depth + 1) {
          assert [Key(k)][1..] == [];
          SpotsBelow(h, v, Key(k), fields[k], depth, depth + 1);
          GlobalOkIff(h, fields[k], depth + 1);
        }
      case Array(items) =>
        forall i | 0 <= i < |items| ensures GlobalOk(h, items[i], depth) {
          assert [Item(i)][1..] == [];
          SpotsBelow(h, v, Item(i), items[i], depth, depth);
          GlobalOkIff(h, items[i], depth);
        }
      case _ => PlainIff(h, v, depth);
    }
  }

  /** Nothing forbidden passes either way: not in the data of a payload that is rendered, nor of a result that is validated. */
  lemma NothingForbiddenPasses(h: Host, tool: string, payload: Envelope, now: Instant, owner: Owner, e: Envelope, path: seq<Turn>)
    ensures Render(h, tool, payload, now, owner).Some? ==> payload.data.Some? && SpotOk(h, payload.data.value, path, 1)
    ensures Validate(h, e).Some? ==> e.data.Some? && SpotOk(h, e.data.value, path, 1)
    ensures Validate(h, e).Some? && e.provenance.Some? ==> SpotOk(h, e.provenance.value, path, 1)
    ensures Validate(h, e).Some? ==> h.size(e) <= 32768 && e.version.Some? && (e.version == Some(Integer(2)) || e.version == Some(Float(2.0)))
  {
    if Render(h, tool, payload, now, owner).Some? {
      EverySpotOk(h, payload.data.value, path, 1);
    }
    if Validate(h, e).Some? {
      EverySpotOk(h, e.data.value, path, 1);
      if e.provenance.Some? {
        EverySpotOk(h, e.provenance.value, path, 1);
      }
    }
    hide SpotOk, GlobalOk, Normalized, ComponentRule, ValidAction, String;
  }

  // ---- What a client may rely on ----

  function Part(v: Json, k: string): seq<Json> { ItemsOf(FieldOf(v, k)) }

  function Word(v: Json, k: string): string { TextOf(FieldOf(v, k)) }

  predicate Has(v: Json, k: string) { v.Object? && k in v.fields }

  // No two items share this member.
  predicate AllDiffer(items: seq<Json>, k: string) { forall i, j :: 0 <= i < |items| && 0 <= j < |items| && FieldOf(items[i], k) == FieldOf(items[j], k) ==> i == j }

  predicate WeatherSound(h: Host, d: Json) {
    var periods := Part(d, "periods");
    && 1 <= |periods| <= 14 && AllDiffer(periods, "id")
    && (forall i, j :: 0 <= i < j < |periods| ==> InstantAt(h, periods[i], "start_at") < InstantAt(h, periods[j], "start_at"))
    && (forall i :: 0 <= i < |periods| ==> InstantAt(h, periods[i], "start_at") < InstantAt(h, periods[i], "end_at"))
    && (forall i :: 0 <= i < |periods| && Has(periods[i], "low") && Has(periods[i], "high") ==>
          RealOf(FieldOf(periods[i], "low")) <= RealOf(FieldOf(periods[i], "high")))
  }

  // The guests come first, whatever the order given.
  predicate GameSound(d: Json) {
    var teams, status := Part(d, "teams"), Word(d, "status");
    && |teams| == 2 && FieldOf(teams[0], "home") == Boolean(false) && FieldOf(teams[1], "home") == Boolean(true)
    && AllDiffer(teams, "id") && AllDiffer(teams, "abbreviation")
    && (status == "live" || status == "final" ==> forall i :: 0 <= i < 2 ==> FieldOf(teams[i], "score").Integer?)
    && (Has(d, "clock") ==> status == "live") && (Has(d, "period_label") ==> status == "live" || status == "final")
    && (Has(d, "league_label") <==> Word(d, "league") == "other")
  }

  // A single selection has no limit, and a multiple one always has one that can be met.
  predicate SelectionSound(d: Json) {
    var options, limit := Part(d, "options"), FieldOf(d, "max_selected");
    && 1 <= |options| <= 24 && AllDiffer(options, "id") && (Word(d, "mode") == "single" || Word(d, "mode") == "multiple")
    && (Word(d, "mode") == "single" ==> !Has(d, "max_selected"))
    && (Word(d, "mode") == "multiple" ==> limit.Integer? && 1 <= limit.n <= 10 && limit.n <= |options|)
  }

  // An operation is offered once, and only in a state it applies to.
  predicate AutomationSound(d: Json) {
    var operations := Part(d, "operations");
    && (forall i, j :: 0 <= i < |operations| && 0 <= j < |operations| && operations[i] == operations[j] ==> i == j)
    && (forall v :: v in operations ==>
          (v == Text("pause") && Word(d, "state") == "active") || (v == Text("resume") && Word(d, "state") == "paused") || v == Text("run"))
  }

  function CountPoints(series: seq<Json>): nat
    decreases |series|
  {
    if series == [] then 0 else CountPoints(series[..|series| - 1]) + |Part(series[|series| - 1], "points")|
  }

  // Points on a time axis are in order; there are at most so many in all.
  predicate ChartSound(h: Host, d: Json, total: nat) {
    var series := Part(d, "series");
    && AllDiffer(series, "id") && AllDiffer(series, "label") && CountPoints(series) <= total
    && (Word(FieldOf(d, "x_axis"), "kind") == "time" ==>
          forall s, i, j :: s in series && 0 <= i < j < |Part(s, "points")| ==> Less(Word(Part(s, "points")[i], "x"), Word(Part(s, "points")[j], "x")))
  }

  lemma DifferMeans(items: seq<Json>, k: string)
    ensures DistinctBy(items, k) <==> AllDiffer(items, k)
  {
    hide FieldOf;
  }

  lemma RecordIs(h: Host, members: map<string, Member>, check: RecordCheck, v: Json, k: string)
    requires Normalize(h, RecordRule(members, check, Keep), v).Some? && k in members && members[k].Required?
    ensures var w := Normalize(h, RecordRule(members, check, Keep), v).value;
      v.Object? && w.Object? && k in v.fields && k in w.fields && Normalize(h, members[k].rule, v.fields[k]) == Some(w.fields[k])
  {
    hide RecordOk, Normalize;
    RecordParts(h, members, check, Keep, v);
  }

  lemma PeriodIsSound(h: Host, v: Json)
    requires Normalize(h, WeatherPeriod(), v).Some?
    ensures var w := Normalize(h, WeatherPeriod(), v).value;
      && w.Object? && InstantAt(h, w, "start_at") < InstantAt(h, w, "end_at")
      && (Has(w, "low") && Has(w, "high") ==> RealOf(FieldOf(w, "low")) <= RealOf(FieldOf(w, "high")))
  {
    hide Normalize, Line, IdText, Condition;
    RecordParts(h, WeatherPeriod().members, PeriodFields, Keep, v);
    hide WeatherPeriod, TimeOf;
  }

  lemma {:induction false} StartsAscend(h: Host, items: seq<Json>, i: nat, j: nat)
    requires ListOk(h, WeatherPeriods, items) && i < j < |items|
    ensures InstantAt(h, items[i], "start_at") < InstantAt(h, items[j], "start_at")
    decreases j
  {
    hide DistinctBy, TimeOf, FieldOf;
    if i < j - 1 {
      StartsAscend(h, items, i, j - 1);
    }
  }

  lemma WeatherIsSound(h: Host, v: Json)
    requires Normalize(h, WeatherForecast(), v).Some?
    ensures WeatherSound(h, Normalize(h, WeatherForecast(), v).value)
  {
    var members := WeatherForecast().members;
    assert members["periods"] == Required(ListRule(1, 14, WeatherPeriod(), WeatherPeriods));
    assert WeatherForecast() == RecordRule(members, AnyFields, Keep);
    hide Normalize, WeatherForecast, WeatherPeriod, InstantAt, DistinctBy;
    RecordIs(h, members, AnyFields, v, "periods");
    var given, periods := v.fields["periods"], Normalize(h, WeatherForecast(), v).value.fields["periods"].items;
    ListParts(h, 1, 14, WeatherPeriod(), WeatherPeriods, given);
    DifferMeans(periods, "id");
    forall i | 0 <= i < |periods|
      ensures InstantAt(h, periods[i], "start_at") < InstantAt(h, periods[i], "end_at")
      ensures Has(periods[i], "low") && Has(periods[i], "high") ==> RealOf(FieldOf(periods[i], "low")) <= RealOf(FieldOf(periods[i], "high"))
    {
      PeriodIsSound(h, given.items[i]);
    }
    forall i, j | 0 <= i < j < |periods| ensures InstantAt(h, periods[i], "start_at") < InstantAt(h, periods[j], "start_at") {
      StartsAscend(h, periods, i, j);
    }
    hide FieldOf, ListOk, Has, AllDiffer;
  }

  // The normalised members before the last touch.
  lemma BeforeFinish(h: Host, members: map<string, Member>, check: RecordCheck, finish: Finish, v: Json) returns (first: map<string, Json>)
    requires Normalize(h, RecordRule(members, check, finish), v).Some?
    ensures var w := Normalize(h, RecordRule(members, check, finish), v).value;
      v.Object? && w.Object? && KeysOk(members, v.fields) && first.Keys == v.fields.Keys && w.fields == Finished(finish, first)
      && RecordOk(h, check, w.fields)
    ensures forall k :: k in first ==> Normalize(h, members[k].rule, v.fields[k]) == Some(first[k])
  {
    hide RecordOk, Finished;
    first := map k | k in v.fields :: Normalize(h, members[k].rule, v.fields[k]).value;
  }

  lemma FlagMeans(h: Host, v: Json)
    requires Normalize(h, BooleanRule, v).Some?
    ensures Normalize(h, BooleanRule, v).value.Boolean?
  {
  }

  lemma ScoreMeans(h: Host, v: Json)
    requires Normalize(h, NullOr(IntegerRule(0, 999)), v).Some?
    ensures var w := Normalize(h, NullOr(IntegerRule(0, 999)), v).value; w == Null || w.Integer?
  {
  }

  lemma TeamMembers()
    ensures var members := Team().members;
      Team() == RecordRule(members, AnyFields, Keep) && "home" in members && members["home"] == Required(BooleanRule)
      && "score" in members && members["score"] == Required(NullOr(IntegerRule(0, 999)))
  {
    hide Line, IdText;
  }

  lemma TeamMeans(h: Host, v: Json)
    requires Normalize(h, Team(), v).Some?
    ensures var w := Normalize(h, Team(), v).value;
      FieldOf(w, "home").Boolean? && (FieldOf(w, "score") == Null || FieldOf(w, "score").Integer?)
  {
    TeamMembers();
    var members := Team().members;
    hide Team, Normalize;
    RecordIs(h, members, AnyFields, v, "home");
    RecordIs(h, members, AnyFields, v, "score");
    FlagMeans(h, v.fields["home"]);
    ScoreMeans(h, v.fields["score"]);
  }

  lemma SortedTeams(teams: seq<Json>)
    requires |teams| == 2 && FieldOf(teams[0], "home").Boolean? && FieldOf(teams[1], "home").Boolean?
    requires DistinctBy(TeamsSorted(teams), "home")
    ensures var sorted := TeamsSorted(teams);
      |sorted| == 2 && FieldOf(sorted[0], "home") == Boolean(false) && FieldOf(sorted[1], "home") == Boolean(true)
      && forall t :: t in sorted ==> t == teams[0] || t == teams[1]
  {
    var sorted := TeamsSorted(teams);
    assert FieldOf(sorted[0], "home") != FieldOf(sorted[1], "home");
    assert teams == [teams[0], teams[1]];
    hide FieldOf;
  }

  lemma GameMembers()
    ensures var members := SportsGame().members;
      SportsGame() == RecordRule(members, GameFields, AwayTeamFirst)
      && "teams" in members && members["teams"] == Required(ListRule(2, 2, Team(), AnyItems))
  {
    hide Team, Line;
  }

  // The teams of a game as they come out: the two that went in, the guests first.
  lemma GameTeams(h: Host, v: Json)
    requires Normalize(h, SportsGame(), v).Some?
    ensures var w := Normalize(h, SportsGame(), v).value; var teams := Part(w, "teams");
      && w.Object? && GameOk(w.fields) && |teams| == 2
      && FieldOf(teams[0], "home") == Boolean(false) && FieldOf(teams[1], "home") == Boolean(true)
      && forall t :: t in teams ==> FieldOf(t, "score") == Null || FieldOf(t, "score").Integer?
  {
    GameMembers();
    var members := SportsGame().members;
    hide Normalize, SportsGame, Team, TeamsSorted, DistinctBy, GameOk;
    var first := BeforeFinish(h, members, GameFields, AwayTeamFirst, v);
    ListParts(h, 2, 2, Team(), AnyItems, v.fields["teams"]);
    var teams := first["teams"].items;
    TeamMeans(h, v.fields["teams"].items[0]);
    TeamMeans(h, v.fields["teams"].items[1]);
    var w := Normalize(h, SportsGame(), v).value;
    TeamsDiffer(w.fields);
    assert Part(w, "teams") == TeamsSorted(teams);
    hide FieldOf, KeysOk;
    SortedTeams(teams);
  }

  lemma TeamsDiffer(o: map<string, Json>)
    requires GameOk(o)
    ensures var teams := ItemsOf(At(o, "teams")); DistinctBy(teams, "home") && AllDiffer(teams, "id") && AllDiffer(teams, "abbreviation")
  {
    hide DistinctBy, AllDiffer;
    DifferMeans(ItemsOf(At(o, "teams")), "id");
    DifferMeans(ItemsOf(At(o, "teams")), "abbreviation");
  }

  lemma GameIsSound(h: Host, v: Json)
    requires Normalize(h, SportsGame(), v).Some?
    ensures GameSound(Normalize(h, SportsGame(), v).value)
  {
    GameTeams(h, v);
    hide Normalize, SportsGame, GameOk, AllDiffer;
    var w := Normalize(h, SportsGame(), v).value;
    StatusFields(w);
    TeamsDiffer(w.fields);
    hide Has, Word;
  }

  // The conditions on a game that are read off its members.
  lemma StatusFields(w: Json)
    requires w.Object? && GameOk(w.fields)
    ensures var status := Word(w, "status");
      && (Has(w, "clock") ==> status == "live") && (Has(w, "period_label") ==> status == "live" || status == "final")
      && (Has(w, "league_label") <==> Word(w, "league") == "other")
      && (status == "live" || status == "final" ==> forall t :: t in Part(w, "teams") ==> FieldOf(t, "score") != Null)
  {
    hide DistinctBy;
  }

  lemma SelectionMembers()
    ensures var members := Selection().members;
      && Selection() == RecordRule(members, SelectionFields, FillMaxSelected) && "mode" in members && "options" in members && "max_selected" in members
      && members["mode"] == Required(EnumRule({"single", "multiple"}))
      && members["options"] == Required(ListRule(1, 24, SelectionOption(), DistinctIds))
      && members["max_selected"] == Optional(IntegerRule(1, 10))
  {
    hide SelectionOption, Line;
  }

  lemma LimitFits(h: Host, first: map<string, Json>, o: map<string, Json>)
    requires "mode" in first && (TextOf(first["mode"]) == "single" || TextOf(first["mode"]) == "multiple")
    requires "options" in first && first["options"].Array? && 1 <= |first["options"].items| <= 24 && AllDiffer(first["options"].items, "id")
    requires "max_selected" in first ==> first["max_selected"].Integer? && 1 <= first["max_selected"].n <= 10
    requires o == Finished(FillMaxSelected, first) && RecordOk(h, SelectionFields, o)
    ensures SelectionSound(Object(o))
  {
    hide AllDiffer;
    assert At(o, "options") == first["options"] && At(o, "mode") == first["mode"];
  }

  lemma SelectionIsSound(h: Host, v: Json)
    requires Normalize(h, Selection(), v).Some?
    ensures SelectionSound(Normalize(h, Selection(), v).value)
  {
    SelectionMembers();
    var members := Selection().members;
    hide Selection, SelectionOption, DistinctBy, Normalize, RecordOk, Finished, SelectionSound, AllDiffer;
    var first := BeforeFinish(h, members, SelectionFields, FillMaxSelected, v);
    ListParts(h, 1, 24, SelectionOption(), DistinctIds, v.fields["options"]);
    ModeMeans(h, v.fields["mode"]);
    if "max_selected" in v.fields {
      LimitMeans(h, v.fields["max_selected"]);
    }
    DifferMeans(first["options"].items, "id");
    LimitFits(h, first, Normalize(h, Selection(), v).value.fields);
  }

  lemma ModeMeans(h: Host, v: Json)
    requires Normalize(h, EnumRule({"single", "multiple"}), v).Some?
    ensures var mode := TextOf(Normalize(h, EnumRule({"single", "multiple"}), v).value); mode == "single" || mode == "multiple"
  {
  }

  lemma LimitMeans(h: Host, v: Json)
    requires Normalize(h, IntegerRule(1, 10), v).Some?
    ensures var w := Normalize(h, IntegerRule(1, 10), v).value; w.Integer? && 1 <= w.n <= 10
  {
  }

  lemma AutomationMembers()
    ensures var members := Automation().members;
      Automation() == RecordRule(members, AutomationFields, Keep) && "operations" in members
      && members["operations"] == Required(ListRule(0, 3, EnumRule({"pause", "resume", "run"}), DistinctItems))
  {
    hide Line, Area;
  }

  lemma OperationsFit(h: Host, o: map<string, Json>)
    requires RecordOk(h, AutomationFields, o) && Distinct(ItemsOf(At(o, "operations")))
    requires forall v :: v in ItemsOf(At(o, "operations")) ==> v in {Text("pause"), Text("resume"), Text("run")}
    ensures AutomationSound(Object(o))
  {
  }

  lemma AutomationIsSound(h: Host, v: Json)
    requires Normalize(h, Automation(), v).Some?
    ensures AutomationSound(Normalize(h, Automation(), v).value)
  {
    AutomationMembers();
    var members := Automation().members;
    hide Automation, Normalize, RecordOk, AutomationSound, Distinct;
    RecordParts(h, members, AutomationFields, Keep, v);
    ListParts(h, 0, 3, EnumRule({"pause", "resume", "run"}), DistinctItems, v.fields["operations"]);
    var o := Normalize(h, Automation(), v).value.fields;
    forall i | 0 <= i < |ItemsOf(o["operations"])| ensures ItemsOf(o["operations"])[i] in {Text("pause"), Text("resume"), Text("run")} {
      VerbMeans(h, v.fields["operations"].items[i]);
    }
    OperationsFit(h, o);
  }

  lemma VerbMeans(h: Host, v: Json)
    requires Normalize(h, EnumRule({"pause", "resume", "run"}), v).Some?
    ensures Normalize(h, EnumRule({"pause", "resume", "run"}), v).value in {Text("pause"), Text("resume"), Text("run")}
  {
  }

  // ---- Charts and forms ----

  lemma {:induction false} CountedAlike(series: seq<Json>, more: seq<Json>)
    ensures PointsIn(series + more) == CountPoints(series) + PointsIn(more)
    decreases |series|
  {
    hide FieldOf;
    if series == [] {
      assert series + more == more;
    } else {
      var front, last := series[..|series| - 1], series[|series| - 1];
      CountedAlike(front, [last] + more);
      assert front + ([last] + more) == series + more && ([last] + more)[1..] == more;
    }
  }

  lemma {:induction false} PointsAscend(h: Host, items: seq<Json>, i: nat, j: nat)
    requires ListOk(h, AscendingPoints, items) && i < j < |items|
    ensures Less(Word(items[i], "x"), Word(items[j], "x"))
    decreases j
  {
    hide FieldOf, Less;
    if i < j - 1 {
      PointsAscend(h, items, i, j - 1);
      LessTransitive(Word(items[i], "x"), Word(items[j - 1], "x"), Word(items[j], "x"));
    }
  }

  lemma SeriesMembers(points: nat, x: Rule, order: ListCheck)
    ensures var members := Series(points, x, order).members;
      Series(points, x, order) == RecordRule(members, AnyFields, Keep) && "points" in members
      && members["points"] == Required(ListRule(1, points, ChartPoint(x), order))
  {
    hide ChartPoint, Line, IdText;
  }

  lemma SeriesMeans(h: Host, points: nat, x: Rule, order: ListCheck, v: Json)
    requires Normalize(h, Series(points, x, order), v).Some?
    ensures ListOk(h, order, Part(Normalize(h, Series(points, x, order), v).value, "points"))
  {
    SeriesMembers(points, x, order);
    var members := Series(points, x, order).members;
    hide Series, Normalize, ChartPoint, ListOk;
    RecordIs(h, members, AnyFields, v, "points");
    ListParts(h, 1, points, ChartPoint(x), order, v.fields["points"]);
  }

  lemma ChartMembers(series: nat, total: nat, item: Rule)
    ensures var members := ChartOf(series, total, item).members;
      ChartOf(series, total, item) == RecordRule(members, PointTotal(total), Keep) && "series" in members
      && members["series"] == Required(ListRule(1, series, item, ChartSeries))
  {
    hide XAxis, YAxis, Line;
  }

  // What the series of a chart are, whatever stands on its x axis.
  lemma ChartCase(h: Host, series: nat, points: nat, total: nat, x: Rule, order: ListCheck, v: Json)
    requires Normalize(h, ChartOf(series, total, Series(points, x, order)), v).Some?
    ensures var all := Part(Normalize(h, ChartOf(series, total, Series(points, x, order)), v).value, "series");
      && AllDiffer(all, "id") && AllDiffer(all, "label") && CountPoints(all) <= total
      && forall s :: s in all ==> ListOk(h, order, Part(s, "points"))
  {
    var item := Series(points, x, order);
    ChartMembers(series, total, item);
    var rule := ChartOf(series, total, item);
    var members := rule.members;
    hide ChartOf, Normalize, Series, AllDiffer, DistinctBy;
    RecordParts(h, members, PointTotal(total), Keep, v);
    ListParts(h, 1, series, item, ChartSeries, v.fields["series"]);
    var all := Part(Normalize(h, rule, v).value, "series");
    DifferMeans(all, "id");
    DifferMeans(all, "label");
    CountedAlike(all, []);
    assert all + [] == all;
    forall i | 0 <= i < |all| ensures ListOk(h, order, Part(all[i], "points")) {
      SeriesMeans(h, points, x, order, v.fields["series"].items[i]);
    }
  }

  lemma KindOf(w: Json)
    ensures Tag(w, ["x_axis", "kind"]).Some? ==> Tag(w, ["x_axis", "kind"]) == Some(Word(FieldOf(w, "x_axis"), "kind"))
  {
    assert ["x_axis", "kind"][1..] == ["kind"] && ["kind"][1..] == [];
    var axis := FieldOf(w, "x_axis");
    assert Tag(w, ["x_axis", "kind"]).Some? ==> Tag(w, ["x_axis", "kind"]) == Tag(axis, ["kind"]);
    assert Tag(axis, ["kind"]).Some? ==> Tag(axis, ["kind"]) == Tag(FieldOf(axis, "kind"), []);
  }

  lemma ChartCases(series: nat, points: nat, total: nat)
    ensures var rule := Chart(series, points, total);
      rule == SwitchRule(["x_axis", "kind"], rule.cases) && rule.cases.Keys == {"category", "time"}
      && rule.cases["category"] == ChartOf(series, total, Series(points, Line(40), AnyItems))
      && rule.cases["time"] == ChartOf(series, total, Series(points, TimestampRule, AscendingPoints))
  {
    hide ChartOf, Series, Line;
  }

  lemma ChartIsSound(h: Host, series: nat, points: nat, total: nat, v: Json)
    requires Normalize(h, Chart(series, points, total), v).Some?
    ensures ChartSound(h, Normalize(h, Chart(series, points, total), v).value, total)
  {
    ChartCases(series, points, total);
    var path := ["x_axis", "kind"];
    var rule := Chart(series, points, total);
    SwitchTaken(h, path, rule.cases, v);
    var t := Tag(v, path).value;
    var w := Normalize(h, rule, v).value;
    hide Chart, Normalize, Series, ChartOf, ChartSound, Tag, Line, ListOk, AllDiffer;
    KindOf(w);
    if t == "time" {
      ChartCaseFormed(series, points, total, TimestampRule, AscendingPoints);
      TagKept(h, rule.cases[t], v, path);
      ChartCase(h, series, points, total, TimestampRule, AscendingPoints, v);
      AscendingSound(h, w, total);
    } else {
      ChartCaseFormed(series, points, total, Line(40), AnyItems);
      TagKept(h, rule.cases[t], v, path);
      ChartCase(h, series, points, total, Line(40), AnyItems, v);
      CategorySound(h, w, total);
    }
  }

  lemma AscendingSound(h: Host, w: Json, total: nat)
    requires var all := Part(w, "series");
      AllDiffer(all, "id") && AllDiffer(all, "label") && CountPoints(all) <= total && forall s :: s in all ==> ListOk(h, AscendingPoints, Part(s, "points"))
    ensures ChartSound(h, w, total)
  {
    hide AllDiffer, ListOk, Less, FieldOf, CountPoints;
    forall s, i, j | s in Part(w, "series") && 0 <= i < j < |Part(s, "points")|
      ensures Less(Word(Part(s, "points")[i], "x"), Word(Part(s, "points")[j], "x"))
    {
      PointsAscend(h, Part(s, "points"), i, j);
    }
  }

  lemma CategorySound(h: Host, w: Json, total: nat)
    requires var all := Part(w, "series"); AllDiffer(all, "id") && AllDiffer(all, "label") && CountPoints(all) <= total
    requires Word(FieldOf(w, "x_axis"), "kind") == "category"
    ensures ChartSound(h, w, total)
  {
    hide AllDiffer, Less, CountPoints;
  }

  lemma SwitchTaken(h: Host, path: seq<string>, cases: map<string, Rule>, v: Json)
    requires Normalize(h, SwitchRule(path, cases), v).Some?
    ensures Tag(v, path).Some? && Tag(v, path).value in cases && Normalize(h, SwitchRule(path, cases), v) == Normalize(h, cases[Tag(v, path).value], v)
  {
    hide Tag, Leaf;
  }

  predicate IsOption(options: seq<Json>, v: Json) { exists j :: 0 <= j < |options| && FieldOf(options[j], "id") == v }

  predicate AllOffered(options: seq<Json>, chosen: seq<Json>) { forall i :: 0 <= i < |chosen| ==> IsOption(options, chosen[i]) }

  function LengthLimit(kind: string): nat { if kind == "textarea" then 2000 else 500 }

  predicate NumbersFit(d: Json, lo: string, hi: string) { Has(d, lo) && Has(d, hi) ==> RealOf(FieldOf(d, lo)) <= RealOf(FieldOf(d, hi)) }

  predicate DatesFit(d: Json, lo: string, hi: string) { Has(d, lo) && Has(d, hi) ==> !Less(Word(d, hi), Word(d, lo)) }

  // What a form field starts with can be submitted.
  predicate InputSound(d: Json) {
    var kind := Word(d, "kind");
    && (kind == "text" || kind == "textarea" ==>
          var least, most := IntOf(FieldOf(d, "min_length"), 0), IntOf(FieldOf(d, "max_length"), LengthLimit(kind));
          least <= most && (Has(d, "default") ==> least <= |Word(d, "default")| <= most))
    && (kind == "select" && Has(d, "default") ==> AllOffered(Part(d, "options"), [FieldOf(d, "default")]))
    && (kind == "multi_select" ==>
          var limit := IntOf(FieldOf(d, "max_selected"), 0);
          |Part(d, "default")| <= limit <= 10 && limit <= |Part(d, "options")| && AllOffered(Part(d, "options"), Part(d, "default")))
    && (kind == "integer" || kind == "decimal" ==> NumbersFit(d, "min", "max") && NumbersFit(d, "min", "default") && NumbersFit(d, "default", "max"))
    && (kind == "date" ==> DatesFit(d, "min", "max") && DatesFit(d, "min", "default") && DatesFit(d, "default", "max"))
  }

  // The condition that goes with each kind of field.
  function CheckOf(kind: string): RecordCheck {
    if kind == "text" || kind == "textarea" then TextFieldLimits(LengthLimit(kind))
    else if kind == "select" then SelectFieldDefault
    else if kind == "multi_select" then MultiFieldDefault
    else if kind == "toggle" then AnyFields
    else if kind == "date" then DateFieldRange
    else NumberFieldRange
  }

  predicate IsField(rule: Rule, kind: string, check: RecordCheck) {
    && rule.RecordRule? && rule == RecordRule(rule.members, check, Keep)
    && "kind" in rule.members && rule.members["kind"] == Required(EnumRule({kind}))
  }

  lemma FormFieldIs(kind: string, own: map<string, Member>, check: RecordCheck)
    ensures IsField(FormField(kind, own, check), kind, check)
  {
    hide IdText, Line;
  }

  lemma FieldsAre()
    ensures IsField(TextField("text", 500, false), "text", TextFieldLimits(500))
    ensures IsField(TextField("textarea", 2000, true), "textarea", TextFieldLimits(2000))
    ensures IsField(SelectField(), "select", SelectFieldDefault) && IsField(MultiSelectField(), "multi_select", MultiFieldDefault)
    ensures IsField(ToggleField(), "toggle", AnyFields) && IsField(DateField(), "date", DateFieldRange)
    ensures IsField(IntegerField(), "integer", NumberFieldRange) && IsField(DecimalField(), "decimal", NumberFieldRange)
  {
    forall kind, own, check ensures IsField(FormField(kind, own, check), kind, check) {
      FormFieldIs(kind, own, check);
    }
    hide FormField, IsField, FormOption;
  }

  lemma FormCase(kind: string)
    requires kind in AnyFormField().cases
    ensures IsField(AnyFormField().cases[kind], kind, CheckOf(kind))
  {
    FieldsAre();
    hide TextField, SelectField, MultiSelectField, ToggleField, IntegerField, DecimalField, DateField, IsField;
  }

  lemma FormFieldKind(h: Host, kind: string, members: map<string, Member>, check: RecordCheck, v: Json)
    requires Normalize(h, RecordRule(members, check, Keep), v).Some? && "kind" in members && members["kind"] == Required(EnumRule({kind}))
    ensures var w := Normalize(h, RecordRule(members, check, Keep), v).value;
      w.Object? && Word(w, "kind") == kind && RecordOk(h, check, w.fields)
  {
    hide Normalize, RecordOk;
    RecordParts(h, members, check, Keep, v);
    OnlyChoice(h, kind, v.fields["kind"]);
  }

  lemma OnlyChoice(h: Host, t: string, v: Json)
    requires Normalize(h, EnumRule({t}), v).Some?
    ensures Normalize(h, EnumRule({t}), v) == Some(Text(t))
  {
  }

  lemma OfferedMeans(options: seq<Json>, v: Json)
    requires Offered(options, v)
    ensures IsOption(options, v)
  {
    hide FieldOf;
    var o :| o in options && FieldOf(o, "id") == v;
    var j :| 0 <= j < |options| && options[j] == o;
  }

  lemma ChosenMeans(options: seq<Json>, chosen: seq<Json>)
    requires forall v :: v in chosen ==> Offered(options, v)
    ensures AllOffered(options, chosen)
  {
    forall i | 0 <= i < |chosen| ensures IsOption(options, chosen[i]) {
      OfferedMeans(options, chosen[i]);
    }
  }

  lemma CheckMeans(h: Host, kind: string, o: map<string, Json>)
    requires RecordOk(h, CheckOf(kind), o) && Word(Object(o), "kind") == kind
    ensures InputSound(Object(o))
  {
    hide Offered, AllOffered, Less, Distinct;
    if kind == "select" {
      if "default" in o {
        ChosenMeans(ItemsOf(At(o, "options")), [o["default"]]);
      }
    } else if kind == "multi_select" {
      ChosenMeans(ItemsOf(At(o, "options")), ItemsOf(At(o, "default")));
    } else if kind == "date" {
      assert TextInOrder(o, "min", "max") && TextInOrder(o, "min", "default") && TextInOrder(o, "default", "max");
    } else if kind == "integer" || kind == "decimal" {
      assert InOrder(o, "min", "max") && InOrder(o, "min", "default") && InOrder(o, "default", "max");
    }
  }

  lemma InputIsSound(h: Host, v: Json)
    requires Normalize(h, AnyFormField(), v).Some?
    ensures InputSound(Normalize(h, AnyFormField(), v).value)
  {
    var cases := AnyFormField().cases;
    assert AnyFormField() == SwitchRule(["kind"], cases);
    hide AnyFormField, Normalize, InputSound, RecordOk, CheckOf;
    SwitchTaken(h, ["kind"], cases, v);
    var kind := Tag(v, ["kind"]).value;
    FormCase(kind);
    FormFieldKind(h, kind, cases[kind].members, CheckOf(kind), v);
    CheckMeans(h, kind, Normalize(h, cases[kind], v).value.fields);
  }

  predicate FormSound(d: Json) {
    AllDiffer(Part(d, "fields"), "id") && forall f :: f in Part(d, "fields") ==> InputSound(f)
  }

  lemma FormIsSound(h: Host, v: Json)
    requires Normalize(h, Form(), v).Some?
    ensures FormSound(Normalize(h, Form(), v).value)
  {
    FormMembers();
    var members := Form().members;
    hide Form, AnyFormField, Normalize, InputSound, AllDiffer, DistinctBy;
    RecordIs(h, members, AnyFields, v, "fields");
    ListParts(h, 1, 12, AnyFormField(), DistinctIds, v.fields["fields"]);
    var fields := Part(Normalize(h, Form(), v).value, "fields");
    DifferMeans(fields, "id");
    forall i | 0 <= i < |fields| ensures InputSound(fields[i]) {
      InputIsSound(h, v.fields["fields"].items[i]);
    }
  }

  predicate DashboardSound(h: Host, d: Json) {
    AllDiffer(Part(d, "metrics"), "id") && forall c :: c in Part(d, "charts") ==> ChartSound(h, c, 120)
  }

  lemma DashboardMembers()
    ensures var members := Dashboard().members;
      && Dashboard() == RecordRule(members, AnyFields, Keep) && "metrics" in members && "charts" in members
      && members["metrics"] == Required(ListRule(1, 12, Metric(), DistinctIds))
      && members["charts"] == Optional(ListRule(0, 2, Chart(3, 40, 120), AnyItems))
  {
    hide Metric, Chart, Line;
  }

  lemma DashboardIsSound(h: Host, v: Json)
    requires Normalize(h, Dashboard(), v).Some?
    ensures DashboardSound(h, Normalize(h, Dashboard(), v).value)
  {
    DashboardMembers();
    var members := Dashboard().members;
    hide Dashboard, Metric, Chart, Normalize, ChartSound, AllDiffer, DistinctBy;
    RecordParts(h, members, AnyFields, Keep, v);
    ListParts(h, 1, 12, Metric(), DistinctIds, v.fields["metrics"]);
    var w := Normalize(h, Dashboard(), v).value;
    DifferMeans(Part(w, "metrics"), "id");
    if "charts" in v.fields {
      ListParts(h, 0, 2, Chart(3, 40, 120), AnyItems, v.fields["charts"]);
      var charts := Part(w, "charts");
      forall i | 0 <= i < |charts| ensures ChartSound(h, charts[i], 120) {
        ChartIsSound(h, 3, 40, 120, v.fields["charts"].items[i]);
      }
    }
  }

  predicate QuoteSound(d: Json) {
    Has(d, "day_low") && Has(d, "day_high") ==> RealOf(FieldOf(d, "day_low")) <= RealOf(FieldOf(d, "day_high"))
  }

  lemma QuoteIsSound(h: Host, v: Json)
    requires Normalize(h, StockQuote(), v).Some?
    ensures QuoteSound(Normalize(h, StockQuote(), v).value)
  {
    hide Normalize, Amount, Signed, Line;
    RecordParts(h, StockQuote().members, QuoteFields, Keep, v);
    hide StockQuote;
  }

  predicate ChecklistSound(d: Json) { 1 <= |Part(d, "items")| <= 40 && AllDiffer(Part(d, "items"), "id") }

  lemma ChecklistMembers()
    ensures var members := Checklist().members;
      Checklist() == RecordRule(members, AnyFields, Keep) && "items" in members
      && members["items"] == Required(ListRule(1, 40, ChecklistItem(), DistinctIds))
  {
    hide ChecklistItem, Line;
  }

  lemma ChecklistIsSound(h: Host, v: Json)
    requires Normalize(h, Checklist(), v).Some?
    ensures ChecklistSound(Normalize(h, Checklist(), v).value)
  {
    ChecklistMembers();
    var members := Checklist().members;
    hide Checklist, ChecklistItem, Normalize, AllDiffer, DistinctBy;
    RecordIs(h, members, AnyFields, v, "items");
    ListParts(h, 1, 40, ChecklistItem(), DistinctIds, v.fields["items"]);
    DifferMeans(Part(Normalize(h, Checklist(), v).value, "items"), "id");
  }

  // What the data of a card of this component are.
  predicate Sound(h: Host, component: string, d: Json) {
    && (component == "weather_forecast" ==> WeatherSound(h, d))
    && (component == "sports_game" ==> GameSound(d))
    && (component == "stock_quote" ==> QuoteSound(d))
    && (component == "chart" ==> ChartSound(h, d, 240))
    && (component == "dashboard" ==> DashboardSound(h, d))
    && (component == "form" ==> FormSound(d))
    && (component == "checklist" ==> ChecklistSound(d))
    && (component == "selection" ==> SelectionSound(d))
    && (component == "automation" ==> AutomationSound(d))
  }

  lemma DataIsSound(h: Host, component: string, v: Json)
    requires ComponentRule(component).Some? && Normalize(h, ComponentRule(component).value, v).Some?
    ensures Sound(h, component, Normalize(h, ComponentRule(component).value, v).value)
  {
    hide WeatherForecast, SportsGame, StockQuote, Chart, Dashboard, Form, Checklist, Selection, Automation, Normalize;
    hide WeatherSound, GameSound, QuoteSound, ChartSound, DashboardSound, FormSound, ChecklistSound, SelectionSound, AutomationSound;
    if component == "weather_forecast" { WeatherIsSound(h, v); }
    else if component == "sports_game" { GameIsSound(h, v); }
    else if component == "stock_quote" { QuoteIsSound(h, v); }
    else if component == "chart" { ChartIsSound(h, 6, 60, 240, v); }
    else if component == "dashboard" { DashboardIsSound(h, v); }
    else if component == "form" { FormIsSound(h, v); }
    else if component == "checklist" { ChecklistIsSound(h, v); }
    else if component == "selection" { SelectionIsSound(h, v); }
    else { AutomationIsSound(h, v); }
  }

  /** A card that is rendered, and one that is validated, has data a client can show: the conditions of its component hold. */
  lemma CardsAreSound(h: Host, tool: string, payload: Envelope, now: Instant, owner: Owner, e: Envelope)
    ensures Render(h, tool, payload, now, owner).Some? ==>
              var card := Render(h, tool, payload, now, owner).value; card.data.Some? && Sound(h, tool, card.data.value)
    ensures Validate(h, e).Some? ==>
              var card := Validate(h, e).value;
              card.component.Some? && card.component.value.Text? && card.data.Some? && Sound(h, card.component.value.s, card.data.value)
  {
    hide Normalize, ComponentRule, EnvelopeGlobalOk, Sound, ValidAction, CardId, Provenance, String;
    if Render(h, tool, payload, now, owner).Some? {
      DataIsSound(h, tool, payload.data.value);
    }
    if Validate(h, e).Some? {
      DataIsSound(h, e.component.value.s, e.data.value);
    }
  }

  // ---- Delivery in a message ----

  const DELIVERY_VERSION := Integer(1)
  const FENCE := "```loopdy-card\n"
  const FENCE_END := "\n```"

  function Instruction(): string {
    "Calling the renderer does not display the card. Include display_markdown exactly once in the assistant answer."
  }

  // A raw result, or the wrapper that carries a card in Markdown.
  datatype Carried = Raw(envelope: Envelope) | Wrapped(version: Json, card: Envelope, displayMarkdown: string, instruction: string)

  function Markdown(h: Host, card: Envelope): string { FENCE + h.canonical(card) + FENCE_END }

  // rendered_card_delivery
  function Deliver(h: Host, card: Envelope): Option<Carried> {
    match Validate(h, card)
    case None => None
    case Some(valid) => Some(Wrapped(DELIVERY_VERSION, valid, Markdown(h, valid), Instruction()))
  }

  // extract_rendered_envelope
  function Extract(h: Host, c: Carried): Option<Envelope> {
    match c
    case Raw(e) => Validate(h, e)
    case Wrapped(version, e, displayed, instruction) =>
      if version != DELIVERY_VERSION && version != Float(1.0) then None
      else
        match Validate(h, e)
        case None => None
        case Some(card) => if displayed != Markdown(h, card) || instruction != Instruction() then None else Some(card)
  }

  /** Extracting undoes delivering, for every card that was rendered, wrapped or raw. */
  lemma ExtractUndoesDeliver(h: Host, tool: string, payload: Envelope, now: Instant, owner: Owner)
    requires Facts(h) && Render(h, tool, payload, now, owner).Some?
    ensures var card := Render(h, tool, payload, now, owner).value;
      Deliver(h, card).Some? && Extract(h, Deliver(h, card).value) == Some(card) && Extract(h, Raw(card)) == Some(card)
  {
    hide Validate, Render, Facts, Markdown, Instruction;
    RenderThenValidate(h, tool, payload, now, owner);
  }

  /**
    And it gives back nothing else: a wrapped card is extracted if and only if its wrapper is of version 1, the
    validator accepts it, and what is displayed is exactly its canonical text in a fence, with the instruction.
  */
  lemma ExtractIff(h: Host, version: Json, e: Envelope, displayed: string, instruction: string, card: Envelope)
    ensures Extract(h, Wrapped(version, e, displayed, instruction)) == Some(card) <==>
              && (version == Integer(1) || version == Float(1.0)) && Validate(h, e) == Some(card)
              && displayed == FENCE + h.canonical(card) + FENCE_END && instruction == Instruction()
    ensures Extract(h, Raw(e)) == Validate(h, e)
  {
    hide Validate, Instruction;
  }

  /**
    The allowance of line breaks in text areas is never used: the check of the whole payload has
    refused every control character before, so that a text area takes exactly what a line takes.
  */
  lemma TextAreasTakeNoBreaks(h: Host, v: Json, lo: nat, hi: nat, depth: nat)
    requires GlobalOk(h, v, depth)
    ensures Normalize(h, StringRule(lo, hi, true), v) == Normalize(h, StringRule(lo, hi, false), v)
  {
    if v.Text? {
      assert NoControls(h.nfc(v.s), false);
    }
  }

  // ---- The loops over lists ----

  // The items of a list up to position k, normalised.
  function Prefix(h: Host, item: Rule, items: seq<Json>, k: nat): seq<Json>
    requires k <= |items| && forall i :: 0 <= i < k ==> Normalize(h, item, items[i]).Some?
  {
    seq(k, i requires 0 <= i < k => Normalize(h, item, items[i]).value)
  }

  lemma PrefixDecides(h: Host, rule: Rule, v: Json, k: nat)
    requires rule.ListRule? && v.Array? && k <= |v.items|
    requires forall i :: 0 <= i < k ==> Normalize(h, rule.item, v.items[i]).Some?
    ensures k < |v.items| && Normalize(h, rule.item, v.items[k]).None? ==> Normalize(h, rule, v) == None
    ensures rule.items == DistinctIds && !DistinctBy(Prefix(h, rule.item, v.items, k), "id") ==> Normalize(h, rule, v) == None
    ensures rule.items == WeatherPeriods && !ListOk(h, WeatherPeriods, Prefix(h, rule.item, v.items, k)) ==> Normalize(h, rule, v) == None
  {
    if forall i :: 0 <= i < |v.items| ==> Normalize(h, rule.item, v.items[i]).Some? {
      var all := Prefix(h, rule.item, v.items, |v.items|);
      assert forall i :: 0 <= i < k ==> Prefix(h, rule.item, v.items, k)[i] == all[i];
      assert all == seq(|v.items|, i requires 0 <= i < |v.items| => Normalize(h, rule.item, v.items[i]).value);
    }
  }

  lemma PrefixIsWhole(h: Host, rule: Rule, v: Json)
    requires rule.ListRule? && rule.items == DistinctIds
    ensures !v.Array? || !(rule.minimum <= |v.items| <= rule.maximum) ==> Normalize(h, rule, v) == None
    ensures v.Array? && rule.minimum <= |v.items| <= rule.maximum && (forall i :: 0 <= i < |v.items| ==> Normalize(h, rule.item, v.items[i]).Some?) ==>
              var all := Prefix(h, rule.item, v.items, |v.items|);
              DistinctBy(all, "id") ==> Normalize(h, rule, v) == Some(Array(all))
  {
    if v.Array? && forall i :: 0 <= i < |v.items| ==> Normalize(h, rule.item, v.items[i]).Some? {
      assert Prefix(h, rule.item, v.items, |v.items|)
          == seq(|v.items|, i requires 0 <= i < |v.items| => Normalize(h, rule.item, v.items[i]).value);
    }
  }

  // The ids of the items so far.
  ghost predicate SeenIds(ids: set<Json>, items: seq<Json>) {
    && (forall i :: 0 <= i < |items| ==> FieldOf(items[i], "id") in ids)
    && (forall id :: id in ids ==> exists i :: 0 <= i < |items| && FieldOf(items[i], "id") == id)
  }

  lemma SeenNext(ids: set<Json>, items: seq<Json>, x: Json)
    requires SeenIds(ids, items) && DistinctBy(items, "id")
    ensures FieldOf(x, "id") in ids ==> !DistinctBy(items + [x], "id")
    ensures FieldOf(x, "id") !in ids ==> SeenIds(ids + {FieldOf(x, "id")}, items + [x]) && DistinctBy(items + [x], "id")
  {
    hide FieldOf;
    var all := items + [x];
    if FieldOf(x, "id") in ids {
      var i :| 0 <= i < |items| && FieldOf(items[i], "id") == FieldOf(x, "id");
      assert all[i] == items[i] && all[|items|] == x;
    } else {
      forall id | id in ids + {FieldOf(x, "id")} ensures exists i :: 0 <= i < |all| && FieldOf(all[i], "id") == id {
        if id in ids {
          var i :| 0 <= i < |items| && FieldOf(items[i], "id") == id;
          assert all[i] == items[i];
        } else {
          assert all[|items|] == x;
        }
      }
    }
  }

  /** The loop of checklists, selections, metrics, form fields and options: one pass with the ids seen so far. */
  method NormalizeById(h: Host, lo: nat, hi: nat, item: Rule, v: Json) returns (r: Option<Json>)
    ensures r == Normalize(h, ListRule(lo, hi, item, DistinctIds), v)
  {
    hide Normalize;
    var rule := ListRule(lo, hi, item, DistinctIds);
    PrefixIsWhole(h, rule, v);
    if !v.Array? || !(lo <= |v.items| <= hi) { return None; }
    var normalized: seq<Json> := [];
    var ids: set<Json> := {};
    assert SeenIds(ids, normalized) && DistinctBy(normalized, "id");
    hide FieldOf, SeenIds, DistinctBy;
    for k := 0 to |v.items|
      invariant forall i :: 0 <= i < k ==> Normalize(h, item, v.items[i]).Some?
      invariant normalized == Prefix(h, item, v.items, k)
      invariant SeenIds(ids, normalized) && DistinctBy(normalized, "id")
    {
      var one := Normalize(h, item, v.items[k]);
      if one.None? {
        PrefixDecides(h, rule, v, k);
        return None;
      }
      SeenNext(ids, normalized, one.value);
      assert Prefix(h, item, v.items, k + 1) == normalized + [one.value];
      if FieldOf(one.value, "id") in ids {
        PrefixDecides(h, rule, v, k + 1);
        return None;
      }
      ids := ids + {FieldOf(one.value, "id")};
      normalized := normalized + [one.value];
    }
    return Some(Array(normalized));
  }

  // ---- The facts can be met ----

  // Numerals of a fixed width, as a stand-in for dates.
  function Digits(n: nat, k: nat): string {
    if k == 0 then [] else Digits(n / 10, k - 1) + [(n % 10 + 0x30) as char]
  }

  function Value(t: string): int
    decreases |t|
  {
    if t == [] then 0 else 10 * Value(t[..|t| - 1]) + (t[|t| - 1] as int - 0x30)
  }

  function Power(k: nat): nat { if k == 0 then 1 else 10 * Power(k - 1) }

  lemma {:induction false} DigitsRoundTrip(n: nat, k: nat)
    requires n < Power(k)
    ensures Value(Digits(n, k)) == n && |Digits(n, k)| == k && IsAscii(Digits(n, k))
  {
    if k > 0 {
      DigitsRoundTrip(n / 10, k - 1);
      var last := (n % 10 + 0x30) as char;
      assert Digits(n, k)[..k - 1] == Digits(n / 10, k - 1) && Digits(n, k)[k - 1] == last;
    }
  }

  lemma TwelveDigits()
    ensures Power(12) == 1000000000000
  {
    assert Power(6) == 1000000;
    assert Power(9) == 1000000000;
  }

  function SampleTime(t: string): Option<Instant> {
    var n := Value(t) + MIN_INSTANT;
    if MIN_INSTANT <= n <= MAX_INSTANT then Some(n) else None
  }

  function SampleText(n: Instant): string { Digits(n - MIN_INSTANT, 12) }

  predicate IsHex32(t: string) { |t| == 32 && forall i :: 0 <= i < 32 ==> '0' <= t[i] <= '9' || 'a' <= t[i] <= 'f' }

  function SampleHost(): Host {
    Host(t => t, t => t, (p: Pattern, t: string) => p != Hex32 || IsHex32(t), SampleTime, SampleText, (t: string) => None, (c: Content) => [],
         (e: Envelope) => 0, (e: Envelope) => [])
  }

  lemma SampleTexts()
    ensures TextFacts(SampleHost())
  {
    forall t: string | IsHex32(t) ensures IsPlain(t) && |t| == 32 {
      assert forall i :: 0 <= i < |t| ==> 0x20 <= t[i] as int <= 0x7E;
    }
  }

  lemma SampleTimes()
    ensures TimeFacts(SampleHost())
  {
    TwelveDigits();
    forall n: Instant ensures TimeSettles(SampleHost(), n) {
      DigitsRoundTrip(n - MIN_INSTANT, 12);
      hide Digits, Value, Power, IsAscii;
    }
  }

  lemma SampleKeys()
    ensures KeyFacts(SampleHost())
  {
    assert SampleHost().lower("max_selected") == "max_selected";
    assert SampleHost().lower("age_seconds") == "age_seconds";
  }

  /** Some standard library has all the facts the theorems assume of it. */
  lemma FactsCanBeMet()
    ensures Facts(SampleHost())
  {
    SampleTexts();
    SampleTimes();
    SampleKeys();
    hide TextFacts, TimeFacts, KeyFacts, SampleHost;
  }

  const SAMPLE_ITEM: map<string, Json> := map["id" := Text("a"), "label" := Text("b"), "completed" := Boolean(true)]

  function SampleData(): map<string, Json> { map["items" := Array([Object(SAMPLE_ITEM)])] }

  function SampleProvenance(): map<string, Json> {
    var time := Text(SampleText(0));
    map["source_name" := Text("a"), "source_timestamp" := time, "retrieved_at" := time, "cache_status" := Text("live"),
        "age_seconds" := Integer(0)]
  }

  lemma SampleLine(t: string, lo: nat, hi: nat)
    requires lo <= |t| <= hi && IsAscii(t)
    ensures String(SampleHost(), Text(t), lo, hi, false) == Some(Text(t))
  {
  }

  lemma SampleItemSettles()
    ensures Normalize(SampleHost(), ChecklistItem(), Object(SAMPLE_ITEM)) == Some(Object(SAMPLE_ITEM))
  {
    var h := SampleHost();
    SampleLine("a", 1, 40);
    SampleLine("b", 1, 120);
    var members := ChecklistItem().members;
    assert Leaf(h, IdText(), Text("a")) == Some(Text("a"));
    assert Settled(h, members, SAMPLE_ITEM);
    RecordSettled(h, members, AnyFields, Keep, SAMPLE_ITEM);
  }

  lemma SampleDataSettles()
    ensures Normalize(SampleHost(), Checklist(), Object(SampleData())) == Some(Object(SampleData()))
  {
    var h := SampleHost();
    SampleItemSettles();
    hide ChecklistItem;
    ListSettled(h, ChecklistItem(), [Object(SAMPLE_ITEM)], 1, 40, DistinctIds);
    var members := Checklist().members;
    assert Settled(h, members, SampleData());
    RecordSettled(h, members, AnyFields, Keep, SampleData());
  }

  lemma SampleTimeIsZero()
    ensures SampleTime(SampleText(0)) == Some(0) && IsPlain(SampleText(0))
  {
    SampleTimes();
    assert TimeSettles(SampleHost(), 0);
    hide TimeFacts, IsPlain, SampleTime, SampleText;
  }

  lemma SampleTimeLeaf()
    ensures Normalize(SampleHost(), TimestampRule, Text(SampleText(0))) == Some(Text(SampleText(0)))
  {
    SampleTimeIsZero();
    hide SampleTime, SampleText, IsPlain;
  }

  lemma LeafSettles(h: Host, rule: Rule, v: Json)
    requires (rule.StringRule? || rule.EnumRule? || rule.IntegerRule?) && Leaf(h, rule, v) == Some(v)
    ensures Normalize(h, rule, v) == Some(v)
  {
  }

  lemma SampleFieldsSettle()
    ensures Normalize(SampleHost(), ProvenanceFields(), Object(SampleProvenance())) == Some(Object(SampleProvenance()))
  {
    var h := SampleHost();
    hide SampleTime, SampleText, SampleHost, String, Normalize;
    SampleTimeLeaf();
    SampleLine("a", 1, 80);
    var members := ProvenanceFields().members;
    LeafSettles(h, members["source_name"].rule, Text("a"));
    LeafSettles(h, members["cache_status"].rule, Text("live"));
    LeafSettles(h, members["age_seconds"].rule, Integer(0));
    var time := Text(SampleText(0));
    var o1 := map["source_name" := Text("a")];
    assert Settled(h, members, o1);
    UpdateSettled(h, members, o1, "source_timestamp", time);
    var o2 := o1["source_timestamp" := time];
    UpdateSettled(h, members, o2, "retrieved_at", time);
    var o3 := o2["retrieved_at" := time];
    UpdateSettled(h, members, o3, "cache_status", Text("live"));
    var o4 := o3["cache_status" := Text("live")];
    UpdateSettled(h, members, o4, "age_seconds", Integer(0));
    hide Settled;
    assert o4["age_seconds" := Integer(0)] == SampleProvenance();
    RecordSettled(h, members, AnyFields, Keep, SampleProvenance());
  }

  lemma SampleIsFresh()
    ensures Fresh(SampleHost(), SampleProvenance(), 0) && AgeOf(SampleHost(), SampleProvenance(), 0) == 0
  {
    SampleTimeIsZero();
    hide SampleTime, SampleText, IsPlain;
  }

  lemma SampleProvenanceSettles()
    ensures Provenance(SampleHost(), Object(SampleProvenance()), 0) == Some(Object(SampleProvenance()))
  {
    hide Normalize, ProvenanceFields, Fresh, AgeOf, SampleHost, SampleText;
    SampleFieldsSettle();
    SampleIsFresh();
    assert SampleProvenance()["age_seconds" := Integer(0)] == SampleProvenance();
  }

  lemma SampleKeyPermitted(k: string)
    requires k in SAMPLE_ITEM || k in SampleData() || k in SampleProvenance()
    ensures Permitted(SampleHost(), k)
  {
    hide SampleText;
  }

  lemma ObjectOk(h: Host, o: map<string, Json>, depth: nat)
    requires depth <= 6 && forall k :: k in o ==> Permitted(h, k) && GlobalOk(h, o[k], depth + 1)
    ensures GlobalOk(h, Object(o), depth)
  {
    hide Permitted;
  }

  lemma OneItemOk(h: Host, v: Json, depth: nat)
    requires depth <= 6 && GlobalOk(h, v, depth)
    ensures GlobalOk(h, Array([v]), depth)
  {
    hide Permitted;
  }

  lemma FlagOk(h: Host, b: bool, depth: nat)
    requires depth <= 6
    ensures GlobalOk(h, Boolean(b), depth)
  {
  }

  lemma SampleTextOk(t: string, depth: nat)
    requires IsPlain(t) && depth <= 6
    ensures GlobalOk(SampleHost(), Text(t), depth)
  {
    hide GlobalOk, SampleHost, IsPlain;
    SampleTexts();
    PlainIsOk(SampleHost(), t, depth);
  }

  lemma SampleDataPermitted()
    ensures GlobalOk(SampleHost(), Object(SampleData()), 1)
  {
    hide Permitted, SampleHost, GlobalOk;
    var h := SampleHost();
    forall k | k in SAMPLE_ITEM || k in SampleData() ensures Permitted(h, k) {
      SampleKeyPermitted(k);
    }
    SampleTextOk("a", 3);
    SampleTextOk("b", 3);
    FlagOk(h, true, 3);
    ObjectOk(h, SAMPLE_ITEM, 2);
    OneItemOk(h, Object(SAMPLE_ITEM), 2);
    ObjectOk(h, SampleData(), 1);
  }

  lemma SampleProvenancePermitted()
    ensures GlobalOk(SampleHost(), Object(SampleProvenance()), 1)
  {
    hide Permitted, SampleHost, SampleText, SampleTime, GlobalOk;
    var h := SampleHost();
    forall k | k in SampleProvenance() ensures Permitted(h, k) {
      SampleKeyPermitted(k);
    }
    SampleTimeIsZero();
    SampleTextOk("a", 2);
    SampleTextOk("live", 2);
    hide IsPlain, IsAscii;
    SampleTextOk(SampleText(0), 2);
    SmallIsPermitted(h, 0, 2);
    ObjectOk(h, SampleProvenance(), 1);
  }

  function SamplePayload(): Envelope {
    Envelope(Some(SCHEMA), Some(Integer(2)), Some(Text("checklist")), Some(Text("a")), None, Some(Object(SampleData())),
             Some(Object(SampleProvenance())), None, None, None, None, None, map[])
  }

  lemma SampleHeadPermitted()
    ensures var e := SamplePayload(); var h := SampleHost();
      AllOk(h, e.schema) && AllOk(h, e.version) && AllOk(h, e.component) && AllOk(h, e.title)
  {
    hide GlobalOk, SampleHost, SampleData, SampleProvenance;
    SampleTextOk("loopdy.generative_ui", 1);
    SampleTextOk("checklist", 1);
    SampleTextOk("a", 1);
    hide IsPlain, IsAscii;
    SmallIsPermitted(SampleHost(), 2, 1);
  }

  lemma SamplePayloadPermitted()
    ensures EnvelopeGlobalOk(SampleHost(), SamplePayload())
  {
    SampleHeadPermitted();
    SampleDataPermitted();
    SampleProvenancePermitted();
    hide GlobalOk, SampleHost, SampleData, SampleProvenance, Permitted;
  }

  lemma SampleContent()
    ensures Normalized(SampleHost(), "checklist", SamplePayload(), 0).Some?
  {
    hide Normalize, Provenance, Checklist, SampleHost, SampleData, SampleProvenance, String, Line;
    SampleDataSettles();
    SampleProvenanceSettles();
    SampleTitle();
  }

  lemma SampleTitle()
    ensures Normalize(SampleHost(), Line(120), Text("a")) == Some(Text("a"))
  {
    SampleLine("a", 1, 120);
    hide String, SampleHost;
  }

  /** And with it some card is rendered. */
  lemma SomeCardRenders(owner: Owner)
    ensures Render(SampleHost(), "checklist", SamplePayload(), 0, owner).Some?
  {
    SamplePayloadPermitted();
    SampleContent();
    hide EnvelopeGlobalOk, Normalized, SampleData, SampleProvenance, Checklist;
    assert OnlyPayloadKeys("checklist", SamplePayload());
  }

  const SAMPLE_FIELD: map<string, Json> := map["id" := Text("a"), "kind" := Text("toggle"), "label" := Text("b"), "required" := Boolean(true)]

  function SampleForm(): map<string, Json> {
    map["description" := Text("a"), "submit_label" := Text("b"), "fields" := Array([Object(SAMPLE_FIELD)])]
  }

  lemma SwitchPicks(h: Host, path: seq<string>, cases: map<string, Rule>, v: Json, t: string)
    requires Tag(v, path) == Some(t) && t in cases
    ensures Normalize(h, SwitchRule(path, cases), v) == Normalize(h, cases[t], v)
  {
    hide Tag, Leaf;
  }

  lemma ToggleIsPicked()
    ensures var cases := AnyFormField().cases; AnyFormField() == SwitchRule(["kind"], cases) && "toggle" in cases && cases["toggle"] == ToggleField()
    ensures Tag(Object(SAMPLE_FIELD), ["kind"]) == Some("toggle")
  {
    hide ToggleField, TextField, SelectField, MultiSelectField, IntegerField, DecimalField, DateField;
    assert ["kind"][1..] == [];
  }

  lemma SampleFieldSettles()
    ensures Normalize(SampleHost(), AnyFormField(), Object(SAMPLE_FIELD)) == Some(Object(SAMPLE_FIELD))
  {
    hide AnyFormField, ToggleField, SampleHost, Normalize, Tag;
    ToggleIsPicked();
    SampleToggleSettles();
    SwitchPicks(SampleHost(), ["kind"], AnyFormField().cases, Object(SAMPLE_FIELD), "toggle");
  }

  lemma ToggleMembers()
    ensures var members := ToggleField().members;
      && ToggleField() == RecordRule(members, AnyFields, Keep) && members.Keys == {"id", "kind", "label", "help_text", "required", "default"}
      && members["id"] == Required(IdText()) && members["kind"] == Required(EnumRule({"toggle"})) && members["label"] == Required(Line(100))
      && members["required"] == Required(BooleanRule)
      && members["help_text"].Optional? && members["default"].Optional?
  {
    hide IdText, Line;
  }

  lemma SampleToggleSettles()
    ensures Normalize(SampleHost(), ToggleField(), Object(SAMPLE_FIELD)) == Some(Object(SAMPLE_FIELD))
  {
    var h := SampleHost();
    SampleIdLeaf();
    SampleLine("b", 1, 100);
    ToggleMembers();
    hide ToggleField, SampleHost, String, Normalize, IdText;
    var members := ToggleField().members;
    LeafSettles(h, members["kind"].rule, Text("toggle"));
    LeafSettles(h, members["label"].rule, Text("b"));
    FlagSettles(h, true);
    var o1 := map["id" := Text("a")];
    assert Settled(h, members, o1);
    UpdateSettled(h, members, o1, "kind", Text("toggle"));
    var o2 := o1["kind" := Text("toggle")];
    UpdateSettled(h, members, o2, "label", Text("b"));
    var o3 := o2["label" := Text("b")];
    UpdateSettled(h, members, o3, "required", Boolean(true));
    hide Settled;
    assert o3["required" := Boolean(true)] == SAMPLE_FIELD;
    RecordSettled(h, members, AnyFields, Keep, SAMPLE_FIELD);
  }

  lemma SampleIdLeaf()
    ensures Normalize(SampleHost(), IdText(), Text("a")) == Some(Text("a"))
  {
    SampleLine("a", 1, 40);
    assert Leaf(SampleHost(), IdText(), Text("a")) == Some(Text("a"));
  }

  lemma FlagSettles(h: Host, b: bool)
    ensures Normalize(h, BooleanRule, Boolean(b)) == Some(Boolean(b))
  {
  }

  lemma FormMembers()
    ensures var members := Form().members;
      && Form() == RecordRule(members, AnyFields, Keep) && members.Keys == {"description", "submit_label", "fields"}
      && members["description"] == Required(Line(300)) && members["submit_label"] == Required(Line(40))
      && members["fields"] == Required(ListRule(1, 12, AnyFormField(), DistinctIds))
  {
    hide AnyFormField, Line;
  }

  lemma SampleFormKeysOk()
    ensures KeysOk(Form().members, SampleForm())
  {
    FormMembers();
    hide Form;
  }

  lemma SampleFormSettles()
    ensures Normalize(SampleHost(), Form(), Object(SampleForm())) == Some(Object(SampleForm()))
  {
    var h := SampleHost();
    SampleFieldSettles();
    SampleLine("a", 1, 300);
    SampleLine("b", 1, 40);
    FormMembers();
    hide AnyFormField, String, SampleHost, Normalize, Form;
    var fields := Array([Object(SAMPLE_FIELD)]);
    ListSettled(h, AnyFormField(), [Object(SAMPLE_FIELD)], 1, 12, DistinctIds);
    var members := Form().members;
    LeafSettles(h, Line(300), Text("a"));
    LeafSettles(h, Line(40), Text("b"));
    hide Line, ListOk, Leaf;
    SampleFormKeysOk();
    var o1 := map["description" := Text("a")];
    assert Settled(h, members, o1);
    UpdateSettled(h, members, o1, "submit_label", Text("b"));
    var o2 := o1["submit_label" := Text("b")];
    UpdateSettled(h, members, o2, "fields", fields);
    hide Settled, KeysOk;
    assert o2["fields" := fields] == SampleForm();
    RecordSettled(h, members, AnyFields, Keep, SampleForm());
  }

  lemma SampleFormKey(k: string)
    requires k in SAMPLE_FIELD || k in SampleForm()
    ensures Permitted(SampleHost(), k)
  {
    hide SampleText;
  }

  lemma SampleFormPermitted()
    ensures GlobalOk(SampleHost(), Object(SampleForm()), 1)
  {
    hide Permitted, SampleHost, GlobalOk;
    var h := SampleHost();
    forall k | k in SAMPLE_FIELD || k in SampleForm() ensures Permitted(h, k) {
      SampleFormKey(k);
    }
    SampleTextOk("a", 2);
    SampleTextOk("b", 2);
    SampleTextOk("a", 3);
    SampleTextOk("b", 3);
    SampleTextOk("toggle", 3);
    hide IsPlain, IsAscii;
    FlagOk(h, true, 3);
    ObjectOk(h, SAMPLE_FIELD, 2);
    OneItemOk(h, Object(SAMPLE_FIELD), 2);
    ObjectOk(h, SampleForm(), 1);
  }

  function SampleFormPayload(): Envelope {
    Envelope(Some(SCHEMA), Some(Integer(2)), Some(Text("form")), Some(Text("a")), None, Some(Object(SampleForm())),
             None, None, None, None, None, None, map[])
  }

  lemma SampleFormPayloadPermitted()
    ensures EnvelopeGlobalOk(SampleHost(), SampleFormPayload())
  {
    SampleFormPermitted();
    hide GlobalOk, SampleHost, SampleForm, Permitted;
    SampleTextOk("loopdy.generative_ui", 1);
    SampleTextOk("form", 1);
    SampleTextOk("a", 1);
    hide IsPlain, IsAscii;
    SmallIsPermitted(SampleHost(), 2, 1);
  }

  lemma SampleFormContent()
    ensures Normalized(SampleHost(), "form", SampleFormPayload(), 0).Some?
  {
    hide Normalize, Provenance, Form, SampleHost, SampleForm, String, Line;
    SampleFormSettles();
    SampleTitle();
  }

  function SampleOwner(): Owner { Owner("p", "s", seq(32, _ => '0')) }

  // What it takes for a form to be rendered.
  lemma FormRenders(h: Host, payload: Envelope, now: Instant, owner: Owner)
    requires OnlyPayloadKeys(FORM_NAME, payload) && payload.schema == Some(SCHEMA) && IsTwo(payload.version.value)
    requires payload.component == Some(Text(FORM_NAME)) && EnvelopeGlobalOk(h, payload) && (forall e :: h.size(e) <= V2_MAX_BYTES)
    requires ComponentRule(FORM_NAME).Some? && Normalized(h, FORM_NAME, payload, now).Some?
    requires String(h, Text(owner.profile), 1, 80, false).Some? && String(h, Text(owner.session), 1, 180, false).Some?
    requires h.matches(Hex32, owner.requestId) && now + FORM_LIFE <= MAX_INSTANT
    ensures Render(h, FORM_NAME, payload, now, owner).Some?
  {
    hide EnvelopeGlobalOk, Normalized, ComponentRule, String, Result, OnlyPayloadKeys;
  }

  lemma SampleOwnerAccepted()
    ensures SampleHost().matches(Hex32, SampleOwner().requestId)
    ensures String(SampleHost(), Text(SampleOwner().profile), 1, 80, false).Some?
    ensures String(SampleHost(), Text(SampleOwner().session), 1, 180, false).Some?
  {
    SampleLine("p", 1, 80);
    SampleLine("s", 1, 180);
    assert IsHex32(SampleOwner().requestId);
  }

  lemma SampleSizes()
    ensures forall e: Envelope :: SampleHost().size(e) <= V2_MAX_BYTES
  {
  }

  /** And some form, with its submit action. */
  lemma SomeFormRenders()
    ensures Render(SampleHost(), FORM_NAME, SampleFormPayload(), 0, SampleOwner()).Some?
  {
    SampleFormPayloadPermitted();
    SampleFormContent();
    SampleOwnerAccepted();
    SampleSizes();
    assert OnlyPayloadKeys(FORM_NAME, SampleFormPayload());
    hide EnvelopeGlobalOk, Normalized, SampleForm, Form, String, SampleHost, SampleOwner, Render, OnlyPayloadKeys;
    FormRenders(SampleHost(), SampleFormPayload(), 0, SampleOwner());
  }
}
