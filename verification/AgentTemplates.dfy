/**
  Agent templates: the normaliser that every saved document passes, the reader that accepts only what
  the normaliser leaves alone, and the compare-and-swap save between them.

  The facts the code takes from elsewhere (Unicode normalisation and categories, the credential
  scanner, digests, the size of the canonical JSON text) are the functions of a `Host`.
*/
module AgentTemplates {
  import opened Strings
  import opened Wrappers

  const MAX_SKILLS := 128
  const MAX_SKILL_BYTES := 100000
  const MAX_TEMPLATE_BYTES := 1000000

  datatype Rejection = InvalidTemplate | SecretBlocked | UnsafeUrl | TooLarge | ProfileMismatch

  datatype StoreError = Rejected(why: Rejection) | NotFound | TemplateConflict | StorageConflict | TemplateChanged

  // ---- The document ----

  datatype Json =
    | Null | Boolean(b: bool) | Integer(i: int) | Float(r: real) | NotFinite
    | String(s: string) | Array(items: seq<Json>) | Object(fields: seq<Field>)

  datatype Field = Field(key: string, value: Json)

  datatype Skill = Skill(id: string, enabled: bool, content: string, sha256: string)

  datatype Transport = Stdio | Http | Sse | Unknown

  datatype Server = Server(
    name: string, transport: Transport, url: Option<string>, command: Option<string>, arguments: seq<string>,
    auth: Option<string>, enabled: bool, environmentKeys: seq<string>, headerNames: seq<string>, tools: seq<string>)

  datatype Toolset = Toolset(id: string, name: string, description: string, platform: string, enabled: bool, tools: seq<string>)

  datatype Source = Source(profileId: string, snapshotRevision: string, derivedAt: int)

  datatype Document = Document(
    id: string, title: string, source: Source, soul: string, skills: seq<Skill>, mcpServers: seq<Server>,
    tools: seq<Toolset>, config: seq<Field>, omissions: seq<string>)

  datatype Host = Host(
    isNfc: string -> bool,             // UAX #15, Normalization Form C
    isControl: char -> bool,           // a general category that starts with C
    isSecret: string -> bool,          // the credential scanner
    isSecretKey: string -> bool,
    isEnvReference: string -> bool,
    hasPlainHost: string -> bool,      // a network location with a host name and no credentials
    identityOk: (string, Source) -> bool,
    sha256: string -> string,
    documentIsSecret: Document -> bool,
    size: Document -> nat,
    revision: Document -> string,
    safeConfig: seq<Allowed>)          // the configuration that may be saved: SAFE_CONFIG

  // ---- Text ----

  function Bytes(t: string): nat { if t == [] then 0 else Width(t[0] as int) + Bytes(t[1..]) }

  predicate Printable(h: Host, t: string) {
    forall i :: 0 <= i < |t| ==> t[i] == '\n' || t[i] == '\r' || t[i] == '\t' || !h.isControl(t[i])
  }

  predicate TextOk(h: Host, t: string, maximum: nat, allowEmpty: bool) {
    (allowEmpty || t != []) && Bytes(t) <= maximum && h.isNfc(t) && Printable(h, t)
  }

  function Text(h: Host, t: string, maximum: nat, allowEmpty: bool): Result<string, Rejection> {
    if TextOk(h, t, maximum, allowEmpty) then Success(t) else Failure(InvalidTemplate)
  }

  function SecretFree(h: Host, t: string): Result<string, Rejection> {
    if h.isSecret(t) then Failure(SecretBlocked) else Success(t)
  }

  function CleanText(h: Host, t: string, maximum: nat, allowEmpty: bool): Result<string, Rejection> {
    var t1 :- Text(h, t, maximum, allowEmpty);
    SecretFree(h, t1)
  }

  predicate IsAlphanumeric(c: char) { 'a' <= c <= 'z' || 'A' <= c <= 'Z' || '0' <= c <= '9' }

  predicate IsIdentifier(t: string) {
    && 1 <= |t| <= 256 && IsAlphanumeric(t[0])
    && forall i :: 0 <= i < |t| ==> IsAlphanumeric(t[i]) || t[i] in {'.', '_', ':', '/', '@', '+', '-'}
  }

  function Identifier(h: Host, t: string, maximum: nat): Result<string, Rejection> {
    if TextOk(h, t, maximum, false) && IsIdentifier(t) then Success(t) else Failure(InvalidTemplate)
  }

  function Argument(h: Host, t: string, maximum: nat): Result<string, Rejection> {
    var t1 :- Text(h, t, maximum, false);
    if h.isEnvReference(t1) then Success(t1) else SecretFree(h, t1)
  }

  // ---- Sorted sets of identifiers ----

  ghost predicate Sorted(s: seq<string>) { forall i, j :: 0 <= i < j < |s| ==> Less(s[i], s[j]) }

  function Insert(x: string, s: seq<string>): seq<string> {
    if s == [] || Less(x, s[0]) then [x] + s
    else if x == s[0] then s
    else [s[0]] + Insert(x, s[1..])
  }

  // sorted(set(items))
  function SortedSet(s: seq<string>): seq<string> {
    if s == [] then [] else Insert(s[0], SortedSet(s[1..]))
  }

  predicate AllIdentifiers(h: Host, items: seq<string>, maximum: nat) {
    forall x :: x in items ==> Identifier(h, x, maximum).Success?
  }

  function IdentifierSet(h: Host, items: seq<string>, maximum: nat): Result<seq<string>, Rejection> {
    if AllIdentifiers(h, items, maximum) then Success(SortedSet(items)) else Failure(InvalidTemplate)
  }

  // ---- URLs ----

  datatype Url = Url(scheme: string, netloc: string, path: string, query: string, fragment: string)

  // urlsplit drops leading controls and spaces, then every tab and line break.
  function LeftTrim(t: string): string { if t != [] && t[0] as int <= 0x20 then LeftTrim(t[1..]) else t }

  const BREAKS: set<char> := {'\t', '\n', '\r'}

  predicate IsBreak(c: char) { c in BREAKS }

  function WithoutBreaks(t: string): string {
    if t == [] then [] else if IsBreak(t[0]) then WithoutBreaks(t[1..]) else [t[0]] + WithoutBreaks(t[1..])
  }

  function FirstOf(t: string, cs: set<char>): (i: nat)
    ensures i <= |t|
    ensures i < |t| ==> t[i] in cs
    ensures forall j :: 0 <= j < i ==> t[j] !in cs
  {
    if t == [] || t[0] in cs then 0 else 1 + FirstOf(t[1..], cs)
  }

  function LowerChar(c: char): char { if 'A' <= c <= 'Z' then (c as int + 32) as char else c }

  function Lower(t: string): string { if t == [] then [] else [LowerChar(t[0])] + Lower(t[1..]) }

  // The scheme is what precedes the first colon; any but http and https is left empty here.
  predicate IsWeb(scheme: string) { scheme == "http" || scheme == "https" }

  function SchemeOf(u: string): string {
    var colon := FirstOf(u, {':'});
    if colon < |u| && IsWeb(Lower(u[..colon])) then Lower(u[..colon]) else []
  }

  function NetlocOf(rest: string): (netloc: string)
    ensures netloc != [] ==> 2 + |netloc| <= |rest|
  {
    if |rest| >= 2 && rest[0] == '/' && rest[1] == '/' then rest[2..][..FirstOf(rest[2..], {'/', '?', '#'})] else ""
  }

  function TailOf(rest: string): string {
    if NetlocOf(rest) == [] then rest else rest[2 + |NetlocOf(rest)|..]
  }

  function PathOf(tail: string): string {
    var hash := FirstOf(tail, {'#'});
    tail[..hash][..FirstOf(tail[..hash], {'?'})]
  }

  function QueryOf(tail: string): string {
    var hash := FirstOf(tail, {'#'});
    var question := FirstOf(tail[..hash], {'?'});
    if question < hash then tail[question + 1..hash] else ""
  }

  function FragmentOf(tail: string): string {
    var hash := FirstOf(tail, {'#'});
    if hash < |tail| then tail[hash + 1..] else ""
  }

  // urlsplit of a trimmed string
  function Split(u: string): Url {
    var scheme := SchemeOf(u);
    var rest := if scheme == [] then u else u[FirstOf(u, {':'}) + 1..];
    var tail := TailOf(rest);
    Url(scheme, NetlocOf(rest), PathOf(tail), QueryOf(tail), FragmentOf(tail))
  }

  function Unsplit(u: Url): string { u.scheme + "://" + u.netloc + u.path }

  predicate Representable(h: Host, u: Url) {
    u.scheme != [] && u.netloc != [] && h.hasPlainHost(u.netloc) && u.query == [] && u.fragment == []
  }

  function Parse(t: string): Url { Split(WithoutBreaks(LeftTrim(t))) }

  function SafeUrl(h: Host, value: Option<string>): Result<Option<string>, Rejection> {
    if value.None? || value.value == [] then Success(None)
    else
      var t :- CleanText(h, value.value, 4096, false);
      if Representable(h, Parse(t)) then Success(Some(Unsplit(Parse(t)))) else Failure(UnsafeUrl)
  }

  // ---- Configuration ----

  function JsonValue(h: Host, v: Json, depth: nat): Result<Json, Rejection>
    decreases v
  {
    if depth > 8 then Failure(InvalidTemplate)
    else
      match v
      case Null => Success(v)
      case Boolean(_) => Success(v)
      case Integer(_) => Success(v)
      case Float(r) => if -1000000.0 <= r <= 1000000.0 then Success(v) else Failure(InvalidTemplate)
      case NotFinite => Failure(InvalidTemplate)
      case String(s) =>
        var s1 :- CleanText(h, s, 8192, true);
        Success(String(s1))
      case Array(items) =>
        if |items| > 256 then Failure(TooLarge)
        else
          var items1 :- JsonItems(h, items, depth + 1);
          Success(Array(items1))
      case Object(fields) =>
        if |fields| > 256 then Failure(TooLarge)
        else
          var fields1 :- JsonFields(h, fields, depth + 1);
          Success(Object(fields1))
  }

  function JsonItems(h: Host, items: seq<Json>, depth: nat): Result<seq<Json>, Rejection>
    decreases items
  {
    if items == [] then Success([])
    else
      var first :- JsonValue(h, items[0], depth);
      var rest :- JsonItems(h, items[1..], depth);
      Success([first] + rest)
  }

  function JsonFields(h: Host, fields: seq<Field>, depth: nat): Result<seq<Field>, Rejection>
    decreases fields
  {
    if fields == [] then Success([])
    else
      var key :- Identifier(h, fields[0].key, 128);
      if h.isSecretKey(key) then Failure(SecretBlocked)
      else
        var value :- JsonValue(h, fields[0].value, depth);
        var rest :- JsonFields(h, fields[1..], depth);
        Success([Field(key, value)] + rest)
  }

  // A top-level key, and for a section the fields of it that may be saved, sorted.
  datatype Allowed = Allowed(key: string, section: Option<seq<string>>)

  const CONFIG_KEYS: seq<string> := [
    "_config_version", "model", "model_context_length", "reasoning_effort", "timezone", "agent", "compression", "display",
    "delegation", "cron", "memory", "terminal", "approvals", "privacy", "security", "checkpoints"]

  const CONFIG_SECTIONS: seq<seq<string>> := [
    [], [], [], [], [],
    ["max_turns", "reasoning_effort", "tool_use_enforcement"],
    ["enabled", "target_ratio", "threshold"],
    ["language", "personality", "show_cost", "show_reasoning", "skin", "tool_progress"],
    ["max_concurrent", "max_iterations", "model", "provider", "reasoning_effort"],
    ["model", "model_provider"],
    ["memory_enabled", "provider", "user_profile_enabled"],
    ["backend", "home_mode", "timeout"],
    ["mode"],
    ["redact_pii"],
    ["redact_secrets", "tirith_enabled", "website_blocklist"],
    ["enabled", "max_snapshots"]]

  // The first five keys are saved whole.
  const SAFE_CONFIG: seq<Allowed> :=
    seq(16, i requires 0 <= i < 16 => Allowed(CONFIG_KEYS[i], if i < 5 then None else Some(CONFIG_SECTIONS[i])))

  function Lookup(fields: seq<Field>, key: string): Option<Json> {
    if fields == [] then None else if fields[0].key == key then Some(fields[0].value) else Lookup(fields[1..], key)
  }

  // The allowed fields of one section, and those left out.
  function SafeSection(h: Host, names: seq<string>, value: seq<Field>): (seq<Field>, seq<string>) {
    if names == [] then ([], [])
    else
      var (kept, omitted) := SafeSection(h, names[1..], value);
      match Lookup(value, names[0])
      case None => (kept, omitted)
      case Some(v) =>
        match JsonValue(h, v, 0)
        case Success(v1) => ([Field(names[0], v1)] + kept, omitted)
        case Failure(_) => (kept, [names[0]] + omitted)
  }

  function SafeEntry(h: Host, a: Allowed, v: Json): (seq<Field>, seq<string>) {
    match a.section
    case None =>
      (match JsonValue(h, v, 0)
       case Success(v1) => ([Field(a.key, v1)], [])
       case Failure(_) => ([], [a.key]))
    case Some(names) =>
      if !v.Object? then ([], [a.key])
      else
        var (kept, omitted) := SafeSection(h, names, v.fields);
        (if kept == [] then [] else [Field(a.key, Object(kept))], omitted)
  }

  // _safe_config: the projection on the allowed fields, and the names it had to leave out.
  function SafeConfig(h: Host, table: seq<Allowed>, raw: seq<Field>): (seq<Field>, seq<string>) {
    if table == [] then ([], [])
    else
      var (kept, omitted) := SafeConfig(h, table[1..], raw);
      match Lookup(raw, table[0].key)
      case None => (kept, omitted)
      case Some(v) =>
        var (entry, missing) := SafeEntry(h, table[0], v);
        (entry + kept, missing + omitted)
  }

  // ---- The document normaliser ----

  function NormalizeSkill(h: Host, s: Skill): Result<Skill, Rejection> {
    var id :- Identifier(h, s.id, 160);
    var content :- CleanText(h, s.content, MAX_SKILL_BYTES, false);
    if h.sha256(content) != s.sha256 then Failure(InvalidTemplate) else Success(s.(id := id, content := content))
  }

  function NormalizeSkills(h: Host, ss: seq<Skill>, seen: set<string>): Result<seq<Skill>, Rejection> {
    if ss == [] then Success([])
    else
      var first :- NormalizeSkill(h, ss[0]);
      if first.id in seen then Failure(InvalidTemplate)
      else
        var rest :- NormalizeSkills(h, ss[1..], seen + {first.id});
        Success([first] + rest)
  }

  function Arguments(h: Host, items: seq<string>): Result<seq<string>, Rejection> {
    if items == [] then Success([])
    else
      var first :- Argument(h, items[0], 4096);
      var rest :- Arguments(h, items[1..]);
      Success([first] + rest)
  }

  function Command(h: Host, c: Option<string>): Result<Option<string>, Rejection> {
    if c.None? then Success(None)
    else
      var c1 :- Argument(h, c.value, 2048);
      Success(Some(c1))
  }

  function NormalizeServer(h: Host, s: Server): Result<Server, Rejection> {
    var name :- Identifier(h, s.name, 160);
    var url :- SafeUrl(h, s.url);
    var command :- Command(h, s.command);
    var arguments :- Arguments(h, s.arguments);
    var environmentKeys :- IdentifierSet(h, s.environmentKeys, 128);
    var headerNames :- IdentifierSet(h, s.headerNames, 128);
    var tools :- IdentifierSet(h, s.tools, 256);
    Success(Server(name, s.transport, url, command, arguments, s.auth, s.enabled, environmentKeys, headerNames, tools))
  }

  function NormalizeServers(h: Host, ss: seq<Server>, seen: set<string>): Result<seq<Server>, Rejection> {
    if ss == [] then Success([])
    else if ss[0].name in seen then Failure(InvalidTemplate)
    else
      var first :- NormalizeServer(h, ss[0]);
      var rest :- NormalizeServers(h, ss[1..], seen + {first.name});
      Success([first] + rest)
  }

  function NormalizeTool(h: Host, t: Toolset): Result<Toolset, Rejection> {
    var id :- Identifier(h, t.id, 160);
    var name :- CleanText(h, t.name, 256, false);
    var description :- CleanText(h, t.description, 8192, true);
    var platform :- Identifier(h, t.platform, 80);
    var tools :- IdentifierSet(h, t.tools, 256);
    Success(Toolset(id, name, description, platform, t.enabled, tools))
  }

  function NormalizeTools(h: Host, ts: seq<Toolset>, seen: set<string>): Result<seq<Toolset>, Rejection> {
    if ts == [] then Success([])
    else if ts[0].id in seen then Failure(InvalidTemplate)
    else
      var first :- NormalizeTool(h, ts[0]);
      var rest :- NormalizeTools(h, ts[1..], seen + {first.id});
      Success([first] + rest)
  }

  // The list limits of the strict document model.
  predicate ShapeOk(d: Document) {
    && |d.skills| <= MAX_SKILLS && |d.mcpServers| <= 256 && |d.tools| <= 512 && |d.omissions| <= 256
    && (forall s :: s in d.mcpServers ==>
          |s.arguments| <= 128 && |s.environmentKeys| <= 64 && |s.headerNames| <= 64 && |s.tools| <= 2048)
    && (forall t :: t in d.tools ==> |t.tools| <= 2048)
  }

  function NormalizeConfig(h: Host, table: seq<Allowed>, raw: seq<Field>): Result<seq<Field>, Rejection> {
    if exists f :: f in raw && !(exists a :: a in table && a.key == f.key) then Failure(InvalidTemplate)
    else
      var (config, omitted) := SafeConfig(h, table, raw);
      if omitted != [] then Failure(InvalidTemplate) else Success(config)
  }

  function Normalize(h: Host, raw: Document, expectedAgent: Option<string>): Result<Document, Rejection> {
    if !ShapeOk(raw) then Failure(InvalidTemplate)
    else
      var title :- CleanText(h, raw.title, 120, false);
      if expectedAgent.Some? && raw.source.profileId != expectedAgent.value then Failure(ProfileMismatch)
      else if !h.identityOk(raw.id, raw.source) then Failure(InvalidTemplate)
      else
        var skills :- NormalizeSkills(h, raw.skills, {});
        var servers :- NormalizeServers(h, raw.mcpServers, {});
        var tools :- NormalizeTools(h, raw.tools, {});
        var soul :- CleanText(h, raw.soul, 256000, true);
        var config :- NormalizeConfig(h, h.safeConfig, raw.config);
        var omissions :- IdentifierSet(h, raw.omissions, 256);
        var d := Document(raw.id, title, raw.source, soul, skills, servers, tools, config, omissions);
        if h.documentIsSecret(d) then Failure(SecretBlocked)
        else if h.size(d) > MAX_TEMPLATE_BYTES then Failure(TooLarge)
        else Success(d)
  }

  // ---- Sorted sets are fixed points ----

  lemma {:induction false} InsertKeepsOrder(x: string, s: seq<string>)
    requires Sorted(s)
    ensures Sorted(Insert(x, s)) && |Insert(x, s)| <= |s| + 1
    ensures forall y :: y in Insert(x, s) <==> y == x || y in s
  {
    if s == [] {
    } else if Less(x, s[0]) {
      forall j | 0 <= j < |s| ensures Less(x, s[j]) {
        if j > 0 {
          LessTransitive(x, s[0], s[j]);
        }
      }
    } else if x != s[0] {
      LessTotal(x, s[0]);
      InsertKeepsOrder(x, s[1..]);
      var rest := Insert(x, s[1..]);
      forall j | 0 <= j < |rest| ensures Less(s[0], rest[j]) {
        assert rest[j] in rest;
        if rest[j] != x {
          var k :| 0 <= k < |s[1..]| && s[1..][k] == rest[j];
          assert rest[j] == s[k + 1];
        }
      }
    }
  }

  lemma {:induction false} SortedSetIsSorted(s: seq<string>)
    ensures Sorted(SortedSet(s)) && |SortedSet(s)| <= |s|
    ensures forall y :: y in SortedSet(s) <==> y in s
  {
    if s != [] {
      SortedSetIsSorted(s[1..]);
      InsertKeepsOrder(s[0], SortedSet(s[1..]));
    }
  }

  lemma {:induction false} SortedIsFixed(s: seq<string>)
    requires Sorted(s)
    ensures SortedSet(s) == s
  {
    if s != [] {
      SortedIsFixed(s[1..]);
      assert |s| > 1 ==> Less(s[0], s[1]);
    }
  }

  /** A normalised identifier list normalises to itself, and is no longer than what it came from. */
  lemma IdentifierSetAgain(h: Host, items: seq<string>, maximum: nat)
    requires IdentifierSet(h, items, maximum).Success?
    ensures var out := IdentifierSet(h, items, maximum).value;
      IdentifierSet(h, out, maximum) == Success(out) && |out| <= |items|
  {
    SortedSetIsSorted(items);
    SortedIsFixed(SortedSet(items));
  }

  // ---- Configuration is projected, never rewritten ----

  lemma {:induction false} JsonIsKept(h: Host, v: Json, depth: nat)
    ensures JsonValue(h, v, depth).Success? ==> JsonValue(h, v, depth).value == v
    decreases v
  {
    if depth <= 8 {
      match v
      case Array(items) => JsonItemsAreKept(h, items, depth + 1);
      case Object(fields) => JsonFieldsAreKept(h, fields, depth + 1);
      case _ =>
    }
  }

  lemma {:induction false} JsonItemsAreKept(h: Host, items: seq<Json>, depth: nat)
    ensures JsonItems(h, items, depth).Success? ==> JsonItems(h, items, depth).value == items
    decreases items
  {
    if items != [] {
      JsonIsKept(h, items[0], depth);
      JsonItemsAreKept(h, items[1..], depth);
    }
  }

  lemma {:induction false} JsonFieldsAreKept(h: Host, fields: seq<Field>, depth: nat)
    ensures JsonFields(h, fields, depth).Success? ==> JsonFields(h, fields, depth).value == fields
    decreases fields
  {
    if fields != [] {
      JsonIsKept(h, fields[0].value, depth);
      JsonFieldsAreKept(h, fields[1..], depth);
    }
  }

  predicate DistinctNames(names: seq<string>) { forall i, j :: 0 <= i < j < |names| ==> names[i] != names[j] }

  predicate DistinctKeys(table: seq<Allowed>) { forall i, j :: 0 <= i < j < |table| ==> table[i].key != table[j].key }

  lemma {:induction false} LookupOther(fields: seq<Field>, key: string)
    requires forall f :: f in fields ==> f.key != key
    ensures Lookup(fields, key) == None
  {
    if fields != [] {
      assert fields[0] in fields;
      LookupOther(fields[1..], key);
    }
  }

  lemma {:induction false} SectionKeys(h: Host, names: seq<string>, value: seq<Field>)
    ensures forall f :: f in SafeSection(h, names, value).0 ==> f.key in names
  {
    if names != [] {
      SectionKeys(h, names[1..], value);
    }
  }

  // Projecting again, from any fields that agree with the projection on these names.
  lemma {:induction false} SectionAgain(h: Host, names: seq<string>, value: seq<Field>, again: seq<Field>)
    requires DistinctNames(names)
    requires forall n :: n in names ==> Lookup(again, n) == Lookup(SafeSection(h, names, value).0, n)
    ensures SafeSection(h, names, again) == (SafeSection(h, names, value).0, [])
  {
    if names != [] {
      var kept := SafeSection(h, names, value).0;
      var rest := SafeSection(h, names[1..], value).0;
      SectionKeys(h, names[1..], value);
      forall n | n in names[1..] ensures Lookup(again, n) == Lookup(rest, n) {
        var i :| 0 <= i < |names[1..]| && names[1..][i] == n;
        assert names[i + 1] == n && n in names;
      }
      SectionAgain(h, names[1..], value, again);
      LookupOther(rest, names[0]);
      assert names[0] in names;
      if Lookup(value, names[0]).Some? {
        JsonIsKept(h, Lookup(value, names[0]).value, 0);
      }
    }
  }

  lemma {:induction false} ConfigKeys(h: Host, table: seq<Allowed>, raw: seq<Field>)
    ensures forall f :: f in SafeConfig(h, table, raw).0 ==> exists a :: a in table && a.key == f.key
  {
    if table != [] {
      ConfigKeys(h, table[1..], raw);
      assert table[0] in table;
    }
  }

  predicate TableOk(table: seq<Allowed>) {
    DistinctKeys(table) && forall a :: a in table && a.section.Some? ==> DistinctNames(a.section.value)
  }

  lemma EntryAgain(h: Host, a: Allowed, v: Json)
    requires a.section.Some? ==> DistinctNames(a.section.value)
    requires SafeEntry(h, a, v).0 != []
    ensures SafeEntry(h, a, v).0[0].key == a.key && |SafeEntry(h, a, v).0| == 1
    ensures SafeEntry(h, a, SafeEntry(h, a, v).0[0].value) == (SafeEntry(h, a, v).0, [])
  {
    if a.section.None? {
      JsonIsKept(h, v, 0);
    } else {
      SectionAgain(h, a.section.value, v.fields, SafeSection(h, a.section.value, v.fields).0);
    }
  }

  lemma LookupSkips(entry: seq<Field>, rest: seq<Field>, key: string)
    requires |entry| <= 1 && (entry != [] ==> entry[0].key != key)
    ensures Lookup(entry + rest, key) == Lookup(rest, key)
  {
    if entry == [] {
      assert entry + rest == rest;
    } else {
      assert (entry + rest)[1..] == rest;
    }
  }

  lemma EntryShape(h: Host, a: Allowed, v: Json)
    ensures |SafeEntry(h, a, v).0| <= 1 && (SafeEntry(h, a, v).0 != [] ==> SafeEntry(h, a, v).0[0].key == a.key)
  {
    hide JsonValue, SafeSection;
  }

  // What the projection of a table holds for its first key: the entry, or nothing.
  lemma ConfigHead(h: Host, table: seq<Allowed>, raw: seq<Field>)
    requires TableOk(table) && table != []
    ensures var key := table[0].key;
      var rest := SafeConfig(h, table[1..], raw).0;
      var entry := if Lookup(raw, key).Some? then SafeEntry(h, table[0], Lookup(raw, key).value).0 else [];
      && SafeConfig(h, table, raw).0 == entry + rest && |entry| <= 1 && (entry != [] ==> entry[0].key == key)
      && Lookup(entry + rest, key) == if entry == [] then None else Some(entry[0].value)
  {
    hide SafeEntry;
    var key := table[0].key;
    var rest := SafeConfig(h, table[1..], raw).0;
    var entry := if Lookup(raw, key).Some? then SafeEntry(h, table[0], Lookup(raw, key).value).0 else [];
    if Lookup(raw, key).Some? {
      EntryShape(h, table[0], Lookup(raw, key).value);
    }
    ConfigKeys(h, table[1..], raw);
    forall f | f in rest ensures f.key != key {
      var a :| a in table[1..] && a.key == f.key;
      var i :| 0 <= i < |table[1..]| && table[1..][i] == a;
      assert table[i + 1] == a;
    }
    LookupOther(rest, key);
    assert entry == [] ==> entry + rest == rest;
  }

  lemma {:induction false} ConfigAgain(h: Host, table: seq<Allowed>, raw: seq<Field>, again: seq<Field>)
    requires TableOk(table)
    requires forall a :: a in table ==> Lookup(again, a.key) == Lookup(SafeConfig(h, table, raw).0, a.key)
    ensures SafeConfig(h, table, again) == (SafeConfig(h, table, raw).0, [])
  {
    if table != [] {
      var key := table[0].key;
      var rest := SafeConfig(h, table[1..], raw).0;
      var entry := if Lookup(raw, key).Some? then SafeEntry(h, table[0], Lookup(raw, key).value).0 else [];
      ConfigHead(h, table, raw);
      assert table[0] in table;
      if entry != [] {
        EntryAgain(h, table[0], Lookup(raw, key).value);
      }
      forall a | a in table[1..] ensures Lookup(again, a.key) == Lookup(rest, a.key) {
        var i :| 0 <= i < |table[1..]| && table[1..][i] == a;
        assert table[i + 1] == a && a in table;
        LookupSkips(entry, rest, a.key);
      }
      assert TableOk(table[1..]);
      ConfigAgain(h, table[1..], raw, again);
      assert entry == [] ==> entry + rest == rest;
      var none: seq<string> := [];
      assert none + none == none;
    }
  }

  /** The projection of an accepted configuration is accepted, and projects to itself. */
  lemma NormalizeConfigAgain(h: Host, table: seq<Allowed>, raw: seq<Field>)
    requires TableOk(table) && NormalizeConfig(h, table, raw).Success?
    ensures var config := NormalizeConfig(h, table, raw).value; NormalizeConfig(h, table, config) == Success(config)
  {
    ConfigKeys(h, table, raw);
    ConfigAgain(h, table, raw, SafeConfig(h, table, raw).0);
  }

  lemma KeysAreDistinct()
    ensures DistinctNames(CONFIG_KEYS)
  {
  }

  lemma SectionsAreDistinct()
    ensures forall i :: 0 <= i < 16 ==> DistinctNames(CONFIG_SECTIONS[i])
  {
  }

  lemma TableIsOk()
    ensures TableOk(SAFE_CONFIG)
  {
    KeysAreDistinct();
    SectionsAreDistinct();
    forall i, j | 0 <= i < j < 16 ensures SAFE_CONFIG[i].key != SAFE_CONFIG[j].key {
      assert CONFIG_KEYS[i] != CONFIG_KEYS[j];
    }
  }

  // ---- URLs ----

  // ASCII letters are no control characters, and no name stands twice in the table, as in SAFE_CONFIG.
  ghost predicate Sane(h: Host) { LettersPlain(h) && TableOk(h.safeConfig) }

  ghost predicate LettersPlain(h: Host) { forall c :: IsAlphanumeric(c) ==> !h.isControl(c) }

  lemma {:induction false} BytesSplit(a: string, b: string)
    ensures Bytes(a + b) == Bytes(a) + Bytes(b)
  {
    if a == [] {
      assert a + b == b;
    } else {
      assert (a + b)[1..] == a[1..] + b;
      BytesSplit(a[1..], b);
    }
  }

  lemma {:induction false} LowerBytes(t: string)
    ensures Bytes(Lower(t)) == Bytes(t)
  {
    if t != [] {
      LowerBytes(t[1..]);
    }
  }

  lemma {:induction false} LowerFixed(t: string)
    requires forall i :: 0 <= i < |t| ==> 'a' <= t[i] <= 'z'
    ensures Lower(t) == t
  {
    if t != [] {
      LowerFixed(t[1..]);
    }
  }

  predicate NoneOf(t: string, cs: set<char>) { forall i :: 0 <= i < |t| ==> t[i] !in cs }

  lemma {:induction false} TrimmedFrom(t: string)
    ensures Bytes(LeftTrim(t)) <= Bytes(t) && forall c :: c in LeftTrim(t) ==> c in t
  {
    if t != [] && t[0] as int <= 0x20 {
      TrimmedFrom(t[1..]);
    }
  }

  lemma {:induction false} BreaksFrom(t: string)
    ensures Bytes(WithoutBreaks(t)) <= Bytes(t) && NoneOf(WithoutBreaks(t), BREAKS)
    ensures forall c :: c in WithoutBreaks(t) ==> c in t
  {
    if t != [] {
      BreaksFrom(t[1..]);
    }
  }

  lemma {:induction false} NoBreaksToDrop(t: string)
    requires NoneOf(t, BREAKS)
    ensures WithoutBreaks(t) == t
  {
    if t != [] {
      NoBreaksToDrop(t[1..]);
    }
  }

  lemma NoneOfJoin(a: string, b: string, cs: set<char>)
    ensures NoneOf(a + b, cs) <==> NoneOf(a, cs) && NoneOf(b, cs)
  {
    if NoneOf(a + b, cs) {
      forall i | 0 <= i < |a| ensures a[i] !in cs {
        assert (a + b)[i] == a[i];
      }
      forall i | 0 <= i < |b| ensures b[i] !in cs {
        assert (a + b)[|a| + i] == b[i];
      }
    }
  }

  lemma FirstOfIs(t: string, cs: set<char>, k: nat)
    requires k <= |t| && (forall j :: 0 <= j < k ==> t[j] !in cs) && (k < |t| ==> t[k] in cs)
    ensures FirstOf(t, cs) == k
  {
  }

  const DELIMITERS: set<char> := {'/', '?', '#'}
  const QUERY_MARKS: set<char> := {'?', '#'}

  // The parts of a URL that can be represented.
  ghost predicate PartsOk(u: Url) {
    && IsWeb(u.scheme) && u.netloc != [] && u.query == [] && u.fragment == []
    && NoneOf(u.netloc, DELIMITERS) && NoneOf(u.netloc, BREAKS)
    && NoneOf(u.path, QUERY_MARKS) && NoneOf(u.path, BREAKS)
    && (u.path != [] ==> u.path[0] == '/')
  }

  lemma NetlocParts(rest: string)
    requires NetlocOf(rest) != []
    ensures rest == "//" + NetlocOf(rest) + TailOf(rest) && NoneOf(NetlocOf(rest), DELIMITERS)
    ensures TailOf(rest) != [] ==> TailOf(rest)[0] in DELIMITERS
  {
  }

  lemma PathParts(tail: string)
    requires tail != [] ==> tail[0] in DELIMITERS
    ensures var path := PathOf(tail);
      path <= tail && NoneOf(path, QUERY_MARKS) && (path != [] ==> path[0] == '/')
  {
    var hash := FirstOf(tail, {'#'});
    var question := FirstOf(tail[..hash], {'?'});
    assert PathOf(tail) == tail[..question];
    forall i | 0 <= i < question ensures tail[i] !in QUERY_MARKS {
      assert tail[..hash][i] == tail[i];
    }
  }

  lemma SchemeParts(u: string)
    requires SchemeOf(u) != []
    ensures var colon := FirstOf(u, {':'});
      colon < |u| && Lower(u[..colon]) == SchemeOf(u) && IsWeb(SchemeOf(u))
  {
  }

  lemma AroundColon(u: string, colon: nat)
    requires colon < |u| && u[colon] == ':'
    ensures u == u[..colon] + [':'] + u[colon + 1..]
  {
  }

  lemma Glue(u: string, scheme: string, rest: string, netloc: string, tail: string, path: string, after: string)
    requires u == scheme + [':'] + rest && rest == "//" + netloc + tail && tail == path + after
    ensures u == scheme + "://" + netloc + path + after
  {
    assert [':'] + "//" == "://";
    assert scheme + [':'] + rest == scheme + ([':'] + "//") + netloc + tail;
  }

  lemma SplitShape(u: string, rest: string)
    requires SchemeOf(u) != [] && FirstOf(u, {':'}) < |u| && rest == u[FirstOf(u, {':'}) + 1..]
    ensures Split(u).scheme == SchemeOf(u) && Split(u).netloc == NetlocOf(rest) && Split(u).path == PathOf(TailOf(rest))
  {
    hide FirstOf, SchemeOf, NetlocOf, TailOf, PathOf, QueryOf, FragmentOf;
  }

  lemma SplitFacts(u: string)
    requires Split(u).scheme != [] && Split(u).netloc != []
    ensures IsWeb(Split(u).scheme) && NoneOf(Split(u).netloc, DELIMITERS)
    ensures NoneOf(Split(u).path, QUERY_MARKS) && (Split(u).path != [] ==> Split(u).path[0] == '/')
  {
    SchemeParts(u);
    var rest := u[FirstOf(u, {':'}) + 1..];
    SplitShape(u, rest);
    NetlocParts(rest);
    PathParts(TailOf(rest));
  }

  lemma PrefixThen(path: string, tail: string)
    requires path <= tail
    ensures tail == path + tail[|path|..]
  {
  }

  lemma RestGlue(rest: string) returns (after: string)
    requires NetlocOf(rest) != []
    ensures rest == "//" + NetlocOf(rest) + (PathOf(TailOf(rest)) + after) && (NoneOf(rest, QUERY_MARKS) ==> after == [])
  {
    NetlocParts(rest);
    PathParts(TailOf(rest));
    PrefixThen(PathOf(TailOf(rest)), TailOf(rest));
    after := TailOf(rest)[|PathOf(TailOf(rest))|..];
    if NoneOf(rest, QUERY_MARKS) {
      UnmarkedPath(TailOf(rest));
    }
  }

  lemma UnmarkedPath(tail: string)
    requires NoneOf(tail, QUERY_MARKS)
    ensures PathOf(tail) == tail
  {
    assert FirstOf(tail, {'#'}) == |tail| && tail[..|tail|] == tail;
    assert FirstOf(tail, {'?'}) == |tail|;
  }

  // An accepted string is the parts, with the scheme in its own case and some delimiters after.
  lemma SplitParts(u: string) returns (scheme: string, after: string)
    requires Split(u).scheme != [] && Split(u).netloc != []
    ensures u == scheme + "://" + Split(u).netloc + Split(u).path + after && Lower(scheme) == Split(u).scheme
    ensures scheme == u[..FirstOf(u, {':'})] && (NoneOf(u, QUERY_MARKS) ==> after == [])
  {
    SchemeParts(u);
    var colon := FirstOf(u, {':'});
    AroundColon(u, colon);
    scheme := u[..colon];
    var rest := u[colon + 1..];
    SplitShape(u, rest);
    after := RestGlue(rest);
    SuffixUnmarked(u, colon + 1);
    hide FirstOf, SchemeOf, NetlocOf, TailOf, PathOf, QueryOf, FragmentOf, Lower, NoneOf, Split, IsWeb;
    Glue(u, scheme, rest, NetlocOf(rest), PathOf(TailOf(rest)) + after, PathOf(TailOf(rest)), after);
  }

  lemma SuffixUnmarked(u: string, k: nat)
    requires k <= |u|
    ensures NoneOf(u, QUERY_MARKS) ==> NoneOf(u[k..], QUERY_MARKS)
  {
  }

  lemma PartsHaveNoBreaks(scheme: string, netloc: string, path: string, after: string)
    requires NoneOf(scheme + "://" + netloc + path + after, BREAKS)
    ensures NoneOf(netloc, BREAKS) && NoneOf(path, BREAKS)
  {
    NoneOfJoin(scheme + "://" + netloc + path, after, BREAKS);
    NoneOfJoin(scheme + "://" + netloc, path, BREAKS);
    NoneOfJoin(scheme + "://", netloc, BREAKS);
  }

  lemma UnsplitSize(u: string, url: Url, scheme: string, after: string)
    requires u == scheme + "://" + url.netloc + url.path + after && Lower(scheme) == url.scheme
    ensures Bytes(Unsplit(url)) <= Bytes(u)
  {
    var middle := "://" + url.netloc + url.path;
    assert u == scheme + (middle + after);
    assert Unsplit(url) == url.scheme + middle;
    BytesSplit(scheme, middle + after);
    BytesSplit(middle, after);
    BytesSplit(url.scheme, middle);
    LowerBytes(scheme);
  }

  lemma UnsplitChars(u: string, url: Url, scheme: string, after: string, c: char)
    requires u == scheme + "://" + url.netloc + url.path + after && c in Unsplit(url)
    ensures c in url.scheme || c in u
  {
    assert c in url.scheme || c in "://" || c in url.netloc || c in url.path;
  }

  lemma SplitScheme(url: Url)
    requires PartsOk(url)
    ensures SchemeOf(Unsplit(url)) == url.scheme && FirstOf(Unsplit(url), {':'}) == |url.scheme|
  {
    var t := Unsplit(url);
    FirstOfIs(t, {':'}, |url.scheme|);
    LowerFixed(url.scheme);
    assert t[..|url.scheme|] == url.scheme;
  }

  lemma SplitNetloc(netloc: string, path: string)
    requires netloc != [] && NoneOf(netloc, DELIMITERS) && (path != [] ==> path[0] == '/')
    ensures var rest := "//" + netloc + path; NetlocOf(rest) == netloc && TailOf(rest) == path
  {
    var rest := "//" + netloc + path;
    assert rest[2..] == netloc + path;
    FirstOfIs(netloc + path, DELIMITERS, |netloc|);
    assert NetlocOf(rest) == netloc;
  }

  lemma SplitPath(path: string)
    requires NoneOf(path, QUERY_MARKS)
    ensures PathOf(path) == path && QueryOf(path) == [] && FragmentOf(path) == []
  {
    forall i | 0 <= i < |path| ensures path[i] != '?' && path[i] != '#' {
      assert path[i] !in QUERY_MARKS;
    }
    FirstOfIs(path, {'#'}, |path|);
    assert path[..|path|] == path;
    FirstOfIs(path, {'?'}, |path|);
  }

  lemma SplitAgain(url: Url)
    requires PartsOk(url)
    ensures Split(Unsplit(url)) == url
  {
    SplitScheme(url);
    SplitNetloc(url.netloc, url.path);
    SplitPath(url.path);
    assert Unsplit(url)[|url.scheme| + 1..] == "//" + url.netloc + url.path;
  }

  lemma ParseAgain(url: Url)
    requires PartsOk(url)
    ensures Parse(Unsplit(url)) == url
  {
    var t := Unsplit(url);
    assert t[0] == 'h' && LeftTrim(t) == t;
    NoneOfJoin(url.scheme + "://" + url.netloc, url.path, BREAKS);
    NoneOfJoin(url.scheme + "://", url.netloc, BREAKS);
    NoBreaksToDrop(t);
    SplitAgain(url);
  }

  // The reassembled URL can still be refused: dropping a tab can bring a letter and a combining mark
  // together, or complete a credential.
  predicate UrlStable(h: Host, value: Option<string>) {
    value.None? || value.value == [] || (h.isNfc(Unsplit(Parse(value.value))) && !h.isSecret(Unsplit(Parse(value.value))))
  }

  lemma PrintableOut(h: Host, t: string, out: string)
    requires Printable(h, t) && forall c :: c in out ==> c in t || !h.isControl(c)
    ensures Printable(h, out)
  {
    forall i | 0 <= i < |out| ensures out[i] == '\n' || out[i] == '\r' || out[i] == '\t' || !h.isControl(out[i]) {
      assert out[i] in out;
    }
  }

  lemma SchemeLetters(h: Host, scheme: string)
    requires LettersPlain(h) && IsWeb(scheme)
    ensures forall c :: c in scheme ==> !h.isControl(c)
  {
    forall c | c in scheme ensures !h.isControl(c) {
      assert IsAlphanumeric(c);
    }
  }

  // What an accepted URL becomes: short enough, printable, and parsed the same way.
  lemma AcceptedUrl(h: Host, t: string)
    requires LettersPlain(h) && TextOk(h, t, 4096, false) && Representable(h, Parse(t))
    ensures var out := Unsplit(Parse(t));
      out != [] && Bytes(out) <= 4096 && Printable(h, out) && Parse(out) == Parse(t)
  {
    var u := WithoutBreaks(LeftTrim(t));
    var url := Split(u);
    TrimmedFrom(t);
    BreaksFrom(LeftTrim(t));
    SplitFacts(u);
    var scheme, after := SplitParts(u);
    PartsHaveNoBreaks(scheme, url.netloc, url.path, after);
    UnsplitSize(u, url, scheme, after);
    ParseAgain(url);
    SchemeLetters(h, url.scheme);
    forall c | c in Unsplit(url) ensures c in t || !h.isControl(c) {
      UnsplitChars(u, url, scheme, after, c);
    }
    PrintableOut(h, t, Unsplit(url));
  }

  /** An accepted URL is accepted again if and only if it is stable, and then unchanged. */
  lemma SafeUrlAgain(h: Host, value: Option<string>)
    requires LettersPlain(h) && SafeUrl(h, value).Success?
    ensures SafeUrl(h, SafeUrl(h, value).value).Success? <==> UrlStable(h, value)
    ensures UrlStable(h, value) ==> SafeUrl(h, SafeUrl(h, value).value) == SafeUrl(h, value)
  {
    if value.Some? && value.value != [] {
      SafeUrlMeans(h, value.value);
      hide SafeUrl, Parse, Printable, Bytes, Unsplit, Representable;
      AcceptedUrl(h, value.value);
      SafeUrlMeans(h, Unsplit(Parse(value.value)));
    }
  }

  /**
    What a caller can read off the URL: without tab or line break, leading space, query mark or capital
    in its scheme, an accepted URL is what it is reassembled to, and so is stable whatever the library does.
  */
  lemma PlainUrlIsStable(h: Host, t: string)
    requires t != [] && SafeUrl(h, Some(t)).Success?
    requires t[0] as int > 0x20 && NoneOf(t, BREAKS) && NoneOf(t, QUERY_MARKS)
    requires Lower(t[..FirstOf(t, {':'})]) == t[..FirstOf(t, {':'})]
    ensures SafeUrl(h, Some(t)) == Success(Some(t)) && UrlStable(h, Some(t))
  {
    SafeUrlMeans(h, t);
    NoBreaksToDrop(t);
    assert LeftTrim(t) == t;
    hide SafeUrl, Split, WithoutBreaks, LeftTrim, Bytes, Printable, FirstOf, Lower;
    var scheme, after := SplitParts(t);
    assert Unsplit(Parse(t)) == t;
  }

  lemma SafeUrlMeans(h: Host, t: string)
    requires t != []
    ensures SafeUrl(h, Some(t)).Success? <==> TextOk(h, t, 4096, false) && !h.isSecret(t) && Representable(h, Parse(t))
    ensures SafeUrl(h, Some(t)).Success? ==> SafeUrl(h, Some(t)) == Success(Some(Unsplit(Parse(t))))
  {
    hide TextOk, Parse, Unsplit, Representable;
  }

  // ---- The document ----

  lemma TextIsKept(h: Host, t: string, maximum: nat, allowEmpty: bool)
    ensures CleanText(h, t, maximum, allowEmpty).Success? ==> CleanText(h, t, maximum, allowEmpty).value == t
  {
  }

  lemma {:induction false} SkillsAreKept(h: Host, ss: seq<Skill>, seen: set<string>)
    ensures NormalizeSkills(h, ss, seen).Success? ==> NormalizeSkills(h, ss, seen).value == ss
    decreases |ss|
  {
    if ss != [] && NormalizeSkill(h, ss[0]).Success? {
      SkillsAreKept(h, ss[1..], seen + {ss[0].id});
    }
  }

  lemma {:induction false} ArgumentsAreKept(h: Host, items: seq<string>)
    ensures Arguments(h, items).Success? ==> Arguments(h, items).value == items
    decreases |items|
  {
    if items != [] {
      ArgumentsAreKept(h, items[1..]);
    }
  }

  predicate NoLonger(a: Server, b: Server) {
    && |a.arguments| <= |b.arguments| && |a.environmentKeys| <= |b.environmentKeys|
    && |a.headerNames| <= |b.headerNames| && |a.tools| <= |b.tools|
  }

  lemma ServerAgain(h: Host, s: Server)
    requires LettersPlain(h) && NormalizeServer(h, s).Success?
    ensures var out := NormalizeServer(h, s).value;
      && (NormalizeServer(h, out).Success? <==> UrlStable(h, s.url))
      && (UrlStable(h, s.url) ==> NormalizeServer(h, out) == Success(out))
      && out.name == s.name && NoLonger(out, s)
  {
    hide SafeUrl, UrlStable, IdentifierSet, TextOk;
    SafeUrlAgain(h, s.url);
    ArgumentsAreKept(h, s.arguments);
    IdentifierSetAgain(h, s.environmentKeys, 128);
    IdentifierSetAgain(h, s.headerNames, 128);
    IdentifierSetAgain(h, s.tools, 256);
  }

  predicate UrlsStable(h: Host, ss: seq<Server>) { forall s :: s in ss ==> UrlStable(h, s.url) }

  ghost predicate NoneLonger(out: seq<Server>, ss: seq<Server>) {
    |out| == |ss| && forall i :: 0 <= i < |ss| ==> NoLonger(out[i], ss[i])
  }

  lemma UrlsStableSplit(h: Host, ss: seq<Server>)
    requires ss != []
    ensures UrlsStable(h, ss) <==> UrlStable(h, ss[0].url) && UrlsStable(h, ss[1..])
  {
    assert forall s :: s in ss <==> s == ss[0] || s in ss[1..];
  }

  lemma {:induction false} ServersAgain(h: Host, ss: seq<Server>, seen: set<string>)
    requires LettersPlain(h) && NormalizeServers(h, ss, seen).Success?
    ensures var out := NormalizeServers(h, ss, seen).value;
      && (NormalizeServers(h, out, seen).Success? <==> UrlsStable(h, ss))
      && (UrlsStable(h, ss) ==> NormalizeServers(h, out, seen) == Success(out))
      && NoneLonger(out, ss)
    decreases |ss|
  {
    if ss != [] {
      ServerAgain(h, ss[0]);
      var first := NormalizeServer(h, ss[0]).value;
      var rest := NormalizeServers(h, ss[1..], seen + {first.name}).value;
      ServersAgain(h, ss[1..], seen + {first.name});
      UrlsStableSplit(h, ss);
      ServersStep(h, ss, first, rest, seen);
    }
  }

  lemma ServersStep(h: Host, ss: seq<Server>, first: Server, rest: seq<Server>, seen: set<string>)
    requires ss != [] && first.name !in seen && NoLonger(first, ss[0]) && NoneLonger(rest, ss[1..])
    requires NormalizeServer(h, first).Success? ==> NormalizeServer(h, first).value == first
    ensures NoneLonger([first] + rest, ss)
    ensures NormalizeServers(h, [first] + rest, seen).Success?
       <==> NormalizeServer(h, first).Success? && NormalizeServers(h, rest, seen + {first.name}).Success?
    ensures NormalizeServer(h, first).Success? && NormalizeServers(h, rest, seen + {first.name}).Success? ==>
              NormalizeServers(h, [first] + rest, seen).value == [first] + NormalizeServers(h, rest, seen + {first.name}).value
  {
    assert ([first] + rest)[1..] == rest;
    forall i | 0 <= i < |ss| ensures NoLonger(([first] + rest)[i], ss[i]) {
      if i > 0 {
        assert NoLonger(rest[i - 1], ss[1..][i - 1]);
      }
    }
  }

  lemma {:induction false} ToolsAgain(h: Host, ts: seq<Toolset>, seen: set<string>)
    requires NormalizeTools(h, ts, seen).Success?
    ensures var out := NormalizeTools(h, ts, seen).value;
      NormalizeTools(h, out, seen) == Success(out) && |out| == |ts| && forall i :: 0 <= i < |ts| ==> |out[i].tools| <= |ts[i].tools|
    decreases |ts|
  {
    if ts != [] {
      IdentifierSetAgain(h, ts[0].tools, 256);
      var first := NormalizeTool(h, ts[0]).value;
      ToolsAgain(h, ts[1..], seen + {first.id});
      var out := NormalizeTools(h, ts, seen).value;
      assert out[0] == first && out[1..] == NormalizeTools(h, ts[1..], seen + {first.id}).value;
    }
  }

  lemma ShapeAgain(raw: Document, d: Document)
    requires ShapeOk(raw) && d.skills == raw.skills && NoneLonger(d.mcpServers, raw.mcpServers) && |d.omissions| <= |raw.omissions|
    requires |d.tools| == |raw.tools| && forall i :: 0 <= i < |raw.tools| ==> |d.tools[i].tools| <= |raw.tools[i].tools|
    ensures ShapeOk(d)
  {
    forall s | s in d.mcpServers
      ensures |s.arguments| <= 128 && |s.environmentKeys| <= 64 && |s.headerNames| <= 64 && |s.tools| <= 2048
    {
      var i :| 0 <= i < |d.mcpServers| && d.mcpServers[i] == s;
      assert NoLonger(s, raw.mcpServers[i]) && raw.mcpServers[i] in raw.mcpServers;
    }
    forall t | t in d.tools ensures |t.tools| <= 2048 {
      var i :| 0 <= i < |d.tools| && d.tools[i] == t;
      assert raw.tools[i] in raw.tools;
    }
  }

  /**
    The normaliser is a fixed point of itself, exactly as far as URLs are stable: what it makes of a
    document is accepted again if and only if every server URL of the document is, and then unchanged.
  */
  lemma NormalizeAgain(h: Host, raw: Document, agent: Option<string>)
    requires Sane(h) && Normalize(h, raw, agent).Success?
    ensures var d := Normalize(h, raw, agent).value;
      && (Normalize(h, d, None).Success? <==> UrlsStable(h, raw.mcpServers))
      && (UrlsStable(h, raw.mcpServers) ==> Normalize(h, d, None) == Success(d))
      && d.id == raw.id && d.source == raw.source && (agent.Some? ==> d.source.profileId == agent.value)
  {
    hide NormalizeSkills, NormalizeServers, NormalizeTools, NormalizeConfig, CleanText, IdentifierSet, UrlsStable;
    var d := Normalize(h, raw, agent).value;
    TextIsKept(h, raw.title, 120, false);
    TextIsKept(h, raw.soul, 256000, true);
    SkillsAreKept(h, raw.skills, {});
    ServersAgain(h, raw.mcpServers, {});
    ToolsAgain(h, raw.tools, {});
    NormalizeConfigAgain(h, h.safeConfig, raw.config);
    IdentifierSetAgain(h, raw.omissions, 256);
    ShapeAgain(raw, d);
  }

  function WithTab(t: string, k: nat): string
    requires k <= |t|
  {
    t[..k] + ['\t'] + t[k..]
  }

  lemma {:induction false} OneBreakDropped(a: string, b: string)
    requires NoneOf(a, BREAKS) && NoneOf(b, BREAKS)
    ensures WithoutBreaks(a + ['\t'] + b) == a + b
  {
    if a == [] {
      NoBreaksToDrop(b);
      assert [] + ['\t'] + b == ['\t'] + b && (['\t'] + b)[1..] == b && [] + b == b;
    } else {
      OneBreakDropped(a[1..], b);
      assert (a + ['\t'] + b)[1..] == a[1..] + ['\t'] + b;
      assert [a[0]] + (a[1..] + b) == a + b;
    }
  }

  /**
    Where instability comes from. A tab inside a URL is accepted and dropped; if it stood between a
    letter and a combining mark, the URL with the tab is in Normalization Form C and the one without is not.
  */
  lemma TabHidesComposition(h: Host, u: Url, k: nat)
    requires PartsOk(u) && h.hasPlainHost(u.netloc) && 0 < k <= |Unsplit(u)|
    requires TextOk(h, WithTab(Unsplit(u), k), 4096, false) && !h.isSecret(WithTab(Unsplit(u), k)) && !h.isNfc(Unsplit(u))
    ensures SafeUrl(h, Some(WithTab(Unsplit(u), k))) == Success(Some(Unsplit(u)))
    ensures !UrlStable(h, Some(WithTab(Unsplit(u), k)))
  {
    hide Split, Bytes, Printable;
    var t := Unsplit(u);
    var tabbed := WithTab(t, k);
    NoneOfJoin(u.scheme + "://" + u.netloc, u.path, BREAKS);
    NoneOfJoin(u.scheme + "://", u.netloc, BREAKS);
    OneBreakDropped(t[..k], t[k..]);
    assert t[..k] + t[k..] == t;
    assert tabbed[0] == 'h' && LeftTrim(tabbed) == tabbed;
    SplitAgain(u);
    assert Parse(tabbed) == u;
  }

  const ACUTE := '\U{0301}'

  // UAX #15 composes an e with a following acute accent; this library knows no other composition.
  predicate Composed(t: string) { forall i :: 0 <= i < |t| - 1 ==> t[i] != 'e' || t[i + 1] != ACUTE }

  function AccentHost(): Host {
    Host(Composed, (c: char) => (c as int) < 0x20, (t: string) => false, (k: string) => false, (t: string) => false,
         (n: string) => n == "a", (id: string, s: Source) => true, (t: string) => t, (d: Document) => false, (d: Document) => 0,
         (d: Document) => "", SAFE_CONFIG)
  }

  const ACCENTED: Url := Url("https", "a", ['/', 'e', ACUTE], "", "")

  /** One such URL: https://a/e with a tab before its accent is accepted, and what is made of it is not. */
  lemma SomeUrlIsUnstable()
    ensures Sane(AccentHost())
    ensures SafeUrl(AccentHost(), Some(WithTab(Unsplit(ACCENTED), 11))) == Success(Some(Unsplit(ACCENTED)))
    ensures SafeUrl(AccentHost(), Some(Unsplit(ACCENTED))).Failure?
  {
    TableIsOk();
    hide TableOk, Split, LeftTrim, WithoutBreaks;
    var t := Unsplit(ACCENTED);
    var tabbed := WithTab(t, 11);
    assert t[10] == 'e' && t[11] == ACUTE && tabbed[11] == '\t';
    BytesBound(tabbed);
    TabHidesComposition(AccentHost(), ACCENTED, 11);
  }

  lemma {:induction false} BytesBound(t: string)
    ensures Bytes(t) <= 4 * |t|
  {
    if t != [] {
      BytesBound(t[1..]);
    }
  }

  // ---- What is accepted, and what it becomes ----

  // A text within its limit, composed, printable, and free of credentials.
  predicate IsClean(h: Host, t: string, maximum: nat) { Bytes(t) <= maximum && h.isNfc(t) && Printable(h, t) && !h.isSecret(t) }

  predicate IsName(h: Host, t: string, maximum: nat) { IsIdentifier(t) && Bytes(t) <= maximum && h.isNfc(t) && Printable(h, t) }

  // A clean text, or a reference to the environment in place of a credential.
  predicate IsArgument(h: Host, t: string, maximum: nat) {
    t != [] && Bytes(t) <= maximum && h.isNfc(t) && Printable(h, t) && (h.isEnvReference(t) || !h.isSecret(t))
  }

  lemma CleanIff(h: Host, t: string, maximum: nat, allowEmpty: bool)
    ensures CleanText(h, t, maximum, allowEmpty) == Success(t) <==> IsClean(h, t, maximum) && (allowEmpty || t != [])
    ensures CleanText(h, t, maximum, allowEmpty).Success? ==> CleanText(h, t, maximum, allowEmpty) == Success(t)
  {
  }

  lemma NameIff(h: Host, t: string, maximum: nat)
    ensures Identifier(h, t, maximum).Success? <==> IsName(h, t, maximum)
    ensures Identifier(h, t, maximum).Success? ==> Identifier(h, t, maximum) == Success(t)
  {
  }

  lemma ArgumentIff(h: Host, t: string, maximum: nat)
    ensures Argument(h, t, maximum).Success? <==> IsArgument(h, t, maximum)
    ensures Argument(h, t, maximum).Success? ==> Argument(h, t, maximum) == Success(t)
  {
    hide Bytes, Printable;
  }

  // The same names in ascending order, each once.
  ghost predicate SameNames(a: seq<string>, b: seq<string>) { Sorted(b) && forall x :: x in b <==> x in a }

  lemma NamesIff(h: Host, items: seq<string>, maximum: nat)
    ensures IdentifierSet(h, items, maximum).Success? <==> forall x :: x in items ==> IsName(h, x, maximum)
    ensures IdentifierSet(h, items, maximum).Success? ==> SameNames(items, IdentifierSet(h, items, maximum).value)
  {
    forall x | x in items ensures Identifier(h, x, maximum).Success? <==> IsName(h, x, maximum) {
      NameIff(h, x, maximum);
    }
    hide Identifier, IsName;
    SortedSetIsSorted(items);
  }

  predicate SkillOk(h: Host, s: Skill) {
    IsName(h, s.id, 160) && s.content != [] && IsClean(h, s.content, 100000) && h.sha256(s.content) == s.sha256
  }

  lemma SkillIff(h: Host, s: Skill)
    ensures NormalizeSkill(h, s).Success? <==> SkillOk(h, s)
    ensures NormalizeSkill(h, s).Success? ==> NormalizeSkill(h, s) == Success(s)
  {
    NameIff(h, s.id, 160);
    CleanIff(h, s.content, 100000, false);
    hide Identifier, CleanText, IsName, IsClean;
  }

  ghost predicate Apart<T(!new)>(items: seq<T>, name: T -> string, seen: set<string>) {
    && (forall i, j :: 0 <= i < j < |items| ==> name(items[i]) != name(items[j]))
    && forall i :: 0 <= i < |items| ==> name(items[i]) !in seen
  }

  lemma ApartSplit<T(!new)>(items: seq<T>, name: T -> string, seen: set<string>)
    requires items != []
    ensures Apart(items, name, seen) <==> name(items[0]) !in seen && Apart(items[1..], name, seen + {name(items[0])})
  {
    var rest := items[1..];
    assert forall i :: 0 < i < |items| ==> items[i] == rest[i - 1];
    if Apart(items, name, seen) {
      forall i | 0 <= i < |rest| ensures name(rest[i]) !in seen + {name(items[0])} {
        assert rest[i] == items[i + 1] && name(items[0]) != name(items[i + 1]);
      }
      forall i, j | 0 <= i < j < |rest| ensures name(rest[i]) != name(rest[j]) {
        assert rest[i] == items[i + 1] && rest[j] == items[j + 1];
      }
    }
    if name(items[0]) !in seen && Apart(rest, name, seen + {name(items[0])}) {
      forall i, j | 0 <= i < j < |items| ensures name(items[i]) != name(items[j]) {
        assert items[j] == rest[j - 1];
      }
    }
  }

  lemma {:induction false} SkillsIff(h: Host, ss: seq<Skill>, seen: set<string>)
    ensures NormalizeSkills(h, ss, seen).Success? <==> (forall i :: 0 <= i < |ss| ==> SkillOk(h, ss[i])) && Apart(ss, (s: Skill) => s.id, seen)
    decreases |ss|
  {
    hide SkillOk, NormalizeSkill;
    if ss != [] {
      SkillIff(h, ss[0]);
      SkillsIff(h, ss[1..], seen + {ss[0].id});
      ApartSplit(ss, (s: Skill) => s.id, seen);
      assert forall i :: 0 < i < |ss| ==> ss[i] == ss[1..][i - 1];
    }
  }

  lemma {:induction false} ArgumentsIff(h: Host, items: seq<string>)
    ensures Arguments(h, items).Success? <==> forall i :: 0 <= i < |items| ==> IsArgument(h, items[i], 4096)
    decreases |items|
  {
    hide Argument, IsArgument;
    if items != [] {
      ArgumentIff(h, items[0], 4096);
      ArgumentsIff(h, items[1..]);
      assert forall i :: 0 < i < |items| ==> items[i] == items[1..][i - 1];
    }
  }

  // A web address with a plain host, no query and no fragment.
  predicate UrlOk(h: Host, value: Option<string>) {
    value.None? || value.value == [] || (IsClean(h, value.value, 4096) && Representable(h, Parse(value.value)))
  }

  predicate ServerOk(h: Host, s: Server) {
    && IsName(h, s.name, 160) && UrlOk(h, s.url) && (s.command.Some? ==> IsArgument(h, s.command.value, 2048))
    && (forall i :: 0 <= i < |s.arguments| ==> IsArgument(h, s.arguments[i], 4096))
    && (forall x :: x in s.environmentKeys ==> IsName(h, x, 128)) && (forall x :: x in s.headerNames ==> IsName(h, x, 128))
    && (forall x :: x in s.tools ==> IsName(h, x, 256))
  }

  // A web address of a plain host, with a path and nothing after it.
  predicate IsPlainUrl(h: Host, scheme: string, netloc: string, path: string) {
    && IsWeb(Lower(scheme)) && netloc != [] && h.hasPlainHost(netloc) && NoneOf(netloc, DELIMITERS)
    && NoneOf(path, QUERY_MARKS) && (path != [] ==> path[0] == '/')
  }

  /**
    The same URL: without leading space, breaks, an empty query or an empty fragment, and with its scheme in
    lower case.
  */
  ghost predicate SameUrl(h: Host, a: string, b: string) {
    exists scheme, netloc, path, after ::
      && IsPlainUrl(h, scheme, netloc, path) && after in {"", "?", "#", "?#"}
      && WithoutBreaks(LeftTrim(a)) == scheme + "://" + netloc + path + after && b == Lower(scheme) + "://" + netloc + path
  }

  ghost predicate SameServer(h: Host, a: Server, b: Server) {
    && (b.name, b.transport, b.command, b.arguments, b.auth, b.enabled) == (a.name, a.transport, a.command, a.arguments, a.auth, a.enabled)
    && (if a.url.None? || a.url.value == [] then b.url == None else b.url.Some? && SameUrl(h, a.url.value, b.url.value))
    && SameNames(a.environmentKeys, b.environmentKeys) && SameNames(a.headerNames, b.headerNames) && SameNames(a.tools, b.tools)
  }

  // What follows the path when query and fragment are empty.
  lemma BareTail(tail: string)
    requires QueryOf(tail) == [] && FragmentOf(tail) == []
    ensures exists after :: after in {"", "?", "#", "?#"} && tail == PathOf(tail) + after
  {
    var hash := FirstOf(tail, {'#'});
    var question := FirstOf(tail[..hash], {'?'});
    assert PathOf(tail) == tail[..question];
    var after := tail[question..];
    assert tail == PathOf(tail) + after;
    if question < hash {
      assert QueryOf(tail) == tail[question + 1..hash] && |tail[question + 1..hash]| == hash - (question + 1);
      assert tail[..hash][question] == tail[question] == '?';
    }
    if hash < |tail| {
      assert FragmentOf(tail) == tail[hash + 1..] && |tail[hash + 1..]| == |tail| - (hash + 1);
      assert tail[hash] == '#';
      assert after == if question < hash then "?#" else "#";
    } else {
      assert after == if question < hash then "?" else "";
    }
  }

  lemma UrlIsSame(h: Host, t: string)
    requires Representable(h, Parse(t))
    ensures SameUrl(h, t, Unsplit(Parse(t)))
  {
    var u := WithoutBreaks(LeftTrim(t));
    var scheme, netloc, path, after := UrlParts(u);
    hide Split, WithoutBreaks, LeftTrim, Lower, NoneOf;
    assert IsPlainUrl(h, scheme, netloc, path);
  }

  // The parts of a trimmed URL without query and fragment.
  lemma UrlParts(u: string) returns (scheme: string, netloc: string, path: string, after: string)
    requires Split(u).scheme != [] && Split(u).netloc != [] && Split(u).query == [] && Split(u).fragment == []
    ensures u == scheme + "://" + netloc + path + after && after in {"", "?", "#", "?#"}
    ensures Lower(scheme) == Split(u).scheme && netloc == Split(u).netloc && path == Split(u).path && IsWeb(Split(u).scheme)
    ensures NoneOf(netloc, DELIMITERS) && NoneOf(path, QUERY_MARKS) && (path != [] ==> path[0] == '/')
  {
    SchemeParts(u);
    var colon := FirstOf(u, {':'});
    AroundColon(u, colon);
    var rest := u[colon + 1..];
    SplitShape(u, rest);
    SplitFacts(u);
    NetlocParts(rest);
    var tail := TailOf(rest);
    SplitTail(u, rest);
    BareTail(tail);
    var end :| end in {"", "?", "#", "?#"} && tail == PathOf(tail) + end;
    scheme, netloc, path, after := u[..colon], NetlocOf(rest), PathOf(tail), end;
    hide FirstOf, SchemeOf, NetlocOf, TailOf, PathOf, QueryOf, FragmentOf, Lower, NoneOf, Split, IsWeb;
    Glue(u, scheme, rest, netloc, tail, path, after);
  }

  lemma SplitTail(u: string, rest: string)
    requires SchemeOf(u) != [] && FirstOf(u, {':'}) < |u| && rest == u[FirstOf(u, {':'}) + 1..]
    ensures Split(u).query == QueryOf(TailOf(rest)) && Split(u).fragment == FragmentOf(TailOf(rest))
  {
    hide FirstOf, SchemeOf, NetlocOf, TailOf, PathOf, QueryOf, FragmentOf;
  }

  lemma UrlIff(h: Host, value: Option<string>)
    ensures SafeUrl(h, value).Success? <==> UrlOk(h, value)
    ensures SafeUrl(h, value).Success? ==>
              if value.None? || value.value == [] then SafeUrl(h, value).value == None
              else SafeUrl(h, value).value.Some? && SameUrl(h, value.value, SafeUrl(h, value).value.value)
  {
    if value.Some? && value.value != [] {
      SafeUrlMeans(h, value.value);
      hide SafeUrl, Parse, Printable, Bytes, Unsplit, Representable, SameUrl;
      if Representable(h, Parse(value.value)) {
        UrlIsSame(h, value.value);
      }
    }
  }

  lemma CommandIff(h: Host, c: Option<string>)
    ensures Command(h, c).Success? <==> (c.Some? ==> IsArgument(h, c.value, 2048))
    ensures Command(h, c).Success? ==> Command(h, c) == Success(c)
  {
    if c.Some? {
      ArgumentIff(h, c.value, 2048);
      hide Argument, IsArgument;
    }
  }

  lemma ServerIff(h: Host, s: Server)
    ensures NormalizeServer(h, s).Success? <==> ServerOk(h, s)
    ensures NormalizeServer(h, s).Success? ==> SameServer(h, s, NormalizeServer(h, s).value)
  {
    NameIff(h, s.name, 160);
    UrlIff(h, s.url);
    CommandIff(h, s.command);
    ArgumentsIff(h, s.arguments);
    ArgumentsAreKept(h, s.arguments);
    NamesIff(h, s.environmentKeys, 128);
    NamesIff(h, s.headerNames, 128);
    NamesIff(h, s.tools, 256);
    hide Identifier, SafeUrl, Command, Arguments, IdentifierSet, IsName, IsArgument, UrlOk, SameUrl, SameNames;
  }

  lemma {:induction false} ServersIff(h: Host, ss: seq<Server>, seen: set<string>)
    ensures NormalizeServers(h, ss, seen).Success? <==> (forall i :: 0 <= i < |ss| ==> ServerOk(h, ss[i])) && Apart(ss, (s: Server) => s.name, seen)
    ensures NormalizeServers(h, ss, seen).Success? ==>
              var out := NormalizeServers(h, ss, seen).value; |out| == |ss| && forall i :: 0 <= i < |ss| ==> SameServer(h, ss[i], out[i])
    decreases |ss|
  {
    hide ServerOk, NormalizeServer, SameServer;
    if ss != [] {
      ServerIff(h, ss[0]);
      ServerNamed(h, ss[0]);
      ServersIff(h, ss[1..], seen + {ss[0].name});
      ApartSplit(ss, (s: Server) => s.name, seen);
      assert forall i :: 0 < i < |ss| ==> ss[i] == ss[1..][i - 1];
    }
  }

  lemma ServerNamed(h: Host, s: Server)
    ensures NormalizeServer(h, s).Success? ==> NormalizeServer(h, s).value.name == s.name
  {
    NameIff(h, s.name, 160);
    hide Identifier, SafeUrl, Command, Arguments, IdentifierSet, IsName;
  }

  predicate ToolsetOk(h: Host, t: Toolset) {
    && IsName(h, t.id, 160) && t.name != [] && IsClean(h, t.name, 256) && IsClean(h, t.description, 8192) && IsName(h, t.platform, 80)
    && forall x :: x in t.tools ==> IsName(h, x, 256)
  }

  ghost predicate SameToolset(a: Toolset, b: Toolset) {
    (b.id, b.name, b.description, b.platform, b.enabled) == (a.id, a.name, a.description, a.platform, a.enabled) && SameNames(a.tools, b.tools)
  }

  lemma ToolsetIff(h: Host, t: Toolset)
    ensures NormalizeTool(h, t).Success? <==> ToolsetOk(h, t)
    ensures NormalizeTool(h, t).Success? ==> SameToolset(t, NormalizeTool(h, t).value)
  {
    NameIff(h, t.id, 160);
    CleanIff(h, t.name, 256, false);
    CleanIff(h, t.description, 8192, true);
    NameIff(h, t.platform, 80);
    NamesIff(h, t.tools, 256);
    hide Identifier, CleanText, IdentifierSet, IsName, IsClean, SameNames;
  }

  lemma {:induction false} ToolsetsIff(h: Host, ts: seq<Toolset>, seen: set<string>)
    ensures NormalizeTools(h, ts, seen).Success? <==> (forall i :: 0 <= i < |ts| ==> ToolsetOk(h, ts[i])) && Apart(ts, (t: Toolset) => t.id, seen)
    ensures NormalizeTools(h, ts, seen).Success? ==>
              var out := NormalizeTools(h, ts, seen).value; |out| == |ts| && forall i :: 0 <= i < |ts| ==> SameToolset(ts[i], out[i])
    decreases |ts|
  {
    hide ToolsetOk, NormalizeTool, SameNames;
    if ts != [] {
      ToolsetIff(h, ts[0]);
      ToolsetsIff(h, ts[1..], seen + {ts[0].id});
      ApartSplit(ts, (t: Toolset) => t.id, seen);
      assert forall i :: 0 < i < |ts| ==> ts[i] == ts[1..][i - 1];
    }
  }

  // ---- Configuration that is accepted ----

  // The value at the end of a path of positions into lists and objects.
  function Inside(v: Json, path: seq<nat>): Option<Json>
    decreases |path|
  {
    if path == [] then Some(v)
    else
      match v
      case Array(items) => if path[0] < |items| then Inside(items[path[0]], path[1..]) else None
      case Object(fields) => if path[0] < |fields| then Inside(fields[path[0]].value, path[1..]) else None
      case _ => None
  }

  // Without what is nested in it.
  predicate SpotOk(h: Host, v: Json) {
    match v
    case Float(r) => -1000000.0 <= r <= 1000000.0
    case NotFinite => false
    case String(s) => IsClean(h, s, 8192)
    case Array(items) => |items| <= 256
    case Object(fields) => |fields| <= 256 && forall i :: 0 <= i < |fields| ==> IsName(h, fields[i].key, 128) && !h.isSecretKey(fields[i].key)
    case _ => true
  }

  predicate Along(h: Host, v: Json, path: seq<nat>, depth: nat) {
    Inside(v, path).Some? ==> depth + |path| <= 8 && SpotOk(h, Inside(v, path).value)
  }

  lemma {:induction false} ItemsIff(h: Host, items: seq<Json>, depth: nat)
    ensures JsonItems(h, items, depth).Success? <==> forall i :: 0 <= i < |items| ==> JsonValue(h, items[i], depth).Success?
    decreases |items|
  {
    hide JsonValue;
    if items != [] {
      ItemsIff(h, items[1..], depth);
      assert forall i :: 0 < i < |items| ==> items[i] == items[1..][i - 1];
    }
  }

  lemma {:induction false} FieldsIff(h: Host, fields: seq<Field>, depth: nat)
    ensures JsonFields(h, fields, depth).Success? <==>
              forall i :: 0 <= i < |fields| ==>
                IsName(h, fields[i].key, 128) && !h.isSecretKey(fields[i].key) && JsonValue(h, fields[i].value, depth).Success?
    decreases |fields|
  {
    hide JsonValue, Identifier, IsName;
    if fields != [] {
      NameIff(h, fields[0].key, 128);
      FieldsIff(h, fields[1..], depth);
      assert forall i :: 0 < i < |fields| ==> fields[i] == fields[1..][i - 1];
    }
  }

  // The parts of a value, in place.
  function Below(v: Json): seq<Json> {
    match v
    case Array(items) => items
    case Object(fields) => seq(|fields|, i requires 0 <= i < |fields| => fields[i].value)
    case _ => []
  }

  lemma ValueIff(h: Host, v: Json, depth: nat)
    ensures JsonValue(h, v, depth).Success? <==>
              depth <= 8 && SpotOk(h, v) && forall i :: 0 <= i < |Below(v)| ==> JsonValue(h, Below(v)[i], depth + 1).Success?
  {
    match v
    case String(s) => CleanIff(h, s, 8192, true);
      hide CleanText, IsClean;
    case Array(items) => ItemsIff(h, items, depth + 1);
      assert Below(v) == items;
      hide JsonItems;
    case Object(fields) => FieldsIff(h, fields, depth + 1);
      hide JsonFields, IsName;
      assert forall i :: 0 <= i < |fields| ==> Below(v)[i] == fields[i].value;
    case _ =>
  }

  lemma InsideBelow(v: Json, i: nat, path: seq<nat>)
    ensures Inside(v, [i] + path) == if i < |Below(v)| then Inside(Below(v)[i], path) else None
  {
    assert ([i] + path)[1..] == path;
  }

  /**
    A configuration value is accepted if and only if along no path there is a ninth level, a list of more than
    256, a number out of range, a text that is not clean, or a key that is no name or names a secret.
  */
  lemma {:induction false} JsonIff(h: Host, v: Json, depth: nat)
    ensures JsonValue(h, v, depth).Success? <==> forall path :: Along(h, v, path, depth)
    decreases v
  {
    hide SpotOk, JsonValue;
    ValueIff(h, v, depth);
    var next := depth + 1;
    forall i | 0 <= i < |Below(v)| ensures JsonValue(h, Below(v)[i], next).Success? <==> forall path :: Along(h, Below(v)[i], path, next) {
      JsonIff(h, Below(v)[i], next);
    }
    if JsonValue(h, v, depth).Success? {
      forall path ensures Along(h, v, path, depth) {
        if path != [] {
          assert path == [path[0]] + path[1..];
          InsideBelow(v, path[0], path[1..]);
          if path[0] < |Below(v)| {
            assert Along(h, Below(v)[path[0]], path[1..], next);
          }
        }
      }
    }
    if forall path :: Along(h, v, path, depth) {
      assert Along(h, v, [], depth);
      forall i | 0 <= i < |Below(v)| ensures JsonValue(h, Below(v)[i], next).Success? {
        forall path ensures Along(h, Below(v)[i], path, next) {
          InsideBelow(v, i, path);
          assert Along(h, v, [i] + path, depth);
        }
      }
    }
  }

  // What the saved configuration holds under one name that may be saved.
  ghost predicate EntryKept(a: Allowed, given: Option<Json>, saved: Option<Json>) {
    if given.None? || a.section.None? then saved == given
    else
      var fields := if given.value.Object? then given.value.fields else [];
      && given.value.Object?
      && (saved.None? <==> forall n :: n in a.section.value ==> Lookup(fields, n) == None)
      && (saved.Some? ==>
            && saved.value.Object?
            && (forall n :: n in a.section.value ==> Lookup(saved.value.fields, n) == Lookup(fields, n))
            && forall f :: f in saved.value.fields ==> f.key in a.section.value)
  }

  lemma {:induction false} LookupFirst(entry: Field, rest: seq<Field>, n: string)
    ensures Lookup([entry] + rest, n) == if entry.key == n then Some(entry.value) else Lookup(rest, n)
  {
    assert ([entry] + rest)[1..] == rest;
  }

  lemma {:induction false} SectionKept(h: Host, names: seq<string>, value: seq<Field>)
    requires DistinctNames(names) && SafeSection(h, names, value).1 == []
    ensures forall n :: n in names ==> Lookup(SafeSection(h, names, value).0, n) == Lookup(value, n)
    ensures SafeSection(h, names, value).0 == [] <==> forall n :: n in names ==> Lookup(value, n) == None
  {
    hide JsonValue;
    if names != [] {
      var kept := SafeSection(h, names[1..], value).0;
      SectionKept(h, names[1..], value);
      SectionKeys(h, names[1..], value);
      LookupOther(kept, names[0]);
      assert forall n :: n in names <==> n == names[0] || n in names[1..];
      if Lookup(value, names[0]).Some? {
        JsonIsKept(h, Lookup(value, names[0]).value, 0);
        forall n ensures Lookup([Field(names[0], Lookup(value, names[0]).value)] + kept, n) == if names[0] == n then Lookup(value, names[0]) else Lookup(kept, n) {
          LookupFirst(Field(names[0], Lookup(value, names[0]).value), kept, n);
        }
      }
    }
  }

  lemma EntryIsKept(h: Host, a: Allowed, v: Json)
    requires (a.section.Some? ==> DistinctNames(a.section.value)) && SafeEntry(h, a, v).1 == []
    ensures var entry := SafeEntry(h, a, v).0; EntryKept(a, Some(v), if entry == [] then None else Some(entry[0].value))
  {
    hide JsonValue;
    if a.section.None? {
      JsonIsKept(h, v, 0);
    } else {
      SectionKept(h, a.section.value, v.fields);
      SectionKeys(h, a.section.value, v.fields);
    }
  }

  lemma {:induction false} ConfigKept(h: Host, table: seq<Allowed>, raw: seq<Field>)
    requires TableOk(table) && SafeConfig(h, table, raw).1 == []
    ensures forall a :: a in table ==> EntryKept(a, Lookup(raw, a.key), Lookup(SafeConfig(h, table, raw).0, a.key))
  {
    hide SafeEntry, EntryKept;
    if table != [] {
      var key := table[0].key;
      var rest := SafeConfig(h, table[1..], raw).0;
      var entry := if Lookup(raw, key).Some? then SafeEntry(h, table[0], Lookup(raw, key).value).0 else [];
      assert TableOk(table[1..]);
      ConfigHead(h, table, raw);
      ConfigKept(h, table[1..], raw);
      assert table[0] in table;
      if Lookup(raw, key).Some? {
        EntryIsKept(h, table[0], Lookup(raw, key).value);
      } else {
        NothingKept(table[0]);
      }
      forall a | a in table && a != table[0] ensures Lookup(entry + rest, a.key) == Lookup(rest, a.key) && a in table[1..] {
        var i :| 0 <= i < |table| && table[i] == a;
        assert table[1..][i - 1] == a;
        LookupSkips(entry, rest, a.key);
      }
    }
  }

  lemma NothingKept(a: Allowed)
    ensures EntryKept(a, None, None)
  {
  }

  /** An accepted configuration holds only keys of the table, and what is saved of it is everything the table lets through. */
  lemma ConfigIsKept(h: Host, table: seq<Allowed>, raw: seq<Field>)
    requires TableOk(table) && NormalizeConfig(h, table, raw).Success?
    ensures var config := NormalizeConfig(h, table, raw).value;
      && (forall f :: f in raw ==> exists a :: a in table && a.key == f.key)
      && (forall f :: f in config ==> exists a :: a in table && a.key == f.key)
      && (forall a :: a in table ==> EntryKept(a, Lookup(raw, a.key), Lookup(config, a.key)))
  {
    hide EntryKept;
    ConfigKeys(h, table, raw);
    ConfigKept(h, table, raw);
  }

  // ---- The whole document ----

  ghost predicate Acceptable(h: Host, raw: Document, agent: Option<string>) {
    && ShapeOk(raw) && raw.title != [] && IsClean(h, raw.title, 120) && IsClean(h, raw.soul, 256000)
    && (agent.Some? ==> raw.source.profileId == agent.value) && h.identityOk(raw.id, raw.source)
    && (forall i :: 0 <= i < |raw.skills| ==> SkillOk(h, raw.skills[i])) && Apart(raw.skills, (s: Skill) => s.id, {})
    && (forall i :: 0 <= i < |raw.mcpServers| ==> ServerOk(h, raw.mcpServers[i])) && Apart(raw.mcpServers, (s: Server) => s.name, {})
    && (forall i :: 0 <= i < |raw.tools| ==> ToolsetOk(h, raw.tools[i])) && Apart(raw.tools, (t: Toolset) => t.id, {})
    && NormalizeConfig(h, h.safeConfig, raw.config).Success? && forall x :: x in raw.omissions ==> IsName(h, x, 256)
  }

  // The saved document says what was sent.
  ghost predicate SameDocument(h: Host, raw: Document, d: Document) {
    && (d.id, d.title, d.source, d.soul, d.skills) == (raw.id, raw.title, raw.source, raw.soul, raw.skills)
    && |d.mcpServers| == |raw.mcpServers| && (forall i :: 0 <= i < |raw.mcpServers| ==> SameServer(h, raw.mcpServers[i], d.mcpServers[i]))
    && |d.tools| == |raw.tools| && (forall i :: 0 <= i < |raw.tools| ==> SameToolset(raw.tools[i], d.tools[i]))
    && SameNames(raw.omissions, d.omissions)
    && (forall a :: a in h.safeConfig ==> EntryKept(a, Lookup(raw.config, a.key), Lookup(d.config, a.key)))
    && (forall f :: f in d.config ==> exists a :: a in h.safeConfig && a.key == f.key)
  }

  /**
    A document is accepted only if every part of it is, and the whole holds no credential and is small enough;
    it is refused only if some part is not, or the whole does or is not. What is accepted says what was sent:
    the same texts, skills, commands, settings and switches, the same names in order, the same URLs.
  */
  lemma DocumentIff(h: Host, raw: Document, agent: Option<string>)
    requires TableOk(h.safeConfig)
    ensures var r := Normalize(h, raw, agent);
      && (r.Success? ==> Acceptable(h, raw, agent) && SameDocument(h, raw, r.value) && !h.documentIsSecret(r.value) && h.size(r.value) <= 1000000)
      && (Acceptable(h, raw, agent) ==> r.Success? || r == Failure(SecretBlocked) || r == Failure(TooLarge))
  {
    DocumentAccepted(h, raw, agent);
    if Normalize(h, raw, agent).Success? {
      DocumentIsSame(h, raw, agent);
    }
    hide Normalize, Acceptable, SameDocument, TableOk;
  }

  predicate PartsSucceed(h: Host, raw: Document, agent: Option<string>) {
    && ShapeOk(raw) && CleanText(h, raw.title, 120, false).Success? && CleanText(h, raw.soul, 256000, true).Success?
    && (agent.Some? ==> raw.source.profileId == agent.value) && h.identityOk(raw.id, raw.source)
    && NormalizeSkills(h, raw.skills, {}).Success? && NormalizeServers(h, raw.mcpServers, {}).Success?
    && NormalizeTools(h, raw.tools, {}).Success? && NormalizeConfig(h, h.safeConfig, raw.config).Success?
    && IdentifierSet(h, raw.omissions, 256).Success?
  }

  function Assembled(h: Host, raw: Document, agent: Option<string>): Document
    requires PartsSucceed(h, raw, agent)
  {
    Document(raw.id, CleanText(h, raw.title, 120, false).value, raw.source, CleanText(h, raw.soul, 256000, true).value,
             NormalizeSkills(h, raw.skills, {}).value, NormalizeServers(h, raw.mcpServers, {}).value, NormalizeTools(h, raw.tools, {}).value,
             NormalizeConfig(h, h.safeConfig, raw.config).value, IdentifierSet(h, raw.omissions, 256).value)
  }

  lemma PartsIff(h: Host, raw: Document, agent: Option<string>)
    ensures var r := Normalize(h, raw, agent);
      && (r.Success? ==> PartsSucceed(h, raw, agent) && r.value == Assembled(h, raw, agent) && !h.documentIsSecret(r.value) && h.size(r.value) <= 1000000)
      && (PartsSucceed(h, raw, agent) ==> r.Success? || r == Failure(SecretBlocked) || r == Failure(TooLarge))
  {
    hide NormalizeSkills, NormalizeServers, NormalizeTools, NormalizeConfig, CleanText, IdentifierSet, ShapeOk;
  }

  lemma PartsAcceptable(h: Host, raw: Document, agent: Option<string>)
    ensures PartsSucceed(h, raw, agent) <==> Acceptable(h, raw, agent)
  {
    CleanIff(h, raw.title, 120, false);
    CleanIff(h, raw.soul, 256000, true);
    SkillsIff(h, raw.skills, {});
    ServersIff(h, raw.mcpServers, {});
    ToolsetsIff(h, raw.tools, {});
    NamesIff(h, raw.omissions, 256);
    hide NormalizeSkills, NormalizeServers, NormalizeTools, NormalizeConfig, CleanText, IdentifierSet, ShapeOk, SameServer, SameToolset, SameNames;
    hide SkillOk, ServerOk, ToolsetOk, IsName, IsClean, Apart;
  }

  lemma DocumentAccepted(h: Host, raw: Document, agent: Option<string>)
    ensures var r := Normalize(h, raw, agent);
      && (r.Success? ==> Acceptable(h, raw, agent) && !h.documentIsSecret(r.value) && h.size(r.value) <= 1000000)
      && (Acceptable(h, raw, agent) ==> r.Success? || r == Failure(SecretBlocked) || r == Failure(TooLarge))
  {
    PartsIff(h, raw, agent);
    PartsAcceptable(h, raw, agent);
    hide Normalize, PartsSucceed, Assembled, Acceptable;
  }

  lemma DocumentIsSame(h: Host, raw: Document, agent: Option<string>)
    requires TableOk(h.safeConfig) && Normalize(h, raw, agent).Success?
    ensures SameDocument(h, raw, Normalize(h, raw, agent).value)
  {
    PartsIff(h, raw, agent);
    hide Normalize, NormalizeSkills, NormalizeServers, NormalizeTools, NormalizeConfig, CleanText, IdentifierSet, ShapeOk, TableOk;
    hide SameServer, SameToolset, SameNames, EntryKept, Apart, Lookup, ServerOk, ToolsetOk, IsName, IsClean;
    CleanIff(h, raw.title, 120, false);
    CleanIff(h, raw.soul, 256000, true);
    SkillsAreKept(h, raw.skills, {});
    ServersIff(h, raw.mcpServers, {});
    ToolsetsIff(h, raw.tools, {});
    NamesIff(h, raw.omissions, 256);
    ConfigIsKept(h, h.safeConfig, raw.config);
  }

  // ---- The template folder ----

  // A file in canonical form holds exactly one document; anything else is damage from outside.
  datatype Content = Canonical(document: Document) | Damaged

  type Folder = map<string, Content>

  function ReadFile(h: Host, f: Folder, id: string): Result<Document, StoreError> {
    if id !in f then Failure(NotFound)
    else if f[id].Damaged? then Failure(StorageConflict)
    else
      match Normalize(h, f[id].document, None)
      case Failure(e) => Failure(Rejected(e))
      case Success(d) => if d != f[id].document then Failure(StorageConflict) else Success(d)
  }

  // What stands in the way of writing d over what is there, if anything.
  function Obstacle(h: Host, f: Folder, d: Document, expected: Option<string>): Option<StoreError> {
    match ReadFile(h, f, d.id)
    case Failure(NotFound) => if expected.Some? then Some(TemplateConflict) else None
    case Failure(e) => Some(e)
    case Success(current) =>
      if expected != Some(h.revision(current)) || current.source != d.source then Some(TemplateConflict) else None
  }

  // The file is replaced, then read back.
  function WriteFile(h: Host, f: Folder, d: Document, expected: Option<string>): (Folder, Result<Document, StoreError>) {
    if Obstacle(h, f, d, expected).Some? then (f, Failure(Obstacle(h, f, d, expected).value))
    else if h.size(d) > MAX_TEMPLATE_BYTES then (f, Failure(Rejected(TooLarge)))
    else
      var f' := f[d.id := Canonical(d)];
      match ReadFile(h, f', d.id)
      case Failure(e) => (f', Failure(e))
      case Success(back) => if back != d then (f', Failure(TemplateChanged)) else (f', Success(back))
  }

  function Save(h: Host, f: Folder, agent: string, raw: Document, expected: Option<string>): (Folder, Result<Document, StoreError>) {
    match Normalize(h, raw, Some(agent))
    case Failure(e) => (f, Failure(Rejected(e)))
    case Success(d) => WriteFile(h, f, d, expected)
  }

  class TemplateFolder {
    const h: Host
    var files: Folder

    constructor (h: Host)
      ensures this.h == h && files == map[]
    {
      this.h, files := h, map[];
    }

    // The three passes that reject duplicates while they rewrite the lists in place.
    static method NormalizedSkills(h: Host, skills: seq<Skill>) returns (r: Result<seq<Skill>, Rejection>)
      ensures r == NormalizeSkills(h, skills, {})
    {
      hide NormalizeSkill;
      var done: seq<Skill> := [];
      var seen: set<string> := {};
      var i := 0;
      AfterNone(NormalizeSkills(h, skills, {}));
      assert skills[0..] == skills;
      while i < |skills|
        invariant 0 <= i <= |skills|
        invariant NormalizeSkills(h, skills, {}) == After(done, NormalizeSkills(h, skills[i..], seen))
      {
        var one := NormalizeSkill(h, skills[i]);
        assert skills[i..][0] == skills[i] && skills[i..][1..] == skills[i + 1..];
        if one.Failure? { return Failure(one.error); }
        if one.value.id in seen { return Failure(InvalidTemplate); }
        AfterNext(done, one.value, NormalizeSkills(h, skills[i + 1..], seen + {one.value.id}));
        done, seen, i := done + [one.value], seen + {one.value.id}, i + 1;
      }
      assert done + [] == done;
      return Success(done);
    }

    static method NormalizedServers(h: Host, servers: seq<Server>) returns (r: Result<seq<Server>, Rejection>)
      ensures r == NormalizeServers(h, servers, {})
    {
      hide NormalizeServer;
      var done: seq<Server> := [];
      var seen: set<string> := {};
      var i := 0;
      AfterNone(NormalizeServers(h, servers, {}));
      assert servers[0..] == servers;
      while i < |servers|
        invariant 0 <= i <= |servers|
        invariant NormalizeServers(h, servers, {}) == After(done, NormalizeServers(h, servers[i..], seen))
      {
        assert servers[i..][0] == servers[i] && servers[i..][1..] == servers[i + 1..];
        if servers[i].name in seen { return Failure(InvalidTemplate); }
        var one := NormalizeServer(h, servers[i]);
        if one.Failure? { return Failure(one.error); }
        AfterNext(done, one.value, NormalizeServers(h, servers[i + 1..], seen + {one.value.name}));
        done, seen, i := done + [one.value], seen + {one.value.name}, i + 1;
      }
      assert done + [] == done;
      return Success(done);
    }

    static method NormalizedTools(h: Host, tools: seq<Toolset>) returns (r: Result<seq<Toolset>, Rejection>)
      ensures r == NormalizeTools(h, tools, {})
    {
      hide NormalizeTool;
      var done: seq<Toolset> := [];
      var seen: set<string> := {};
      var i := 0;
      AfterNone(NormalizeTools(h, tools, {}));
      assert tools[0..] == tools;
      while i < |tools|
        invariant 0 <= i <= |tools|
        invariant NormalizeTools(h, tools, {}) == After(done, NormalizeTools(h, tools[i..], seen))
      {
        assert tools[i..][0] == tools[i] && tools[i..][1..] == tools[i + 1..];
        if tools[i].id in seen { return Failure(InvalidTemplate); }
        var one := NormalizeTool(h, tools[i]);
        if one.Failure? { return Failure(one.error); }
        AfterNext(done, one.value, NormalizeTools(h, tools[i + 1..], seen + {one.value.id}));
        done, seen, i := done + [one.value], seen + {one.value.id}, i + 1;
      }
      assert done + [] == done;
      return Success(done);
    }

    method WriteTemplate(d: Document, expected: Option<string>) returns (r: Result<Document, StoreError>)
      modifies this
      ensures (files, r) == WriteFile(h, old(files), d, expected)
    {
      hide Normalize;
      var current := ReadFile(h, files, d.id);
      if current.Success? {
        if expected.None? || expected.value != h.revision(current.value) { return Failure(TemplateConflict); }
        if current.value.source != d.source { return Failure(TemplateConflict); }
      } else if current.error != NotFound {
        return Failure(current.error);
      } else if expected.Some? {
        return Failure(TemplateConflict);
      }
      if h.size(d) > MAX_TEMPLATE_BYTES { return Failure(Rejected(TooLarge)); }
      files := files[d.id := Canonical(d)];
      r := ReadFile(h, files, d.id);
      if r.Success? && r.value != d { return Failure(TemplateChanged); }
    }

    method SaveTemplate(agent: string, raw: Document, expected: Option<string>) returns (r: Result<Document, StoreError>)
      modifies this
      ensures (files, r) == Save(h, old(files), agent, raw, expected)
    {
      hide Normalize;
      var d := Normalize(h, raw, Some(agent));
      if d.Failure? { return Failure(Rejected(d.error)); }
      r := WriteTemplate(d.value, expected);
    }
  }

  // What is done so far, then the rest, unless the rest fails.
  function After<T>(done: seq<T>, rest: Result<seq<T>, Rejection>): Result<seq<T>, Rejection> {
    match rest
    case Success(s) => Success(done + s)
    case Failure(e) => Failure(e)
  }

  lemma AfterNone<T>(rest: Result<seq<T>, Rejection>)
    ensures After([], rest) == rest
  {
    if rest.Success? {
      assert [] + rest.value == rest.value;
    }
  }

  lemma AfterNext<T>(done: seq<T>, one: T, rest: Result<seq<T>, Rejection>)
    ensures After(done, match rest case Success(s) => Success([one] + s) case Failure(e) => Failure(e)) == After(done + [one], rest)
  {
    if rest.Success? {
      assert done + ([one] + rest.value) == done + [one] + rest.value;
    }
  }

  // ---- What a save leaves ----

  /**
    An accepted save reads back as exactly what was saved, and touches no other template. It either
    created the template, with no revision named, or replaced the document whose revision was named,
    keeping its source.
  */
  lemma AcceptedSave(h: Host, f: Folder, agent: string, raw: Document, expected: Option<string>)
    requires Save(h, f, agent, raw, expected).1.Success?
    ensures var (f', r) := Save(h, f, agent, raw, expected);
      && f' == f[raw.id := Canonical(r.value)] && ReadFile(h, f', raw.id) == r && r.value.id == raw.id
      && Normalize(h, raw, Some(agent)) == Success(r.value)
      && (match ReadFile(h, f, raw.id)
          case Success(current) => expected == Some(h.revision(current)) && current.source == r.value.source
          case Failure(e) => e == NotFound && expected == None)
  {
    hide Normalize;
    NormalizeKeepsId(h, raw, Some(agent));
  }

  lemma NormalizeKeepsId(h: Host, raw: Document, agent: Option<string>)
    ensures Normalize(h, raw, agent).Success? ==> Normalize(h, raw, agent).value.id == raw.id && Normalize(h, raw, agent).value.source == raw.source
  {
    hide NormalizeSkills, NormalizeServers, NormalizeTools, NormalizeConfig, CleanText, IdentifierSet;
  }

  /**
    A refused save leaves the folder as it was, with one exception: a document with an unstable URL
    that nothing else stands in the way of. That one is written, and only then found unreadable.
  */
  lemma RefusedSave(h: Host, f: Folder, agent: string, raw: Document, expected: Option<string>)
    requires Sane(h) && Save(h, f, agent, raw, expected).1.Failure?
    ensures var (f', r) := Save(h, f, agent, raw, expected);
      var writes := Normalize(h, raw, Some(agent)).Success? && Obstacle(h, f, Normalize(h, raw, Some(agent)).value, expected).None?;
      && (!writes ==> f' == f)
      && (writes ==> !UrlsStable(h, raw.mcpServers) && f' == f[raw.id := Canonical(Normalize(h, raw, Some(agent)).value)]
                     && ReadFile(h, f', raw.id) == r && r != Failure(NotFound))
  {
    if Normalize(h, raw, Some(agent)).Success? {
      NormalizeAgain(h, raw, Some(agent));
      NormalizeSize(h, raw, Some(agent));
      hide Normalize;
      hide UrlsStable;
    }
  }

  lemma NormalizeSize(h: Host, raw: Document, agent: Option<string>)
    ensures Normalize(h, raw, agent).Success? ==> h.size(Normalize(h, raw, agent).value) <= MAX_TEMPLATE_BYTES
  {
    hide NormalizeSkills, NormalizeServers, NormalizeTools, NormalizeConfig, CleanText, IdentifierSet;
  }

  /**
    Exactly which saves are accepted: those of an acceptable document with stable URLs that name no revision
    and find no file, or find a readable document of the named revision and the same source.
  */
  lemma SaveIff(h: Host, f: Folder, agent: string, raw: Document, expected: Option<string>)
    requires Sane(h)
    ensures Save(h, f, agent, raw, expected).1.Success? <==>
              && Normalize(h, raw, Some(agent)).Success? && UrlsStable(h, raw.mcpServers)
              && if raw.id !in f then expected == None
                 else ReadFile(h, f, raw.id).Success? && f[raw.id].Canonical?
                      && expected == Some(h.revision(f[raw.id].document)) && f[raw.id].document.source == raw.source
  {
    hide Normalize;
    if Normalize(h, raw, Some(agent)).Success? {
      var d := Normalize(h, raw, Some(agent)).value;
      NormalizeAgain(h, raw, Some(agent));
      NormalizeSize(h, raw, Some(agent));
      hide UrlsStable, Sane;
      NothingInTheWay(h, f, d, expected);
      WrittenIff(h, f, d, expected);
      hide WriteFile, ReadFile, Obstacle;
    }
  }

  lemma NothingInTheWay(h: Host, f: Folder, d: Document, expected: Option<string>)
    ensures Obstacle(h, f, d, expected).None? <==>
              if d.id !in f then expected == None
              else ReadFile(h, f, d.id).Success? && f[d.id].Canonical?
                   && expected == Some(h.revision(f[d.id].document)) && f[d.id].document.source == d.source
  {
    hide Normalize;
    MissingMeansAbsent(h, f, d.id);
    if ReadFile(h, f, d.id).Success? {
      ReadIsStored(h, f, d.id);
    }
    hide ReadFile;
  }

  // A document of permitted size is written unless something stands in the way, and then read back if it normalises to itself.
  lemma WrittenIff(h: Host, f: Folder, d: Document, expected: Option<string>)
    requires h.size(d) <= MAX_TEMPLATE_BYTES && (Normalize(h, d, None).Success? ==> Normalize(h, d, None) == Success(d))
    ensures WriteFile(h, f, d, expected).1.Success? <==> Obstacle(h, f, d, expected).None? && Normalize(h, d, None).Success?
  {
    hide Normalize, Obstacle;
  }

  // ---- Runs of saves ----

  // One save of one of any number of clients; the folder lock puts them in order.
  datatype SaveRequest = SaveRequest(agent: string, raw: Document, expected: Option<string>)

  // An accepted save: what it replaced, and what it stored.
  datatype Saved = Saved(id: string, replaced: Option<Document>, stored: Document)

  datatype Store = Store(files: Folder, log: seq<Saved>)

  function AfterSave(h: Host, s: Store, q: SaveRequest): Store {
    var (f', r) := Save(h, s.files, q.agent, q.raw, q.expected);
    Store(f', if r.Failure? then s.log
              else s.log + [Saved(q.raw.id, ReadFile(h, s.files, q.raw.id).Ok(), r.value)])
  }

  function Run(h: Host, s: Store, qs: seq<SaveRequest>): Store
    decreases |qs|
  {
    if qs == [] then s else Run(h, AfterSave(h, s, qs[0]), qs[1..])
  }

  // The last accepted save of a template.
  function Last(log: seq<Saved>, id: string): Option<Document>
    decreases |log|
  {
    if log == [] then None
    else if log[|log| - 1].id == id then Some(log[|log| - 1].stored)
    else Last(log[..|log| - 1], id)
  }

  // Every save replaced exactly what the save before it had stored.
  ghost predicate Chain(log: seq<Saved>)
    decreases |log|
  {
    log == [] || (Chain(log[..|log| - 1]) && log[|log| - 1].replaced == Last(log[..|log| - 1], log[|log| - 1].id))
  }

  // What can be read is the last accepted save; a template never saved is not there, or cannot be read.
  ghost predicate Current(h: Host, s: Store) {
    forall id :: id in s.files ==>
      (ReadFile(h, s.files, id).Success? ==> Last(s.log, id) == Some(ReadFile(h, s.files, id).value))
  }

  ghost predicate Logged(s: Store) { forall id :: id !in s.files ==> Last(s.log, id) == None }

  lemma LastAfter(log: seq<Saved>, entry: Saved, id: string)
    ensures Last(log + [entry], id) == if entry.id == id then Some(entry.stored) else Last(log, id)
  {
    assert (log + [entry])[..|log|] == log;
  }

  // A save speaks of one file only.
  lemma SaveElsewhere(h: Host, f: Folder, q: SaveRequest, id: string)
    requires id != q.raw.id
    ensures var f' := Save(h, f, q.agent, q.raw, q.expected).0;
      (id in f' <==> id in f) && (id in f ==> f'[id] == f[id]) && ReadFile(h, f', id) == ReadFile(h, f, id)
  {
    NormalizeKeepsId(h, q.raw, Some(q.agent));
    hide Normalize;
  }

  // A refused save does not make a file readable.
  lemma RefusedReads(h: Host, f: Folder, q: SaveRequest)
    requires Sane(h) && Save(h, f, q.agent, q.raw, q.expected).1.Failure?
    ensures var f' := Save(h, f, q.agent, q.raw, q.expected).0;
      (ReadFile(h, f', q.raw.id).Success? ==> f' == f) && (q.raw.id !in f' ==> f' == f)
  {
    RefusedSave(h, f, q.agent, q.raw, q.expected);
    hide Normalize;
    hide UrlsStable;
  }

  lemma SaveChains(h: Host, s: Store, q: SaveRequest)
    requires Sane(h) && Chain(s.log) && Current(h, s) && Logged(s)
    ensures var s' := AfterSave(h, s, q); Chain(s'.log) && Current(h, s') && Logged(s')
  {
    hide Normalize, ReadFile;
    var s' := AfterSave(h, s, q);
    var r := Save(h, s.files, q.agent, q.raw, q.expected).1;
    forall id | id != q.raw.id
      ensures (id in s'.files <==> id in s.files) && ReadFile(h, s'.files, id) == ReadFile(h, s.files, id)
    {
      SaveElsewhere(h, s.files, q, id);
    }
    if r.Success? {
      AcceptedSave(h, s.files, q.agent, q.raw, q.expected);
      var entry := Saved(q.raw.id, ReadFile(h, s.files, q.raw.id).Ok(), r.value);
      forall id ensures Last(s'.log, id) == if entry.id == id then Some(entry.stored) else Last(s.log, id) {
        LastAfter(s.log, entry, id);
      }
      assert s'.log[..|s.log|] == s.log;
      MissingMeansAbsent(h, s.files, q.raw.id);
    } else {
      RefusedReads(h, s.files, q);
    }
  }

  lemma MissingMeansAbsent(h: Host, f: Folder, id: string)
    ensures ReadFile(h, f, id) == Failure(NotFound) <==> id !in f
  {
    hide Normalize;
  }

  /**
    No lost update: over every run of saves by any clients, each accepted save of a template replaced
    exactly the document the last accepted save had stored, or created it when there was none.
  */
  lemma {:induction false} NoUpdateIsLost(h: Host, s: Store, qs: seq<SaveRequest>)
    requires Sane(h) && Chain(s.log) && Current(h, s) && Logged(s)
    ensures Chain(Run(h, s, qs).log) && Current(h, Run(h, s, qs)) && Logged(Run(h, s, qs))
    decreases |qs|
  {
    if qs != [] {
      SaveChains(h, s, qs[0]);
      NoUpdateIsLost(h, AfterSave(h, s, qs[0]), qs[1..]);
    }
  }

  // ---- What no save changes ----

  lemma SaveKeepsSource(h: Host, f: Folder, q: SaveRequest, id: string)
    requires Sane(h) && id in f && f[id].Canonical?
    ensures var f' := Save(h, f, q.agent, q.raw, q.expected).0;
      id in f' && f'[id].Canonical? && (ReadFile(h, f, id).Success? ==> f'[id].document.source == f[id].document.source)
      && (ReadFile(h, f, id).Failure? ==> f'[id] == f[id])
  {
    hide Normalize;
    NormalizeKeepsId(h, q.raw, Some(q.agent));
    MissingMeansAbsent(h, f, id);
    if ReadFile(h, f, id).Success? {
      ReadIsStored(h, f, id);
    }
  }

  lemma ReadIsStored(h: Host, f: Folder, id: string)
    requires ReadFile(h, f, id).Success?
    ensures id in f && f[id] == Canonical(ReadFile(h, f, id).value)
  {
    hide Normalize;
  }

  /** The source of a stored template is the same after any run of saves. */
  lemma {:induction false} SourceIsForever(h: Host, s: Store, qs: seq<SaveRequest>, id: string)
    requires Sane(h) && id in s.files && s.files[id].Canonical?
    ensures var f' := Run(h, s, qs).files;
      id in f' && f'[id].Canonical? && f'[id].document.source == s.files[id].document.source
    decreases |qs|
  {
    if qs != [] {
      SaveKeepsSource(h, s.files, qs[0], id);
      SourceIsForever(h, AfterSave(h, s, qs[0]), qs[1..], id);
    }
  }

  /**
    The price of an unstable URL: once such a document is written, its template can never be read nor
    saved again by any run of saves; the file stays as it is until it is repaired on the host.
  */
  lemma {:induction false} UnreadableForever(h: Host, s: Store, qs: seq<SaveRequest>, id: string)
    requires Sane(h) && id in s.files && ReadFile(h, s.files, id).Failure?
    ensures var f' := Run(h, s, qs).files;
      id in f' && f'[id] == s.files[id] && ReadFile(h, f', id) == ReadFile(h, s.files, id)
    decreases |qs|
  {
    if qs != [] {
      UnreadableStays(h, s.files, qs[0], id);
      UnreadableForever(h, AfterSave(h, s, qs[0]), qs[1..], id);
    }
  }

  lemma UnreadableStays(h: Host, f: Folder, q: SaveRequest, id: string)
    requires id in f && ReadFile(h, f, id).Failure?
    ensures var (f', r) := Save(h, f, q.agent, q.raw, q.expected);
      id in f' && f'[id] == f[id] && ReadFile(h, f', id) == ReadFile(h, f, id) && (q.raw.id == id ==> r.Failure?)
  {
    NormalizeKeepsId(h, q.raw, Some(q.agent));
    MissingMeansAbsent(h, f, id);
    hide Normalize;
  }
}
