/**
  The one argv builder of `ccrc account` (shared/account-argv.ts): untrusted typed fields printed into a word list,
  and what of them the list still tells.
*/
module AccountArgv {
  import opened ClaudeVersion
  import opened Decimals
  import opened Wrappers

  datatype Sub =
    | Add | AuthStart | AuthCode | AuthCancel | Set | Check | Enable | Disable | Credential | Remove | Roster
    | OrManagementRemove | OrManagementLower

  /** A field's name; any other name is `Unknown`. */
  datatype Key =
    | Provider | Method | Label | Hue | Placement | Models | Limit | LimitReset | ExpiresIn | Adopt | AttemptId
    | Retire | LiveAck | SignOut | Mode | DeleteCodexAuth | KeepCodexAuth | Ceiling
    | Unknown(name: string)

  datatype Spelling = Spelling(value: string, word: string)

  /** A field's grammar. `spell` gives one of its values a word of its own. */
  datatype Rule =
    | Enum(values: seq<string>, spell: Option<Spelling>)
    | LabelRule | Dollars | Attempt | ModelList | Flag

  datatype FieldSpec = FieldSpec(key: Key, rule: Rule, required: bool)

  datatype Stdin = Never | Optional | Required

  datatype SubSpec = SubSpec(
    cli: seq<string>, lane: bool, stdin: Stdin, fixed: seq<string>, stdinFlag: Option<string>, fields: seq<FieldSpec>)

  /** An untrusted value: a string, or anything else. */
  datatype Value = Text(text: string) | NotText

  /** The untrusted input. `lane` is `None` for null; `fields` is `None` for anything but a plain object. */
  datatype Input = Input(sub: Option<Sub>, lane: Option<Value>, fields: Option<map<Key, Value>>, hasStdin: bool)

  datatype Refusal = BadSub | BadId | BadField

  datatype Built = Argv(words: seq<string>) | Refused(why: Refusal)

  // ── the table ─────────────────────────────────────────────────────────────────────────────────

  function FlagText(k: Key): string {
    match k
    case Provider => "--provider"
    case Method => "--method"
    case Label => "--label"
    case Hue => "--hue"
    case Placement => "--placement"
    case Models => "--models"
    case Limit => "--limit"
    case LimitReset => "--limit-reset"
    case ExpiresIn => "--expires-in"
    case Adopt => "--adopt"
    case AttemptId => "--attempt"
    case Retire => "--retire"
    case LiveAck => "--live-ack"
    case SignOut => "--sign-out"
    case Mode => "--mode"
    case DeleteCodexAuth => "--delete-codex-auth"
    case KeepCodexAuth => "--keep-codex-auth"
    case Ceiling => "--usd"
    case Unknown(_) => ""
  }

  const DRY_RUN := "--dry-run"
  const LOWER_ONLY := "--lower-only"
  const STATED_STDIN := "--stated=-"
  const CREDENTIAL_STDIN := "--credential=-"

  function Values(values: seq<string>): Rule {
    Enum(values, None)
  }

  function Opt(key: Key, rule: Rule): FieldSpec {
    FieldSpec(key, rule, false)
  }

  const PLACEMENT_FIELD := Opt(Placement, Values(["overflow", "full"]))
  const LIMIT_FIELD := Opt(Limit, Dollars)
  const LIMIT_RESET_FIELD := Opt(LimitReset, Values(["daily", "weekly", "monthly", "never"]))
  const ATTEMPT_FIELD := FieldSpec(AttemptId, Attempt, true)

  function FieldsOf(s: Sub): seq<FieldSpec> {
    match s
    case Add => [
      FieldSpec(Provider, Values(["anthropic", "openai", "openrouter"]), true),
      Opt(Method, Values(["login", "paste", "setup-token", "mint", "pkce"])),
      Opt(Label, LabelRule),
      Opt(Hue, Values(["cyan", "violet", "blue", "magenta", "amber", "green"])),
      PLACEMENT_FIELD, Opt(Models, ModelList), LIMIT_FIELD, LIMIT_RESET_FIELD,
      Opt(ExpiresIn, Values(["90d", "365d", "never"])), Opt(Adopt, Flag)]
    case AuthStart => [
      FieldSpec(Method, Values(["login", "setup-token", "openai-login", "openrouter-pkce"]), true), ATTEMPT_FIELD]
    case AuthCode => [ATTEMPT_FIELD]
    case AuthCancel => [ATTEMPT_FIELD]
    case Set => [PLACEMENT_FIELD, LIMIT_FIELD, LIMIT_RESET_FIELD]
    case Credential => [Opt(Method, Values(["mint"])), Opt(Retire, Flag), Opt(LiveAck, Flag), Opt(SignOut, Flag)]
    case Remove => [
      Opt(Mode, Enum(["remove", "discard", "check"], Some(Spelling("check", DRY_RUN)))),
      Opt(DeleteCodexAuth, Flag), Opt(KeepCodexAuth, Flag)]
    case OrManagementLower => [FieldSpec(Ceiling, Dollars, true)]
    case _ => []
  }

  function CliOf(s: Sub): seq<string> {
    match s
    case Add => ["add"]
    case AuthStart => ["auth-start"]
    case AuthCode => ["auth-code"]
    case AuthCancel => ["auth-cancel"]
    case Set => ["set"]
    case Check => ["check"]
    case Enable => ["enable"]
    case Disable => ["disable"]
    case Credential => ["credential"]
    case Remove => ["remove"]
    case Roster => ["roster"]
    case OrManagementRemove => ["openrouter-management", "remove"]
    case OrManagementLower => ["openrouter-management", "ceiling"]
  }

  /** `ACCOUNT_SUB_ARGV`. */
  function SpecOf(s: Sub): SubSpec {
    SubSpec(
      CliOf(s),
      !(s.Roster? || s.OrManagementRemove? || s.OrManagementLower?),
      if s.Add? || s.Set? || s.Credential? then Optional else if s.AuthCode? then Required else Never,
      if s.OrManagementLower? then [LOWER_ONLY] else [],
      if s.Add? || s.Credential? then Some(CREDENTIAL_STDIN) else if s.Set? then Some(STATED_STDIN) else None,
      FieldsOf(s))
  }

  // ── the grammars ──────────────────────────────────────────────────────────────────────────────

  predicate AlphaNum(c: char) {
    '0' <= c <= '9' || 'a' <= c <= 'z' || 'A' <= c <= 'Z'
  }

  /** `isAccountLaneId`. */
  predicate LaneId(v: string) {
    && 1 <= |v| <= 64 && (forall c <- v :: AlphaNum(c) || c in "._-")
    && v[0] != '-' && v != "." && v != ".."
  }

  predicate Separator(c: char) {
    c == '/' || c == '\\'
  }

  predicate DotDotAt(v: string, i: nat)
    requires i + 2 <= |v|
  {
    v[i] == '.' && v[i + 1] == '.' && (i == 0 || Separator(v[i - 1])) && (i + 2 == |v| || Separator(v[i + 2]))
  }

  /** A `..` path segment. */
  predicate DotDotSegment(v: string) {
    exists i: nat | i <= |v| - 2 :: DotDotAt(v, i)
  }

  /** `globallyOk`. */
  predicate GloballyOk(v: Value) {
    && v.Text? && v.text != "" && (forall c <- v.text :: ' ' <= c && c != 127 as char)
    && v.text[0] != '-' && !DotDotSegment(v.text)
  }

  /** `DOLLARS_RE` and the ceiling of 100000: one to five digits with no leading zero, or that very figure. */
  predicate DollarsOk(v: string) {
    && v != "" && Digits(v) && v[0] != '0'
    && (|v| <= 5 || v == "100000")
  }

  function SplitCommas(s: string): (parts: seq<string>)
    ensures parts != []
  {
    if s == [] then [""]
    else
      var rest := SplitCommas(s[1..]);
      if s[0] == ',' then [""] + rest else [[s[0]] + rest[0]] + rest[1..]
  }

  predicate ModelId(m: string) {
    1 <= |m| <= 128 && AlphaNum(m[0]) && forall c <- m :: AlphaNum(c) || c in "._:/-"
  }

  predicate ModelsOk(v: string) {
    var ids := SplitCommas(v);
    |ids| <= 16 && (forall m <- ids :: ModelId(m)) && forall i, j | 0 <= i < j < |ids| :: ids[i] != ids[j]
  }

  /** `valueOk`; a string is counted in code points. */
  predicate ValueOk(rule: Rule, v: string) {
    match rule
    case Enum(values, _) => v in values
    case LabelRule => 1 <= |v| <= 64
    case Dollars => DollarsOk(v)
    case Attempt => |v| == 32 && forall c <- v :: c in "0123456789abcdef"
    case ModelList => ModelsOk(v)
    case Flag => v == "true"
  }

  // ── the builder ───────────────────────────────────────────────────────────────────────────────

  predicate Spelled(rule: Rule) {
    rule.Enum? && rule.spell.Some?
  }

  /** The word a field's accepted value is written as. */
  function WordOf(f: FieldSpec, v: string): string {
    if f.rule.Flag? then FlagText(f.key)
    else if Spelled(f.rule) && v == f.rule.spell.value.value then f.rule.spell.value.word
    else FlagText(f.key) + "=" + v
  }

  /** The words of the fields, in the table's order; `None` where one is refused. */
  function FieldWords(fields: seq<FieldSpec>, given: map<Key, Value>): Option<seq<string>> {
    if fields == [] then Some([])
    else
      var f := fields[0];
      var rest := FieldWords(fields[1..], given);
      if f.key !in given then if f.required then None else rest
      else if !GloballyOk(given[f.key]) || !ValueOk(f.rule, given[f.key].text) then None
      else if rest.None? then None
      else Some([WordOf(f, given[f.key].text)] + rest.value)
  }

  predicate Takes(fields: seq<FieldSpec>, k: Key) {
    exists f <- fields :: f.key == k
  }

  function LaneWords(spec: SubSpec, lane: Option<Value>): seq<string> {
    if spec.lane && lane.Some? && lane.value.Text? then ["--id=" + lane.value.text] else []
  }

  /** The lane is given as the sub wants it. */
  predicate LaneFits(spec: SubSpec, lane: Option<Value>) {
    if spec.lane then lane.Some? && lane.value.Text? && LaneId(lane.value.text) else lane.None?
  }

  predicate StdinFits(spec: SubSpec, hasStdin: bool) {
    !(spec.stdin == Never && hasStdin) && !(spec.stdin == Required && !hasStdin)
  }

  function StdinWords(spec: SubSpec, hasStdin: bool): seq<string> {
    if spec.stdinFlag.Some? && hasStdin then [spec.stdinFlag.value] else []
  }

  /** What the builder answers. */
  function BuiltFrom(i: Input): Built {
    if i.sub.None? then Refused(BadSub)
    else
      var spec := SpecOf(i.sub.value);
      if !LaneFits(spec, i.lane) then Refused(BadId)
      else if i.fields.None? || (exists k <- i.fields.value :: !Takes(spec.fields, k)) || !StdinFits(spec, i.hasStdin) then
        Refused(BadField)
      else
        var words := FieldWords(spec.fields, i.fields.value);
        if words.None? then Refused(BadField)
        else Argv(["account"] + spec.cli + LaneWords(spec, i.lane) + words.value
                  + StdinWords(spec, i.hasStdin) + spec.fixed)
  }

  /** `buildAccountArgv`: words pushed in a loop over the table. */
  method Build(i: Input) returns (b: Built)
    ensures b == BuiltFrom(i)
  {
    if i.sub.None? {
      return Refused(BadSub);
    }
    var spec := SpecOf(i.sub.value);
    if !LaneFits(spec, i.lane) {
      return Refused(BadId);
    }
    if i.fields.None? {
      return Refused(BadField);
    }
    var given := i.fields.value;
    if exists k <- given :: !Takes(spec.fields, k) {
      return Refused(BadField);
    }
    if !StdinFits(spec, i.hasStdin) {
      return Refused(BadField);
    }
    var argv := ["account"] + spec.cli + LaneWords(spec, i.lane);
    var pushed := PushFields(argv, spec.fields, given);
    return if pushed.None? then Refused(BadField)
           else Argv(pushed.value + StdinWords(spec, i.hasStdin) + spec.fixed);
  }

  /** The loop over the table: one word pushed for each field given. */
  method PushFields(start: seq<string>, fields: seq<FieldSpec>, given: map<Key, Value>) returns (r: Option<seq<string>>)
    ensures r == Onto(start, FieldWords(fields, given))
  {
    var argv := start;
    var n := 0;
    while n < |fields|
      invariant n <= |fields|
      invariant Onto(start, FieldWords(fields, given)) == Onto(argv, FieldWords(fields[n..], given))
    {
      var f := fields[n];
      assert fields[n..][1..] == fields[n + 1..];
      if f.key in given {
        var v := given[f.key];
        if !GloballyOk(v) || !ValueOk(f.rule, v.text) {
          return None;
        }
        OntoOne(argv, WordOf(f, v.text), FieldWords(fields[n + 1..], given));
        argv := argv + [WordOf(f, v.text)];
      } else if f.required {
        return None;
      }
      n := n + 1;
    }
    assert argv + [] == argv;
    return Some(argv);
  }

  function Onto(argv: seq<string>, more: Option<seq<string>>): Option<seq<string>> {
    if more.Some? then Some(argv + more.value) else None
  }

  lemma OntoOne(argv: seq<string>, word: string, more: Option<seq<string>>)
    ensures more.Some? ==> Onto(argv, Some([word] + more.value)) == Onto(argv + [word], more)
  {
    if more.Some? {
      assert argv + ([word] + more.value) == (argv + [word]) + more.value;
    }
  }

  // ── what is refused ───────────────────────────────────────────────────────────────────────────

  /** What the caller gave of a field is one it may have, and a required one is given. */
  predicate FieldFits(f: FieldSpec, given: map<Key, Value>) {
    && (f.required ==> f.key in given)
    && (f.key in given ==> GloballyOk(given[f.key]) && ValueOk(f.rule, given[f.key].text))
  }

  lemma {:induction false} FieldsFitIff(fields: seq<FieldSpec>, given: map<Key, Value>)
    ensures FieldWords(fields, given).Some? <==> forall f <- fields :: FieldFits(f, given)
  {
    if fields != [] {
      FieldsFitIff(fields[1..], given);
      assert fields[0] in fields;
      assert forall f <- fields :: f == fields[0] || f in fields[1..];
    }
  }

  /** Each refusal is the first that stands: of the sub; of a lane missing, malformed or not wanted; and of the fields,
      exactly where one is not the sub's own, a required one is missing, one has a value outside its grammar, or stdin
      rides where the sub takes none or not where it must. Anything else is built. */
  lemma RefusedIff(i: Input)
    ensures BuiltFrom(i) == Refused(BadSub) <==> i.sub.None?
    ensures BuiltFrom(i) == Refused(BadId) <==> i.sub.Some? && !LaneFits(SpecOf(i.sub.value), i.lane)
    ensures
      BuiltFrom(i) == Refused(BadField) <==>
        && i.sub.Some? && LaneFits(SpecOf(i.sub.value), i.lane)
        && (|| i.fields.None?
            || (exists k <- i.fields.value :: forall f <- FieldsOf(i.sub.value) :: f.key != k)
            || (exists f <- FieldsOf(i.sub.value) :: !FieldFits(f, i.fields.value))
            || (if i.hasStdin then SpecOf(i.sub.value).stdin == Never else SpecOf(i.sub.value).stdin == Required))
  {
    if i.sub.Some? && i.fields.Some? {
      FieldsFitIff(FieldsOf(i.sub.value), i.fields.value);
    }
  }

  /** Dollars are a figure from 1 to 100000 with no zero in front, and any such figure is taken. */
  lemma DollarsAreBounded(v: string)
    ensures DollarsOk(v) <==> v != "" && Digits(v) && v[0] != '0' && 1 <= Decimals.Value(v) <= 100000
  {
    if v != "" && Digits(v) && v[0] != '0' {
      CeilingIs();
      LeadingIsPositive(v);
      PartsCompareAsNumbers("100000", v);
      if |v| == 6 {
        assert "100000"[1..] == "00000";
        NothingIsBelowZeros("00000", v[1..]);
      }
    }
  }

  lemma CeilingIs()
    ensures Digits("100000") && Decimals.Value("100000") == 100000
  {
    assert "100000"[..5] == "10000" && "10000"[..4] == "1000" && "1000"[..3] == "100" && "100"[..2] == "10" && "10"[..1] == "1";
    assert Decimals.Value("100") == 100 && Decimals.Value("10000") == 10000;
  }

  lemma {:induction false} NothingIsBelowZeros(zeros: string, v: string)
    requires |zeros| == |v| && Digits(v) && forall i | 0 <= i < |zeros| :: zeros[i] == '0'
    ensures !LexGreater(zeros, v)
  {
    if v != "" {
      NothingIsBelowZeros(zeros[1..], v[1..]);
    }
  }

  function FirstSeparator(v: string): (k: nat)
    ensures k <= |v| && (forall j | 0 <= j < k :: !Separator(v[j])) && (k < |v| ==> Separator(v[k]))
  {
    if v == "" || Separator(v[0]) then 0 else 1 + FirstSeparator(v[1..])
  }

  /** A path's segments. */
  function Segments(v: string): seq<string> {
    var k := FirstSeparator(v);
    if k == |v| then [v] else [v[..k]] + Segments(v[k + 1..])
  }

  /** After a separator, the rest is a path of its own. */
  lemma DotDotAfter(v: string, k: nat, i: nat)
    requires k < |v| && Separator(v[k]) && k < i && i + 2 <= |v|
    ensures DotDotAt(v, i) <==> DotDotAt(v[k + 1..], i - k - 1)
  {
  }

  lemma DotDotFirst(v: string, i: nat)
    requires i + 2 <= |v| && i <= FirstSeparator(v)
    ensures DotDotAt(v, i) ==> i == 0 && v[..FirstSeparator(v)] == ".."
  {
  }

  /** What the pattern finds is a segment that is `..` and nothing else. */
  lemma {:induction false} DotDotIsASegment(v: string)
    ensures DotDotSegment(v) <==> ".." in Segments(v)
  {
    var k := FirstSeparator(v);
    assert v[..|v|] == v;
    if v[..k] == ".." {
      assert v[..k][0] == '.' && v[..k][1] == '.';
      assert DotDotAt(v, 0);
    }
    forall i: nat | i <= |v| - 2 && i <= k ensures DotDotAt(v, i) ==> v[..k] == ".." {
      DotDotFirst(v, i);
    }
    if k < |v| {
      DotDotIsASegment(v[k + 1..]);
      DotDotLater(v, k);
    }
  }

  lemma DotDotLater(v: string, k: nat)
    requires k < |v| && Separator(v[k])
    ensures DotDotSegment(v[k + 1..]) <==> exists i: nat | i <= |v| - 2 :: i > k && DotDotAt(v, i)
  {
    var rest := v[k + 1..];
    forall i: nat | k < i <= |v| - 2 ensures DotDotAt(v, i) <==> DotDotAt(rest, i - k - 1) {
      DotDotAfter(v, k, i);
    }
    if DotDotSegment(rest) {
      var i: nat :| i <= |rest| - 2 && DotDotAt(rest, i);
      DotDotAfter(v, k, i + k + 1);
      assert DotDotAt(v, i + k + 1);
    }
  }

  // ── the words that open with one flag ─────────────────────────────────────────────────────────

  /** Every flag the builder can write. */
  datatype Head = OfKey(key: Key) | DryRun | LowerOnly | StatedHead | CredentialHead

  predicate Known(h: Head) {
    h.OfKey? ==> !h.key.Unknown?
  }

  function TextOf(h: Head): string {
    match h
    case OfKey(k) => FlagText(k)
    case DryRun => DRY_RUN
    case LowerOnly => LOWER_ONLY
    case StatedHead => "--stated"
    case CredentialHead => "--credential"
  }

  /** A flag told by its length and two of its letters. */
  datatype Tag = Tag(length: nat, a: char, b: char)

  function TagOf(h: Head): Tag {
    match h
    case DryRun => Tag(9, 'd', 'r')
    case LowerOnly => Tag(12, 'l', 'o')
    case StatedHead => Tag(8, 's', 't')
    case CredentialHead => Tag(12, 'c', 'r')
    case OfKey(k) =>
      match k
      case Provider => Tag(10, 'p', 'r')
      case Method => Tag(8, 'm', 'e')
      case Label => Tag(7, 'l', 'a')
      case Hue => Tag(5, 'h', 'u')
      case Placement => Tag(11, 'p', 'l')
      case Models => Tag(8, 'm', 'o')
      case Limit => Tag(7, 'l', 'i')
      case LimitReset => Tag(13, 'l', 'i')
      case ExpiresIn => Tag(12, 'e', 'x')
      case Adopt => Tag(7, 'a', 'd')
      case AttemptId => Tag(9, 'a', 't')
      case Retire => Tag(8, 'r', 'e')
      case LiveAck => Tag(10, 'l', 'i')
      case SignOut => Tag(10, 's', 'i')
      case Mode => Tag(6, 'm', 'o')
      case DeleteCodexAuth => Tag(19, 'd', 'e')
      case KeepCodexAuth => Tag(17, 'k', 'e')
      case Ceiling => Tag(5, 'u', 's')
      case Unknown(_) => Tag(0, ' ', ' ')
  }

  /** The flag a tag tells. */
  function HeadOf(t: Tag): Head {
    if t.length == 9 then if t.a == 'd' then DryRun else OfKey(AttemptId)
    else if t.length == 12 then if t.a == 'l' then LowerOnly else if t.a == 'c' then CredentialHead else OfKey(ExpiresIn)
    else if t.length == 8 then
      if t.a == 's' then StatedHead else if t.a == 'r' then OfKey(Retire) else if t.b == 'e' then OfKey(Method) else OfKey(Models)
    else if t.length == 10 then
      if t.a == 'p' then OfKey(Provider) else if t.a == 'l' then OfKey(LiveAck) else OfKey(SignOut)
    else if t.length == 7 then if t.a == 'a' then OfKey(Adopt) else if t.b == 'a' then OfKey(Label) else OfKey(Limit)
    else if t.length == 5 then if t.a == 'h' then OfKey(Hue) else OfKey(Ceiling)
    else if t.length == 11 then OfKey(Placement)
    else if t.length == 13 then OfKey(LimitReset)
    else if t.length == 6 then OfKey(Mode)
    else if t.length == 19 then OfKey(DeleteCodexAuth)
    else OfKey(KeepCodexAuth)
  }

  lemma TagTells(h: Head)
    requires Known(h)
    ensures HeadOf(TagOf(h)) == h
  {
  }

  lemma TagIsOfText(h: Head)
    requires Known(h)
    ensures |TextOf(h)| == TagOf(h).length > 3 && TextOf(h)[2] == TagOf(h).a && TextOf(h)[3] == TagOf(h).b
  {
  }

  lemma NoEquals(h: Head)
    requires Known(h)
    ensures forall i | 0 <= i < |TextOf(h)| :: TextOf(h)[i] != '='
  {
  }

  /** The word opens with the flag: it is the flag, or the flag and a value. */
  predicate Opens(h: Head, w: string) {
    w == TextOf(h) || TextOf(h) + "=" <= w
  }

  /** A word opens with one flag. */
  lemma OneHead(g: Head, h: Head, w: string)
    requires Known(g) && Known(h) && Opens(g, w) && Opens(h, w)
    ensures g == h
  {
    NoEquals(g);
    NoEquals(h);
    assert TextOf(g) == w || w[|TextOf(g)|] == '=';
    assert TextOf(h) == w || w[|TextOf(h)|] == '=';
    assert forall i | 0 <= i < |TextOf(g)| :: w[i] == TextOf(g)[i];
    assert forall i | 0 <= i < |TextOf(h)| :: w[i] == TextOf(h)[i];
    assert |TextOf(g)| == |TextOf(h)|;
    TagIsOfText(g);
    TagIsOfText(h);
    TagTells(g);
    TagTells(h);
  }

  // ── the decoder ───────────────────────────────────────────────────────────────────────────────

  /** The word is one this field can be written as. */
  predicate Owns(f: FieldSpec, w: string) {
    Opens(OfKey(f.key), w) || (Spelled(f.rule) && w == f.rule.spell.value.word)
  }

  /** The value a field's word was written for. */
  function ValueIn(f: FieldSpec, w: string): string {
    if f.rule.Flag? then "true"
    else if Spelled(f.rule) && w == f.rule.spell.value.word then f.rule.spell.value.value
    else if |w| > |FlagText(f.key)| then w[|FlagText(f.key)| + 1..]
    else ""
  }

  /** The fields read back off the words, and the words left over. */
  function ReadFields(fields: seq<FieldSpec>, words: seq<string>): (map<Key, Value>, seq<string>) {
    if fields == [] then (map[], words)
    else if words != [] && Owns(fields[0], words[0]) then
      var (m, rest) := ReadFields(fields[1..], words[1..]);
      (m[fields[0].key := Text(ValueIn(fields[0], words[0]))], rest)
    else ReadFields(fields[1..], words)
  }

  /** No two fields of a sub share a flag, and one at most has a value with a word of its own. */
  predicate Apart(fields: seq<FieldSpec>) {
    && (forall f <- fields :: !f.key.Unknown? && (Spelled(f.rule) ==> f.rule.spell.value.word == DRY_RUN))
    && (forall i, j | 0 <= i < j < |fields| ::
          fields[i].key != fields[j].key && !(Spelled(fields[i].rule) && Spelled(fields[j].rule)))
  }

  /** Where a key stands in its sub's row. */
  function Place(s: Sub, k: Key): nat {
    match k
    case Label => 2
    case Hue => 3
    case Placement => if s.Add? then 4 else 0
    case Models => 5
    case Limit => if s.Add? then 6 else 1
    case LimitReset => if s.Add? then 7 else 2
    case ExpiresIn => 8
    case Adopt => 9
    case Method => if s.Add? then 1 else 0
    case AttemptId => if s.AuthStart? then 1 else 0
    case Retire => 1
    case LiveAck => 2
    case SignOut => 3
    case DeleteCodexAuth => 1
    case KeepCodexAuth => 2
    case _ => 0
  }

  lemma RowsAreInOrder(s: Sub)
    ensures forall i | 0 <= i < |FieldsOf(s)| ::
              Place(s, FieldsOf(s)[i].key) == i && !FieldsOf(s)[i].key.Unknown?
              && (Spelled(FieldsOf(s)[i].rule) ==> i == 0 && FieldsOf(s)[i].rule.spell.value.word == DRY_RUN)
  {
  }

  lemma TableIsApart(s: Sub)
    ensures Apart(FieldsOf(s))
  {
    RowsAreInOrder(s);
    InOrderIsApart(s, FieldsOf(s));
  }

  lemma InOrderIsApart(s: Sub, fields: seq<FieldSpec>)
    requires forall i | 0 <= i < |fields| ::
               Place(s, fields[i].key) == i && !fields[i].key.Unknown?
               && (Spelled(fields[i].rule) ==> i == 0 && fields[i].rule.spell.value.word == DRY_RUN)
    ensures Apart(fields)
  {
  }

  /** A field owns its own word and reads its value back; no other field of the sub owns it. */
  lemma WordReadsBack(f: FieldSpec, v: string)
    requires !f.key.Unknown? && ValueOk(f.rule, v) && (Spelled(f.rule) ==> f.rule.spell.value.word == DRY_RUN)
    ensures Owns(f, WordOf(f, v)) && ValueIn(f, WordOf(f, v)) == v
  {
    var w := FlagText(f.key) + "=" + v;
    assert FlagText(f.key) + "=" <= w;
    assert w[|FlagText(f.key)| + 1..] == v;
    if Spelled(f.rule) {
      assert Opens(OfKey(f.key), w);
      if w == DRY_RUN {
        assert Opens(DryRun, w);
        OneHead(OfKey(f.key), DryRun, w);
      }
    }
  }

  /** The one flag a field's word opens with. */
  function HeadOfWord(f: FieldSpec, w: string): Head {
    if Spelled(f.rule) && w == DRY_RUN then DryRun else OfKey(f.key)
  }

  lemma OthersDoNotOwn(f: FieldSpec, g: FieldSpec, w: string)
    requires !f.key.Unknown? && !g.key.Unknown? && f.key != g.key && !(Spelled(f.rule) && Spelled(g.rule))
    requires Spelled(f.rule) ==> f.rule.spell.value.word == DRY_RUN
    requires Spelled(g.rule) ==> g.rule.spell.value.word == DRY_RUN
    requires Owns(g, w)
    ensures !Owns(f, w)
  {
    if Owns(f, w) {
      assert w == DRY_RUN ==> Opens(DryRun, w);
      OneHead(HeadOfWord(f, w), HeadOfWord(g, w), w);
    }
  }

  /** What follows the fields is none of theirs. */
  predicate Foreign(fields: seq<FieldSpec>, tail: seq<string>) {
    tail != [] ==> forall f <- fields :: !Owns(f, tail[0])
  }

  /** What the caller gave of these fields. */
  function Among(fields: seq<FieldSpec>, given: map<Key, Value>): map<Key, Value> {
    map k | k in given && Takes(fields, k) :: given[k]
  }

  lemma ApartTail(fields: seq<FieldSpec>)
    requires Apart(fields) && fields != []
    ensures Apart(fields[1..]) && !Takes(fields[1..], fields[0].key)
    ensures forall g <- fields[1..] :: g.key != fields[0].key && !(Spelled(fields[0].rule) && Spelled(g.rule)) && g in fields
  {
    forall g <- fields[1..] ensures g.key != fields[0].key && !(Spelled(fields[0].rule) && Spelled(g.rule)) && g in fields {
      var i :| 0 <= i < |fields[1..]| && fields[1..][i] == g;
      assert fields[i + 1] == g;
    }
  }

  /** The first word a later field writes is no earlier field's. */
  lemma {:induction false} FirstWordIsLater(f: FieldSpec, fields: seq<FieldSpec>, given: map<Key, Value>, tail: seq<string>)
    requires Apart([f] + fields) && FieldWords(fields, given).Some? && Foreign([f], tail)
    ensures
      var words := FieldWords(fields, given).value + tail;
      words != [] ==> !Owns(f, words[0])
  {
    ApartTail([f] + fields);
    assert ([f] + fields)[1..] == fields;
    assert f in [f] + fields && f in [f];
    if fields != [] {
      var g := fields[0];
      assert g in fields && g in [f] + fields;
      if g.key in given {
        var v := given[g.key].text;
        WordReadsBack(g, v);
        OthersDoNotOwn(f, g, WordOf(g, v));
      } else {
        ApartTail(fields);
        assert forall h <- [f] + fields[1..] :: h in [f] + fields;
        ApartDrop(f, fields);
        FirstWordIsLater(f, fields[1..], given, tail);
      }
    }
  }

  lemma ApartDrop(f: FieldSpec, fields: seq<FieldSpec>)
    requires Apart([f] + fields) && fields != []
    ensures Apart([f] + fields[1..])
  {
    var all, less := [f] + fields, [f] + fields[1..];
    forall g <- less ensures g in all {
      assert g == f || g in fields;
      assert f in all;
    }
    forall i, j | 0 <= i < j < |less|
      ensures less[i].key != less[j].key && !(Spelled(less[i].rule) && Spelled(less[j].rule))
    {
      assert less[j] == all[j + 1];
      assert less[i] == if i == 0 then all[0] else all[i + 1];
    }
  }

  lemma {:induction false} FieldsReadBack(fields: seq<FieldSpec>, given: map<Key, Value>, tail: seq<string>)
    requires Apart(fields) && FieldWords(fields, given).Some? && Foreign(fields, tail)
    ensures ReadFields(fields, FieldWords(fields, given).value + tail) == (Among(fields, given), tail)
  {
    if fields == [] {
      assert Among(fields, given) == map[];
      assert [] + tail == tail;
    } else {
      ApartTail(fields);
      FieldsReadBack(fields[1..], given, tail);
      assert fields[0] in fields;
      if fields[0].key in given {
        GivenReadsBack(fields, given, tail);
      } else {
        AbsentReadsBack(fields, given, tail);
      }
    }
  }

  lemma GivenReadsBack(fields: seq<FieldSpec>, given: map<Key, Value>, tail: seq<string>)
    requires fields != [] && fields[0].key in given && FieldWords(fields, given).Some?
    requires !fields[0].key.Unknown? && (Spelled(fields[0].rule) ==> fields[0].rule.spell.value.word == DRY_RUN)
    requires ReadFields(fields[1..], FieldWords(fields[1..], given).value + tail) == (Among(fields[1..], given), tail)
    ensures ReadFields(fields, FieldWords(fields, given).value + tail) == (Among(fields, given), tail)
  {
    var f, v := fields[0], given[fields[0].key].text;
    var more := FieldWords(fields[1..], given).value + tail;
    WordReadsBack(f, v);
    assert FieldWords(fields, given).value + tail == [WordOf(f, v)] + more;
    ReadOne(fields, WordOf(f, v), more);
    AmongGiven(fields, given);
  }

  lemma ReadOne(fields: seq<FieldSpec>, w: string, more: seq<string>)
    requires fields != [] && Owns(fields[0], w)
    ensures
      var (m, rest) := ReadFields(fields[1..], more);
      ReadFields(fields, [w] + more) == (m[fields[0].key := Text(ValueIn(fields[0], w))], rest)
  {
    assert ([w] + more)[1..] == more;
  }

  lemma AmongGiven(fields: seq<FieldSpec>, given: map<Key, Value>)
    requires fields != [] && fields[0].key in given
    ensures Among(fields, given) == Among(fields[1..], given)[fields[0].key := given[fields[0].key]]
  {
    AmongMore(fields, given);
  }

  lemma AbsentReadsBack(fields: seq<FieldSpec>, given: map<Key, Value>, tail: seq<string>)
    requires fields != [] && fields[0].key !in given && FieldWords(fields, given).Some?
    requires Apart(fields) && Foreign(fields, tail)
    requires ReadFields(fields[1..], FieldWords(fields[1..], given).value + tail) == (Among(fields[1..], given), tail)
    ensures ReadFields(fields, FieldWords(fields, given).value + tail) == (Among(fields, given), tail)
  {
    var f := fields[0];
    assert [f] + fields[1..] == fields;
    assert f in fields;
    FirstWordIsLater(f, fields[1..], given, tail);
    AmongMore(fields, given);
    assert Among(fields, given) == Among(fields[1..], given);
  }

  lemma AmongMore(fields: seq<FieldSpec>, given: map<Key, Value>)
    requires fields != []
    ensures forall k :: Takes(fields, k) <==> k == fields[0].key || Takes(fields[1..], k)
  {
    forall k ensures Takes(fields, k) <==> k == fields[0].key || Takes(fields[1..], k) {
      if Takes(fields, k) {
        var f :| f in fields && f.key == k;
        assert f == fields[0] || f in fields[1..];
      }
      assert fields[0] in fields;
    }
  }

  // ── what an argv tells ────────────────────────────────────────────────────────────────────────

  const SUBS: seq<Sub> := [Add, AuthStart, AuthCode, AuthCancel, Set, Check, Enable, Disable, Credential, Remove, Roster,
                           OrManagementRemove, OrManagementLower]

  /** A sub's words told by the length and letters of the first, and the length of the second. */
  function CliTag(s: Sub): (nat, char, char, nat) {
    match s
    case Add => (3, 'a', 'd', 0)
    case AuthStart => (10, 'a', 'u', 0)
    case AuthCode => (9, 'a', 'u', 0)
    case AuthCancel => (11, 'a', 'u', 0)
    case Set => (3, 's', 'e', 0)
    case Check => (5, 'c', 'h', 0)
    case Enable => (6, 'e', 'n', 0)
    case Disable => (7, 'd', 'i', 0)
    case Credential => (10, 'c', 'r', 0)
    case Remove => (6, 'r', 'e', 0)
    case Roster => (6, 'r', 'o', 0)
    case OrManagementRemove => (21, 'o', 'p', 6)
    case OrManagementLower => (21, 'o', 'p', 7)
  }

  lemma CliTagIsOfCli(s: Sub)
    ensures
      var c := CliOf(s);
      && |c[0]| == CliTag(s).0 && c[0][0] == CliTag(s).1 && c[0][1] == CliTag(s).2
      && (if CliTag(s).3 == 0 then |c| == 1 else |c| == 2 && |c[1]| == CliTag(s).3 && CliTag(s).0 == 21)
  {
  }

  /** No sub's words begin another's. */
  lemma CliIsPrefixFree(s: Sub, t: Sub, words: seq<string>)
    requires CliOf(s) <= words && CliOf(t) <= words
    ensures s == t
  {
    CliTagIsOfCli(s);
    CliTagIsOfCli(t);
    assert words[0] == CliOf(s)[0] == CliOf(t)[0];
    assert |CliOf(s)| == 2 ==> words[1] == CliOf(s)[1];
    assert |CliOf(t)| == 2 ==> words[1] == CliOf(t)[1];
    assert CliTag(s) == CliTag(t);
  }

  /** The sub the words after `account` begin with, looked for in `subs`. */
  function SubIn(subs: seq<Sub>, words: seq<string>): Option<Sub> {
    if subs == [] then None
    else if CliOf(subs[0]) <= words then Some(subs[0])
    else SubIn(subs[1..], words)
  }

  lemma {:induction false} SubIsFound(subs: seq<Sub>, s: Sub, words: seq<string>)
    requires s in subs && CliOf(s) <= words
    ensures SubIn(subs, words) == Some(s)
  {
    if CliOf(subs[0]) <= words {
      CliIsPrefixFree(s, subs[0], words);
    } else {
      SubIsFound(subs[1..], s, words);
    }
  }

  lemma EverySub(s: Sub)
    ensures s in SUBS
  {
    assert SUBS[0] == Add && SUBS[1] == AuthStart && SUBS[2] == AuthCode && SUBS[3] == AuthCancel && SUBS[4] == Set;
    assert SUBS[5] == Check && SUBS[6] == Enable && SUBS[7] == Disable && SUBS[8] == Credential && SUBS[9] == Remove;
    assert SUBS[10] == Roster && SUBS[11] == OrManagementRemove && SUBS[12] == OrManagementLower;
  }

  /** What follows the lane's word, and the lane. */
  function ReadLane(spec: SubSpec, words: seq<string>): (Option<Value>, seq<string>) {
    if spec.lane && words != [] && |words[0]| >= 5 then (Some(Text(words[0][5..])), words[1..]) else (None, words)
  }

  predicate ReadStdin(spec: SubSpec, rest: seq<string>) {
    spec.stdin == Required || (spec.stdinFlag.Some? && rest != [] && rest[0] == spec.stdinFlag.value)
  }

  /** The input an argv was built from. */
  function Decode(argv: seq<string>): Input {
    var words := if argv == [] then [] else argv[1..];
    var sub := SubIn(SUBS, words);
    if sub.None? then Input(None, None, None, false)
    else ReadAfter(sub.value, if |CliOf(sub.value)| <= |words| then words[|CliOf(sub.value)|..] else [])
  }

  /** What the words after the sub's own tell. */
  function ReadAfter(s: Sub, words: seq<string>): Input {
    var spec := SpecOf(s);
    var (lane, more) := ReadLane(spec, words);
    var (fields, rest) := ReadFields(spec.fields, more);
    Input(Some(s), lane, Some(fields), ReadStdin(spec, rest))
  }

  /** The words after the fields are no field's. */
  lemma TailIsForeign(s: Sub, hasStdin: bool)
    ensures Foreign(FieldsOf(s), StdinWords(SpecOf(s), hasStdin) + SpecOf(s).fixed)
  {
    TableIsApart(s);
    var tail := StdinWords(SpecOf(s), hasStdin) + SpecOf(s).fixed;
    if tail != [] {
      var h := if s.OrManagementLower? then LowerOnly else if s.Set? then StatedHead else CredentialHead;
      TailOpens(s, hasStdin, h);
      forall f <- FieldsOf(s) ensures !Owns(f, tail[0]) {
        if Opens(OfKey(f.key), tail[0]) {
          OneHead(OfKey(f.key), h, tail[0]);
        }
        if tail[0] == DRY_RUN {
          OneHead(DryRun, h, tail[0]);
        }
      }
    }
  }

  lemma TailOpens(s: Sub, hasStdin: bool, h: Head)
    requires h == if s.OrManagementLower? then LowerOnly else if s.Set? then StatedHead else CredentialHead
    ensures
      var tail := StdinWords(SpecOf(s), hasStdin) + SpecOf(s).fixed;
      tail != [] ==> Opens(h, tail[0])
  {
    assert "--stated" + "=" <= STATED_STDIN;
    assert "--credential" + "=" <= CREDENTIAL_STDIN;
  }

  lemma StdinReadsBack(s: Sub, hasStdin: bool)
    requires StdinFits(SpecOf(s), hasStdin)
    ensures ReadStdin(SpecOf(s), StdinWords(SpecOf(s), hasStdin) + SpecOf(s).fixed) == hasStdin
  {
  }

  lemma LaneReadsBack(spec: SubSpec, lane: Option<Value>, more: seq<string>)
    requires LaneFits(spec, lane)
    ensures ReadLane(spec, LaneWords(spec, lane) + more) == (lane, more)
  {
    if spec.lane {
      var w := "--id=" + lane.value.text;
      assert w[5..] == lane.value.text;
      assert LaneWords(spec, lane) + more == [w] + more;
      assert ([w] + more)[1..] == more;
    } else {
      assert LaneWords(spec, lane) + more == more;
    }
  }

  lemma SubReadsBack(s: Sub, after: seq<string>)
    ensures Decode(["account"] + CliOf(s) + after) == ReadAfter(s, after)
  {
    var argv := ["account"] + CliOf(s) + after;
    assert argv[1..] == CliOf(s) + after;
    EverySub(s);
    SubIsFound(SUBS, s, argv[1..]);
    assert argv[1..][|CliOf(s)|..] == after;
  }

  lemma AllOf(fields: seq<FieldSpec>, given: map<Key, Value>)
    requires !exists k <- given :: !Takes(fields, k)
    ensures Among(fields, given) == given
  {
  }

  /** The builder loses nothing: from any argv it accepts, the sub, the lane, every field's value and whether stdin
      rides with it can be read back. */
  lemma ArgvReadsBack(i: Input)
    requires BuiltFrom(i).Argv?
    ensures Decode(BuiltFrom(i).words) == i
  {
    var s := i.sub.value;
    var spec := SpecOf(s);
    var given := i.fields.value;
    var tail := StdinWords(spec, i.hasStdin) + spec.fixed;
    var words := FieldWords(spec.fields, given).value;
    var after := LaneWords(spec, i.lane) + (words + tail);
    assert BuiltFrom(i).words == ["account"] + CliOf(s) + after;
    SubReadsBack(s, after);
    AfterReadsBack(s, i.lane, given, i.hasStdin);
  }

  lemma AfterReadsBack(s: Sub, lane: Option<Value>, given: map<Key, Value>, hasStdin: bool)
    requires
      var spec := SpecOf(s);
      && LaneFits(spec, lane) && StdinFits(spec, hasStdin) && FieldWords(spec.fields, given).Some?
      && !exists k <- given :: !Takes(spec.fields, k)
    ensures
      var spec := SpecOf(s);
      var tail := StdinWords(spec, hasStdin) + spec.fixed;
      ReadAfter(s, LaneWords(spec, lane) + (FieldWords(spec.fields, given).value + tail))
      == Input(Some(s), lane, Some(given), hasStdin)
  {
    var spec := SpecOf(s);
    var tail := StdinWords(spec, hasStdin) + spec.fixed;
    LaneReadsBack(spec, lane, FieldWords(spec.fields, given).value + tail);
    TableIsApart(s);
    TailIsForeign(s, hasStdin);
    FieldsReadBack(FieldsOf(s), given, tail);
    StdinReadsBack(s, hasStdin);
    AllOf(spec.fields, given);
  }

  /** So two accepted inputs with the same argv are the same input. */
  lemma ArgvIsInjective(i: Input, j: Input)
    requires BuiltFrom(i).Argv? && BuiltFrom(j).Argv? && BuiltFrom(i).words == BuiltFrom(j).words
    ensures i == j
  {
    ArgvReadsBack(i);
    ArgvReadsBack(j);
  }

  /** No value becomes a flag of its own: every word a field writes opens with that field's flag, or is the one word the
      table spells for it. */
  lemma {:induction false} NoFreeFlag(fields: seq<FieldSpec>, given: map<Key, Value>)
    requires Apart(fields) && FieldWords(fields, given).Some?
    ensures forall w <- FieldWords(fields, given).value :: exists f <- fields :: Owns(f, w)
  {
    if fields != [] {
      ApartTail(fields);
      NoFreeFlag(fields[1..], given);
      var f := fields[0];
      assert f in fields;
      if f.key in given {
        WordReadsBack(f, given[f.key].text);
      }
      forall w <- FieldWords(fields, given).value ensures exists f <- fields :: Owns(f, w) {
        if w in FieldWords(fields[1..], given).value {
          var g :| g in fields[1..] && Owns(g, w);
          assert g in fields;
        }
      }
    }
  }
}
