/**
  The verdict on a killed `--detach` parent (shared/agent-protocol.ts `decideKilledSpawn`), over what that parent can
  have done when it was stopped (ccd/ccrc `_upd_detach`, `_upd_phase`).
*/
module KilledSpawn {
  import opened Decimals
  import opened Wrappers

  const DETAIL_MAX: nat := 200
  const TIMEOUT_MS := "20000"

  const WARN_PREFIX := "update: WARN: could not write ~/.ccrc/update.json"
  const DETACHED_PREFIX := "update: detached"

  /** One bounded read of update.json, in three values never folded. */
  datatype Read = Bytes(text: string) | Absent | Unreadable

  /** `reportWriter`'s answer for a text that is one JSON object. */
  datatype Writer = Writer(pid: Option<nat>, target: Option<string>)

  /** `reportWriter`: `JSON.parse` and the checks of the two fields. */
  type Parser = string -> Option<Writer>

  /** The parent's standard output, in lines, when it was read to its end. */
  type Output = Option<seq<string>>

  datatype Arm = A | B | D

  datatype Verdict = Verdict(arm: Arm, detail: string)

  predicate Has(stdout: Output, prefix: string) {
    stdout.Some? && exists line <- stdout.value :: prefix <= line
  }

  ghost predicate Begins(line: string, prefix: string) {
    exists rest: string :: line == prefix + rest
  }

  /** A line is found wherever it stands, and only one that begins so. */
  lemma FoundIff(lines: seq<string>, prefix: string)
    ensures Has(Some(lines), prefix) <==> exists line <- lines :: Begins(line, prefix)
  {
    forall line ensures prefix <= line <==> Begins(line, prefix) {
      assert prefix <= line ==> line == prefix + line[|prefix|..];
    }
  }

  predicate Unchanged(before: Read, after: Read) {
    (before.Absent? && after.Absent?) || (before.Bytes? && after.Bytes? && before.text == after.text)
  }

  function WriterOf(parse: Parser, after: Read): Option<Writer> {
    if after.Bytes? then parse(after.text) else None
  }

  predicate NamesParent(parse: Parser, after: Read, pid: Option<nat>, tag: string) {
    var w := WriterOf(parse, after);
    w.Some? && pid.Some? && w.value.pid == pid && w.value.target == Some(tag)
  }

  /** What is known of a killed parent: the two reads, what its output held, whether that was read to its end, its pid. */
  datatype Outcome = Outcome(before: Read, after: Read, warned: bool, detached: bool, ended: bool, pid: Option<nat>)

  function OutcomeOf(before: Read, after: Read, stdout: Output, pid: Option<nat>): Outcome {
    Outcome(before, after, Has(stdout, WARN_PREFIX), Has(stdout, DETACHED_PREFIX), stdout.Some?, pid)
  }

  /** Nothing says the parent got as far as its queued report. */
  predicate Clean(o: Outcome) {
    Unchanged(o.before, o.after) && o.ended && !o.warned && !o.detached
  }

  function Judged(parse: Parser, o: Outcome, tag: string): Arm {
    if Clean(o) then A else if NamesParent(parse, o.after, o.pid, tag) then B else D
  }

  function ArmOf(parse: Parser, before: Read, after: Read, stdout: Output, pid: Option<nat>, tag: string): Arm {
    Judged(parse, OutcomeOf(before, after, stdout, pid), tag)
  }

  // ── the detail ────────────────────────────────────────────────────────────────────────────────

  function OrElse(s: Option<string>, other: string): string {
    if s.Some? then s.value else other
  }

  function PidText(pid: Option<nat>): string {
    if pid.Some? then Decimal(pid.value) else "unknown"
  }

  const UNPARSEABLE := " to something unparseable"
  const FOR_ANOTHER := " to the parent's report for another target ("
  const BY_ANOTHER := ", but not by the parent (pid "

  /** How the report changed, when both reads were fit to compare. */
  function Change(parse: Parser, after: Read, pid: Option<nat>): string {
    var w := WriterOf(parse, after);
    if w.None? then UNPARSEABLE
    else if pid.Some? && w.value.pid == pid then FOR_ANOTHER + OrElse(w.value.target, "none") + ")"
    else BY_ANOTHER + PidText(w.value.pid) + ", target " + OrElse(w.value.target, "none") + ")"
  }

  /** The three kinds of change are told apart by how their words begin. */
  lemma ChangeTells(parse: Parser, after: Read, pid: Option<nat>)
    ensures
      var w := WriterOf(parse, after);
      var how := Change(parse, after, pid);
      && (UNPARSEABLE <= how <==> w.None?)
      && (FOR_ANOTHER <= how <==> w.Some? && pid.Some? && w.value.pid == pid)
      && (BY_ANOTHER <= how <==> w.Some? && (pid.None? || w.value.pid != pid))
  {
    var how := Change(parse, after, pid);
    assert UNPARSEABLE[4] == 's' && FOR_ANOTHER[4] == 't' && BY_ANOTHER[4] == 't';
    assert UNPARSEABLE[0] == ' ' && FOR_ANOTHER[0] == ' ' && BY_ANOTHER[0] == ',';
    assert UNPARSEABLE <= how ==> how[0] == ' ' && how[4] == 's';
    assert FOR_ANOTHER <= how ==> how[0] == ' ' && how[4] == 't';
    assert BY_ANOTHER <= how ==> how[0] == ',';
  }

  /** Why an outcome could not be attributed. */
  datatype Reason =
    | UnreadableBoth | UnreadableBefore | UnreadableAfter | Changed(how: string) | WasRemoved
    | PrintedWarn | PrintedDetached | NoEof

  function Words(r: Reason): string {
    match r
    case UnreadableBoth => "update.json was unreadable before and after"
    case UnreadableBefore => "update.json was unreadable before the spawn"
    case UnreadableAfter => "update.json was unreadable after the stop"
    case Changed(how) => "update.json changed" + how
    case WasRemoved => "update.json was removed"
    case PrintedWarn => "the parent printed the update.json WARN"
    case PrintedDetached => "the parent printed 'detached'"
    case NoEof => "its stdout did not reach EOF"
  }

  /** The reason is true of what was read. */
  predicate Stands(r: Reason, parse: Parser, o: Outcome) {
    match r
    case UnreadableBoth => o.before.Unreadable? && o.after.Unreadable?
    case UnreadableBefore => o.before.Unreadable? && !o.after.Unreadable?
    case UnreadableAfter => !o.before.Unreadable? && o.after.Unreadable?
    case Changed(how) =>
      o.after.Bytes? && !o.before.Unreadable? && !Unchanged(o.before, o.after) && how == Change(parse, o.after, o.pid)
    case WasRemoved => o.after.Absent? && o.before.Bytes?
    case PrintedWarn => o.warned
    case PrintedDetached => o.detached
    case NoEof => !o.ended
  }

  /** Its place in the order they are given. */
  function Rank(r: Reason): nat {
    match r
    case UnreadableBoth => 0
    case UnreadableBefore => 1
    case UnreadableAfter => 2
    case Changed(_) => 3
    case WasRemoved => 4
    case PrintedWarn => 5
    case PrintedDetached => 6
    case NoEof => 7
  }

  /** The list holds every reason that stands, nothing else, each once and in order. */
  ghost predicate AllReasons(seen: seq<Reason>, parse: Parser, o: Outcome) {
    && (forall r :: r in seen <==> Stands(r, parse, o))
    && (forall i, j | 0 <= i < j < |seen| :: Rank(seen[i]) < Rank(seen[j]))
  }

  /** Those of the reasons that lie below this place in the order. */
  ghost predicate ReasonsBelow(seen: seq<Reason>, n: nat, parse: Parser, o: Outcome) {
    && (forall r :: r in seen <==> Rank(r) < n && Stands(r, parse, o))
    && (forall i, j | 0 <= i < j < |seen| :: Rank(seen[i]) < Rank(seen[j]))
  }

  lemma OneMoreReason(seen: seq<Reason>, m: nat, n: nat, r: Reason, parse: Parser, o: Outcome)
    requires ReasonsBelow(seen, m, parse, o) && m <= Rank(r) < n
    requires forall q | m <= Rank(q) < n :: Stands(q, parse, o) <==> q == r
    ensures ReasonsBelow(seen + [r], n, parse, o)
  {
    forall i | 0 <= i < |seen| ensures Rank(seen[i]) < m {
      assert seen[i] in seen;
    }
  }

  lemma NoMoreReason(seen: seq<Reason>, m: nat, n: nat, parse: Parser, o: Outcome)
    requires ReasonsBelow(seen, m, parse, o) && m <= n
    requires forall q | m <= Rank(q) < n :: !Stands(q, parse, o)
    ensures ReasonsBelow(seen, n, parse, o)
  {
  }

  /** The file's own part of the list. */
  method FileReasons(parse: Parser, o: Outcome) returns (seen: seq<Reason>)
    ensures ReasonsBelow(seen, 5, parse, o) && |seen| <= 1
  {
    seen := [];
    if o.before.Unreadable? && o.after.Unreadable? {
      seen := seen + [UnreadableBoth];
    } else if o.before.Unreadable? {
      seen := seen + [UnreadableBefore];
    } else if o.after.Unreadable? {
      seen := seen + [UnreadableAfter];
    }
    if o.after.Bytes? && !o.before.Unreadable? && !Unchanged(o.before, o.after) {
      seen := seen + [Changed(Change(parse, o.after, o.pid))];
    }
    if o.after.Absent? && o.before.Bytes? {
      seen := seen + [WasRemoved];
    }
  }

  /** One reason more where it stands; `n` is its place in the order. */
  method Consider(was: seq<Reason>, r: Reason, stands: bool, ghost n: nat, ghost parse: Parser, ghost o: Outcome) returns (seen: seq<Reason>)
    requires ReasonsBelow(was, n, parse, o)
    requires stands <==> Stands(r, parse, o)
    requires Rank(r) == n && forall q :: Rank(q) == n ==> q == r
    ensures ReasonsBelow(seen, n + 1, parse, o)
    ensures seen == if stands then was + [r] else was
  {
    if stands {
      OneMoreReason(was, n, n + 1, r, parse, o);
      return was + [r];
    }
    NoMoreReason(was, n, n + 1, parse, o);
    return was;
  }

  /** Every reason the outcome could not be attributed. */
  method Reasons(parse: Parser, o: Outcome) returns (seen: seq<Reason>)
    requires !o.ended ==> !o.warned && !o.detached
    ensures AllReasons(seen, parse, o) && |seen| <= 3
  {
    seen := FileReasons(parse, o);
    seen := Consider(seen, PrintedWarn, o.warned, 5, parse, o);
    seen := Consider(seen, PrintedDetached, o.detached, 6, parse, o);
    seen := Consider(seen, NoEof, !o.ended, 7, parse, o);
    assert forall r :: Rank(r) < 8;
  }

  /** Arm A is what is left when nothing stands in its way: the list is empty exactly there. */
  lemma NoReasonIff(seen: seq<Reason>, parse: Parser, o: Outcome)
    requires AllReasons(seen, parse, o)
    ensures seen == [] <==> Clean(o)
  {
    assert seen != [] ==> seen[0] in seen;
    assert PrintedWarn in seen <==> o.warned;
    assert PrintedDetached in seen <==> o.detached;
    assert NoEof in seen <==> !o.ended;
    if !Unchanged(o.before, o.after) {
      var r := if o.before.Unreadable? then (if o.after.Unreadable? then UnreadableBoth else UnreadableBefore)
               else if o.after.Unreadable? then UnreadableAfter
               else if o.after.Bytes? then Changed(Change(parse, o.after, o.pid))
               else WasRemoved;
      assert Stands(r, parse, o);
    }
  }

  /** The reasons' words. */
  function Spoken(seen: seq<Reason>): (texts: seq<string>)
    ensures |texts| == |seen|
    ensures forall t <- texts :: t != ""
  {
    if seen == [] then [] else Spoken(seen[..|seen| - 1]) + [Words(seen[|seen| - 1])]
  }

  const HEAD := "stopped at the bound; "

  function Tail(tag: string): string {
    " - it could not be attributed; lease for " + tag + " held until the report or deadline"
  }

  /** What is left for the reasons. */
  function Budget(tag: string): nat {
    var used := |HEAD| + |Tail(tag)|;
    if used <= DETAIL_MAX then DETAIL_MAX - used else 0
  }

  function More(n: nat): string {
    " (+" + Decimal(n) + " more)"
  }

  /** The count of what is left out. */
  function Uncounted(left: nat): string {
    if left > 0 then More(left) else ""
  }

  /** The first `k` texts, `comma` between them. */
  function Joined(comma: string, seen: seq<string>, k: nat): string
    requires k <= |seen|
  {
    if k == 0 then "" else if k == 1 then seen[0] else Joined(comma, seen, k - 1) + comma + seen[k - 1]
  }

  /** `texts.join(comma)`. */
  function JoinBy(comma: string, texts: seq<string>): string {
    if texts == [] then "" else if |texts| == 1 then texts[0] else texts[0] + comma + JoinBy(comma, texts[1..])
  }

  lemma {:induction false} JoinOneMore(comma: string, texts: seq<string>, t: string)
    requires texts != []
    ensures JoinBy(comma, texts + [t]) == JoinBy(comma, texts) + comma + t
  {
    assert (texts + [t])[1..] == texts[1..] + [t];
    if |texts| > 1 {
      JoinOneMore(comma, texts[1..], t);
      assert texts[0] + comma + (JoinBy(comma, texts[1..]) + comma + t) == texts[0] + comma + JoinBy(comma, texts[1..]) + comma + t;
    }
  }

  lemma {:induction false} JoinedIsJoin(comma: string, seen: seq<string>, k: nat)
    requires k <= |seen|
    ensures Joined(comma, seen, k) == JoinBy(comma, seen[..k])
  {
    if k > 1 {
      JoinedIsJoin(comma, seen, k - 1);
      JoinOneMore(comma, seen[..k - 1], seen[k - 1]);
      assert seen[..k] == seen[..k - 1] + [seen[k - 1]];
    }
  }

  /** The first `k` texts whole, and the count of the rest. */
  function Listed(comma: string, count: nat -> string, seen: seq<string>, k: nat): string
    requires k <= |seen|
  {
    Joined(comma, seen, k) + count(|seen| - k)
  }

  /** `k` texts fit, whole and with the count of what they leave out. */
  predicate Fits(comma: string, count: nat -> string, seen: seq<string>, k: nat, budget: nat) {
    k <= |seen| && |Listed(comma, count, seen, k)| <= budget
  }

  /** Whole texts, in order, until one does not fit. */
  method TakeWhole(comma: string, count: nat -> string, seen: seq<string>, budget: nat) returns (text: string, taken: nat)
    ensures taken <= |seen| && text == Joined(comma, seen, taken)
    ensures forall k | 1 <= k <= taken :: Fits(comma, count, seen, k, budget)
    ensures taken < |seen| ==> !Fits(comma, count, seen, taken + 1, budget)
  {
    taken, text := 0, "";
    while taken < |seen|
      invariant taken <= |seen| && text == Joined(comma, seen, taken)
      invariant forall k | 1 <= k <= taken :: Fits(comma, count, seen, k, budget)
    {
      var next := if taken == 0 then seen[taken] else text + comma + seen[taken];
      assert next == Joined(comma, seen, taken + 1);
      if |next| + |count(|seen| - taken - 1)| > budget {
        return;
      }
      text, taken := next, taken + 1;
    }
  }

  /** When not even one text fits: the first, cut and marked as cut, and the count of the rest. */
  function Shortened(count: nat -> string, seen: seq<string>, budget: nat): string
    requires seen != []
  {
    var more := count(|seen| - 1);
    var room := if budget >= |more| + 3 then budget - |more| - 3 else 0;
    (if |seen[0]| <= room then seen[0] else seen[0][..room]) + "..." + more
  }

  /** A first text that does not fit is cut so that, with the mark and the count, it fills the budget to its end. */
  lemma ShortenedFills(count: nat -> string, seen: seq<string>, budget: nat)
    requires seen != [] && |count(|seen| - 1)| + 3 <= budget < |seen[0]| + 3 + |count(|seen| - 1)|
    ensures
      var text := Shortened(count, seen, budget);
      var k := budget - 3 - |count(|seen| - 1)|;
      |text| == budget && text[..k] == seen[0][..k] && text[k..] == "..." + count(|seen| - 1)
  {
  }

  /** The text holds `taken` whole texts, in order, as many as fit with the count of the rest; or, when not even one
      does, the first cut and marked. */
  ghost predicate TakenWhole(comma: string, count: nat -> string, seen: seq<string>, budget: nat, text: string, taken: nat) {
    && seen != [] && taken <= |seen|
    && (forall k | 1 <= k <= taken :: Fits(comma, count, seen, k, budget))
    && (taken < |seen| ==> !Fits(comma, count, seen, taken + 1, budget))
    && text == if taken > 0 then Listed(comma, count, seen, taken) else Shortened(count, seen, budget)
  }

  /** So many as fit, however many that is. */
  ghost predicate Fitted(comma: string, count: nat -> string, seen: seq<string>, budget: nat, text: string) {
    exists taken :: TakenWhole(comma, count, seen, budget, text, taken)
  }

  /** The texts as they fit the budget. */
  method Fit(comma: string, count: nat -> string, seen: seq<string>, budget: nat) returns (text: string, taken: nat)
    requires seen != []
    ensures TakenWhole(comma, count, seen, budget, text, taken)
  {
    text, taken := TakeWhole(comma, count, seen, budget);
    text := if taken == 0 then Shortened(count, seen, budget) else text + count(|seen| - taken);
  }

  function Clip(s: string): (r: string)
    ensures |r| <= DETAIL_MAX
  {
    if |s| <= DETAIL_MAX then s else s[..DETAIL_MAX]
  }

  /** The longest tag for which a detail always fits with its ending whole. */
  const TAG_MAX: nat := 90

  function NothingStarted(): string {
    "the --detach parent was stopped at the " + TIMEOUT_MS + " ms bound before it queued anything; nothing started"
  }

  function MayHaveStarted(tag: string, pid: Option<nat>): string {
    Clip("the --detach parent was stopped at the " + TIMEOUT_MS + " ms bound after it queued " + tag
         + " (pid " + PidText(pid) + "); the run may have started, lease held")
  }

  /** `decideKilledSpawn`. */
  method Decide(parse: Parser, before: Read, after: Read, stdout: Output, pid: Option<nat>, tag: string) returns (v: Verdict)
    ensures v.arm == ArmOf(parse, before, after, stdout, pid, tag)
    ensures |tag| <= TAG_MAX ==> |v.detail| <= DETAIL_MAX
    ensures v.arm == A ==> v.detail == NothingStarted()
    ensures v.arm == B ==> v.detail == MayHaveStarted(tag, pid)
    ensures v.arm == D ==> Explained(parse, OutcomeOf(before, after, stdout, pid), tag, v.detail)
  {
    v := Judge(parse, OutcomeOf(before, after, stdout, pid), tag);
  }

  /** The three arms, in their order. */
  method Judge(parse: Parser, o: Outcome, tag: string) returns (v: Verdict)
    requires !o.ended ==> !o.warned && !o.detached
    ensures v.arm == Judged(parse, o, tag)
    ensures |tag| <= TAG_MAX ==> |v.detail| <= DETAIL_MAX
    ensures v.arm == A ==> v.detail == NothingStarted()
    ensures v.arm == B ==> v.detail == MayHaveStarted(tag, o.pid)
    ensures v.arm == D ==> Explained(parse, o, tag, v.detail)
  {
    if Clean(o) {
      StartedLength();
      return Verdict(A, NothingStarted());
    }
    if NamesParent(parse, o.after, o.pid, tag) {
      return Verdict(B, MayHaveStarted(tag, o.pid));
    }
    var detail := Explain(parse, o, tag);
    return Verdict(D, detail);
  }

  /** The detail is the head, every reason that stands as they fit, and the ending whole. */
  ghost predicate Explained(parse: Parser, o: Outcome, tag: string, detail: string) {
    exists seen, text ::
      && AllReasons(seen, parse, o) && Fitted(", ", Uncounted, Spoken(seen), Budget(tag), text)
      && text != "" && detail == HEAD + text + Tail(tag)
  }

  method Explain(parse: Parser, o: Outcome, tag: string) returns (detail: string)
    requires !o.ended ==> !o.warned && !o.detached
    requires !Clean(o)
    ensures |tag| <= TAG_MAX ==> |detail| <= DETAIL_MAX
    ensures Explained(parse, o, tag, detail)
  {
    var seen := Reasons(parse, o);
    NoReasonIff(seen, parse, o);
    detail := Detail(Spoken(seen), tag);
  }

  /** The words of arm D: the head, the reasons as they fit, and the ending whole. */
  method Detail(seen: seq<string>, tag: string) returns (detail: string)
    requires 0 < |seen| <= 3 && forall t <- seen :: t != ""
    ensures |tag| <= TAG_MAX ==> |detail| <= DETAIL_MAX
    ensures exists text :: Fitted(", ", Uncounted, seen, Budget(tag), text) && text != "" && detail == HEAD + text + Tail(tag)
  {
    var text, taken := Fit(", ", Uncounted, seen, Budget(tag));
    FitIsWithin(", ", seen, Budget(tag), text, taken);
    TagFits(tag);
    detail := HEAD + text + Tail(tag);
  }

  /** For a tag within the bound, what is left for the reasons takes at least a marked cut and the longest count. */
  lemma TagFits(tag: string)
    ensures |HEAD| + |Tail(tag)| + |More(2)| + 3 == DETAIL_MAX - TAG_MAX + |tag|
    ensures |tag| <= TAG_MAX ==> Budget(tag) == DETAIL_MAX - |HEAD| - |Tail(tag)| && Budget(tag) >= |More(2)| + 3
  {
    assert |Tail(tag)| == |Tail("")| + |tag|;
  }

  /** The bound is exact: where several reasons stand and none fits, the detail stays within two hundred characters if
      and only if the tag is no longer than ninety. */
  lemma LongTagOverflowsIff(seen: seq<string>, tag: string)
    requires 2 <= |seen| <= 3
    requires !Fits(", ", Uncounted, seen, 1, Budget(tag))
    ensures |HEAD + Shortened(Uncounted, seen, Budget(tag)) + Tail(tag)| <= DETAIL_MAX <==> |tag| <= TAG_MAX
  {
    TagFits(tag);
    OneDigitCount(|seen| - 1);
  }

  lemma OneDigitCount(left: nat)
    requires 0 < left < 10
    ensures |Uncounted(left)| == |More(2)|
  {
  }

  lemma StartedLength()
    ensures |NothingStarted()| <= DETAIL_MAX
  {
  }

  lemma CountLength(left: nat)
    requires left < 10
    ensures |Uncounted(left)| <= |More(2)|
  {
  }

  /** What is taken of the reasons is never empty and never over the budget. */
  lemma FitIsWithin(comma: string, seen: seq<string>, budget: nat, text: string, taken: nat)
    requires TakenWhole(comma, Uncounted, seen, budget, text, taken) && |seen| <= 3 && forall t <- seen :: t != ""
    ensures text != ""
    ensures budget >= |More(2)| + 3 ==> |text| <= budget
  {
    CountLength(|seen| - 1);
    if taken > 0 {
      assert Fits(comma, Uncounted, seen, taken, budget);
      JoinedIsText(comma, seen, taken);
    }
  }

  lemma JoinedIsText(comma: string, seen: seq<string>, k: nat)
    requires 0 < k <= |seen| && forall t <- seen :: t != ""
    ensures Joined(comma, seen, k) != ""
  {
    assert seen[0] in seen && seen[k - 1] in seen;
  }

  // ── what the parent had done ──────────────────────────────────────────────────────────────────

  /** What happens to update.json and to the unit while the parent runs, in order, until it is stopped. */
  datatype Event =
    | Queued(report: string)   // its `queued` report, renamed into place
    | Warned                   // or the WARN line, where that could not be written
    | Started                  // the unit, by `systemd-run`
    | Failed(report: string)   // its `failed` report, where `systemd-run` refused
    | Printed                  // the `detached` line
    | Other(content: Read)     // another writer

  /** The parent writes its queued report or warns before it starts the unit, and prints only after. */
  predicate InOrder(events: seq<Event>) {
    forall i | 0 <= i < |events| ::
      && (events[i].Started? ==> exists j :: 0 <= j < i && (events[j].Queued? || events[j].Warned?))
      && (events[i].Printed? ==> exists j :: 0 <= j < i && events[j].Started?)
  }

  /** What the file holds after the events. */
  function FileAfter(before: Read, events: seq<Event>): Read {
    if events == [] then before
    else
      var last := |events| - 1;
      match events[last]
      case Queued(r) => Bytes(r)
      case Failed(r) => Bytes(r)
      case Other(c) => c
      case _ => FileAfter(before, events[..last])
  }

  predicate HasStarted(events: seq<Event>) {
    exists e <- events :: e.Started?
  }

  /** The output read to its end holds the WARN line where the parent warned, the `detached` line where it printed it. */
  predicate Says(stdout: Output, events: seq<Event>) {
    stdout.Some? ==>
      && (Has(stdout, WARN_PREFIX) <==> exists e <- events :: e.Warned?)
      && (Has(stdout, DETACHED_PREFIX) <==> exists e <- events :: e.Printed?)
  }

  /** The event leaves the file other than it was at the start. */
  predicate Differs(before: Read, e: Event) {
    match e
    case Queued(r) => before != Bytes(r)
    case Failed(r) => before != Bytes(r)
    case Other(c) => before != c
    case _ => true
  }

  predicate Writes(e: Event) {
    e.Queued? || e.Failed? || e.Other?
  }

  lemma {:induction false} Unwritten(before: Read, events: seq<Event>)
    requires forall e <- events :: Differs(before, e)
    ensures FileAfter(before, events) == before <==> forall e <- events :: !Writes(e)
    decreases |events|
  {
    if events != [] {
      var last := |events| - 1;
      assert events == events[..last] + [events[last]];
      assert events[last] in events;
      forall e <- events[..last] ensures Differs(before, e) {
        assert e in events;
      }
      Unwritten(before, events[..last]);
      if forall e <- events[..last] :: !Writes(e) {
        assert !Writes(events[last]) ==> forall e <- events :: !Writes(e);
      } else {
        var e :| e in events[..last] && Writes(e);
        assert e in events;
      }
    }
  }

  /** Killed anywhere, the parent is judged not to have queued only if its unit never started, as long as nobody puts
      the earlier report's very bytes back: only then is the lease released over a run that may be going. */
  lemma ReleasedOnlyIfNotStarted(parse: Parser, before: Read, after: Read, stdout: Output, pid: Option<nat>, tag: string,
                                 events: seq<Event>)
    requires InOrder(events) && Says(stdout, events) && forall e <- events :: Differs(before, e)
    requires after == FileAfter(before, events) || after.Unreadable?
    requires ArmOf(parse, before, after, stdout, pid, tag) == A
    ensures !HasStarted(events)
  {
    Unwritten(before, events);
    assert forall i | 0 <= i < |events| :: events[i] in events && !Writes(events[i]) && !events[i].Warned?;
  }

  /** What a write leaves in the file. */
  function Left(e: Event): Read
    requires Writes(e)
  {
    match e
    case Queued(r) => Bytes(r)
    case Failed(r) => Bytes(r)
    case Other(c) => c
  }

  /** The last of the writes put this content back. */
  ghost predicate LastWriteLeft(events: seq<Event>, content: Read) {
    exists i :: 0 <= i < |events| && Writes(events[i]) && Left(events[i]) == content
             && forall j | i < j < |events| :: !Writes(events[j])
  }

  lemma {:induction false} LastWriteIsFile(before: Read, events: seq<Event>)
    requires exists i :: 0 <= i < |events| && Writes(events[i])
    ensures LastWriteLeft(events, FileAfter(before, events))
    ensures forall c :: LastWriteLeft(events, c) ==> c == FileAfter(before, events)
    decreases |events|
  {
    var n := |events| - 1;
    if Writes(events[n]) {
      assert Left(events[n]) == FileAfter(before, events);
    } else {
      var less := events[..n];
      assert exists i :: 0 <= i < n && Writes(less[i]) by {
        var i :| 0 <= i < |events| && Writes(events[i]);
        assert less[i] == events[i];
      }
      LastWriteIsFile(before, less);
      var i :| 0 <= i < n && Writes(less[i]) && Left(less[i]) == FileAfter(before, less) && forall j | i < j < n :: !Writes(less[j]);
      assert Writes(events[i]) && forall j | i < j < |events| :: !Writes(events[j]) by {
        assert forall j | i < j < n :: events[j] == less[j];
      }
      forall c | LastWriteLeft(events, c) ensures c == FileAfter(before, events) {
        var k :| 0 <= k < |events| && Writes(events[k]) && Left(events[k]) == c && forall j | k < j < |events| :: !Writes(events[j]);
        assert less[k] == events[k];
        assert forall j | k < j < n :: less[j] == events[j];
        assert LastWriteLeft(less, c);
      }
    }
  }

  /** The restored bytes are the only way: over a unit that started, the lease is released if and only if the parent
      neither warned nor printed, its output was read to the end, and the last of the writes put back what was there. */
  lemma ReleasedOverARunIff(parse: Parser, before: Read, stdout: Output, pid: Option<nat>, tag: string, events: seq<Event>)
    requires InOrder(events) && Says(stdout, events) && HasStarted(events) && !before.Unreadable?
    ensures ArmOf(parse, before, FileAfter(before, events), stdout, pid, tag) == A <==>
              stdout.Some? && (forall e <- events :: !e.Warned? && !e.Printed?) && LastWriteLeft(events, before)
  {
    if forall e <- events :: !e.Warned? && !e.Printed? {
      var i :| 0 <= i < |events| && events[i].Started?;
      var j :| 0 <= j < i && (events[j].Queued? || events[j].Warned?);
      assert events[j] in events;
      LastWriteIsFile(before, events);
    }
  }

  /** Stopped after its queued report and before anybody else's write, the parent is named: the lease is held. */
  lemma QueuedIsAttributed(parse: Parser, before: Read, stdout: Output, pid: Option<nat>, tag: string,
                           events: seq<Event>, report: string, later: seq<Event>)
    requires |events| > |later| && events[|events| - |later| - 1] == Queued(report) && events[|events| - |later|..] == later
    requires (forall e <- later :: !Writes(e)) && before != Bytes(report)
    requires pid.Some? && parse(report) == Some(Writer(pid, Some(tag)))
    ensures ArmOf(parse, before, FileAfter(before, events), stdout, pid, tag) == B
  {
    LastWrite(before, events, later, report);
  }

  /** What the last write left decides it, where that is not what stood: the lease is held for the parent's own run if
      and only if what was read after the stop is a report with the parent's pid and the lease's tag both. A report by
      any other process, for any other target, of no known pid or that does not parse, and a file removed or not read,
      is attributed to nobody. */
  lemma AttributedIff(parse: Parser, before: Read, after: Read, stdout: Output, pid: Option<nat>, tag: string,
                      events: seq<Event>, left: Read)
    requires LastWriteLeft(events, left) && left != before
    requires after == FileAfter(before, events) || after.Unreadable?
    ensures after == left || after.Unreadable?
    ensures ArmOf(parse, before, after, stdout, pid, tag) ==
            if after.Bytes? && pid.Some? && parse(after.text) == Some(Writer(pid, Some(tag))) then B else D
  {
    LastWriteIsFile(before, events);
  }

  lemma {:induction false} LastWrite(before: Read, events: seq<Event>, later: seq<Event>, report: string)
    requires |events| > |later| && events[|events| - |later| - 1] == Queued(report)
    requires events[|events| - |later|..] == later && forall e <- later :: !Writes(e)
    ensures FileAfter(before, events) == Bytes(report)
    decreases |later|
  {
    if later != [] {
      var n := |events| - 1;
      assert events[n] == later[|later| - 1];
      assert events[n] in later;
      assert events[..n][|events| - |later|..] == later[..|later| - 1];
      LastWrite(before, events[..n], later[..|later| - 1], report);
    }
  }
}
