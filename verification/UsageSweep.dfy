/** The global dedupe of assistant lines and its accounting (ccd/ccd-usage-sweep.py `scan` and the loops of `main`). */
module UsageSweep {
  import opened Wrappers

  type Id = string
  type Account = string

  /** A message's id: none (or a falsy one), one that can key a dict, or one that cannot (a list, an object). */
  datatype MessageId = NoId | Keyed(id: Id) | Unhashable

  /** A message's usage: none (or empty), one whose counts do not read (or stands beside a model that does not), one with
      a count that is an infinite float, which `int` refuses with an OverflowError, or its four counts. */
  datatype Usage = NoUsage | Malformed | Infinite | Counts(input: int, output: int, cacheRead: int, cacheWrite: int)

  datatype Message = Message(id: MessageId, usage: Usage, model: string)

  /** One line of a transcript in the window, as the scan reads it. `Unmarked` fails the byte prefilter. `message` is
      `None` when it is no object. */
  datatype Line =
    | Unmarked
    | Unparsed
    | NotAssistant
    | Assistant(inWindow: bool, message: Option<Message>, effort: string, session: string)

  datatype Record = Record(
    id: Id, model: string, cls: string, usage: Usage, effort: string, session: string, account: Account)

  /** One config dir: its path, whose it is, and the lines read under it, in the order they are read. */
  datatype Dir = Dir(path: string, account: Account, lines: seq<Line>)

  datatype Item = Item(account: Account, line: Line)

  datatype Stats = Stats(assistantLines: nat, prefilterNotAssistant: nat, parseErrors: nat, duplicates: nat)

  /** `records` is the dict's values in insertion order; `aborted` is an exception nothing catches. */
  datatype State = State(
    records: seq<Record>, owner: map<Id, Account>, stats: Stats, carried: map<Account, nat>, carriedIds: set<Id>,
    aborted: bool)

  type Tokens = seq<(string, string)>

  predicate Contains(s: string, sub: string) {
    exists i :: 0 <= i <= |s| && sub <= s[i..]
  }

  /** `class_of`: the first token the model's name contains. */
  function ClassOf(model: string, tokens: Tokens): string {
    if tokens == [] then "other"
    else if Contains(model, tokens[0].0) then tokens[0].1
    else ClassOf(model, tokens[1..])
  }

  /** The least integer that Python's `/` cannot turn into a float: 2^1024 - 2^970. */
  const FLOAT_LIMIT: int :=
    0xfffffffffffffc00000000000000000000000000000000000000000000000000000000000000000000000000000000000000000000000000000000000000000000000000000000000000000000000000000000000000000000000000000000000000000000000000000000000000000000000000000000000000000000000000

  predicate Floats(n: int) {
    -FLOAT_LIMIT < n < FLOAT_LIMIT
  }

  /** `api_usd` reaches a price: an unpriced class divides nothing, and fable has no price for a cache write. */
  predicate Prices(cls: string, u: Usage)
    requires u.Counts?
  {
    cls in {"fable", "opus", "sonnet", "haiku"} ==>
      Floats(u.input) && Floats(u.output) && Floats(u.cacheRead) && (cls == "fable" || Floats(u.cacheWrite))
  }

  /** Recording this message raises an OverflowError, which no handler of the scan names. */
  predicate Overflows(m: Message, tokens: Tokens) {
    m.usage.Infinite? || (m.usage.Counts? && !Prices(ClassOf(m.model, tokens), m.usage))
  }

  function Get(m: map<Account, nat>, a: Account): nat {
    if a in m then m[a] else 0
  }

  const START := State([], map[], Stats(0, 0, 0, 0), map[], {}, false)

  /** A message whose usage is there and whose id keys a dict, in a line the scan accounts for. */
  function Usable(line: Line): Option<Message> {
    if line.Assistant? && line.inWindow && line.message.Some? && line.message.value.usage != NoUsage
       && line.message.value.id.Keyed?
    then line.message else None
  }

  /** The usable line's record, or its duplicate. */
  function Enter(s: State, a: Account, line: Line, m: Message, tokens: Tokens): State
    requires m.id.Keyed?
  {
    var id := m.id.id;
    if id in s.owner then
      var s1 := s.(stats := s.stats.(duplicates := s.stats.duplicates + 1));
      var owner := s.owner[id];
      if owner != a && id !in s.carriedIds then
        s1.(carried := s.carried[owner := Get(s.carried, owner) + 1], carriedIds := s.carriedIds + {id})
      else s1
    else if Overflows(m, tokens) then s.(aborted := true)
    else if m.usage.Counts? && line.Assistant? then
      s.(records := s.records + [Record(id, m.model, ClassOf(m.model, tokens), m.usage, line.effort, line.session, a)],
         owner := s.owner[id := a])
    else s.(stats := s.stats.(parseErrors := s.stats.parseErrors + 1))
  }

  /** One line of the scan. */
  function Step(s: State, item: Item, tokens: Tokens): State {
    if s.aborted then s
    else
      match item.line
      case Unmarked => s
      case Unparsed => s.(stats := s.stats.(parseErrors := s.stats.parseErrors + 1))
      case NotAssistant => s.(stats := s.stats.(prefilterNotAssistant := s.stats.prefilterNotAssistant + 1))
      case Assistant(inWindow, message, _, _) =>
        var s1 := s.(stats := s.stats.(assistantLines := s.stats.assistantLines + 1));
        if !inWindow then s1
        else if message.None? then s1.(stats := s1.stats.(parseErrors := s1.stats.parseErrors + 1))
        else if message.value.usage == NoUsage || message.value.id == NoId then s1
        else if message.value.id.Unhashable? then s1.(aborted := true)
        else Enter(s1, item.account, item.line, message.value, tokens)
  }

  /** The state after these lines. */
  function Run(items: seq<Item>, tokens: Tokens): State {
    if items == [] then START else Step(Run(items[..|items| - 1], tokens), items[|items| - 1], tokens)
  }

  // ── the order of the directories ──────────────────────────────────────────────────────────────

  /** Python's order on strings. */
  predicate Below(a: string, b: string) {
    if b == [] then false else if a == [] then true else a[0] < b[0] || (a[0] == b[0] && Below(a[1..], b[1..]))
  }

  lemma {:induction false} BelowIsTotal(a: string, b: string)
    ensures a == b || Below(a, b) || Below(b, a)
    ensures !(Below(a, b) && Below(b, a)) && !Below(a, a)
  {
    if a != [] && b != [] {
      BelowIsTotal(a[1..], b[1..]);
      assert a == [a[0]] + a[1..] && b == [b[0]] + b[1..];
    }
    if a != [] {
      BelowIsTotal(a[1..], a[1..]);
    }
  }

  lemma {:induction false} BelowIsTransitive(a: string, b: string, c: string)
    requires Below(a, b) && Below(b, c)
    ensures Below(a, c)
  {
    if a != [] && a[0] == b[0] == c[0] {
      BelowIsTransitive(a[1..], b[1..], c[1..]);
    }
  }

  /** `sorted(dirs)`. */
  function Insert(d: Dir, dirs: seq<Dir>): seq<Dir> {
    if dirs == [] || Below(d.path, dirs[0].path) then [d] + dirs else [dirs[0]] + Insert(d, dirs[1..])
  }

  function Sort(dirs: seq<Dir>): seq<Dir> {
    if dirs == [] then [] else Insert(dirs[0], Sort(dirs[1..]))
  }

  predicate Sorted(dirs: seq<Dir>) {
    forall i, j | 0 <= i < j < |dirs| :: Below(dirs[i].path, dirs[j].path)
  }

  ghost predicate Distinct(dirs: multiset<Dir>) {
    forall d, e | d in dirs && e in dirs && d.path == e.path :: d == e && dirs[d] == 1
  }

  lemma {:induction false} InsertSorts(d: Dir, dirs: seq<Dir>)
    requires Sorted(dirs) && forall e <- dirs :: e.path != d.path
    ensures Sorted(Insert(d, dirs)) && multiset(Insert(d, dirs)) == multiset{d} + multiset(dirs)
  {
    if dirs == [] {
    } else if Below(d.path, dirs[0].path) {
      forall j | 0 <= j < |dirs| ensures Below(d.path, dirs[j].path) {
        if j > 0 {
          BelowIsTransitive(d.path, dirs[0].path, dirs[j].path);
        }
      }
    } else {
      InsertSorts(d, dirs[1..]);
      assert dirs == [dirs[0]] + dirs[1..];
      BelowIsTotal(d.path, dirs[0].path);
      var rest := Insert(d, dirs[1..]);
      forall j | 0 <= j < |rest| ensures Below(dirs[0].path, rest[j].path) {
        assert rest[j] in multiset(rest);
        if rest[j] != d {
          assert rest[j] in dirs[1..];
        }
      }
    }
  }

  lemma {:induction false} SortSorts(dirs: seq<Dir>)
    requires Distinct(multiset(dirs))
    ensures Sorted(Sort(dirs)) && multiset(Sort(dirs)) == multiset(dirs)
  {
    if dirs != [] {
      var d, rest := dirs[0], dirs[1..];
      assert dirs == [d] + rest;
      forall e: Dir, f: Dir | e in multiset(rest) && f in multiset(rest) && e.path == f.path
        ensures e == f && multiset(rest)[e] == 1
      {
        assert e in multiset(dirs) && f in multiset(dirs);
      }
      SortSorts(rest);
      assert multiset(dirs) == multiset{d} + multiset(Sort(rest));
      forall e <- Sort(rest) ensures e.path != d.path {
        assert e in multiset(Sort(rest));
        assert e in multiset(dirs) && d in multiset(dirs);
      }
      InsertSorts(d, Sort(rest));
    }
  }

  lemma FirstIsLeast(a: seq<Dir>, b: seq<Dir>)
    requires Sorted(a) && Sorted(b) && multiset(a) == multiset(b) && a != []
    ensures b != [] && a[0] == b[0]
  {
    assert a[0] in multiset(a) && a[0] in multiset(b);
    assert a[0] in b;
    assert b[0] in multiset(b) && b[0] in multiset(a);
    assert b[0] in a;
    BelowIsTotal(a[0].path, b[0].path);
  }

  /** Two sorted lists of the same directories are the same list. */
  lemma {:induction false} SortedIsUnique(a: seq<Dir>, b: seq<Dir>)
    requires Sorted(a) && Sorted(b) && multiset(a) == multiset(b)
    ensures a == b
  {
    if a == [] {
      if b != [] {
        FirstIsLeast(b, a);
      }
    } else {
      FirstIsLeast(a, b);
      assert a == [a[0]] + a[1..] && b == [b[0]] + b[1..];
      assert multiset(a[1..]) == multiset(a) - multiset{a[0]};
      assert multiset(b[1..]) == multiset(b) - multiset{b[0]};
      SortedIsUnique(a[1..], b[1..]);
    }
  }

  function ItemsOf(account: Account, lines: seq<Line>): (items: seq<Item>)
    ensures |items| == |lines| && forall i | 0 <= i < |lines| :: items[i] == Item(account, lines[i])
  {
    seq(|lines|, i requires 0 <= i < |lines| => Item(account, lines[i]))
  }

  /** Every line of every directory, in the order the scan walks them. */
  function Items(dirs: seq<Dir>): seq<Item> {
    if dirs == [] then []
    else Items(dirs[..|dirs| - 1]) + ItemsOf(dirs[|dirs| - 1].account, dirs[|dirs| - 1].lines)
  }

  function ScanOf(dirs: seq<Dir>, tokens: Tokens): State {
    Run(Items(Sort(dirs)), tokens)
  }

  /** What the scan answers depends on the directories, not on the order the mapping lists them in. */
  lemma ScanIgnoresOrder(a: seq<Dir>, b: seq<Dir>, tokens: Tokens)
    requires multiset(a) == multiset(b) && Distinct(multiset(a))
    ensures ScanOf(a, tokens) == ScanOf(b, tokens)
  {
    SortSorts(a);
    SortSorts(b);
    SortedIsUnique(Sort(a), Sort(b));
  }

  // ── the loops ─────────────────────────────────────────────────────────────────────────────────

  lemma RunMore(items: seq<Item>, item: Item, tokens: Tokens)
    ensures Run(items + [item], tokens) == Step(Run(items, tokens), item, tokens)
  {
    assert (items + [item])[..|items|] == items;
  }

  /** `scan`: every directory in sorted order, every line of it, the tallies and the record dict updated as it goes. */
  method Scan(dirs: seq<Dir>, tokens: Tokens) returns (s: State)
    ensures s == ScanOf(dirs, tokens)
  {
    var sorted := Sort(dirs);
    s := START;
    ghost var items: seq<Item> := [];
    for d := 0 to |sorted|
      invariant items == Items(sorted[..d]) && s == Run(items, tokens)
    {
      s := ReadDir(s, sorted[d], items, tokens);
      items := items + ItemsOf(sorted[d].account, sorted[d].lines);
      assert sorted[..d + 1][..d] == sorted[..d];
    }
    assert sorted[..|sorted|] == sorted;
  }

  /** The lines of one directory. */
  method ReadDir(was: State, dir: Dir, ghost before: seq<Item>, tokens: Tokens) returns (s: State)
    requires was == Run(before, tokens)
    ensures s == Run(before + ItemsOf(dir.account, dir.lines), tokens)
  {
    s := was;
    ghost var items := before;
    for k := 0 to |dir.lines|
      invariant items == before + ItemsOf(dir.account, dir.lines[..k]) && s == Run(items, tokens)
    {
      RunMore(items, Item(dir.account, dir.lines[k]), tokens);
      s := Read(s, dir.account, dir.lines[k], tokens);
      items := items + [Item(dir.account, dir.lines[k])];
      ItemsMore(dir.account, dir.lines, k);
    }
    assert dir.lines[..|dir.lines|] == dir.lines;
  }

  lemma ItemsMore(account: Account, lines: seq<Line>, k: nat)
    requires k < |lines|
    ensures ItemsOf(account, lines[..k + 1]) == ItemsOf(account, lines[..k]) + [Item(account, lines[k])]
  {
  }

  /** The body of the innermost loop, each `continue` a return. */
  method Read(was: State, account: Account, line: Line, tokens: Tokens) returns (s: State)
    ensures s == Step(was, Item(account, line), tokens)
  {
    s := was;
    if s.aborted || line.Unmarked? {
      return;
    }
    if line.Unparsed? {
      return s.(stats := s.stats.(parseErrors := s.stats.parseErrors + 1));
    }
    if line.NotAssistant? {
      return s.(stats := s.stats.(prefilterNotAssistant := s.stats.prefilterNotAssistant + 1));
    }
    s := s.(stats := s.stats.(assistantLines := s.stats.assistantLines + 1));
    if !line.inWindow {
      return;
    }
    if line.message.None? {
      return s.(stats := s.stats.(parseErrors := s.stats.parseErrors + 1));
    }
    var m := line.message.value;
    if m.usage.NoUsage? || m.id.NoId? {
      return;
    }
    if m.id.Unhashable? {
      return s.(aborted := true);
    }
    if m.id.id in s.owner {
      s := s.(stats := s.stats.(duplicates := s.stats.duplicates + 1));
      var owner := s.owner[m.id.id];
      if owner != account && m.id.id !in s.carriedIds {
        s := s.(carried := s.carried[owner := Get(s.carried, owner) + 1]);
        s := s.(carriedIds := s.carriedIds + {m.id.id});
      }
      return;
    }
    if Overflows(m, tokens) {
      return s.(aborted := true);
    }
    if m.usage.Malformed? {
      return s.(stats := s.stats.(parseErrors := s.stats.parseErrors + 1));
    }
    s := s.(records := s.records + [Record(m.id.id, m.model, ClassOf(m.model, tokens), m.usage, line.effort, line.session, account)]);
    s := s.(owner := s.owner[m.id.id := account]);
  }

  // ── where each line goes ──────────────────────────────────────────────────────────────────────

  /** The id of a line that reaches the dedupe. */
  function UsableId(line: Line): Option<Id> {
    if Usable(line).Some? then Some(Usable(line).value.id.id) else None
  }

  /** The line can be recorded: its id and all four counts read. */
  predicate Good(line: Line, id: Id) {
    UsableId(line) == Some(id) && Usable(line).value.usage.Counts?
  }

  /** The account of the first good line with this id. */
  function OwnerOf(items: seq<Item>, id: Id): Option<Account> {
    if items == [] then None
    else
      var n := |items| - 1;
      OwnerOf(items[..n], id).Or(if Good(items[n].line, id) then Some(items[n].account) else None)
  }

  datatype Fate = OutOfWindow | Unreadable | Unusable | Duplicate | Recorded

  /** What becomes of an assistant line, said of the lines before it and not of any tally. */
  function FateOf(before: seq<Item>, line: Line): Fate
    requires line.Assistant?
  {
    if !line.inWindow then OutOfWindow
    else if line.message.None? then Unreadable
    else if Usable(line).None? then Unusable
    else if OwnerOf(before, UsableId(line).value).Some? then Duplicate
    else if line.message.value.usage.Counts? then Recorded
    else Unreadable
  }

  /** How many assistant lines had this fate. */
  function Tally(items: seq<Item>, fate: Fate): nat {
    if items == [] then 0
    else
      var n := |items| - 1;
      Tally(items[..n], fate) + if items[n].line.Assistant? && FateOf(items[..n], items[n].line) == fate then 1 else 0
  }

  function UnparsedIn(items: seq<Item>): nat {
    if items == [] then 0 else UnparsedIn(items[..|items| - 1]) + if items[|items| - 1].line.Unparsed? then 1 else 0
  }

  function OthersIn(items: seq<Item>): nat {
    if items == [] then 0 else OthersIn(items[..|items| - 1]) + if items[|items| - 1].line.NotAssistant? then 1 else 0
  }

  /** An exception nothing catches, told by the line and the lines before it: in the window and with a usage, its id
      cannot key a dict, or its counts overflow and no earlier good line carries its id. */
  predicate Breaks(before: seq<Item>, line: Line, tokens: Tokens) {
    && line.Assistant? && line.inWindow && line.message.Some? && line.message.value.usage != NoUsage
    && var m := line.message.value;
       || m.id.Unhashable?
       || (m.id.Keyed? && Overflows(m, tokens) && OwnerOf(before, m.id.id).None?)
  }

  /** Some line breaks the scan. */
  predicate AnyBreaks(items: seq<Item>, tokens: Tokens) {
    exists k :: 0 <= k < |items| && Breaks(items[..k], items[k].line, tokens)
  }

  /** The id was met again, after it was recorded, under another account. */
  predicate SeenElsewhere(items: seq<Item>, id: Id) {
    items != [] &&
    var n := |items| - 1;
    || SeenElsewhere(items[..n], id)
    || (UsableId(items[n].line) == Some(id) && OwnerOf(items[..n], id).Some? && OwnerOf(items[..n], id).value != items[n].account)
  }

  /** The state says of every id who owns it, and which were carried. */
  ghost predicate Owned(items: seq<Item>, s: State) {
    && (forall id :: id in s.owner <==> OwnerOf(items, id).Some?)
    && (forall id <- s.owner :: OwnerOf(items, id) == Some(s.owner[id]))
    && (forall id :: id in s.carriedIds <==> SeenElsewhere(items, id))
    && (forall id <- s.carriedIds :: id in s.owner)
  }

  /** The ids this account owns that were carried. */
  function CarriedOf(s: State, a: Account): set<Id> {
    set id | id in s.carriedIds && id in s.owner && s.owner[id] == a
  }

  ghost predicate Tallied(items: seq<Item>, s: State) {
    && s.stats.assistantLines == Tally(items, OutOfWindow) + Tally(items, Unreadable) + Tally(items, Unusable)
                                 + Tally(items, Duplicate) + Tally(items, Recorded)
    && s.stats.duplicates == Tally(items, Duplicate)
    && |s.records| == Tally(items, Recorded)
    && s.stats.parseErrors == UnparsedIn(items) + Tally(items, Unreadable)
    && s.stats.prefilterNotAssistant == OthersIn(items)
  }

  lemma BreaksPrefix(items: seq<Item>, tokens: Tokens)
    requires items != []
    ensures
      var n := |items| - 1;
      AnyBreaks(items, tokens) <==> AnyBreaks(items[..n], tokens) || Breaks(items[..n], items[n].line, tokens)
  {
    var n := |items| - 1;
    assert forall k | 0 <= k < n :: items[..n][..k] == items[..k];
  }

  /** The scan ends in an exception nothing catches if and only if some line in the window, with a usage, carries an id
      that cannot key a dict, or counts that overflow under an id no earlier good line recorded. */
  lemma {:induction false} ScanAbortsIff(items: seq<Item>, tokens: Tokens)
    ensures Run(items, tokens).aborted <==> AnyBreaks(items, tokens)
    ensures !AnyBreaks(items, tokens) ==> Owned(items, Run(items, tokens))
  {
    if items != [] {
      var n := |items| - 1;
      ScanAbortsIff(items[..n], tokens);
      BreaksPrefix(items, tokens);
      if !AnyBreaks(items[..n], tokens) {
        BreakStep(items[..n], Run(items[..n], tokens), items[n], tokens);
        assert items[..n] + [items[n]] == items;
      }
    }
  }

  lemma BreakStep(items: seq<Item>, s: State, item: Item, tokens: Tokens)
    requires Owned(items, s) && !s.aborted
    ensures Step(s, item, tokens).aborted <==> Breaks(items, item.line, tokens)
    ensures !Breaks(items, item.line, tokens) ==> Owned(items + [item], Step(s, item, tokens))
  {
    if !Breaks(items, item.line, tokens) {
      OwnedStep(items, s, item, tokens);
    }
  }

  /** The input: one infinite count under a fresh id ends the whole run, and under an id already recorded is one more
      duplicate. */
  lemma InfiniteCountAborts(items: seq<Item>, a: Account, id: Id, model: string, effort: string, session: string, tokens: Tokens)
    requires !AnyBreaks(items, tokens)
    ensures
      var line := Assistant(true, Some(Message(Keyed(id), Infinite, model)), effort, session);
      var s := Run(items + [Item(a, line)], tokens);
      && (s.aborted <==> OwnerOf(items, id).None?)
      && (!s.aborted ==> s.stats.duplicates == Run(items, tokens).stats.duplicates + 1)
  {
    ScanAbortsIff(items, tokens);
    RunMore(items, Item(a, Assistant(true, Some(Message(Keyed(id), Infinite, model)), effort, session)), tokens);
  }

  lemma OwnersHold(items: seq<Item>, tokens: Tokens)
    requires !AnyBreaks(items, tokens)
    ensures Owned(items, Run(items, tokens))
  {
    ScanAbortsIff(items, tokens);
  }

  lemma OwnedStep(items: seq<Item>, s: State, item: Item, tokens: Tokens)
    requires Owned(items, s) && !s.aborted && !Breaks(items, item.line, tokens)
    ensures Owned(items + [item], Step(s, item, tokens))
  {
    var after := items + [item];
    assert after[..|items|] == items;
    forall id ensures OwnerOf(after, id) == OwnerOf(items, id).Or(if Good(item.line, id) then Some(item.account) else None) {
    }
  }

  // ── what is recorded ──────────────────────────────────────────────────────────────────────────

  /** The text stands somewhere in the name. */
  ghost predicate Within(name: string, text: string) {
    exists pre: string, post: string :: name == pre + text + post
  }

  lemma WithinIffContains(name: string, text: string)
    ensures Within(name, text) <==> Contains(name, text)
  {
    if Within(name, text) {
      var pre: string, post: string :| name == pre + text + post;
      assert name[|pre|..] == text + post;
      assert text <= name[|pre|..];
    }
    if Contains(name, text) {
      var i :| 0 <= i <= |name| && text <= name[i..];
      assert name == name[..i] + text + name[i..][|text|..];
    }
  }

  /** The class is that of the first token that stands in the model's name, and `other` where none does. */
  ghost predicate IsClass(cls: string, model: string, tokens: Tokens) {
    || ((forall k | 0 <= k < |tokens| :: !Within(model, tokens[k].0)) && cls == "other")
    || exists k :: 0 <= k < |tokens| && Within(model, tokens[k].0) && cls == tokens[k].1
                   && forall j | 0 <= j < k :: !Within(model, tokens[j].0)
  }

  lemma {:induction false} ClassOfIsClass(model: string, tokens: Tokens)
    ensures IsClass(ClassOf(model, tokens), model, tokens)
  {
    if tokens != [] {
      WithinIffContains(model, tokens[0].0);
      if !Contains(model, tokens[0].0) {
        ClassOfIsClass(model, tokens[1..]);
        assert forall j | 0 < j < |tokens| :: tokens[j] == tokens[1..][j - 1];
        if exists k :: 0 <= k < |tokens[1..]| && Within(model, tokens[1..][k].0) && ClassOf(model, tokens) == tokens[1..][k].1
                       && forall j | 0 <= j < k :: !Within(model, tokens[1..][j].0) {
          var k :| 0 <= k < |tokens[1..]| && Within(model, tokens[1..][k].0) && ClassOf(model, tokens) == tokens[1..][k].1
                   && forall j | 0 <= j < k :: !Within(model, tokens[1..][j].0);
          assert Within(model, tokens[k + 1].0) && ClassOf(model, tokens) == tokens[k + 1].1;
          assert forall j | 0 <= j < k + 1 :: !Within(model, tokens[j].0);
        }
      }
    }
  }

  lemma OneClass(c: string, d: string, model: string, tokens: Tokens)
    requires IsClass(c, model, tokens) && IsClass(d, model, tokens)
    ensures c == d
  {
  }

  /** A count no float can hold, where a price divides it: of a class that has prices, one of the counts it prices; fable
      prices no cache write, and a class without prices divides nothing. */
  predicate TooHuge(cls: string, u: Usage)
    requires u.Counts?
  {
    match cls
    case "fable" => !Floats(u.input) || !Floats(u.output) || !Floats(u.cacheRead)
    case "opus" => !Floats(u.input) || !Floats(u.output) || !Floats(u.cacheRead) || !Floats(u.cacheWrite)
    case "sonnet" => !Floats(u.input) || !Floats(u.output) || !Floats(u.cacheRead) || !Floats(u.cacheWrite)
    case "haiku" => !Floats(u.input) || !Floats(u.output) || !Floats(u.cacheRead) || !Floats(u.cacheWrite)
    case _ => false
  }

  lemma TooHugeIff(cls: string, u: Usage)
    requires u.Counts?
    ensures TooHuge(cls, u) <==> !Prices(cls, u)
  {
  }

  /** Under a fresh id one such count ends the whole run. */
  lemma HugeCountAborts(items: seq<Item>, a: Account, id: Id, u: Usage, model: string, effort: string, session: string,
                        tokens: Tokens, cls: string)
    requires !AnyBreaks(items, tokens) && u.Counts? && IsClass(cls, model, tokens)
    ensures
      var line := Assistant(true, Some(Message(Keyed(id), u, model)), effort, session);
      Run(items + [Item(a, line)], tokens).aborted <==> OwnerOf(items, id).None? && TooHuge(cls, u)
  {
    ScanAbortsIff(items, tokens);
    ClassOfIsClass(model, tokens);
    OneClass(cls, ClassOf(model, tokens), model, tokens);
    TooHugeIff(cls, u);
    RunMore(items, Item(a, Assistant(true, Some(Message(Keyed(id), u, model)), effort, session)), tokens);
  }

  /** The line at this place is the first good one with its id. */
  predicate FirstGood(items: seq<Item>, i: nat)
    requires i < |items|
  {
    items[i].line.Assistant? && FateOf(items[..i], items[i].line) == Recorded
  }

  /** Those places, in order. */
  function FirstGoods(items: seq<Item>): (at: seq<nat>)
    ensures forall j | 0 <= j < |at| :: at[j] < |items| && FirstGood(items, at[j])
    ensures forall j, k | 0 <= j < k < |at| :: at[j] < at[k]
  {
    if items == [] then []
    else
      var n := |items| - 1;
      var before := FirstGoods(items[..n]);
      assert forall i: nat | i < n :: items[..n][..i] == items[..i];
      before + if FirstGood(items, n) then [n] else []
  }

  lemma {:induction false} FirstGoodsAreAll(items: seq<Item>, i: nat)
    requires i < |items| && FirstGood(items, i)
    ensures i in FirstGoods(items)
  {
    var n := |items| - 1;
    if i < n {
      assert items[..n][..i] == items[..i];
      FirstGoodsAreAll(items[..n], i);
    }
  }

  /** The record holds what its line says, under its line's account. */
  ghost predicate Describes(r: Record, item: Item, tokens: Tokens)
    requires item.line.Assistant? && item.line.message.Some?
  {
    var m := item.line.message.value;
    && m.id == Keyed(r.id) && r.account == item.account
    && r.model == m.model && IsClass(r.cls, m.model, tokens) && r.usage.Counts? && r.usage == m.usage
    && r.effort == item.line.effort && r.session == item.line.session
  }

  lemma {:induction false} FirstGoodOwns(items: seq<Item>, i: nat)
    requires i < |items| && FirstGood(items, i)
    ensures OwnerOf(items, UsableId(items[i].line).value) == Some(items[i].account)
    decreases |items|
  {
    var n := |items| - 1;
    if i < n {
      assert items[..n][..i] == items[..i];
      FirstGoodOwns(items[..n], i);
    }
  }

  /** Where no line breaks the scan, there is one record for each first good line, in their order: it holds what that very
      line says, under the account that owns its id, and no two records share an id. */
  lemma {:induction false} RecordsAre(items: seq<Item>, tokens: Tokens)
    requires !AnyBreaks(items, tokens)
    ensures
      var records, at := Run(items, tokens).records, FirstGoods(items);
      && |records| == |at|
      && (forall j | 0 <= j < |at| :: Describes(records[j], items[at[j]], tokens))
  {
    if items != [] {
      var n := |items| - 1;
      BreaksPrefix(items, tokens);
      RecordsAre(items[..n], tokens);
      ScanAbortsIff(items[..n], tokens);
      RecordStep(items[..n], Run(items[..n], tokens), items[n], tokens);
      var before := FirstGoods(items[..n]);
      assert forall j | 0 <= j < |before| :: items[..n][before[j]] == items[before[j]];
    }
  }

  lemma RecordStep(items: seq<Item>, s: State, item: Item, tokens: Tokens)
    requires Owned(items, s) && !s.aborted && !Breaks(items, item.line, tokens)
    ensures
      var after := Step(s, item, tokens).records;
      if item.line.Assistant? && FateOf(items, item.line) == Recorded then
        |after| == |s.records| + 1 && s.records <= after && Describes(after[|s.records|], item, tokens)
      else after == s.records
  {
    if Usable(item.line).Some? {
      ClassOfIsClass(Usable(item.line).value.model, tokens);
    }
  }

  lemma OneRecordEach(items: seq<Item>, tokens: Tokens, j: nat, k: nat)
    requires !AnyBreaks(items, tokens) && j < k < |Run(items, tokens).records|
    ensures
      var records := Run(items, tokens).records;
      records[j].id != records[k].id && OwnerOf(items, records[j].id) == Some(records[j].account)
  {
    RecordsAre(items, tokens);
    var at := FirstGoods(items);
    FirstGoodOwns(items, at[j]);
    assert items[..at[k]][..at[j]] == items[..at[j]];
    FirstGoodOwns(items[..at[k]], at[j]);
  }

  /** Every assistant line falls in exactly one of five places, and the tallies say how many in each: none is dropped in
      silence, and none is counted twice. */
  lemma {:induction false} LinesReconcile(items: seq<Item>, tokens: Tokens)
    requires !AnyBreaks(items, tokens)
    ensures Tallied(items, Run(items, tokens))
  {
    if items != [] {
      var n := |items| - 1;
      BreaksPrefix(items, tokens);
      LinesReconcile(items[..n], tokens);
      OwnersHold(items[..n], tokens);
      ScanAbortsIff(items[..n], tokens);
      TalliedStep(items[..n], Run(items[..n], tokens), items[n], tokens);
      assert items[..n] + [items[n]] == items;
    }
  }

  /** One line more keeps the tallies. */
  lemma TalliedStep(items: seq<Item>, s: State, item: Item, tokens: Tokens)
    requires Owned(items, s) && Tallied(items, s) && !s.aborted && !Breaks(items, item.line, tokens)
    ensures Tallied(items + [item], Step(s, item, tokens))
  {
    assert (items + [item])[..|items|] == items;
    if item.line.Assistant? {
      var fate := FateOf(items, item.line);
      assert Tally(items + [item], fate) == Tally(items, fate) + 1;
    }
  }

  /** Each account's carried count is the number of distinct ids it owns that were seen again under another account. */
  lemma {:induction false} CarriedCounts(items: seq<Item>, tokens: Tokens, a: Account)
    requires !AnyBreaks(items, tokens)
    ensures
      var s := Run(items, tokens);
      && Get(s.carried, a) == |CarriedOf(s, a)|
      && forall id :: id in CarriedOf(s, a) <==> OwnerOf(items, id) == Some(a) && SeenElsewhere(items, id)
  {
    OwnersHold(items, tokens);
    if items != [] {
      var n := |items| - 1;
      BreaksPrefix(items, tokens);
      CarriedCounts(items[..n], tokens, a);
      OwnersHold(items[..n], tokens);
      ScanAbortsIff(items[..n], tokens);
      CarriedStep(Run(items[..n], tokens), items[n], tokens, a);
    }
  }

  lemma CarriedStep(s: State, item: Item, tokens: Tokens, a: Account)
    requires Get(s.carried, a) == |CarriedOf(s, a)| && forall id <- s.carriedIds :: id in s.owner
    ensures
      var s1 := Step(s, item, tokens);
      Get(s1.carried, a) == |CarriedOf(s1, a)|
  {
    var s1 := Step(s, item, tokens);
    StepCarries(s, item, tokens);
    if s1.carriedIds == s.carriedIds {
      SameCarried(s, s1, a);
    } else {
      OneMoreCarried(s, s1, UsableId(item.line).value, a);
    }
  }

  /** A line carries an id already owned, or leaves what is carried alone. */
  lemma StepCarries(s: State, item: Item, tokens: Tokens)
    ensures
      var s1 := Step(s, item, tokens);
      if s1.carriedIds == s.carriedIds then
        s1.carried == s.carried && forall id <- s.owner :: id in s1.owner && s1.owner[id] == s.owner[id]
      else
        && s1.owner == s.owner && UsableId(item.line).Some?
        && var id := UsableId(item.line).value;
           && id in s.owner && id !in s.carriedIds && s1.carriedIds == s.carriedIds + {id}
           && s1.carried == s.carried[s.owner[id] := Get(s.carried, s.owner[id]) + 1]
  {
  }

  lemma SameCarried(s: State, s1: State, a: Account)
    requires s1.carriedIds == s.carriedIds && forall id <- s.carriedIds :: id in s.owner
    requires forall id <- s.owner :: id in s1.owner && s1.owner[id] == s.owner[id]
    ensures CarriedOf(s1, a) == CarriedOf(s, a)
  {
  }

  lemma OneMoreCarried(s: State, s1: State, id: Id, a: Account)
    requires id in s.owner && id !in s.carriedIds && s1.owner == s.owner && s1.carriedIds == s.carriedIds + {id}
    ensures CarriedOf(s1, a) == if s.owner[id] == a then CarriedOf(s, a) + {id} else CarriedOf(s, a)
    ensures |CarriedOf(s1, a)| == |CarriedOf(s, a)| + if s.owner[id] == a then 1 else 0
  {
    assert CarriedOf(s1, a) == if s.owner[id] == a then CarriedOf(s, a) + {id} else CarriedOf(s, a);
  }

  // ── the buckets ───────────────────────────────────────────────────────────────────────────────

  /** A bucket's counts; a record's own is one record. */
  datatype Bucket = Bucket(n: nat, input: int, output: int, cacheRead: int, cacheWrite: int)

  const EMPTY := Bucket(0, 0, 0, 0, 0)

  function Plus(a: Bucket, b: Bucket): Bucket {
    Bucket(a.n + b.n, a.input + b.input, a.output + b.output, a.cacheRead + b.cacheRead, a.cacheWrite + b.cacheWrite)
  }

  function BucketOf(r: Record): Bucket {
    match r.usage
    case Counts(i, o, cr, cw) => Bucket(1, i, o, cr, cw)
    case _ => Bucket(1, 0, 0, 0, 0)
  }

  type Buckets = map<string, Bucket>

  function At(m: Buckets, k: string): Bucket {
    if k in m then m[k] else EMPTY
  }

  /** `add(m.setdefault(k, bucket()), rec)`. */
  function AddTo(m: Buckets, k: string, r: Record): Buckets {
    m[k := Plus(At(m, k), BucketOf(r))]
  }

  /** The sum of all the buckets. */
  ghost function Total(m: Buckets): Bucket
    decreases |m|
  {
    if m == map[] then EMPTY
    else
      var k :| k in m;
      Plus(m[k], Total(m - {k}))
  }

  /** The sum over the records themselves. */
  function Sum(recs: seq<Record>): Bucket {
    if recs == [] then EMPTY else Plus(Sum(recs[..|recs| - 1]), BucketOf(recs[|recs| - 1]))
  }

  /** The records a key groups together. */
  function Under(recs: seq<Record>, key: Record -> string, k: string): seq<Record> {
    if recs == [] then []
    else
      var last := recs[|recs| - 1];
      Under(recs[..|recs| - 1], key, k) + if key(last) == k then [last] else []
  }

  lemma PlusSwaps(a: Bucket, b: Bucket, c: Bucket)
    ensures Plus(a, Plus(b, c)) == Plus(b, Plus(a, c))
  {
  }

  /** One bucket may be taken out of the total first, whichever it is. */
  lemma {:induction false} TotalOf(m: Buckets, k: string)
    requires k in m
    ensures Total(m) == Plus(m[k], Total(m - {k}))
    decreases |m|
  {
    var j :| j in m && Total(m) == Plus(m[j], Total(m - {j}));
    if j != k {
      TotalOf(m - {j}, k);
      TotalOf(m - {k}, j);
      assert (m - {j})[k] == m[k] && (m - {k})[j] == m[j];
      assert m - {j} - {k} == m - {k} - {j};
      assert Total(m - {j}) == Plus(m[k], Total(m - {j} - {k}));
      assert Total(m - {k}) == Plus(m[j], Total(m - {j} - {k}));
      PlusSwaps(m[j], m[k], Total(m - {j} - {k}));
    }
  }

  lemma TotalAdd(m: Buckets, k: string, r: Record)
    ensures Total(AddTo(m, k, r)) == Plus(Total(m), BucketOf(r))
  {
    var m1 := AddTo(m, k, r);
    TotalOf(m1, k);
    assert m1 - {k} == m - {k};
    if k in m {
      TotalOf(m, k);
    } else {
      assert m - {k} == m;
    }
  }

  /** What the main loop has grouped: each record once by each of the five keys, and once by the registry session its
      uuid names or among the unmapped. */
  datatype Groups = Groups(model: Buckets, cls: Buckets, effort: Buckets, account: Buckets, session: Buckets,
                           ccd: Buckets, unmapped: nat)

  function OrNone(s: string): string {
    if s == "" then "(none)" else s
  }

  /** A grouping holds, under every key, the sum of that key's records. */
  ghost predicate Grouped(m: Buckets, recs: seq<Record>, key: Record -> string) {
    && Total(m) == Sum(recs)
    && forall k :: At(m, k) == Sum(Under(recs, key, k))
  }

  lemma GroupedMore(m: Buckets, recs: seq<Record>, key: Record -> string, r: Record)
    requires Grouped(m, recs, key)
    ensures Grouped(AddTo(m, key(r), r), recs + [r], key)
  {
    TotalAdd(m, key(r), r);
    assert (recs + [r])[..|recs|] == recs;
    forall k ensures At(AddTo(m, key(r), r), k) == Sum(Under(recs + [r], key, k)) {
      var was := Under(recs, key, k);
      if key(r) == k {
        assert (was + [r])[..|was|] == was;
      } else {
        assert was + [] == was;
      }
    }
  }

  function ModelKey(r: Record): string { OrNone(r.model) }
  function ClassKey(r: Record): string { r.cls }
  function EffortKey(r: Record): string { r.effort }
  function AccountKey(r: Record): string { r.account }
  function SessionKey(r: Record): string { OrNone(r.session) }

  predicate Mapped(history: map<string, string>, r: Record) {
    r.session != "" && r.session in history
  }

  function MappedIn(recs: seq<Record>, history: map<string, string>): seq<Record> {
    if recs == [] then []
    else
      var last := recs[|recs| - 1];
      MappedIn(recs[..|recs| - 1], history) + if Mapped(history, last) then [last] else []
  }

  function CcdKey(history: map<string, string>): Record -> string {
    (r: Record) => if r.session in history then history[r.session] else ""
  }

  /** The two grouping loops of `main`. Every record is counted once under each key: the buckets of each grouping sum to
      the records' own sum, each bucket to its own key's records, and the registry sessions' records and the unmapped
      ones are all of them. */
  method Group(recs: seq<Record>, history: map<string, string>) returns (g: Groups)
    ensures Grouped(g.model, recs, ModelKey) && Grouped(g.cls, recs, ClassKey) && Grouped(g.effort, recs, EffortKey)
    ensures Grouped(g.account, recs, AccountKey) && Grouped(g.session, recs, SessionKey)
    ensures Grouped(g.ccd, MappedIn(recs, history), CcdKey(history))
    ensures Total(g.ccd).n + g.unmapped == |recs|
  {
    var five := GroupByKeys(recs);
    var ccd, unmapped := GroupBySession(recs, history);
    g := five.(ccd := ccd, unmapped := unmapped);
  }

  /** The records read so far are grouped under all five keys. */
  ghost predicate AllGrouped(g: Groups, recs: seq<Record>) {
    && Grouped(g.model, recs, ModelKey) && Grouped(g.cls, recs, ClassKey) && Grouped(g.effort, recs, EffortKey)
    && Grouped(g.account, recs, AccountKey) && Grouped(g.session, recs, SessionKey)
  }

  /** A record added to the bucket of each of its keys. */
  function AddRecord(g: Groups, r: Record): Groups {
    Groups(AddTo(g.model, ModelKey(r), r), AddTo(g.cls, ClassKey(r), r), AddTo(g.effort, EffortKey(r), r),
           AddTo(g.account, AccountKey(r), r), AddTo(g.session, SessionKey(r), r), g.ccd, g.unmapped)
  }

  lemma AllGroupedMore(g: Groups, recs: seq<Record>, r: Record)
    requires AllGrouped(g, recs)
    ensures AllGrouped(AddRecord(g, r), recs + [r])
  {
    GroupedMore(g.model, recs, ModelKey, r);
    GroupedMore(g.cls, recs, ClassKey, r);
    GroupedMore(g.effort, recs, EffortKey, r);
    GroupedMore(g.account, recs, AccountKey, r);
    GroupedMore(g.session, recs, SessionKey, r);
  }

  const NO_GROUPS := Groups(map[], map[], map[], map[], map[], map[], 0)

  lemma NothingGrouped()
    ensures AllGrouped(NO_GROUPS, [])
  {
  }

  method GroupByKeys(recs: seq<Record>) returns (g: Groups)
    ensures AllGrouped(g, recs)
  {
    g := NO_GROUPS;
    NothingGrouped();
    ghost var done: seq<Record> := [];
    for i := 0 to |recs|
      invariant done == recs[..i] && AllGrouped(g, done)
    {
      AllGroupedMore(g, done, recs[i]);
      g := AddRecord(g, recs[i]);
      done := done + [recs[i]];
    }
    assert done == recs;
  }

  method GroupBySession(recs: seq<Record>, history: map<string, string>) returns (ccd: Buckets, unmapped: nat)
    ensures Grouped(ccd, MappedIn(recs, history), CcdKey(history))
    ensures Total(ccd).n + unmapped == |recs|
  {
    ccd, unmapped := map[], 0;
    for i := 0 to |recs|
      invariant Grouped(ccd, MappedIn(recs[..i], history), CcdKey(history))
      invariant Total(ccd).n + unmapped == i
    {
      var r := recs[i];
      assert recs[..i + 1][..i] == recs[..i];
      assert MappedIn(recs[..i + 1], history) == MappedIn(recs[..i], history) + if Mapped(history, r) then [r] else [];
      if r.session != "" && r.session in history {
        GroupedMore(ccd, MappedIn(recs[..i], history), CcdKey(history), r);
        TotalAdd(ccd, history[r.session], r);
        ccd := AddTo(ccd, history[r.session], r);
      } else {
        assert MappedIn(recs[..i], history) + [] == MappedIn(recs[..i], history);
        unmapped := unmapped + 1;
      }
    }
    assert recs[..|recs|] == recs;
  }

  // ── whose bucket ──────────────────────────────────────────────────────────────────────────────

  function Added(recs: seq<Record>, count: Record -> int): int {
    if recs == [] then 0 else Added(recs[..|recs| - 1], count) + count(recs[|recs| - 1])
  }

  function InputOf(r: Record): int { if r.usage.Counts? then r.usage.input else 0 }
  function OutputOf(r: Record): int { if r.usage.Counts? then r.usage.output else 0 }
  function CacheReadOf(r: Record): int { if r.usage.Counts? then r.usage.cacheRead else 0 }
  function CacheWriteOf(r: Record): int { if r.usage.Counts? then r.usage.cacheWrite else 0 }

  /** A bucket's five numbers are how many records there are and each count added up over them. */
  lemma {:induction false} SumCounts(recs: seq<Record>)
    ensures Sum(recs).n == |recs|
    ensures Sum(recs).input == Added(recs, InputOf) && Sum(recs).output == Added(recs, OutputOf)
    ensures Sum(recs).cacheRead == Added(recs, CacheReadOf) && Sum(recs).cacheWrite == Added(recs, CacheWriteOf)
  {
    if recs != [] {
      SumCounts(recs[..|recs| - 1]);
    }
  }

  lemma {:induction false} SomeUnder(recs: seq<Record>, key: Record -> string, k: string)
    ensures Under(recs, key, k) != [] <==> exists r <- recs :: key(r) == k
  {
    if recs != [] {
      var n := |recs| - 1;
      SomeUnder(recs[..n], key, k);
      assert recs == recs[..n] + [recs[n]];
    }
  }

  /** A grouping has something under a name exactly where some record carries it. */
  lemma SomeBucket(m: Buckets, recs: seq<Record>, key: Record -> string, k: string)
    requires Grouped(m, recs, key)
    ensures At(m, k).n > 0 <==> exists r <- recs :: key(r) == k
  {
    SumCounts(Under(recs, key, k));
    SomeUnder(recs, key, k);
  }

  /** The name is a record's own, and `(none)` stands for one it lacks. */
  predicate Named(k: string, own: string) {
    k == own || (own == "" && k == "(none)")
  }

  /** Each of the five groupings has a bucket for a name exactly where a record carries it: as its model, its class, its
      effort, its account or its session. */
  lemma BucketsAreNamed(g: Groups, recs: seq<Record>, k: string)
    requires AllGrouped(g, recs) && k != ""
    ensures At(g.model, k).n > 0 <==> exists r <- recs :: Named(k, r.model)
    ensures At(g.cls, k).n > 0 <==> exists r <- recs :: r.cls == k
    ensures At(g.effort, k).n > 0 <==> exists r <- recs :: r.effort == k
    ensures At(g.account, k).n > 0 <==> exists r <- recs :: r.account == k
    ensures At(g.session, k).n > 0 <==> exists r <- recs :: Named(k, r.session)
  {
    SomeBucket(g.model, recs, ModelKey, k);
    SomeBucket(g.cls, recs, ClassKey, k);
    SomeBucket(g.effort, recs, EffortKey, k);
    SomeBucket(g.account, recs, AccountKey, k);
    SomeBucket(g.session, recs, SessionKey, k);
    assert forall r: Record :: ModelKey(r) == k <==> Named(k, r.model);
    assert forall r: Record :: SessionKey(r) == k <==> Named(k, r.session);
  }

  /** The history maps this record's session uuid to a registry session. */
  predicate Belongs(r: Record, history: map<string, string>, k: string) {
    r.session != "" && r.session in history && history[r.session] == k
  }

  lemma {:induction false} MappedAre(recs: seq<Record>, history: map<string, string>)
    ensures forall r :: r in MappedIn(recs, history) <==> r in recs && r.session != "" && r.session in history
    ensures |MappedIn(recs, history)| == |recs| <==> forall r <- recs :: r.session != "" && r.session in history
    ensures |MappedIn(recs, history)| <= |recs|
  {
    if recs != [] {
      var n := |recs| - 1;
      MappedAre(recs[..n], history);
      assert recs == recs[..n] + [recs[n]];
    }
  }

  /** A registry session has a bucket exactly where the history maps a record's session uuid to it, and nothing is
      unmapped exactly where it maps every record's. */
  lemma CcdBucketsAreNamed(ccd: Buckets, unmapped: nat, recs: seq<Record>, history: map<string, string>, k: string)
    requires Grouped(ccd, MappedIn(recs, history), CcdKey(history)) && Total(ccd).n + unmapped == |recs|
    ensures At(ccd, k).n > 0 <==> exists r <- recs :: Belongs(r, history, k)
    ensures unmapped == 0 <==> forall r <- recs :: r.session != "" && r.session in history
  {
    MappedAre(recs, history);
    SomeBucket(ccd, MappedIn(recs, history), CcdKey(history), k);
    SumCounts(MappedIn(recs, history));
    assert forall r <- MappedIn(recs, history) :: CcdKey(history)(r) == k <==> Belongs(r, history, k);
  }
}
