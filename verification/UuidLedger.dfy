/** The history of session uuids a sweep keeps beside its output (ccd/ccd-usage-sweep.py `merge_uuid_ledger`). */
module UuidLedger {
  import opened Wrappers

  const KEEP_SECONDS: int := 2592000

  datatype Row = Row(id: string, seen: int)

  type Ledger = map<string, Row>

  /** One sweep: the uuids live rows name, its clock, whether the ledger could be read and parsed, and whether it could
      be written back. */
  datatype Sweep = Sweep(current: map<string, string>, now: int, read: bool, wrote: bool)

  /** The ledger a sweep works on: the current map over the one read, stale rows dropped. */
  function Merge(ledger: Ledger, current: map<string, string>, now: int): Ledger {
    map u | u in ledger.Keys + current.Keys && now - (if u in current then now else ledger[u].seen) <= KEEP_SECONDS
      :: if u in current then Row(current[u], now) else ledger[u]
  }

  /** What a sweep starts from: the file, or nothing where it cannot be read or parsed. */
  function Start(file: Ledger, read: bool): Ledger {
    if read then file else map[]
  }

  /** What stands in the file after these sweeps; none before the first. */
  function FileAfter(sweeps: seq<Sweep>): Ledger {
    if sweeps == [] then map[]
    else
      var last := sweeps[|sweeps| - 1];
      var before := FileAfter(sweeps[..|sweeps| - 1]);
      if last.wrote then Merge(Start(before, last.read), last.current, last.now) else before
  }

  /** The last written sweep that named the uuid, no further back than the last one that could not read the ledger and
      wrote over it. */
  function LastNaming(sweeps: seq<Sweep>, u: string): Option<Row> {
    if sweeps == [] then None
    else
      var last := sweeps[|sweeps| - 1];
      if last.wrote && u in last.current then Some(Row(last.current[u], last.now))
      else if last.wrote && !last.read then None
      else LastNaming(sweeps[..|sweeps| - 1], u)
  }

  /** The clock of the last written sweep. */
  function LastWritten(sweeps: seq<Sweep>): Option<int> {
    if sweeps == [] then None
    else if sweeps[|sweeps| - 1].wrote then Some(sweeps[|sweeps| - 1].now)
    else LastWritten(sweeps[..|sweeps| - 1])
  }

  predicate ClockRuns(sweeps: seq<Sweep>) {
    forall i, j | 0 <= i < j < |sweeps| :: sweeps[i].now <= sweeps[j].now
  }

  lemma {:induction false} NamedByThen(sweeps: seq<Sweep>, u: string)
    requires LastNaming(sweeps, u).Some?
    ensures LastWritten(sweeps).Some?
  {
    if !sweeps[|sweeps| - 1].wrote || u !in sweeps[|sweeps| - 1].current {
      NamedByThen(sweeps[..|sweeps| - 1], u);
    }
  }

  lemma {:induction false} WrittenByNow(sweeps: seq<Sweep>, now: int)
    requires forall s <- sweeps :: s.now <= now
    ensures LastWritten(sweeps).Some? ==> LastWritten(sweeps).value <= now
  {
    if sweeps != [] && !sweeps[|sweeps| - 1].wrote {
      WrittenByNow(sweeps[..|sweeps| - 1], now);
    }
  }

  /** Through any number of sweeps, however many could not read or could not write, the file remembers of each uuid
      exactly the last row a written sweep saw name it, back to the last sweep that wrote without having read, and
      forgets it exactly when the last written sweep ran more than thirty days after. */
  lemma {:induction false} Remembers(sweeps: seq<Sweep>, u: string)
    requires ClockRuns(sweeps)
    ensures
      var row := LastNaming(sweeps, u);
      if row.Some? && LastWritten(sweeps).Some? && LastWritten(sweeps).value - row.value.seen <= KEEP_SECONDS
      then u in FileAfter(sweeps) && FileAfter(sweeps)[u] == row.value
      else u !in FileAfter(sweeps)
  {
    if sweeps != [] {
      var n := |sweeps| - 1;
      Remembers(sweeps[..n], u);
      WrittenByNow(sweeps[..n], sweeps[n].now);
      if LastNaming(sweeps[..n], u).Some? {
        NamedByThen(sweeps[..n], u);
      }
    }
  }

  /** What a sweep joins its records to: the live row wherever one names the uuid, else the remembered one, which a
      sweep that cannot read the ledger does not have. */
  lemma LiveRowWins(sweeps: seq<Sweep>, current: map<string, string>, now: int, read: bool, u: string)
    requires ClockRuns(sweeps) && forall s <- sweeps :: s.now <= now
    ensures
      var joined := Merge(Start(FileAfter(sweeps), read), current, now);
      var row := LastNaming(sweeps, u);
      if u in current then u in joined && joined[u].id == current[u]
      else
        && (u in joined <==> read && row.Some? && now - row.value.seen <= KEEP_SECONDS)
        && (u in joined ==> joined[u] == row.value)
  {
    Remembers(sweeps, u);
    WrittenByNow(sweeps, now);
    if LastNaming(sweeps, u).Some? {
      NamedByThen(sweeps, u);
    }
  }

  /** Exactly what a failed read costs: a written sweep that could not read the ledger forgets a uuid that the file
      held and no live row names, and one that could read it forgets it only when it is stale. */
  lemma FailedReadForgetsIff(sweeps: seq<Sweep>, s: Sweep, u: string)
    requires ClockRuns(sweeps + [s]) && s.wrote && u in FileAfter(sweeps) && u !in s.current
    requires s.now - FileAfter(sweeps)[u].seen <= KEEP_SECONDS
    ensures u !in FileAfter(sweeps + [s]) <==> !s.read
  {
    assert (sweeps + [s])[..|sweeps|] == sweeps;
  }
}
