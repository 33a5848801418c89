/** A sign-in's commit: what it leaves when it returns, what it leaves when it raises, and when it is all or nothing. */
module AuthSignin {
  import opened Wrappers
  import opened Credential
  import opened AuthSteps
  import opened AuthFacts
  import opened AuthRuns
  import opened AuthPairs
  import opened AuthDead

  predicate NoDeath(f: CommitFaults) {
    && !f.unlink.Dies? && !f.create.Dies? && !f.chmod.Dies? && !f.write.Dies? && !f.sync.Dies?
    && !f.rename.Dies? && !f.dirsync.Dies? && !f.cleanup.Dies?
  }

  /** This reading of a path where a file stands (`there`) or none does answers unreadable. */
  predicate Blind(r: ReadFate, there: bool) {
    r.LstatFails? || (r.ReadFails? && there)
  }

  /** The try renames the record into place. */
  predicate TryReplaces(f: CommitFaults, there: bool) {
    !Blind(f.read, there) && Fsynced(f) && f.rename.Fine?
  }

  /** Some try that is reached replaces the file. */
  predicate Replaces(fs: seq<CommitFaults>, there: bool) {
    fs != [] && !Blind(fs[0].read, there) && (TryReplaces(fs[0], there) || Replaces(fs[1..], there))
  }

  /** The tries end in a refusal: a re-read of one fails before one lands whole, or none lands whole and the last
      reading does not find the record in the file. */
  predicate Refuses(fs: seq<CommitFaults>, reread: ReadFate, there: bool, replaced: bool) {
    if fs == [] then !(replaced && reread.Reads?)
    else if Blind(fs[0].read, there) then true
    else if TryReplaces(fs[0], there) && fs[0].dirsync.Fine? then false
    else
      var now := TryReplaces(fs[0], there);
      Refuses(fs[1..], reread, there || now, replaced || now)
  }

  /** The re-read of some try that is reached fails. */
  predicate StopsBlind(fs: seq<CommitFaults>, there: bool) {
    && fs != []
    && (|| Blind(fs[0].read, there)
        || (!(TryReplaces(fs[0], there) && fs[0].dirsync.Fine?) && StopsBlind(fs[1..], there || TryReplaces(fs[0], there))))
  }

  predicate There(w: World) {
    !w.cred.Missing?
  }

  /** One try over a file that can be written over. */
  lemma OneTry(w: World, p: Proc, rec: Record, refreshed: Option<Refreshed>, f: CommitFaults)
    requires Valid(w) && Writable(w.cred) && NoDeath(f)
    ensures
      var c := CommitRecord(w, p, rec, refreshed, f);
      if Blind(f.read, There(w)) then c == Run(w, Raise(UnreadableRefusal))
      else if !TryReplaces(f, There(w)) then c.out == Value(false) && c.w.cred == w.cred
      else Holds(c.w.cred, rec) && c.w.cred != w.cred && c.out == Value(f.dirsync.Fine?)
  {
    CheckpointShape(w, p, rec, f);
    FsyncedWrote(w, p, rec, f);
  }

  /** The tries: the record is in the file exactly when one of them replaced it. */
  lemma {:induction false} TriesEnd(w: World, p: Proc, rec: Record, refreshed: Refreshed, fs: seq<CommitFaults>,
                                    reread: ReadFate, replaced: bool)
    requires Valid(w) && Complete(rec) && Writable(w.cred) && forall f <- fs :: NoDeath(f)
    requires replaced ==> Holds(w.cred, rec)
    ensures
      var t := Tries(w, p, rec, refreshed, fs);
      && !t.out.Died?
      && (Replaces(fs, There(w)) ==> t.w.cred != w.cred && Holds(t.w.cred, rec))
      && (!Replaces(fs, There(w)) ==> t.w.cred == w.cred)
      && (Refuses(fs, reread, There(w), replaced) <==>
          t.out.Raise? || (t.out == Value(false) && !((replaced || Replaces(fs, There(w))) && reread.Reads?)))
      && (t.out == Value(true) ==> Replaces(fs, There(w)))
      && (t.out.Raise? <==> StopsBlind(fs, There(w)))
      && (t.out.Raise? ==> t.out.e == UnreadableRefusal)
    decreases |fs|
  {
    if fs != [] {
      assert fs[0] in fs;
      OneTry(w, p, rec, Some(refreshed), fs[0]);
      CommitMoves(w, p, rec, Some(refreshed), fs[0]);
      var c := CommitRecord(w, p, rec, Some(refreshed), fs[0]);
      if c.out == Value(false) {
        TriesEnd(c.w, p, rec, refreshed, fs[1..], reread, replaced || TryReplaces(fs[0], There(w)));
        TriesMoves(c.w, p, rec, refreshed, fs[1..]);
        if c.w.cred != w.cred {
          NeverComesBack(w, c.w, Tries(c.w, p, rec, refreshed, fs[1..]).w, p);
        }
      }
    }
  }

  /** How a sign-in's tries end, over every pattern of failures and no death: when it returns, the file holds its
      record and nothing is unsaved; when it raises, the unsaved map is exactly as before. It raises, and the file is
      replaced, exactly when the failures say so; a failed directory fsync after a landed rename is signed in. What it
      raises is that the file is unreadable where a try's re-read failed, and else that the login failed. */
  lemma SigninEnds(w: World, p: Proc, cfg: nat, rec: Record, refreshed: Refreshed, f: SigninFaults)
    requires Valid(w) && Complete(rec) && Writable(w.cred) && !SameTokens(w.cred, rec)
    requires (forall g <- f.tries :: NoDeath(g)) && !f.status.Dies?
    requires Unwritable(ReadRaw(w, p, f.measure, f.read)).None?
    ensures
      var c := SigninTries(w, p, cfg, rec, refreshed, f);
      && !c.out.Died?
      && (c.out.Raise? <==> Refuses(f.tries, f.reread, There(w), false))
      && (c.w.cred != w.cred <==> Replaces(f.tries, There(w)))
      && (c.out.Value? ==> Holds(c.w.cred, rec) && p !in c.w.unsaved)
      && (c.out.Raise? ==> c.w.unsaved == w.unsaved)
      && (c.out.Raise? ==> c.out.e == if StopsBlind(f.tries, There(w)) then UnreadableRefusal else LoginFailed)
  {
    TriesEnd(w, p, rec, refreshed, f.tries, f.reread, false);
    TriesKeepOthers(w, p, rec, refreshed, f.tries);
    var t := Tries(w, p, rec, refreshed, f.tries);
    LandedIff(t.w, rec, f.reread);
    if t.w.cred == w.cred {
      assert !SameTokens(t.w.cred, rec);
    }
  }

  lemma LandedIff(w: World, rec: Record, f: ReadFate)
    requires Complete(rec)
    ensures Landed(w, rec, f) <==> f.Reads? && SameTokens(w.cred, rec)
  {
  }

  /** The try renames its record over the file that stands, and the directory's fsync succeeds. */
  predicate LandsWhole(f: CommitFaults) {
    TryReplaces(f, true) && f.dirsync.Fine?
  }

  /** The readings of the file the tries begin with, in order, and the last one, after them all. */
  function ReadingAt(fs: seq<CommitFaults>, reread: ReadFate, k: nat): ReadFate
    requires k <= |fs|
  {
    if k < |fs| then fs[k].read else reread
  }

  /** One of these readings fails, and no try before it lands whole. */
  ghost predicate Unread(fs: seq<CommitFaults>, reread: ReadFate) {
    exists k :: 0 <= k <= |fs| && !ReadingAt(fs, reread, k).Reads? && forall m | 0 <= m < k :: !LandsWhole(fs[m])
  }

  /** Try `i` is the first to rename its record into place: none before it is refused by its reading or renames. */
  ghost predicate FirstReplaces(fs: seq<CommitFaults>, there: bool, i: nat) {
    && i < |fs| && TryReplaces(fs[i], there)
    && forall m | 0 <= m < i :: !Blind(fs[m].read, there) && !TryReplaces(fs[m], there)
  }

  /** The first try that renames its record into place fails to fsync the directory, and of the readings after it one
      fails before any try lands whole. */
  ghost predicate ReplacedUnread(fs: seq<CommitFaults>, reread: ReadFate, there: bool) {
    exists i: nat :: FirstReplaces(fs, there, i) && fs[i].dirsync.Fails? && Unread(fs[i + 1..], reread)
  }

  lemma {:induction false} RefusesAfter(fs: seq<CommitFaults>, reread: ReadFate)
    ensures Refuses(fs, reread, true, true) <==> Unread(fs, reread)
    decreases |fs|
  {
    if fs == [] {
      assert ReadingAt(fs, reread, 0) == reread;
    } else if Blind(fs[0].read, true) {
      assert !ReadingAt(fs, reread, 0).Reads?;
    } else {
      RefusesAfter(fs[1..], reread);
      if Unread(fs[1..], reread) && !LandsWhole(fs[0]) {
        var k :| 0 <= k <= |fs[1..]| && !ReadingAt(fs[1..], reread, k).Reads? && forall m | 0 <= m < k :: !LandsWhole(fs[1..][m]);
        assert !ReadingAt(fs, reread, k + 1).Reads?;
        assert forall m | 0 < m < k + 1 :: fs[m] == fs[1..][m - 1];
      }
      if Unread(fs, reread) {
        var k :| 0 <= k <= |fs| && !ReadingAt(fs, reread, k).Reads? && forall m | 0 <= m < k :: !LandsWhole(fs[m]);
        assert ReadingAt(fs, reread, 0).Reads?;
        assert !ReadingAt(fs[1..], reread, k - 1).Reads?;
        assert forall m | 0 <= m < k - 1 :: fs[1..][m] == fs[m + 1];
      }
    }
  }

  lemma FirstReplacesTail(fs: seq<CommitFaults>, there: bool, i: nat)
    requires 0 < |fs| && !Blind(fs[0].read, there) && !TryReplaces(fs[0], there)
    ensures FirstReplaces(fs, there, i + 1) <==> FirstReplaces(fs[1..], there, i)
  {
    if FirstReplaces(fs[1..], there, i) {
      assert forall m | 0 < m < i + 1 :: fs[m] == fs[1..][m - 1];
    }
    if FirstReplaces(fs, there, i + 1) {
      assert forall m | 0 <= m < i :: fs[1..][m] == fs[m + 1];
    }
  }

  /** Replaying the tries finds exactly that. */
  lemma {:induction false} ReplayFinds(fs: seq<CommitFaults>, reread: ReadFate, there: bool)
    requires forall f <- fs :: NoDeath(f)
    ensures Replaces(fs, there) && Refuses(fs, reread, there, false) <==> ReplacedUnread(fs, reread, there)
    decreases |fs|
  {
    if fs == [] || Blind(fs[0].read, there) {
    } else if TryReplaces(fs[0], there) {
      assert fs[0] in fs;
      RefusesAfter(fs[1..], reread);
      assert FirstReplaces(fs, there, 0);
      assert forall i: nat | FirstReplaces(fs, there, i) :: i == 0;
    } else {
      ReplayFinds(fs[1..], reread, there);
      if ReplacedUnread(fs[1..], reread, there) {
        var i: nat :| FirstReplaces(fs[1..], there, i) && fs[1..][i].dirsync.Fails? && Unread(fs[1..][i + 1..], reread);
        FirstReplacesTail(fs, there, i);
        assert fs[1..][i + 1..] == fs[i + 2..];
      }
      if ReplacedUnread(fs, reread, there) {
        var i: nat :| FirstReplaces(fs, there, i) && fs[i].dirsync.Fails? && Unread(fs[i + 1..], reread);
        FirstReplacesTail(fs, there, i - 1);
        assert fs[1..][i..] == fs[i + 1..];
      }
    }
  }

  /** Exactly when a sign-in is not all or nothing: the first rename that landed was followed by a failing fsync of its
      directory, and a later reading of the file it put there fails before any try lands whole. The sign-in then raises,
      though the file holds its record. */
  lemma SigninAllOrNothingIff(w: World, p: Proc, cfg: nat, rec: Record, refreshed: Refreshed, f: SigninFaults)
    requires Valid(w) && Complete(rec) && Writable(w.cred) && !SameTokens(w.cred, rec)
    requires (forall g <- f.tries :: NoDeath(g)) && !f.status.Dies?
    requires Unwritable(ReadRaw(w, p, f.measure, f.read)).None?
    ensures
      var c := SigninTries(w, p, cfg, rec, refreshed, f);
      (if c.out.Raise? then c.w.cred == w.cred && c.w.unsaved == w.unsaved
       else Holds(c.w.cred, rec) && p !in c.w.unsaved)
      <==> !ReplacedUnread(f.tries, f.reread, There(w))
  {
    SigninEnds(w, p, cfg, rec, refreshed, f);
    ReplayFinds(f.tries, f.reread, There(w));
  }

  /** Every reading succeeding, a sign-in that raises has left the file and the unsaved map exactly as they were. */
  lemma RefusedReplacesNothing(w: World, p: Proc, cfg: nat, rec: Record, refreshed: Refreshed, f: SigninFaults)
    requires Valid(w) && Complete(rec) && Writable(w.cred)
    requires (forall g <- f.tries :: NoDeath(g) && g.read.Reads?) && f.reread.Reads? && !f.status.Dies?
    ensures
      var c := SigninTries(w, p, cfg, rec, refreshed, f);
      c.out.Raise? ==> c.w.cred == w.cred && c.w.unsaved == w.unsaved
  {
    if Unwritable(ReadRaw(w, p, f.measure, f.read)).None? {
      TriesEnd(w, p, rec, refreshed, f.tries, f.reread, false);
      TriesKeepOthers(w, p, rec, refreshed, f.tries);
      RefusalsReplaceNothing(f.tries, There(w), false);
      LandedIff(Tries(w, p, rec, refreshed, f.tries).w, rec, f.reread);
    }
  }

  lemma {:induction false} RefusalsReplaceNothing(fs: seq<CommitFaults>, there: bool, replaced: bool)
    requires forall f <- fs :: f.read.Reads?
    ensures Refuses(fs, Reads, there, replaced) ==> !replaced && !Replaces(fs, there)
    decreases |fs|
  {
    if fs != [] {
      assert fs[0] in fs;
      var now := TryReplaces(fs[0], there);
      RefusalsReplaceNothing(fs[1..], there || now, replaced || now);
    }
  }

  /** A sign-in that carries the two tokens a file already holds is taken for one that landed: no try replaced the file,
      and it returns, writing ok over whatever the status said, exactly when the last reading succeeds. */
  lemma SameTokensSignInIff(w: World, p: Proc, cfg: nat, rec: Record, refreshed: Refreshed, f: SigninFaults)
    requires Valid(w) && Complete(rec) && Writable(w.cred) && SameTokens(w.cred, rec)
    requires (forall g <- f.tries :: NoDeath(g) && g.read.Reads?) && !Replaces(f.tries, true) && f.status.Fine?
    requires Unwritable(ReadRaw(w, p, f.measure, f.read)).None?
    ensures
      var c := SigninTries(w, p, cfg, rec, refreshed, f);
      && c.w.cred == w.cred
      && (c.out.Value? <==> f.reread.Reads?)
      && (c.out.Value? ==> c.w.status.Some? && c.w.status.value.state == StateOk)
  {
    TriesEnd(w, p, rec, refreshed, f.tries, f.reread, false);
    NoneReplaces(w, p, rec, refreshed, f.tries);
    LandedIff(Tries(w, p, rec, refreshed, f.tries).w, rec, f.reread);
  }

  lemma {:induction false} NoneReplaces(w: World, p: Proc, rec: Record, refreshed: Refreshed, fs: seq<CommitFaults>)
    requires Valid(w) && Complete(rec) && Writable(w.cred) && There(w)
    requires (forall f <- fs :: NoDeath(f) && f.read.Reads?) && !Replaces(fs, true)
    ensures Tries(w, p, rec, refreshed, fs).out == Value(false)
    decreases |fs|
  {
    if fs != [] {
      assert fs[0] in fs;
      OneTry(w, p, rec, Some(refreshed), fs[0]);
      CommitMoves(w, p, rec, Some(refreshed), fs[0]);
      NoneReplaces(CommitRecord(w, p, rec, Some(refreshed), fs[0]).w, p, rec, refreshed, fs[1..]);
    }
  }
}
