/**
  In-place encryption of the database and of its migration backups (`cmd_database_encrypt`): a
  rename protocol over a few files per database, in which any single step may fail with an exception
  or end the process. A database is a main file and a write-ahead log beside it.
 */
module Encryption {

  /** `Fresh` is the content of a newly created database. */
  datatype Data = Fresh | Rows(n: nat)

  /** Files by the database they belong to. */
  datatype Name = Main(path: string) | Wal(path: string) | Shm(path: string) | Tmp(path: string) | Rollback(path: string)

  /** What a file holds: a log holds the content that its database has with it. */
  datatype Content = Blank | Partial | Plain(data: Data) | Cipher(data: Data) | Log(data: Data)

  type Files = map<Name, Content>

  datatype Fate = Works | Raises | Dies

  datatype Outcome = Done | Raised | Crashed

  function OutcomeOf(f: Fate): Outcome {
    match f case Works => Done case Raises => Raised case Dies => Crashed
  }

  /** Where a replacement stood when it ended. */
  datatype Stage = Exporting | Swapping | Swapped | Restoring | Clean

  datatype Format = Missing | Empty | Plaintext | CipherOrUnknown

  function FormatOf(fs: Files, p: string): Format {
    if Main(p) !in fs then Missing
    else
      match fs[Main(p)]
      case Blank => Empty
      case Plain(_) => Plaintext
      case _ => CipherOrUnknown
  }

  /** The content a reader of the plaintext database at `p` sees. */
  function Whole(fs: Files, p: string): Data
    requires FormatOf(fs, p) == Plaintext
  {
    if Wal(p) in fs && fs[Wal(p)].Log? then fs[Wal(p)].data else fs[Main(p)].data
  }

  /** A plaintext database at `p` with content `d`. */
  predicate PlainAt(fs: Files, p: string, d: Data) {
    FormatOf(fs, p) == Plaintext && Whole(fs, p) == d
  }

  predicate CipherAt(fs: Files, p: string, d: Data) {
    Main(p) in fs && fs[Main(p)] == Cipher(d)
  }

  predicate RollbackHolds(fs: Files, p: string, d: Data) {
    Rollback(p) in fs && fs[Rollback(p)] == Plain(d)
  }

  /** Some file of the database at `p` has all of `d`: the main file, or the rollback when there is
      no main file. */
  predicate Safe(fs: Files, p: string, d: Data) {
    PlainAt(fs, p, d) || CipherAt(fs, p, d) || (Main(p) !in fs && RollbackHolds(fs, p, d))
  }

  /** No file of the database at `p` has any of `d`. */
  ghost predicate Lost(fs: Files, p: string, d: Data) {
    forall n: Name :: n in fs && n.path == p ==> fs[n] !in {Plain(d), Cipher(d), Log(d)}
  }

  /** `sorted(backup_dir.glob("*.db"))` */
  function Listing(fs: Files, all: seq<string>): (r: seq<string>)
    ensures forall p :: p in r <==> p in all && Main(p) in fs
  {
    if all == [] then [] else (if Main(all[0]) in fs then [all[0]] else []) + Listing(fs, all[1..])
  }

  predicate Distinct(ps: seq<string>) {
    forall i, j :: 0 <= i < j < |ps| ==> ps[i] != ps[j]
  }

  lemma {:induction false} ListingDistinct(fs: Files, all: seq<string>)
    requires Distinct(all)
    ensures Distinct(Listing(fs, all))
  {
    if all != [] {
      ListingDistinct(fs, all[1..]);
      var rest := Listing(fs, all[1..]);
      assert forall j :: 0 <= j < |rest| ==> rest[j] in all[1..];
    }
  }

  /** What encrypting the backups does to one of them. */
  ghost predicate Converted(before: Files, after: Files, p: string) {
    if FormatOf(before, p) == Plaintext then CipherAt(after, p, Whole(before, p)) else Same(before, after, p)
  }

  /** What had a safe copy still has one. */
  ghost predicate KeepsSafe(before: Files, after: Files, p: string) {
    forall d :: Safe(before, p, d) ==> Safe(after, p, d)
  }

  lemma SameKeepsSafe(before: Files, after: Files, p: string)
    requires Same(before, after, p)
    ensures KeepsSafe(before, after, p)
  {
    assert Main(p).path == p && Wal(p).path == p && Rollback(p).path == p;
  }

  lemma LeftKeepsSafe(before: Files, after: Files, p: string, o: Outcome, stage: Stage)
    requires FormatOf(before, p) == Plaintext && Left(after, p, Whole(before, p), o, stage)
    ensures KeepsSafe(before, after, p)
  {
  }

  lemma AllKeepSafe(before: Files, after: Files, listed: seq<string>)
    requires forall p :: p !in listed ==> Same(before, after, p)
    requires forall p :: p in listed ==> KeepsSafe(before, after, p)
    ensures forall p :: KeepsSafe(before, after, p)
  {
    forall p: string ensures KeepsSafe(before, after, p) {
      if p !in listed {
        SameKeepsSafe(before, after, p);
      }
    }
  }

  function CountPlain(fs: Files, ps: seq<string>): nat {
    if ps == [] then 0
    else CountPlain(fs, ps[..|ps| - 1]) + (if FormatOf(fs, ps[|ps| - 1]) == Plaintext then 1 else 0)
  }

  /** The databases other than `p` are as they were. */
  ghost predicate Elsewhere(before: Files, after: Files, p: string) {
    forall n: Name :: n.path != p ==> (n in before <==> n in after) && (n in before ==> before[n] == after[n])
  }

  ghost predicate Same(before: Files, after: Files, p: string) {
    forall n: Name :: n.path == p ==> (n in before <==> n in after) && (n in before ==> before[n] == after[n])
  }

  /** How a replacement of the database at `p`, with content `d`, may leave the files. */
  predicate Left(fs: Files, p: string, d: Data, o: Outcome, stage: Stage) {
    match stage
    case Exporting => !o.Done? && PlainAt(fs, p, d)
    case Swapping => o.Crashed? && Main(p) !in fs && RollbackHolds(fs, p, d) && Tmp(p) in fs && fs[Tmp(p)] == Cipher(d)
    case Swapped => !o.Done? && CipherAt(fs, p, d)
    case Restoring => !o.Done? && Main(p) !in fs && RollbackHolds(fs, p, d)
    case Clean =>
      match o
      case Done => CipherAt(fs, p, d) && Tmp(p) !in fs && Rollback(p) !in fs && Wal(p) !in fs && Shm(p) !in fs
      case Raised => PlainAt(fs, p, d) && Rollback(p) !in fs
      case Crashed => false
  }

  /** The listed backups `done` are converted and the other databases untouched. */
  ghost predicate Progress(start: Files, now: Files, done: seq<string>) {
    && (forall p :: p !in done ==> Same(start, now, p))
    && (forall p :: p in done ==> Converted(start, now, p) && KeepsSafe(start, now, p))
  }

  lemma ElsewhereSame(before: Files, after: Files, q: string, p: string)
    requires Elsewhere(before, after, q) && p != q
    ensures Same(before, after, p)
  {
  }

  lemma SameTwice(before: Files, mid: Files, after: Files, p: string)
    requires Same(before, mid, p) && Same(mid, after, p)
    ensures Same(before, after, p)
  {
  }

  /** After one more backup, done or interrupted. */
  lemma Advance(start: Files, before: Files, after: Files, listed: seq<string>, i: nat)
    requires i < |listed| && Distinct(listed) && Progress(start, before, listed[..i])
    requires Elsewhere(before, after, listed[i]) && KeepsSafe(before, after, listed[i])
    ensures forall p :: p !in listed ==> Same(start, after, p)
    ensures forall p :: KeepsSafe(start, after, p)
    ensures FormatOf(start, listed[i]) == FormatOf(before, listed[i])
    ensures CountPlain(start, listed[..i + 1])
         == CountPlain(start, listed[..i]) + if FormatOf(before, listed[i]) == Plaintext then 1 else 0
  {
    assert listed[..i + 1][..i] == listed[..i];
    assert Same(start, before, listed[i]) && Main(listed[i]).path == listed[i];
    forall p ensures p !in listed ==> Same(start, after, p) {
      if p !in listed {
        assert p !in listed[..i] && listed[i] in listed;
        ElsewhereSame(before, after, listed[i], p);
        SameTwice(start, before, after, p);
      }
    }
    forall p ensures KeepsSafe(start, after, p) {
      if p !in listed[..i] {
        SameKeepsSafe(start, before, p);
      }
      if p != listed[i] {
        ElsewhereSame(before, after, listed[i], p);
        SameKeepsSafe(before, after, p);
      }
    }
  }

  lemma Converts(start: Files, before: Files, after: Files, listed: seq<string>, i: nat)
    requires i < |listed| && Distinct(listed) && Progress(start, before, listed[..i])
    requires Elsewhere(before, after, listed[i])
    requires Converted(before, after, listed[i]) && KeepsSafe(before, after, listed[i])
    ensures Progress(start, after, listed[..i + 1])
  {
    var q := listed[i];
    assert Same(start, before, q) && Main(q).path == q && Wal(q).path == q;
    SameKeepsSafe(start, before, q);
    forall p ensures p !in listed[..i + 1] ==> Same(start, after, p) {
      if p !in listed[..i + 1] {
        assert listed[..i + 1] == listed[..i] + [q];
        assert p !in listed[..i] && p != q;
        ElsewhereSame(before, after, q, p);
        SameTwice(start, before, after, p);
      }
    }
    forall p | p in listed[..i + 1] ensures Converted(start, after, p) && KeepsSafe(start, after, p) {
      if p != q {
        assert p in listed[..i];
        ElsewhereSame(before, after, q, p);
        SameKeepsSafe(before, after, p);
        assert Main(p).path == p;
      }
    }
  }

  lemma Untouched(before: Files, after: Files, db: string, all: seq<string>)
    requires db !in all && Elsewhere(before, after, db)
    ensures forall p :: p in all ==> KeepsSafe(before, after, p)
    ensures forall p :: p != db ==> Same(before, after, p)
  {
    forall p | p != db ensures Same(before, after, p) && KeepsSafe(before, after, p) {
      ElsewhereSame(before, after, db, p);
      SameKeepsSafe(before, after, p);
    }
  }

  /** The backups are done with when the live database is begun. */
  lemma Afterwards(start: Files, before: Files, after: Files, db: string, all: seq<string>)
    requires db !in all && Elsewhere(before, after, db)
    requires forall p :: p in all ==> Converted(start, before, p) && KeepsSafe(start, before, p)
    requires forall p :: p !in all ==> Same(start, before, p)
    ensures forall p :: p in all ==> Converted(start, after, p) && KeepsSafe(start, after, p)
    ensures forall p :: p !in all && p != db ==> Same(start, after, p)
  {
    forall p | p in all ensures Converted(start, after, p) && KeepsSafe(start, after, p) {
      ElsewhereSame(before, after, db, p);
      SameKeepsSafe(before, after, p);
      assert Main(p).path == p;
    }
    forall p | p !in all && p != db ensures Same(start, after, p) {
      ElsewhereSame(before, after, db, p);
      SameTwice(start, before, after, p);
    }
  }

  lemma Composed(start: Files, before: Files, after: Files, db: string, all: seq<string>)
    requires db !in all && forall p :: p != db ==> Same(start, before, p)
    ensures (forall p :: p in all ==> KeepsSafe(before, after, p)) ==> forall p :: p in all ==> KeepsSafe(start, after, p)
    ensures (forall p :: p in all ==> Converted(before, after, p)) ==> forall p :: p in all ==> Converted(start, after, p)
    ensures (forall p :: p !in all && p != db ==> Same(before, after, p)) ==>
              forall p :: p !in all && p != db ==> Same(start, after, p)
  {
    forall p | p != db
      ensures KeepsSafe(before, after, p) ==> KeepsSafe(start, after, p)
      ensures Converted(before, after, p) ==> Converted(start, after, p)
      ensures Same(before, after, p) ==> Same(start, after, p)
    {
      SameKeepsSafe(start, before, p);
      assert Main(p).path == p && Wal(p).path == p;
      if Same(before, after, p) {
        SameTwice(start, before, after, p);
      }
    }
  }

  /** The database at `p` is a main file and nothing else. */
  predicate Lone(fs: Files, p: string) {
    Wal(p) !in fs && Shm(p) !in fs && Tmp(p) !in fs && Rollback(p) !in fs
  }

  /** A replacement whose first seven steps work stands between its two renames: it ends there if the
      process dies, and one step later, inside the handler, if the second rename raises and the
      process dies then. */
  ghost predicate EndsBetween(fate: nat -> Fate, c: nat, clock: nat, o: Outcome, stage: Stage) {
    && ((forall k :: c <= k < c + 7 ==> fate(k).Works?) && fate(c + 7).Dies? ==> clock == c + 8 && o == Crashed && stage == Swapping)
    && ((forall k :: c <= k < c + 7 ==> fate(k).Works?) && fate(c + 7).Raises? && fate(c + 8).Dies? ==>
          clock == c + 9 && o == Crashed && stage == Restoring)
  }

  class Disk {
    var files: Files
    /** Steps taken so far; the fate of each is arbitrary. */
    var clock: nat
    const fate: nat -> Fate
    var configured: bool

    constructor (files: Files, fate: nat -> Fate)
      ensures this.files == files && this.fate == fate && clock == 0 && !configured
    {
      this.files, this.fate, clock, configured := files, fate, 0, false;
    }

    /** The next `n` steps work. */
    ghost predicate Works(c: nat, n: nat) {
      forall k :: c <= k < c + n ==> fate(k) == Fate.Works
    }

    /** All further steps work. */
    ghost predicate Steady(c: nat) {
      forall k :: c <= k ==> fate(k) == Fate.Works
    }

    method Step() returns (o: Outcome)
      modifies this`clock
      ensures clock == old(clock) + 1 && o == OutcomeOf(fate(old(clock)))
    {
      o := OutcomeOf(fate(clock));
      clock := clock + 1;
    }

    method Unlink(n: Name) returns (o: Outcome)
      modifies this`clock, this`files
      ensures clock == old(clock) + 1 && o == OutcomeOf(fate(old(clock)))
      ensures files == if o.Done? then old(files) - {n} else old(files)
    {
      o := Step();
      if o.Done? {
        files := files - {n};
      }
    }

    /** `os.replace` */
    method Replace(from: Name, to: Name) returns (o: Outcome)
      requires from in files
      modifies this`clock, this`files
      ensures clock == old(clock) + 1 && o == OutcomeOf(fate(old(clock)))
      ensures files == if o.Done? then old(files[to := files[from]]) - {from} else old(files)
    {
      o := Step();
      if o.Done? {
        files := files[to := files[from]] - {from};
      }
    }

    method Put(n: Name, c: Content) returns (o: Outcome)
      modifies this`clock, this`files
      ensures clock == old(clock) + 1 && o == OutcomeOf(fate(old(clock)))
      ensures files == if o.Done? then old(files)[n := c] else old(files)
    {
      o := Step();
      if o.Done? {
        files := files[n := c];
      }
    }

    method UnlinkIfThere(n: Name) returns (o: Outcome)
      modifies this`clock, this`files
      ensures if n in old(files) then clock == old(clock) + 1 && o == OutcomeOf(fate(old(clock))) else clock == old(clock) && o.Done?
      ensures files == if o.Done? then old(files) - {n} else old(files)
    {
      o := Done;
      if n in files {
        o := Unlink(n);
      }
    }

    /** The log is written back into the main file and emptied. */
    method Checkpoint(p: string) returns (o: Outcome)
      requires FormatOf(files, p) == Plaintext
      modifies this`clock, this`files
      ensures clock == old(clock) + 1 && o == OutcomeOf(fate(old(clock))) && files.Keys == old(files.Keys)
      ensures Elsewhere(old(files), files, p)
      ensures PlainAt(files, p, old(Whole(files, p)))
      ensures o.Done? ==> files[Main(p)] == Plain(old(Whole(files, p))) && !(Wal(p) in files && files[Wal(p)].Log?)
      ensures Tmp(p) in old(files) ==> Tmp(p) in files && files[Tmp(p)] == old(files[Tmp(p)])
    {
      o := Step();
      if o.Done? && Wal(p) in files && files[Wal(p)].Log? {
        files := files[Main(p) := Plain(Whole(files, p))][Wal(p) := Blank];
      }
    }

    /** `_export_database`: the target is made anew and filled in two visible steps. */
    method Export(p: string) returns (o: Outcome)
      requires FormatOf(files, p) == Plaintext
      modifies this`clock, this`files
      ensures clock >= old(clock) && (Steady(old(clock)) ==> o.Done?)
      ensures Lone(old(files), p) && Works(old(clock), 5) ==> o.Done? && clock == old(clock) + 5
      ensures o.Done? ==> files.Keys == old(files.Keys) + {Tmp(p)}
      ensures Elsewhere(old(files), files, p)
      ensures PlainAt(files, p, old(Whole(files, p)))
      ensures o.Done? ==> Tmp(p) in files && files[Tmp(p)] == Cipher(old(Whole(files, p)))
      ensures o.Done? ==> files[Main(p)] == Plain(old(Whole(files, p))) && !(Wal(p) in files && files[Wal(p)].Log?)
    {
      o := NewTarget(p);
      if !o.Done? {
        return;
      }
      o := Checkpoint(p);
      if !o.Done? {
        return;
      }
      o := Fill(p);
    }

    /** The target, made anew. */
    method NewTarget(p: string) returns (o: Outcome)
      modifies this`clock, this`files
      ensures clock >= old(clock) && (Steady(old(clock)) ==> o.Done?)
      ensures Tmp(p) !in old(files) && Works(old(clock), 1) ==> o.Done? && clock == old(clock) + 1
      ensures forall n: Name :: n != Tmp(p) ==> (n in files <==> n in old(files)) && (n in files ==> files[n] == old(files)[n])
      ensures o.Done? ==> Tmp(p) in files
    {
      o := UnlinkIfThere(Tmp(p));
      if !o.Done? {
        return;
      }
      o := Put(Tmp(p), Blank);
    }

    /** The copy into the attached target, and the closing of it. */
    method Fill(p: string) returns (o: Outcome)
      requires Main(p) in files && files[Main(p)].Plain?
      modifies this`clock, this`files
      ensures clock >= old(clock) && (Steady(old(clock)) ==> o.Done?)
      ensures Works(old(clock), 3) ==> o.Done? && clock == old(clock) + 3
      ensures forall n: Name :: n != Tmp(p) ==> (n in files <==> n in old(files)) && (n in files ==> files[n] == old(files)[n])
      ensures o.Done? ==> Tmp(p) in files && files[Tmp(p)] == Cipher(old(files)[Main(p)].data)
    {
      o := Put(Tmp(p), Partial);
      if !o.Done? {
        return;
      }
      o := Put(Tmp(p), Cipher(files[Main(p)].data));
      if !o.Done? {
        return;
      }
      o := Step();
    }

    /** `_verify_sqlcipher` */
    method Verify(n: Name) returns (o: Outcome)
      modifies this`clock
      ensures clock == old(clock) + 1 && (n in files && files[n].Cipher? ==> o == OutcomeOf(fate(old(clock))))
      ensures o.Done? ==> n in files && files[n].Cipher?
    {
      o := Step();
      if o.Done? && !(n in files && files[n].Cipher?) {
        o := Raised;
      }
    }

    /** The guarded part: from the first rename on. */
    method Swap(p: string) returns (o: Outcome, ghost stage: Stage)
      requires Main(p) !in files && Rollback(p) in files && files[Rollback(p)].Plain?
      requires Tmp(p) in files && files[Tmp(p)] == Cipher(files[Rollback(p)].data)
      requires !(Wal(p) in files && files[Wal(p)].Log?)
      modifies this`clock, this`files
      ensures clock >= old(clock) && (Steady(old(clock)) ==> o.Done?)
      ensures Wal(p) !in old(files) && Shm(p) !in old(files) && !fate(old(clock)).Works? ==>
                clock == old(clock) + 1 && o == OutcomeOf(fate(old(clock))) && stage == Swapping
      ensures Elsewhere(old(files), files, p)
      ensures RollbackHolds(files, p, old(files[Rollback(p)].data))
      ensures !(Wal(p) in files && files[Wal(p)].Log?)
      ensures stage == if Main(p) in files then Swapped else Swapping
      ensures Main(p) !in files ==> Tmp(p) in files && files[Tmp(p)] == Cipher(old(files[Rollback(p)].data))
      ensures Main(p) in files ==> CipherAt(files, p, old(files[Rollback(p)].data))
      ensures o.Done? ==> Main(p) in files && Tmp(p) !in files && Wal(p) !in files && Shm(p) !in files
    {
      stage := Swapping;
      o := UnlinkIfThere(Wal(p));
      if !o.Done? {
        return;
      }
      o := UnlinkIfThere(Shm(p));
      if !o.Done? {
        return;
      }
      o := Replace(Tmp(p), Main(p));
      if !o.Done? {
        return;
      }
      stage := Swapped;
      o := Verify(Main(p));
    }

    /** The exception handler: the original goes back, unless a step of the handler fails too. */
    method Restore(p: string) returns (o: Outcome, ghost stage: Stage)
      requires Rollback(p) in files && files[Rollback(p)].Plain?
      requires !(Wal(p) in files && files[Wal(p)].Log?)
      requires Main(p) in files ==> CipherAt(files, p, files[Rollback(p)].data)
      modifies this`clock, this`files
      ensures Main(p) !in old(files) && fate(old(clock)).Dies? ==> clock == old(clock) + 1 && o == Crashed && stage == Restoring
      ensures clock >= old(clock)
      ensures Elsewhere(old(files), files, p)
      ensures !o.Done?
      ensures Left(files, p, old(files[Rollback(p)].data), o, stage)
      ensures stage in {Swapped, Restoring, Clean}
    {
      stage := if Main(p) in files then Swapped else Restoring;
      o := UnlinkIfThere(Main(p));
      if !o.Done? {
        return;
      }
      stage := Restoring;
      o := Replace(Rollback(p), Main(p));
      if !o.Done? {
        return;
      }
      o, stage := Raised, Clean;
    }

    /** Up to and including the first rename. */
    method PutAside(p: string) returns (o: Outcome)
      requires FormatOf(files, p) == Plaintext
      modifies this`clock, this`files
      ensures clock >= old(clock) && (Steady(old(clock)) ==> o.Done?)
      ensures Lone(old(files), p) && Works(old(clock), 7) ==> o.Done? && clock == old(clock) + 7 && Wal(p) !in files && Shm(p) !in files
      ensures Elsewhere(old(files), files, p)
      ensures !o.Done? ==> PlainAt(files, p, old(Whole(files, p)))
      ensures o.Done? ==>
                && Main(p) !in files && RollbackHolds(files, p, old(Whole(files, p)))
                && Tmp(p) in files && files[Tmp(p)] == Cipher(old(Whole(files, p)))
                && !(Wal(p) in files && files[Wal(p)].Log?)
    {
      o := Export(p);
      if !o.Done? {
        return;
      }
      o := Verify(Tmp(p));
      if !o.Done? {
        return;
      }
      o := UnlinkIfThere(Rollback(p));
      if !o.Done? {
        return;
      }
      o := Replace(Main(p), Rollback(p));
    }

    /** `_replace_with_encrypted` */
    method ReplaceWithEncrypted(p: string) returns (o: Outcome, ghost stage: Stage)
      requires FormatOf(files, p) == Plaintext
      modifies this`clock, this`files
      ensures clock >= old(clock) && (Steady(old(clock)) ==> o.Done?)
      ensures Lone(old(files), p) ==> EndsBetween(fate, old(clock), clock, o, stage)
      ensures Elsewhere(old(files), files, p)
      ensures Left(files, p, old(Whole(files, p)), o, stage)
    {
      stage := Exporting;
      o := PutAside(p);
      if !o.Done? {
        return;
      }
      o, stage := Swap(p);
      if o.Crashed? {
        return;
      }
      if o.Raised? {
        o, stage := Restore(p);
        return;
      }
      o := Unlink(Rollback(p));
      if !o.Done? {
        return;
      }
      o := Step();
      if o.Done? {
        stage := Clean;
      }
    }

    /** One listed backup; what is not plaintext is skipped. */
    method EncryptBackup(p: string) returns (o: Outcome, plain: bool)
      modifies this`clock, this`files
      ensures clock >= old(clock) && (Steady(old(clock)) ==> o.Done?)
      ensures Elsewhere(old(files), files, p) && KeepsSafe(old(files), files, p)
      ensures plain <==> FormatOf(old(files), p) == Plaintext
      ensures o.Done? ==> Converted(old(files), files, p)
    {
      plain, o := FormatOf(files, p) == Plaintext, Done;
      ghost var before := files;
      if plain {
        ghost var stage;
        o, stage := ReplaceWithEncrypted(p);
        LeftKeepsSafe(before, files, p, o, stage);
      }
    }

    /** `_encrypt_migration_backups` */
    method EncryptBackups(all: seq<string>) returns (o: Outcome, converted: nat, skipped: nat)
      requires Distinct(all)
      modifies this`clock, this`files
      ensures clock >= old(clock) && (Steady(old(clock)) ==> o.Done?)
      ensures all == [] ==> o.Done? && clock == old(clock) && files == old(files)
      ensures forall p :: p !in all ==> Same(old(files), files, p)
      ensures forall p :: KeepsSafe(old(files), files, p)
      ensures o.Done? ==> forall p :: p in all ==> Converted(old(files), files, p)
      ensures o.Done? ==> converted == CountPlain(old(files), Listing(old(files), all))
      ensures o.Done? ==> converted + skipped == |Listing(old(files), all)|
    {
      converted, skipped, o := 0, 0, Done;
      var listed := Listing(files, all);
      ListingDistinct(files, all);
      ghost var start := files;
      for i := 0 to |listed|
        invariant o.Done? && clock >= old(clock) && (all == [] ==> clock == old(clock) && files == start)
        invariant Progress(start, files, listed[..i])
        invariant converted == CountPlain(start, listed[..i]) && converted + skipped == i
      {
        ghost var before := files;
        var plain;
        o, plain := EncryptBackup(listed[i]);
        Advance(start, before, files, listed, i);
        if !o.Done? {
          return;
        }
        Converts(start, before, files, listed, i);
        converted, skipped := if plain then converted + 1 else converted, if plain then skipped else skipped + 1;
      }
      assert listed[..|listed|] == listed;
      AllKeepSafe(start, files, listed);
    }

    /** The creation of a missing or empty database; a log without its database is discarded. */
    method CreateFresh(p: string) returns (o: Outcome)
      requires FormatOf(files, p) in {Missing, Empty}
      modifies this`clock, this`files
      ensures clock >= old(clock) && (Steady(old(clock)) ==> o.Done?)
      ensures Elsewhere(old(files), files, p)
      ensures FormatOf(files, p) in {Missing, Empty, Plaintext}
      ensures o.Done? ==> PlainAt(files, p, Fresh)
    {
      o := Put(Main(p), Blank);
      if o.Done? {
        o := Put(Main(p), Plain(Fresh));
      }
      if o.Done? {
        o := UnlinkIfThere(Wal(p));
      }
    }

    /** The last two steps: the configuration is changed and the file modes are hardened. */
    method Configure() returns (o: Outcome)
      modifies this`clock, this`configured
      ensures clock >= old(clock) && (Steady(old(clock)) ==> o.Done?)
      ensures o.Done? ==> configured
    {
      o := Step();
      if o.Done? {
        configured := true;
        o := Step();
      }
    }

    method EncryptRest(db: string, all: seq<string>) returns (o: Outcome)
      requires Distinct(all) && db !in all && FormatOf(files, db) == CipherOrUnknown
      modifies this`clock, this`files, this`configured
      ensures clock >= old(clock)
      ensures Same(old(files), files, db)
      ensures forall p :: KeepsSafe(old(files), files, p)
      ensures forall p :: p !in all ==> Same(old(files), files, p)
      ensures o.Done? ==> configured && files[Main(db)].Cipher?
      ensures o.Done? ==> forall p :: p in all ==> Converted(old(files), files, p)
    {
      ghost var start := files;
      assert forall p :: Same(start, start, p);
      AllKeepSafe(start, start, []);
      o := Verify(Main(db));
      if !o.Done? {
        return;
      }
      o := Step();
      if !o.Done? {
        return;
      }
      var converted, skipped;
      o, converted, skipped := EncryptBackups(all);
      assert Same(start, files, db) && Main(db).path == db;
      if o.Done? {
        o := Configure();
      }
    }

    /** The plaintext branch: backups first, the live database last. */
    method EncryptAll(db: string, all: seq<string>) returns (o: Outcome, ghost stage: Stage)
      requires Distinct(all) && db !in all && FormatOf(files, db) == Plaintext
      modifies this`clock, this`files, this`configured
      ensures clock >= old(clock) && (Steady(old(clock)) ==> o.Done?)
      ensures all == [] && Lone(old(files), db) && Works(old(clock), 1) ==> EndsBetween(fate, old(clock) + 1, clock, o, stage)
      ensures KeepsSafe(old(files), files, db) && Safe(files, db, old(Whole(files, db)))
      ensures Main(db) !in files <==> stage in {Swapping, Restoring}
      ensures Main(db) in files && files[Main(db)].Cipher? ==> forall p :: p in all ==> Converted(old(files), files, p)
      ensures forall p :: p in all ==> KeepsSafe(old(files), files, p)
      ensures forall p :: p !in all && p != db ==> Same(old(files), files, p)
      ensures o.Done? ==> configured && Left(files, db, old(Whole(files, db)), Done, Clean)
    {
      stage := Exporting;
      ghost var start := files;
      AllKeepSafe(start, start, []);
      o := Step();
      if !o.Done? {
        return;
      }
      var converted, skipped;
      o, converted, skipped := EncryptBackups(all);
      assert Same(start, files, db) && Main(db).path == db && Wal(db).path == db;
      if !o.Done? {
        return;
      }
      ghost var before := files;
      o, stage := ReplaceWithEncrypted(db);
      Afterwards(start, before, files, db, all);
      LeftKeepsSafe(before, files, db, o, stage);
      if o.Done? {
        o := Configure();
      }
    }

    /** `cmd_database_encrypt` */
    method CmdEncrypt(db: string, all: seq<string>) returns (o: Outcome, ghost stage: Stage)
      requires Distinct(all) && db !in all
      modifies this`clock, this`files, this`configured
      ensures clock >= old(clock) && (FormatOf(old(files), db) != CipherOrUnknown && Steady(old(clock)) ==> o.Done?)
      ensures FormatOf(old(files), db) == Plaintext && all == [] && Lone(old(files), db) && Works(old(clock), 2) ==>
                EndsBetween(fate, old(clock) + 2, clock, o, stage)
      ensures FormatOf(old(files), db) == Plaintext ==>
                Safe(files, db, old(Whole(files, db))) && (Main(db) !in files <==> stage in {Swapping, Restoring})
      ensures forall d :: CipherAt(old(files), db, d) ==> CipherAt(files, db, d)
      ensures FormatOf(old(files), db) != CipherOrUnknown && Main(db) in files && files[Main(db)].Cipher? ==>
                forall p :: p in all ==> Converted(old(files), files, p)
      ensures forall p :: p in all ==> KeepsSafe(old(files), files, p)
      ensures forall p :: p !in all && p != db ==> Same(old(files), files, p)
      ensures o.Done? ==> configured && Main(db) in files && files[Main(db)].Cipher?
      ensures o.Done? ==> forall p :: p in all ==> Converted(old(files), files, p)
      ensures o.Done? && FormatOf(old(files), db) == Plaintext ==> CipherAt(files, db, old(Whole(files, db)))
      ensures o.Done? && FormatOf(old(files), db) in {Missing, Empty} ==> Left(files, db, Fresh, Done, Clean)
    {
      stage := Exporting;
      ghost var start := files;
      var fmt := FormatOf(files, db);
      if fmt == CipherOrUnknown {
        o := EncryptRest(db, all);
        assert Main(db).path == db;
        return;
      }
      if fmt in {Missing, Empty} {
        o := CreateFresh(db);
        if !o.Done? {
          Untouched(start, files, db, all);
          return;
        }
      }
      ghost var before := files;
      o := Step();
      Untouched(start, files, db, all);
      if !o.Done? {
        return;
      }
      o, stage := EncryptAll(db, all);
      Composed(start, before, files, db, all);
    }

    /** The command run again after a run that failed or was cut short. The content survives into
        the encrypted database exactly when the interruption left a main file: it is lost when the
        first run ended between its two renames, or inside the handler between its removal of the
        new file and the rename that puts the original back. */
    method EncryptThenRerun(db: string, all: seq<string>) returns (first: Outcome, second: Outcome, ghost stage: Stage)
      requires Distinct(all) && db !in all && FormatOf(files, db) == Plaintext
      modifies this`clock, this`files, this`configured
      ensures all == [] && Lone(old(files), db) && Works(old(clock), 9) ==>
                && (fate(old(clock) + 9).Dies? && Steady(old(clock) + 10) ==> first == Crashed && stage == Swapping && second.Done?)
                && (fate(old(clock) + 9).Raises? && fate(old(clock) + 10).Dies? && Steady(old(clock) + 11) ==>
                      first == Crashed && stage == Restoring && second.Done?)
      ensures stage !in {Swapping, Restoring} ==> Safe(files, db, old(Whole(files, db)))
      ensures second.Done? ==>
                var d := old(Whole(files, db));
                if stage in {Swapping, Restoring} then CipherAt(files, db, Fresh) && (d != Fresh ==> Lost(files, db, d))
                else CipherAt(files, db, d)
      ensures forall p :: p in all ==> KeepsSafe(old(files), files, p)
    {
      ghost var start := files;
      first, stage := CmdEncrypt(db, all);
      ghost var before := files;
      ghost var stage2;
      second, stage2 := CmdEncrypt(db, all);
    }
  }

  /** Both losing interruptions happen: a process that dies between the two renames, and one whose
      second rename fails and that dies inside the handler. The second run succeeds and the content
      is gone. */
  method ContentIsLost(db: string, d: Data, inHandler: bool) returns (disk: Disk, second: Outcome)
    requires d != Data.Fresh
    ensures second.Done? && Lost(disk.files, db, d) && CipherAt(disk.files, db, Data.Fresh)
  {
    var fate := (k: nat) =>
      if k == 9 then if inHandler then Raises else Dies
      else if k == 10 && inHandler then Dies else Fate.Works;
    disk := new Disk(map[Main(db) := Plain(d)], fate);
    assert disk.Works(0, 9) && disk.Steady(if inHandler then 11 else 10) && Lone(disk.files, db);
    assert Main(db).path == db && disk.files[Main(db)] == Plain(d);
    var first;
    ghost var stage;
    first, second, stage := disk.EncryptThenRerun(db, []);
  }
}
