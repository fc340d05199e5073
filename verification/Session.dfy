/** Whole sessions: a store is created, then batches, maintenance and restarts follow in any order.
    At every point a read returns the value of the last batch that was applied. */
module Session {
  import opened Basics
  import opened DiskLocations
  import opened Protocol
  import opened Invariant
  import opened CrashRefinement
  import opened Cells
  import opened Selection
  import opened Images
  import opened Sequential
  import opened Ledger
  import opened Determinism
  import opened Store
  import opened Recovery
  import opened Opening
  import U = Upkeep
  import S = Sharding
  import N = FileNames
  import R = Reopening
  import C = Concurrency

  datatype Op = Put(items: seq<S.Item>, ioOk: bool) | Tidy(io: (nat, nat) -> bool) | Reopen(config: Config)

  /** Ids and lengths as wide as the program keeps them. */
  predicate Sized(op: Op) {
    op.Put? ==> |op.items| < U64 && forall i :: 0 <= i < |op.items| ==> op.items[i].id < U64
  }

  /** What the session amounts to: the batches that were applied, one after the other. */
  function Model(ops: seq<Op>, applied: seq<bool>): Batch
    requires |ops| == |applied|
  {
    if ops == [] then map[] else
    var n := |ops| - 1;
    var before := Model(ops[..n], applied[..n]);
    if ops[n].Put? && applied[n] then before + S.Collect(ops[n].items) else before
  }

  // ---------------------------------------------------------------- the first opening

  lemma EmptyDirectory(lib: Library)
    ensures Directory(lib, map[N.LEGEND := []], map[])
  {
    hide N.IsTemporary;
  }

  lemma FreshStart()
    ensures var s := Recovered(Initial(), map[]);
      Sound(s) && View(s) == map[] && NextLsn(map[]) == 1
    ensures R.DirectoryOk(map[]) && FilesOk(map[], Initial().nextLsn) && !Initial().panicked
  {
    hide Enabled, Apply, Inv, CrashInv, Exclusive, NextLsn, RecoveredTable, Recovered, R.DirectoryOk, FilesOk, Initial;
    hide View;
    NextIsOne();
    CrashAtStart();
    EmptyIsFine();
    C.InitialInv();
    InitialCrashInv();
    NobodyExclusive(Initial());
    RecoveredFields(Initial(), map[]);
    NobodyExclusive(Recovered(Initial(), map[]));
    SoundStep(Initial(), Crash);
    NothingRecovered();
    NothingToSee(Recovered(Initial(), map[]));
  }

  lemma EmptyIsFine()
    ensures R.DirectoryOk(map[]) && FilesOk(map[], Initial().nextLsn) && !Initial().panicked
    ensures Initial().writes == map[]
  {
  }

  lemma NothingToSee(s: State)
    requires s.table == map[]
    ensures View(s) == map[]
  {
  }

  lemma NextIsOne()
    ensures NextLsn(map[]) == 1
  {
    assert Bases(map[]) == {} && Sizes(map[]) == {};
  }

  lemma CrashAtStart()
    requires NextLsn(map[]) <= NEW_WRITE_BATCH_BIT
    ensures Enabled(Initial(), Crash) && Apply(Initial(), Crash) == Recovered(Initial(), map[])
  {
    hide NextLsn, RecoveredTable, Attributed, MonotonicOrder;
  }

  lemma NothingRecovered()
    ensures RecoveredTable(map[]) == map[]
  {
    assert Objects(map[]) == {};
  }

  lemma NoRecords(fams: map<Lsn, Fam>, s: State)
    requires FamsAgree(fams, s) && s.present == {}
    ensures fams == map[]
  {
    assert fams.Keys == {};
  }

  /** Opening an empty directory gives an empty store. */
  method Create(lib: Library, config: Config) returns (r: OpenResult)
    requires Faithful(lib)
    ensures r.Opened? && fresh(r.store) && fresh(r.store.cells) && r.store.lib == lib && r.store.config == config
    ensures r.store.cells.s == Recovered(Initial(), map[]) && r.store.cells.s.nextLsn == 1
    ensures r.store.cells.fams == map[] && r.store.cells.s.passes == map[] && r.store.Contents() == map[]
    ensures r.store.Steady()
  {
    hide Inv, CrashInv, Directory, Faithful, R.DirectoryOk, Recovered, NextLsn, FilesOk, View, Kept, FamsAgree;
    hide TableAgrees, Exclusive;
    EmptyDirectory(lib);
    FreshStart();
    RecoveredFields(Initial(), map[]);
    ghost var top, large;
    r, top, large := Opening.Open(lib, config, map[N.LEGEND := []], Initial(), map[]);
    NoRecords(r.store.cells.fams, r.store.cells.s);
  }

  // ---------------------------------------------------------------- what a session does

  /** No item that counts, being the last for its object, is over the size limit. */
  ghost predicate Within(config: Config, items: seq<S.Item>) {
    forall i: nat :: i < |items| && S.IsLastItem(items, items[i].id, i) && items[i].data.Some? ==>
      |items[i].data.value| <= config.maxObjectSize
  }

  lemma WithinIs(config: Config, items: seq<S.Item>)
    ensures Within(config, items) <==> !Refused(config, S.Collect(items))
  {
    hide Refused, S.Collect;
    RefusedItems(items, config);
  }

  /** Whether a batch is applied: it says nothing, or all its objects are within the size limit, there
      is room below the new-write bit, and the rename succeeds. */
  ghost predicate Applies(lib: Library, config: Config, items: seq<S.Item>, ioOk: bool, next: nat) {
    items == [] || (Within(config, items) && Room(lib, config, S.Collect(items), next) && ioOk)
  }

  /** The sequence numbers it uses up, applied or not. */
  ghost function Takes(lib: Library, config: Config, items: seq<S.Item>, next: nat): nat {
    var batch := S.Collect(items);
    if items == [] || !Within(config, items) || !Room(lib, config, batch, next) then 0 else Needs(lib, config, batch)
  }

  /** Operation `op`, under configuration `c` and with memory `a`, leads to `c'` and `b`: a batch becomes one
      file or changes nothing but the next number, a pass does what its log says, a restart rebuilds. */
  ghost predicate Leads(lib: Library, op: Op, log: Log, applied: bool, c: Config, c': Config, a: Memory, b: Memory) {
    match op
    case Put(items, ioOk) =>
      && c' == c && (applied <==> Applies(lib, c, items, ioOk, a.s.nextLsn))
      && (if applied && items != [] then Filed(lib, c, a, b, S.Collect(items), 0)
          else b == a.(s := a.s.(nextLsn := a.s.nextLsn + Takes(lib, c, items, a.s.nextLsn))))
      && View(b.s) == if applied then View(a.s) + S.Collect(items) else View(a.s)
    case Tidy(io) =>
      && c' == c && (applied <==> |View(a.s)| < U64) && (if applied then Tidies(lib, c, io, log, a, b) else b == a)
      && View(b.s) == View(a.s)
    case Reopen(config) =>
      c' == config && applied && b == Reopened(a) && View(b.s) == View(a.s)
  }

  /** Operation `op` ends the session: the rename of a batch fails after objects that nobody knew before
      have been installed, or the sequence numbers run out at a restart. */
  ghost predicate Ends(lib: Library, c: Config, op: Op, a: Memory) {
    match op
    case Put(items, ioOk) =>
      !ioOk && Applies(lib, c, items, true, a.s.nextLsn) && !(S.Collect(items).Keys <= View(a.s).Keys)
    case Tidy(_) => false
    case Reopen(_) => NextLsn(Surviving(a.s)) > NEW_WRITE_BATCH_BIT
  }

  /** What a session goes through: configuration and memory before each operation and at the end, and the
      logs of its passes. */
  datatype Trace = Trace(configs: seq<Config>, logs: seq<Log>, mems: seq<Memory>)

  ghost predicate Fitting(ops: seq<Op>, applied: seq<bool>, t: Trace) {
    |t.mems| == |t.configs| == |t.logs| + 1 && |t.logs| <= |applied| <= |ops|
  }

  /** Everything follows from a new store. */
  ghost predicate Traced(lib: Library, config: Config, ops: seq<Op>, applied: seq<bool>, t: Trace) {
    && Fitting(ops, applied, t)
    && t.configs[0] == config && t.mems[0] == Memory(map[], Recovered(Initial(), map[]))
    && t.mems[0].s.nextLsn == 1 && View(t.mems[0].s) == map[]
    && (forall i :: 0 <= i < |t.mems| ==> Good(t.mems[i]) && Counts(t.mems[i]))
    && (forall i :: 0 <= i < |t.logs| ==> Follows(lib, ops, applied, t, i))
  }

  ghost predicate Follows(lib: Library, ops: seq<Op>, applied: seq<bool>, t: Trace, i: nat)
    requires Fitting(ops, applied, t) && i < |t.logs|
  {
    && !Ends(lib, t.configs[i], ops[i], t.mems[i])
    && Leads(lib, ops[i], t.logs[i], applied[i], t.configs[i], t.configs[i + 1], t.mems[i], t.mems[i + 1])
  }

  /** The trace accounts for the whole session: it went through, or its last operation ended it. */
  ghost predicate Account(lib: Library, config: Config, ops: seq<Op>, applied: seq<bool>, t: Trace, alive: bool) {
    var n := |t.logs|;
    && Traced(lib, config, ops, applied, t)
    && if alive then |applied| == |ops| == n
       else |applied| == n + 1 && !applied[n] && Ends(lib, t.configs[n], ops[n], t.mems[n])
  }

  /** At every point of a session objects read as the batches applied so far. */
  lemma {:induction false} TraceIsModel(lib: Library, config: Config, ops: seq<Op>, applied: seq<bool>, t: Trace,
                                        n: nat)
    requires Traced(lib, config, ops, applied, t) && n < |t.mems|
    ensures View(t.mems[n].s) == Model(ops[..n], applied[..n])
  {
    hide Recovered, View, Ends, Applies, Takes, S.Collect, Good, Counts, Filed, Tidies, Reopened;
    if n > 0 {
      TraceIsModel(lib, config, ops, applied, t, n - 1);
      assert Follows(lib, ops, applied, t, n - 1);
      assert ops[..n][..n - 1] == ops[..n - 1] && applied[..n][..n - 1] == applied[..n - 1];
    }
  }

  // ---------------------------------------------------------------- sessions are determined

  lemma EndsAlike(lib: Library, c: Config, op: Op, a: Memory, b: Memory)
    requires Alike(a, b)
    ensures Ends(lib, c, op, a) <==> Ends(lib, c, op, b)
  {
    hide NextLsn, Surviving, View, Applies, S.Collect;
    AlikeViews(a, b);
    SurvivorsAlike(a, b);
    NextAlike(Surviving(a.s), Surviving(b.s));
  }

  lemma SkippedAlike(a: Memory, b: Memory, n: nat)
    requires Alike(a, b)
    ensures Alike(a.(s := a.s.(nextLsn := n)), b.(s := b.s.(nextLsn := n)))
  {
    hide AlikeFiles, AlikeTables, AlikeCounts, AlikeFams;
  }

  lemma NextOfAlike(a: Memory, b: Memory)
    requires Alike(a, b)
    ensures a.s.nextLsn == b.s.nextLsn
  {
  }

  lemma LeadsAlike(lib: Library, op: Op, log: Log, p: bool, q: bool, c: Config, c': Config, d': Config, a: Memory,
                   a': Memory, b: Memory, b': Memory)
    requires Alike(a, b) && Good(b) && Counts(a') && Counts(b')
    requires Leads(lib, op, log, p, c, c', a, a') && Leads(lib, op, log, q, c, d', b, b')
    ensures p == q && c' == d' && Alike(a', b')
  {
    hide Alike, View, Applies, Takes, S.Collect, Good, Counts, Filed, Tidies, Reopened;
    AlikeViews(a, b);
    NextOfAlike(a, b);
    match op
    case Put(items, _) =>
      if p && items != [] {
        FiledAlike(lib, c, a, a', b, b', S.Collect(items), 0);
      } else {
        SkippedAlike(a, b, a'.s.nextLsn);
      }
    case Tidy(io) =>
      if p { PassAlike(lib, c, io, log, a, a', b, b'); }
    case Reopen(_) =>
      ReopenedAlike(a, b);
  }

  /** A pass that finds nothing to compact leaves no choice. */
  lemma IdleAlike(lib: Library, io: (nat, nat) -> bool, log: Log, log': Log, p: bool, q: bool, c: Config, c': Config,
                  d': Config, a: Memory, a': Memory, b: Memory, b': Memory)
    requires Alike(a, b) && Compacted(c, a.fams) == {}
    requires Leads(lib, Tidy(io), log, p, c, c', a, a') && Leads(lib, Tidy(io), log', q, c, d', b, b')
    ensures p == q && c' == d' && Alike(a', b')
  {
    CompactedAlike(c, a.fams, b.fams);
    AlikeViews(a, b);
    hide Alike, View, Compacted, Works, Ledger.Pruned;
    if p {
      IdleTidies(lib, c, io, log, a, a');
      IdleTidies(lib, c, io, log', b, b');
      PrunedAlike(a, b);
    }
  }

  lemma IdleTidies(lib: Library, c: Config, io: (nat, nat) -> bool, log: Log, a: Memory, b: Memory)
    requires Tidies(lib, c, io, log, a, b) && Compacted(c, a.fams) == {}
    ensures b == Ledger.Pruned(a) && log == Log([], Complete)
  {
    hide Works, Compacted;
    var mid :| Works(lib, c, io, log, a, mid) && b == if log.halt.Complete? then Ledger.Pruned(mid) else mid;
    IdlePass(lib, c, io, log, a, mid);
  }

  /** The passes of both traces that had anything to compact went alike. */
  ghost predicate SamePasses(ops: seq<Op>, t: Trace, u: Trace) {
    forall i :: 0 <= i < |t.logs| && i < |u.logs| && i < |ops| && Busy(ops[i], t, i) ==> t.logs[i] == u.logs[i]
  }

  predicate Busy(op: Op, t: Trace, i: nat) {
    op.Tidy? && i < |t.configs| && i < |t.mems| && Compacted(t.configs[i], t.mems[i].fams) != {}
  }

  lemma {:induction false} TracesAlike(lib: Library, config: Config, ops: seq<Op>, p: seq<bool>, t: Trace, q: seq<bool>,
                                       u: Trace, n: nat)
    requires Traced(lib, config, ops, p, t) && Traced(lib, config, ops, q, u) && SamePasses(ops, t, u)
    requires n < |t.mems| && n < |u.mems|
    ensures p[..n] == q[..n] && t.configs[n] == u.configs[n] && Alike(t.mems[n], u.mems[n])
  {
    hide Alike, Leads, Ends, Good, Counts, Recovered, View, Compacted;
    if n == 0 {
      AlikeItself(config, t.mems[0]);
    } else {
      var i := n - 1;
      TracesAlike(lib, config, ops, p, t, q, u, i);
      assert Follows(lib, ops, p, t, i) && Follows(lib, ops, q, u, i);
      var c, c', d' := t.configs[i], t.configs[n], u.configs[n];
      if ops[i].Tidy? && !Busy(ops[i], t, i) {
        IdleAlike(lib, ops[i].io, t.logs[i], u.logs[i], p[i], q[i], c, c', d', t.mems[i], t.mems[n], u.mems[i],
          u.mems[n]);
      } else {
        if !ops[i].Tidy? { AnyLog(lib, ops[i], t.logs[i], u.logs[i], q[i], c, d', u.mems[i], u.mems[n]); }
        assert ops[i].Tidy? ==> t.logs[i] == u.logs[i];
        LeadsAlike(lib, ops[i], t.logs[i], p[i], q[i], c, c', d', t.mems[i], t.mems[n], u.mems[i], u.mems[n]);
      }
      assert p[..n] == p[..i] + [p[i]] && q[..n] == q[..i] + [q[i]];
    }
  }

  lemma AlikeItself(config: Config, a: Memory)
    requires a == Memory(map[], Recovered(Initial(), map[]))
    ensures Alike(a, a)
  {
    hide RecoveredTable, Attributed, MonotonicOrder, NextLsn;
  }

  lemma AnyLog(lib: Library, op: Op, log: Log, log': Log, p: bool, c: Config, c': Config, a: Memory, b: Memory)
    requires !op.Tidy? && Leads(lib, op, log', p, c, c', a, b)
    ensures Leads(lib, op, log, p, c, c', a, b)
  {
    hide Applies, Takes, View, Filed, Reopened, S.Collect;
  }

  /** A session is determined by its operations and the order in which its passes happen to take things:
      any two accounts of it apply the same batches, end at the same point or not at all, and on the way
      have the same next numbers, the same files but for the order within them, and the same value for
      every object. As long as no pass finds anything to compact, the operations alone determine it. */
  lemma SessionDetermined(lib: Library, config: Config, ops: seq<Op>, p: seq<bool>, t: Trace, alive: bool, q: seq<bool>,
                          u: Trace, alive': bool)
    requires Account(lib, config, ops, p, t, alive) && Account(lib, config, ops, q, u, alive') && SamePasses(ops, t, u)
    ensures p == q && alive == alive' && t.configs == u.configs && |t.mems| == |u.mems|
    ensures forall i :: 0 <= i < |t.mems| && i < |u.mems| ==> Alike(t.mems[i], u.mems[i])
  {
    hide Alike, Traced, Ends;
    var n := if |t.logs| <= |u.logs| then |t.logs| else |u.logs|;
    TracesFit(lib, config, ops, p, t);
    TracesFit(lib, config, ops, q, u);
    forall i | 0 <= i <= n ensures p[..i] == q[..i] && t.configs[i] == u.configs[i] && Alike(t.mems[i], u.mems[i]) {
      TracesAlike(lib, config, ops, p, t, q, u, i);
    }
    if n < |ops| { EndsAlike(lib, t.configs[n], ops[n], t.mems[n], u.mems[n]); }
    assert |t.logs| == |u.logs| && alive == alive' by {
      if |t.logs| > n { GoesOn(lib, config, ops, p, t, n); }
      if |u.logs| > n { GoesOn(lib, config, ops, q, u, n); }
    }
    assert p[..n] == q[..n];
  }

  lemma TracesFit(lib: Library, config: Config, ops: seq<Op>, p: seq<bool>, t: Trace)
    requires Traced(lib, config, ops, p, t)
    ensures Fitting(ops, p, t)
  {
    hide Good, Counts, Follows, Recovered, View;
  }

  lemma GoesOn(lib: Library, config: Config, ops: seq<Op>, p: seq<bool>, t: Trace, i: nat)
    requires Traced(lib, config, ops, p, t) && i < |t.logs|
    ensures !Ends(lib, t.configs[i], ops[i], t.mems[i])
  {
    hide Good, Counts, Leads, Ends, Recovered, View;
    assert Follows(lib, ops, p, t, i);
  }

  /** In no session is a batch ignored that is within the size limit, fits into the numbers left and can be
      renamed: from then on, until the next batch, its objects read as it says and all others as before. */
  lemma NeverIgnored(lib: Library, config: Config, ops: seq<Op>, applied: seq<bool>, t: Trace, i: nat, j: nat)
    requires Traced(lib, config, ops, applied, t) && i < j < |t.mems| && ops[i].Put? && ops[i].ioOk
    requires forall n: nat :: n < |ops[i].items| && S.IsLastItem(ops[i].items, ops[i].items[n].id, n) ==>
      ops[i].items[n].data.None? || |ops[i].items[n].data.value| <= t.configs[i].maxObjectSize
    requires Room(lib, t.configs[i], S.Collect(ops[i].items), t.mems[i].s.nextLsn)
    requires forall m :: i < m < j ==> !ops[m].Put?
    ensures applied[i] && View(t.mems[j].s) == View(t.mems[i].s) + S.Collect(ops[i].items)
    decreases j
  {
    hide Recovered, View, Ends, Takes, S.Collect, Good, Counts, Filed, Tidies, Reopened, Room, S.IsLastItem;
    assert Follows(lib, ops, applied, t, j - 1);
    if i < j - 1 {
      assert !ops[j - 1].Put?;
      NeverIgnored(lib, config, ops, applied, t, i, j - 1);
    }
  }

  // ---------------------------------------------------------------- sessions

  datatype Outcome = Alive(store: Marble) | Stopped

  /** One operation. */
  method Step(m: Marble, op: Op) returns (r: Outcome, applied: bool, ghost log: Log)
    requires Sized(op) && m.cells.s.passes == map[] && m.Steady()
    modifies m, m.cells
    ensures r.Stopped? <==> Ends(m.lib, m.config, op, MemoryOf(old(m.cells.fams), old(m.cells.s)))
    ensures r.Stopped? ==> !applied
    ensures r.Alive? ==> r.store == m || (fresh(r.store) && fresh(r.store.cells))
    ensures r.Alive? ==> r.store.lib == m.lib && r.store.cells.s.passes == map[] && r.store.Steady()
    ensures r.Alive? ==> Leads(m.lib, op, log, applied, m.config, r.store.config,
      MemoryOf(old(m.cells.fams), old(m.cells.s)), MemoryOf(r.store.cells.fams, r.store.cells.s))
  {
    hide Leads, Ends, Marble.Steady, MemoryOf;
    log := Log([], Complete);
    match op
    case Put(items, ioOk) => r, applied := StepPut(m, items, ioOk, log);
    case Tidy(io) => r, applied, log := StepTidy(m, io);
    case Reopen(config) => r, applied := StepReopen(m, config, log);
  }

  method StepTidy(m: Marble, io: (nat, nat) -> bool) returns (r: Outcome, applied: bool, ghost log: Log)
    requires m.cells.s.passes == map[] && m.Steady()
    modifies m, m.cells
    ensures r == Alive(m) && m.cells.s.passes == map[] && m.Steady()
    ensures !Ends(m.lib, m.config, Tidy(io), MemoryOf(old(m.cells.fams), old(m.cells.s)))
    ensures Leads(m.lib, Tidy(io), log, applied, m.config, m.config, MemoryOf(old(m.cells.fams), old(m.cells.s)),
      MemoryOf(m.cells.fams, m.cells.s))
  {
    hide Inv, CrashInv, Faithful, View, Kept, FamsAgree, TableAgrees, U.LiveSum;
    hide Selection.Tidied, Selection.Compacted, Tidies, MemoryOf, NextAfter;
    U.ViewSize(m.cells.s, m.cells.table);
    MemoryView(m.cells.fams, m.cells.s);
    applied := |m.cells.table| < U64;
    log := Log([], Complete);
    if applied {
      var result;
      ghost var before;
      result, log, before := U.Maintain(m, io);
    }
    MemoryView(m.cells.fams, m.cells.s);
    r := Alive(m);
  }

  lemma MemoryView(fams: map<Lsn, Fam>, s: State)
    ensures View(MemoryOf(fams, s).s) == View(s) && MemoryOf(fams, s).s.nextLsn == s.nextLsn
    ensures Surviving(MemoryOf(fams, s).s) == Surviving(s)
  {
  }

  method StepReopen(m: Marble, config: Config, ghost log: Log) returns (r: Outcome, applied: bool)
    requires m.cells.s.passes == map[] && m.Steady()
    ensures r.Stopped? <==> Ends(m.lib, m.config, Reopen(config), MemoryOf(m.cells.fams, m.cells.s))
    ensures r.Stopped? ==> !applied
    ensures r.Alive? ==> fresh(r.store) && fresh(r.store.cells)
    ensures r.Alive? ==> r.store.lib == m.lib && r.store.cells.s.passes == map[] && r.store.Steady()
    ensures r.Alive? ==> Leads(m.lib, Reopen(config), log, applied, m.config, r.store.config,
      MemoryOf(m.cells.fams, m.cells.s), MemoryOf(r.store.cells.fams, r.store.cells.s))
  {
    hide Inv, CrashInv, Faithful, View, Kept, FamsAgree, TableAgrees, LeftFull, NextLsn, Surviving, Recovered;
    hide MemoryOf, Reopened;
    MemoryView(m.cells.fams, m.cells.s);
    var result := Opening.Restart(m, config);
    if result.Opened? { MemoryView(result.store.cells.fams, result.store.cells.s); }
    applied := result.Opened?;
    r := if result.Opened? then Alive(result.store) else Stopped;
  }

  method StepPut(m: Marble, items: seq<S.Item>, ioOk: bool, ghost log: Log) returns (r: Outcome, applied: bool)
    requires Sized(Put(items, ioOk)) && m.cells.s.passes == map[] && m.Steady()
    modifies m, m.cells
    ensures r.Stopped? <==> Ends(m.lib, m.config, Put(items, ioOk), MemoryOf(old(m.cells.fams), old(m.cells.s)))
    ensures r.Stopped? ==> !applied
    ensures r.Alive? ==> r.store == m && m.cells.s.passes == map[] && m.Steady()
    ensures r.Alive? ==> Leads(m.lib, Put(items, ioOk), log, applied, m.config, m.config,
      MemoryOf(old(m.cells.fams), old(m.cells.s)), MemoryOf(m.cells.fams, m.cells.s))
  {
    hide Inv, CrashInv, Faithful, View, Kept, FamsAgree, TableAgrees, Restored, Refused, Needs, Covers, S.Collect;
    hide MemoryOf, Filed, Within, LeavesBatch, S.IsLastItem;
    NothingCollected(m.config);
    WithinIs(m.config, items);
    KnownIds(m.cells.s, m.cells.table);
    MemoryView(m.cells.fams, m.cells.s);
    var known := S.Collect(items).Keys <= m.cells.table.Keys;
    var w := m.WriteBatch(items, ioOk);
    MemoryView(m.cells.fams, m.cells.s);
    if !w.Done? || items == [] { SkippedMemory(m.cells.fams, old(m.cells.s), m.cells.s); }
    applied := w.Done?;
    r := if w.IoError? && !known then Stopped else Alive(m);
  }

  lemma SkippedMemory(fams: map<Lsn, Fam>, s: State, s': State)
    requires s' == s.(nextLsn := s'.nextLsn)
    ensures var a := MemoryOf(fams, s); MemoryOf(fams, s') == a.(s := a.s.(nextLsn := s'.nextLsn))
  {
  }

  lemma NothingCollected(config: Config)
    ensures S.Collect([]) == map[] && !Refused(config, S.Collect([]))
  {
  }

  /** The objects of the table are those that read as something. */
  lemma KnownIds(s: State, table: map<nat, nat>)
    requires TableAgrees(table, s.table) && Inv(s)
    ensures table.Keys == View(s).Keys
  {
    hide Inv, Raw;
    forall o ensures o in s.table <==> o in View(s) {
      if o in s.table { EntryFacts(s, o); }
    }
  }

  /** The trace goes on by one operation. */
  lemma TracedNext(lib: Library, config: Config, ops: seq<Op>, applied: seq<bool>, t: Trace, done: bool, c: Config,
                   log: Log, b: Memory)
    requires Traced(lib, config, ops, applied, t) && |applied| == |t.logs| < |ops| && Good(b) && Counts(b)
    requires var n := |t.logs|;
      !Ends(lib, t.configs[n], ops[n], t.mems[n]) && Leads(lib, ops[n], log, done, t.configs[n], c, t.mems[n], b)
    ensures Traced(lib, config, ops, applied + [done], Trace(t.configs + [c], t.logs + [log], t.mems + [b]))
  {
    hide Leads, Ends, Good, Counts, Recovered, View;
    var applied', t' := applied + [done], Trace(t.configs + [c], t.logs + [log], t.mems + [b]);
    forall i | 0 <= i < |t'.logs| ensures Follows(lib, ops, applied', t', i) {
      if i < |t.logs| { assert Follows(lib, ops, applied, t, i); }
    }
  }

  lemma TracedStops(lib: Library, config: Config, ops: seq<Op>, applied: seq<bool>, t: Trace)
    requires Traced(lib, config, ops, applied, t) && |applied| == |t.logs| < |ops|
    requires Ends(lib, t.configs[|t.logs|], ops[|t.logs|], t.mems[|t.logs|])
    ensures Account(lib, config, ops, applied + [false], t, false)
  {
    hide Leads, Ends, Good, Counts, Recovered, View;
    forall i | 0 <= i < |t.logs| ensures Follows(lib, ops, applied + [false], t, i) {
      assert Follows(lib, ops, applied, t, i);
    }
  }

  lemma TracedFirst(lib: Library, config: Config, ops: seq<Op>, s: State)
    requires s == Recovered(Initial(), map[]) && s.nextLsn == 1 && View(s) == map[]
    requires FamsAgree(map[], s) && s.writes == map[] && s.passes == map[] && Inv(s)
    ensures MemoryOf(map[], s) == Memory(map[], s)
    ensures Traced(lib, config, ops, [], Trace([config], [], [Memory(map[], s)]))
  {
    hide Inv, FamsAgree, Good, Counts, View, NextLsn, RecoveredTable, Attributed, MonotonicOrder;
    MemoryIsGood(map[], s);
    RecoveredFields(Initial(), map[]);
    assert MemoryOf(map[], s).fams == map[];
  }

  /** A session from the creation of the store on. As long as it goes on, the store holds exactly what
      the applied batches say, whatever maintenance and restarts came in between; which batches are
      applied, and when the session ends, follows from what it goes through. */
  method Run(lib: Library, config: Config, ops: seq<Op>)
    returns (r: Outcome, applied: seq<bool>, ghost trace: Trace)
    requires Faithful(lib) && forall i :: 0 <= i < |ops| ==> Sized(ops[i])
    ensures Account(lib, config, ops, applied, trace, r.Alive?)
    ensures r.Alive? ==> |applied| == |ops| && fresh(r.store) && fresh(r.store.cells)
    ensures r.Alive? ==> |trace.mems| > |ops| && trace.mems[|ops|] == MemoryOf(r.store.cells.fams, r.store.cells.s)
    ensures r.Alive? ==> r.store.Contents() == Model(ops, applied)
    ensures r.Alive? ==> r.store.cells.s.passes == map[] && r.store.Steady()
  {
    hide Inv, CrashInv, Faithful, View, Kept, FamsAgree, TableAgrees, S.Collect, Recovered, Ends, Leads, Initial;
    hide MemoryOf, Traced;
    var first := Create(lib, config);
    r, applied := Alive(first.store), [];
    trace := Trace([config], [], [MemoryOf(first.store.cells.fams, first.store.cells.s)]);
    TracedFirst(lib, config, ops, first.store.cells.s);
    for i := 0 to |ops|
      invariant r.Alive? && |applied| == i == |trace.logs| && fresh(r.store) && fresh(r.store.cells)
      invariant |trace.configs| == |trace.mems| == i + 1 && Traced(lib, config, ops, applied, trace)
      invariant r.store.lib == lib && r.store.config == trace.configs[i]
      invariant trace.mems[i] == MemoryOf(r.store.cells.fams, r.store.cells.s)
      invariant r.store.cells.s.passes == map[] && r.store.Steady()
    {
      var done;
      ghost var log;
      r, done, log := Step(r.store, ops[i]);
      if r.Stopped? {
        TracedStops(lib, config, ops, applied, trace);
        applied := applied + [done];
        return;
      }
      MemoryIsGood(r.store.cells.fams, r.store.cells.s);
      ghost var b := MemoryOf(r.store.cells.fams, r.store.cells.s);
      TracedNext(lib, config, ops, applied, trace, done, r.store.config, log, b);
      applied := applied + [done];
      trace := Trace(trace.configs + [r.store.config], trace.logs + [log], trace.mems + [b]);
    }
    TraceIsModel(lib, config, ops, applied, trace, |ops|);
    MemoryView(r.store.cells.fams, r.store.cells.s);
    assert ops[..|ops|] == ops && applied[..|ops|] == applied;
  }

  /** So a read at the end of any session gives the last value applied, or nothing. */
  method RunAndRead(lib: Library, config: Config, ops: seq<Op>, id: nat)
    returns (alive: bool, value: Option<Bytes>, applied: seq<bool>, ghost trace: Trace)
    requires Faithful(lib) && forall i :: 0 <= i < |ops| ==> Sized(ops[i])
    ensures Account(lib, config, ops, applied, trace, alive)
    ensures alive ==> |applied| == |ops|
    ensures alive ==> value == if id in Model(ops, applied) then Model(ops, applied)[id] else None
  {
    hide Inv, CrashInv, Faithful, View, Kept, FamsAgree, TableAgrees, Model, Account;
    var r;
    r, applied, trace := Run(lib, config, ops);
    alive, value := r.Alive?, None;
    if r.Alive? {
      r.store.SteadyIsUsable();
      var read := r.store.Read(id);
      value := if read.Success? then read.value else None;
    }
  }
}
