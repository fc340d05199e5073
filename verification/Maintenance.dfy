/** A maintenance pass, carried out without interruption: files are claimed, their live objects
    copied into new files, the claims released and the empty files pruned. */
module Maintenance {
  import opened Basics
  import opened DiskLocations
  import opened Protocol
  import opened Invariant
  import opened CrashRefinement
  import opened Cells
  import opened Selection
  import opened Sequential
  import opened Records
  import opened Images
  import opened Ledger
  import opened Store
  import S = Sharding
  import T = Trailers
  import P = Preservation
  import C = Concurrency
  import E = Effects
  import L = Lost

  /** The one pass there is, as it looks between two steps of its life. */
  ghost function Pass(claims: set<Lsn>, empties: set<Lsn>, scanned: map<ObjectId, Loc>, batch: Batch): map<ThreadId,
                      Protocol.Maintenance> {
    map[0 := Protocol.Maintenance(Nothing, claims, empties, scanned, batch)]
  }

  function WithClaims(fams: map<Lsn, Fam>, claims: set<Lsn>): map<Lsn, Fam> {
    map k | k in fams :: if k in claims then fams[k].(claim := true) else fams[k]
  }

  function Candidates(config: Config, fams: map<Lsn, Fam>): set<Lsn> {
    set k | k in fams && Candidate(config, |fams|, fams[k])
  }

  /** `fams'` differs from `fams` in claims and live counts only. */
  ghost predicate SameStored(fams: map<Lsn, Fam>, fams': map<Lsn, Fam>) {
    fams'.Keys == fams.Keys && forall k :: k in fams ==>
      fams'[k] == fams[k].(claim := fams'[k].claim, live := fams'[k].live)
  }

  lemma KeptStored(lib: Library, disk: map<string, Bytes>, fams: map<Lsn, Fam>, fams': map<Lsn, Fam>, s: State,
                   s': State)
    requires Kept(lib, disk, fams, s) && SameStored(fams, fams') && s'.files == s.files && s'.disk == s.disk
    ensures Kept(lib, disk, fams', s')
  {
    hide IsImage, FileNames.Spellable, FileNames.ToFileName, FileNames.IsTemporary, Accounted;
    forall k | k in fams' ensures KeptFile(lib, disk, fams'[k], s'.files[k]) {
      assert KeptFile(lib, disk, fams[k], s.files[k]);
    }
    AccountedStored(disk, fams, fams');
  }

  lemma AccountedStored(disk: map<string, Bytes>, fams: map<Lsn, Fam>, fams': map<Lsn, Fam>)
    requires Accounted(disk, fams) && SameStored(fams, fams')
    ensures Accounted(disk, fams')
  {
    hide FileNames.IsTemporary;
    forall name | name in disk
      ensures FileNames.IsTemporary(name) || name == FileNames.LEGEND || exists k ::
        k in fams' && fams'[k].path == Some(name)
    {
      if k :| k in fams && fams[k].path == Some(name) {
        assert k in fams' && fams'[k].path == Some(name);
      }
    }
  }

  // ---------------------------------------------------------------- claiming

  /** Looking at a file and claiming it, when nobody holds it. */
  method ClaimFile(m: Marble, k: Lsn, empty: bool) returns (got: bool)
    requires 0 in m.cells.s.passes && m.cells.s.passes[0].look == Nothing && m.cells.s.writes == map[]
    requires k in m.cells.fams && k !in m.cells.s.claimed
    requires Enabled(m.cells.s, if empty then LookEmpty(0, k) else LookFragmented(0, k))
    requires CrashInv(m.cells.s) && m.cells.Valid()
    modifies m.cells`fams, m.cells`s
    ensures got && 0 in old(m.cells.s.passes) && m.cells.s == E.Claimed(old(m.cells.s), 0, k, empty)
    ensures k in old(m.cells.fams) && m.cells.fams == old(m.cells.fams)[k := old(m.cells.fams)[k].(claim := true)]
    ensures CrashInv(m.cells.s) && m.cells.Valid()
  {
    hide Inv, CrashInv, FamsAgree, TableAgrees, Enabled, Apply, Exclusive;
    ghost var s0 := m.cells.s;
    ghost var a := if empty then LookEmpty(0, k) else LookFragmented(0, k);
    NobodyExclusive(s0);
    E.LookEffect(s0, 0, k);
    m.cells.Note(a);
    ghost var s1 := m.cells.s;
    NobodyExclusive(s1);
    SoundStep(s0, a);
    E.ClaimEffect(s1, 0);
    got := m.cells.TryClaim(0, k);
    NobodyExclusive(m.cells.s);
    SoundStep(s1, Claim(0));
  }

  /** The state once the pass that has just begun in state `s` has claimed these files. */
  ghost function Claiming(s: State, claims: set<Lsn>): State {
    s.(claimed := s.claimed + claims, passes := Pass(claims, {}, map[], map[]))
  }

  /** The candidates outside `rest` are claimed and grouped. */
  ghost predicate Grouped(config: Config, fams: map<Lsn, Fam>, rest: set<Lsn>, groups: map<nat, set<Lsn>>,
                          claims: set<Lsn>) {
    && claims == Candidates(config, fams) - rest
    && (forall g :: g in groups ==> groups[g] == Members(config, fams, g) - rest)
    && (forall k :: k in claims ==> k in fams && NextGeneration(fams[k]) in groups)
    && (forall g :: g in groups ==> 0 < g <= MAX_GENERATION && groups[g] != {})
  }

  lemma NothingClaimed(config: Config, fams: map<Lsn, Fam>, s: State)
    requires s.passes == Pass({}, {}, map[], map[])
    ensures Grouped(config, fams, fams.Keys, map[], {}) && WithClaims(fams, {}) == fams && Claiming(s, {}) == s
  {
    assert s.claimed + {} == s.claimed;
  }

  lemma GroupNext(config: Config, fams: map<Lsn, Fam>, rest: set<Lsn>, groups: map<nat, set<Lsn>>, claims: set<Lsn>,
                  k: Lsn)
    requires Grouped(config, fams, rest, groups, claims) && k in rest && k in fams
    ensures !Candidate(config, |fams|, fams[k]) ==> Grouped(config, fams, rest - {k}, groups, claims)
    ensures Candidate(config, |fams|, fams[k]) ==>
      var g := NextGeneration(fams[k]);
      Grouped(config, fams, rest - {k}, groups[g := (if g in groups then groups[g] else {}) + {k}], claims + {k})
  {
    assert 0 < NextGeneration(fams[k]) <= MAX_GENERATION;
    hide Candidate, NextGeneration;
    if Candidate(config, |fams|, fams[k]) {
      var g := NextGeneration(fams[k]);
      if g !in groups {
        forall j | j in Members(config, fams, g) - (rest - {k}) ensures j == k {
          assert j != k ==> j in claims;
        }
        assert Members(config, fams, g) - (rest - {k}) == {k};
      }
    }
  }

  lemma AllGrouped(config: Config, fams: map<Lsn, Fam>, groups: map<nat, set<Lsn>>, claims: set<Lsn>)
    requires Grouped(config, fams, {}, groups, claims)
    ensures claims == Candidates(config, fams)
    ensures forall g :: g in groups ==> groups[g] == Members(config, fams, g)
    ensures forall k :: k in claims ==> k in fams && NextGeneration(fams[k]) in groups
    ensures forall g :: g in groups ==> 0 < g <= MAX_GENERATION && groups[g] != {}
  {
  }

  /** Which files have been picked, and for which generation, in numbers. */
  lemma PickedInNumbers(config: Config, fams: map<Lsn, Fam>, groups: map<nat, set<Lsn>>, claims: set<Lsn>)
    requires claims == Candidates(config, fams) && forall g :: g in groups ==> groups[g] == Members(config, fams, g)
    requires forall k :: k in claims ==> k in fams && NextGeneration(fams[k]) in groups
    ensures forall k :: k in claims <==> k in fams && var fam := fams[k];
      && fam.metadata.Some? && fam.live != 0
      && (|| 100 * fam.live < config.compactionPercent
               * (if fam.metadata.value.presentObjects == 0 then 1 else fam.metadata.value.presentObjects)
          || (config.smallFileCleanupThreshold <= |fams|
              && fam.metadata.value.fileSize * config.minCompactionFiles < config.targetFileSize))
    ensures forall g, k :: g in groups && k in groups[g] ==>
      k in fams && g == if fams[k].generation >= 2 then 3 else fams[k].generation + 1
  {
    forall k | k in fams
      ensures k in claims <==> var fam := fams[k];
        && fam.metadata.Some? && fam.live != 0
        && (|| 100 * fam.live < config.compactionPercent
                 * (if fam.metadata.value.presentObjects == 0 then 1 else fam.metadata.value.presentObjects)
            || (config.smallFileCleanupThreshold <= |fams|
                && fam.metadata.value.fileSize * config.minCompactionFiles < config.targetFileSize))
    {
      CandidateIs(config, |fams|, fams[k]);
    }
    hide Candidate;
    forall g, k | g in groups && k in groups[g]
      ensures k in fams && g == if fams[k].generation >= 2 then 3 else fams[k].generation + 1
    {
      NextGenerationIs(fams[k]);
    }
  }

  lemma Unclaimed(fams: map<Lsn, Fam>, s: State, claims: set<Lsn>, k: Lsn)
    requires FamsAgree(fams, s) && s.claimed !! s.present && k in fams && k !in claims
    ensures k in WithClaims(fams, claims) && WithClaims(fams, claims)[k] == fams[k]
    ensures k !in Claiming(s, claims).claimed
    ensures 0 in Claiming(s, claims).passes && Claiming(s, claims).passes[0].look == Nothing
  {
  }

  lemma ClaimNext(fams: map<Lsn, Fam>, s: State, claims: set<Lsn>, k: Lsn)
    requires k in fams && k in WithClaims(fams, claims) && 0 in Claiming(s, claims).passes
    ensures E.Claimed(Claiming(s, claims), 0, k, false) == Claiming(s, claims + {k})
    ensures WithClaims(fams, claims)[k := WithClaims(fams, claims)[k].(claim := true)] == WithClaims(fams, claims + {k})
  {
    assert s.claimed + claims + {k} == s.claimed + (claims + {k});
  }

  lemma ClaimingFrame(s: State, claims: set<Lsn>)
    ensures var s' := Claiming(s, claims); s'.files == s.files && s'.disk == s.disk && s'.writes == s.writes
  {
  }

  /** `files_to_defrag`: every candidate is claimed and listed under the generation its objects
      move to. */
  method ClaimFiles(m: Marble) returns (groups: map<nat, set<Lsn>>, claims: set<Lsn>)
    requires m.cells.s.passes == Pass({}, {}, map[], map[]) && m.cells.s.claimed !! m.cells.s.present
    requires m.Steady()
    modifies m.cells`fams, m.cells`s
    ensures forall k :: k in claims <==> k in old(m.cells.fams) && var fam := old(m.cells.fams)[k];
      && fam.metadata.Some? && fam.live != 0
      && (|| 100 * fam.live < m.config.compactionPercent
               * (if fam.metadata.value.presentObjects == 0 then 1 else fam.metadata.value.presentObjects)
          || (m.config.smallFileCleanupThreshold <= |old(m.cells.fams)|
              && fam.metadata.value.fileSize * m.config.minCompactionFiles < m.config.targetFileSize))
    ensures forall g, k :: g in groups && k in groups[g] ==>
      k in old(m.cells.fams) && g == if old(m.cells.fams)[k].generation >= 2 then 3
                                     else old(m.cells.fams)[k].generation + 1
    ensures claims == Candidates(m.config, old(m.cells.fams))
    ensures forall g :: g in groups ==> groups[g] == Members(m.config, old(m.cells.fams), g)
    ensures forall k :: k in claims ==> k in old(m.cells.fams) && NextGeneration(old(m.cells.fams)[k]) in groups
    ensures forall g :: g in groups ==> 0 < g <= MAX_GENERATION && groups[g] != {}
    ensures m.cells.fams == WithClaims(old(m.cells.fams), claims)
    ensures m.cells.s == Claiming(old(m.cells.s), claims)
    ensures m.Steady()
  {
    hide Inv, CrashInv, FamsAgree, TableAgrees, Enabled, Apply, Exclusive, Kept, Faithful, Candidate, Grouped;
    hide WithClaims, Claiming;
    ghost var s0, fams0 := m.cells.s, m.cells.fams;
    var count := |m.cells.fams|;
    var rest := m.cells.fams.Keys;
    groups, claims := map[], {};
    FamsKeys(fams0, s0);
    NothingClaimed(m.config, fams0, s0);
    while rest != {}
      invariant rest <= fams0.Keys && rest !! claims && Grouped(m.config, fams0, rest, groups, claims)
      invariant m.cells.fams == WithClaims(fams0, claims)
      invariant m.cells.s == Claiming(s0, claims)
      invariant CrashInv(m.cells.s) && m.cells.Valid()
      decreases rest
    {
      var k :| k in rest;
      Unclaimed(fams0, s0, claims, k);
      ClaimingFrame(s0, claims);
      var fam := m.cells.fams[k];
      GroupNext(m.config, fams0, rest, groups, claims, k);
      if Candidate(m.config, count, fam) {
        LookReady(m.cells.fams, m.cells.s, k, m.config, count);
        var got := ClaimFile(m, k, false);
        ClaimNext(fams0, s0, claims, k);
        if got {
          var g := NextGeneration(fam);
          groups := groups[g := (if g in groups then groups[g] else {}) + {k}];
          claims := claims + {k};
        }
      }
      rest := rest - {k};
    }
    AllGrouped(m.config, fams0, groups, claims);
    PickedInNumbers(m.config, fams0, groups, claims);
    ClaimsStored(fams0, claims);
    ClaimingFrame(s0, claims);
    KeptStored(m.lib, m.disk, fams0, m.cells.fams, s0, m.cells.s);
  }

  lemma LookReady(fams: map<Lsn, Fam>, s: State, k: Lsn, config: Config, count: nat)
    requires FamsAgree(fams, s) && k in fams && Candidate(config, count, fams[k]) && 0 in s.passes
    ensures Enabled(s, LookFragmented(0, k))
  {
    assert FamAgrees(fams[k], s, k);
  }

  lemma ClaimsStored(fams: map<Lsn, Fam>, claims: set<Lsn>)
    ensures SameStored(fams, WithClaims(fams, claims))
  {
  }

  // ---------------------------------------------------------------- scanning

  /** The pass that began in state `s0` is reading files; it holds `claims`. */
  ghost predicate Scanning(s0: State, s: State, claims: set<Lsn>) {
    && 0 in s.passes && s.passes == Pass(claims, {}, s.passes[0].scanned, s.passes[0].batch)
    && s == s0.(passes := s.passes)
  }

  /** It has taken over exactly the live objects of the files `ks`, and of file `k` those in `seen`:
      each from where the table has it, with its value. */
  ghost predicate Gathered(s: State, ks: set<Lsn>, k: Lsn, seen: set<ObjectId>) {
    && 0 in s.passes && s.passes[0].batch.Keys == s.passes[0].scanned.Keys
    && (forall o :: o in s.passes[0].scanned <==>
         o in s.table && (s.table[o].file in ks || (s.table[o].file == k && o in seen)))
    && (forall o :: o in s.passes[0].scanned ==> TakenOver(s, s.passes[0], o))
  }

  ghost predicate TakenOver(s: State, m: Protocol.Maintenance, o: ObjectId) {
    && o in m.scanned && o in m.batch && o in s.table && m.scanned[o] == s.table[o]
    && s.table[o].file in s.files && o in s.files[s.table[o].file].vals
    && m.batch[o] == s.files[s.table[o].file].vals[o]
  }

  /** What the program carries along is what the pass has taken over. */
  ghost predicate Carried(s: State, batch: Batch, expected: map<nat, nat>) {
    0 in s.passes && s.passes[0].batch == batch && TableAgrees(expected, s.passes[0].scanned)
  }

  lemma ScanEnabled(s: State, claims: set<Lsn>, k: Lsn, o: ObjectId)
    requires 0 in s.passes && s.passes[0].claims == claims && k in claims && k in s.described && k in s.files
    requires o in s.files[k].locs
    ensures Enabled(s, Action.Scan(0, k, o))
  {
  }

  lemma SeenElsewhere(s: State, ks: set<Lsn>, k: Lsn, seen: set<ObjectId>, o: ObjectId)
    requires Gathered(s, ks, k, seen) && o in s.table && s.table[o].file != k
    ensures Gathered(s, ks, k, seen + {o})
  {
    hide TakenOver;
  }

  lemma TakesOver(s: State, s': State, m: Protocol.Maintenance, m': Protocol.Maintenance, k: Lsn, o: ObjectId,
                  x: ObjectId)
    requires s'.table == s.table && s'.files == s.files && o in s.table && s.table[o].file == k && k in s.files
    requires o in s.files[k].vals
    requires m'.scanned == m.scanned[o := s.table[o]] && m'.batch == m.batch[o := s.files[k].vals[o]]
    requires x == o || TakenOver(s, m, x)
    ensures TakenOver(s', m', x)
  {
  }

  lemma ScanTaken(s0: State, s: State, s': State, claims: set<Lsn>, ks: set<Lsn>, k: Lsn, seen: set<ObjectId>,
                  o: ObjectId)
    requires Scanning(s0, s, claims) && Gathered(s, ks, k, seen) && o in s.table && s.table[o].file == k
    requires k in s.files && o in s.files[k].vals
    requires s' == s.(passes := s.passes[0 := s.passes[0].(scanned := s.passes[0].scanned[o := s.table[o]],
                                                           batch := s.passes[0].batch[o := s.files[k].vals[o]])])
    ensures Scanning(s0, s', claims) && Gathered(s', ks, k, seen + {o})
  {
    hide TakenOver;
    forall x | x in s'.passes[0].scanned ensures TakenOver(s', s'.passes[0], x) {
      TakesOver(s, s', s.passes[0], s'.passes[0], k, o, x);
    }
  }

  lemma ScanNext(s0: State, s: State, s': State, claims: set<Lsn>, ks: set<Lsn>, k: Lsn, seen: set<ObjectId>,
                 o: ObjectId)
    requires Scanning(s0, s, claims) && Gathered(s, ks, k, seen)
    requires k in s.files && o in s.files[k].locs && o in s.table && o in s.files[k].vals
    requires Raw(s.table[o]) == Raw(Loc(k, s.files[k].locs[o])) <==> s.table[o].file == k
    requires s.table[o].file == k ==> s.table[o] == Loc(k, s.files[k].locs[o])
    requires s' == s.(passes := E.Scanned(s, 0, k, o))
    ensures Scanning(s0, s', claims) && Gathered(s', ks, k, seen + {o})
  {
    hide Raw, Gathered;
    if s.table[o].file == k {
      ScanTaken(s0, s, s', claims, ks, k, seen, o);
    } else {
      SeenElsewhere(s, ks, k, seen, o);
    }
  }

  /** Object `id` with this word and value is an entry of file `k`, or a record that `k` has lost. */
  ghost predicate Meant(f: File, k: Lsn, id: nat, word: nat, value: Option<Bytes>) {
    if id in f.locs then word == Raw(Loc(k, f.locs[id])) && id in f.vals && value == f.vals[id]
    else id in f.lost && word == Raw(Loc(k, f.lost[id].rel)) && value == Some(f.lost[id].data)
  }

  /** A lost record: its object is known, and elsewhere. */
  lemma LostIsElsewhere(s: State, k: Lsn, o: ObjectId)
    requires k in s.files && o in s.files[k].lost && o !in s.files[k].locs && Inv(s) && CrashInv(s)
    ensures o in s.table && s.table[o].file != k && Raw(s.table[o]) != Raw(Loc(k, s.files[k].lost[o].rel))
  {
    IsDurable(s);
    hide CrashInv, Durable, Raw, L.Rooted;
    assert o in s.table by {
      hide Inv;
      assert L.LostIn(s.files, k, o) && L.Recalled(s, o);
      RootedIsKnown(s, o);
    }
    hide L.LostOk;
    hide LiveOk, WritesOk, ReplacedOk, UnsettledOk, CopiesOk, KnownOk, StageOk, ClaimsOk, PassesOk, DebugOk, DiskOk;
    C.EntryWritten(s, o);
    P.LostDiffers(s, k, o);
  }

  lemma RootedIsKnown(s: State, o: ObjectId)
    requires L.Rooted(s.table, s.writes, o)
    ensures o in s.table
  {
  }

  ghost method ScanEntry(m: Marble, k: Lsn, id: nat, s0: State, claims: set<Lsn>, ks: set<Lsn>, seen: set<ObjectId>)
    requires k in m.cells.s.files && id in m.cells.s.files[k].locs && k in claims && k in m.cells.s.described
    requires k !in ks
    requires Scanning(s0, m.cells.s, claims) && Gathered(m.cells.s, ks, k, seen)
    requires m.cells.s.writes == map[] && CrashInv(m.cells.s) && m.cells.Valid()
    modifies m.cells`s
    ensures Scanning(s0, m.cells.s, claims) && Gathered(m.cells.s, ks, k, seen + {id})
    ensures id in old(m.cells.s.table) && m.cells.s.passes == E.Scanned(old(m.cells.s), 0, k, id)
    ensures CrashInv(m.cells.s) && m.cells.Valid()
  {
    hide Inv, CrashInv, FamsAgree, TableAgrees, Enabled, Apply, Exclusive, Raw, Gathered;
    var s := m.cells.s;
    ScanEnabled(s, claims, k, id);
    NobodyExclusive(s);
    E.Safe(s, Action.Scan(0, k, id));
    E.ScanEffect(s, 0, k, id);
    E.WordShowsFile(s, k, id);
    m.cells.Note(Action.Scan(0, k, id));
    NobodyExclusive(m.cells.s);
    SoundStep(s, Action.Scan(0, k, id));
    ScanNext(s0, s, m.cells.s, claims, ks, k, seen, id);
  }

  /** One object of a file being rewritten: if the table still has it there, it is taken over. */
  method ScanOne(m: Marble, k: Lsn, id: nat, word: nat, value: Option<Bytes>, batch: Batch, expected: map<nat, nat>,
                 ghost s0: State, ghost claims: set<Lsn>, ghost ks: set<Lsn>, ghost seen: set<ObjectId>)
    returns (batch': Batch, expected': map<nat, nat>)
    requires k in m.cells.s.files && k in claims && k in m.cells.s.described && k !in ks
    requires Meant(m.cells.s.files[k], k, id, word, value)
    requires Scanning(s0, m.cells.s, claims) && Gathered(m.cells.s, ks, k, seen) && Carried(m.cells.s, batch, expected)
    requires m.cells.s.writes == map[] && CrashInv(m.cells.s) && m.cells.Valid()
    modifies m.cells`s
    ensures Scanning(s0, m.cells.s, claims) && Gathered(m.cells.s, ks, k, seen + {id})
    ensures Carried(m.cells.s, batch', expected')
    ensures CrashInv(m.cells.s) && m.cells.Valid()
  {
    hide Inv, CrashInv, FamsAgree, Enabled, Apply, Exclusive, Raw, Gathered;
    ghost var s := m.cells.s;
    if id in s.files[k].locs {
      ScanEntry(m, k, id, s0, claims, ks, seen);
    } else {
      LostIsElsewhere(s, k, id);
      SeenElsewhere(s, ks, k, seen, id);
    }
    var current := m.cells.Load(id);
    assert current.Some?;
    batch', expected' := batch, expected;
    if current.value == word {
      batch' := batch[id := value];
      expected' := expected[id := word];
    }
  }

  lemma SeenIsMeant(lib: Library, s: State, k: Lsn, dict: Bytes, x: Sighting)
    requires Inv(s) && k in s.files && s.files[k].locs.Keys == s.files[k].vals.Keys && Sees(lib, s.files[k], dict, x)
    ensures k + x.offset < U63
    ensures Meant(s.files[k], k, x.record.id, ToAbsolute(Relative(x.offset, false), k),
      Some(Decode(lib, dict, x.record.stored)))
  {
    hide Inv, Raw, ToAbsolute, Decode;
    if x.record.id in s.files[k].vals { E.WordIsRaw(s, k, x.record.id); } else { E.LostWord(s, k, x.record.id); }
  }

  /** The records of one file. */
  method ScanObjects(m: Marble, k: Lsn, found: seq<Sighting>, dict: Bytes, batch: Batch, expected: map<nat, nat>,
                     ghost s0: State, ghost f: File, ghost claims: set<Lsn>, ghost ks: set<Lsn>)
    returns (batch': Batch, expected': map<nat, nat>, ghost seen: set<ObjectId>)
    requires k in m.cells.s.files && m.cells.s.files[k] == f && k in claims && k in m.cells.s.described && k !in ks
    requires f.locs.Keys == f.vals.Keys && forall x :: x in found ==> Sees(m.lib, f, dict, x)
    requires Scanning(s0, m.cells.s, claims) && Gathered(m.cells.s, ks, k, {}) && Carried(m.cells.s, batch, expected)
    requires m.cells.s.writes == map[] && CrashInv(m.cells.s) && m.cells.Valid()
    modifies m.cells`s
    ensures Scanning(s0, m.cells.s, claims) && Gathered(m.cells.s, ks, k, seen) && Carried(m.cells.s, batch', expected')
    ensures forall x :: x in found ==> x.record.id in seen
    ensures CrashInv(m.cells.s) && m.cells.Valid()
  {
    hide Inv, CrashInv, FamsAgree, TableAgrees, Exclusive, Raw, Gathered, Carried, ToAbsolute, Decode, Enabled, Meant;
    batch', expected', seen := batch, expected, {};
    for i := 0 to |found|
      invariant Scanning(s0, m.cells.s, claims) && Gathered(m.cells.s, ks, k, seen)
      invariant Carried(m.cells.s, batch', expected')
      invariant forall j :: 0 <= j < i ==> found[j].record.id in seen
      invariant m.cells.s.files == s0.files && m.cells.s.writes == map[] && m.cells.s.described == s0.described
      invariant CrashInv(m.cells.s) && m.cells.Valid()
    {
      var x := found[i];
      assert Sees(m.lib, f, dict, x);
      SeenIsMeant(m.lib, m.cells.s, k, dict, x);
      var word := ToAbsolute(Relative(x.offset, false), k);
      batch', expected' := ScanOne(m, k, x.record.id, word, Some(Decode(m.lib, dict, x.record.stored)), batch',
        expected', s0, claims, ks, seen);
      seen := seen + {x.record.id};
    }
  }

  /** Its tombstones, which only the trailer has. */
  method ScanTombstones(m: Marble, k: Lsn, entries: seq<T.Entry>, batch: Batch, expected: map<nat, nat>,
                        ghost s0: State, ghost f: File, ghost claims: set<Lsn>, ghost ks: set<Lsn>,
                        ghost before: set<ObjectId>)
    returns (batch': Batch, expected': map<nat, nat>, ghost seen: set<ObjectId>)
    requires k in m.cells.s.files && m.cells.s.files[k] == f && k in claims && k in m.cells.s.described && k !in ks
    requires forall e :: e in entries ==> e.id in f.locs && f.locs[e.id] == e.rel
    requires forall o :: o in f.locs ==> o in f.vals && (f.locs[o].isDelete <==> f.vals[o].None?)
    requires Scanning(s0, m.cells.s, claims) && Gathered(m.cells.s, ks, k, before)
    requires Carried(m.cells.s, batch, expected)
    requires m.cells.s.writes == map[] && CrashInv(m.cells.s) && m.cells.Valid()
    modifies m.cells`s
    ensures Scanning(s0, m.cells.s, claims) && Gathered(m.cells.s, ks, k, seen) && Carried(m.cells.s, batch', expected')
    ensures before <= seen && forall e :: e in entries && e.rel.isDelete ==> e.id in seen
    ensures CrashInv(m.cells.s) && m.cells.Valid()
  {
    hide Inv, CrashInv, FamsAgree, TableAgrees, Exclusive, Raw, Gathered, Carried, ToAbsolute, Enabled;
    batch', expected', seen := batch, expected, before;
    for i := 0 to |entries|
      invariant Scanning(s0, m.cells.s, claims) && Gathered(m.cells.s, ks, k, seen)
      invariant Carried(m.cells.s, batch', expected')
      invariant before <= seen && forall j :: 0 <= j < i && entries[j].rel.isDelete ==> entries[j].id in seen
      invariant m.cells.s.files == s0.files && m.cells.s.writes == map[] && m.cells.s.described == s0.described
      invariant CrashInv(m.cells.s) && m.cells.Valid()
    {
      var e := entries[i];
      if e.rel.isDelete {
        assert e in entries;
        E.WordIsRaw(m.cells.s, k, e.id);
        var word := ToAbsolute(e.rel, k);
        batch', expected' := ScanOne(m, k, e.id, word, None, batch', expected', s0, claims, ks, seen);
        seen := seen + {e.id};
      }
    }
  }

  /** One file of a compaction: trailer, records and tombstones. It fails only on a record as long as
      the size limit. */
  method ScanFile(m: Marble, k: Lsn, batch: Batch, expected: map<nat, nat>, ghost s0: State, ghost claims: set<Lsn>,
                  ghost ks: set<Lsn>)
    returns (ok: bool, batch': Batch, expected': map<nat, nat>)
    requires k in m.cells.fams && k in claims && k !in ks
    requires Scanning(s0, m.cells.s, claims) && Gathered(m.cells.s, ks, k, {}) && Carried(m.cells.s, batch, expected)
    requires m.Steady()
    modifies m.cells`s
    ensures Scanning(s0, m.cells.s, claims)
    ensures ok ==> Gathered(m.cells.s, ks + {k}, k, {}) && Carried(m.cells.s, batch', expected')
    ensures ok <==> !Unreadable(m.lib, m.config, m.cells.fams, k)
    ensures m.Steady()
  {
    hide Inv, CrashInv, TableAgrees, FamsAgree, Exclusive, Raw, Gathered, Carried, Kept, Faithful, Enabled;
    hide T.Parse, ScanFrom, Sees, File.WellFormed, IsImage, T.Lists, ListedIn;
    ghost var s := m.cells.s;
    var fam := m.cells.fams[k];
    FileOf(m.lib, m.disk, m.cells.fams, s, k);
    ghost var f := s.files[k];
    assert fam.metadata.Some?;
    var end := fam.metadata.value.trailerOffset;
    ImageTrailer(m.lib, fam.file, f, fam.dict);
    ImageScan(m.lib, m.config.maxObjectSize, fam.file, f, fam.dict);
    var parsed := T.ReadTrailer(m.lib.crc, fam.file[end..]);
    ghost var found, next;
    var scan;
    scan, found, next := ScanRecords(m.lib.crc, m.config.maxObjectSize, fam.file, end);
    batch', expected', ok := batch, expected, parsed.Parsed? && scan.Scan?;
    ListedEntries(fam.file, end, m.lib.crc, f);
    if parsed.Parsed? && scan.Scan? {
      batch', expected' := ScanContents(m, k, scan.found, parsed.entries, parsed.dict, batch', expected', s0, f, claims,
        ks);
      KeptSame(m.lib, m.disk, m.cells.fams, s, m.cells.s);
    }
  }

  method ScanContents(m: Marble, k: Lsn, found: seq<Sighting>, entries: seq<T.Entry>, dict: Bytes, batch: Batch,
                      expected: map<nat, nat>,
                      ghost s0: State, ghost f: File, ghost claims: set<Lsn>, ghost ks: set<Lsn>)
    returns (batch': Batch, expected': map<nat, nat>)
    requires k in m.cells.s.files && m.cells.s.files[k] == f && k in claims && k in m.cells.s.described && k !in ks
    requires f.locs.Keys == f.vals.Keys && forall x :: x in found ==> Sees(m.lib, f, dict, x)
    requires forall o :: o in f.vals && f.vals[o].Some? ==> exists x :: x in found && x.record.id == o
    requires ListedIn(entries, f)
    requires Scanning(s0, m.cells.s, claims) && Gathered(m.cells.s, ks, k, {}) && Carried(m.cells.s, batch, expected)
    requires m.cells.s.writes == map[] && CrashInv(m.cells.s) && m.cells.Valid()
    modifies m.cells`s
    ensures Scanning(s0, m.cells.s, claims) && Gathered(m.cells.s, ks + {k}, k, {})
    ensures Carried(m.cells.s, batch', expected')
    ensures CrashInv(m.cells.s) && m.cells.Valid()
  {
    hide Inv, CrashInv, FamsAgree, TableAgrees, Exclusive, Raw, Gathered, Carried, Sees, Enabled;
    ghost var seen;
    batch', expected', seen := ScanObjects(m, k, found, dict, batch, expected, s0, f, claims, ks);
    batch', expected', seen := ScanTombstones(m, k, entries, batch', expected', s0, f, claims, ks, seen);
    forall o | o in f.locs ensures o in seen {
      if f.vals[o].Some? {
        var x :| x in found && x.record.id == o;
      } else {
        assert T.Entry(o, f.locs[o]) in entries;
      }
    }
    GatheredFile(m.cells.s, ks, k, seen);
  }

  /** The trailer entries are those of the file, and tell tombstones from objects. */
  ghost predicate ListedIn(es: seq<T.Entry>, f: File) {
    && (forall e :: e in es ==> e.id in f.locs && f.locs[e.id] == e.rel)
    && (forall o :: o in f.locs ==> T.Entry(o, f.locs[o]) in es)
    && (forall o :: o in f.locs ==> o in f.vals && (f.locs[o].isDelete <==> f.vals[o].None?))
  }

  /** What the map knows of a finished file. */
  lemma FileOf(lib: Library, disk: map<string, Bytes>, fams: map<Lsn, Fam>, s: State, k: Lsn)
    requires k in fams && s.writes == map[] && Kept(lib, disk, fams, s) && FamsAgree(fams, s) && Inv(s)
    ensures k in s.files && k in s.described && s.files[k].WellFormed()
    ensures IsImage(lib, fams[k].file, s.files[k], fams[k].dict)
    ensures fams[k].metadata == Some(MetadataOf(s.files[k])) && k in s.live && fams[k].live == s.live[k]
    ensures fams[k].generation == s.files[k].generation && s.files[k].Key() == k
    ensures s.files[k].locs.Keys == s.files[k].vals.Keys
  {
    Finished(s, k);
    C.FilesAreOk(s);
    hide Inv, IsImage, Accounted;
    assert FamAgrees(fams[k], s, k) && KeptFile(lib, disk, fams[k], s.files[k]);
    hide FamsAgree, Kept;
  }

  lemma Finished(s: State, k: Lsn)
    requires Inv(s) && s.writes == map[] && k in s.present
    ensures k in s.files && k in s.described && k in s.pathed
  {
    hide FilesOk, TableOk, LiveOk, WritesOk, ReplacedOk, UnsettledOk, CopiesOk, KnownOk, ClaimsOk, PassesOk, DebugOk;
    hide DiskOk;
  }

  lemma ListedEntries(file: Bytes, end: nat, crc: T.Checksum, f: File)
    requires end <= |file| && f.WellFormed()
    requires var p := T.Parse(crc, file[end..]); p.Parsed? && T.Lists(p.entries, f.locs)
    ensures ListedIn(T.Parse(crc, file[end..]).entries, f)
  {
    hide T.Parse;
  }

  lemma GatheredFile(s: State, ks: set<Lsn>, k: Lsn, seen: set<ObjectId>)
    requires Gathered(s, ks, k, seen) && k in s.files && s.files[k].locs.Keys <= seen && Inv(s)
    ensures Gathered(s, ks + {k}, k, {})
  {
    hide Inv, TakenOver;
    AllSeen(s, k, seen);
  }

  lemma AllSeen(s: State, k: Lsn, seen: set<ObjectId>)
    requires Inv(s) && k in s.files && s.files[k].locs.Keys <= seen
    ensures forall o :: o in s.table && s.table[o].file == k ==> o in seen
  {
    hide Inv;
    C.TableIsOk(s);
    forall o | o in s.table && s.table[o].file == k ensures o in seen {
      assert Wrote(s.files, s.table[o], o);
    }
  }

  // ---------------------------------------------------------------- rewriting

  /** The state after the objects `done` have moved from where they were in state `s0` to new files
      that hold nothing else. */
  ghost predicate Moved(s0: State, s: State, done: set<ObjectId>) {
    && s.writes == map[] && s.passes == s0.passes && s.claimed == s0.claimed && s.history == s0.history
    && FilesMoved(s0.files, s.files, s0.present, s.present)
    && TableMoved(s0.table, s.table, s0.files.Keys, done)
    && (forall k :: k in s.files && k !in s0.files ==> HoldsOnlyLive(s, k))
  }

  ghost predicate FilesMoved(f0: map<Lsn, File>, f: map<Lsn, File>, p0: set<Lsn>, p: set<Lsn>) {
    && (forall k :: k in f0 ==> k in f && f[k] == f0[k])
    && p == p0 + (f.Keys - f0.Keys)
  }

  ghost predicate TableMoved(t0: map<ObjectId, Loc>, t: map<ObjectId, Loc>, files: set<Lsn>, done: set<ObjectId>) {
    && t.Keys == t0.Keys && done <= t0.Keys
    && (forall o :: o in t0 && o !in done ==> t[o] == t0[o])
    && (forall o :: o in done ==> t[o].file !in files)
  }

  /** Every entry of file `k` is where the table has its object. */
  ghost predicate HoldsOnlyLive(s: State, k: Lsn) {
    && k in s.files && s.files[k].objects == |s.files[k].locs| && s.files[k].locs != map[]
    && forall o :: o in s.files[k].locs ==> o in s.table && s.table[o].file == k
  }

  lemma MovedNone(s: State)
    requires s.writes == map[]
    ensures Moved(s, s, {})
  {
  }

  lemma MovedNext(s0: State, s: State, s': State, f: File, done: set<ObjectId>)
    requires forall o :: o in s0.table ==> s0.table[o].file in s0.files
    requires Moved(s0, s, done) && Extended(s, s', f) && f.IsGc() && f.locs.Keys !! done && f.locs.Keys <= s.table.Keys
    requires f.Key() !in s.files && f.Key() !in s.present && f.objects == |f.locs| && f.locs != map[]
    ensures Moved(s0, s', done + f.locs.Keys)
  {
    hide File.Key, HoldsOnlyLive, Extended, Overlay, TableMoved, FilesMoved;
    var k := f.Key();
    ExtendedTable(s, s', f);
    FilesMovedNext(s0.files, s.files, s0.present, s.present, k, f);
    TableMovedNext(s0.table, s.table, s'.table, s0.files.Keys, done, k, f.locs);
    forall j | j in s'.files && j !in s0.files ensures HoldsOnlyLive(s', j) {
      if j != k {
        assert HoldsOnlyLive(s, j);
        StillLive(s0, s, s', f, done, j);
      } else {
        NewIsLive(s', f);
      }
    }
  }

  lemma TableMovedNext(t0: map<ObjectId, Loc>, t: map<ObjectId, Loc>, t': map<ObjectId, Loc>, files: set<Lsn>,
                       done: set<ObjectId>,
                       k: Lsn, locs: map<ObjectId, Relative>)
    requires TableMoved(t0, t, files, done) && k !in files && locs.Keys <= t.Keys && t'.Keys == t.Keys + locs.Keys
    requires forall o :: o in locs ==> t'[o] == Loc(k, locs[o])
    requires forall o :: o in t && o !in locs ==> t'[o] == t[o]
    ensures TableMoved(t0, t', files, done + locs.Keys)
  {
  }

  lemma FilesMovedNext(f0: map<Lsn, File>, f: map<Lsn, File>, p0: set<Lsn>, p: set<Lsn>, k: Lsn, g: File)
    requires FilesMoved(f0, f, p0, p) && k !in f
    ensures k !in f0 && FilesMoved(f0, f[k := g], p0, p + {k})
  {
    assert f[k := g].Keys - f0.Keys == (f.Keys - f0.Keys) + {k};
  }

  lemma ExtendedTable(s: State, s': State, f: File)
    requires Extended(s, s', f) && f.IsGc()
    ensures s'.table.Keys == s.table.Keys + f.locs.Keys
    ensures forall o :: o in f.locs ==> s'.table[o] == Loc(f.Key(), f.locs[o])
    ensures forall o :: o in s.table && o !in f.locs ==> s'.table[o] == s.table[o]
    ensures s'.files == s.files[f.Key() := f] && s'.present == s.present + {f.Key()} && s'.claimed == s.claimed
    ensures s'.writes == map[] && s'.passes == s.passes && s'.history == s.history
  {
    hide File.Key;
  }

  lemma StillLive(s0: State, s: State, s': State, f: File, done: set<ObjectId>, j: Lsn)
    requires forall o :: o in s0.table ==> s0.table[o].file in s0.files
    requires Moved(s0, s, done) && j in s.files && j !in s0.files && HoldsOnlyLive(s, j) && f.locs.Keys !! done
    requires j != f.Key()
    requires s'.files == s.files[f.Key() := f] && s'.table.Keys == s.table.Keys + f.locs.Keys
    requires forall o :: o in s.table && o !in f.locs ==> s'.table[o] == s.table[o]
    ensures HoldsOnlyLive(s', j)
  {
    hide File.Key;
    forall o | o in s.files[j].locs ensures o in s'.table && s'.table[o].file == j {
      assert o in s.table && s.table[o].file == j;
      assert o in s0.table;
      assert o in done;
    }
  }

  lemma NewIsLive(s': State, f: File)
    requires f.Key() in s'.files && s'.files[f.Key()] == f && f.objects == |f.locs| && f.locs != map[]
    requires forall o :: o in f.locs ==> o in s'.table && s'.table[o] == Loc(f.Key(), f.locs[o])
    ensures HoldsOnlyLive(s', f.Key())
  {
  }

  /** These objects are still where the pass scanned them, with the values it read. */
  ghost predicate Pending(s: State, objects: Batch, expected: map<nat, nat>) {
    0 in s.passes && forall o :: o in objects ==> PendingObject(s, s.passes[0], o, objects[o], expected)
  }

  ghost predicate PendingObject(s: State, m: Protocol.Maintenance, o: ObjectId, v: Option<Bytes>,
                                expected: map<nat, nat>) {
    && ReadyObject(s, m, o, v, expected)
    && s.table[o].file in s.files && o in s.files[s.table[o].file].vals && s.files[s.table[o].file].vals[o] == v
  }

  lemma PendingReady(s: State, objects: Batch, expected: map<nat, nat>)
    requires Pending(s, objects, expected)
    ensures Ready(s, 0, objects, expected) && objects.Keys <= s.table.Keys
  {
    hide Raw;
    forall o | o in objects ensures ReadyObject(s, s.passes[0], o, objects[o], expected) && o in s.table {
      assert PendingObject(s, s.passes[0], o, objects[o], expected);
    }
  }

  /** Copies have the values of their originals. */
  lemma PendingView(s: State, objects: Batch, expected: map<nat, nat>)
    requires Pending(s, objects, expected)
    ensures View(s) + objects == View(s)
  {
    hide Raw;
    forall o | o in objects ensures o in View(s) && View(s)[o] == objects[o] {
      assert PendingObject(s, s.passes[0], o, objects[o], expected);
    }
  }

  lemma PendingStays(s: State, s': State, f: File, objects: Batch, expected: map<nat, nat>)
    requires Pending(s, objects, expected) && Extended(s, s', f) && f.IsGc() && f.Key() !in s.files
    requires f.locs.Keys !! objects.Keys
    ensures Pending(s', objects, expected)
  {
    hide File.Key, Raw, Extended;
    ExtendedTable(s, s', f);
    forall o | o in objects ensures PendingObject(s', s'.passes[0], o, objects[o], expected) {
      assert PendingObject(s, s.passes[0], o, objects[o], expected);
    }
  }

  /** Whatever was pending, apart from the objects `ids`, still is. */
  ghost predicate Spares(s: State, s': State, ids: set<ObjectId>) {
    forall other, e :: Pending(s, other, e) && other.Keys !! ids ==> Pending(s', other, e)
  }

  lemma SparesRest(s: State, s': State, groups: seq<Batch>, batch: Batch, i: nat, expected: map<nat, nat>)
    requires S.Divides(groups, batch) && i < |groups| && Spares(s, s', groups[i].Keys)
    requires forall j :: i <= j < |groups| ==> Pending(s, groups[j], expected)
    ensures forall j :: i + 1 <= j < |groups| ==> Pending(s', groups[j], expected)
  {
    hide Pending;
    GroupsApart(groups, batch, i);
  }

  lemma PendingSkips(s: State, s': State, objects: Batch, expected: map<nat, nat>)
    requires Pending(s, objects, expected) && s' == s.(nextLsn := s'.nextLsn)
    ensures Pending(s', objects, expected)
  {
    hide Raw;
    forall o | o in objects ensures PendingObject(s', s'.passes[0], o, objects[o], expected) {
      assert PendingObject(s, s.passes[0], o, objects[o], expected);
    }
  }

  lemma GatheredPending(s: State, ks: set<Lsn>, k: Lsn, batch: Batch, expected: map<nat, nat>, objects: Batch)
    requires Gathered(s, ks, k, {}) && Carried(s, batch, expected)
    requires forall o :: o in objects ==> o in batch && batch[o] == objects[o]
    ensures Pending(s, objects, expected)
  {
    hide Raw;
    forall o | o in objects ensures PendingObject(s, s.passes[0], o, objects[o], expected) {
      assert TakenOver(s, s.passes[0], o);
    }
  }

  /** One new file of a rewrite. */
  method WriteGroup(m: Marble, objects: Batch, generation: nat, expected: map<nat, nat>, ioOk: bool, ghost s0: State,
                    ghost done: set<ObjectId>)
    returns (r: WriteResult)
    requires Fitting(objects) && 0 < generation < 256
    requires Pending(m.cells.s, objects, expected) && objects.Keys !! done && Moved(s0, m.cells.s, done)
    requires forall o :: o in s0.table ==> s0.table[o].file in s0.files
    requires m.Steady()
    modifies m, m.cells
    ensures r.Done? ==> ioOk && Filed(m.lib, m.config, MemoryOf(old(m.cells.fams), old(m.cells.s)),
      MemoryOf(m.cells.fams, m.cells.s), objects, generation)
    ensures !r.Done? ==> Unfiled(m.lib, m.config, MemoryOf(old(m.cells.fams), old(m.cells.s)),
      MemoryOf(m.cells.fams, m.cells.s), objects, ioOk)
    ensures Moved(s0, m.cells.s, if r.Done? then done + objects.Keys else done)
    ensures FamsExtend(old(m.cells.fams), m.cells.fams) && m.Contents() == old(m.Contents())
    ensures Spares(old(m.cells.s), m.cells.s, objects.Keys)
    ensures m.Steady()
  {
    hide Inv, CrashInv, FamsAgree, TableAgrees, Raw, Kept, Faithful, View, Extended, Pending, Moved, Ready, Restored;
    hide Refused, Room, Needs, Covers, FamsAdd, FamsExtend, Shaped, Filed, Unfiled, MemoryOf, Spares;
    ghost var s, fams := m.cells.s, m.cells.fams;
    PendingReady(s, objects, expected);
    PendingView(s, objects, expected);
    assert objects.Keys <= m.cells.table.Keys by { AgreesKeys(m.cells.table, s.table); }
    ghost var f;
    r, f := m.WriteBatchInner(objects, generation, expected, ioOk, 0);
    if r.Done? {
      KeptFiled(m.lib, m.config, m.disk, fams, s, m.cells.fams, m.cells.s, f, objects, generation);
      AddExtends(fams, m.cells.fams, f.Key(), DictFor(m.lib, m.config, objects));
      FreshView(s, m.cells.s, f);
      E.NextIsFree(s, f);
      NonEmpty(objects, f.locs);
      MovedNext(s0, s, m.cells.s, f, done);
      SparesOthers(s, m.cells.s, f);
    } else {
      UnfiledFrom(m.lib, m.config, fams, s, m.cells.s, objects, ioOk);
      FamsSame(fams);
      SkipsOnly(s, m.cells.s, s0, done, objects.Keys);
    }
  }

  lemma AgreesKeys(table: map<nat, nat>, t: map<ObjectId, Loc>)
    requires TableAgrees(table, t)
    ensures table.Keys == t.Keys
  {
  }

  lemma AddExtends(fams: map<Lsn, Fam>, fams': map<Lsn, Fam>, k: Lsn, dict: Bytes)
    requires FamsAdd(fams, fams', k, dict)
    ensures FamsExtend(fams, fams')
  {
  }

  lemma SparesOthers(s: State, s': State, f: File)
    requires Extended(s, s', f) && f.IsGc() && f.Key() !in s.files
    ensures Spares(s, s', f.locs.Keys)
  {
    hide Pending, Extended, File.Key;
    forall other, e | Pending(s, other, e) && other.Keys !! f.locs.Keys ensures Pending(s', other, e) {
      PendingStays(s, s', f, other, e);
    }
  }

  lemma SkipsOnly(s: State, s': State, s0: State, done: set<ObjectId>, ids: set<ObjectId>)
    requires s' == s.(nextLsn := s'.nextLsn) && Moved(s0, s, done)
    ensures View(s') == View(s) && Moved(s0, s', done) && Spares(s, s', ids)
  {
    SkipView(s, s');
    hide View, Pending;
    forall other, e | Pending(s, other, e) ensures Pending(s', other, e) {
      PendingSkips(s, s', other, e);
    }
  }

  /** The objects of a map, in the unspecified order in which they are iterated over. */
  method ListBatch(batch: Batch) returns (items: seq<S.Item>)
    ensures S.Unique(items) && S.Collect(items) == batch
  {
    items := [];
    var rest := batch;
    ghost var done: Batch := map[];
    while rest != map[]
      invariant S.Unique(items) && S.Collect(items) == done && Parts(batch, done, rest)
      decreases rest.Keys
    {
      assert rest.Keys != {};
      var o :| o in rest;
      PartsNext(batch, done, rest, o);
      ListNext(items, S.Item(o, rest[o]));
      items := items + [S.Item(o, rest[o])];
      done := done[o := rest[o]];
      rest := rest - {o};
    }
    assert done == batch;
  }

  ghost predicate Parts(batch: Batch, done: Batch, rest: Batch) {
    && batch.Keys == done.Keys + rest.Keys && done.Keys !! rest.Keys
    && (forall o :: o in done ==> done[o] == batch[o]) && (forall o :: o in rest ==> rest[o] == batch[o])
  }

  lemma PartsNext(batch: Batch, done: Batch, rest: Batch, o: ObjectId)
    requires Parts(batch, done, rest) && o in rest
    ensures Parts(batch, done[o := rest[o]], rest - {o}) && o !in done
  {
  }

  lemma ListNext(items: seq<S.Item>, x: S.Item)
    requires S.Unique(items) && x.id !in S.Collect(items)
    ensures S.Unique(items + [x]) && S.Collect(items + [x]) == S.Collect(items)[x.id := x.data]
  {
    assert (items + [x])[..|items|] == items;
  }

  lemma {:induction false} SubsetSize<A, B, C>(a: map<A, B>, b: map<A, C>)
    requires a.Keys <= b.Keys
    ensures |a| <= |b|
  {
    assert b.Keys == a.Keys + (b.Keys - a.Keys);
    assert |a.Keys| <= |b.Keys|;
  }

  /** Object ids found in files are machine words. */
  lemma IdsFit(lib: Library, disk: map<string, Bytes>, fams: map<Lsn, Fam>, s: State)
    requires Kept(lib, disk, fams, s) && FamsAgree(fams, s) && Inv(s)
    ensures forall o :: o in s.table ==> o < U64 && s.table[o].file in s.files
  {
    hide Inv, Kept, FamsAgree;
    forall o | o in s.table ensures o < U64 && s.table[o].file in s.files {
      EntryFacts(s, o);
      FamsKeys(fams, s);
      ImageIds(lib, disk, fams, s, s.table[o].file, o);
    }
  }

  lemma ImageIds(lib: Library, disk: map<string, Bytes>, fams: map<Lsn, Fam>, s: State, k: Lsn, o: ObjectId)
    requires Kept(lib, disk, fams, s) && k in fams && k in s.files && o in s.files[k].locs
    ensures o < U64
  {
    hide Accounted, IsImage, FileNames.Spellable, FileNames.ToFileName;
    assert KeptFile(lib, disk, fams[k], s.files[k]);
    ImageId(lib, fams[k].file, s.files[k], fams[k].dict, o);
  }

  /** How the rewrite of a generation went: all groups have been written, or the first `n` and then no
      more. */
  ghost predicate Rewrites(lib: Library, config: Config, part: Part, row: nat -> bool, n: nat, ok: bool, a: Memory,
                           b: Memory)
  {
    if ok then n == |part.groups| && WroteGroups(lib, config, part, row, n, a, b)
    else StuckAt(lib, config, part, row, n, a, b)
  }

  /** The rewrite of one generation: the batch is divided into groups and each becomes a file. A
      failure leaves the groups already written in place: the first `n` of them. */
  method Rewrite(m: Marble, batch: Batch, generation: nat, expected: map<nat, nat>,
                 io: nat -> bool, ghost ks: set<Lsn>, ghost k: Lsn)
    returns (r: WriteResult, ghost groups: seq<Batch>, ghost n: nat)
    requires 0 < generation < 256 && |m.cells.table| < U64
    requires Gathered(m.cells.s, ks, k, {}) && Carried(m.cells.s, batch, expected)
    requires m.Steady()
    modifies m, m.cells
    ensures n <= |groups| && S.Shards(groups, batch, m.config.targetFileSize, m.config.partition)
    ensures Rewrites(m.lib, m.config, Part(generation, groups), io, n, r.Done?,
      MemoryOf(old(m.cells.fams), old(m.cells.s)), MemoryOf(m.cells.fams, m.cells.s))
    ensures m.Contents() == old(m.Contents()) && Union(groups, n) <= batch.Keys
    ensures r.Done? ==> Union(groups, n) == batch.Keys
    ensures FamsExtend(old(m.cells.fams), m.cells.fams) && Moved(old(m.cells.s), m.cells.s, Union(groups, n))
    ensures m.Steady()
  {
    hide Inv, CrashInv, FamsAgree, TableAgrees, Raw, Kept, Faithful, View, Pending, Moved, Gathered, Carried;
    hide FamsExtend, Rewrites, MemoryOf, Union;
    ghost var s0 := m.cells.s;
    IdsFit(m.lib, m.disk, m.cells.fams, s0);
    BatchInTable(s0, ks, k, batch, expected, m.cells.table);
    var items := ListBatch(batch);
    var parts;
    ghost var open;
    parts, open := S.ShardBatch(generation, items, m.config.targetFileSize, m.config.partition);
    groups := parts;
    assert S.Divides(parts, batch);
    hide S.Collect, S.Unique, S.Shards;
    forall j | 0 <= j < |parts| ensures Pending(s0, parts[j], expected) && Fitting(parts[j]) {
      hide S.Divides;
      GroupInBatch(parts, j, batch);
      GatheredPending(s0, ks, k, batch, expected, parts[j]);
      GroupFits(parts[j], batch, m.cells.table);
    }
    hide S.Divides;
    r, n := WriteGroups(m, parts, batch, generation, expected, io);
    UnionWithin(parts, batch, n);
    if r.Done? { UnionAll(parts, batch); }
  }

  method WriteGroups(m: Marble, groups: seq<Batch>, ghost batch: Batch, generation: nat, expected: map<nat, nat>,
                     io: nat -> bool)
    returns (r: WriteResult, ghost n: nat)
    requires 0 < generation < 256 && S.Divides(groups, batch)
    requires forall j :: 0 <= j < |groups| ==> Pending(m.cells.s, groups[j], expected) && Fitting(groups[j])
    requires forall o :: o in m.cells.s.table ==> m.cells.s.table[o].file in m.cells.s.files
    requires m.Steady()
    modifies m, m.cells
    ensures n <= |groups| && (r.Done? ==> n == |groups|)
    ensures Rewrites(m.lib, m.config, Part(generation, groups), io, n, r.Done?,
      MemoryOf(old(m.cells.fams), old(m.cells.s)), MemoryOf(m.cells.fams, m.cells.s))
    ensures m.Contents() == old(m.Contents())
    ensures FamsExtend(old(m.cells.fams), m.cells.fams) && Moved(old(m.cells.s), m.cells.s, Union(groups, n))
    ensures m.Steady()
  {
    hide Inv, CrashInv, FamsAgree, TableAgrees, Kept, Faithful, View, Pending, Moved, FamsExtend, S.Divides;
    hide Refused, Room, Fitting, Union, Spares, MemoryOf, Filed, Unfiled, WroteGroups, StuckAt;
    ghost var s0, a := m.cells.s, MemoryOf(m.cells.fams, m.cells.s);
    ghost var part := Part(generation, groups);
    r, n := Done, 0;
    MovedNone(s0);
    FamsSame(m.cells.fams);
    UnionNone(groups);
    GroupsNone(m.lib, m.config, part, io, a);
    for i := 0 to |groups|
      invariant r.Done? && n == i && Moved(s0, m.cells.s, Union(groups, i))
      invariant FamsExtend(old(m.cells.fams), m.cells.fams) && View(m.cells.s) == View(s0)
      invariant WroteGroups(m.lib, m.config, part, io, i, a, MemoryOf(m.cells.fams, m.cells.s))
      invariant forall j :: i <= j < |groups| ==> Pending(m.cells.s, groups[j], expected)
      invariant m.Steady()
    {
      ghost var fams1 := m.cells.fams;
      ghost var s1 := m.cells.s;
      UnionApart(groups, batch, i, i);
      r := WriteGroup(m, groups[i], generation, expected, io(i), s0, Union(groups, i));
      ghost var b := MemoryOf(m.cells.fams, m.cells.s);
      SparesRest(s1, m.cells.s, groups, batch, i, expected);
      FamsTransitive(old(m.cells.fams), fams1, m.cells.fams);
      if !r.Done? {
        StuckFrom(m.lib, m.config, part, io, i, a, MemoryOf(fams1, s1), b);
        return;
      }
      GroupsMore(m.lib, m.config, part, io, i, a, MemoryOf(fams1, s1), b);
      UnionNext(groups, i);
      n := i + 1;
    }
  }

  ghost function Union(groups: seq<Batch>, i: nat): set<ObjectId>
    requires i <= |groups|
  {
    if i == 0 then {} else Union(groups, i - 1) + groups[i - 1].Keys
  }

  lemma UnionNone(groups: seq<Batch>)
    ensures Union(groups, 0) == {}
  {
  }

  lemma UnionNext(groups: seq<Batch>, i: nat)
    requires i < |groups|
    ensures Union(groups, i + 1) == Union(groups, i) + groups[i].Keys
  {
  }

  lemma {:induction false} UnionApart(groups: seq<Batch>, batch: Batch, i: nat, j: nat)
    requires S.Divides(groups, batch) && j <= i < |groups|
    ensures groups[i].Keys !! Union(groups, j)
  {
    if j > 0 {
      UnionApart(groups, batch, i, j - 1);
      GroupsApart(groups, batch, i);
    }
  }

  lemma {:induction false} UnionHas(groups: seq<Batch>, i: nat, o: ObjectId)
    requires i <= |groups|
    ensures o in Union(groups, i) <==> exists j :: 0 <= j < i && o in groups[j]
  {
    if i > 0 { UnionHas(groups, i - 1, o); }
  }

  lemma UnionWithin(groups: seq<Batch>, batch: Batch, i: nat)
    requires S.Divides(groups, batch) && i <= |groups|
    ensures Union(groups, i) <= batch.Keys
  {
    forall o | o in Union(groups, i) ensures o in batch {
      UnionHas(groups, i, o);
    }
  }

  lemma UnionAll(groups: seq<Batch>, batch: Batch)
    requires S.Divides(groups, batch)
    ensures Union(groups, |groups|) == batch.Keys
  {
    forall o ensures o in Union(groups, |groups|) <==> o in batch {
      UnionHas(groups, |groups|, o);
    }
  }

  lemma GroupsApart(groups: seq<Batch>, batch: Batch, i: nat)
    requires S.Divides(groups, batch) && i < |groups|
    ensures forall j :: 0 <= j < |groups| && j != i ==> groups[j].Keys !! groups[i].Keys
  {
  }

  lemma GroupInBatch(groups: seq<Batch>, j: nat, batch: Batch)
    requires S.Divides(groups, batch) && j < |groups|
    ensures groups[j] != map[] && forall o :: o in groups[j] ==> o in batch && batch[o] == groups[j][o]
  {
  }

  /** Small enough, and with small enough ids, for one file. */
  ghost predicate Fitting(objects: Batch) {
    objects != map[] && |objects| < U64 && forall o :: o in objects ==> o < U64
  }

  lemma GroupFits(group: Batch, batch: Batch, table: map<nat, nat>)
    requires group != map[] && group.Keys <= batch.Keys <= table.Keys && |table| < U64
    requires forall o :: o in table ==> o < U64
    ensures Fitting(group)
  {
    SubsetSize(group, table);
  }

  lemma BatchInTable(s: State, ks: set<Lsn>, k: Lsn, batch: Batch, expected: map<nat, nat>, table: map<nat, nat>)
    requires Gathered(s, ks, k, {}) && Carried(s, batch, expected) && TableAgrees(table, s.table)
    ensures batch.Keys <= table.Keys == s.table.Keys
  {
    hide Raw;
  }

  lemma FamsSame(fams: map<Lsn, Fam>)
    ensures FamsExtend(fams, fams)
  {
  }

  lemma FamsTransitive(a: map<Lsn, Fam>, b: map<Lsn, Fam>, c: map<Lsn, Fam>)
    requires FamsExtend(a, b) && FamsExtend(b, c)
    ensures FamsExtend(a, c)
  {
  }

  // ---------------------------------------------------------------- compacting

  /** Reads the files of one generation. */
  method ScanFiles(m: Marble, files: set<Lsn>, ghost claims: set<Lsn>)
    returns (ok: bool, batch: Batch, expected: map<nat, nat>, ghost k: Lsn)
    requires files <= claims && files <= m.cells.fams.Keys && m.cells.s.passes == Pass(claims, {}, map[], map[])
    requires m.Steady()
    modifies m.cells`s
    ensures Scanning(old(m.cells.s), m.cells.s, claims)
    ensures ok ==> Gathered(m.cells.s, files, k, {}) && Carried(m.cells.s, batch, expected)
    ensures !ok ==> k in files && Unreadable(m.lib, m.config, m.cells.fams, k)
    ensures ok ==> forall j :: j in files ==> !Unreadable(m.lib, m.config, m.cells.fams, j)
    ensures m.Steady()
  {
    hide Inv, CrashInv, FamsAgree, Kept, Faithful, Gathered, Carried, Unreadable;
    ghost var s0 := m.cells.s;
    var rest := files;
    k := 0;
    ok, batch, expected := true, map[], map[];
    NothingGathered(s0, claims);
    while rest != {} && ok
      invariant rest <= files && Scanning(s0, m.cells.s, claims)
      invariant ok ==> Gathered(m.cells.s, files - rest, k, {}) && Carried(m.cells.s, batch, expected)
      invariant !ok ==> k in files && Unreadable(m.lib, m.config, m.cells.fams, k)
      invariant ok ==> forall j :: j in files - rest ==> !Unreadable(m.lib, m.config, m.cells.fams, j)
      invariant m.Steady()
      decreases rest
    {
      var next :| next in rest;
      GatheredAny(m.cells.s, files - rest, k, next);
      k := next;
      ok, batch, expected := ScanFile(m, next, batch, expected, s0, claims, files - rest);
      assert files - (rest - {next}) == files - rest + {next};
      rest := rest - {next};
    }
    assert ok ==> files - rest == files;
  }

  lemma NothingGathered(s: State, claims: set<Lsn>)
    requires s.passes == Pass(claims, {}, map[], map[])
    ensures Scanning(s, s, claims) && Carried(s, map[], map[])
    ensures forall files: set<Lsn> :: Gathered(s, files - files, 0, {})
  {
  }

  lemma GatheredAny(s: State, ks: set<Lsn>, k: Lsn, j: Lsn)
    requires Gathered(s, ks, k, {})
    ensures Gathered(s, ks, j, {})
  {
    hide TakenOver;
  }

  lemma GatheredIsLive(s: State, ks: set<Lsn>, k: Lsn, batch: Batch, expected: map<nat, nat>)
    requires Gathered(s, ks, k, {}) && Carried(s, batch, expected)
    ensures batch.Keys == LiveIn(s, ks) && |batch| == |LiveIn(s, ks)|
  {
    hide TakenOver, Raw;
    assert batch.Keys == LiveIn(s, ks);
    assert |batch| == |batch.Keys|;
  }

  /** The compaction of one generation: its files are read, and what is live in them rewritten. */
  method CompactGeneration(m: Marble, generation: nat, files: set<Lsn>, io: nat -> bool, ghost claims: set<Lsn>)
    returns (ok: bool, n: nat, ghost done: set<ObjectId>, ghost part: Part, ghost halt: Halt)
    requires 0 < generation < 256 && |m.cells.table| < U64
    requires files <= claims && files <= m.cells.fams.Keys && m.cells.s.passes == Pass(claims, {}, map[], map[])
    requires m.Steady()
    modifies m, m.cells
    ensures part.generation == generation && (ok <==> halt.Complete?)
    ensures var a := MemoryOf(old(m.cells.fams), old(m.cells.s));
      Compacts(m.lib, m.config, a, files, io, part, halt, a, MemoryOf(m.cells.fams, m.cells.s))
    ensures Moved(old(m.cells.s), m.cells.s, done) && done <= LiveIn(old(m.cells.s), files)
    ensures ok ==> done == LiveIn(old(m.cells.s), files) && n == |done|
    ensures FamsExtend(old(m.cells.fams), m.cells.fams) && m.Contents() == old(m.Contents())
    ensures m.Steady()
  {
    hide Inv, CrashInv, FamsAgree, TableAgrees, Kept, Faithful, Gathered, Carried, View, Moved, FamsExtend, LiveIn;
    hide Enabled, Apply, Exclusive, Unreadable, Values, MemoryOf, Rewrites, Compacts, Union, S.Shards;
    ghost var s0, fams0 := m.cells.s, m.cells.fams;
    var batch, expected;
    ghost var k;
    ok, batch, expected, k := ScanFiles(m, files, claims);
    ghost var s1 := m.cells.s;
    SamePassView(s0, s1);
    SameMemory(fams0, s0, s1);
    n := |batch|;
    done, part, halt := {}, Part(generation, []), Unread(generation, k);
    MovedNone(s1);
    FamsSame(m.cells.fams);
    if ok {
      GatheredIsLive(s1, files, k, batch, expected);
      GatheredValues(s1, files, k, batch, expected);
      SameLive(s0, s1, files);
      var r;
      ghost var groups, at;
      r, groups, at := Rewrite(m, batch, generation, expected, io, files, k);
      ok := r.Done?;
      done, part := Union(groups, at), Part(generation, groups);
      halt := if ok then Complete else Stuck(part, at);
      RewriteCompacts(m.lib, m.config, fams0, s0, files, io, part, at, ok, MemoryOf(m.cells.fams, m.cells.s));
    } else {
      UnreadCompacts(m.lib, m.config, fams0, s0, files, io, part, k);
    }
    ghost var s2 := m.cells.s;
    MovedFrame(s1, s2, done);
    assert Enabled(s2, Forget(0)) by { ForgetEnabled(s2); }
    E.ForgetEffect(s2, 0);
    m.cells.Note(Forget(0));
    NobodyExclusive(s2);
    NobodyExclusive(m.cells.s);
    SoundStep(s2, Forget(0));
    KeptSame(m.lib, m.disk, m.cells.fams, s2, m.cells.s);
    SamePassView(s2, m.cells.s);
    SameMemory(m.cells.fams, s2, m.cells.s);
    MovedPasses(s0, s1, s2, m.cells.s, done);
  }

  lemma RewriteCompacts(lib: Library, config: Config, fams: map<Lsn, Fam>, s: State, files: set<Lsn>, row: nat -> bool,
                        part: Part, n: nat, ok: bool, b: Memory)
    requires forall k :: k in files ==> !Unreadable(lib, config, fams, k)
    requires S.Shards(part.groups, Values(s, files), config.targetFileSize, config.partition)
    requires Rewrites(lib, config, part, row, n, ok, MemoryOf(fams, s), b)
    ensures var a := MemoryOf(fams, s);
      Compacts(lib, config, a, files, row, part, if ok then Complete else Stuck(part, n), a, b)
  {
    hide S.Shards, Values, Unreadable, WroteGroups, StuckAt, MemoryOf;
    MemoryValues(fams, s, files);
    forall k | k in files ensures !Unreadable(lib, config, MemoryOf(fams, s).fams, k) {
      MemoryUnreadable(lib, config, fams, s, k);
    }
  }

  lemma UnreadCompacts(lib: Library, config: Config, fams: map<Lsn, Fam>, s: State, files: set<Lsn>, row: nat -> bool,
                       part: Part, k: Lsn)
    requires k in files && Unreadable(lib, config, fams, k)
    ensures var a := MemoryOf(fams, s); Compacts(lib, config, a, files, row, part, Unread(part.generation, k), a, a)
  {
    hide Unreadable, MemoryOf;
    MemoryUnreadable(lib, config, fams, s, k);
  }

  lemma SamePassView(s: State, s': State)
    requires s' == s.(passes := s'.passes)
    ensures View(s') == View(s)
  {
  }

  lemma SameLive(s: State, s': State, ks: set<Lsn>)
    requires s' == s.(passes := s'.passes)
    ensures LiveIn(s', ks) == LiveIn(s, ks) && Values(s', ks) == Values(s, ks)
  {
  }

  lemma GatheredValues(s: State, ks: set<Lsn>, k: Lsn, batch: Batch, expected: map<nat, nat>)
    requires Gathered(s, ks, k, {}) && Carried(s, batch, expected)
    ensures batch == Values(s, ks)
  {
    hide Raw;
    forall o ensures (o in batch <==> o in Values(s, ks)) && (o in batch ==> batch[o] == Values(s, ks)[o]) {
      if o in batch { assert TakenOver(s, s.passes[0], o); }
    }
  }

  lemma MovedFrame(s0: State, s: State, done: set<ObjectId>)
    requires Moved(s0, s, done)
    ensures s.passes == s0.passes && s.writes == map[] && s.claimed == s0.claimed && s.table.Keys == s0.table.Keys
  {
  }

  lemma ForgetEnabled(s: State)
    requires 0 in s.passes
    ensures Enabled(s, Forget(0))
  {
  }

  lemma MovedPasses(s0: State, s1: State, s2: State, s3: State, done: set<ObjectId>)
    requires s1 == s0.(passes := s1.passes) && Moved(s1, s2, done) && s3 == s2.(passes := s0.passes)
    ensures Moved(s0, s3, done)
  {
    hide FilesMoved, TableMoved;
    forall k | k in s3.files && k !in s0.files ensures HoldsOnlyLive(s3, k) {
      assert HoldsOnlyLive(s2, k);
    }
  }

  /** Files already compacted: those of the generations no longer in `rest`. */
  ghost function CompactedSoFar(config: Config, fams: map<Lsn, Fam>, rest: set<nat>): set<Lsn> {
    set k | k in Compacted(config, fams) && k in fams && NextGeneration(fams[k]) !in rest
  }

  /** Progress of a pass over the generations: exactly what was live in the compacted files has
      moved, and was counted. */
  ghost predicate Progress(s0: State, s: State, compacted: set<Lsn>, done: set<ObjectId>, n: nat) {
    Moved(s0, s, done) && done == LiveIn(s0, compacted) && n == |done|
  }

  lemma CompactNext(config: Config, fams: map<Lsn, Fam>, rest: set<nat>, g: nat)
    requires g in rest
    ensures |Members(config, fams, g)| >= config.minCompactionFiles ==>
      CompactedSoFar(config, fams, rest - {g}) == CompactedSoFar(config, fams, rest) + Members(config, fams, g)
    ensures |Members(config, fams, g)| < config.minCompactionFiles ==>
      CompactedSoFar(config, fams, rest - {g}) == CompactedSoFar(config, fams, rest)
    ensures CompactedSoFar(config, fams, rest) !! Members(config, fams, g)
  {
    hide Candidate, NextGeneration;
  }

  lemma ProgressNext(s0: State, s1: State, s2: State, a: set<Lsn>, b: set<Lsn>, d1: set<ObjectId>, d2: set<ObjectId>,
                     n1: nat, n2: nat)
    requires forall o :: o in s0.table ==> s0.table[o].file in s0.files
    requires Progress(s0, s1, a, d1, n1) && Progress(s1, s2, b, d2, n2) && a !! b && b <= s0.files.Keys
    ensures Progress(s0, s2, a + b, d1 + d2, n1 + n2)
  {
    hide Moved;
    LiveApart(s0, s1, a, b, d1);
    MovedTransitive(s0, s1, s2, d1, d2, b);
    assert LiveIn(s0, a + b) == LiveIn(s0, a) + LiveIn(s0, b);
    assert d1 !! d2;
  }

  lemma LiveApart(s0: State, s1: State, a: set<Lsn>, b: set<Lsn>, d: set<ObjectId>)
    requires Moved(s0, s1, d) && d == LiveIn(s0, a) && a !! b && b <= s0.files.Keys
    ensures LiveIn(s1, b) == LiveIn(s0, b) && LiveIn(s0, b) !! d
  {
  }

  lemma MovedTransitive(s0: State, s1: State, s2: State, d1: set<ObjectId>, d2: set<ObjectId>, b: set<Lsn>)
    requires forall o :: o in s0.table ==> s0.table[o].file in s0.files
    requires Moved(s0, s1, d1) && Moved(s1, s2, d2) && d2 <= LiveIn(s1, b) && b <= s0.files.Keys
    ensures Moved(s0, s2, d1 + d2)
  {
    hide HoldsOnlyLive;
    FilesTransitive(s0.files, s1.files, s2.files, s0.present, s1.present, s2.present);
    TableTransitive(s0, s1, s2, d1, d2);
    forall k | k in s2.files && k !in s0.files ensures HoldsOnlyLive(s2, k) {
      if k in s1.files {
        assert HoldsOnlyLive(s1, k);
        NotMovedAgain(s0, s1, s2, d2, b, k);
      }
    }
  }

  lemma FilesTransitive(f0: map<Lsn, File>, f1: map<Lsn, File>, f2: map<Lsn, File>, p0: set<Lsn>, p1: set<Lsn>,
                        p2: set<Lsn>)
    requires FilesMoved(f0, f1, p0, p1) && FilesMoved(f1, f2, p1, p2)
    ensures FilesMoved(f0, f2, p0, p2)
  {
    assert (f1.Keys - f0.Keys) + (f2.Keys - f1.Keys) == f2.Keys - f0.Keys;
  }

  lemma TableTransitive(s0: State, s1: State, s2: State, d1: set<ObjectId>, d2: set<ObjectId>)
    requires TableMoved(s0.table, s1.table, s0.files.Keys, d1) && TableMoved(s1.table, s2.table, s1.files.Keys, d2)
    requires s0.files.Keys <= s1.files.Keys
    ensures TableMoved(s0.table, s2.table, s0.files.Keys, d1 + d2)
  {
  }

  lemma NotMovedAgain(s0: State, s1: State, s2: State, d2: set<ObjectId>, b: set<Lsn>, k: Lsn)
    requires HoldsOnlyLive(s1, k) && k !in s0.files && b <= s0.files.Keys && d2 <= LiveIn(s1, b)
    requires TableMoved(s1.table, s2.table, s1.files.Keys, d2) && k in s2.files && s2.files[k] == s1.files[k]
    ensures HoldsOnlyLive(s2, k)
  {
    forall o | o in s2.files[k].locs ensures o in s2.table && s2.table[o].file == k {
      assert o in s1.table && s1.table[o].file == k && o !in d2;
    }
  }

  /** The parts of the log are the generations with enough files that are no longer in `rest`. */
  ghost predicate Logged(config: Config, groups: map<nat, set<Lsn>>, rest: set<nat>, parts: seq<Part>) {
    forall g :: Includes(parts, g) <==> g in groups && g !in rest && |groups[g]| >= config.minCompactionFiles
  }

  lemma LoggedNext(config: Config, groups: map<nat, set<Lsn>>, rest: set<nat>, parts: seq<Part>, part: Part)
    requires Logged(config, groups, rest, parts) && part.generation in rest && rest <= groups.Keys
    ensures !Includes(parts, part.generation)
    ensures if |groups[part.generation]| >= config.minCompactionFiles
      then Logged(config, groups, rest - {part.generation}, parts + [part])
      else Logged(config, groups, rest - {part.generation}, parts)
  {
    hide Includes;
    forall g ensures Includes(parts + [part], g) <==> Includes(parts, g) || g == part.generation {
      IncludesMore(parts, part, g);
    }
  }

  lemma LoggedNone(config: Config, groups: map<nat, set<Lsn>>)
    ensures Logged(config, groups, groups.Keys, [])
  {
  }

  /** A pass that has been through all generations. */
  lemma LoggedAll(lib: Library, config: Config, io: (nat, nat) -> bool, groups: map<nat, set<Lsn>>, fams: map<Lsn, Fam>,
                  s: State, parts: seq<Part>, b: Memory)
    requires Logged(config, groups, {}, parts) && Plans(lib, config, MemoryOf(fams, s), parts)
    requires Swept(lib, config, io, parts, MemoryOf(fams, s), b)
    requires forall g :: g in groups ==> groups[g] == Members(config, fams, g)
    requires forall k :: k in Candidates(config, fams) ==> NextGeneration(fams[k]) in groups
    ensures Works(lib, config, io, Log(parts, Complete), MemoryOf(fams, s), b)
  {
    hide Plans, Swept, MemoryOf, Includes, Candidate, NextGeneration;
    var a := MemoryOf(fams, s);
    forall g | Enough(config, a.fams, g) ensures Includes(parts, g) {
      MemoryMembers(config, fams, s, g);
      var k :| k in Members(config, fams, g);
      assert k in Candidates(config, fams);
    }
  }

  /** The loop over generations: those with too few files are skipped. */
  method CompactAll(m: Marble, groups: map<nat, set<Lsn>>,
                    io: (nat, nat) -> bool, ghost claims: set<Lsn>, ghost fams0: map<Lsn, Fam>)
    returns (ok: bool, n: nat, ghost done: set<ObjectId>, ghost log: Log)
    requires |m.cells.table| < U64 && claims == Candidates(m.config, fams0) && m.cells.fams == WithClaims(fams0, claims)
    requires forall g :: g in groups ==>
      groups[g] == Members(m.config, fams0, g) && 0 < g <= MAX_GENERATION && groups[g] != {}
    requires forall k :: k in claims ==> NextGeneration(fams0[k]) in groups
    requires m.cells.s.passes == Pass(claims, {}, map[], map[]) && m.Steady()
    modifies m, m.cells
    ensures ok <==> log.halt.Complete?
    ensures Works(m.lib, m.config, io, log, MemoryOf(fams0, old(m.cells.s)), MemoryOf(m.cells.fams, m.cells.s))
    ensures Moved(old(m.cells.s), m.cells.s, done)
    ensures ok ==> Progress(old(m.cells.s), m.cells.s, Compacted(m.config, fams0), done, n)
    ensures FamsExtend(old(m.cells.fams), m.cells.fams) && m.Contents() == old(m.Contents())
    ensures m.Steady()
  {
    hide Inv, CrashInv, FamsAgree, TableAgrees, Kept, Faithful, View, Moved, FamsExtend, LiveIn, Compacted, Progress;
    hide Candidate, CompactedSoFar, Members, Candidates, Values, WithClaims, MemoryOf, Works, Plans, Swept, Logged;
    ghost var s0, a := m.cells.s, MemoryOf(fams0, m.cells.s);
    IdsFit(m.lib, m.disk, m.cells.fams, s0);
    ok, n, done := true, 0, {};
    var rest := groups.Keys;
    ghost var parts: seq<Part> := [];
    log := Log([], Complete);
    NoProgress(m.config, fams0, s0, claims, rest);
    ClaimsStored(fams0, claims);
    ClaimsMemory(fams0, claims, s0);
    FamsSame(m.cells.fams);
    NothingLogged(m.lib, m.config, io, a, groups);
    while rest != {} && ok
      invariant rest <= groups.Keys && Moved(s0, m.cells.s, done)
      invariant ok ==> Progress(s0, m.cells.s, CompactedSoFar(m.config, fams0, rest), done, n)
      invariant ok ==> Logged(m.config, groups, rest, parts) && Plans(m.lib, m.config, a, parts)
      invariant ok ==> Swept(m.lib, m.config, io, parts, a, MemoryOf(m.cells.fams, m.cells.s))
      invariant !ok ==>
        !log.halt.Complete? && Works(m.lib, m.config, io, log, a, MemoryOf(m.cells.fams, m.cells.s))
      invariant FamsExtend(old(m.cells.fams), m.cells.fams) && View(m.cells.s) == View(s0) && |m.cells.table| < U64
      invariant m.Steady()
      decreases rest
    {
      var g :| g in rest;
      CompactNext(m.config, fams0, rest, g);
      if |groups[g]| >= m.config.minCompactionFiles {
        FilesOfFams(m.config, fams0, s0, old(m.cells.fams), g);
        MovedFrame(s0, m.cells.s, done);
        ghost var part, halt;
        ghost var mid := MemoryOf(m.cells.fams, m.cells.s);
        ok, n, done, part, halt := CompactOne(m, g, groups[g], io, n, s0, old(m.cells.fams), claims,
          CompactedSoFar(m.config, fams0, rest), done);
        LoggedNext(m.config, groups, rest, parts, part);
        NextPart(m.lib, m.config, io, fams0, s0, parts, part, halt, mid, MemoryOf(m.cells.fams, m.cells.s));
        if ok { parts := parts + [part]; } else { log := Log(parts, halt); }
      } else {
        LoggedNext(m.config, groups, rest, parts, Part(g, []));
      }
      rest := rest - {g};
    }
    if ok {
      SoFarAll(m.config, fams0);
      log := Log(parts, Complete);
      LoggedAll(m.lib, m.config, io, groups, fams0, s0, parts, MemoryOf(m.cells.fams, m.cells.s));
    }
  }

  lemma ClaimsMemory(fams: map<Lsn, Fam>, claims: set<Lsn>, s: State)
    ensures MemoryOf(WithClaims(fams, claims), s) == MemoryOf(fams, s)
  {
  }

  lemma NothingLogged(lib: Library, config: Config, io: (nat, nat) -> bool, a: Memory, groups: map<nat, set<Lsn>>)
    ensures Logged(config, groups, groups.Keys, []) && Plans(lib, config, a, []) && Swept(lib, config, io, [], a, a)
  {
    LoggedNone(config, groups);
    hide Logged;
  }

  /** One more generation in the log. */
  lemma NextPart(lib: Library, config: Config, io: (nat, nat) -> bool, fams: map<Lsn, Fam>, s: State, parts: seq<Part>,
                 part: Part, halt: Halt, mid: Memory, b: Memory)
    requires Plans(lib, config, MemoryOf(fams, s), parts) && Swept(lib, config, io, parts, MemoryOf(fams, s), mid)
    requires Enough(config, fams, part.generation) && !Includes(parts, part.generation)
    requires Compacts(lib, config, MemoryOf(fams, s), Members(config, fams, part.generation), Row(io, part.generation),
                      part, halt, mid, b)
    ensures var a := MemoryOf(fams, s);
      halt.Complete? ==> Plans(lib, config, a, parts + [part]) && Swept(lib, config, io, parts + [part], a, b)
    ensures !halt.Complete? ==> Works(lib, config, io, Log(parts, halt), MemoryOf(fams, s), b)
  {
    hide Plans, Swept, Compacts, MemoryOf, Includes, Members, Enough, Works;
    MemoryMembers(config, fams, s, part.generation);
    SweptMore(lib, config, io, MemoryOf(fams, s), parts, part, halt, mid, b);
  }

  /** One generation of that loop. */
  method CompactOne(m: Marble, g: nat, files: set<Lsn>,
                    io: (nat, nat) -> bool, n: nat, ghost s0: State, ghost fams0: map<Lsn, Fam>,
                    ghost claims: set<Lsn>, ghost compacted: set<Lsn>, ghost done: set<ObjectId>)
    returns (ok: bool, n': nat, ghost done': set<ObjectId>, ghost part: Part, ghost halt: Halt)
    requires 0 < g < 256 && files <= claims && files <= fams0.Keys && files <= s0.files.Keys && compacted !! files
    requires |m.cells.table| < U64 && m.cells.s.passes == Pass(claims, {}, map[], map[])
    requires FamsExtend(fams0, m.cells.fams)
    requires Moved(s0, m.cells.s, done) && Progress(s0, m.cells.s, compacted, done, n)
    requires (forall o :: o in s0.table ==> s0.table[o].file in s0.files) && View(m.cells.s) == View(s0)
    requires m.Steady()
    modifies m, m.cells
    ensures part.generation == g && (ok <==> halt.Complete?)
    ensures Compacts(m.lib, m.config, MemoryOf(fams0, s0), files, Row(io, g), part, halt,
      MemoryOf(old(m.cells.fams), old(m.cells.s)), MemoryOf(m.cells.fams, m.cells.s))
    ensures Moved(s0, m.cells.s, done') && (ok ==> Progress(s0, m.cells.s, compacted + files, done', n'))
    ensures FamsExtend(fams0, m.cells.fams) && m.Contents() == old(m.Contents())
    ensures |m.cells.table| == |old(m.cells.table)|
    ensures m.Steady()
  {
    hide Inv, CrashInv, FamsAgree, TableAgrees, Kept, Faithful, View, Moved, FamsExtend, LiveIn, Progress;
    hide Values, MemoryOf, Compacts;
    ghost var s1, fams1 := m.cells.s, m.cells.fams;
    FamsMore(fams0, fams1);
    var row := Row(io, g);
    var more;
    ghost var moved;
    ok, more, moved, part, halt := CompactGeneration(m, g, files, row, claims);
    ghost var s2 := m.cells.s;
    FamsTransitive(fams0, fams1, m.cells.fams);
    MovedFrame(s1, s2, moved);
    SameKeys(m.cells.table, s2.table, s1.table, |old(m.cells.table)|, old(m.cells.table));
    MovedTransitive(s0, s1, s2, done, moved, files);
    StillCompacts(m.lib, m.config, s0, s1, fams0, fams1, compacted, files, done, n, row, part, halt,
      MemoryOf(m.cells.fams, s2));
    if ok { ProgressStep(s0, s1, s2, compacted, files, done, moved, n, more); }
    n', done' := n + more, done + moved;
  }

  /** The compaction of a generation finds its files as they were when the pass began. */
  lemma StillCompacts(lib: Library, config: Config, s0: State, s1: State, fams0: map<Lsn, Fam>, fams1: map<Lsn, Fam>,
                      a: set<Lsn>, files: set<Lsn>, done: set<ObjectId>, n: nat, row: nat -> bool, part: Part,
                      halt: Halt, b: Memory)
    requires Progress(s0, s1, a, done, n) && a !! files && files <= s0.files.Keys && View(s1) == View(s0)
    requires FamsExtend(fams0, fams1) && files <= fams0.Keys
    requires Compacts(lib, config, MemoryOf(fams1, s1), files, row, part, halt, MemoryOf(fams1, s1), b)
    ensures Compacts(lib, config, MemoryOf(fams0, s0), files, row, part, halt, MemoryOf(fams1, s1), b)
  {
    hide View, Moved, Compacts, FamsExtend;
    LiveApart(s0, s1, a, files, done);
    assert Values(s1, files) == Values(s0, files);
    hide Values, Progress;
    MemoryValues(fams0, s0, files);
    MemoryValues(fams1, s1, files);
    MemoryExtends(fams0, fams1, s0, s1);
    assert MemoryOf(fams0, s0).fams.Keys == fams0.Keys;
    hide MemoryOf;
    CompactsFrom(lib, config, MemoryOf(fams0, s0), files, row, part, halt, MemoryOf(fams1, s1), b);
  }

  lemma SoFarAll(config: Config, fams: map<Lsn, Fam>)
    ensures CompactedSoFar(config, fams, {}) == Compacted(config, fams)
  {
    hide Candidate, NextGeneration;
  }

  lemma FamsMore(fams: map<Lsn, Fam>, fams': map<Lsn, Fam>)
    requires FamsExtend(fams, fams')
    ensures fams.Keys <= fams'.Keys
  {
  }

  lemma SameKeys(table: map<nat, nat>, t: map<ObjectId, Loc>, t0: map<ObjectId, Loc>, size: nat, table0: map<nat, nat>)
    requires TableAgrees(table, t) && TableAgrees(table0, t0) && t.Keys == t0.Keys && size == |table0|
    ensures |table| == size
  {
    assert |table.Keys| == |table0.Keys|;
  }

  lemma FilesOfFams(config: Config, fams0: map<Lsn, Fam>, s: State, fams: map<Lsn, Fam>, g: nat)
    requires FamsAgree(fams, s) && fams.Keys == fams0.Keys
    ensures Members(config, fams0, g) <= s.files.Keys && Members(config, fams0, g) <= Candidates(config, fams0)
    ensures Members(config, fams0, g) <= fams0.Keys
  {
    hide Candidate;
    assert forall k :: k in fams ==> FamAgrees(fams[k], s, k);
  }

  lemma ProgressStep(s0: State, s1: State, s2: State, a: set<Lsn>, b: set<Lsn>, d1: set<ObjectId>, d2: set<ObjectId>,
                     n1: nat, n2: nat)
    requires forall o :: o in s0.table ==> s0.table[o].file in s0.files
    requires Progress(s0, s1, a, d1, n1) && Moved(s1, s2, d2) && d2 == LiveIn(s1, b) && n2 == |d2| && a !! b
    requires b <= s0.files.Keys
    ensures Progress(s0, s2, a + b, d1 + d2, n1 + n2)
  {
    hide Moved, LiveIn;
    ProgressNext(s0, s1, s2, a, b, d1, d2, n1, n2);
  }

  lemma NoProgress(config: Config, fams: map<Lsn, Fam>, s: State, claims: set<Lsn>, rest: set<nat>)
    requires s.writes == map[] && claims == Candidates(config, fams)
    requires forall k :: k in claims ==> NextGeneration(fams[k]) in rest
    ensures Moved(s, s, {}) && Progress(s, s, CompactedSoFar(config, fams, rest), {}, 0)
  {
    MovedNone(s);
    hide Moved, Candidate, NextGeneration;
    assert CompactedSoFar(config, fams, rest) == {};
  }
}
