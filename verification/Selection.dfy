/** Which files maintenance rewrites, and why a second pass finds nothing to do. */
module Selection {
  import opened Basics
  import opened Protocol
  import opened Cells

  datatype Config = Config(targetFileSize: nat, compactionPercent: nat, maxObjectSize: nat,
                           smallFileCleanupThreshold: nat, partition: (nat, nat) -> nat, minCompactionFiles: nat,
                           compress: bool)

  const MAX_GENERATION: nat := 3

  function LivePercent(live: int, objects: nat): int { live * 100 / if objects > 1 then objects else 1 }

  predicate IsSmall(config: Config, size: nat) { size * config.minCompactionFiles < config.targetFileSize }

  /** Whether `files_to_defrag` picks a file when the map holds `count` files: it is finished and not
      empty, and too little of it is live, or it is small and there are too many files. */
  predicate Candidate(config: Config, count: nat, fam: Fam) {
    && fam.metadata.Some? && fam.live != 0
    && (LivePercent(fam.live, fam.metadata.value.presentObjects) < config.compactionPercent
        || (config.smallFileCleanupThreshold <= count && IsSmall(config, fam.metadata.value.fileSize)))
  }

  /** The generation a file's objects move to. */
  function NextGeneration(fam: Fam): nat {
    if fam.generation + 1 < MAX_GENERATION then fam.generation + 1 else MAX_GENERATION
  }

  /** The candidates for one generation. */
  function Members(config: Config, fams: map<Lsn, Fam>, g: nat): set<Lsn> {
    set k | k in fams && Candidate(config, |fams|, fams[k]) && NextGeneration(fams[k]) == g
  }

  /** The files that are rewritten: candidates of generations that have enough of them. */
  function Compacted(config: Config, fams: map<Lsn, Fam>): set<Lsn> {
    set k | k in fams && Candidate(config, |fams|, fams[k])
            && |Members(config, fams, NextGeneration(fams[k]))| >= config.minCompactionFiles
  }

  /** What a successful pass over `fams` leaves: untouched files that were neither rewritten nor
      empty, and new files all of whose objects are live. */
  ghost predicate Tidied(config: Config, fams: map<Lsn, Fam>, fams': map<Lsn, Fam>) {
    && (forall k :: k in fams' && k in fams ==>
         fams'[k] == fams[k] && fams[k].live != 0 && k !in Compacted(config, fams))
    && (forall k :: k in fams' && k !in fams ==> FullyLive(fams'[k]))
    && (forall k :: k in fams && fams[k].live != 0 && k !in Compacted(config, fams) ==> k in fams')
    && (Compacted(config, fams) == {} ==> fams'.Keys <= fams.Keys)
  }

  predicate FullyLive(fam: Fam) {
    fam.metadata.Some? && fam.live == fam.metadata.value.presentObjects && fam.live > 0
  }

  /** When a file is picked, in numbers: it has its metadata and something live in it, and either fewer than
      the given percentage of its objects are live, or the map holds many files and this one is small. */
  lemma CandidateIs(config: Config, count: nat, fam: Fam)
    ensures Candidate(config, count, fam) <==>
      && fam.metadata.Some? && fam.live != 0
      && (|| 100 * fam.live < config.compactionPercent * (if fam.metadata.value.presentObjects == 0 then 1
                                                          else fam.metadata.value.presentObjects)
          || (config.smallFileCleanupThreshold <= count
              && fam.metadata.value.fileSize * config.minCompactionFiles < config.targetFileSize))
  {
    if fam.metadata.Some? {
      var n := fam.metadata.value.presentObjects;
      Below(fam.live * 100, if n > 1 then n else 1, config.compactionPercent);
    }
  }

  lemma Below(a: int, b: nat, p: nat)
    requires b > 0
    ensures a / b < p <==> a < p * b
  {
    var q, r := a / b, a % b;
    assert a == b * q + r && 0 <= r < b;
    if q < p {
      assert b * (q + 1) <= b * p by { Grows(b, q + 1, p); }
    } else {
      assert b * p <= b * q by { Grows(b, p, q); }
    }
  }

  lemma Grows(b: nat, x: int, y: int)
    requires x <= y
    ensures b * x <= b * y
  {
  }

  /** A generation moves to the next, and the third and any later to the third. */
  lemma NextGenerationIs(fam: Fam)
    ensures fam.generation == 0 ==> NextGeneration(fam) == 1
    ensures fam.generation == 1 ==> NextGeneration(fam) == 2
    ensures fam.generation >= 2 ==> NextGeneration(fam) == 3
  {
  }

  /** Which files are rewritten, in numbers: those picked that move to a generation for which enough files
      are picked. */
  lemma CompactedIs(config: Config, fams: map<Lsn, Fam>, k: Lsn)
    requires k in fams
    ensures k in Compacted(config, fams) <==>
      && fams[k].metadata.Some? && fams[k].live != 0
      && (|| 100 * fams[k].live < config.compactionPercent * (if fams[k].metadata.value.presentObjects == 0 then 1
                                                              else fams[k].metadata.value.presentObjects)
          || (config.smallFileCleanupThreshold <= |fams|
              && fams[k].metadata.value.fileSize * config.minCompactionFiles < config.targetFileSize))
      && config.minCompactionFiles <= |set j | j in fams && fams[j].metadata.Some? && fams[j].live != 0
           && (|| 100 * fams[j].live < config.compactionPercent * (if fams[j].metadata.value.presentObjects == 0 then 1
                                                                   else fams[j].metadata.value.presentObjects)
               || (config.smallFileCleanupThreshold <= |fams|
                   && fams[j].metadata.value.fileSize * config.minCompactionFiles < config.targetFileSize))
           && (fams[j].generation == fams[k].generation || (fams[j].generation >= 2 && fams[k].generation >= 2))|
  {
    CandidateIs(config, |fams|, fams[k]);
    var peers := set j | j in fams && fams[j].metadata.Some? && fams[j].live != 0
      && (|| 100 * fams[j].live < config.compactionPercent * (if fams[j].metadata.value.presentObjects == 0 then 1
                                                              else fams[j].metadata.value.presentObjects)
          || (config.smallFileCleanupThreshold <= |fams|
              && fams[j].metadata.value.fileSize * config.minCompactionFiles < config.targetFileSize))
      && (fams[j].generation == fams[k].generation || (fams[j].generation >= 2 && fams[k].generation >= 2));
    forall j | j in fams
      ensures Candidate(config, |fams|, fams[j]) <==>
        && fams[j].metadata.Some? && fams[j].live != 0
        && (|| 100 * fams[j].live < config.compactionPercent * (if fams[j].metadata.value.presentObjects == 0 then 1
                                                                else fams[j].metadata.value.presentObjects)
            || (config.smallFileCleanupThreshold <= |fams|
                && fams[j].metadata.value.fileSize * config.minCompactionFiles < config.targetFileSize))
      ensures NextGeneration(fams[j]) == NextGeneration(fams[k]) <==>
        fams[j].generation == fams[k].generation || (fams[j].generation >= 2 && fams[k].generation >= 2)
    {
      CandidateIs(config, |fams|, fams[j]);
    }
    hide Candidate, NextGeneration;
    assert peers == Members(config, fams, NextGeneration(fams[k]));
  }

  lemma FullyLiveIsFull(fam: Fam)
    requires FullyLive(fam)
    ensures LivePercent(fam.live, fam.metadata.value.presentObjects) == 100
  {
    var n := fam.live;
    assert n * 100 / (if n > 1 then n else 1) == 100 by { if n > 1 { Cancel(n); } }
  }

  lemma Cancel(n: int)
    requires n > 0
    ensures n * 100 / n == 100
  {
    var q, r := n * 100 / n, n * 100 % n;
    assert n * 100 == n * q + r && 0 <= r < n;
    assert n * (100 - q) == r;
    NoMultiple(n, 100 - q, r);
  }

  lemma NoMultiple(n: int, d: int, r: int)
    requires n > 0 && n * d == r && 0 <= r < n
    ensures d == 0
  {
  }

  /** Without small-file cleanup, a file picked after a pass was there before, and was picked and
      skipped then. */
  lemma PickedAgain(config: Config, fams: map<Lsn, Fam>, fams': map<Lsn, Fam>, k: Lsn)
    requires config.compactionPercent <= 99 && Tidied(config, fams, fams')
    requires |fams| < config.smallFileCleanupThreshold && |fams'| < config.smallFileCleanupThreshold
    requires k in fams' && Candidate(config, |fams'|, fams'[k])
    ensures k in fams && Candidate(config, |fams|, fams[k]) && fams'[k] == fams[k] && k !in Compacted(config, fams)
  {
    if k !in fams {
      FullyLiveIsFull(fams'[k]);
      assert false;
    }
  }

  /** Maintenance is idempotent: after a successful pass, as long as small-file cleanup was and is
      off, there is nothing left to rewrite. */
  lemma SecondPassIdle(config: Config, fams: map<Lsn, Fam>, fams': map<Lsn, Fam>)
    requires config.compactionPercent <= 99 && Tidied(config, fams, fams')
    requires |fams| < config.smallFileCleanupThreshold && |fams'| < config.smallFileCleanupThreshold
    ensures Compacted(config, fams') == {}
  {
    forall k | k in Compacted(config, fams') ensures false {
      var g := NextGeneration(fams'[k]);
      PickedAgain(config, fams, fams', k);
      forall j | j in Members(config, fams', g) ensures j in Members(config, fams, g) {
        PickedAgain(config, fams, fams', j);
      }
      Smaller(Members(config, fams', g), Members(config, fams, g));
      assert false;
    }
  }

  lemma Smaller<T>(a: set<T>, b: set<T>)
    requires forall x :: x in a ==> x in b
    ensures |a| <= |b|
  {
    assert b == a + (b - a) && a !! (b - a);
  }

  /** And a pass with nothing to rewrite over files none of which is empty leaves the map alone. */
  lemma IdlePassKeeps(config: Config, fams: map<Lsn, Fam>, fams': map<Lsn, Fam>)
    requires Tidied(config, fams, fams') && Compacted(config, fams) == {} && forall k :: k in fams ==> fams[k].live != 0
    ensures fams' == fams
  {
    assert fams'.Keys == fams.Keys;
  }
}
