/** The atomic operations on the store's shared cells: each one, carried out on packed words and
    in-memory file records, is exactly one step of the protocol, in every state the protocol can
    reach. Where the source asserts, unwraps or expects, so do these methods, and the assertion is
    proved. */
module Cells {
  import opened Basics
  import opened DiskLocations
  import opened Protocol
  import opened Invariant
  import opened FileNames
  import E = Effects

  /** A file's in-memory record: open file, generation, live count, rewrite claim, path, metadata
      and dictionary. */
  datatype Fam = Fam(file: Bytes, generation: nat, live: int, claim: bool, path: Option<string>,
                     metadata: Option<Metadata>, dict: Bytes)

  /** The metadata of file `f`, as its name spells it. */
  function MetadataOf(f: File): Metadata { Metadata(f.Key(), f.len, f.objects, f.generation, f.size) }

  ghost predicate TableAgrees(table: map<nat, nat>, t: map<ObjectId, Loc>) {
    table.Keys == t.Keys && forall o :: o in t ==> table[o] == Raw(t[o])
  }

  predicate FamAgrees(fam: Fam, s: State, k: Lsn) {
    && k in s.files && k in s.live
    && fam.generation == s.files[k].generation && fam.live == s.live[k]
    && (fam.claim <==> k in s.claimed)
    && (fam.path.Some? <==> k in s.pathed)
    && fam.metadata == if k in s.described && k in s.disk then Some(MetadataOf(s.disk[k])) else None
  }

  ghost predicate FamsAgree(fams: map<Lsn, Fam>, s: State) {
    fams.Keys == s.present && forall k :: k in fams ==> FamAgrees(fams[k], s, k)
  }

  /** The shared memory of the program is that of the protocol state. */
  ghost predicate Agrees(table: map<nat, nat>, fams: map<Lsn, Fam>, nextLsn: nat, s: State) {
    Inv(s) && TableAgrees(table, s.table) && FamsAgree(fams, s) && nextLsn == s.nextLsn
  }

  datatype Outcome = Added | Replaced(was: nat) | Lost

  class Shared {
    var table: map<nat, nat>
    var fams: map<Lsn, Fam>
    var nextLsn: nat
    ghost var s: State

    constructor (table: map<nat, nat>, fams: map<Lsn, Fam>, nextLsn: nat, ghost s: State)
      ensures this.table == table && this.fams == fams && this.nextLsn == nextLsn && this.s == s
    {
      this.table, this.fams, this.nextLsn, this.s := table, fams, nextLsn, s;
    }

    ghost predicate Valid()
      reads this
    {
      Agrees(table, fams, nextLsn, s)
    }

    // -------------------------------------------------------------- location table

    method Load(id: nat) returns (word: Option<nat>)
      ensures word == if id in table then Some(table[id]) else None
    {
      word := if id in table then Some(table[id]) else None;
    }

    /** Compare and exchange; the cell of an unknown object cannot be expected. */
    method Cas(id: nat, expected: nat, word: nat) returns (ok: bool)
      modifies this`table
      ensures ok <==> id in old(table) && old(table)[id] == expected
      ensures table == if ok then old(table)[id := word] else old(table)
    {
      ok := id in table && table[id] == expected;
      if ok { table := table[id := word]; }
    }

    /** Atomic maximum; an unknown object's cell is zero, which is below every word. The source
        asserts that the two words differ. */
    method FetchMax(id: nat, word: nat) returns (ok: bool, was: Option<nat>)
      requires id in table ==> table[id] != word
      modifies this`table
      ensures was == if id in old(table) then Some(old(table)[id]) else None
      ensures ok <==> was.None? || was.value < word
      ensures table == if ok then old(table)[id := word] else old(table)
    {
      was := if id in table then Some(table[id]) else None;
      ok := was.None? || was.value < word;
      if ok { table := table[id := word]; }
    }

    /** One object of step 3 of a write. */
    method Install(k: Lsn, id: nat, rel: Relative, expected: Option<nat>) returns (outcome: Outcome)
      requires Valid() && Enabled(s, Action.Install(k, id))
      requires k in s.files && id in s.files[k].locs && rel == s.files[k].locs[id]
      requires expected == if id in s.writes[k].scanned then Some(Raw(s.writes[k].scanned[id])) else None
      modifies this`table, this`s
      ensures Valid() && s == Apply(old(s), Action.Install(k, id))
      ensures E.Loses(old(s), k, id) <==> outcome == Lost
      ensures outcome == Added <==> id !in old(s.table)
      ensures outcome.Replaced? ==> id in old(s.table) && outcome.was == Raw(old(s.table)[id])
    {
      hide Inv, Enabled, Apply, Raw, FamAgrees;
      E.InstallEffect(s, k, id);
      E.WordsDecide(s, k, id);
      E.WordIsRaw(s, k, id);
      var word := ToAbsolute(rel, k);
      if expected.Some? {
        var ok := Cas(id, expected.value, word);
        outcome := if ok then Replaced(expected.value) else Lost;
      } else {
        var ok, was := FetchMax(id, word);
        outcome := if !ok then Lost else if was.None? then Added else Replaced(was.value);
      }
      SameFams(fams, s, Apply(s, Action.Install(k, id)));
      s := Apply(s, Action.Install(k, id));
    }

    // -------------------------------------------------------------- file map

    /** `FileMap::insert`: reserves the file's range of sequence numbers and enters it in the map,
        claimed by its writer. */
    method Insert(data: Bytes, capacity: nat, generation: nat, dict: Bytes, ghost a: Action) returns (k: Lsn)
      requires Valid() && Enabled(s, a) && (a.StartWrite? || a.StartGc?)
      requires a.file.len == |data| && a.file.generation == generation && |a.file.locs| == capacity
      modifies this`fams, this`nextLsn, this`s
      ensures Valid() && s == Apply(old(s), a) && k == a.file.Key()
      ensures fams == old(fams)[k := Fam(data, generation, capacity, true, None, None, dict)]
    {
      hide Inv, Enabled, Apply, FamAgrees, File.WellFormed;
      E.StartEffect(s, a, a.file);
      E.Safe(s, a);
      E.NextIsFree(s, a.file);
      var base := nextLsn;
      nextLsn := nextLsn + |data| + 1;
      MarkAndMask(base, 0);
      k := if generation > 0 then base else MarkNewWrite(base);
      assert k !in fams;
      assert k != 0;
      StartFams(fams, s, a, data, dict);
      fams := fams[k := Fam(data, generation, capacity, true, None, None, dict)];
      s := Apply(s, a);
    }

    /** The file map searched downwards from a location, as the source's range query does. */
    method FamForLocation(word: nat) returns (k: Option<Lsn>)
      ensures k.Some? ==> IsPredecessor(fams.Keys, word, k.value)
      ensures k.None? ==> forall j :: !IsPredecessor(fams.Keys, word, j)
    {
      if j :| j in fams && IsPredecessor(fams.Keys, word, j) {
        k := Some(j);
      } else {
        k := None;
      }
    }

    /** One replaced location of `decrement_evacuated_fams`. */
    method DecrementOne(k: Lsn, ghost id: ObjectId, word: nat)
      requires k in s.writes && id in s.writes[k].replaced && word == Raw(s.writes[k].replaced[id])
      requires Enabled(s, Decrement(k, id)) && Valid()
      modifies this`fams, this`s
      ensures Valid() && s == Apply(old(s), Decrement(k, id))
      ensures var j := old(s.writes[k].replaced[id].file);
        j in old(fams) && fams == old(fams)[j := old(fams)[j].(live := old(fams)[j].live - 1)]
    {
      hide Inv, Apply, FamAgrees, IsPredecessor, Raw;
      E.Safe(s, Decrement(k, id));
      E.DecrementEffect(s, k, id);
      assert Apply(s, Decrement(k, id)) == E.Decremented(s, k, id) by { E.DecrementIs(s, k, id); }
      hide Enabled;
      var found := FamForLocation(word);
      assert found.Some?;
      var j := found.value;
      assert j != k;
      var was := fams[j].live;
      DecrementFams(fams, s, k, id);
      fams := fams[j := fams[j].(live := was - 1)];
      assert was >= 1;
      s := Apply(s, Decrement(k, id));
    }

    /** The trailer is written and the file gets its final name. */
    method Rename(k: Lsn, file: Bytes)
      requires k in s.writes && s.writes[k].phase == Installing && Enabled(s, Action.Rename(k)) && k in fams && Valid()
      modifies this`fams, this`s
      ensures Valid() && s == Apply(old(s), Action.Rename(k))
      ensures fams == old(fams)[k := old(fams)[k].(file := file)]
    {
      hide Inv;
      E.Safe(s, Action.Rename(k));
      E.WriterPresent(s, k);
      if k in s.described { E.DescribedFinished(s, k); }
      RenameFams(fams, s, k, file);
      hide Enabled, Apply;
      fams := fams[k := fams[k].(file := file)];
      s := Apply(s, Action.Rename(k));
    }

    /** First half of `install_metadata_and_path`: the path comes first, so that whoever sees
        metadata finds a path too. */
    method InstallPath(k: Lsn, path: string)
      requires k in s.writes && Enabled(s, SetPath(k)) && Valid()
      modifies this`fams, this`s
      ensures Valid() && s == Apply(old(s), SetPath(k))
      ensures k in old(fams) && fams == old(fams)[k := old(fams)[k].(path := Some(path))]
    {
      hide Inv, Enabled, Apply, FamAgrees;
      E.Safe(s, SetPath(k));
      E.SetPathEffect(s, k);
      PathFams(fams, s, k, path);
      var was := fams[k].path;
      fams := fams[k := fams[k].(path := Some(path))];
      assert was.None?;
      s := Apply(s, SetPath(k));
    }

    /** Second half. */
    method InstallMetadata(k: Lsn, metadata: Metadata)
      requires k in s.writes && Enabled(s, SetMetadata(k)) && k in s.disk && metadata == MetadataOf(s.disk[k])
      requires Valid()
      modifies this`fams, this`s
      ensures Valid() && s == Apply(old(s), SetMetadata(k))
      ensures k in old(fams) && fams == old(fams)[k := old(fams)[k].(metadata := Some(metadata))]
    {
      hide Inv, Enabled, Apply, FamAgrees;
      E.Safe(s, SetMetadata(k));
      E.WriterPresent(s, k);
      E.SetMetadataEffect(s, k);
      MetadataFams(fams, s, k);
      var was := fams[k].metadata;
      fams := fams[k := fams[k].(metadata := Some(metadata))];
      assert was.None?;
      s := Apply(s, SetMetadata(k));
    }

    /** Last part of `finalize_fam`: objects that were not installed never count. */
    method SubtractFailed(k: Lsn, n: nat)
      requires Enabled(s, Subtract(k)) && k in s.writes && n == |s.writes[k].failed| && Valid()
      modifies this`fams, this`s
      ensures Valid() && s == Apply(old(s), Subtract(k))
      ensures k in old(fams) && fams == old(fams)[k := old(fams)[k].(live := old(fams)[k].live - n)]
    {
      hide Inv, Enabled, Apply, FamAgrees;
      E.Safe(s, Subtract(k));
      E.WriterPresent(s, k);
      E.SubtractEffect(s, k);
      SubtractFams(fams, s, k);
      var was := fams[k].live;
      fams := fams[k := fams[k].(live := was - n)];
      assert was >= n;
      s := Apply(s, Subtract(k));
    }

    /** Dropping the writer's claim. */
    method Unclaim(k: Lsn)
      requires k in s.writes && Enabled(s, Finish(k)) && Valid()
      modifies this`fams, this`s
      ensures Valid() && s == Apply(old(s), Finish(k))
      ensures k in old(fams) && fams == old(fams)[k := old(fams)[k].(claim := false)]
    {
      hide Inv, Enabled, Apply, FamAgrees;
      E.Safe(s, Finish(k));
      E.WriterPresent(s, k);
      E.FinishEffect(s, k);
      FinishFams(fams, s, k);
      var was := fams[k].claim;
      fams := fams[k := fams[k].(claim := false)];
      assert was;
      s := Apply(s, Finish(k));
    }

    /** Dropping one claim of a maintenance pass; a file that is gone is skipped. */
    method Release(t: ThreadId, k: Lsn)
      requires t in s.passes && Enabled(s, Action.Release(t, k)) && Valid()
      modifies this`fams, this`s
      ensures Valid() && s == Apply(old(s), Action.Release(t, k))
      ensures fams == if k in old(fams) then old(fams)[k := old(fams)[k].(claim := false)] else old(fams)
    {
      hide Inv, Enabled, Apply, FamAgrees;
      E.Safe(s, Action.Release(t, k));
      E.ReleaseEffect(s, t, k);
      ReleaseFams(fams, s, t, k);
      if k in fams {
        var was := fams[k].claim;
        fams := fams[k := fams[k].(claim := false)];
        assert was;
      }
      s := Apply(s, Action.Release(t, k));
    }

    /** `rewrite_claim.swap(true)` on the file a pass last looked at. */
    method TryClaim(t: ThreadId, k: Lsn) returns (got: bool)
      requires Enabled(s, Claim(t)) && s.passes[t].look.file == k && k in fams && Valid()
      modifies this`fams, this`s
      ensures Valid() && s == Apply(old(s), Claim(t))
      ensures got <==> k !in old(s.claimed)
      ensures fams == old(fams)[k := old(fams)[k].(claim := true)]
    {
      hide Inv, FamAgrees;
      E.Safe(s, Claim(t));
      ClaimFams(fams, s, t, k);
      hide Enabled, Apply;
      got := !fams[k].claim;
      fams := fams[k := fams[k].(claim := true)];
      s := Apply(s, Claim(t));
    }

    /** A pass looks at something and remembers it. */
    ghost method Note(a: Action)
      requires E.IsNote(a) && Enabled(s, a) && Valid()
      modifies this`s
      ensures Valid() && s == Apply(old(s), a) && s == old(s).(passes := s.passes)
    {
      hide Inv, Enabled, Apply, FamsAgree, TableAgrees;
      E.Safe(s, a);
      E.NoteEffect(s, a);
      SameFams(fams, s, Apply(s, a));
      s := Apply(s, a);
    }

    /** The last reference to a file that has left the map is dropped, and with it the file on disk,
        because nothing in it is live. */
    ghost method Drop(k: Lsn)
      requires k in s.live && s.live[k] == 0 && k !in s.present && Enabled(s, Delete(k)) && Valid()
      modifies this`s
      ensures Valid() && s == Apply(old(s), Delete(k)) && s == old(s).(disk := old(s.disk) - {k})
    {
      hide Inv, Enabled, Apply, FamsAgree, TableAgrees;
      E.Safe(s, Delete(k));
      E.DeleteEffect(s, k);
      SameFams(fams, s, Apply(s, Delete(k)));
      s := Apply(s, Delete(k));
    }

    /** One removal of `prune_empty_files`. */
    method RemoveFam(t: ThreadId, k: Lsn)
      requires t in s.passes && Enabled(s, Remove(t, k)) && Valid()
      modifies this`fams, this`s
      ensures Valid() && s == Apply(old(s), Remove(t, k))
      ensures k in old(fams) && fams == old(fams) - {k}
    {
      hide Inv, Enabled, Apply, FamAgrees;
      E.Safe(s, Remove(t, k));
      E.RemoveEffect(s, t, k);
      RemoveFams(fams, s, t, k);
      assert k in fams;
      fams := fams - {k};
      s := Apply(s, Remove(t, k));
    }
  }

  lemma RenameFams(fams: map<Lsn, Fam>, s: State, k: Lsn, file: Bytes)
    requires Enabled(s, Action.Rename(k)) && FamsAgree(fams, s) && k in fams && k !in s.described
    ensures var s' := Apply(s, Action.Rename(k));
      FamsAgree(fams[k := fams[k].(file := file)], s') && s'.table == s.table && s'.nextLsn == s.nextLsn
  {
    hide Trailer, File.WellFormed;
    assert FamAgrees(fams[k], s, k);
  }

  lemma PathFams(fams: map<Lsn, Fam>, s: State, k: Lsn, path: string)
    requires FamsAgree(fams, s) && k in s.writes && k in s.present && k !in s.pathed
    ensures fams[k].path.None? && FamsAgree(fams[k := fams[k].(path := Some(path))], E.Pathed(s, k))
  {
    assert FamAgrees(fams[k], s, k);
  }

  lemma MetadataFams(fams: map<Lsn, Fam>, s: State, k: Lsn)
    requires FamsAgree(fams, s) && k in s.writes && k in s.present && k !in s.described && k in s.disk
    ensures fams[k].metadata.None?
    ensures FamsAgree(fams[k := fams[k].(metadata := Some(MetadataOf(s.disk[k])))], E.Described(s, k))
  {
    assert FamAgrees(fams[k], s, k);
  }

  lemma SubtractFams(fams: map<Lsn, Fam>, s: State, k: Lsn)
    requires FamsAgree(fams, s) && k in s.writes && k in s.present && k in s.live
    ensures fams[k].live == s.live[k]
    ensures FamsAgree(fams[k := fams[k].(live := fams[k].live - |s.writes[k].failed|)], E.Subtracted(s, k))
  {
    assert FamAgrees(fams[k], s, k);
  }

  lemma FinishFams(fams: map<Lsn, Fam>, s: State, k: Lsn)
    requires FamsAgree(fams, s) && k in s.present && k in s.claimed
    ensures fams[k].claim && FamsAgree(fams[k := fams[k].(claim := false)], E.Finished(s, k))
  {
    assert FamAgrees(fams[k], s, k);
  }

  lemma ReleaseFams(fams: map<Lsn, Fam>, s: State, t: ThreadId, k: Lsn)
    requires FamsAgree(fams, s) && t in s.passes && (k in s.present ==> k in s.claimed)
    ensures k in fams ==> fams[k].claim
    ensures FamsAgree(if k in fams then fams[k := fams[k].(claim := false)] else fams, E.Released(s, t, k))
  {
    assert k in fams ==> FamAgrees(fams[k], s, k);
  }

  lemma ClaimFams(fams: map<Lsn, Fam>, s: State, t: ThreadId, k: Lsn)
    requires FamsAgree(fams, s) && Enabled(s, Claim(t)) && s.passes[t].look.file == k && k in fams
    ensures fams[k].claim <==> k in s.claimed
    ensures var s' := Apply(s, Claim(t));
      && FamsAgree(fams[k := fams[k].(claim := true)], s')
      && s'.table == s.table && s'.nextLsn == s.nextLsn
  {
    assert FamAgrees(fams[k], s, k);
  }

  lemma RemoveFams(fams: map<Lsn, Fam>, s: State, t: ThreadId, k: Lsn)
    requires FamsAgree(fams, s) && t in s.passes && k in s.present
    ensures k in fams && FamsAgree(fams - {k}, E.Removed(s, t, k))
  {
    forall j | j in fams - {k} ensures FamAgrees((fams - {k})[j], E.Removed(s, t, k), j) {
      assert FamAgrees(fams[j], s, j);
    }
  }

  lemma DecrementFams(fams: map<Lsn, Fam>, s: State, k: Lsn, o: ObjectId)
    requires FamsAgree(fams, s) && k in s.writes && o in s.writes[k].replaced
    requires var j := s.writes[k].replaced[o].file; j in s.live && j in fams
    requires !E.Decremented(s, k, o).panicked
    ensures var j := s.writes[k].replaced[o].file;
      && j != k && fams[j].live >= 1
      && FamsAgree(fams[j := fams[j].(live := fams[j].live - 1)], E.Decremented(s, k, o))
  {
    assert FamAgrees(fams[s.writes[k].replaced[o].file], s, s.writes[k].replaced[o].file);
  }

  lemma StartFams(fams: map<Lsn, Fam>, s: State, a: Action, data: Bytes, dict: Bytes)
    requires FamsAgree(fams, s) && Inv(s) && Enabled(s, a) && (a.StartWrite? || a.StartGc?)
    ensures FamsAgree(fams[a.file.Key() := Fam(data, a.file.generation, |a.file.locs|, true, None, None, dict)],
      Apply(s, a))
  {
    var f := a.file;
    E.StartEffect(s, a, f);
    E.NextIsFree(s, f);
    E.NoStage(s, f.Key());
    hide Inv, Enabled, Apply, FamsAgree;
    var scanned := if a.StartWrite? then map[] else s.passes[a.thread].scanned;
    StartedFams(fams, s, f, scanned, data, dict);
  }

  lemma StartedFams(fams: map<Lsn, Fam>, s: State, f: File, scanned: map<ObjectId, Loc>, data: Bytes, dict: Bytes)
    requires FamsAgree(fams, s) && f.Key() !in s.present && f.Key() !in s.pathed && f.Key() !in s.described
    ensures FamsAgree(fams[f.Key() := Fam(data, f.generation, |f.locs|, true, None, None, dict)],
      DoStart(s, f, scanned))
  {
    hide File.Key;
  }

  lemma SameFams(fams: map<Lsn, Fam>, s: State, s': State)
    requires FamsAgree(fams, s)
    requires s'.files == s.files && s'.present == s.present && s'.live == s.live && s'.claimed == s.claimed
    requires s'.pathed == s.pathed && s'.described == s.described
    requires forall k :: k in s.present ==>
      (k in s'.disk <==> k in s.disk) && (k in s.disk ==> k in s'.disk && s'.disk[k] == s.disk[k])
    ensures FamsAgree(fams, s')
  {
  }

  lemma SameWords(t: map<ObjectId, Loc>, table: map<nat, nat>, table': map<nat, nat>)
    requires TableAgrees(table, t) && TableAgrees(table', t)
    ensures table' == table
  {
  }
}
