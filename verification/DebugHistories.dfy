/** The debug history kept under runtime validation: per object, the words ever put into the table and
    the words ever replaced. Its assertions hold at every installation of every run. */
module DebugHistories {
  import opened Basics
  import opened DiskLocations
  import opened Protocol
  import opened Invariant
  import P = Preservation
  import C = Concurrency
  import E = Effects

  class DebugHistory {
    var adds: map<nat, set<nat>>
    var removes: map<nat, set<nat>>

    /** A location is added once, and not after it was removed: the source asserts both. */
    method MarkAdd(id: nat, word: nat)
      requires word !in Marks(removes, id) && word !in Marks(adds, id)
      modifies this`adds
      ensures adds == old(adds)[id := Marks(old(adds), id) + {word}]
    {
      adds := adds[id := (if id in adds then adds[id] else {}) + {word}];
    }

    /** A location is removed once, and only after it was added. */
    method MarkRemove(id: nat, word: nat)
      requires word in Marks(adds, id) && word !in Marks(removes, id)
      modifies this`removes
      ensures removes == old(removes)[id := Marks(old(removes), id) + {word}]
    {
      removes := removes[id := (if id in removes then removes[id] else {}) + {word}];
    }

    /** The marks `write_batch_inner` makes when an installation succeeds. */
    method MarkInstall(id: nat, word: nat, replaced: Option<nat>, ghost s: State, ghost k: Lsn)
      requires Enabled(s, Install(k, id)) && k in s.files && id in s.files[k].locs && !E.Loses(s, k, id)
      requires word == Raw(Loc(k, s.files[k].locs[id]))
      requires replaced == if id in s.table then Some(Raw(s.table[id])) else None
      requires Follows(adds, s.adds) && Follows(removes, s.removes) && Inv(s)
      modifies this
      ensures Follows(adds, Apply(s, Install(k, id)).adds) && Follows(removes, Apply(s, Install(k, id)).removes)
    {
      hide Inv, Enabled, Apply, Raw, Follows;
      ghost var l := Loc(k, s.files[k].locs[id]);
      InstallHistory(s, k, id);
      NewWord(s, k, id);
      WordNotMarked(adds, s.adds, id, word);
      WordNotMarked(removes, s.removes, id, word);
      MarkAdd(id, word);
      Marked(old(adds), s.adds, id, l);
      if replaced.Some? {
        TableWord(s, id);
        WordMarked(adds, s.adds + {(id, l)}, id, s.table[id]);
        WordNotMarked(removes, s.removes, id, replaced.value);
        MarkRemove(id, replaced.value);
        Marked(old(removes), s.removes, id, s.table[id]);
      }
    }
  }

  function Marks(marks: map<nat, set<nat>>, id: nat): set<nat> { if id in marks then marks[id] else {} }

  /** The words marked for each object are those of its locations in the history. */
  ghost predicate Follows(marks: map<nat, set<nat>>, history: set<(ObjectId, Loc)>) {
    forall id: nat, word: nat :: word in Marks(marks, id) <==> exists l :: (id, l) in history && Raw(l) == word
  }

  lemma WordNotMarked(marks: map<nat, set<nat>>, history: set<(ObjectId, Loc)>, id: nat, word: nat)
    requires Follows(marks, history) && forall l :: (id, l) in history ==> Raw(l) != word
    ensures word !in Marks(marks, id)
  {
    hide Raw;
  }

  lemma WordMarked(marks: map<nat, set<nat>>, history: set<(ObjectId, Loc)>, id: nat, l: Loc)
    requires Follows(marks, history) && (id, l) in history
    ensures Raw(l) in Marks(marks, id)
  {
    hide Raw;
  }

  lemma Marked(marks: map<nat, set<nat>>, history: set<(ObjectId, Loc)>, id: nat, l: Loc)
    requires Follows(marks, history)
    ensures Follows(marks[id := Marks(marks, id) + {Raw(l)}], history + {(id, l)})
  {
    hide Raw;
    var marks', history' := marks[id := Marks(marks, id) + {Raw(l)}], history + {(id, l)};
    forall i: nat, word: nat ensures word in Marks(marks', i) <==> exists x :: (i, x) in history' && Raw(x) == word {
      if word in Marks(marks', i) {
        if i == id && word == Raw(l) {
          assert (i, l) in history';
        } else {
          assert word in Marks(marks, i);
          var x :| (i, x) in history && Raw(x) == word;
          assert (i, x) in history';
        }
      }
      if x :| (i, x) in history' && Raw(x) == word {
        if (i, x) in history { assert word in Marks(marks, i); }
      }
    }
  }

  lemma InstallHistory(s: State, k: Lsn, o: ObjectId)
    requires Inv(s) && Enabled(s, Install(k, o)) && k in s.files && o in s.files[k].locs && !E.Loses(s, k, o)
    ensures Apply(s, Install(k, o)).adds == s.adds + {(o, Loc(k, s.files[k].locs[o]))}
    ensures Apply(s, Install(k, o)).removes == if o in s.table then s.removes + {(o, s.table[o])} else s.removes
  {
    hide Inv, DoInstall, Raw;
    P.InstallOutcome(s, k, o);
    E.ScannedIfGc(s, k, o);
  }

  /** All locations in the history are real entries, so one object's words tell them apart. */
  lemma NewWord(s: State, k: Lsn, o: ObjectId)
    requires Inv(s) && Enabled(s, Install(k, o)) && k in s.files && o in s.files[k].locs
    ensures forall l :: (o, l) in s.adds || (o, l) in s.removes ==> Raw(l) != Raw(Loc(k, s.files[k].locs[o]))
  {
    C.FilesAreOk(s);
    C.DebugIsOk(s);
    assert Unsettled(s.writes, k, o);
    hide Inv, Enabled, Raw, FilesOk;
    forall l | (o, l) in s.adds || (o, l) in s.removes ensures Raw(l) != Raw(Loc(k, s.files[k].locs[o])) {
      assert (o, l) in s.adds;
      RawIdentifies(s, l, Loc(k, s.files[k].locs[o]), o);
    }
  }

  lemma TableWord(s: State, o: ObjectId)
    requires Inv(s) && o in s.table
    ensures (o, s.table[o]) in s.adds && forall l :: (o, l) in s.removes ==> Raw(l) != Raw(s.table[o])
  {
    C.FilesAreOk(s);
    C.DebugIsOk(s);
    hide Inv, Raw, FilesOk;
    forall l | (o, l) in s.removes ensures Raw(l) != Raw(s.table[o]) {
      assert (o, l) in s.adds && (o, s.table[o]) in s.adds && (o, s.table[o]) !in s.removes;
      RawIdentifies(s, l, s.table[o], o);
    }
  }
}
