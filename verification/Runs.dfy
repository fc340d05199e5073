/** What holds over whole runs, however the threads interleave. */
module Runs {
  import opened DiskLocations
  import opened Protocol
  import opened Invariant
  import opened Lost
  import P = Preservation
  import C = Concurrency

  /** The invariant holds in every state of every run, and so does what scans rely on. */
  lemma {:induction false} RunInv(states: seq<State>, actions: seq<Action>, i: nat)
    requires IsRun(states, actions) && i < |states|
    ensures Inv(states[i]) && LostOk(states[i])
  {
    hide Inv, Enabled, Apply, LostOk;
    if i == 0 {
      C.InitialInv();
      InitialLost();
    } else {
      var s, a := states[i - 1], actions[i - 1];
      RunInv(states, actions, i - 1);
      LostIsKnown(s, a);
      C.StepKeepsInv(s, a);
      StepKeepsLost(s, a);
    }
  }

  /** No interleaving makes an assertion, an unwrap or an expect of the protocol fail: not the
      count checks, not the searches of the file map, not the claim check on drop, not the debug
      history's checks, not recovery's order check, not the lookup of a scanned object, even one whose
      record was lost to a writer before the store was last opened. */
  lemma NeverPanics(states: seq<State>, actions: seq<Action>, i: nat)
    requires IsRun(states, actions) && i < |states|
    ensures !states[i].panicked
  {
    hide IsRun, Inv, LostOk;
    RunInv(states, actions, i);
    P.NotPanicked(states[i]);
  }

  /** Steps `i` to `j` of the run reopen nothing. */
  ghost predicate OneOpening(actions: seq<Action>, i: nat, j: nat) {
    i <= j <= |actions| && forall m :: i <= m < j ==> !C.Reopens(actions[m])
  }

  lemma {:induction false} RunGrows(states: seq<State>, actions: seq<Action>, i: nat, j: nat)
    requires IsRun(states, actions) && OneOpening(actions, i, j)
    ensures C.Grows(states[i], states[j])
    decreases j - i
  {
    hide Inv, LostOk, Enabled, Apply;
    if i < j {
      RunGrows(states, actions, i, j - 1);
      RunInv(states, actions, j - 1);
      C.StepGrows(states[j - 1], actions[j - 1]);
    }
  }

  /** Pruning is safe: once a file with its path set has count zero, nothing points into it and
      nothing ever will, whatever the other threads do until the store is next opened. */
  lemma {:induction false} EmptyForever(states: seq<State>, actions: seq<Action>, i: nat, j: nat, k: Lsn)
    requires IsRun(states, actions) && OneOpening(actions, i, j) && C.EmptyFile(states[i], k)
    ensures C.EmptyFile(states[j], k) && C.Unreachable(states[j], k)
    decreases j - i
  {
    hide Inv, LostOk, Enabled, Apply, C.EmptyFile;
    RunInv(states, actions, j);
    if i < j {
      EmptyForever(states, actions, i, j - 1, k);
      RunInv(states, actions, j - 1);
      LostIsKnown(states[j - 1], actions[j - 1]);
      C.EmptyStays(states[j - 1], actions[j - 1], k);
    }
    C.EmptyIsUnreachable(states[j], k);
  }

  /** A location an object has left is never its location again before the store is next opened. */
  lemma NeverReturns(states: seq<State>, actions: seq<Action>, i: nat, j: nat, m: nat, o: ObjectId, l: Loc)
    requires IsRun(states, actions) && i <= j <= m && OneOpening(actions, i, m)
    requires o in states[i].table && states[i].table[o] == l
    requires !(o in states[j].table && states[j].table[o] == l)
    ensures !(o in states[m].table && states[m].table[o] == l)
  {
    hide Inv, LostOk, Enabled, Apply;
    RunInv(states, actions, i);
    RunInv(states, actions, j);
    RunInv(states, actions, m);
    RunGrows(states, actions, i, j);
    RunGrows(states, actions, j, m);
    hide IsRun;
    C.LeftMeansRemoved(states[i], states[j], states[m], o, l);
  }

  /** A file is removed from the map only when empty, and at most once, whatever stale view of the
      map the pruners work from. */
  lemma RemovedOnce(states: seq<State>, actions: seq<Action>, i: nat, j: nat, t: ThreadId, u: ThreadId, k: Lsn)
    requires IsRun(states, actions) && i <= j < |actions| && OneOpening(actions, i, j)
    requires actions[i] == Remove(t, k) && actions[j] == Remove(u, k)
    ensures i == j && C.EmptyFile(states[i], k)
  {
    RunInv(states, actions, i);
    RunInv(states, actions, j);
    hide Inv, LostOk;
    C.RemovablePresent(states[i], t, k);
    C.RemovablePresent(states[j], u, k);
    if i < j {
      assert k !in states[i + 1].present && k in states[i + 1].files;
      RunGrows(states, actions, i + 1, j);
      assert false;
    }
  }
}
