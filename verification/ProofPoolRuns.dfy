/** What every run of the proof pool keeps, and the one race that breaks it. */
module ProofPoolRuns {
  import opened Wrappers
  import opened ProofTable
  import opened ProofPool
  import opened ProofPoolInvariant
  import opened ProofPoolTheorems
  import opened ProofPoolSteps

  // ---------- safety of runs ----------

  /** Every state on the way, the last included, is safe. */
  ghost predicate SafeThroughout(actions: seq<Action>) {
    forall n: nat | n <= |actions| :: SafeAt(actions, n)
  }

  ghost predicate SafeAt(actions: seq<Action>, n: nat)
    requires n <= |actions|
  {
    var t := Run(Init, actions[..n]);
    t.Some? ==> Safe(t.value)
  }

  ghost predicate NeverCollides(actions: seq<Action>) {
    forall n: nat | n < |actions| :: !CollidesAt(actions, n)
  }

  ghost predicate CollidesAt(actions: seq<Action>, n: nat)
    requires n < |actions|
  {
    var t := Run(Init, actions[..n]);
    t.Some? && Collides(t.value, actions[n])
  }

  lemma RunByOne(s: State, actions: seq<Action>, n: nat)
    requires n < |actions| && Run(s, actions[..n + 1]).Some?
    ensures Run(s, actions[..n]).Some?
    ensures Run(s, actions[..n + 1]) == Step(Run(s, actions[..n]).value, actions[n])
  {
    hide Step;
    assert actions[..n + 1][..n] == actions[..n];
  }

  /** What is possible was possible up to any point. */
  lemma {:induction false} PrefixRuns(s: State, actions: seq<Action>, n: nat)
    requires n <= |actions| && Run(s, actions).Some?
    ensures Run(s, actions[..n]).Some?
    decreases |actions| - n
  {
    hide Step, Run;
    if n == |actions| {
      assert actions[..n] == actions;
    } else {
      PrefixRuns(s, actions, n + 1);
      RunByOne(s, actions, n);
    }
  }

  lemma InitHasInv()
    ensures Inv(Init)
  {
  }

  lemma InvIsSafe(s: State)
    requires Inv(s)
    ensures Safe(s)
  {
    hide Core, Shadows, Flatten, Range, UnlockedFinished, RowsDisjoint;
    PoolFacts(s);
    forall i, k | i in s.agents && k in s.pool && k in Held(s.agents[i])
      ensures k in Owns(s.agents[i]) && s.pool[k].locked
    {
      HeldRowIsOwned(s, i, k);
    }
    forall i, j, k | i in s.agents && j in s.agents && i != j && k in s.pool
      ensures !(k in Owns(s.agents[i]) && k in Owns(s.agents[j]))
    {
      OwnersApart(s, i, j, k);
    }
  }

  lemma PoolFacts(s: State)
    requires Core(s)
    ensures RowsDisjoint(s.pool) && UnlockedFinished(s.pool)
  {
  }

  /** A row an agent holds is its own, and locked: a discarded proof has no row. */
  lemma HeldRowIsOwned(s: State, i: nat, k: Key)
    requires Inv(s) && i in s.agents && k in s.pool && k in Held(s.agents[i])
    ensures k in Owns(s.agents[i]) && s.pool[k].locked
  {
    hide PoolOk, TablesOk, HandsApart, Aligned, Eligible, Flatten, Range, Spent;
    if s.agents[i].Discarded? {
      DiscardedHasNoRow(s, i);
    }
    assert AgentOk(s.pool, s.l1, s.lastVerified, s.agents[i]);
  }

  lemma OwnersApart(s: State, i: nat, j: nat, k: Key)
    requires Core(s) && i in s.agents && j in s.agents && i != j && k in s.pool
    ensures !(k in Owns(s.agents[i]) && k in Owns(s.agents[j]))
  {
    hide TablesOk, UnlockedFinished, AgentOk, Owns, HoldsMutex;
    assert HandsApart(s.agents[i], s.agents[j]) && WellFormed(k);
    assert !Disjoint(k, k);
  }

  lemma {:induction false} RunKeepsInv(actions: seq<Action>, n: nat)
    requires n <= |actions| && Run(Init, actions).Some?
    requires forall k: nat | k < n :: !CollidesAt(actions, k)
    ensures Run(Init, actions[..n]).Some? && Inv(Run(Init, actions[..n]).value)
  {
    hide Inv, Step, Collides, Run;
    PrefixRuns(Init, actions, n);
    if n == 0 {
      InitHasInv();
      assert Run(Init, actions[..0]) == Some(Init) by {
        EmptyRun(Init, actions[..0]);
      }
    } else {
      RunKeepsInv(actions, n - 1);
      RunByOne(Init, actions, n - 1);
      assert !CollidesAt(actions, n - 1);
      StepKeepsInvariant(Run(Init, actions[..n - 1]).value, actions[n - 1]);
    }
  }

  lemma EmptyRun(s: State, actions: seq<Action>)
    requires actions == []
    ensures Run(s, actions) == Some(s)
  {
  }

  /**
    A run is safe from beginning to end exactly when none of its inserts meets a discarded proof of
    that very batch. A discarded proof of several batches does no harm: its row never comes back.
  */
  lemma SafeIffNoCollision(actions: seq<Action>)
    requires Run(Init, actions).Some?
    ensures SafeThroughout(actions) <==> NeverCollides(actions)
  {
    hide Inv, Safe, Step, Collides, Run;
    if NeverCollides(actions) {
      forall n: nat | n <= |actions|
        ensures SafeAt(actions, n)
      {
        RunKeepsInv(actions, n);
        InvIsSafe(Run(Init, actions[..n]).value);
      }
    }
    if SafeThroughout(actions) {
      forall n: nat | n < |actions|
        ensures !CollidesAt(actions, n)
      {
        SafeUpTo(actions, n);
      }
    }
  }

  lemma {:induction false} SafeUpTo(actions: seq<Action>, n: nat)
    requires n < |actions| && Run(Init, actions).Some? && SafeThroughout(actions)
    ensures forall k: nat | k <= n :: !CollidesAt(actions, k)
  {
    hide Inv, Safe, Step, Collides, Run, CollidesAt;
    if n > 0 {
      SafeUpTo(actions, n - 1);
    }
    RunKeepsInv(actions, n);
    PrefixRuns(Init, actions, n + 1);
    RunByOne(Init, actions, n);
    assert SafeAt(actions, n + 1);
    assert !CollidesAt(actions, n) by {
      FirstCollisionShows(actions, n);
    }
  }

  lemma FirstCollisionShows(actions: seq<Action>, n: nat)
    requires n < |actions| && Run(Init, actions[..n]).Some? && Inv(Run(Init, actions[..n]).value)
    requires Run(Init, actions[..n + 1]).Some? && SafeAt(actions, n + 1)
    requires Run(Init, actions[..n + 1]) == Step(Run(Init, actions[..n]).value, actions[n])
    ensures !CollidesAt(actions, n)
  {
    hide Inv, Safe, Step, Collides, Run;
    if CollidesAt(actions, n) {
      CollisionIsUnsafe(Run(Init, actions[..n]).value, actions[n]);
    }
  }

  /** In a run without collisions a row has at most one owner, and is locked while it has one. */
  lemma OneOwner(actions: seq<Action>, s: State, i: nat, j: nat, k: Key)
    requires Run(Init, actions) == Some(s) && NeverCollides(actions)
    requires i in s.agents && j in s.agents && k in s.pool && k in Held(s.agents[i])
    ensures s.pool[k].locked && (k in Held(s.agents[j]) ==> i == j)
  {
    hide Inv, Run, Step, Collides, RowsDisjoint, UnlockedFinished;
    assert actions[..|actions|] == actions;
    RunKeepsInv(actions, |actions|);
    InvIsSafe(s);
  }

  /** And what goes to settlement is a locked row. */
  lemma SettledIsOwned(actions: seq<Action>, s: State, i: nat)
    requires Run(Init, actions) == Some(s) && NeverCollides(actions) && (Act(s, i).Finalizing? || Act(s, i).Settling?)
    ensures Owned(s.pool, Act(s, i).r.key)
  {
    hide Run, Step, Collides, Shadows, Core, RecordOk, Eligible;
    assert actions[..|actions|] == actions;
    RunKeepsInv(actions, |actions|);
    ActorFacts(s, i);
  }

  // ---------- a check before the insert that suffices ----------

  /** Every insert is of a batch that L1 has not verified in the meantime. */
  ghost predicate InsertsUnverified(actions: seq<Action>) {
    forall n: nat | n < |actions| && Run(Init, actions[..n]).Some? :: InsertOfUnverified(Run(Init, actions[..n]).value, actions[n])
  }

  ghost predicate InsertOfUnverified(s: State, a: Action) {
    a.AgentMoves? && a.move.InsertBatch? && Act(s, a.i).SequenceStored? ==> Act(s, a.i).b > s.lastVerified
  }

  /** Comparing the batch with L1 once more right before the insert would make every run safe. */
  lemma {:induction false} RecheckedInsertsAreSafe(actions: seq<Action>)
    requires Run(Init, actions).Some? && InsertsUnverified(actions)
    ensures SafeThroughout(actions)
  {
    hide Inv, Safe, Step, Run, SafeThroughout;
    if exists n: nat :: n < |actions| && CollidesAt(actions, n) {
      var n: nat :| n < |actions| && CollidesAt(actions, n);
      FirstCollision(actions, n);
    }
    SafeIffNoCollision(actions);
  }

  lemma {:induction false} FirstCollision(actions: seq<Action>, n: nat)
    requires n < |actions| && Run(Init, actions).Some? && InsertsUnverified(actions)
    ensures !CollidesAt(actions, n)
  {
    hide Inv, Safe, Step, Run;
    forall k: nat | k < n
      ensures !CollidesAt(actions, k)
    {
      FirstCollision(actions, k);
    }
    RunKeepsInv(actions, n);
    var t := Run(Init, actions[..n]).value;
    assert InsertOfUnverified(t, actions[n]);
    if Collides(t, actions[n]) {
      UnverifiedInsertIsSafe(t, actions[n].i);
    }
  }
}
