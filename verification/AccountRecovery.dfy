/** Who may open the account for new entries: only a recovery that ended with a clean account-wide audit. */
module AccountRecovery {
  import opened Outcomes
  import opened AccountAudit

  /** The last account read of a recovery together with the nonterminal trades it is judged against. */
  datatype Evidence = Evidence(view: AccountView, trades: seq<Owned>)

  class AccountGate {
    /** Durable: bumped by every recovery that begins, in this process or another. */
    var epoch: nat
    /** Durable: new entries are admitted. */
    var allowed: bool
    /** Local to the process. */
    var blockers: seq<Blocker>
    /** What the current permission rests on. */
    ghost var proof: Option<Evidence>

    constructor ()
      ensures Valid() && !allowed && !Open()
    {
      epoch, allowed, blockers, proof := 0, false, [RecoveryFailed], None;
    }

    /** Entries are admitted only on the strength of a clean account. */
    ghost predicate Valid()
      reads this
    {
      allowed ==> proof.Some? && Clean(proof.value.view, proof.value.trades)
    }

    /** This process has recovered, and the account admits entries. */
    predicate Open()
      reads this
    {
      blockers == [] && allowed
    }

    /** Entries are revoked, durably and in this process, which only a clean recovery of its own can undo. */
    predicate Closed()
      reads this
    {
      blockers != [] && !allowed
    }

    /** `begin_recovery`: revoke first. A failure may come after the commit. */
    method Begin() returns (r: Outcome<nat>)
      requires Valid()
      modifies `epoch, `allowed
      ensures Valid()
      ensures (epoch == old(epoch) && allowed == old(allowed)) || (epoch == old(epoch) + 1 && !allowed)
      ensures r.Done? ==> r.value == epoch == old(epoch) + 1 && !allowed
    {
      var lost: bool, ok: bool, gone: bool := *, *, *;
      if !lost {
        epoch, allowed := epoch + 1, false;
        if ok { return Done(epoch); }
      }
      r := if gone then Crashed else Raised;
    }

    /** `_block_entries_unlocked`. */
    method Block() returns (r: Outcome<()>)
      requires Valid()
      modifies `epoch, `allowed, `blockers
      ensures Valid() && (allowed ==> old(allowed))
      ensures r.Done? ==> Closed()
      ensures r.IsFailure() ==> blockers == old(blockers)
    {
      var _ :- Begin();
      blockers := [RecoveryFailed];
      return Done(());
    }

    /** The process is lost; its successor knows nothing and has not recovered. */
    method Restart()
      requires Valid()
      modifies `blockers
      ensures Valid() && !Open() && blockers != []
    {
      blockers := [RecoveryFailed];
    }

    /** Other processes begin recoveries of their own, and may complete one. */
    method Rivals()
      requires Valid()
      modifies `epoch, `allowed, `proof
      ensures Valid() && old(epoch) <= epoch
      ensures epoch == old(epoch) ==> allowed == old(allowed) && proof == old(proof)
    {
      var begun: nat := *;
      if begun <= 0 { return; }
      epoch, allowed := epoch + begun, false;
      var view: AccountView, trades: seq<Owned> := *, *;
      var audit := Audit(view, trades);
      if audit == Done([]) {
        allowed := true;
        proof := Some(Evidence(view, trades));
      }
    }

    /** One blocker for every step that raised; a crash ends the pass. */
    static method Collect(steps: seq<Outcome<()>>) returns (r: Outcome<seq<Blocker>>)
      ensures r == Done([]) <==> forall s :: s in steps ==> s.Done?
      ensures !r.Raised?
    {
      var found: seq<Blocker> := [];
      for i := 0 to |steps|
        invariant found == [] <==> forall k :: 0 <= k < i ==> steps[k].Done?
        invariant forall k :: 0 <= k < i ==> !steps[k].Crashed?
      {
        assert steps[i] in steps;
        if steps[i].Crashed? { return Crashed; }
        if steps[i].Raised? { found := found + [RecoveryFailed]; }
      }
      return Done(found);
    }

    /** `complete_recovery`: refused when another recovery began in the meantime. */
    method Complete(expected: nat, ghost evidence: Evidence) returns (ok: bool)
      requires Valid() && Clean(evidence.view, evidence.trades)
      modifies `allowed, `proof
      ensures Valid()
      ensures ok <==> expected == epoch
      ensures allowed == (ok || old(allowed))
      ensures proof == if ok then Some(evidence) else old(proof)
    {
      ok := expected == epoch;
      if ok {
        allowed := true;
        proof := Some(evidence);
      }
    }

    /** The end of `initialize_recovery`: `steps` is what each step came to, `final` the last read. The account is
        opened exactly when every step succeeded, the last read is clean and no other recovery began. */
    method Conclude(expected: nat, steps: seq<Outcome<()>>, final: Outcome<Evidence>) returns (r: Outcome<seq<Blocker>>)
      requires Valid() && (expected == epoch ==> !allowed)
      modifies `allowed, `blockers, `proof
      ensures Valid()
      ensures expected == epoch ==>
        (allowed <==> (forall s :: s in steps ==> s.Done?) && final.Done? && Clean(final.value.view, final.value.trades))
      ensures expected != epoch ==> allowed == old(allowed) && proof == old(proof) && r != Done([])
      ensures r == Done([]) ==> Open() && final.Done? && proof == Some(final.value)
      ensures blockers == if r.Done? then r.value else old(blockers)
    {
      var found :- Collect(steps);
      if found == [] {
        if final.Crashed? { return Crashed; }
        var audit := Raised;
        if final.Done? { audit := Audit(final.value.view, final.value.trades); }
        found := if audit.Done? then audit.value else [RecoveryFailed];
      }
      if found == [] {
        var ok := Complete(expected, final.value);
        var acknowledged: bool := *;
        if !ok || !acknowledged { return Raised; }
      }
      blockers := found;
      return Done(found);
    }
  }
}
