/** A plan revision that is sent again is recognised, whatever it declared
    (scripts/revise-task-plan.rb and scripts/plan-revisions.rb). */
module PlanRetry {
  import opened Text
  import opened CompletionGuard
  import opened GatePlan
  import opened BranchProjection
  import opened StatusWriters
  import opened TaskRules
  import GateWriter

  // ---- revision ids ----

  lemma {:induction false} NextRevisionIsLarger(rs: seq<Revision>)
    ensures forall r :: r in rs ==> r.number < NextRevision(rs)
    ensures NextRevision(rs) >= 1
  {
    if rs != [] {
      NextRevisionIsLarger(rs[..|rs| - 1]);
      assert rs == rs[..|rs| - 1] + [rs[|rs| - 1]];
    }
  }

  /** It is the first free one: one for the first revision, and one more than the largest after that. */
  lemma {:induction false} NextRevisionIsFirstFree(rs: seq<Revision>)
    ensures rs == [] ==> NextRevision(rs) == 1
    ensures rs != [] ==> exists r :: r in rs && NextRevision(rs) == r.number + 1
  {
    if rs != [] {
      var front, last := rs[..|rs| - 1], rs[|rs| - 1];
      NextRevisionIsFirstFree(front);
      assert rs == front + [last] && last in rs;
      if front != [] {
        var r :| r in front && NextRevision(front) == r.number + 1;
        assert r in rs;
      }
    }
  }

  /** Only the very change recorded last is taken for a retry: by the same actor, for the same reason, of the
      same kind, and declaring the same gates and branches. */
  lemma OnlyTheSameIsKept(s: Status, c: PlanChange)
    requires ReviseSpec(s, c).Kept?
    ensures s.revisions != []
    ensures var last := s.revisions[|s.revisions| - 1];
            && last.kind == c.kind && last.actor == c.actor && last.reason == c.reason
            && (c.noNewGates.Some? ==> last.effects == NoNewGates(c.noNewGates.value))
            && (c.noNewGates.None? ==>
                  && last.effects.Declares?
                  && |last.effects.gates| == |c.gates| && |last.effects.branches| == |c.branches|
                  && (forall i :: 0 <= i < |c.gates| ==> last.effects.gates[i] == c.gates[i].name)
                  && (forall i :: 0 <= i < |c.branches| ==> last.effects.branches[i] == c.branches[i].name))
  {
    hide ChangeArgumentsOk, StoredReadable, RevisedStatus, HasBranch, FindBranch, UPDATABLE_PHASES;
  }

  // ---- the gates it declared ----

  lemma {:induction false} DeclaredGateIsStored(gates: Gates, c: PlanChange, n: nat, i: nat)
    requires i < n <= |c.gates|
    requires forall k, j :: 0 <= k < j < |c.gates| ==> c.gates[k].name != c.gates[j].name
    ensures c.gates[i].name in WithGates(gates, c, n)
    ensures WithGates(gates, c, n)[c.gates[i].name] == DeclaredGate(c.gates[i], c.actor, c.reason, c.now)
    decreases n
  {
    hide DeclaredGate;
    if i < n - 1 {
      DeclaredGateIsStored(gates, c, n - 1, i);
    }
  }

  lemma {:induction false} StoredGatesStay(gates: Gates, c: PlanChange, n: nat)
    requires n <= |c.gates|
    ensures forall m :: m in gates ==> m in WithGates(gates, c, n)
    ensures (forall m :: m in gates ==> gates[m].Gate?) ==>
              forall m :: m in WithGates(gates, c, n) ==> WithGates(gates, c, n)[m].Gate?
  {
    if n > 0 {
      StoredGatesStay(gates, c, n - 1);
    }
  }

  // ---- the branches it declared ----

  lemma {:induction false} FindAfterPut(items: seq<NamedBranch>, name: string, b: Branch, m: string)
    ensures FindBranch(PutBranch(items, name, b), m) == if m == name then b else FindBranch(items, m)
    ensures HasBranch(PutBranch(items, name, b), m) <==> m == name || HasBranch(items, m)
  {
    if items != [] && items[0].name != name {
      FindAfterPut(items[1..], name, b, m);
      HasHead(items, m);
      HasHead(PutBranch(items, name, b), m);
    } else if items != [] {
      HasHead(items, m);
      HasHead(PutBranch(items, name, b), m);
    } else {
      assert HasBranch([NamedBranch(name, b)], name) by { assert NamedBranch(name, b) in [NamedBranch(name, b)]; }
    }
  }

  lemma HasHead(items: seq<NamedBranch>, m: string)
    requires items != []
    ensures HasBranch(items, m) <==> items[0].name == m || HasBranch(items[1..], m)
  {
    if HasBranch(items, m) && items[0].name != m {
      var b :| b in items && b.name == m;
      assert b in items[1..];
    }
    if items[0].name == m {
      assert items[0] in items;
    }
  }

  lemma ProjectedBranches(s: Status)
    ensures Projected(s).branches == s.branches
    ensures (forall w :: w in s.waitingFor ==> !Blank(w)) ==> forall w :: w in Projected(s).waitingFor ==> !Blank(w)
    ensures s.phase != "done" && s.phase != "aborted" ==>
              Projected(s).phase != "done" && Projected(s).phase != "aborted"
  {
    hide GlobalWaits, BranchWaits, OnlyBlocked, IsBranchWait, Blank;
    if Declared(s.branches) {
      GlobalWaitsAreGlobal(s.waitingFor);
      BranchWaitsAreWaits(s.branches.items);
      forall w | w in BranchWaits(s.branches.items) ensures !Blank(w) {
        BranchWaitIsText(w);
      }
    }
  }

  lemma BranchWaitIsText(w: string)
    requires IsBranchWait(w)
    ensures !Blank(w)
  {
    assert w[..|WAIT_PREFIX|][0] == 'b';
    assert w[0] == 'b';
  }

  /** Where the branch part of a revision leaves the branches. */
  lemma {:induction false} DeclaredBranches(s: Status, c: PlanChange, n: nat, m: string)
    requires n <= |c.branches|
    requires forall k, j :: 0 <= k < j < |c.branches| ==> c.branches[k].name != c.branches[j].name
    ensures var t := WithBranches(s, c, n);
            && (forall i :: 0 <= i < n && c.branches[i].name == m ==>
                  HasBranch(Items(t.branches), m) && FindBranch(Items(t.branches), m) == WishRecord(c, c.branches[i]))
            && (HasBranch(Items(s.branches), m) ==> HasBranch(Items(t.branches), m))
  {
    hide Projected, BranchRecord, PutBranch, FindBranch, HasBranch;
    if n > 0 {
      DeclaredBranches(s, c, n - 1, m);
      var t, b := WithBranches(s, c, n - 1), c.branches[n - 1];
      FindAfterPut(Items(t.branches), b.name, WishRecord(c, b), m);
      ProjectedBranches(t.(branches := BranchList(PutBranch(Items(t.branches), b.name, WishRecord(c, b)))));
    }
  }

  lemma {:induction false} BranchesStayReadable(s: Status, c: PlanChange, n: nat)
    requires n <= |c.branches| && ChangeArgumentsOk(c) && BranchStateReadable(s)
    requires s.phase != "done" && s.phase != "aborted"
    ensures BranchStateReadable(WithBranches(s, c, n))
    ensures WithBranches(s, c, n).phase != "done" && WithBranches(s, c, n).phase != "aborted"
  {
    hide Projected, BranchRecord, PutBranch, ChangeArgumentsOk, BranchRecordOk, Blank;
    if n > 0 {
      BranchesStayReadable(s, c, n - 1);
      var t, b := WithBranches(s, c, n - 1), c.branches[n - 1];
      WishRecordIsOk(b, c);
      PutBranchOk(Items(t.branches), b.name, WishRecord(c, b));
      ProjectedBranches(t.(branches := BranchList(PutBranch(Items(t.branches), b.name, WishRecord(c, b)))));
    }
  }

  lemma {:induction false} BranchPartFrame(s: Status, c: PlanChange, n: nat)
    requires n <= |c.branches|
    ensures WithBranches(s, c, n).gates == s.gates && WithBranches(s, c, n).revisions == s.revisions
    ensures n == 0 ==> WithBranches(s, c, n) == s
  {
    hide Projected, BranchRecord, PutBranch;
    if n > 0 {
      BranchPartFrame(s, c, n - 1);
      var t, b := WithBranches(s, c, n - 1), c.branches[n - 1];
      ProjectionFrame(t.(branches := BranchList(PutBranch(Items(t.branches), b.name, WishRecord(c, b)))));
    }
  }

  // ---- the retry ----

  lemma WishNamesDiffer(c: PlanChange)
    requires ChangeArgumentsOk(c)
    ensures forall i, j :: 0 <= i < j < |c.gates| ==> c.gates[i].name != c.gates[j].name
    ensures forall i, j :: 0 <= i < j < |c.branches| ==> c.branches[i].name != c.branches[j].name
  {
    hide Blank, IsName;
    var gates, branches := GateNames(c.gates), BranchNames(c.branches);
    assert forall i :: 0 <= i < |gates| ==> gates[i] == c.gates[i].name;
    assert forall i :: 0 <= i < |branches| ==> branches[i] == c.branches[i].name;
  }

  lemma StoredAfterRevision(s: Status, c: PlanChange)
    requires ReviseSpec(s, c).Wrote?
    ensures var gates := GateWriter.Stored(RevisedStatus(s, c).gates);
            && !RevisedStatus(s, c).gates.GatesNotAMap?
            && (forall m :: m in GateWriter.Stored(s.gates) ==> m in gates)
            && (forall m :: m in gates ==> gates[m].Gate?)
            && (forall g :: g in c.gates ==>
                g.name in gates && gates[g.name] == DeclaredGate(g, c.actor, c.reason, c.now))
  {
    hide ChangeArgumentsOk, BranchStateReadable, RevisionsOk, AlreadyRecorded, DeclaredGate, WithBranches, WithGates,
         NextRevision, EffectsOf, HasBranch, UPDATABLE_PHASES;
    var gates := GateWriter.Stored(s.gates);
    WishNamesDiffer(c);
    StoredGatesStay(gates, c, |c.gates|);
    var gated := Gated(s, c);
    BranchPartFrame(gated, c, |c.branches|);
    forall i | 0 <= i < |c.gates|
      ensures c.gates[i].name in WithGates(gates, c, |c.gates|)
      ensures WithGates(gates, c, |c.gates|)[c.gates[i].name] == DeclaredGate(c.gates[i], c.actor, c.reason, c.now)
    {
      DeclaredGateIsStored(gates, c, |c.gates|, i);
    }
  }

  lemma BranchesAfterRevision(s: Status, c: PlanChange)
    requires ReviseSpec(s, c).Wrote?
    ensures var t := RevisedStatus(s, c);
            && (forall m :: HasBranch(Items(s.branches), m) ==> HasBranch(Items(t.branches), m))
            && (forall b :: b in c.branches ==>
                HasBranch(Items(t.branches), b.name) && FindBranch(Items(t.branches), b.name) == WishRecord(c, b))
            && (c.branches != [] || !t.branches.NoBranches? ==> BranchStateReadable(t))
            && t.phase != "done" && t.phase != "aborted"
  {
    hide ChangeArgumentsOk, BranchRecordOk, RevisionsOk, AlreadyRecorded, DeclaredGate, WithBranches, WithGates,
         NextRevision, EffectsOf, HasBranch, FindBranch, BranchRecord, Blank, UPDATABLE_PHASES;
    WishNamesDiffer(c);
    var gated := Gated(s, c);
    BranchPartFrame(gated, c, |c.branches|);
    forall m { DeclaredBranches(gated, c, |c.branches|, m); }
    if c.branches != [] || !s.branches.NoBranches? {
      BranchesStayReadable(gated, c, |c.branches|);
    }
  }

  lemma RevisionsAfterRevision(s: Status, c: PlanChange)
    requires ReviseSpec(s, c).Wrote?
    ensures RevisionsOk(RevisedStatus(s, c))
  {
    hide BranchRecordOk, BranchStateReadable, AlreadyRecorded, DeclaredGate, WithBranches, WithGates, NextRevision,
         HasBranch, FindBranch, BranchRecord, Blank, IsName, UPDATABLE_PHASES;
    StoredAfterRevision(s, c);
    BranchesAfterRevision(s, c);
    NextRevisionIsLarger(s.revisions);
    var gates, branches := GateNames(c.gates), BranchNames(c.branches);
    assert forall i :: 0 <= i < |gates| ==> gates[i] == c.gates[i].name && c.gates[i] in c.gates;
    assert forall i :: 0 <= i < |branches| ==> branches[i] == c.branches[i].name && c.branches[i] in c.branches;
  }

  lemma RecordedAfterRevision(s: Status, c: PlanChange, later: int)
    requires ReviseSpec(s, c).Wrote?
    ensures AlreadyRecorded(RevisedStatus(s, c), c.(now := later))
  {
    hide ChangeArgumentsOk, BranchRecordOk, BranchStateReadable, RevisionsOk, WithBranches, WithGates, NextRevision,
         HasBranch, FindBranch, UPDATABLE_PHASES;
    StoredAfterRevision(s, c);
    BranchesAfterRevision(s, c);
  }

  /** A revision that landed is recognised when it is sent again at any later time: the retry stores
      nothing and reports success. */
  lemma RetryIsRecognised(s: Status, c: PlanChange, later: int)
    requires ReviseSpec(s, c).Wrote?
    ensures ReviseSpec(ReviseSpec(s, c).status, c.(now := later)) == Kept
  {
    hide BranchRecordOk, BranchStateReadable, RevisionsOk, AlreadyRecorded, RevisedStatus, HasBranch, Blank, IsName,
         UPDATABLE_PHASES;
    StoredAfterRevision(s, c);
    BranchesAfterRevision(s, c);
    RevisionsAfterRevision(s, c);
    RecordedAfterRevision(s, c, later);
  }
}
