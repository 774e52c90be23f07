/** The stored list of plan revisions: its check and the next id (scripts/plan-revisions.rb). */
module PlanRevisions {
  import opened Text
  import opened CompletionGuard
  import opened BranchProjection
  import opened StatusWriters

  datatype RevisionFault = IdNotIncreasing(index: nat) | BadKind(index: nat) | BlankText(index: nat)
    | BadEffects(index: nat)

  lemma RisingStep(rs: seq<Revision>, i: nat)
    requires i < |rs|
    ensures Rising(rs[..i + 1]) <==> Rising(rs[..i]) && (i > 0 ==> rs[i - 1].number < rs[i].number)
  {
    var a, b := rs[..i], rs[..i + 1];
    assert forall k :: 0 <= k < i ==> a[k] == b[k];
    assert b[i] == rs[i];
    if Rising(a) && (i > 0 ==> rs[i - 1].number < rs[i].number) {
      forall k | 0 <= k < i ensures b[k].number < b[i].number {
        assert k == i - 1 || a[k].number < a[i - 1].number;
      }
    }
  }

  /** Compares each id with the one before it; reports nothing exactly on lists a new revision may
      be appended to. */
  method StoredErrors(s: Status) returns (errors: seq<RevisionFault>)
    ensures errors == [] <==> RevisionsOk(s)
  {
    hide RevisionFieldsOk, Rising;
    errors := [];
    NoRevisions();
    assert s.revisions[..0] == [];
    for i := 0 to |s.revisions|
      invariant errors == [] <==>
                Rising(s.revisions[..i]) && forall k :: 0 <= k < i ==> RevisionFieldsOk(s, s.revisions[k])
    {
      RisingStep(s.revisions, i);
      var r := s.revisions[i];
      if i > 0 && r.number <= s.revisions[i - 1].number {
        errors := errors + [IdNotIncreasing(i)];
      }
      var found := RevisionErrors(s, i);
      errors := errors + found;
    }
    assert s.revisions[..|s.revisions|] == s.revisions;
  }

  lemma NoRevisions()
    ensures Rising([])
  {
  }

  method RevisionErrors(s: Status, i: nat) returns (errors: seq<RevisionFault>)
    requires i < |s.revisions|
    ensures errors == [] <==> RevisionFieldsOk(s, s.revisions[i])
  {
    hide Blank, GatesNamed, BranchesNamed, KINDS;
    var r := s.revisions[i];
    errors := if r.kind in KINDS then [] else [BadKind(i)];
    if Blank(r.actor) || Blank(r.reason) {
      errors := errors + [BlankText(i)];
    }
    match r.effects
    case NoNewGates(why) =>
      if Blank(why) {
        errors := errors + [BlankText(i)];
      }
    case Declares(gates, branches) =>
      if !GatesNamed(s, gates) || !BranchesNamed(s, branches) || (gates == [] && branches == []) {
        errors := errors + [BadEffects(i)];
      }
  }

  /** One more than the largest id, one for an empty list. */
  method NextId(rs: seq<Revision>) returns (n: nat)
    ensures n == NextRevision(rs)
  {
    var top := 0;
    assert rs[..0] == [];
    for i := 0 to |rs|
      invariant NextRevision(rs[..i]) == top + 1
    {
      assert rs[..i + 1][..i] == rs[..i];
      if rs[i].number > top {
        top := rs[i].number;
      }
    }
    assert rs[..|rs|] == rs;
    n := top + 1;
  }
}
