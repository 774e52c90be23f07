/** The writer that appends to the ledger (scripts/record-authorization.rb). */
module RecordAuthorization {
  import opened Text
  import opened AuthorizationLedger
  import opened LedgerIndex

  datatype Wish =
    | GrantWish(action: string, scope: string, expiresAt: Option<Stamp>)
    | RevokeWish(target: string)

  datatype Request = Request(actor: string, via: string, reason: string, wish: Wish)

  datatype Outcome = Appended | Refused(code: nat)

  predicate Finished(phase: string) { Strip(phase) == "done" || Strip(phase) == "aborted" }

  /** The command line's own checks, before the task is opened. */
  predicate ArgumentsOk(r: Request) {
    && !Blank(r.actor) && !Blank(r.via) && !Blank(r.reason)
    && match r.wish
       case GrantWish(action, scope, expiresAt) =>
         action in ACTIONS && !Blank(scope) && (expiresAt.Some? ==> expiresAt.value.Instant?)
       case RevokeWish(target) => IdNumber(Val(target)).Some?
  }

  /** The entry a request adds at time `now` under number `n`; a revoke names its target canonically. */
  function NewEntry(r: Request, n: nat, now: int): Entry
    requires ArgumentsOk(r)
  {
    var id := Val(FormatId(n));
    match r.wish
    case GrantWish(action, scope, expiresAt) =>
      Entry(id, Val("grant"), Val(r.actor), Val(r.via), Val(r.reason), Val(Instant(now)), Val(action), Val(scope),
            if expiresAt.Some? then Val(expiresAt.value) else Absent, Absent)
    case RevokeWish(target) =>
      Entry(id, Val("revoke"), Val(r.actor), Val(r.via), Val(r.reason), Val(Instant(now)), Absent, Absent,
            Absent, Val(FormatId(IdNumber(Val(target)).value)))
  }

  /** When an append lands, said without running the validator: a grant needs an open task and
      an end after now; a revoke needs a grant of the ledger that no revoke names yet. */
  ghost predicate Acceptable(es: seq<Entry>, phase: string, now: int, r: Request) {
    && ArgumentsOk(r)
    && Accepted(es)
    && match r.wish
       case GrantWish(_, _, expiresAt) => !Finished(phase) && (expiresAt.Some? ==> now < expiresAt.value.at)
       case RevokeWish(target) =>
         var t := IdNumber(Val(target)).value; GrantBefore(es, |es|, t) && !RevokedBefore(es, |es|, t)
  }

  lemma SameBeforeAppend(es: seq<Entry>, e: Entry, j: nat, k: nat)
    requires j <= |es|
    ensures GrantBefore(es + [e], j, k) <==> GrantBefore(es, j, k)
    ensures RevokedBefore(es + [e], j, k) <==> RevokedBefore(es, j, k)
  {
    hide IdNumber;
    assert (es + [e])[..|es|] == es;
    SameBefore(es + [e], |es|, j, k);
  }

  /** Appending under the next number keeps the rules exactly when the entry is well formed
      and, for a revoke, names a grant that is still unrevoked. */
  lemma AppendAccepted(es: seq<Entry>, e: Entry)
    requires Accepted(es) && Num(e) == Some(HighNumber(es) + 1)
    ensures Accepted(es + [e]) <==>
              && FieldsOk(e)
              && (IsRevoke(e) ==> GrantBefore(es, |es|, Target(e).value) && !RevokedBefore(es, |es|, Target(e).value))
  {
    hide IdNumber, GrantBefore, RevokedBefore;
    var all := es + [e];
    forall j | 0 <= j < |es| && IsRevoke(es[j]) {
      SameBeforeAppend(es, e, j, Target(es[j]).value);
    }
    assert AcceptedTo(all, |es|);
    AcceptedStep(all, |es|);
    if FieldsOk(e) && IsRevoke(e) {
      SameBeforeAppend(es, e, |es|, Target(e).value);
    }
    assert all[|es|] == e;
    assert es != [] ==> all[|es| - 1] == es[|es| - 1];
  }

  lemma NewEntryFields(r: Request, n: nat, now: int)
    requires ArgumentsOk(r)
    ensures var e := NewEntry(r, n, now);
            && Num(e) == Some(n) && e.actor == Val(r.actor) && e.via == Val(r.via) && e.reason == Val(r.reason)
            && TimeOf(e.at) == Some(now)
            && (r.wish.GrantWish? ==>
                  IsGrant(e) && e.action == Val(r.wish.action) && e.scope == Val(r.wish.scope)
                  && (FieldsOk(e) <==> r.wish.expiresAt.Some? ==> now < r.wish.expiresAt.value.at))
            && (r.wish.RevokeWish? ==>
                  IsRevoke(e) && FieldsOk(e) && Target(e) == IdNumber(Val(r.wish.target))
                  && e.revokes == Val(FormatId(Target(e).value)))
  {
    FormatRoundTrip(n);
    if r.wish.RevokeWish? {
      FormatRoundTrip(IdNumber(Val(r.wish.target)).value);
    }
  }

  /** runs/<task>/authorization.yaml. */
  class AuthorizationFile {
    var entries: seq<Entry>

    constructor ()
      ensures entries == []
    {
      entries := [];
    }

    method Record(phase: string, now: int, r: Request) returns (outcome: Outcome)
      modifies this
      ensures outcome.Appended? <==> Acceptable(old(entries), phase, now, r)
      ensures outcome.Refused? ==> entries == old(entries)
      ensures outcome.Appended? ==>
                && entries == old(entries) + [NewEntry(r, HighNumber(old(entries)) + 1, now)]
                && Accepted(entries)
    {
      if !ArgumentsOk(r) {
        return Refused(2);
      }
      if r.wish.GrantWish? && Finished(phase) {
        return Refused(2);
      }
      var problems := ValidateEntries(entries);
      if problems != [] {
        return Refused(3);
      }
      var ix := BuildIndex(entries);
      HighWaterIsLast(entries);
      var used := if HighWater(ix).Some? then HighWater(ix).value else 0;
      var entry := NewEntry(r, used + 1, now);
      NewEntryFields(r, used + 1, now);
      AppendAccepted(entries, entry);
      problems := ValidateEntries(entries + [entry]);
      if problems != [] {
        return Refused(2);
      }
      entries := entries + [entry];
      return Appended;
    }
  }
}
