/** What an append to the ledger is worth: a grant permits the action asked for, from now until its end,
    and a revoke ends exactly the grant it names (scripts/record-authorization.rb). */
module GrantWorth {
  import opened Text
  import opened AuthorizationLedger
  import opened LedgerIndex
  import opened RecordAuthorization

  /** The snapshot a pass recorded now would carry. */
  function Newest(es: seq<Entry>): Field<string> { Val(FormatId(HighNumber(es))) }

  /** The action is granted at `t`, judged by the whole ledger. */
  predicate Granted(es: seq<Entry>, action: string, t: int) {
    AnyValidGrant(IndexOf(es), action, Some(t), Newest(es))
  }

  /** Grant `k` permits the action at `t`, judged by the whole ledger. */
  predicate Permits(es: seq<Entry>, k: nat, action: string, t: int) {
    ValidGrant(IndexOf(es), Val(FormatId(k)), action, Some(t), Newest(es))
  }

  lemma GrantedBySome(es: seq<Entry>, action: string, t: int)
    ensures Granted(es, action, t) <==> exists k: nat :: Permits(es, k, action, t)
  {
    hide ValidGrant, IndexOf, IdNumber, FormatId;
    if Granted(es, action, t) {
      var k := AnElement(ValidNumbers(IndexOf(es), action, Some(t), Newest(es)));
      ValidNumber(IndexOf(es), k, action, Some(t), Newest(es));
      assert Permits(es, k, action, t);
    }
    if k :| Permits(es, k, action, t) {
      ValidNumber(IndexOf(es), k, action, Some(t), Newest(es));
    }
  }

  lemma PermitsByScan(es: seq<Entry>, k: nat, action: string, t: int)
    requires Accepted(es)
    ensures Permits(es, k, action, t) <==> ScanValid(es, k, action, t, HighNumber(es))
  {
    hide ValidGrant, IndexOf, Accepted, ScanValid, HighNumber;
    FormatRoundTrip(k);
    FormatRoundTrip(HighNumber(es));
    IndexAgreesWithScan(es, Val(FormatId(k)), action, Some(t), Newest(es));
  }

  /** The ledger after an append that landed. */
  function After(es: seq<Entry>, r: Request, now: int): seq<Entry>
    requires ArgumentsOk(r)
  {
    es + [NewEntry(r, HighNumber(es) + 1, now)]
  }

  lemma AfterIsAccepted(es: seq<Entry>, phase: string, now: int, r: Request)
    requires Acceptable(es, phase, now, r)
    ensures Accepted(After(es, r, now)) && HighNumber(After(es, r, now)) == HighNumber(es) + 1
  {
    hide Accepted, FieldsOk, GrantBefore, RevokedBefore, IdNumber, NewEntry;
    NewEntryFields(r, HighNumber(es) + 1, now);
    AppendAccepted(es, NewEntry(r, HighNumber(es) + 1, now));
  }

  /** No revoke of an accepted ledger names a number beyond its newest. */
  lemma RevokesLookBack(es: seq<Entry>, j: nat, k: nat)
    requires Accepted(es) && RevokeOf(es, j, k)
    ensures k <= HighNumber(es) && j <= HighNumber(es)
  {
    var i :| 0 <= i < |es| && IsRevoke(es[i]) && Num(es[i]) == Some(j) && Target(es[i]) == Some(k);
    NumbersBelowHigh(es, i);
    var g :| 0 <= g < i && IsGrant(es[g]) && Num(es[g]) == Some(k);
    NumbersBelowHigh(es, g);
  }

  lemma CoversAppended(es: seq<Entry>, e: Entry, k: nat, action: string, t: int)
    ensures (exists i :: 0 <= i < |es + [e]| && Covers((es + [e])[i], k, action, t)) <==>
              (exists i :: 0 <= i < |es| && Covers(es[i], k, action, t)) || Covers(e, k, action, t)
  {
    hide Covers;
    var all := es + [e];
    assert all[|es|] == e && forall i :: 0 <= i < |es| ==> all[i] == es[i];
  }

  lemma CoveredIsNumbered(es: seq<Entry>, k: nat, action: string, t: int)
    requires Accepted(es) && exists i :: 0 <= i < |es| && Covers(es[i], k, action, t)
    ensures k <= HighNumber(es)
  {
    var i :| 0 <= i < |es| && Covers(es[i], k, action, t);
    NumbersBelowHigh(es, i);
  }

  /** What one more entry does to what each grant permits. */
  lemma ScanAfter(es: seq<Entry>, e: Entry, k: nat, action: string, t: int)
    requires Accepted(es) && Accepted(es + [e]) && HighNumber(es + [e]) == HighNumber(es) + 1
    requires Num(e) == Some(HighNumber(es) + 1)
    ensures ScanValid(es + [e], k, action, t, HighNumber(es) + 1) <==>
              || (ScanValid(es, k, action, t, HighNumber(es)) && !(IsRevoke(e) && Target(e) == Some(k)))
              || (k == HighNumber(es) + 1 && Covers(e, k, action, t))
  {
    hide Accepted, Covers, HighNumber, RevokeOf, IdNumber;
    var s := HighNumber(es);
    CoversAppended(es, e, k, action, t);
    CoversNumber(e, k, action, t);
    if exists i :: 0 <= i < |es| && Covers(es[i], k, action, t) {
      CoveredIsNumbered(es, k, action, t);
    }
    forall j: nat
      ensures RevokeOf(es + [e], j, k) <==> RevokeOf(es, j, k) || (IsRevoke(e) && j == s + 1 && Target(e) == Some(k))
      ensures RevokeOf(es, j, k) ==> k <= s && j <= s
    {
      RevokeOfStep(es, e, j, k);
      if RevokeOf(es, j, k) {
        RevokesLookBack(es, j, k);
      }
    }
    assert IsRevoke(e) && Target(e) == Some(k) ==> RevokeOf(es + [e], s + 1, k);
  }

  lemma CoversNumber(e: Entry, k: nat, action: string, t: int)
    ensures Covers(e, k, action, t) ==> Num(e) == Some(k) && IsGrant(e) && !IsRevoke(e)
  {
  }

  /** A grant of A, recorded at `now` with the end it was given, permits A from then until its end and
      nothing else, and leaves every earlier grant as it was. */
  lemma GrantIsWorth(es: seq<Entry>, phase: string, now: int, r: Request, k: nat, action: string, t: int)
    requires Acceptable(es, phase, now, r) && r.wish.GrantWish?
    ensures Permits(After(es, r, now), k, action, t) <==>
              || Permits(es, k, action, t)
              || (k == HighNumber(es) + 1 && action == r.wish.action && now <= t
                  && (r.wish.expiresAt.Some? ==> t < r.wish.expiresAt.value.at))
  {
    hide Accepted, ScanValid, Permits, IdNumber, HighNumber, FormatId, Blank;
    var n := HighNumber(es) + 1;
    AfterIsAccepted(es, phase, now, r);
    PermitsByScan(es, k, action, t);
    PermitsByScan(After(es, r, now), k, action, t);
    NewEntryFields(r, n, now);
    ScanAfter(es, NewEntry(r, n, now), k, action, t);
  }

  /** A revoke ends exactly the grant it names. */
  lemma RevokeIsWorth(es: seq<Entry>, phase: string, now: int, r: Request, k: nat, action: string, t: int)
    requires Acceptable(es, phase, now, r) && r.wish.RevokeWish?
    ensures Permits(After(es, r, now), k, action, t) <==>
              Permits(es, k, action, t) && IdNumber(Val(r.wish.target)) != Some(k)
  {
    hide Accepted, ScanValid, Permits, IdNumber, HighNumber, FormatId, Blank, NewEntry, Covers;
    var n := HighNumber(es) + 1;
    AfterIsAccepted(es, phase, now, r);
    PermitsByScan(es, k, action, t);
    PermitsByScan(After(es, r, now), k, action, t);
    NewEntryFields(r, n, now);
    ScanAfter(es, NewEntry(r, n, now), k, action, t);
    CoversNumber(NewEntry(r, n, now), n, action, t);
  }

  /** So after a grant of A an action is granted exactly when it was before, or is A within its time. */
  lemma GrantGrants(es: seq<Entry>, phase: string, now: int, r: Request, action: string, t: int)
    requires Acceptable(es, phase, now, r) && r.wish.GrantWish?
    ensures Granted(After(es, r, now), action, t) <==>
              || Granted(es, action, t)
              || (action == r.wish.action && now <= t && (r.wish.expiresAt.Some? ==> t < r.wish.expiresAt.value.at))
  {
    hide Permits, Granted, HighNumber, After, Accepted, GrantBefore, RevokedBefore, Blank, IdNumber;
    GrantedBySome(es, action, t);
    GrantedBySome(After(es, r, now), action, t);
    forall k: nat { GrantIsWorth(es, phase, now, r, k, action, t); }
    GrantIsWorth(es, phase, now, r, HighNumber(es) + 1, action, t);
  }

  /** And after a revoke exactly when some other grant permits it. */
  lemma RevokeRevokes(es: seq<Entry>, phase: string, now: int, r: Request, action: string, t: int)
    requires Acceptable(es, phase, now, r) && r.wish.RevokeWish?
    ensures Granted(After(es, r, now), action, t) <==>
              exists k: nat :: Permits(es, k, action, t) && IdNumber(Val(r.wish.target)) != Some(k)
  {
    hide Permits, Granted, HighNumber, After, Accepted, GrantBefore, RevokedBefore, Blank, IdNumber;
    GrantedBySome(After(es, r, now), action, t);
    forall k: nat { RevokeIsWorth(es, phase, now, r, k, action, t); }
  }

  /** What was permitted at an earlier snapshot is permitted at it still, before and after any append:
      passes recorded by then keep their worth. */
  lemma EarlierSnapshotsKeepTheirWorth(es: seq<Entry>, phase: string, now: int, r: Request, id: Field<string>,
                                       action: string, at: Option<int>, through: Field<string>)
    requires Acceptable(es, phase, now, r)
    requires IdNumber(through).Some? ==> IdNumber(through).value <= HighNumber(es)
    ensures ValidGrant(IndexOf(After(es, r, now)), id, action, at, through) ==
            ValidGrant(IndexOf(es), id, action, at, through)
  {
    hide ValidGrant, IndexOf, Accepted, NewEntry, IdNumber;
    AfterIsAccepted(es, phase, now, r);
    SnapshotStable(es, [NewEntry(r, HighNumber(es) + 1, now)], id, action, at, through);
  }

  // ---- the recorder and the validator agree ----

  /** The request an entry answers. */
  function Asked(e: Entry): Request
    requires FieldsOk(e)
  {
    Request(e.actor.value, e.via.value, e.reason.value,
            if IsGrant(e) then
              GrantWish(e.action.value, e.scope.value, if e.expiresAt.Val? then Some(e.expiresAt.value) else None)
            else RevokeWish(e.revokes.value))
  }

  /** The entry is what the recorder writes for the request, but for zeros its ids may lead with. */
  predicate Answers(e: Entry, r: Request, now: int) {
    && ArgumentsOk(r) && Num(e).Some?
    && (r.wish.GrantWish? && r.wish.expiresAt.Some? ==> now < r.wish.expiresAt.value.at)
    && (r.wish.RevokeWish? ==> Target(e) == IdNumber(Val(r.wish.target)))
    && var written := NewEntry(r, Num(e).value, now);
    && written.Entry?
    && e == written.(id := e.id, revokes := if r.wish.RevokeWish? then e.revokes else Absent)
  }

  /** The fields of an entry are in order exactly when the recorder could have written it for some request. */
  lemma RecordableExactly(e: Entry)
    ensures FieldsOk(e) <==> exists r, now :: Answers(e, r, now)
  {
    hide IdNumber, Blank, FormatId, ACTIONS;
    if FieldsOk(e) {
      NumberedIsVal(e);
      assert Answers(e, Asked(e), TimeOf(e.at).value);
    }
    if r, now :| Answers(e, r, now) {
      AnswersOk(e, r, now);
    }
  }

  lemma NumberedIsVal(e: Entry)
    requires FieldsOk(e)
    ensures e.id.Val? && (IsRevoke(e) ==> e.revokes.Val?) && !(IsGrant(e) && IsRevoke(e))
  {
  }

  lemma AnswersOk(e: Entry, r: Request, now: int)
    requires Answers(e, r, now)
    ensures FieldsOk(e)
  {
    hide IdNumber, Blank, FormatId, ACTIONS;
  }

  // ---- what can be appended ----

  /** A revoke lands exactly while the grant it names is worth something: it permits some action at some
      time. In which phase the task is makes no difference. */
  lemma RevokeLandsExactly(es: seq<Entry>, phase: string, now: int, r: Request)
    requires Accepted(es) && ArgumentsOk(r) && r.wish.RevokeWish?
    ensures Acceptable(es, phase, now, r) <==>
              exists action, t :: Permits(es, IdNumber(Val(r.wish.target)).value, action, t)
  {
    hide Accepted, Permits, GrantBefore, RevokedBefore, IdNumber, Blank;
    var k := IdNumber(Val(r.wish.target)).value;
    if Acceptable(es, phase, now, r) {
      UnrevokedPermits(es, k);
    }
    if action, t :| Permits(es, k, action, t) {
      PermitsUnrevoked(es, k, action, t);
    }
  }

  lemma UnrevokedPermits(es: seq<Entry>, k: nat)
    requires Accepted(es) && GrantBefore(es, |es|, k) && !RevokedBefore(es, |es|, k)
    ensures exists action, t :: Permits(es, k, action, t)
  {
    hide Permits, IdNumber, NonBlank;
    var i :| 0 <= i < |es| && IsGrant(es[i]) && Num(es[i]) == Some(k);
    var action, t := es[i].action.value, TimeOf(es[i].at).value;
    NumbersBelowHigh(es, i);
    assert Covers(es[i], k, action, t);
    PermitsByScan(es, k, action, t);
  }

  lemma PermitsUnrevoked(es: seq<Entry>, k: nat, action: string, t: int)
    requires Accepted(es) && Permits(es, k, action, t)
    ensures GrantBefore(es, |es|, k) && !RevokedBefore(es, |es|, k)
  {
    hide Permits, IdNumber, Accepted;
    PermitsByScan(es, k, action, t);
    forall i | 0 <= i < |es| && IsRevoke(es[i]) ensures Target(es[i]) != Some(k) {
      NumbersBelowHigh(es, i);
      assert Target(es[i]) == Some(k) ==> RevokeOf(es, Num(es[i]).value, k);
    }
  }

  /** A grant lands exactly on an open task, with an end, if any, after now; it is then worth what was
      asked at once. */
  lemma GrantLandsExactly(es: seq<Entry>, phase: string, now: int, r: Request)
    requires Accepted(es) && ArgumentsOk(r) && r.wish.GrantWish?
    ensures Acceptable(es, phase, now, r) <==>
              Strip(phase) !in {"done", "aborted"} && (r.wish.expiresAt.Some? ==> now < r.wish.expiresAt.value.at)
    ensures Acceptable(es, phase, now, r) ==> Granted(After(es, r, now), r.wish.action, now)
  {
    hide Granted, Accepted, GrantBefore, RevokedBefore, IdNumber, Blank, Strip, After;
    if Acceptable(es, phase, now, r) {
      GrantGrants(es, phase, now, r, r.wish.action, now);
    }
  }
}
