/** The append-only ledger of grants and revokes (scripts/authorization-ledger.rb). */
module AuthorizationLedger {
  import opened Text

  const ACTIONS: set<string> := {
    "deploy_staging", "deploy_production", "production_data_mutation",
    "production_backfill", "live_load", "external_side_effect"
  }

  datatype Entry =
    | NotAMap
    | Entry(
        id: Field<string>, kind: Field<string>, actor: Field<string>, via: Field<string>,
        reason: Field<string>, at: Field<Stamp>, action: Field<string>, scope: Field<string>,
        expiresAt: Field<Stamp>, revokes: Field<string>)

  // ---- ids: "authz-" and at least three digits, compared by number ----

  const PREFIX := "authz-"

  function IdNumber(id: Field<string>): Option<nat> {
    if id.Val? && |id.value| >= |PREFIX| + 3 && id.value[..|PREFIX|] == PREFIX && AllDigits(id.value[|PREFIX|..])
    then Some(NumberOf(id.value[|PREFIX|..])) else None
  }

  function Pad3(s: string): (r: string)
    requires AllDigits(s)
    ensures AllDigits(r) && |r| >= 3
    decreases 3 - |s|
  {
    if |s| >= 3 then s else Pad3("0" + s)
  }

  function FormatId(n: nat): string {
    PREFIX + Pad3(Decimal(n))
  }

  lemma {:induction false} PadKeepsNumber(s: string)
    requires AllDigits(s)
    ensures NumberOf(Pad3(s)) == NumberOf(s)
    decreases 3 - |s|
  {
    if |s| < 3 {
      LeadingZero(s);
      PadKeepsNumber("0" + s);
    }
  }

  /** The canonical id of a number reads back as that number. */
  lemma FormatRoundTrip(n: nat)
    ensures IdNumber(Val(FormatId(n))) == Some(n)
  {
    NumberOfDecimal(n);
    PadKeepsNumber(Decimal(n));
    assert FormatId(n)[|PREFIX|..] == Pad3(Decimal(n));
    assert FormatId(n)[..|PREFIX|] == PREFIX;
  }

  lemma {:induction false} DigitsBound(s: string)
    requires AllDigits(s)
    ensures |Decimal(NumberOf(s))| <= |s| || (s == [] && NumberOf(s) == 0)
  {
    if |s| > 1 {
      DigitsBound(s[..|s| - 1]);
    } else if |s| == 1 {
      assert s[..0] == [];
    }
  }

  lemma {:induction false} PadLength(s: string)
    requires AllDigits(s)
    ensures |Pad3(s)| == if |s| < 3 then 3 else |s|
    decreases 3 - |s|
  {
    if |s| < 3 {
      PadLength("0" + s);
    }
  }

  /** And it is the shortest id of its number. */
  lemma FormatIsShortest(id: string, n: nat)
    requires IdNumber(Val(id)) == Some(n)
    ensures |FormatId(n)| <= |id|
  {
    DigitsBound(id[|PREFIX|..]);
    PadLength(Decimal(n));
  }

  // ---- integrity rules ----

  predicate IsGrant(e: Entry) { e.Entry? && e.kind == Val("grant") }

  predicate IsRevoke(e: Entry) { e.Entry? && e.kind == Val("revoke") }

  function Num(e: Entry): Option<nat> {
    if e.Entry? then IdNumber(e.id) else None
  }

  function Target(e: Entry): Option<nat> {
    if e.Entry? then IdNumber(e.revokes) else None
  }

  predicate TextOk(e: Entry) {
    e.Entry? && NonBlank(e.actor) && NonBlank(e.via) && NonBlank(e.reason) && TimeOf(e.at).Some?
  }

  predicate GrantFieldsOk(e: Entry) {
    && e.Entry?
    && e.action.Val? && e.action.value in ACTIONS
    && NonBlank(e.scope)
    && e.revokes.Absent?
    && (e.expiresAt.Absent?
        || (TimeOf(e.expiresAt).Some?
            && (TimeOf(e.at).Some? ==> TimeOf(e.at).value < TimeOf(e.expiresAt).value)))
  }

  predicate RevokeFieldsOk(e: Entry) {
    e.Entry? && e.action.Absent? && e.scope.Absent? && e.expiresAt.Absent?
  }

  /** The rules one entry can break by itself. */
  predicate FieldsOk(e: Entry) {
    && Num(e).Some?
    && TextOk(e)
    && (IsGrant(e) || IsRevoke(e))
    && (IsGrant(e) ==> GrantFieldsOk(e))
    && (IsRevoke(e) ==> RevokeFieldsOk(e) && Target(e).Some?)
  }

  /** Among the first `n` entries some grant has number `k`. */
  ghost predicate GrantBefore(es: seq<Entry>, n: nat, k: nat)
    requires n <= |es|
  {
    exists i :: 0 <= i < n && IsGrant(es[i]) && Num(es[i]) == Some(k)
  }

  /** Among the first `n` entries some revoke names grant `k`. */
  ghost predicate RevokedBefore(es: seq<Entry>, n: nat, k: nat)
    requires n <= |es|
  {
    exists i :: 0 <= i < n && IsRevoke(es[i]) && Target(es[i]) == Some(k)
  }

  /** The integrity rules on the first `n` entries, said without an order of checking. */
  ghost predicate AcceptedTo(es: seq<Entry>, n: nat)
    requires n <= |es|
  {
    && (forall i :: 0 <= i < n ==> FieldsOk(es[i]) && Num(es[i]).value >= 1)
    && (forall i, j :: 0 <= i < j < n ==> Num(es[i]).value < Num(es[j]).value)
    && (forall j :: 0 <= j < n && IsRevoke(es[j]) ==>
          GrantBefore(es, j, Target(es[j]).value) && !RevokedBefore(es, j, Target(es[j]).value))
  }

  ghost predicate Accepted(es: seq<Entry>) {
    AcceptedTo(es, |es|)
  }

  datatype Rule =
    | MustBeAMap | BadId | DuplicateId | IdNotIncreasing | BlankText | BadAt | BadType
    | BadAction | BadScope | RevokesOnGrant | BadExpiry | ExpiryNotAfterAt
    | GrantKeyOnRevoke | BadTarget | TargetNotEarlier | TargetNotAGrant | AlreadyRevoked

  datatype Fault = Fault(index: nat, rule: Rule)

  // The faults of one entry's own fields, in the order they are reported.

  predicate AllAt(faults: seq<Fault>, i: nat) {
    forall f :: f in faults ==> f.index == i
  }

  function TextFaults(i: nat, e: Entry): (r: seq<Fault>)
    requires e.Entry?
    ensures AllAt(r, i) && (r == [] <==> TextOk(e))
  {
    (if NonBlank(e.actor) then [] else [Fault(i, BlankText)]) +
    (if NonBlank(e.via) then [] else [Fault(i, BlankText)]) +
    (if NonBlank(e.reason) then [] else [Fault(i, BlankText)]) +
    (if TimeOf(e.at).Some? then [] else [Fault(i, BadAt)])
  }

  function GrantFaults(i: nat, e: Entry): (r: seq<Fault>)
    requires e.Entry?
    ensures AllAt(r, i) && (r == [] <==> GrantFieldsOk(e))
  {
    (if e.action.Val? && e.action.value in ACTIONS then [] else [Fault(i, BadAction)]) +
    (if NonBlank(e.scope) then [] else [Fault(i, BadScope)]) +
    (if e.revokes.Absent? then [] else [Fault(i, RevokesOnGrant)]) +
    (if e.expiresAt.Absent? then []
     else if TimeOf(e.expiresAt).None? then [Fault(i, BadExpiry)]
     else if TimeOf(e.at).Some? && TimeOf(e.expiresAt).value <= TimeOf(e.at).value then [Fault(i, ExpiryNotAfterAt)]
     else [])
  }

  function RevokeFaults(i: nat, e: Entry): (r: seq<Fault>)
    requires e.Entry?
    ensures AllAt(r, i) && (r == [] <==> RevokeFieldsOk(e))
  {
    (if e.action.Absent? then [] else [Fault(i, GrantKeyOnRevoke)]) +
    (if e.scope.Absent? then [] else [Fault(i, GrantKeyOnRevoke)]) +
    (if e.expiresAt.Absent? then [] else [Fault(i, GrantKeyOnRevoke)])
  }

  /** What entry `i` must satisfy given the entries before it. */
  ghost predicate RowOk(es: seq<Entry>, i: nat)
    requires i < |es|
  {
    && FieldsOk(es[i])
    && Num(es[i]).value >= 1
    && (i > 0 && Num(es[i - 1]).Some? ==> Num(es[i - 1]).value < Num(es[i]).value)
    && (IsRevoke(es[i]) ==>
          GrantBefore(es, i, Target(es[i]).value) && !RevokedBefore(es, i, Target(es[i]).value))
  }

  lemma AcceptedStep(es: seq<Entry>, i: nat)
    requires i < |es|
    ensures AcceptedTo(es, i + 1) <==> AcceptedTo(es, i) && RowOk(es, i)
  {
    if AcceptedTo(es, i) && RowOk(es, i) {
      forall j | 0 <= j < i ensures Num(es[j]).value < Num(es[i]).value {
        assert j == i - 1 || Num(es[j]).value < Num(es[i - 1]).value;
      }
    }
  }

  lemma GrantBeforeStep(es: seq<Entry>, i: nat, k: nat)
    requires i < |es|
    ensures GrantBefore(es, i + 1, k) <==> GrantBefore(es, i, k) || (IsGrant(es[i]) && Num(es[i]) == Some(k))
    ensures RevokedBefore(es, i + 1, k) <==> RevokedBefore(es, i, k) || (IsRevoke(es[i]) && Target(es[i]) == Some(k))
  {
  }

  /** The validator's tables describe the first `n` entries. */
  ghost predicate Tables(es: seq<Entry>, n: nat, seen: set<nat>, last: nat, grants: set<nat>, revoked: set<nat>)
    requires n <= |es|
  {
    && AcceptedTo(es, n)
    && last == (if n == 0 then 0 else Num(es[n - 1]).value)
    && (forall k :: k in seen ==> k <= last)
    && (forall k :: k in grants <==> GrantBefore(es, n, k))
    && (forall k :: k in revoked <==> RevokedBefore(es, n, k))
  }

  predicate EntryOk(e: Entry, seen: set<nat>, last: nat, grants: set<nat>, revoked: set<nat>) {
    && FieldsOk(e)
    && Num(e).value !in seen && Num(e).value > last
    && (IsRevoke(e) ==> Target(e).value < Num(e).value && Target(e).value in grants && Target(e).value !in revoked)
  }

  lemma EntryOkIsRowOk(es: seq<Entry>, i: nat, seen: set<nat>, last: nat, grants: set<nat>, revoked: set<nat>)
    requires i < |es| && Tables(es, i, seen, last, grants, revoked)
    ensures EntryOk(es[i], seen, last, grants, revoked) <==> RowOk(es, i)
  {
    if RowOk(es, i) && IsRevoke(es[i]) {
      var j :| 0 <= j < i && IsGrant(es[j]) && Num(es[j]) == Target(es[i]);
      assert j == i - 1 || Num(es[j]).value < Num(es[i - 1]).value;
    }
  }

  lemma TablesStep(es: seq<Entry>, i: nat, seen: set<nat>, last: nat, grants: set<nat>, revoked: set<nat>)
    requires i < |es| && Tables(es, i, seen, last, grants, revoked)
    requires EntryOk(es[i], seen, last, grants, revoked)
    ensures var n := Num(es[i]).value;
            Tables(es, i + 1, seen + {n}, n,
                   if IsGrant(es[i]) then grants + {n} else grants,
                   if IsRevoke(es[i]) then revoked + {Target(es[i]).value} else revoked)
  {
    EntryOkIsRowOk(es, i, seen, last, grants, revoked);
    AcceptedStep(es, i);
    forall k { GrantBeforeStep(es, i, k); }
  }

  /** The validator reports nothing exactly on the ledgers that meet the rules. */
  method ValidateEntries(es: seq<Entry>) returns (errors: seq<Fault>)
    ensures errors == [] <==> Accepted(es)
    ensures forall f :: f in errors ==> f.index < |es|
  {
    errors := [];
    var seen: set<nat> := {};
    var last: nat := 0;
    var grants: set<nat> := {};
    var revoked: set<nat> := {};
    for i := 0 to |es|
      invariant errors == [] <==> AcceptedTo(es, i)
      invariant forall f :: f in errors ==> f.index < i
      invariant errors == [] ==> Tables(es, i, seen, last, grants, revoked)
    {
      AcceptedStep(es, i);
      if errors == [] {
        EntryOkIsRowOk(es, i, seen, last, grants, revoked);
        if EntryOk(es[i], seen, last, grants, revoked) {
          TablesStep(es, i, seen, last, grants, revoked);
        }
      }
      var found;
      found, seen, last, grants, revoked := CheckEntry(i, es[i], seen, last, grants, revoked);
      errors := errors + found;
    }
  }

  /** One turn of the validator's loop: what it reports and how its tables grow. */
  method CheckEntry(i: nat, e: Entry, seen: set<nat>, last: nat, grants: set<nat>, revoked: set<nat>)
    returns (errors: seq<Fault>, seen': set<nat>, last': nat, grants': set<nat>, revoked': set<nat>)
    ensures AllAt(errors, i)
    ensures errors == [] <==> EntryOk(e, seen, last, grants, revoked)
    ensures errors == [] ==> last' == Num(e).value && seen' == seen + {last'}
    ensures errors == [] ==> grants' == (if IsGrant(e) then grants + {Num(e).value} else grants)
    ensures errors == [] ==> revoked' == (if IsRevoke(e) then revoked + {Target(e).value} else revoked)
  {
    errors, seen', last', grants', revoked' := [], seen, last, grants, revoked;
    if e.NotAMap? {
      return [Fault(i, MustBeAMap)], seen, last, grants, revoked;
    }
    var number := IdNumber(e.id);
    if number.None? {
      errors := [Fault(i, BadId)];
    } else {
      if number.value in seen {
        errors := [Fault(i, DuplicateId)];
      } else if number.value <= last {
        errors := [Fault(i, IdNotIncreasing)];
      }
      seen' := seen + {number.value};
      last' := if number.value > last then number.value else last;
    }
    errors := errors + TextFaults(i, e);
    if e.kind != Val("grant") && e.kind != Val("revoke") {
      errors := errors + [Fault(i, BadType)];
      return;
    }
    if e.kind == Val("grant") {
      errors := errors + GrantFaults(i, e);
      if number.Some? {
        grants' := grants + {number.value};
      }
    } else {
      errors := errors + RevokeFaults(i, e);
      var target := IdNumber(e.revokes);
      if target.None? {
        errors := errors + [Fault(i, BadTarget)];
      } else if number.Some? && target.value >= number.value {
        errors := errors + [Fault(i, TargetNotEarlier)];
      } else if target.value !in grants {
        errors := errors + [Fault(i, TargetNotAGrant)];
      } else if target.value in revoked {
        errors := errors + [Fault(i, AlreadyRevoked)];
      } else if number.Some? {
        revoked' := revoked + {target.value};
      }
    }
  }
}
