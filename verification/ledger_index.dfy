/** The read-only index over a ledger, and what a grant is worth at a snapshot
    (the Index class of scripts/authorization-ledger.rb). */
module LedgerIndex {
  import opened Text
  import opened AuthorizationLedger

  datatype Index = Index(entries: seq<Entry>, byNumber: map<nat, Entry>, revokesOf: map<nat, seq<nat>>)

  function RevokesOf(ix: Index, n: nat): seq<nat> {
    if n in ix.revokesOf then ix.revokesOf[n] else []
  }

  function AddEntry(ix: Index, e: Entry): Index {
    var number := Num(e);
    var named := if number.Some? then ix.byNumber[number.value := e] else ix.byNumber;
    var revoked :=
      if number.Some? && IsRevoke(e) && Target(e).Some?
      then ix.revokesOf[Target(e).value := RevokesOf(ix, Target(e).value) + [number.value]]
      else ix.revokesOf;
    Index(ix.entries + [e], named, revoked)
  }

  function IndexOf(es: seq<Entry>): Index {
    if es == [] then Index([], map[], map[])
    else AddEntry(IndexOf(es[..|es| - 1]), es[|es| - 1])
  }

  lemma IndexStep(es: seq<Entry>, i: nat)
    requires i < |es|
    ensures IndexOf(es[..i + 1]) == AddEntry(IndexOf(es[..i]), es[i])
  {
    hide AddEntry;
    assert es[..i + 1][..i] == es[..i];
  }

  /** Fills the two tables in one pass over the entries. */
  method BuildIndex(es: seq<Entry>) returns (ix: Index)
    ensures ix == IndexOf(es)
  {
    hide IdNumber, IndexOf;
    var byNumber: map<nat, Entry> := map[];
    var revokesOf: map<nat, seq<nat>> := map[];
    EmptyIndex(es);
    for i := 0 to |es|
      invariant Index(es[..i], byNumber, revokesOf) == IndexOf(es[..i])
    {
      IndexStep(es, i);
      assert es[..i + 1] == es[..i] + [es[i]];
      var number := Num(es[i]);
      if number.None? {
        continue;
      }
      byNumber := byNumber[number.value := es[i]];
      if IsRevoke(es[i]) && Target(es[i]).Some? {
        var target := Target(es[i]).value;
        var earlier := if target in revokesOf then revokesOf[target] else [];
        revokesOf := revokesOf[target := earlier + [number.value]];
      }
    }
    assert es[..|es|] == es;
    ix := Index(es, byNumber, revokesOf);
  }

  lemma EmptyIndex(es: seq<Entry>)
    ensures IndexOf(es[..0]) == Index(es[..0], map[], map[])
  {
  }

  // ---- the tables and the list agree ----

  ghost predicate Numbered(es: seq<Entry>, n: nat) {
    exists i :: 0 <= i < |es| && Num(es[i]) == Some(n)
  }

  ghost predicate RevokeOf(es: seq<Entry>, k: nat, n: nat) {
    exists i :: 0 <= i < |es| && IsRevoke(es[i]) && Num(es[i]) == Some(k) && Target(es[i]) == Some(n)
  }

  lemma SameBefore(es: seq<Entry>, m: nat, j: nat, k: nat)
    requires j <= m <= |es|
    ensures GrantBefore(es[..m], j, k) <==> GrantBefore(es, j, k)
    ensures RevokedBefore(es[..m], j, k) <==> RevokedBefore(es, j, k)
  {
    hide IdNumber;
    assert forall i :: 0 <= i < j ==> es[..m][i] == es[i];
  }

  lemma AcceptedPrefix(es: seq<Entry>, m: nat)
    requires Accepted(es) && m <= |es|
    ensures Accepted(es[..m])
  {
    hide IdNumber, GrantBefore, RevokedBefore;
    forall j | 0 <= j < m && IsRevoke(es[j]) {
      SameBefore(es, m, j, Target(es[j]).value);
    }
  }

  lemma AddEntryTables(ix: Index, e: Entry, n: nat, k: nat)
    ensures var more := AddEntry(ix, e);
            && more.entries == ix.entries + [e]
            && (n in more.byNumber <==> n in ix.byNumber || Num(e) == Some(n))
            && (k in RevokesOf(more, n) <==>
                k in RevokesOf(ix, n) || (IsRevoke(e) && Num(e) == Some(k) && Target(e) == Some(n)))
  {
    hide IdNumber;
  }

  lemma {:induction false} NumberAgrees(es: seq<Entry>, n: nat)
    ensures IndexOf(es).entries == es && (n in IndexOf(es).byNumber <==> Numbered(es, n))
  {
    hide Num, Numbered, AddEntry, RevokesOf;
    if es == [] {
      NoneNumbered(n, 0);
    } else {
      var p, e := es[..|es| - 1], es[|es| - 1];
      NumberAgrees(p, n);
      AddEntryTables(IndexOf(p), e, n, 0);
      assert es == p + [e];
      NumberedStep(p, e, n);
    }
  }

  lemma {:induction false} RevokeAgrees(es: seq<Entry>, n: nat, k: nat)
    ensures k in RevokesOf(IndexOf(es), n) <==> RevokeOf(es, k, n)
  {
    hide Num, Target, IsRevoke, RevokeOf, AddEntry, RevokesOf;
    if es == [] {
      NothingRevoked(n, k);
    } else {
      var p, e := es[..|es| - 1], es[|es| - 1];
      RevokeAgrees(p, n, k);
      AddEntryTables(IndexOf(p), e, n, k);
      assert es == p + [e];
      RevokeOfStep(p, e, k, n);
    }
  }

  lemma NothingRevoked(n: nat, k: nat)
    ensures RevokesOf(IndexOf([]), n) == [] && !RevokeOf([], k, n)
  {
  }

  /** The two hash tables hold exactly what a scan of the entries finds. */
  lemma TablesAgree(es: seq<Entry>)
    ensures var ix := IndexOf(es);
            && ix.entries == es
            && (forall n :: n in ix.byNumber <==> Numbered(es, n))
            && (forall n, k :: k in RevokesOf(ix, n) <==> RevokeOf(es, k, n))
  {
    hide *;
    NumberAgrees(es, 0);
    forall n { NumberAgrees(es, n); }
    forall n, k { RevokeAgrees(es, n, k); }
  }

  lemma NoneNumbered(n: nat, k: nat)
    ensures !Numbered([], n) && !RevokeOf([], k, n)
  {
  }

  lemma NumberedStep(p: seq<Entry>, e: Entry, n: nat)
    ensures Numbered(p + [e], n) <==> Numbered(p, n) || Num(e) == Some(n)
  {
    hide IdNumber;
    var es := p + [e];
    assert es[|p|] == e && forall i :: 0 <= i < |p| ==> es[i] == p[i];
  }

  lemma RevokeOfStep(p: seq<Entry>, e: Entry, k: nat, n: nat)
    ensures RevokeOf(p + [e], k, n) <==> RevokeOf(p, k, n) || (IsRevoke(e) && Num(e) == Some(k) && Target(e) == Some(n))
  {
    hide IdNumber;
    var es := p + [e];
    assert es[|p|] == e && forall i :: 0 <= i < |p| ==> es[i] == p[i];
  }

  lemma {:induction false} NumberedEntry(es: seq<Entry>, i: nat)
    requires Accepted(es) && i < |es|
    ensures var ix := IndexOf(es);
            Num(es[i]).Some? && Num(es[i]).value in ix.byNumber && ix.byNumber[Num(es[i]).value] == es[i]
  {
    TablesAgree(es);
    if i < |es| - 1 {
      AcceptedPrefix(es, |es| - 1);
      NumberedEntry(es[..|es| - 1], i);
    }
  }

  // ---- validity as of a time and a snapshot ----

  /** Does the index hold an entry with the number of `id`? */
  predicate HasEntry(ix: Index, id: Field<string>) {
    IdNumber(id).Some? && IdNumber(id).value in ix.byNumber
  }

  predicate ValidGrant(ix: Index, id: Field<string>, action: string, at: Option<int>, through: Field<string>) {
    var number, snapshot := IdNumber(id), IdNumber(through);
    && number.Some? && snapshot.Some? && number.value <= snapshot.value
    && number.value in ix.byNumber
    && var grant := ix.byNumber[number.value];
    && IsGrant(grant) && grant.action == Val(action)
    && at.Some? && TimeOf(grant.at).Some? && TimeOf(grant.at).value <= at.value
    && (grant.expiresAt.Absent? || (TimeOf(grant.expiresAt).Some? && at.value < TimeOf(grant.expiresAt).value))
    && forall k :: k in RevokesOf(ix, number.value) ==> k > snapshot.value
  }

  /** The entry is a grant of `action` numbered `n` that has started and not expired at `t`. */
  predicate Covers(e: Entry, n: nat, action: string, t: int) {
    && IsGrant(e) && Num(e) == Some(n) && e.action == Val(action)
    && TimeOf(e.at).Some? && TimeOf(e.at).value <= t
    && (e.expiresAt.Absent? || (TimeOf(e.expiresAt).Some? && t < TimeOf(e.expiresAt).value))
  }

  /** The rule read off the list itself: a covering grant at or before the snapshot `s`
      and no revoke of it at or before `s`, whatever the clock said when it was written. */
  ghost predicate ScanValid(es: seq<Entry>, n: nat, action: string, t: int, s: nat) {
    && n <= s
    && (exists i :: 0 <= i < |es| && Covers(es[i], n, action, t))
    && (forall k: nat :: RevokeOf(es, k, n) ==> k > s)
  }

  lemma IndexAgreesWithScan(es: seq<Entry>, id: Field<string>, action: string, at: Option<int>, through: Field<string>)
    requires Accepted(es)
    ensures ValidGrant(IndexOf(es), id, action, at, through) <==>
              && IdNumber(id).Some? && IdNumber(through).Some? && at.Some?
              && ScanValid(es, IdNumber(id).value, action, at.value, IdNumber(through).value)
  {
    hide IdNumber, IndexOf, Accepted, RevokeOf;
    TablesAgree(es);
    var ix := IndexOf(es);
    if IdNumber(id).Some? && IdNumber(through).Some? && at.Some? {
      var n := IdNumber(id).value;
      forall i | 0 <= i < |es| && Num(es[i]) == Some(n) ensures n in ix.byNumber && ix.byNumber[n] == es[i] {
        NumberedEntry(es, i);
      }
    }
  }

  function HighNumber(es: seq<Entry>): nat {
    if es == [] || Num(es[|es| - 1]).None? then 0 else Num(es[|es| - 1]).value
  }

  lemma NumbersBelowHigh(es: seq<Entry>, i: nat)
    requires Accepted(es) && i < |es|
    ensures Num(es[i]).Some? && Num(es[i]).value <= HighNumber(es)
  {
    assert i == |es| - 1 || Num(es[i]).value < Num(es[|es| - 1]).value;
  }

  /** What a snapshot says never changes: entries appended later have larger ids. */
  lemma SnapshotStable(es: seq<Entry>, ext: seq<Entry>, id: Field<string>, action: string, at: Option<int>,
                       through: Field<string>)
    requires Accepted(es + ext)
    requires IdNumber(through).Some? ==> IdNumber(through).value <= HighNumber(es)
    ensures Accepted(es)
    ensures ValidGrant(IndexOf(es + ext), id, action, at, through) == ValidGrant(IndexOf(es), id, action, at, through)
  {
    hide IdNumber, IndexOf, ValidGrant, ScanValid;
    var all := es + ext;
    AcceptedPrefix(all, |es|);
    assert all[..|es|] == es;
    IndexAgreesWithScan(es, id, action, at, through);
    IndexAgreesWithScan(all, id, action, at, through);
    if IdNumber(id).Some? && IdNumber(through).Some? && at.Some? {
      LaterNumbersAreLarger(es, ext);
      ScanStable(es, ext, IdNumber(id).value, action, at.value, IdNumber(through).value);
    }
  }

  lemma LaterNumbersAreLarger(es: seq<Entry>, ext: seq<Entry>)
    requires Accepted(es + ext)
    ensures forall i :: 0 <= i < |ext| ==> Num(ext[i]).Some? && Num(ext[i]).value > HighNumber(es)
  {
    hide IdNumber;
    var all := es + ext;
    forall i | 0 <= i < |ext| ensures Num(ext[i]).Some? && Num(ext[i]).value > HighNumber(es) {
      assert ext[i] == all[|es| + i];
      assert es == [] || es[|es| - 1] == all[|es| - 1];
    }
  }

  lemma ScanStable(es: seq<Entry>, ext: seq<Entry>, n: nat, action: string, t: int, s: nat)
    requires forall i :: 0 <= i < |ext| ==> Num(ext[i]).Some? && Num(ext[i]).value > s
    ensures ScanValid(es + ext, n, action, t, s) == ScanValid(es, n, action, t, s)
  {
    hide IdNumber;
    var all := es + ext;
    assert forall i :: 0 <= i < |es| ==> all[i] == es[i];
    assert forall i :: |es| <= i < |all| ==> all[i] == ext[i - |es|];
    forall k: nat | k <= s ensures RevokeOf(all, k, n) <==> RevokeOf(es, k, n) {
    }
  }

  lemma EntryStays(es: seq<Entry>, ext: seq<Entry>, id: Field<string>)
    requires Accepted(es + ext) && HasEntry(IndexOf(es), id)
    ensures HasEntry(IndexOf(es + ext), id) && IdNumber(id).value <= HighNumber(es)
  {
    var all := es + ext;
    AcceptedPrefix(all, |es|);
    assert all[..|es|] == es;
    TablesAgree(es);
    TablesAgree(all);
    var i :| 0 <= i < |es| && Num(es[i]) == IdNumber(id);
    assert Num(all[i]) == IdNumber(id);
    NumbersBelowHigh(es, i);
  }

  // ---- the high-water id ----

  /** The number of `high_water_id`: the largest in the table, none when it is empty. */
  function HighWater(ix: Index): (r: Option<nat>)
    ensures r.Some? ==> r.value in ix.byNumber
  {
    if ix.byNumber.Keys == {} then None
    else
      var m := MaxOf(ix.byNumber.Keys);
      assert m in ix.byNumber;
      Some(m)
  }

  lemma HighWaterIsLast(es: seq<Entry>)
    requires Accepted(es)
    ensures HighWater(IndexOf(es)) == if es == [] then None else Some(HighNumber(es))
  {
    TablesAgree(es);
    var ix := IndexOf(es);
    if es != [] {
      NumberedEntry(es, |es| - 1);
      var m := HighWater(ix).value;
      var i :| 0 <= i < |es| && Num(es[i]) == Some(m);
      NumbersBelowHigh(es, i);
      assert HighNumber(es) in ix.byNumber.Keys;
    }
  }

  // ---- until when an action stays granted ----

  function ValidNumbers(ix: Index, action: string, at: Option<int>, through: Field<string>): set<nat> {
    set n | n in ix.byNumber && IsGrant(ix.byNumber[n]) && ValidGrant(ix, Val(FormatId(n)), action, at, through)
  }

  predicate AnyValidGrant(ix: Index, action: string, at: Option<int>, through: Field<string>) {
    ValidNumbers(ix, action, at, through) != {}
  }

  function ValidGrantUntil(ix: Index, action: string, at: Option<int>, through: Field<string>): Option<int> {
    var numbers := ValidNumbers(ix, action, at, through);
    if numbers == {} || exists n :: n in numbers && ix.byNumber[n].expiresAt.Absent? then None
    else
      var ends := set n | n in numbers && TimeOf(ix.byNumber[n].expiresAt).Some? ::
            TimeOf(ix.byNumber[n].expiresAt).value;
      if ends == {} then None else Some(MaxOf(ends))
  }

  lemma ValidNumber(ix: Index, n: nat, action: string, at: Option<int>, through: Field<string>)
    ensures n in ValidNumbers(ix, action, at, through) <==> ValidGrant(ix, Val(FormatId(n)), action, at, through)
  {
    FormatRoundTrip(n);
  }

  /** A reported end `u` is exact: some grant covers every moment up to `u`, and none of
      the grants valid now covers `u`. With no end reported, either nothing is granted
      now or something is granted for ever. */
  lemma UntilIsExact(ix: Index, action: string, t: int, through: Field<string>)
    ensures var u := ValidGrantUntil(ix, action, Some(t), through);
            if u.Some? then
              && t < u.value
              && (forall t' :: t <= t' < u.value ==> AnyValidGrant(ix, action, Some(t'), through))
              && (forall n :: n in ValidNumbers(ix, action, Some(t), through) ==>
                    n !in ValidNumbers(ix, action, Some(u.value), through))
            else
              || !AnyValidGrant(ix, action, Some(t), through)
              || (forall t' :: t <= t' ==> AnyValidGrant(ix, action, Some(t'), through))
  {
    var numbers := ValidNumbers(ix, action, Some(t), through);
    var u := ValidGrantUntil(ix, action, Some(t), through);
    if numbers != {} {
      forall n | n in numbers
        ensures ix.byNumber[n].expiresAt.Absent? || TimeOf(ix.byNumber[n].expiresAt).Some?
      {
        ValidNumber(ix, n, action, Some(t), through);
        FormatRoundTrip(n);
      }
      if n :| n in numbers && ix.byNumber[n].expiresAt.Absent? {
        forall t' | t <= t' ensures AnyValidGrant(ix, action, Some(t'), through) {
          StaysValid(ix, n, action, t, t', through);
        }
      } else {
        var ends := set n | n in numbers && TimeOf(ix.byNumber[n].expiresAt).Some? ::
              TimeOf(ix.byNumber[n].expiresAt).value;
        var some := AnElement(numbers);
        assert TimeOf(ix.byNumber[some].expiresAt).value in ends;
        var last :| last in numbers && TimeOf(ix.byNumber[last].expiresAt) == Some(u.value);
        ValidNumber(ix, last, action, Some(t), through);
        FormatRoundTrip(last);
        forall t' | t <= t' < u.value ensures AnyValidGrant(ix, action, Some(t'), through) {
          StaysValid(ix, last, action, t, t', through);
        }
        forall n | n in numbers ensures n !in ValidNumbers(ix, action, Some(u.value), through) {
          assert TimeOf(ix.byNumber[n].expiresAt).value in ends;
          ValidNumber(ix, n, action, Some(u.value), through);
          FormatRoundTrip(n);
        }
      }
    }
  }

  lemma StaysValid(ix: Index, n: nat, action: string, t: int, t': int, through: Field<string>)
    requires n in ValidNumbers(ix, action, Some(t), through) && t <= t'
    requires ix.byNumber[n].expiresAt.Absent?
             || (TimeOf(ix.byNumber[n].expiresAt).Some? && t' < TimeOf(ix.byNumber[n].expiresAt).value)
    ensures AnyValidGrant(ix, action, Some(t'), through)
  {
    FormatRoundTrip(n);
    ValidNumber(ix, n, action, Some(t), through);
    ValidNumber(ix, n, action, Some(t'), through);
    assert n in ValidNumbers(ix, action, Some(t'), through);
  }
}
