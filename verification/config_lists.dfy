/** Lists merged by id: no overlay removes, reorders or renames an entry of an id-keyed list. */
module ConfigLists {
  import opened Text
  import opened ConfigMerge
  import opened ConfigProtection

  predicate Keyed(t: seq<Slot>) {
    && (forall i, j :: 0 <= i < j < |t| ==> t[i].id != t[j].id)
    && (forall s :: s in t ==> s.id != "" && s.entry.Map? && IdText(s.entry) == s.id)
  }

  function Ids(t: seq<Slot>): (ids: seq<string>)
    ensures |ids| == |t| && forall i :: 0 <= i < |t| ==> ids[i] == t[i].id
  {
    seq(|t|, i requires 0 <= i < |t| => t[i].id)
  }

  lemma PutKeyed(t: seq<Slot>, id: string, v: Value)
    requires Keyed(t) && id != "" && v.Map? && IdText(v) == id
    ensures Keyed(Put(t, id, v))
    ensures Ids(Put(t, id, v)) == if id in Ids(t) then Ids(t) else Ids(t) + [id]
    ensures forall s :: s in t && s.id != id ==> s in Put(t, id, v)
    ensures Slot(id, v) in Put(t, id, v)
  {
    hide IdText;
    var i, u := Position(t, id), Put(t, id, v);
    if i < |t| {
      assert Ids(t)[i] == id && u[i] == Slot(id, v);
      assert Ids(u) == Ids(t);
      forall s | s in t && s.id != id ensures s in u {
        var k :| 0 <= k < |t| && t[k] == s;
        assert u[k] == s;
      }
    } else {
      assert id !in Ids(t);
    }
  }

  /** Merging an entry with one of the same id gives an entry of that id. */
  lemma MergedEntryKeepsId(was: Value, e: Value, path: Path)
    requires was.Map? && e.Map? && IdText(was) == IdText(e) != ""
    ensures var m := WithId(Merged(was, e, path), IdText(e));
            m.Map? && IdText(m) == IdText(e)
  {
    hide Merged, MergedField, Protected;
    MergedIsMap(was, e, path);
    MergedAtKey(was, e, path, "id");
    MergedHasKey(was, e, path, "id");
    MergedFieldCases(FieldOf(was, "id"), e.fields["id"], path + ["id"]);
  }

  lemma {:induction false} ByIdKeyed(items: seq<Value>)
    requires forall e :: e in items ==> e.Map? && IdText(e) != ""
    ensures Keyed(ById(items))
    ensures forall e :: e in items ==> IdText(e) in Ids(ById(items))
    ensures forall id :: id in Ids(ById(items)) ==> exists e :: e in items && IdText(e) == id
  {
    hide IdText, Keyed, Put;
    if items == [] {
      NoSlots();
    } else {
      var front, last := items[..|items| - 1], items[|items| - 1];
      ByIdKeyed(front);
      PutKeyed(ById(front), IdText(last), last);
      assert forall e :: e in items ==> e in front || e == last;
    }
  }

  lemma NoSlots()
    ensures Keyed([])
  {
  }

  /** What one overlay entry does to the table. */
  lemma EntryStep(t: seq<Slot>, overlay: Value, n: nat, path: Path)
    requires IdKeyed(overlay) && 0 < n <= |overlay.items| && Keyed(MergedUpTo(t, overlay, n - 1, path))
    ensures var was, now, id := MergedUpTo(t, overlay, n - 1, path), MergedUpTo(t, overlay, n, path),
            IdText(overlay.items[n - 1]);
            && Keyed(now)
            && Ids(now) == (if id in Ids(was) then Ids(was) else Ids(was) + [id])
            && forall s :: s in was && s.id != id ==> s in now
  {
    hide IdText, Put, WithId, Merged, MergedUpTo;
    var was, e := MergedUpTo(t, overlay, n - 1, path), overlay.items[n - 1];
    var id := IdText(e);
    var i := Position(was, id);
    OneMore(t, overlay, n, path);
    if i < |was| {
      assert was[i] in was;
      MergedEntryKeepsId(was[i].entry, e, path + [id]);
      PutKeyed(was, id, WithId(Merged(was[i].entry, e, path + [id]), id));
    } else {
      PutKeyed(was, id, e);
    }
  }

  lemma OneMore(t: seq<Slot>, overlay: Value, n: nat, path: Path)
    requires IdKeyed(overlay) && 0 < n <= |overlay.items|
    ensures var was, e := MergedUpTo(t, overlay, n - 1, path), overlay.items[n - 1];
            var i := Position(was, IdText(e));
            MergedUpTo(t, overlay, n, path) ==
              Put(was, IdText(e), if i < |was| then WithId(Merged(was[i].entry, e, path + [IdText(e)]), IdText(e))
                  else e)
  {
    hide IdText, Put, WithId, Merged;
  }

  function OverlayIds(overlay: Value, n: nat): set<string>
    requires IdKeyed(overlay) && n <= |overlay.items|
  {
    if n == 0 then {} else OverlayIds(overlay, n - 1) + {IdText(overlay.items[n - 1])}
  }

  lemma {:induction false} OverlayIdsAre(overlay: Value, n: nat)
    requires IdKeyed(overlay) && n <= |overlay.items|
    ensures forall id :: id in OverlayIds(overlay, n) <==> exists k :: 0 <= k < n && IdText(overlay.items[k]) == id
  {
    hide IdText;
    if n > 0 {
      OverlayIdsAre(overlay, n - 1);
    }
  }

  lemma {:induction false} TableGrows(t: seq<Slot>, overlay: Value, n: nat, path: Path)
    requires Keyed(t) && IdKeyed(overlay) && n <= |overlay.items|
    ensures var now := MergedUpTo(t, overlay, n, path);
            && Keyed(now)
            && Ids(t) <= Ids(now)
            && (forall id :: id in Ids(now) <==> id in Ids(t) || id in OverlayIds(overlay, n))
            && (forall s :: s in t && s.id !in OverlayIds(overlay, n) ==> s in now)
    decreases n
  {
    hide IdText, Keyed, Put, WithId, Merged, Position, MergedUpTo;
    if n > 0 {
      TableGrows(t, overlay, n - 1, path);
      EntryStep(t, overlay, n, path);
    } else {
      NothingMerged(t, overlay, path);
    }
  }

  lemma NothingMerged(t: seq<Slot>, overlay: Value, path: Path)
    requires IdKeyed(overlay)
    ensures MergedUpTo(t, overlay, 0, path) == t
  {
  }

  /** The ids of a merged list are the base's, in the base's order, then the overlay's new ones;
      each id once; and an entry the overlay does not name is the base's. */
  lemma MergedListKeepsIds(base: Value, overlay: Value, path: Path)
    requires IdKeyed(base) && IdKeyed(overlay)
    ensures var t, r := ById(base.items), MergedUpTo(ById(base.items), overlay, |overlay.items|, path);
            && MergedField(base, overlay, path) == List(Entries(r))
            && Keyed(r)
            && Ids(t) <= Ids(r)
            && (forall id :: id in Ids(r) <==>
                (exists e :: e in base.items && IdText(e) == id) || (exists e :: e in overlay.items && IdText(e) == id))
            && (forall s :: s in t && (forall e :: e in overlay.items ==> IdText(e) != s.id) ==> s.entry in Entries(r))
  {
    hide IdText, Put, WithId, Merged, MergedUpTo, ById, Keyed, Position, OverlayIds;
    var t, r := ById(base.items), MergedUpTo(ById(base.items), overlay, |overlay.items|, path);
    ByIdKeyed(base.items);
    TableGrows(t, overlay, |overlay.items|, path);
    OverlayIdsAre(overlay, |overlay.items|);
    forall s | s in t && (forall e :: e in overlay.items ==> IdText(e) != s.id) ensures s.entry in Entries(r) {
      assert s in r;
      var k :| 0 <= k < |r| && r[k] == s;
      assert Entries(r)[k] == s.entry;
    }
  }
}
