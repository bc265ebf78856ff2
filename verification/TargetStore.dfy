/** The target tables, the two queries over them, and the forms that edit them. */
module TargetStore {
  import opened Wire
  import opened Order
  import Text
  import Identity

  /** A row of `targets` without its key. */
  datatype TargetRow = TargetRow(displayName: string, address: string, description: string, enabled: bool)

  /** `targets`, and the (target_id, probe_type) pairs of `target_probe_types`. */
  datatype Tables = Tables(targets: map<string, TargetRow>, types: set<(string, string)>)

  datatype NewTarget = NewTarget(id: string, row: TargetRow, types: seq<string>)

  datatype StoreError = Duplicate | NotFound | InUse

  predicate ForeignKey(db: Tables) { forall p :: p in db.types ==> p.0 in db.targets }

  predicate KnownTypesOnly(db: Tables) { forall p :: p in db.types ==> KnownType(p.1) }

  function TypesOf(db: Tables, id: string): set<string> { set p | p in db.types && p.0 == id :: p.1 }

  // ----- Edits ---------------------------------------------------------------------------

  function Pairs(id: string, types: seq<string>): set<(string, string)> { set t | t in types :: (id, t) }

  function Without(db: Tables, id: string): set<(string, string)> { set p | p in db.types && p.0 != id }

  function Put(db: Tables, t: NewTarget): Tables {
    Tables(db.targets[t.id := t.row], Without(db, t.id) + Pairs(t.id, t.types))
  }

  function Removed(db: Tables, id: string): Tables { Tables(db.targets - {id}, Without(db, id)) }

  // ----- What is dispatched and what is allowed ------------------------------------------

  /** SQLite's TRIM strips spaces only. */
  predicate NonBlank(address: string) { exists c :: c in address && c != ' ' }

  predicate Dispatchable(db: Tables, id: string) {
    id in db.targets && db.targets[id].enabled && NonBlank(db.targets[id].address) && TypesOf(db, id) != {}
  }

  function DispatchTarget(db: Tables, id: string): Target
    requires id in db.targets
  {
    Target(id, db.targets[id].address, Ascending(TypesOf(db, id)))
  }

  /** The list every probe is served, in ascending order of IDs and of types. */
  function Dispatch(db: Tables): (r: seq<Target>)
    ensures forall t :: t in r ==> Dispatchable(db, t.id) && t == DispatchTarget(db, t.id)
    ensures forall i, j :: 0 <= i < j < |r| ==> Less(r[i].id, r[j].id)
  {
    var ids := Ascending(set id | id in db.targets && Dispatchable(db, id));
    assert forall i :: 0 <= i < |ids| ==> ids[i] in Elements(ids);
    seq(|ids|, i requires 0 <= i < |ids| => DispatchTarget(db, ids[i]))
  }

  /** Nothing that could be served is left out. */
  lemma DispatchComplete(db: Tables, id: string)
    requires Dispatchable(db, id)
    ensures DispatchTarget(db, id) in Dispatch(db)
  {
    var ids := Ascending(set k | k in db.targets && Dispatchable(db, k));
    assert id in Elements(ids);
    var i :| 0 <= i < |ids| && ids[i] == id;
    assert Dispatch(db)[i] == DispatchTarget(db, id);
  }

  lemma DispatchDistinct(db: Tables)
    ensures Identity.DistinctIDs(Dispatch(db))
  {
    var r := Dispatch(db);
    forall i, j | 0 <= i < j < |r| ensures r[i].id != r[j].id { LessIrreflexive(r[i].id); }
  }

  function Allowed(db: Tables): Allowlist {
    map id | id in db.targets && db.targets[id].enabled && TypesOf(db, id) != {} :: TypesOf(db, id)
  }

  /** Two different queries agree: whatever is dispatched is allowed. */
  lemma DispatchedIsAllowed(db: Tables, t: Target, pt: string)
    requires t in Dispatch(db) && pt in t.types
    ensures t.id in Allowed(db) && pt in Allowed(db)[t.id]
  {
    assert pt in Elements(t.types);
  }

  // ----- Join rows and their fold --------------------------------------------------------

  datatype JoinRow = JoinRow(id: string, address: string, type_: string)

  predicate RowLess(r: JoinRow, s: JoinRow) { Less(r.id, s.id) || (r.id == s.id && Less(r.type_, s.type_)) }

  /** What the dispatch query returns: the join, ordered by target and type. */
  ghost predicate IsDispatchJoin(db: Tables, rows: seq<JoinRow>) {
    && StrictlySorted(rows, RowLess)
    && forall r :: r in rows <==> && r.id in db.targets && db.targets[r.id].enabled && NonBlank(r.address)
                                  && r.address == db.targets[r.id].address && (r.id, r.type_) in db.types
  }

  function Push(out: seq<Target>, r: JoinRow): seq<Target> {
    var n := |out|;
    if n > 0 && out[n - 1].id == r.id then
      out[n - 1 := out[n - 1].(types := out[n - 1].types + [r.type_])]
    else out + [Target(r.id, r.address, [r.type_])]
  }

  function Fold(rows: seq<JoinRow>): seq<Target> {
    if rows == [] then [] else Push(Fold(rows[..|rows| - 1]), rows[|rows| - 1])
  }

  function RowsUpTo(t: Target, k: nat): seq<JoinRow>
    requires k <= |t.types|
  {
    seq(k, i requires 0 <= i < k => JoinRow(t.id, t.address, t.types[i]))
  }

  function RowsOf(t: Target): seq<JoinRow> { RowsUpTo(t, |t.types|) }

  function Flatten(out: seq<Target>): seq<JoinRow> {
    if out == [] then [] else Flatten(out[..|out| - 1]) + RowsOf(out[|out| - 1])
  }

  /** Neighbouring rows of one target carry the same address. */
  predicate AddressesAgree(rows: seq<JoinRow>) {
    forall i :: 0 < i < |rows| && rows[i - 1].id == rows[i].id ==> rows[i - 1].address == rows[i].address
  }

  lemma RowsOfAppend(t: Target, pt: string)
    ensures RowsOf(t.(types := t.types + [pt])) == RowsOf(t) + [JoinRow(t.id, t.address, pt)]
  {
  }

  lemma FlattenAppend(out: seq<Target>, t: Target)
    ensures Flatten(out + [t]) == Flatten(out) + RowsOf(t)
  {
    assert (out + [t])[..|out|] == out;
  }

  /** The row a pushed row comes back as: a run keeps the address of its first row. */
  function Kept(out: seq<Target>, r: JoinRow): JoinRow {
    if out != [] && out[|out| - 1].id == r.id then r.(address := out[|out| - 1].address) else r
  }

  lemma FlattenPush(out: seq<Target>, r: JoinRow)
    ensures Flatten(Push(out, r)) == Flatten(out) + [Kept(out, r)]
  {
    var n := |out|;
    if n > 0 && out[n - 1].id == r.id {
      var pre, t := out[..n - 1], out[n - 1];
      assert out == pre + [t];
      assert Push(out, r) == pre + [t.(types := t.types + [r.type_])];
      FlattenAppend(pre, t);
      FlattenAppend(pre, t.(types := t.types + [r.type_]));
      RowsOfAppend(t, r.type_);
      assert Flatten(pre) + (RowsOf(t) + [Kept(out, r)]) == (Flatten(pre) + RowsOf(t)) + [Kept(out, r)];
    } else {
      FlattenAppend(out, Target(r.id, r.address, [r.type_]));
      assert RowsOf(Target(r.id, r.address, [r.type_])) == [r];
    }
  }

  lemma {:induction false} FoldShape(rows: seq<JoinRow>)
    ensures var out := Fold(rows);
            && (rows == [] <==> out == [])
            && (forall i :: 0 <= i < |out| ==> out[i].types != [])
            && (forall i :: 0 < i < |out| ==> out[i - 1].id != out[i].id)
            && (rows != [] ==> out[|out| - 1].id == rows[|rows| - 1].id)
  {
    if rows != [] { FoldShape(rows[..|rows| - 1]); }
  }

  lemma LastOfFlatten(out: seq<Target>)
    requires out != [] && out[|out| - 1].types != []
    ensures Flatten(out) != [] && Flatten(out)[|Flatten(out)| - 1].address == out[|out| - 1].address
  {
    var t := out[|out| - 1];
    assert RowsOf(t)[|t.types| - 1].address == t.address;
  }

  lemma SnocEqual<T>(a: seq<T>, x: T, b: seq<T>, y: T)
    ensures a + [x] == b + [y] <==> a == b && x == y
  {
    if a + [x] == b + [y] {
      assert a == (a + [x])[..|a|] && b == (b + [y])[..|b|];
      assert x == (a + [x])[|a|] && y == (b + [y])[|b|];
    }
  }

  lemma FoldAppend(pre: seq<JoinRow>, r: JoinRow)
    ensures Fold(pre + [r]) == Push(Fold(pre), r)
  {
    assert (pre + [r])[..|pre|] == pre;
  }

  /** The fold loses nothing exactly when each run of rows has one address. */
  lemma {:induction false} FlattenFold(rows: seq<JoinRow>)
    ensures Flatten(Fold(rows)) == rows <==> AddressesAgree(rows)
  {
    if rows != [] {
      var n := |rows| - 1;
      var pre, r := rows[..n], rows[n];
      assert rows == pre + [r];
      FlattenFold(pre);
      AgreeSnoc(pre, r);
      FoldAppend(pre, r);
      FlattenPush(Fold(pre), r);
      SnocEqual(Flatten(Fold(pre)), Kept(Fold(pre), r), pre, r);
      if Flatten(Fold(pre)) == pre { KeptUnchanged(pre, r); }
    }
  }

  lemma KeptUnchanged(pre: seq<JoinRow>, r: JoinRow)
    requires Flatten(Fold(pre)) == pre
    ensures Kept(Fold(pre), r) == r <==> pre == [] || pre[|pre| - 1].id != r.id || pre[|pre| - 1].address == r.address
  {
    var out := Fold(pre);
    FoldShape(pre);
    if out != [] {
      LastOfFlatten(out);
      assert pre[|pre| - 1].address == out[|out| - 1].address;
    }
  }

  lemma AgreeSnoc(pre: seq<JoinRow>, r: JoinRow)
    ensures AddressesAgree(pre + [r]) <==>
              AddressesAgree(pre) && (pre == [] || pre[|pre| - 1].id != r.id || pre[|pre| - 1].address == r.address)
  {
    var rows := pre + [r];
    assert forall i :: 0 <= i < |pre| ==> rows[i] == pre[i];
    if AddressesAgree(rows) {
      forall i | 0 < i < |pre| && pre[i - 1].id == pre[i].id ensures pre[i - 1].address == pre[i].address {
        assert rows[i - 1].id == rows[i].id;
      }
      assert pre != [] ==> rows[|pre| - 1] == pre[|pre| - 1] && rows[|pre|] == r;
    }
  }

  /** Non-empty type lists, and neighbouring targets differ. */
  predicate Foldable(out: seq<Target>) {
    && (forall i :: 0 <= i < |out| ==> out[i].types != [])
    && (forall i :: 0 < i < |out| ==> out[i - 1].id != out[i].id)
  }

  lemma {:induction false} FoldFlatten(out: seq<Target>)
    requires Foldable(out)
    ensures Fold(Flatten(out)) == out
  {
    if out != [] {
      var n := |out| - 1;
      var pre, t := out[..n], out[n];
      assert out == pre + [t];
      FoldFlatten(pre);
      FlattenAppend(pre, t);
      FoldRun(Flatten(pre), t, |t.types|);
      assert t.types[..|t.types|] == t.types;
    }
  }

  lemma {:induction false} FoldRun(pre: seq<JoinRow>, t: Target, k: nat)
    requires 1 <= k <= |t.types|
    requires Fold(pre) != [] ==> Fold(pre)[|Fold(pre)| - 1].id != t.id
    ensures Fold(pre + RowsUpTo(t, k)) == Fold(pre) + [t.(types := t.types[..k])]
  {
    var r := JoinRow(t.id, t.address, t.types[k - 1]);
    RowsSnoc(pre, t, k);
    FoldAppend(pre + RowsUpTo(t, k - 1), r);
    if k == 1 {
      assert pre + RowsUpTo(t, 0) == pre;
      assert t.types[..1] == [t.types[0]];
    } else {
      FoldRun(pre, t, k - 1);
      assert t.types[..k] == t.types[..k - 1] + [t.types[k - 1]];
      PushSame(Fold(pre), t.(types := t.types[..k - 1]), r);
    }
  }

  lemma RowsSnoc(pre: seq<JoinRow>, t: Target, k: nat)
    requires 1 <= k <= |t.types|
    ensures pre + RowsUpTo(t, k) == pre + RowsUpTo(t, k - 1) + [JoinRow(t.id, t.address, t.types[k - 1])]
  {
  }

  lemma PushSame(out: seq<Target>, t: Target, r: JoinRow)
    requires t.id == r.id
    ensures Push(out + [t], r) == out + [t.(types := t.types + [r.type_])]
  {
  }

  lemma {:induction false} FlattenMembers(out: seq<Target>, r: JoinRow)
    ensures r in Flatten(out) <==> exists t :: t in out && t.id == r.id && t.address == r.address && r.type_ in t.types
  {
    if out != [] {
      var n := |out| - 1;
      FlattenMembers(out[..n], r);
      assert out == out[..n] + [out[n]];
      var t := out[n];
      if t.id == r.id && t.address == r.address && r.type_ in t.types {
        var i :| 0 <= i < |t.types| && t.types[i] == r.type_;
        assert RowsOf(t)[i] == r;
      }
    }
  }

  lemma {:induction false} FlattenSorted(out: seq<Target>)
    requires forall i :: 0 <= i < |out| ==> StrictlyAscending(out[i].types)
    requires forall i, j :: 0 <= i < j < |out| ==> Less(out[i].id, out[j].id)
    ensures StrictlySorted(Flatten(out), RowLess)
  {
    if out != [] {
      var n := |out| - 1;
      FlattenSorted(out[..n]);
      var pre, run := Flatten(out[..n]), RowsOf(out[n]);
      forall i, j | 0 <= i < j < |pre + run| ensures RowLess((pre + run)[i], (pre + run)[j]) {
        if i < |pre| <= j {
          FlattenMembers(out[..n], pre[i]);
          var t :| t in out[..n] && t.id == pre[i].id;
          var k :| 0 <= k < n && out[k] == t;
        }
      }
    }
  }

  /** The fold of the ordered join is the dispatch list, whatever engine produced the rows. */
  lemma FoldOfJoin(db: Tables, rows: seq<JoinRow>)
    requires IsDispatchJoin(db, rows)
    ensures Fold(rows) == Dispatch(db)
  {
    var out := Dispatch(db);
    var flat := Flatten(out);
    forall i | 0 <= i < |out| ensures StrictlyAscending(out[i].types) && out[i].types != [] {
      assert out[i] in out;
      assert Elements(out[i].types) == TypesOf(db, out[i].id);
    }
    FlattenSorted(out);
    forall r ensures r in rows <==> r in flat { JoinMember(db, rows, r); }
    forall x, y | RowLess(x, y) ensures !RowLess(y, x) { RowAsymmetric(x, y); }
    StrictUnique(rows, flat, RowLess);
    forall i | 0 < i < |out| ensures out[i - 1].id != out[i].id { LessIrreflexive(out[i].id); }
    FoldFlatten(out);
  }

  lemma RowAsymmetric(x: JoinRow, y: JoinRow)
    requires RowLess(x, y)
    ensures !RowLess(y, x)
  {
    if Less(x.id, y.id) { LessAsymmetric(x.id, y.id); } else { LessIrreflexive(x.id); LessAsymmetric(x.type_, y.type_); }
  }

  lemma JoinMember(db: Tables, rows: seq<JoinRow>, r: JoinRow)
    requires IsDispatchJoin(db, rows)
    ensures r in rows <==> r in Flatten(Dispatch(db))
  {
    FlattenMembers(Dispatch(db), r);
    if r in rows {
      assert r.type_ in TypesOf(db, r.id) by { assert (r.id, r.type_) in db.types; }
      assert Dispatchable(db, r.id);
      var t := DispatchTarget(db, r.id);
      assert r.type_ in Elements(t.types);
      DispatchComplete(db, r.id);
    }
    if t :| t in Dispatch(db) && t.id == r.id && t.address == r.address && r.type_ in t.types {
      assert r.type_ in Elements(t.types);
    }
  }

  /** The rows of the allowlist query: enabled targets joined with their types. */
  ghost predicate IsAllowJoin(db: Tables, rows: seq<(string, string)>) {
    forall r :: r in rows <==> r in db.types && r.0 in db.targets && db.targets[r.0].enabled
  }

  // ----- The store -----------------------------------------------------------------------

  class Store {
    var targets: map<string, TargetRow>
    var types: set<(string, string)>

    function Db(): Tables
      reads this
    {
      Tables(targets, types)
    }

    constructor ()
      ensures Db() == Tables(map[], {})
    {
      targets, types := map[], {};
    }

    method InsertProbeTypes(id: string, list: seq<string>)
      requires id in targets && TypesOf(Db(), id) == {}
      modifies `types
      ensures types == old(types) + Pairs(id, list)
    {
      var seen: set<string> := {};
      for i := 0 to |list|
        invariant seen == Elements(list[..i])
        invariant types == old(types) + Pairs(id, list[..i])
      {
        var pt := list[i];
        assert list[..i + 1] == list[..i] + [pt];
        if pt in seen {
          continue;
        }
        seen := seen + {pt};
        types := types + {(id, pt)};
      }
      assert list[..|list|] == list;
    }

    method CreateTarget(t: NewTarget) returns (err: Option<StoreError>)
      requires ForeignKey(Db())
      modifies this
      ensures ForeignKey(Db())
      ensures t.id in old(targets) ==> err == Some(Duplicate) && Db() == old(Db())
      ensures t.id !in old(targets) ==> err == None && Db() == Put(old(Db()), t)
    {
      if t.id in targets {
        return Some(Duplicate);
      }
      targets := targets[t.id := t.row];
      assert TypesOf(Db(), t.id) == {};
      assert Without(Db(), t.id) == types;
      InsertProbeTypes(t.id, t.types);
      err := None;
    }

    method UpdateTarget(t: NewTarget) returns (err: Option<StoreError>)
      requires ForeignKey(Db())
      modifies this
      ensures ForeignKey(Db())
      ensures t.id !in old(targets) ==> err == Some(NotFound) && Db() == old(Db())
      ensures t.id in old(targets) ==> err == None && Db() == Put(old(Db()), t)
    {
      if t.id !in targets {
        return Some(NotFound);
      }
      targets := targets[t.id := t.row];
      types := set p | p in types && p.0 != t.id;
      InsertProbeTypes(t.id, t.types);
      err := None;
    }

    method DeleteTarget(id: string) returns (err: Option<StoreError>)
      requires ForeignKey(Db())
      modifies this
      ensures ForeignKey(Db())
      ensures id !in old(targets) ==> err == Some(NotFound) && Db() == old(Db())
      ensures id in old(targets) ==> err == None && Db() == Removed(old(Db()), id)
    {
      if id !in targets {
        return Some(NotFound);
      }
      targets := targets - {id};
      types := set p | p in types && p.0 != id;  // ON DELETE CASCADE
      err := None;
    }

    /** `rows` is what the database answers the query with. */
    method Allowlist(rows: seq<(string, string)>) returns (al: Allowlist)
      requires IsAllowJoin(Db(), rows)
      ensures al == Allowed(Db())
    {
      al := map[];
      for i := 0 to |rows|
        invariant al.Keys == set r | r in rows[..i] :: r.0
        invariant forall id :: id in al ==> al[id] == set r | r in rows[..i] && r.0 == id :: r.1
      {
        var (id, pt) := rows[i];
        assert rows[..i + 1] == rows[..i] + [rows[i]];
        if id !in al {
          al := al[id := {}];
        }
        al := al[id := al[id] + {pt}];
      }
      assert rows[..|rows|] == rows;
      AllowedByRows(Db(), rows, al);
    }

    /** `rows` is what the database answers the query with. */
    method DispatchTargets(rows: seq<JoinRow>) returns (out: seq<Target>)
      requires IsDispatchJoin(Db(), rows)
      ensures out == Dispatch(Db())
    {
      out := FoldRows(rows);
      FoldOfJoin(Db(), rows);
    }
  }

  lemma AllowedByRows(db: Tables, rows: seq<(string, string)>, al: Allowlist)
    requires IsAllowJoin(db, rows)
    requires al.Keys == set r | r in rows :: r.0
    requires forall id :: id in al ==> al[id] == set r | r in rows && r.0 == id :: r.1
    ensures al == Allowed(db)
  {
    forall id | id in al ensures id in Allowed(db) && al[id] == TypesOf(db, id) {
      var r :| r in rows && r.0 == id;
      assert r.1 in TypesOf(db, id);
      forall pt ensures pt in al[id] <==> pt in TypesOf(db, id) {
        assert pt in TypesOf(db, id) <==> (id, pt) in db.types;
        assert (id, pt) in db.types <==> (id, pt) in rows;
      }
    }
    forall id | id in Allowed(db) ensures id in al {
      var pt :| pt in TypesOf(db, id);
      assert (id, pt) in rows;
    }
  }

  /** One entry per target out of one row per (target, type). */
  method FoldRows(rows: seq<JoinRow>) returns (out: seq<Target>)
    ensures out == Fold(rows)
  {
    out := [];
    for i := 0 to |rows|
      invariant out == Fold(rows[..i])
    {
      var r, n := rows[i], |out|;
      assert rows[..i + 1][..i] == rows[..i];
      if n > 0 && out[n - 1].id == r.id {
        out := out[n - 1 := out[n - 1].(types := out[n - 1].types + [r.type_])];
        continue;
      }
      out := out + [Target(r.id, r.address, [r.type_])];
    }
    assert rows[..|rows|] == rows;
  }

  // ----- The administrator's forms -------------------------------------------------------

  datatype TargetForm = TargetForm(
    targetID: string, displayName: string, address: string, description: string,
    enabled: bool, types: seq<string>)

  datatype FormFault = BadType | NoTypes | TooLong | BadTargetID

  datatype FormResult = Parsed(target: NewTarget) | Refused(fault: FormFault)

  predicate ValidTargetID(s: string) {
    1 <= |s| <= 32 && forall c :: c in s ==> 'a' <= c <= 'z' || '0' <= c <= '9' || c == '_'
  }

  function ReadForm(f: TargetForm): FormResult {
    if exists t :: t in f.types && !KnownType(t) then Refused(BadType)
    else if f.types == [] then Refused(NoTypes)
    else
      var name, address, description :=
        Text.TrimSpace(f.displayName), Text.TrimSpace(f.address), Text.TrimSpace(f.description);
      if |name| > 64 || |address| > 256 || |description| > 256 then Refused(TooLong)
      else Parsed(NewTarget(Text.TrimSpace(f.targetID), TargetRow(name, address, description, f.enabled),
                            Ascending(Elements(f.types))))
  }

  /** Keeps the first occurrence of every ticked type, then sorts. */
  method ReadTargetForm(f: TargetForm) returns (r: FormResult)
    ensures r == ReadForm(f)
  {
    var kept: seq<string> := [];
    var seen: set<string> := {};
    for i := 0 to |f.types|
      invariant forall k :: 0 <= k < i ==> KnownType(f.types[k])
      invariant seen == Elements(kept) == Elements(f.types[..i])
      invariant forall k, l :: 0 <= k < l < |kept| ==> kept[k] != kept[l]
    {
      var pt := f.types[i];
      assert f.types[..i + 1] == f.types[..i] + [pt];
      if !KnownType(pt) {
        return Refused(BadType);
      }
      if pt !in seen {
        assert pt !in kept by { assert pt in kept ==> pt in Elements(kept); }
        assert Elements(kept + [pt]) == Elements(kept) + {pt};
        seen := seen + {pt};
        kept := kept + [pt];
      }
    }
    assert f.types[..|f.types|] == f.types;
    assert f.types != [] ==> f.types[0] in Elements(kept);
    assert kept != [] ==> kept[0] in Elements(f.types);
    if |kept| == 0 {
      return Refused(NoTypes);
    }
    var name, address, description :=
      Text.TrimSpace(f.displayName), Text.TrimSpace(f.address), Text.TrimSpace(f.description);
    if |name| > 64 || |address| > 256 || |description| > 256 {
      return Refused(TooLong);
    }
    SortDistinct(kept);
    r := Parsed(NewTarget(Text.TrimSpace(f.targetID), TargetRow(name, address, description, f.enabled),
                          SortBy(kept, Self)));
  }

  /** Submitting an ID that is taken edits that target. */
  function SubmitCreate(db: Tables, f: TargetForm): Tables {
    match ReadForm(f)
    case Parsed(t) => if ValidTargetID(t.id) then Put(db, t) else db
    case Refused(_) => db
  }

  function SubmitUpdate(db: Tables, id: string, f: TargetForm): Tables {
    match ReadForm(f)
    case Parsed(t) => if id in db.targets then Put(db, t.(id := id)) else db
    case Refused(_) => db
  }

  method HandleTargetCreate(store: Store, f: TargetForm) returns (fault: Option<FormFault>)
    requires ForeignKey(store.Db())
    modifies store
    ensures ForeignKey(store.Db())
    ensures store.Db() == SubmitCreate(old(store.Db()), f)
    ensures fault.Some? ==> store.Db() == old(store.Db())
  {
    var r := ReadTargetForm(f);
    if r.Refused? {
      return Some(r.fault);
    }
    if !ValidTargetID(r.target.id) {
      return Some(BadTargetID);
    }
    var err := store.CreateTarget(r.target);
    if err == Some(Duplicate) {
      err := store.UpdateTarget(r.target);
    }
    fault := None;
  }

  method HandleTargetUpdate(store: Store, id: string, f: TargetForm) returns (fault: Option<FormFault>, err: Option<StoreError>)
    requires ForeignKey(store.Db())
    modifies store
    ensures ForeignKey(store.Db())
    ensures store.Db() == SubmitUpdate(old(store.Db()), id, f)
    ensures fault.Some? || err.Some? ==> store.Db() == old(store.Db())
  {
    err := None;
    var r := ReadTargetForm(f);
    if r.Refused? {
      return Some(r.fault), None;
    }
    err := store.UpdateTarget(r.target.(id := id));
    fault := None;
  }

  // ----- What an edit leaves in the tables -----------------------------------------------

  /** What the form must satisfy: known types, at least one, and fields that fit. */
  predicate FormAccepted(f: TargetForm) {
    && f.types != [] && (forall t :: t in f.types ==> KnownType(t))
    && |Text.TrimSpace(f.displayName)| <= 64 && |Text.TrimSpace(f.address)| <= 256 && |Text.TrimSpace(f.description)| <= 256
  }

  lemma ParsedForm(f: TargetForm)
    ensures ReadForm(f).Parsed? <==> FormAccepted(f)
    ensures FormAccepted(f) ==> Elements(ReadForm(f).target.types) == Elements(f.types)
  {
  }

  /** Target `id` is now as the form says, ticked types and nothing else; no other target has changed. */
  ghost predicate HoldsForm(db: Tables, before: Tables, id: string, f: TargetForm) {
    && id in db.targets && TypesOf(db, id) == Elements(f.types)
    && db.targets[id].displayName == Text.TrimSpace(f.displayName) && db.targets[id].address == Text.TrimSpace(f.address)
    && db.targets[id].description == Text.TrimSpace(f.description) && db.targets[id].enabled == f.enabled
    && OthersAlike(db, before, id)
  }

  ghost predicate OthersAlike(db: Tables, before: Tables, id: string) {
    forall k :: k != id ==>
      (k in db.targets <==> k in before.targets) && (k in db.targets ==> db.targets[k] == before.targets[k])
      && TypesOf(db, k) == TypesOf(before, k)
  }

  lemma PutTypes(db: Tables, t: NewTarget, k: string)
    ensures TypesOf(Put(db, t), k) == if k == t.id then Elements(t.types) else TypesOf(db, k)
  {
    var after := Put(db, t);
    forall pt ensures pt in TypesOf(after, k) <==> if k == t.id then pt in Elements(t.types) else pt in TypesOf(db, k) {
      assert pt in TypesOf(after, k) <==> (k, pt) in after.types;
      assert pt in TypesOf(db, k) <==> (k, pt) in db.types;
    }
  }

  lemma PutHolds(db: Tables, f: TargetForm, id: string)
    requires FormAccepted(f)
    ensures HoldsForm(Put(db, ReadForm(f).target.(id := id)), db, id, f)
  {
    ParsedForm(f);
    var t := ReadForm(f).target.(id := id);
    PutTypes(db, t, id);
    forall k | k != id ensures TypesOf(Put(db, t), k) == TypesOf(db, k) { PutTypes(db, t, k); }
  }

  /** Saving an existing target replaces its fields and types by the form's; anything else changes nothing. */
  lemma UpdateLeaves(db: Tables, id: string, f: TargetForm)
    ensures if FormAccepted(f) && id in db.targets then HoldsForm(SubmitUpdate(db, id, f), db, id, f) else SubmitUpdate(db, id, f) == db
  {
    ParsedForm(f);
    if FormAccepted(f) { PutHolds(db, f, id); }
  }

  /** The create form does so for the ID typed in, which must be a valid one. */
  lemma CreateLeaves(db: Tables, f: TargetForm)
    ensures var id := Text.TrimSpace(f.targetID);
            if FormAccepted(f) && ValidTargetID(id) then HoldsForm(SubmitCreate(db, f), db, id, f) else SubmitCreate(db, f) == db
  {
    ParsedForm(f);
    if FormAccepted(f) {
      PutHolds(db, f, Text.TrimSpace(f.targetID));
      var t := ReadForm(f).target;
      assert t.(id := t.id) == t;
    }
  }

  /** Deleting takes the row and its types, and touches no other target. */
  lemma DeleteLeaves(db: Tables, id: string)
    ensures var after := Removed(db, id); id !in after.targets && TypesOf(after, id) == {} && OthersAlike(after, db, id)
  {
    var after := Removed(db, id);
    forall k, pt | k != id ensures pt in TypesOf(after, k) <==> pt in TypesOf(db, k) {
      assert pt in TypesOf(after, k) <==> (k, pt) in after.types;
      assert pt in TypesOf(db, k) <==> (k, pt) in db.types;
    }
  }

  predicate PairAllowed(db: Tables, id: string, pt: string) { id in Allowed(db) && pt in Allowed(db)[id] }

  predicate PairDispatched(db: Tables, id: string, address: string, pt: string) {
    exists t :: t in Dispatch(db) && t.id == id && t.address == address && pt in t.types
  }

  /** A pair may be reported exactly when the target is enabled and has the type. */
  lemma AllowedIff(db: Tables, id: string, pt: string)
    ensures PairAllowed(db, id, pt) <==> id in db.targets && db.targets[id].enabled && pt in TypesOf(db, id)
  {
  }

  /** It is served exactly when the target moreover has an address, and with that address. */
  lemma DispatchedIff(db: Tables, id: string, address: string, pt: string)
    ensures PairDispatched(db, id, address, pt) <==>
              && id in db.targets && db.targets[id].enabled && pt in TypesOf(db, id)
              && address == db.targets[id].address && NonBlank(address)
  {
    if t :| t in Dispatch(db) && t.id == id && t.address == address && pt in t.types {
      assert pt in Elements(t.types);
    }
    if Dispatchable(db, id) && pt in TypesOf(db, id) {
      DispatchComplete(db, id);
      assert pt in Elements(DispatchTarget(db, id).types);
    }
  }

  /** A type that was not ticked is neither allowed nor served afterwards. */
  lemma UntickedIsGone(db: Tables, id: string, f: TargetForm, address: string, pt: string)
    requires FormAccepted(f) && id in db.targets && pt !in f.types
    ensures !PairAllowed(SubmitUpdate(db, id, f), id, pt) && !PairDispatched(SubmitUpdate(db, id, f), id, address, pt)
  {
    UpdateLeaves(db, id, f);
    AllowedIff(SubmitUpdate(db, id, f), id, pt);
    DispatchedIff(SubmitUpdate(db, id, f), id, address, pt);
  }

  // ----- What every edit keeps -----------------------------------------------------------

  predicate TablesInv(db: Tables) { ForeignKey(db) && KnownTypesOnly(db) }

  lemma FormTypesKnown(f: TargetForm)
    requires ReadForm(f).Parsed?
    ensures forall t :: t in ReadForm(f).target.types ==> KnownType(t)
  {
    forall t | t in ReadForm(f).target.types ensures KnownType(t) {
      assert t in Elements(Ascending(Elements(f.types)));
    }
  }

  lemma EditsKeepTables(db: Tables, id: string, f: TargetForm)
    requires TablesInv(db)
    ensures TablesInv(SubmitCreate(db, f)) && TablesInv(SubmitUpdate(db, id, f)) && TablesInv(Removed(db, id))
  {
    if ReadForm(f).Parsed? { FormTypesKnown(f); }
  }
}
