/** Feature flags: the table, single lookups, the batch evaluator and its two queries, and flag writes. */
module Flags {
  import opened Wrappers

  datatype Kind = Global | Merchant | User

  datatype Scope = Scope(kind: Kind, id: Option<Uuid>)

  datatype Key = Key(name: string)

  datatype Text = Text(chars: string)

  datatype Flag = Flag(key: Key, scope: Scope, enabled: bool, description: Option<Text>)

  const EVERYWHERE := Scope(Global, None)

  /** The unique index on key, scope type and coalesced scope id. */
  ghost predicate Unique(rows: seq<Flag>) {
    forall i, j :: 0 <= i < j < |rows| ==> rows[i].key != rows[j].key || rows[i].scope != rows[j].scope
  }

  /** The position of a row, or the length of the table when there is none. */
  function Find(rows: seq<Flag>, key: Key, scope: Scope): (i: nat)
    ensures i <= |rows|
    ensures i < |rows| ==> rows[i].key == key && rows[i].scope == scope
    ensures forall j :: 0 <= j < i ==> rows[j].key != key || rows[j].scope != scope
  {
    if rows == [] then 0
    else if rows[0].key == key && rows[0].scope == scope then 0
    else 1 + Find(rows[1..], key, scope)
  }

  /** `scope_id == None` is rendered as IS NULL, so a missing id only matches a missing id. */
  function Get(rows: seq<Flag>, key: Key, scope: Scope): Option<Flag> {
    var i := Find(rows, key, scope);
    if i < |rows| then Some(rows[i]) else None
  }

  lemma GetIsTheRow(rows: seq<Flag>, key: Key, scope: Scope)
    ensures Get(rows, key, scope).Some? <==> exists f :: f in rows && f.key == key && f.scope == scope
    ensures Unique(rows) ==>
      forall f :: f in rows && f.key == key && f.scope == scope ==> Get(rows, key, scope) == Some(f)
  {
  }

  /** Scoped row, then the global row, then enabled. */
  function IsEnabled(rows: seq<Flag>, key: Key, scope: Scope): bool {
    if scope.kind != Global && scope.id.Some? && Get(rows, key, scope).Some? then Get(rows, key, scope).value.enabled
    else if Get(rows, key, EVERYWHERE).Some? then Get(rows, key, EVERYWHERE).value.enabled
    else true
  }

  /** The scope is a user's or a merchant's, and this is its own row. */
  predicate IsOwn(f: Flag, key: Key, scope: Scope) {
    f.key == key && f.scope == scope && (scope.kind == User || scope.kind == Merchant) && scope.id.Some?
  }

  predicate IsForAll(f: Flag, key: Key) {
    f.key == key && f.scope == Scope(Global, None)
  }

  /** A single lookup, by the rows: the scope's own row decides, then the global row without an id, then it is on. */
  lemma LookupDecides(rows: seq<Flag>, key: Key, scope: Scope)
    requires Unique(rows)
    ensures forall f :: f in rows && IsOwn(f, key, scope) ==> IsEnabled(rows, key, scope) == f.enabled
    ensures (forall f :: f in rows ==> !IsOwn(f, key, scope)) ==>
      forall g :: g in rows && IsForAll(g, key) ==> IsEnabled(rows, key, scope) == g.enabled
    ensures (forall f :: f in rows ==> !IsOwn(f, key, scope) && !IsForAll(f, key)) ==> IsEnabled(rows, key, scope)
  {
    GetIsTheRow(rows, key, scope);
    GetIsTheRow(rows, key, EVERYWHERE);
    if Get(rows, key, scope).Some? {
      assert Get(rows, key, scope).value in rows;
    }
    if Get(rows, key, EVERYWHERE).Some? {
      assert Get(rows, key, EVERYWHERE).value in rows;
    }
  }

  // ----- the batch query

  /** `documented` adds the condition that the docstring promises and that the query lacks. */
  predicate Selected(f: Flag, key: Key, scopes: seq<Scope>, documented: bool) {
    f.key == key && (f.scope in scopes || (documented && f.scope == EVERYWHERE))
  }

  /** The rows the query returns, of those before position `n`. */
  function Fetch(rows: seq<Flag>, n: nat, key: Key, scopes: seq<Scope>, documented: bool): (fs: seq<Flag>)
    requires n <= |rows|
    ensures forall f :: f in fs <==> f in rows[..n] && Selected(f, key, scopes, documented)
  {
    if n == 0 then []
    else
      assert rows[..n] == rows[..n - 1] + [rows[n - 1]];
      Fetch(rows, n - 1, key, scopes, documented)
      + if Selected(rows[n - 1], key, scopes, documented) then [rows[n - 1]] else []
  }

  function GetMultiple(rows: seq<Flag>, key: Key, scopes: seq<Scope>, documented: bool): (fs: seq<Flag>)
    ensures forall f :: f in fs ==> f in rows && Selected(f, key, scopes, documented)
    ensures scopes != [] ==> forall f :: f in rows && Selected(f, key, scopes, documented) ==> f in fs
  {
    assert rows[..|rows|] == rows;
    if scopes == [] then [] else Fetch(rows, |rows|, key, scopes, documented)
  }

  // ----- the batch evaluator

  /** The last global row among the first `n` fetched ones. */
  function LastGlobal(fs: seq<Flag>, n: nat): (g: Option<Flag>)
    requires n <= |fs|
    ensures g.Some? ==> g.value in fs && g.value.scope.kind == Global
    ensures g.None? ==> forall i :: 0 <= i < n ==> fs[i].scope.kind != Global
  {
    if n == 0 then None
    else if fs[n - 1].scope.kind == Global then Some(fs[n - 1])
    else LastGlobal(fs, n - 1)
  }

  /** The last row of each other scope among the first `n` fetched ones. */
  function ByScope(fs: seq<Flag>, n: nat): (m: map<Scope, Flag>)
    requires n <= |fs|
    ensures forall sc :: sc in m ==> m[sc] in fs && m[sc].scope == sc && sc.kind != Global
    ensures forall i :: 0 <= i < n && fs[i].scope.kind != Global ==> fs[i].scope in m
  {
    if n == 0 then map[]
    else if fs[n - 1].scope.kind == Global then ByScope(fs, n - 1)
    else ByScope(fs, n - 1)[fs[n - 1].scope := fs[n - 1]]
  }

  function Resolve(fs: seq<Flag>, scope: Scope): bool {
    if scope in ByScope(fs, |fs|) then ByScope(fs, |fs|)[scope].enabled
    else if LastGlobal(fs, |fs|).Some? then LastGlobal(fs, |fs|).value.enabled
    else true
  }

  method EvaluateScopes(rows: seq<Flag>, key: Key, scopes: seq<Scope>) returns (results: map<Scope, bool>)
    ensures forall sc :: sc in results <==> sc in scopes
    ensures forall sc :: sc in scopes ==> results[sc] == Resolve(GetMultiple(rows, key, scopes, false), sc)
  {
    results := map[];
    if scopes == [] {
      return;
    }
    var flags := GetMultiple(rows, key, scopes, false);
    var globalFlag: Option<Flag> := None;
    var scopedFlags: map<Scope, Flag> := map[];
    for i := 0 to |flags|
      invariant globalFlag == LastGlobal(flags, i)
      invariant scopedFlags == ByScope(flags, i)
    {
      if flags[i].scope.kind == Global {
        globalFlag := Some(flags[i]);
      } else {
        scopedFlags := scopedFlags[flags[i].scope := flags[i]];
      }
    }
    for i := 0 to |scopes|
      invariant forall sc :: sc in results <==> sc in scopes[..i]
      invariant forall sc :: sc in scopes[..i] ==> results[sc] == Resolve(flags, sc)
    {
      assert scopes[..i + 1] == scopes[..i] + [scopes[i]];
      if scopes[i] in scopedFlags {
        results := results[scopes[i] := scopedFlags[scopes[i]].enabled];
        continue;
      }
      if globalFlag.Some? {
        results := results[scopes[i] := globalFlag.value.enabled];
        continue;
      }
      results := results[scopes[i] := true];
    }
    assert scopes[..|scopes|] == scopes;
  }

  // ----- batch against single lookups

  /** A scope the dispatcher asks about: not global, and with an id. */
  predicate Specific(scope: Scope) {
    scope.kind != Global && scope.id.Some?
  }

  lemma BatchResolves(rows: seq<Flag>, key: Key, scopes: seq<Scope>, documented: bool, scope: Scope)
    requires Unique(rows) && scope in scopes && forall sc :: sc in scopes ==> Specific(sc)
    ensures Resolve(GetMultiple(rows, key, scopes, documented), scope)
         == if Get(rows, key, scope).Some? then Get(rows, key, scope).value.enabled
            else if documented && Get(rows, key, EVERYWHERE).Some? then Get(rows, key, EVERYWHERE).value.enabled
            else true
  {
    var fs := GetMultiple(rows, key, scopes, documented);
    GetIsTheRow(rows, key, scope);
    GetIsTheRow(rows, key, EVERYWHERE);
    if Get(rows, key, scope).Some? {
      var f := Get(rows, key, scope).value;
      assert f in fs;
      var i :| 0 <= i < |fs| && fs[i] == f;
      assert fs[i].scope in ByScope(fs, |fs|);
    } else if documented && Get(rows, key, EVERYWHERE).Some? {
      var f := Get(rows, key, EVERYWHERE).value;
      assert f in fs;
      var i :| 0 <= i < |fs| && fs[i] == f;
      assert fs[i].scope.kind == Global;
    }
  }

  /** Over the query its docstring describes, the batch evaluator agrees with single lookups. */
  lemma DocumentedBatchAgrees(rows: seq<Flag>, key: Key, scopes: seq<Scope>, scope: Scope)
    requires Unique(rows) && scope in scopes && forall sc :: sc in scopes ==> Specific(sc)
    ensures Resolve(GetMultiple(rows, key, scopes, true), scope) == IsEnabled(rows, key, scope)
  {
    BatchResolves(rows, key, scopes, true, scope);
  }

  /**
   * Over the query as written, which never selects the global row, they agree on all requested scopes
   * exactly when there is no global row, or it is enabled, or every requested scope has a row of its own.
   */
  lemma WrittenBatchAgreesIff(rows: seq<Flag>, key: Key, scopes: seq<Scope>)
    requires Unique(rows) && forall sc :: sc in scopes ==> Specific(sc)
    ensures (forall sc :: sc in scopes ==>
               Resolve(GetMultiple(rows, key, scopes, false), sc) == IsEnabled(rows, key, sc))
       <==> (|| Get(rows, key, EVERYWHERE).None?
             || Get(rows, key, EVERYWHERE).value.enabled
             || forall sc :: sc in scopes ==> Get(rows, key, sc).Some?)
  {
    forall sc | sc in scopes
      ensures Resolve(GetMultiple(rows, key, scopes, false), sc) == IsEnabled(rows, key, sc)
         <==> (|| Get(rows, key, EVERYWHERE).None?
               || Get(rows, key, EVERYWHERE).value.enabled
               || Get(rows, key, sc).Some?)
    {
      BatchResolves(rows, key, scopes, false, sc);
    }
  }

  // ----- writes

  datatype Write = Write(key: Key, scope: Scope, enabled: bool, description: Option<Text>)

  datatype Error = ScopeIdRequired

  predicate Valid(w: Write) {
    w.scope.kind == Global || w.scope.id.Some?
  }

  /** The row after a write: a missing description leaves the old one. */
  function Written(before: Option<Flag>, w: Write): Flag {
    Flag(w.key, w.scope, w.enabled,
         if w.description.None? && before.Some? then before.value.description else w.description)
  }

  function Set(rows: seq<Flag>, w: Write): seq<Flag> {
    var i := Find(rows, w.key, w.scope);
    if i < |rows| then rows[i := Written(Some(rows[i]), w)] else rows + [Written(None, w)]
  }

  lemma SetKeepsUnique(rows: seq<Flag>, w: Write)
    requires Unique(rows)
    ensures Unique(Set(rows, w))
  {
  }

  lemma FirstIsFind(rows: seq<Flag>, key: Key, scope: Scope, i: nat)
    requires i <= |rows| && (i < |rows| ==> rows[i].key == key && rows[i].scope == scope)
    requires forall j :: 0 <= j < i ==> rows[j].key != key || rows[j].scope != scope
    ensures Find(rows, key, scope) == i
  {
  }

  /** A write changes its own row and no other. */
  lemma SetGets(rows: seq<Flag>, w: Write, key: Key, scope: Scope)
    ensures Get(Set(rows, w), key, scope)
         == if key == w.key && scope == w.scope then Some(Written(Get(rows, key, scope), w)) else Get(rows, key, scope)
  {
    var i := Find(rows, w.key, w.scope);
    var k := Find(rows, key, scope);
    if key == w.key && scope == w.scope {
      FirstIsFind(Set(rows, w), key, scope, i);
    } else if k < |rows| {
      FirstIsFind(Set(rows, w), key, scope, k);
    } else {
      FirstIsFind(Set(rows, w), key, scope, |Set(rows, w)|);
    }
  }

  /**
   * A write stores the row it names with the value it gives. A description that it does not give stays what it
   * was. Every other row stays, and a row is added only when there was none.
   */
  lemma WriteStores(rows: seq<Flag>, w: Write, f: Flag)
    requires Unique(rows)
    ensures f in Set(rows, w)
       <==> if f.key == w.key && f.scope == w.scope then
              && f.enabled == w.enabled
              && (w.description.Some? ==> f.description == w.description)
              && (w.description.None? ==>
                    && (forall g :: g in rows && g.key == w.key && g.scope == w.scope ==>
                          f.description == g.description)
                    && ((forall g :: g in rows ==> g.key != w.key || g.scope != w.scope) ==> f.description == None))
            else f in rows
  {
    var i := Find(rows, w.key, w.scope);
    SetKeepsUnique(rows, w);
    SetGets(rows, w, w.key, w.scope);
    GetIsTheRow(rows, w.key, w.scope);
    GetIsTheRow(Set(rows, w), w.key, w.scope);
    if f in rows && !(f.key == w.key && f.scope == w.scope) {
      var j :| 0 <= j < |rows| && rows[j] == f;
      assert Set(rows, w)[j] == f;
    }
  }

  /**
   * What a write does to resolution: at its own scope the written value; for the global row without an id,
   * also wherever no row of its own decides; elsewhere nothing.
   */
  lemma WriteFrames(rows: seq<Flag>, w: Write, key: Key, scope: Scope)
    ensures IsEnabled(Set(rows, w), key, scope)
         == if key != w.key then IsEnabled(rows, key, scope)
            else if Specific(scope) && scope == w.scope then w.enabled
            else if w.scope == EVERYWHERE && !(Specific(scope) && Get(rows, key, scope).Some?) then w.enabled
            else IsEnabled(rows, key, scope)
  {
    SetGets(rows, w, key, scope);
    SetGets(rows, w, key, EVERYWHERE);
  }

  /** Writes to different rows can be made in either order. */
  lemma WritesCommute(rows: seq<Flag>, v: Write, w: Write, key: Key, scope: Scope)
    requires v.key != w.key || v.scope != w.scope
    ensures Get(Set(Set(rows, v), w), key, scope) == Get(Set(Set(rows, w), v), key, scope)
    ensures IsEnabled(Set(Set(rows, v), w), key, scope) == IsEnabled(Set(Set(rows, w), v), key, scope)
  {
    forall sc
      ensures Get(Set(Set(rows, v), w), key, sc) == Get(Set(Set(rows, w), v), key, sc)
    {
      SetGets(rows, v, key, sc);
      SetGets(rows, w, key, sc);
      SetGets(Set(rows, v), w, key, sc);
      SetGets(Set(rows, w), v, key, sc);
    }
  }

  /** The table after the first `n` writes. */
  function SetAll(rows: seq<Flag>, ws: seq<Write>, n: nat): seq<Flag>
    requires n <= |ws|
  {
    if n == 0 then rows else Set(SetAll(rows, ws, n - 1), ws[n - 1])
  }

  /** The last of the first `n` writes to a row, or `n` when there is none. */
  function LastWrite(ws: seq<Write>, n: nat, key: Key, scope: Scope): (i: nat)
    requires n <= |ws|
    ensures i <= n
    ensures i < n ==> ws[i].key == key && ws[i].scope == scope
    ensures forall j :: 0 <= j < n && (i == n || i < j) ==> ws[j].key != key || ws[j].scope != scope
  {
    if n == 0 then 0
    else if ws[n - 1].key == key && ws[n - 1].scope == scope then n - 1
    else
      var i := LastWrite(ws, n - 1, key, scope);
      if i == n - 1 then n else i
  }

  /** Rows stay unique, and each row holds the last value written to it. */
  lemma {:induction false} LastWriteWins(rows: seq<Flag>, ws: seq<Write>, n: nat, key: Key, scope: Scope)
    requires n <= |ws|
    ensures Unique(rows) ==> Unique(SetAll(rows, ws, n))
    ensures var i, f := LastWrite(ws, n, key, scope), Get(SetAll(rows, ws, n), key, scope);
            if i == n then f == Get(rows, key, scope) else f.Some? && f.value.enabled == ws[i].enabled
  {
    if n == 0 {
    } else {
      LastWriteWins(rows, ws, n - 1, key, scope);
      SetGets(SetAll(rows, ws, n - 1), ws[n - 1], key, scope);
      if Unique(rows) {
        SetKeepsUnique(SetAll(rows, ws, n - 1), ws[n - 1]);
      }
    }
  }

  /** One disabled global row, and the batch evaluator still answers enabled for any user or merchant. */
  lemma DisabledEverywhereIsMissed(key: Key, scope: Scope, description: Option<Text>)
    requires Specific(scope)
    ensures var w := Write(key, EVERYWHERE, false, description);
            var rows := Set([], w);
            && Valid(w) && Unique(rows)
            && !IsEnabled(rows, key, scope) && Resolve(GetMultiple(rows, key, [scope], false), scope)
  {
    var w := Write(key, EVERYWHERE, false, description);
    SetKeepsUnique([], w);
    SetGets([], w, key, scope);
    SetGets([], w, key, EVERYWHERE);
    assert [scope][0] == scope;
    BatchResolves(Set([], w), key, [scope], false, scope);
  }

  // ----- the service

  class FlagStore {
    var rows: seq<Flag>

    constructor ()
      ensures rows == [] && Unique(rows)
    {
      rows := [];
    }

    method SetFlag(w: Write) returns (r: Result<Flag, Error>)
      modifies this
      ensures r.Err? <==> w.scope.kind != Global && w.scope.id == None
      ensures r.Ok? <==> Valid(w)
      ensures r.Err? ==> rows == old(rows)
      ensures r.Ok? ==> rows == Set(old(rows), w) && Get(rows, w.key, w.scope) == Some(r.value)
      ensures old(Unique(rows)) ==> Unique(rows)
    {
      if Unique(rows) {
        SetKeepsUnique(rows, w);
      }
      SetGets(rows, w, w.key, w.scope);
      if w.scope.kind != Global && w.scope.id.None? {
        return Err(ScopeIdRequired);
      }
      var i := Find(rows, w.key, w.scope);
      if i < |rows| {
        var existing := rows[i].(enabled := w.enabled);
        if w.description.Some? {
          existing := existing.(description := w.description);
        }
        rows := rows[i := existing];
        return Ok(existing);
      } else {
        var flag := Flag(w.key, w.scope, w.enabled, w.description);
        rows := rows + [flag];
        return Ok(flag);
      }
    }
  }
}
