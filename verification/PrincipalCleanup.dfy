// The owned-probe cleanup: one procedural block that removes a synthetic profile
// and everything it owns, inside the caller's serializable transaction.
//
// Rows are keyed by primary key. A column that a row does not list is NULL.
module PrincipalCleanup {
  import opened Prelude

  type Id = string

  datatype Value = Null | Text(text: string)

  type Row = map<string, Value>

  type Rows = map<Id, Row>

  datatype Table = Profiles | AuthSessions | AuditLogs | RateLimitBuckets | Other(name: string)

  type Database = map<Table, Rows>

  datatype ForeignKey = ForeignKey(source: Table, columns: seq<string>, target: Table, targetColumns: seq<string>)

  datatype Owned = Owned(profileId: Id, sessionId: Id, tokenHash: string, bucketKey: Id)

  function Column(row: Row, name: string): Value { if name in row then row[name] else Null }

  function RowsOf(db: Database, t: Table): Rows { if t in db then db[t] else map[] }

  function KeyColumn(t: Table): string { if t == RateLimitBuckets then "key" else "id" }

  // Every row carries its own primary key.
  predicate Keyed(db: Database) {
    forall t, id :: t in db && id in db[t] ==> Column(db[t][id], KeyColumn(t)) == Text(id)
  }

  // ---- Referential integrity, for single-column and composite keys ----

  predicate Refers(key: ForeignKey, row: Row, target: Row) {
    && |key.columns| == |key.targetColumns|
    && forall i :: 0 <= i < |key.columns| ==>
         Column(row, key.columns[i]) != Null && Column(row, key.columns[i]) == Column(target, key.targetColumns[i])
  }

  predicate Satisfied(db: Database, key: ForeignKey, row: Row) {
    || (exists i :: 0 <= i < |key.columns| && Column(row, key.columns[i]) == Null)
    || (exists id :: id in RowsOf(db, key.target) && Refers(key, row, RowsOf(db, key.target)[id]))
  }

  predicate Intact(db: Database, keys: seq<ForeignKey>) {
    forall key, id :: key in keys && id in RowsOf(db, key.source) ==> Satisfied(db, key, RowsOf(db, key.source)[id])
  }

  predicate Unreferenced(db: Database, keys: seq<ForeignKey>, t: Table, id: Id) {
    id in RowsOf(db, t) ==>
      forall key, other :: key in keys && key.target == t && other in RowsOf(db, key.source) ==>
        !Refers(key, RowsOf(db, key.source)[other], RowsOf(db, t)[id])
  }

  // ---- What the probe owns ----

  predicate IsDenialAudit(row: Row, o: Owned) {
    && Column(row, "actor_profile_id") == Text(o.profileId)
    && Column(row, "action") == Text("AUTHORIZATION_DENIED")
    && Column(row, "entity_type") == Text("PLATFORM_BILLING")
    && Column(row, "outcome") == Text("DENIED")
  }

  predicate IsProbeSession(id: Id, row: Row, o: Owned) {
    && id == o.sessionId
    && Column(row, "profile_id") == Text(o.profileId)
    && Column(row, "token_hash") == Text(o.tokenHash)
  }

  predicate IsProbeBucket(id: Id, row: Row, o: Owned) {
    id == o.bucketKey && Column(row, "scope") == Text("platform-billing-api")
  }

  predicate IsProbeProfile(row: Row, o: Owned) {
    && Column(row, "email") == Text("preview-principal-" + o.profileId + "@stallorder.invalid")
    && Column(row, "auth_user_id") == Null
  }

  // The rows that must be gone: the profile, its sessions and the probe's session id,
  // its audit rows, and its rate-limit bucket.
  predicate Belongs(t: Table, id: Id, row: Row, o: Owned) {
    match t
    case Profiles => id == o.profileId
    case AuthSessions => Column(row, "profile_id") == Text(o.profileId) || id == o.sessionId
    case AuditLogs => Column(row, "actor_profile_id") == Text(o.profileId)
    case RateLimitBuckets => id == o.bucketKey
    case Other(_) => false
  }

  predicate NothingLeft(db: Database, o: Owned) {
    forall t, id :: t in db && id in db[t] ==> !Belongs(t, id, db[t][id], o)
  }

  function Without(db: Database, o: Owned): Database {
    map t | t in db :: map id | id in db[t] && !Belongs(t, id, db[t][id], o) :: db[t][id]
  }

  // A row that belongs to the probe also looks exactly as the probe wrote it.
  predicate AsWritten(t: Table, id: Id, row: Row, o: Owned) {
    match t
    case Profiles => IsProbeProfile(row, o)
    case AuthSessions => IsProbeSession(id, row, o)
    case AuditLogs => IsDenialAudit(row, o)
    case RateLimitBuckets => IsProbeBucket(id, row, o)
    case Other(_) => false
  }

  predicate Supported(key: ForeignKey) {
    && (key.target in {Profiles, AuthSessions} ==> |key.columns| == 1 && key.targetColumns != [] && key.targetColumns[0] == "id")
    && key.target !in {AuditLogs, RateLimitBuckets}
  }

  // Does the row point at an id through the first column of the key?
  predicate PointsAt(key: ForeignKey, row: Row, id: Id) {
    key.columns != [] && Column(row, key.columns[0]) == Text(id)
  }

  predicate NoReference(db: Database, keys: seq<ForeignKey>, t: Table, id: Id) {
    forall key, other :: key in keys && key.target == t && other in RowsOf(db, key.source) ==>
      !PointsAt(key, RowsOf(db, key.source)[other], id)
  }

  // Exactly when the cleanup goes through.
  predicate Cleanable(db: Database, keys: seq<ForeignKey>, o: Owned) {
    if o.profileId in RowsOf(db, Profiles) then
      && (forall t, id :: t in db && id in db[t] && Belongs(t, id, db[t][id], o) ==> AsWritten(t, id, db[t][id], o))
      && Supports(keys)
      && NoReference(db, keys, AuthSessions, o.sessionId)
      && (forall key, id :: key in keys && key.target == Profiles && id in RowsOf(db, key.source) &&
                            PointsAt(key, RowsOf(db, key.source)[id], o.profileId) ==>
            key.source != Profiles && Belongs(key.source, id, RowsOf(db, key.source)[id], o))
    else
      NothingLeft(db, o)
  }

  // A foreign-key entry lists as many target columns as source columns, as the catalogue guarantees.
  predicate Aligned(keys: seq<ForeignKey>) {
    forall key :: key in keys ==> |key.columns| == |key.targetColumns| && key.columns != []
  }

  // A row that survives refers to rows that survive.
  lemma SurvivorsReferToSurvivors(db: Database, keys: seq<ForeignKey>, o: Owned, key: ForeignKey, id: Id, target: Id)
    requires Keyed(db) && Aligned(keys) && Cleanable(db, keys, o) && key in keys
    requires id in RowsOf(db, key.source) && !Belongs(key.source, id, RowsOf(db, key.source)[id], o)
    requires target in RowsOf(db, key.target) && Refers(key, RowsOf(db, key.source)[id], RowsOf(db, key.target)[target])
    ensures !Belongs(key.target, target, RowsOf(db, key.target)[target], o)
  {
    assert Column(RowsOf(db, key.source)[id], key.columns[0]) == Column(RowsOf(db, key.target)[target], key.targetColumns[0]);
    hide Refers, IsDenialAudit, IsProbeBucket, IsProbeProfile;
  }

  lemma WithoutIsSmaller(db: Database, o: Owned, t: Table, id: Id)
    ensures id in RowsOf(Without(db, o), t) <==> id in RowsOf(db, t) && !Belongs(t, id, RowsOf(db, t)[id], o)
    ensures id in RowsOf(Without(db, o), t) ==> RowsOf(Without(db, o), t)[id] == RowsOf(db, t)[id]
  {
    hide Belongs;
  }

  /** Nothing that survives the cleanup is left pointing at a removed row. */
  lemma CleanupKeepsReferences(db: Database, keys: seq<ForeignKey>, o: Owned)
    requires Keyed(db) && Aligned(keys) && Intact(db, keys) && Cleanable(db, keys, o)
    ensures Intact(Without(db, o), keys)
  {
    hide Belongs, Cleanable, Keyed, Refers, Column, Without;
    var after := Without(db, o);
    forall key, id | key in keys && id in RowsOf(after, key.source)
      ensures Satisfied(after, key, RowsOf(after, key.source)[id])
    {
      WithoutIsSmaller(db, o, key.source, id);
      var row := RowsOf(db, key.source)[id];
      assert Satisfied(db, key, row);
      if target :| target in RowsOf(db, key.target) && Refers(key, row, RowsOf(db, key.target)[target]) {
        SurvivorsReferToSurvivors(db, keys, o, key, id, target);
        WithoutIsSmaller(db, o, key.target, target);
      }
    }
  }

  /** The owned rows are gone, every other row is as before, and a second run finds
      nothing to do. */
  lemma CleanupIsComplete(db: Database, keys: seq<ForeignKey>, o: Owned)
    requires Cleanable(db, keys, o)
    ensures NothingLeft(Without(db, o), o)
    ensures forall t, id :: t in db && id in db[t] && !Belongs(t, id, db[t][id], o) ==>
              id in Without(db, o)[t] && Without(db, o)[t][id] == db[t][id]
    ensures forall t, id :: t in Without(db, o) && id in Without(db, o)[t] ==> t in db && id in db[t]
    ensures Cleanable(Without(db, o), keys, o) && Without(Without(db, o), o) == Without(db, o)
  {
    var after := Without(db, o);
    forall t | t in after ensures Without(after, o)[t] == after[t] { }
  }

  // The database once the owned audit rows, bucket and session are deleted.
  function Purged(db: Database, o: Owned): Database {
    var db1 := Deleted(db, AuditLogs, OwnedIds(db, AuditLogs, o));
    var db2 := Deleted(db1, RateLimitBuckets, OwnedIds(db, RateLimitBuckets, o));
    Deleted(db2, AuthSessions, OwnedIds(db, AuthSessions, o))
  }

  predicate Supports(keys: seq<ForeignKey>) { forall key :: key in keys ==> Supported(key) }

  // DELETE FROM t WHERE id in doomed
  function Deleted(db: Database, t: Table, doomed: set<Id>): Database {
    if t in db then db[t := db[t] - doomed] else db
  }

  // The rows of one table that the block's WHERE clauses select.
  function OwnedIds(db: Database, t: Table, o: Owned): set<Id> {
    set id | id in RowsOf(db, t) && AsWritten(t, id, RowsOf(db, t)[id], o)
  }

  // Deleting from one table changes neither the checks made so far nor what the probe
  // owns in the others.
  lemma DeleteKeepsChecks(db: Database, t: Table, doomed: set<Id>, keys: seq<ForeignKey>, o: Owned)
    requires Keyed(db) && NoReference(db, keys, AuthSessions, o.sessionId)
    ensures Keyed(Deleted(db, t, doomed)) && NoReference(Deleted(db, t, doomed), keys, AuthSessions, o.sessionId)
    ensures forall u :: u != t ==> OwnedIds(Deleted(db, t, doomed), u, o) == OwnedIds(db, u, o)
  {
    var after := Deleted(db, t, doomed);
    forall key, other | key in keys && key.target == AuthSessions && other in RowsOf(after, key.source)
      ensures !PointsAt(key, RowsOf(after, key.source)[other], o.sessionId)
    {
      assert RowsOf(after, key.source)[other] == RowsOf(db, key.source)[other];
    }
    forall u | u != t ensures OwnedIds(after, u, o) == OwnedIds(db, u, o) {
      assert RowsOf(after, u) == RowsOf(db, u);
    }
  }

  lemma PurgedRows(db: Database, o: Owned)
    ensures Purged(db, o).Keys == db.Keys
    ensures forall t :: t in db ==>
              Purged(db, o)[t] == if t.Profiles? || t.Other? then db[t] else db[t] - OwnedIds(db, t, o)
  {
  }

  // The profile goes last.
  function Emptied(db: Database, o: Owned): Database
    requires Profiles in db
  {
    var purged := Purged(db, o);
    purged[Profiles := purged[Profiles] - {o.profileId}]
  }

  // The deletes touch no rate-limit bucket but the probe's.
  lemma ForeignBucketsKept(db: Database, o: Owned)
    requires Profiles in db
    ensures RowsOf(Emptied(db, o), RateLimitBuckets) - {o.bucketKey} == RowsOf(db, RateLimitBuckets) - {o.bucketKey}
  {
    PurgedRows(db, o);
    assert OwnedIds(db, RateLimitBuckets, o) <= {o.bucketKey};
  }

  lemma OwnedIdsAreTheBelongings(db: Database, t: Table, o: Owned)
    requires t in db && t != Profiles
    requires forall id :: id in db[t] && Belongs(t, id, db[t][id], o) ==> AsWritten(t, id, db[t][id], o)
    ensures Without(db, o)[t] == db[t] - OwnedIds(db, t, o)
  {
    assert forall id :: id in db[t] && AsWritten(t, id, db[t][id], o) ==> Belongs(t, id, db[t][id], o);
  }

  lemma EmptiedIsWithout(db: Database, o: Owned)
    requires o.profileId in RowsOf(db, Profiles)
    requires forall t, id :: t in db && id in db[t] && Belongs(t, id, db[t][id], o) ==> AsWritten(t, id, db[t][id], o)
    ensures Emptied(db, o) == Without(db, o)
  {
    PurgedRows(db, o);
    forall t | t in db ensures Emptied(db, o)[t] == Without(db, o)[t] {
      if t != Profiles { OwnedIdsAreTheBelongings(db, t, o); }
      if t.Other? { assert OwnedIds(db, t, o) == {}; }
    }
  }

  // The checks that the block makes after its first deletes hold of a cleanable database ...
  lemma CleanablePassesLateChecks(db: Database, keys: seq<ForeignKey>, o: Owned)
    requires o.profileId in RowsOf(db, Profiles) && Cleanable(db, keys, o)
    ensures NoReference(Purged(db, o), keys, Profiles, o.profileId)
    ensures Emptied(db, o) == Without(db, o) && NothingLeft(Without(db, o), o)
  {
    var purged := Purged(db, o);
    PurgedRows(db, o);
    EmptiedIsWithout(db, o);
    forall key, other | key in keys && key.target == Profiles && other in RowsOf(purged, key.source)
      ensures !PointsAt(key, RowsOf(purged, key.source)[other], o.profileId)
    {
      assert other in RowsOf(db, key.source);
      assert RowsOf(purged, key.source)[other] == RowsOf(db, key.source)[other];
    }
  }

  // ... and decide the matter.
  lemma LateChecksSuffice(db: Database, keys: seq<ForeignKey>, o: Owned)
    requires o.profileId in RowsOf(db, Profiles) && IsProbeProfile(db[Profiles][o.profileId], o)
    requires Supports(keys) && NoReference(db, keys, AuthSessions, o.sessionId)
    requires NoReference(Purged(db, o), keys, Profiles, o.profileId) && NothingLeft(Emptied(db, o), o)
    ensures Cleanable(db, keys, o)
  {
    var purged, late := Purged(db, o), Emptied(db, o);
    PurgedRows(db, o);
    forall t, id | t in db && id in db[t] && Belongs(t, id, db[t][id], o)
      ensures AsWritten(t, id, db[t][id], o)
    {
      assert id !in late[t];
    }
    forall key, id | key in keys && key.target == Profiles && id in RowsOf(db, key.source) &&
                     PointsAt(key, RowsOf(db, key.source)[id], o.profileId)
      ensures key.source != Profiles && Belongs(key.source, id, RowsOf(db, key.source)[id], o)
    {
      assert id !in RowsOf(purged, key.source);
    }
  }

  lemma UnreferencedById(db: Database, keys: seq<ForeignKey>, t: Table, id: Id)
    requires t in {Profiles, AuthSessions} && Keyed(db) && Supports(keys) && NoReference(db, keys, t, id)
    ensures Unreferenced(db, keys, t, id)
  {
    if id in RowsOf(db, t) {
      forall key, other | key in keys && key.target == t && other in RowsOf(db, key.source)
        ensures !Refers(key, RowsOf(db, key.source)[other], RowsOf(db, t)[id])
      {
        assert Column(db[t][id], KeyColumn(t)) == Text(id);
      }
    }
  }

  lemma NothingToRemove(db: Database, o: Owned)
    requires NothingLeft(db, o)
    ensures Without(db, o) == db
  {
    assert forall t :: t in db ==> Without(db, o)[t] == db[t];
  }

  // What the block reports. A change of foreign rate-limit buckets is not among the
  // reasons to refuse: the block's deletes cannot cause one.
  function Verdict(db: Database, keys: seq<ForeignKey>, o: Owned): Option<string> {
    if o.profileId !in RowsOf(db, Profiles) then
      if NothingLeft(db, o) then None else Some("OWNED_CLEANUP_INCOMPLETE")
    else if !IsProbeProfile(db[Profiles][o.profileId], o) then Some("OWNED_PROFILE_PREIMAGE_MISMATCH")
    else if !Supports(keys) then Some("UNSUPPORTED_OWNED_REFERENCE")
    else if !NoReference(db, keys, AuthSessions, o.sessionId) then Some("UNEXPECTED_SESSION_REFERENCE")
    else if !NoReference(Purged(db, o), keys, Profiles, o.profileId) then Some("UNEXPECTED_PROFILE_REFERENCE")
    else if !NothingLeft(Emptied(db, o), o) then Some("OWNED_CLEANUP_INCOMPLETE")
    else None
  }

  /** The stepwise verdict accepts exactly the cleanable databases, and removes from them
      exactly what belongs to the probe. */
  lemma VerdictIsExact(db: Database, keys: seq<ForeignKey>, o: Owned)
    ensures Verdict(db, keys, o) == None <==> Cleanable(db, keys, o)
    ensures Cleanable(db, keys, o) ==>
              Without(db, o) == if o.profileId in RowsOf(db, Profiles) then Emptied(db, o) else db
  {
    if o.profileId !in RowsOf(db, Profiles) {
      if NothingLeft(db, o) { NothingToRemove(db, o); }
    } else {
      if Verdict(db, keys, o) == None { LateChecksSuffice(db, keys, o); }
      if Cleanable(db, keys, o) { CleanablePassesLateChecks(db, keys, o); }
    }
  }

  class PreviewDatabase {
    const keys: seq<ForeignKey>
    var tables: Database

    constructor (keys: seq<ForeignKey>, tables: Database)
      ensures this.keys == keys && this.tables == tables
    {
      this.keys, this.tables := keys, tables;
    }

    // DELETE: no referential action may fire, so nothing may point at a deleted row.
    method Delete(t: Table, doomed: set<Id>)
      requires forall id :: id in doomed ==> Unreferenced(tables, keys, t, id)
      modifies this
      ensures tables == Deleted(old(tables), t, doomed)
    {
      if t in tables { tables := tables[t := tables[t] - doomed]; }
    }

    // The FOR loops over the catalogue: is any row pointing at the id through a key on the table?
    method FindReference(target: Table, id: Id) returns (found: bool)
      ensures found <==> !NoReference(tables, keys, target, id)
    {
      found := false;
      for k := 0 to |keys|
        invariant !found
        invariant forall key, other ::
                    key in keys[..k] && key.target == target && other in RowsOf(tables, key.source) ==>
                    !PointsAt(key, RowsOf(tables, key.source)[other], id)
      {
        if keys[k].target == target {
          var rows := RowsOf(tables, keys[k].source);
          if exists other :: other in rows && PointsAt(keys[k], rows[other], id) { return true; }
        }
      }
      assert keys[..|keys|] == keys;
    }

    // The three deletes that come before the profile's own.
    method DeleteOwnedRows(o: Owned)
      requires Keyed(tables) && Aligned(keys) && Supports(keys)
      requires NoReference(tables, keys, AuthSessions, o.sessionId)
      modifies this
      ensures tables == Purged(old(tables), o) && Keyed(tables)
    {
      ghost var start := tables;
      var audits := OwnedIds(tables, AuditLogs, o);
      Delete(AuditLogs, audits);
      DeleteKeepsChecks(start, AuditLogs, audits, keys, o);
      ghost var middle := tables;
      var buckets := OwnedIds(tables, RateLimitBuckets, o);
      Delete(RateLimitBuckets, buckets);
      DeleteKeepsChecks(middle, RateLimitBuckets, buckets, keys, o);
      UnreferencedById(tables, keys, AuthSessions, o.sessionId);
      var sessions := OwnedIds(tables, AuthSessions, o);
      Delete(AuthSessions, sessions);
    }

    // The block itself. An error leaves its partial work to the caller's rollback.
    method RunBlock(o: Owned) returns (error: Option<string>)
      requires Keyed(tables) && Aligned(keys)
      modifies this
      ensures error == Verdict(old(tables), keys, o)
      ensures error.None? ==>
                tables == if o.profileId in RowsOf(old(tables), Profiles) then Emptied(old(tables), o) else old(tables)
    {
      if o.profileId in RowsOf(tables, Profiles) {
        if !IsProbeProfile(tables[Profiles][o.profileId], o) { return Some("OWNED_PROFILE_PREIMAGE_MISMATCH"); }
        if !Supports(keys) { return Some("UNSUPPORTED_OWNED_REFERENCE"); }
        var found := FindReference(AuthSessions, o.sessionId);
        if found { return Some("UNEXPECTED_SESSION_REFERENCE"); }
        var foreignBefore := RowsOf(tables, RateLimitBuckets) - {o.bucketKey};
        DeleteOwnedRows(o);
        found := FindReference(Profiles, o.profileId);
        if found { return Some("UNEXPECTED_PROFILE_REFERENCE"); }
        UnreferencedById(tables, keys, Profiles, o.profileId);
        Delete(Profiles, {o.profileId});
        ForeignBucketsKept(old(tables), o);
        var foreignAfter := RowsOf(tables, RateLimitBuckets) - {o.bucketKey};
        if foreignBefore != foreignAfter { return Some("FOREIGN_RATE_CHANGED"); }
      }
      if !NothingLeft(tables, o) { return Some("OWNED_CLEANUP_INCOMPLETE"); }
      return None;
    }

    /** The transaction around it: an error leaves the database unchanged, success removes
        exactly what belongs to the probe, and success comes exactly when Cleanable. */
    method Cleanup(o: Owned) returns (error: Option<string>)
      requires Keyed(tables) && Aligned(keys)
      modifies this
      ensures error == Verdict(old(tables), keys, o)
      ensures error.None? <==> Cleanable(old(tables), keys, o)
      ensures tables == if error.None? then Without(old(tables), o) else old(tables)
    {
      var start := tables;
      error := RunBlock(o);
      if error.Some? { tables := start; }
      VerdictIsExact(start, keys, o);
    }
  }
}
