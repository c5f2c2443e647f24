// What the probe writes, what of it may have reached the database when a step fails, and
// that the cleanup takes exactly that away again.
module ProbeTraces {
  import opened PrincipalCleanup

  function Merged(db: Database, written: Database): Database { map t | t in db :: db[t] + RowsOf(written, t) }

  // Inserted rows take primary keys that were free.
  predicate Inserted(db: Database, written: Database) {
    written.Keys <= db.Keys && forall t, id :: t in written && id in written[t] ==> id !in db[t]
  }

  // Rows as the probe writes them. Everything else hangs on the profile, which is created in
  // one transaction with its session: without it there is nothing.
  predicate Traces(written: Database, keys: seq<ForeignKey>, o: Owned) {
    && (forall t, id :: t in written && id in written[t] ==>
          Belongs(t, id, written[t][id], o) && AsWritten(t, id, written[t][id], o))
    && (o.profileId !in RowsOf(written, Profiles) ==> forall t :: t in written ==> written[t] == map[])
    && (forall key, id :: key in keys && id in RowsOf(written, key.source) ==>
          && (key.target == AuthSessions ==> !PointsAt(key, RowsOf(written, key.source)[id], o.sessionId))
          && (key.target == Profiles && key.source == Profiles ==> !PointsAt(key, RowsOf(written, key.source)[id], o.profileId)))
  }

  // Before the probe, nothing points at ids that no row has.
  lemma NothingPointsAtTheProbe(db: Database, keys: seq<ForeignKey>, o: Owned, t: Table, id: Id)
    requires Keyed(db) && Aligned(keys) && Intact(db, keys) && Supports(keys)
    requires t in {Profiles, AuthSessions} && id !in RowsOf(db, t)
    ensures NoReference(db, keys, t, id)
  {
    forall key, other | key in keys && key.target == t && other in RowsOf(db, key.source)
      ensures !PointsAt(key, RowsOf(db, key.source)[other], id)
    {
      var row := RowsOf(db, key.source)[other];
      assert Satisfied(db, key, row);
      if exists target :: target in RowsOf(db, t) && Refers(key, row, RowsOf(db, t)[target]) {
        var target :| target in RowsOf(db, t) && Refers(key, row, RowsOf(db, t)[target]);
        assert Column(row, key.columns[0]) == Column(db[t][target], key.targetColumns[0]);
        assert Column(db[t][target], KeyColumn(t)) == Text(target);
      }
    }
  }

  /** However far the probe got, and whether or not an unacknowledged commit took effect, the
      cleanup goes through and gives back the database as it was before the probe. */
  lemma ProbeLeavesNoTrace(before: Database, written: Database, keys: seq<ForeignKey>, o: Owned)
    requires Keyed(before) && Aligned(keys) && Intact(before, keys) && Supports(keys)
    requires NothingLeft(before, o) && Inserted(before, written) && Traces(written, keys, o)
    ensures Cleanable(Merged(before, written), keys, o)
    ensures Without(Merged(before, written), o) == before
  {
    var after := Merged(before, written);
    assert o.profileId !in RowsOf(before, Profiles) && o.sessionId !in RowsOf(before, AuthSessions);
    NothingPointsAtTheProbe(before, keys, o, Profiles, o.profileId);
    NothingPointsAtTheProbe(before, keys, o, AuthSessions, o.sessionId);
    MergedWithout(before, written, keys, o);
    if o.profileId in RowsOf(after, Profiles) {
      ReferencesOfTraces(before, written, keys, o);
    } else {
      assert forall t :: t in before ==> after[t] == before[t];
      assert after == before;
    }
  }

  lemma SiftedUnion<R>(rows: map<Id, R>, more: map<Id, R>, p: (Id, R) -> bool)
    requires forall id :: id in rows ==> !p(id, rows[id]) && id !in more
    requires forall id :: id in more ==> p(id, more[id])
    ensures (map id | id in rows + more && !p(id, (rows + more)[id]) :: (rows + more)[id]) == rows
  {
  }

  lemma MergedWithout(before: Database, written: Database, keys: seq<ForeignKey>, o: Owned)
    requires NothingLeft(before, o) && Inserted(before, written) && Traces(written, keys, o)
    ensures Without(Merged(before, written), o) == before
  {
    hide Belongs, AsWritten, PointsAt;
    forall t | t in before ensures Without(Merged(before, written), o)[t] == before[t] {
      SiftedUnion(before[t], RowsOf(written, t), (id, row) => Belongs(t, id, row, o));
    }
  }

  lemma ReferencesOfTraces(before: Database, written: Database, keys: seq<ForeignKey>, o: Owned)
    requires Supports(keys) && Inserted(before, written) && Traces(written, keys, o) && NothingLeft(before, o)
    requires NoReference(before, keys, Profiles, o.profileId) && NoReference(before, keys, AuthSessions, o.sessionId)
    requires o.profileId in RowsOf(Merged(before, written), Profiles)
    ensures Cleanable(Merged(before, written), keys, o)
  {
    hide Belongs, AsWritten, PointsAt;
    var after := Merged(before, written);
    forall t, id | t in after && id in after[t] && Belongs(t, id, after[t][id], o)
      ensures AsWritten(t, id, after[t][id], o)
    {
      assert id in RowsOf(written, t);
    }
    forall key, other | key in keys && key.target == AuthSessions && other in RowsOf(after, key.source)
      ensures !PointsAt(key, RowsOf(after, key.source)[other], o.sessionId)
    {
      assert other in RowsOf(before, key.source) || other in RowsOf(written, key.source);
    }
    forall key, id | key in keys && key.target == Profiles && id in RowsOf(after, key.source)
      ensures PointsAt(key, RowsOf(after, key.source)[id], o.profileId) ==>
                key.source != Profiles && Belongs(key.source, id, RowsOf(after, key.source)[id], o)
    {
      assert id in RowsOf(before, key.source) || id in RowsOf(written, key.source);
    }
  }
}
