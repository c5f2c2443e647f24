// Counting the offline records that are not synchronized yet: the gate in front of
// activating an update and of deleting the caches of earlier versions.
module UpdateSafety {
  import opened Prelude

  const UNSYNCHRONIZED_STATUSES := {"PENDING", "PROCESSING", "FAILED", "CONFLICT", "REJECTED"}

  // A record's status field; None when it is missing.
  type Status = Option<string>

  predicate IsUnsynchronized(status: Status) {
    (if status.Some? then status.value else "PENDING") in UNSYNCHRONIZED_STATUSES
  }

  // The database and its two stores, each of which may not exist.
  datatype OfflineDatabase = Absent | Present(queue: Option<seq<Status>>, orders: Option<seq<Status>>)

  // Which of the reads succeed: opening the database, and reading each store.
  datatype StoreAccess = StoreAccess(opens: bool, queue: bool, orders: bool)

  function ReadAll(store: Option<seq<Status>>, ok: bool): seq<Status> {
    if store.Some? && ok then store.value else []
  }

  function CountUnsynchronizedRecords(db: OfflineDatabase, access: StoreAccess): nat {
    if db.Absent? || !access.opens then 0
    else
      |Filter(IsUnsynchronized, ReadAll(db.queue, access.queue))| +
      |Filter(IsUnsynchronized, ReadAll(db.orders, access.orders))|
  }

  predicate HasUnsynchronized(store: Option<seq<Status>>) {
    store.Some? && exists status :: status in store.value && IsUnsynchronized(status)
  }

  lemma FilterIsEmpty(xs: seq<Status>)
    ensures |Filter(IsUnsynchronized, xs)| == 0 <==> forall x :: x in xs ==> !IsUnsynchronized(x)
  {
    if |Filter(IsUnsynchronized, xs)| > 0 { assert Filter(IsUnsynchronized, xs)[0] in Filter(IsUnsynchronized, xs); }
  }

  /** The count is zero exactly when every store that holds an unsynchronized record went
      unread: a failed read counts as an empty store. */
  lemma CountIsZeroExactly(db: OfflineDatabase, access: StoreAccess)
    ensures CountUnsynchronizedRecords(db, access) == 0 <==>
              db.Present? && access.opens ==>
                (HasUnsynchronized(db.queue) ==> !access.queue) && (HasUnsynchronized(db.orders) ==> !access.orders)
  {
    if db.Present? {
      FilterIsEmpty(ReadAll(db.queue, access.queue));
      FilterIsEmpty(ReadAll(db.orders, access.orders));
    }
  }

  /** With all reads successful, zero means that neither store has an unsynchronized record. */
  lemma ZeroMeansSynchronized(db: OfflineDatabase)
    ensures CountUnsynchronizedRecords(db, StoreAccess(true, true, true)) == 0 <==>
              db.Absent? || (!HasUnsynchronized(db.queue) && !HasUnsynchronized(db.orders))
  {
    CountIsZeroExactly(db, StoreAccess(true, true, true));
  }

  /** The promise does not survive a failed read: pending records are then counted as none. */
  lemma FailedReadHidesPendingRecords()
    ensures var store: Option<seq<Status>> := Some([None]);
            HasUnsynchronized(store) &&
            CountUnsynchronizedRecords(Present(store, None), StoreAccess(true, false, true)) == 0
  {
    var store: Option<seq<Status>> := Some([None]);
    assert store.value[0] in store.value && IsUnsynchronized(store.value[0]);
    CountIsZeroExactly(Present(store, None), StoreAccess(true, false, true));
  }
}
