// The public-order acceptance run borrows a stall's business hours and printers and
// gives them back: two-image recovery when the outcome of COMMIT is unknown, and a
// cleanup sequence that always runs to its end.
module PreviewFixture {
  import opened Prelude

  const ORGANIZATION := "11111111-1111-4111-8111-111111111111"
  const STALL := "22222222-2222-4222-8222-222222222222"

  datatype Hour = Hour(organizationId: string, stallId: string, dayOfWeek: int, opensAt: string, closesAt: string,
                       lastOrderAt: Option<string>, isClosed: bool, createdAt: string, updatedAt: string)

  // The columns that neither the borrowing nor the restoring statement writes are in rest.
  datatype Printer = Printer(organizationId: string, stallId: string, isEnabled: bool, updatedAt: string,
                             rest: map<string, string>)

  // Both tables, keyed by id. A snapshot is the part of them in the borrowed scope.
  datatype Tables = Tables(hours: map<string, Hour>, printers: map<string, Printer>)

  datatype FixtureState = FixtureState(before: Tables, after: Tables)

  predicate HourInScope(row: Hour) { row.organizationId == ORGANIZATION && row.stallId == STALL }

  predicate PrinterInScope(row: Printer) { row.organizationId == ORGANIZATION && row.stallId == STALL }

  // SELECT ... WHERE p
  function Select<R>(rows: map<string, R>, p: R -> bool): map<string, R> {
    map id | id in rows && p(rows[id]) :: rows[id]
  }

  // The rows that SELECT leaves out
  function Reject<R>(rows: map<string, R>, p: R -> bool): map<string, R> {
    map id | id in rows && !p(rows[id]) :: rows[id]
  }

  // UPDATE ... SET f WHERE p
  function Update<R>(rows: map<string, R>, p: R -> bool, f: R -> R): map<string, R> {
    map id | id in rows :: if p(rows[id]) then f(rows[id]) else rows[id]
  }

  // UPDATE ... SET g FROM preserved rows b WHERE the ids agree AND p
  function WriteBack<R>(rows: map<string, R>, p: R -> bool, b: map<string, R>, g: (R, R) -> R): map<string, R> {
    map id | id in rows :: if p(rows[id]) && id in b then g(rows[id], b[id]) else rows[id]
  }

  function Snapshot(t: Tables): Tables { Tables(Select(t.hours, HourInScope), Select(t.printers, PrinterInScope)) }

  // Everything that is not borrowed.
  function Foreign(t: Tables): Tables {
    Tables(Reject(t.hours, HourInScope), Reject(t.printers, PrinterInScope))
  }

  // Seven rows, one per day of the week.
  predicate IsWeek(hours: map<string, Hour>) {
    |hours| == 7 && (set id | id in hours :: hours[id].dayOfWeek) == {0, 1, 2, 3, 4, 5, 6}
  }

  function OpenAllDay(row: Hour, now: string): Hour {
    row.(opensAt := "00:00", closesAt := "00:00", lastOrderAt := None, isClosed := false, updatedAt := now)
  }

  function Disable(row: Printer, now: string): Printer { row.(isEnabled := false, updatedAt := now) }

  function Borrowed(t: Tables, now: string): Tables {
    Tables(Update(t.hours, HourInScope, row => OpenAllDay(row, now)),
           Update(t.printers, PrinterInScope, row => Disable(row, now)))
  }

  // The images that the borrowing transaction preserves before it commits.
  function Images(t: Tables, now: string): FixtureState { FixtureState(Snapshot(t), Snapshot(Borrowed(t, now))) }

  function RestoreHour(row: Hour, b: Hour): Hour {
    row.(opensAt := b.opensAt, closesAt := b.closesAt, lastOrderAt := b.lastOrderAt, isClosed := b.isClosed,
         updatedAt := b.updatedAt)
  }

  function RestorePrinter(row: Printer, b: Printer): Printer { row.(isEnabled := b.isEnabled, updatedAt := b.updatedAt) }

  function WrittenBack(t: Tables, before: Tables): Tables {
    Tables(WriteBack(t.hours, HourInScope, before.hours, RestoreHour),
           WriteBack(t.printers, PrinterInScope, before.printers, RestorePrinter))
  }

  // Restoring one table: g undoes f, and f stays in scope.
  lemma WriteBackUndoesUpdate<R(!new)>(rows: map<string, R>, u: map<string, R>, p: R -> bool, f: R -> R, g: (R, R) -> R)
    requires forall r :: p(r) ==> p(f(r)) && g(f(r), r) == r
    requires Select(u, p) == Select(Update(rows, p, f), p)
    ensures Select(WriteBack(u, p, Select(rows, p), g), p) == Select(rows, p)
  {
    var updated, before := Update(rows, p, f), Select(rows, p);
    var result := WriteBack(u, p, before, g);
    assert Select(updated, p).Keys == before.Keys;
    forall id | id in u && p(u[id]) ensures id in before && result[id] == before[id] {
      assert id in Select(u, p) && Select(u, p)[id] == updated[id];
    }
    forall id | id in before ensures id in u && p(u[id]) {
      assert id in Select(u, p);
    }
    assert Select(result, p) == before;
  }

  lemma UpdateKeepsForeign<R>(rows: map<string, R>, p: R -> bool, f: R -> R)
    requires forall id :: id in rows && p(rows[id]) ==> p(f(rows[id]))
    ensures Reject(Update(rows, p, f), p) == Reject(rows, p)
  {
  }

  lemma SelectPartitions<R>(rows: map<string, R>, u: map<string, R>, p: R -> bool)
    requires Select(rows, p) == Select(u, p) && Reject(rows, p) == Reject(u, p)
    ensures rows == u
  {
    assert rows == Select(rows, p) + Reject(rows, p);
    assert u == Select(u, p) + Reject(u, p);
  }

  lemma WritingBackUndoesBorrowing(t: Tables, now: string, u: Tables)
    requires Snapshot(u) == Snapshot(Borrowed(t, now))
    ensures Snapshot(WrittenBack(u, Snapshot(t))) == Snapshot(t)
  {
    WriteBackUndoesUpdate(t.hours, u.hours, HourInScope, row => OpenAllDay(row, now), RestoreHour);
    WriteBackUndoesUpdate(t.printers, u.printers, PrinterInScope, row => Disable(row, now), RestorePrinter);
  }

  lemma BorrowingKeepsForeign(t: Tables, now: string)
    ensures Foreign(Borrowed(t, now)) == Foreign(t)
  {
    UpdateKeepsForeign(t.hours, HourInScope, row => OpenAllDay(row, now));
    UpdateKeepsForeign(t.printers, PrinterInScope, row => Disable(row, now));
  }

  lemma ScopePartitions(t: Tables, u: Tables)
    requires Snapshot(t) == Snapshot(u) && Foreign(t) == Foreign(u)
    ensures t == u
  {
    SelectPartitions(t.hours, u.hours, HourInScope);
    SelectPartitions(t.printers, u.printers, PrinterInScope);
  }

  // ---- Restoring ----

  // How many rows the restoring statement reports.
  function UpdateCount<R>(rows: map<string, R>, p: R -> bool, b: map<string, R>): nat {
    |set id | id in rows && p(rows[id]) && id in b|
  }

  // What the restoring transaction would commit; None when an assertion rolls it back.
  function Restoration(t: Tables, state: FixtureState): Option<Tables> {
    if Snapshot(t) == state.before then Some(t)
    else if Snapshot(t) != state.after then None
    else
      var written := WrittenBack(t, state.before);
      if UpdateCount(t.hours, HourInScope, state.before.hours) != |state.before.hours| then None
      else if UpdateCount(t.printers, PrinterInScope, state.before.printers) != |state.before.printers| then None
      else if Snapshot(written) != state.before then None
      else Some(written)
  }

  /** Whatever the preserved images, a restoration that commits shows exactly the before
      image and leaves all rows outside the scope alone; it can be repeated. */
  lemma RestorationIsExact(t: Tables, state: FixtureState)
    requires Restoration(t, state).Some?
    ensures var restored := Restoration(t, state).value;
      && Snapshot(restored) == state.before
      && Foreign(restored) == Foreign(t)
      && Restoration(restored, state) == Some(restored)
  {
    WritingBackKeepsForeign(t.hours, HourInScope, state.before.hours, RestoreHour);
    WritingBackKeepsForeign(t.printers, PrinterInScope, state.before.printers, RestorePrinter);
  }

  lemma WritingBackKeepsForeign<R>(rows: map<string, R>, p: R -> bool, b: map<string, R>, g: (R, R) -> R)
    requires forall id :: id in rows && id in b && p(rows[id]) ==> p(g(rows[id], b[id]))
    ensures Reject(WriteBack(rows, p, b, g), p) == Reject(rows, p)
  {
  }

  lemma AllRowsAreCounted<R>(rows: map<string, R>, p: R -> bool, b: map<string, R>)
    requires b.Keys == Select(rows, p).Keys
    ensures UpdateCount(rows, p, b) == |b|
  {
    assert (set id | id in rows && p(rows[id]) && id in b) == b.Keys;
  }

  /** Restoring with the preserved images succeeds exactly when the borrowed rows still
      show one of the two images, whatever happened to the rest of the tables. */
  lemma RestorationSucceeds(t: Tables, now: string, u: Tables)
    ensures Restoration(u, Images(t, now)).Some? <==>
              Snapshot(u) == Snapshot(t) || Snapshot(u) == Snapshot(Borrowed(t, now))
  {
    var state := Images(t, now);
    if Snapshot(u) == state.after {
      WritingBackUndoesBorrowing(t, now, u);
      assert Snapshot(Borrowed(t, now)).hours.Keys == state.before.hours.Keys;
      assert Snapshot(Borrowed(t, now)).printers.Keys == state.before.printers.Keys;
      AllRowsAreCounted(u.hours, HourInScope, state.before.hours);
      AllRowsAreCounted(u.printers, PrinterInScope, state.before.printers);
    }
  }

  /** Committed or not, with no other writer the tables come back in every column. */
  lemma RestorationResolvesUnknownCommit(t: Tables, now: string)
    ensures Restoration(t, Images(t, now)) == Some(t)
    ensures Restoration(Borrowed(t, now), Images(t, now)) == Some(t)
  {
    RestorationSucceeds(t, now, Borrowed(t, now));
    RestorationIsExact(Borrowed(t, now), Images(t, now));
    BorrowingKeepsForeign(t, now);
    ScopePartitions(Restoration(Borrowed(t, now), Images(t, now)).value, t);
  }

  // ---- The acceptance run ----

  // How a transaction ends for its client.
  datatype Transport =
    | NeverPreserved   // failed before the images were handed out
    | RolledBack
    | ReplyLost        // committed, but the client sees an error
    | Acknowledged

  datatype Step = OrderStep | BrowserStep | FixtureStep | DatabaseStep

  const STEPS := [OrderStep, BrowserStep, FixtureStep, DatabaseStep]

  datatype Failure = Failure(message: string, cleanupFailures: seq<Step>)

  datatype Thrown = AnError(error: Failure) | NotAnError

  function QaFailure(thrown: Thrown): Failure {
    match thrown
    case AnError(error) => error
    case NotAnError => Failure("PREVIEW_PUBLIC_ORDER_BROWSER_QA_FAILED", [])
  }

  // Does the cleanup step fail, given what the surroundings make fail?
  predicate StepFails(t: Tables, state: Option<FixtureState>, fails: set<Step>, restoring: Transport, step: Step) {
    if step == FixtureStep then
      state.Some? && (Restoration(t, state.value).None? || !restoring.Acknowledged?)
    else
      step in fails
  }

  function FailedSteps(t: Tables, state: Option<FixtureState>, fails: set<Step>, restoring: Transport,
                       steps: seq<Step>): (failed: seq<Step>)
    ensures forall step :: step in failed <==> step in steps && StepFails(t, state, fails, restoring, step)
  {
    if steps == [] then []
    else
      var last := |steps| - 1;
      FailedSteps(t, state, fails, restoring, steps[..last]) +
      (if StepFails(t, state, fails, restoring, steps[last]) then [steps[last]] else [])
  }

  function RestoredTables(t: Tables, state: Option<FixtureState>, restoring: Transport): Tables {
    if state.Some? && Restoration(t, state.value).Some? && (restoring.Acknowledged? || restoring.ReplyLost?)
    then Restoration(t, state.value).value
    else t
  }

  // What the fixture step makes of tables u, when the images of t were preserved or not.
  lemma FixtureStepOutcome(t: Tables, now: string, u: Tables, state: Option<FixtureState>, restoring: Transport,
                           fails: set<Step>)
    requires state.Some? ==> state.value == Images(t, now)
    ensures Foreign(RestoredTables(u, state, restoring)) == Foreign(u)
    ensures Snapshot(u) !in {Snapshot(t), Snapshot(Borrowed(t, now))} ==> RestoredTables(u, state, restoring) == u
    ensures u == t || (u == Borrowed(t, now) && state.Some?) ==>
              (restoring.Acknowledged? || restoring.ReplyLost? ==> RestoredTables(u, state, restoring) == t) &&
              (RestoredTables(u, state, restoring) == t || StepFails(u, state, fails, restoring, FixtureStep))
  {
    RestorationResolvesUnknownCommit(t, now);
    if state.Some? {
      RestorationSucceeds(t, now, u);
      if Restoration(u, state.value).Some? { RestorationIsExact(u, state.value); }
    }
  }

  class PreviewQa {
    var tables: Tables
    var fixtureState: Option<FixtureState>
    var attempted: seq<Step>

    constructor (tables: Tables)
      ensures this.tables == tables && fixtureState == None && attempted == []
    {
      this.tables, fixtureState, attempted := tables, None, [];
    }

    method OpenHoursAndDisablePrinters(now: string)
      modifies this`tables
      ensures tables == Borrowed(old(tables), now)
    {
      tables := tables.(hours := Update(tables.hours, HourInScope, row => OpenAllDay(row, now)));
      tables := tables.(printers := Update(tables.printers, PrinterInScope, row => Disable(row, now)));
    }

    method Prepare(now: string, transport: Transport) returns (ok: bool)
      modifies this`tables, this`fixtureState
      ensures ok <==> IsWeek(Snapshot(old(tables)).hours) && transport.Acknowledged?
      ensures fixtureState ==
                if IsWeek(Snapshot(old(tables)).hours) && !transport.NeverPreserved?
                then Some(Images(old(tables), now)) else old(fixtureState)
      ensures tables ==
                if IsWeek(Snapshot(old(tables)).hours) && (transport.ReplyLost? || transport.Acknowledged?)
                then Borrowed(old(tables), now) else old(tables)
    {
      var start := tables;
      var before := Snapshot(tables);
      if !IsWeek(before.hours) { return false; }
      OpenHoursAndDisablePrinters(now);
      if !transport.NeverPreserved? {
        fixtureState := Some(FixtureState(before, Snapshot(tables)));
      }
      if transport.NeverPreserved? || transport.RolledBack? { tables := start; }
      return transport.Acknowledged?;
    }

    method Restore(state: FixtureState, transport: Transport) returns (ok: bool)
      modifies this`tables
      ensures ok <==> Restoration(old(tables), state).Some? && transport.Acknowledged?
      ensures tables == RestoredTables(old(tables), Some(state), transport)
    {
      var start := tables;
      var actual := Snapshot(tables);
      if actual == state.before { return transport.Acknowledged?; }
      if actual != state.after { return false; }
      var hours := UpdateCount(tables.hours, HourInScope, state.before.hours);
      tables := tables.(hours := WriteBack(tables.hours, HourInScope, state.before.hours, RestoreHour));
      var printers := UpdateCount(tables.printers, PrinterInScope, state.before.printers);
      tables := tables.(printers := WriteBack(tables.printers, PrinterInScope, state.before.printers, RestorePrinter));
      if hours != |state.before.hours| || printers != |state.before.printers| || Snapshot(tables) != state.before {
        tables := start;
        return false;
      }
      if transport.NeverPreserved? || transport.RolledBack? { tables := start; }
      return transport.Acknowledged?;
    }

    method RunStep(step: Step, fails: set<Step>, restoring: Transport) returns (ok: bool)
      modifies this`tables, this`attempted
      ensures attempted == old(attempted) + [step]
      ensures ok <==> !StepFails(old(tables), fixtureState, fails, restoring, step)
      ensures tables == if step == FixtureStep then RestoredTables(old(tables), fixtureState, restoring) else old(tables)
    {
      attempted := attempted + [step];
      ok := true;
      if step == FixtureStep {
        if fixtureState.Some? { ok := Restore(fixtureState.value, restoring); }
      } else {
        ok := step !in fails;
      }
    }

    /** All four steps run once, in order, whatever fails; an error is thrown exactly when
        the run or a step failed; it is the run's own failure when there is one; and it
        lists exactly the failed steps. */
    method FinishPreviewQa(failure: Option<Failure>, fails: set<Step>, restoring: Transport)
      returns (thrown: Option<Failure>)
      modifies this`tables, this`attempted
      ensures attempted == old(attempted) + STEPS
      ensures tables == RestoredTables(old(tables), fixtureState, restoring)
      ensures var failed := FailedSteps(old(tables), fixtureState, fails, restoring, STEPS);
        thrown == if failure.Some? then Some(failure.value.(cleanupFailures := failed))
                  else if failed != [] then Some(Failure("PREVIEW_ORDER_QA_CLEANUP_FAILED", failed))
                  else None
    {
      var failed: seq<Step> := [];
      for i := 0 to |STEPS|
        invariant attempted == old(attempted) + STEPS[..i]
        invariant tables == if i <= 2 then old(tables) else RestoredTables(old(tables), fixtureState, restoring)
        invariant failed == FailedSteps(old(tables), fixtureState, fails, restoring, STEPS[..i])
      {
        var ok := RunStep(STEPS[i], fails, restoring);
        if !ok { failed := failed + [STEPS[i]]; }
        assert STEPS[..i + 1][..i] == STEPS[..i];
        assert STEPS[..i] + [STEPS[i]] == STEPS[..i + 1];
      }
      assert STEPS[..|STEPS|] == STEPS;
      if failure.Some? || failed != [] {
        var error := if failure.Some? then failure.value else Failure("PREVIEW_ORDER_QA_CLEANUP_FAILED", []);
        return Some(error.(cleanupFailures := failed));
      }
      return None;
    }

    // The try block of the run: what it leaves as the failure to report.
    method Attempt(principal: Option<Thrown>, now: string, transport: Transport, preparing: Thrown,
                   browser: Option<Thrown>)
      returns (failure: Option<Failure>)
      requires fixtureState == None
      modifies this`tables, this`fixtureState
      ensures failure == if principal.Some? then Some(QaFailure(principal.value))
                         else if !IsWeek(Snapshot(old(tables)).hours) || !transport.Acknowledged?
                         then Some(QaFailure(preparing))
                         else if browser.Some? then Some(QaFailure(browser.value))
                         else None
      ensures tables == old(tables) || (tables == Borrowed(old(tables), now) && fixtureState.Some?)
      ensures fixtureState.Some? ==> fixtureState.value == Images(old(tables), now)
    {
      failure := None;
      if principal.Some? {
        failure := Some(QaFailure(principal.value));
      } else {
        var ok := Prepare(now, transport);
        if !ok {
          failure := Some(QaFailure(preparing));
        } else if browser.Some? {
          failure := Some(QaFailure(browser.value));
        }
      }
    }

    /** The run around the fixture. principal, preparing and browser are what those parts
        throw, if anything; edit is what another writer makes of the tables meanwhile. */
    method AcceptanceRun(principal: Option<Thrown>, now: string, transport: Transport, preparing: Thrown,
                         browser: Option<Thrown>, edit: Option<Tables>, fails: set<Step>, restoring: Transport)
      returns (thrown: Option<Failure>)
      requires fixtureState == None && attempted == []
      modifies this
      ensures attempted == STEPS
      // the first failure is the one reported
      ensures principal.Some? ==> thrown.Some? && thrown.value.message == QaFailure(principal.value).message
      ensures principal.None? && (!transport.Acknowledged? || !IsWeek(Snapshot(old(tables)).hours)) ==>
                thrown.Some? && thrown.value.message == QaFailure(preparing).message
      ensures principal.None? && transport.Acknowledged? && IsWeek(Snapshot(old(tables)).hours) && browser.Some? ==>
                thrown.Some? && thrown.value.message == QaFailure(browser.value).message
      ensures thrown.None? ==> principal.None? && transport.Acknowledged? && browser.None?
      // with no other writer, the tables come back in every column, or the fixture step is reported
      ensures edit.None? ==>
                tables == old(tables) || (thrown.Some? && FixtureStep in thrown.value.cleanupFailures)
      ensures edit.None? && (restoring.Acknowledged? || restoring.ReplyLost?) ==> tables == old(tables)
      // another writer's rows are never overwritten once the borrowed rows differ from both images
      ensures edit.Some? && Snapshot(edit.value) !in {Snapshot(old(tables)), Snapshot(Borrowed(old(tables), now))} ==>
                tables == edit.value
      ensures edit.Some? ==> Foreign(tables) == Foreign(edit.value)
    {
      var failure := Attempt(principal, now, transport, preparing, browser);
      if edit.Some? { tables := edit.value; }
      FixtureStepOutcome(old(tables), now, tables, fixtureState, restoring, fails);
      thrown := FinishPreviewQa(failure, fails, restoring);
    }
  }
}
