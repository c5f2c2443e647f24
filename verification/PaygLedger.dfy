// The production audit of pay-as-you-go billing: what its counters establish about the
// usage ledger and the invoices, and how its checks decide readiness.
module PaygLedger {
  import opened Prelude

  // ---- The usage ledger ----

  datatype Kind = COMPLETED | FULL_REFUND | UNBILLED

  // A reference may be missing (NULL).
  type Reference = Option<nat>

  datatype UsageEvent = UsageEvent(kind: Kind, reference: Reference)

  function References(events: seq<UsageEvent>, kind: Kind): seq<Reference> {
    if events == [] then []
    else (if events[0].kind == kind then [events[0].reference] else []) + References(events[1..], kind)
  }

  // GROUP BY reference HAVING count(*) > 1, counted; missing references form one group.
  function DuplicateGroups<R(==)>(refs: seq<R>): nat { |set r | r in refs && multiset(refs)[r] > 1| }

  function DuplicateCompletions(events: seq<UsageEvent>): nat { DuplicateGroups(References(events, COMPLETED)) }

  function DuplicateRefunds(events: seq<UsageEvent>): nat { DuplicateGroups(References(events, FULL_REFUND)) }

  // NULL = NULL does not hold, so a refund without a reference is an orphan.
  predicate IsOrphan(completed: seq<Reference>, refund: Reference) { refund.None? || refund !in completed }

  function OrphanRefunds(events: seq<UsageEvent>): nat {
    |Filter((r: Reference) => IsOrphan(References(events, COMPLETED), r), References(events, FULL_REFUND))|
  }

  predicate Distinct<R(==)>(refs: seq<R>) { forall i, j :: 0 <= i < j < |refs| ==> refs[i] != refs[j] }

  lemma NoDuplicateGroups<R>(refs: seq<R>)
    ensures DuplicateGroups(refs) == 0 <==> Distinct(refs)
  {
    var repeated := set r | r in refs && multiset(refs)[r] > 1;
    if Distinct(refs) {
      forall r | r in refs ensures multiset(refs)[r] == 1 { OccursOnce(refs, r); }
      assert repeated == {};
    } else {
      var i, j :| 0 <= i < j < |refs| && refs[i] == refs[j];
      assert refs == refs[..i] + [refs[i]] + refs[i + 1..j] + [refs[j]] + refs[j + 1..];
      assert multiset(refs)[refs[i]] >= multiset([refs[i]])[refs[i]] + multiset([refs[j]])[refs[i]];
      assert refs[i] in repeated;
    }
  }

  lemma OccursOnce<R>(refs: seq<R>, r: R)
    requires Distinct(refs) && r in refs
    ensures multiset(refs)[r] == 1
  {
    var k :| 0 <= k < |refs| && refs[k] == r;
    assert refs == refs[..k] + [r] + refs[k + 1..];
    assert r !in refs[..k] && r !in refs[k + 1..];
  }

  function Elements<R>(refs: seq<R>): set<R> { set r | r in refs }

  lemma {:induction false} DistinctCount<R>(refs: seq<R>)
    requires Distinct(refs)
    ensures |Elements(refs)| == |refs|
  {
    if refs != [] {
      DistinctCount(refs[1..]);
      assert Elements(refs) == Elements(refs[1..]) + {refs[0]};
      assert refs[0] !in refs[1..];
    }
  }

  /** What each counter says when it is zero, and what it then rules out. */
  lemma CountersAreExact(events: seq<UsageEvent>)
    ensures DuplicateCompletions(events) == 0 <==> Distinct(References(events, COMPLETED))
    ensures DuplicateRefunds(events) == 0 <==> Distinct(References(events, FULL_REFUND))
    ensures OrphanRefunds(events) == 0 <==>
      forall r <- References(events, FULL_REFUND) :: r.Some? && r in References(events, COMPLETED)
  {
    NoDuplicateGroups(References(events, COMPLETED));
    NoDuplicateGroups(References(events, FULL_REFUND));
    var completed, refunds := References(events, COMPLETED), References(events, FULL_REFUND);
    var orphans := Filter((r: Reference) => IsOrphan(completed, r), refunds);
    if orphans != [] { assert orphans[0] in orphans; }
  }

  // The position of the completion that a refund refers to.
  function CompletionOf(events: seq<UsageEvent>, refund: nat): (at: nat)
    requires refund < |References(events, FULL_REFUND)|
    requires References(events, FULL_REFUND)[refund] in References(events, COMPLETED)
    ensures at < |References(events, COMPLETED)|
    ensures References(events, COMPLETED)[at] == References(events, FULL_REFUND)[refund]
  {
    IndexOf(References(events, COMPLETED), References(events, FULL_REFUND)[refund])
  }

  function IndexOf<R(==)>(refs: seq<R>, r: R): (at: nat)
    requires r in refs
    ensures at < |refs| && refs[at] == r
  {
    if refs[0] == r then 0 else 1 + IndexOf(refs[1..], r)
  }

  predicate LedgerPasses(events: seq<UsageEvent>) {
    DuplicateCompletions(events) == 0 && DuplicateRefunds(events) == 0 && OrphanRefunds(events) == 0
  }

  /** With all three counters zero, no two refunds fall on one completion, and the completions
      less the refunds are exactly the references completed and not refunded. */
  lemma RefundsNeverExceedCompletions(events: seq<UsageEvent>)
    requires LedgerPasses(events)
    ensures var completed, refunds := References(events, COMPLETED), References(events, FULL_REFUND);
      && (forall r <- refunds :: r in completed)
      && (forall i, j :: 0 <= i < j < |refunds| ==> CompletionOf(events, i) != CompletionOf(events, j))
      && |completed| - |refunds| == |Elements(completed) - Elements(refunds)|
  {
    hide LedgerPasses, DuplicateCompletions, DuplicateRefunds, OrphanRefunds, IndexOf, References;
    LedgerIsSound(events);
    var completed, refunds := References(events, COMPLETED), References(events, FULL_REFUND);
    DistinctCount(completed);
    DistinctCount(refunds);
    assert Elements(refunds) <= Elements(completed);
    forall i, j | 0 <= i < j < |refunds| ensures CompletionOf(events, i) != CompletionOf(events, j) {
      assert completed[CompletionOf(events, i)] == refunds[i] && completed[CompletionOf(events, j)] == refunds[j];
    }
  }

  lemma LedgerIsSound(events: seq<UsageEvent>)
    requires LedgerPasses(events)
    ensures Distinct(References(events, COMPLETED)) && Distinct(References(events, FULL_REFUND))
    ensures forall r <- References(events, FULL_REFUND) :: r in References(events, COMPLETED)
  {
    CountersAreExact(events);
  }

  // ---- Invoices ----

  datatype Invoice = Invoice(subtotal: int, tax: int, discount: int, total: int, paid: int, due: int)

  predicate Mismatched(i: Invoice) { i.subtotal + i.tax - i.discount != i.total || i.total - i.paid != i.due }

  function ArithmeticMismatches(invoices: seq<Invoice>): nat { |Filter(Mismatched, invoices)| }

  function Total(field: Invoice -> int, invoices: seq<Invoice>): int {
    if invoices == [] then 0 else field(invoices[0]) + Total(field, invoices[1..])
  }

  /** When the counter is zero, everything billed is either paid or due, to the dollar. */
  lemma {:induction false} InvoicesBalance(invoices: seq<Invoice>)
    requires ArithmeticMismatches(invoices) == 0
    ensures Total((i: Invoice) => i.subtotal, invoices) + Total((i: Invoice) => i.tax, invoices)
              - Total((i: Invoice) => i.discount, invoices)
            == Total((i: Invoice) => i.paid, invoices) + Total((i: Invoice) => i.due, invoices)
  {
    if invoices != [] { InvoicesBalance(invoices[1..]); }
  }

  // ---- The checks and the decision ----

  datatype Plan = Plan(isPublic: bool, from: int, until: Option<int>, inTaiwanDollars: bool, unitPrice: int, cap: Option<int>)

  // What the queries find; rows of a query that returns nothing are None.
  datatype Store = Store(
    migrated: bool, schema: Option<(nat, nat)>, plans: seq<Plan>, invalidSubscriptions: Option<nat>,
    events: seq<UsageEvent>, periodAnomalies: nat, invoices: seq<Invoice>, missingSnapshots: nat,
    creditedRefunds: seq<nat>, closeScheduled: bool, flags: map<Flag, bool>)

  datatype Flag = AUTOMATIC_CLOSE | BILLING

  datatype CheckName =
    MIGRATION | COLUMNS | RLS | CONTRACT_ACTIVE | CONTRACT_INTEGRITY | SUBSCRIPTIONS | LEDGER_UNIQUENESS |
    LEDGER_TIMEZONE | INVOICE_ARITHMETIC | INVOICE_SNAPSHOT | CREDITS_UNIQUENESS | SCHEDULER | ROLLOUT_FLAGS

  datatype Check = Check(name: CheckName, ok: bool)

  datatype Readiness = NOT_READY | READY_FOR_AUTOMATIC_CLOSE_PILOT | READY_FOR_MANUAL_PILOT | READY_FOR_STAGING

  predicate InForce(plan: Plan, now: int) { plan.isPublic && plan.from <= now && (plan.until.None? || plan.until.value > now) }

  // The newest plan in force; plans come newest first.
  function ActivePlan(plans: seq<Plan>, now: int): (active: Option<Plan>)
    ensures active.Some? <==> exists plan <- plans :: InForce(plan, now)
    ensures active.Some? ==> active.value in plans && InForce(active.value, now)
  {
    if plans == [] then None else if InForce(plans[0], now) then Some(plans[0]) else ActivePlan(plans[1..], now)
  }

  predicate PriceIsContractual(plan: Plan) { plan.inTaiwanDollars && plan.unitPrice == 1 && plan.cap == Some(1499) }

  // What each check asks for. Whether a plan's sealed contract is genuine is given.
  predicate Passes(s: Store, genuine: Plan -> bool, now: int, name: CheckName) {
    match name
    case MIGRATION => s.migrated
    case COLUMNS => s.schema.Some? && s.schema.value.0 == 6
    case RLS => s.schema.Some? && s.schema.value.1 == 2
    case CONTRACT_ACTIVE => ActivePlan(s.plans, now).Some?
    case CONTRACT_INTEGRITY =>
      var active := ActivePlan(s.plans, now);
      active.Some? && genuine(active.value) && PriceIsContractual(active.value)
    case SUBSCRIPTIONS => s.invalidSubscriptions == Some(0)
    case LEDGER_UNIQUENESS => LedgerPasses(s.events)
    case LEDGER_TIMEZONE => s.periodAnomalies == 0
    case INVOICE_ARITHMETIC => ArithmeticMismatches(s.invoices) == 0
    case INVOICE_SNAPSHOT => s.missingSnapshots == 0
    case CREDITS_UNIQUENESS => DuplicateGroups(s.creditedRefunds) == 0
    case SCHEDULER => s.closeScheduled
    case ROLLOUT_FLAGS => true
  }

  ghost predicate Sound(s: Store, genuine: Plan -> bool, now: int) { forall name :: Passes(s, genuine, now, name) }

  predicate On(s: Store, flag: Flag) { flag in s.flags && s.flags[flag] }

  predicate AllPass(checks: seq<Check>) { forall check <- checks :: check.ok }

  function Place(name: CheckName): nat {
    match name
    case MIGRATION => 0 case COLUMNS => 1 case RLS => 2 case CONTRACT_ACTIVE => 3 case CONTRACT_INTEGRITY => 4
    case SUBSCRIPTIONS => 5 case LEDGER_UNIQUENESS => 6 case LEDGER_TIMEZONE => 7 case INVOICE_ARITHMETIC => 8
    case INVOICE_SNAPSHOT => 9 case CREDITS_UNIQUENESS => 10 case SCHEDULER => 11 case ROLLOUT_FLAGS => 12
  }

  // The check list as far as it goes: every check in its place, with its own verdict.
  predicate Checked(checks: seq<Check>, n: nat, s: Store, genuine: Plan -> bool, now: int) {
    |checks| == n && forall i :: 0 <= i < n ==>
      Place(checks[i].name) == i && checks[i].ok == Passes(s, genuine, now, checks[i].name)
  }

  class Auditor {
    const s: Store
    const genuine: Plan -> bool
    const now: int
    var checks: seq<Check>

    constructor (s: Store, genuine: Plan -> bool, now: int)
      ensures this.s == s && this.genuine == genuine && this.now == now && checks == []
    {
      this.s, this.genuine, this.now, checks := s, genuine, now, [];
    }

    method Push(name: CheckName, ok: bool)
      requires Checked(checks, Place(name), s, genuine, now) && ok == Passes(s, genuine, now, name)
      modifies this
      ensures checks == old(checks) + [Check(name, ok)] && Checked(checks, Place(name) + 1, s, genuine, now)
    {
      hide Passes;
      checks := checks + [Check(name, ok)];
    }

    // The checks of the schema and of the contract.
    method CheckContract()
      requires checks == []
      modifies this
      ensures Checked(checks, 5, s, genuine, now)
    {
      assert Checked(checks, 0, s, genuine, now);
      hide Checked, ActivePlan, InForce;
      Push(MIGRATION, s.migrated);
      Push(COLUMNS, s.schema.Some? && s.schema.value.0 == 6);
      Push(RLS, s.schema.Some? && s.schema.value.1 == 2);
      var active := ActivePlan(s.plans, now);
      Push(CONTRACT_ACTIVE, active.Some?);
      if active.Some? {
        if genuine(active.value) {
          Push(CONTRACT_INTEGRITY, PriceIsContractual(active.value));
        } else {
          Push(CONTRACT_INTEGRITY, false);
        }
      } else {
        Push(CONTRACT_INTEGRITY, false);
      }
    }

    // The checks of subscriptions, ledger, invoices, credits and rollout, after those of the contract.
    method CheckRecords()
      requires Checked(checks, 5, s, genuine, now)
      modifies this
      ensures Checked(checks, 13, s, genuine, now)
    {
      hide Checked, LedgerPasses, ArithmeticMismatches, DuplicateGroups, ActivePlan;
      Push(SUBSCRIPTIONS, s.invalidSubscriptions == Some(0));
      Push(LEDGER_UNIQUENESS, LedgerPasses(s.events));
      Push(LEDGER_TIMEZONE, s.periodAnomalies == 0);
      Push(INVOICE_ARITHMETIC, ArithmeticMismatches(s.invoices) == 0);
      Push(INVOICE_SNAPSHOT, s.missingSnapshots == 0);
      Push(CREDITS_UNIQUENESS, DuplicateGroups(s.creditedRefunds) == 0);
      Push(SCHEDULER, s.closeScheduled);
      Push(ROLLOUT_FLAGS, true);
    }
  }

  lemma PlacesAreDistinct(a: CheckName, b: CheckName)
    ensures Place(a) < 13 && (Place(a) == Place(b) <==> a == b)
  {
  }

  lemma AllPassWhenSound(checks: seq<Check>, s: Store, genuine: Plan -> bool, now: int)
    requires Checked(checks, 13, s, genuine, now)
    ensures AllPass(checks) <==> Sound(s, genuine, now)
  {
    hide Passes, Place;
    if AllPass(checks) {
      forall name ensures Passes(s, genuine, now, name) {
        PlacesAreDistinct(name, name);
        PlacesAreDistinct(name, checks[Place(name)].name);
      }
    }
  }

  /** Thirteen checks in order, each with the verdict on its own matter. The audit is NOT_READY
      exactly when one of them failed; otherwise the flags decide. */
  method Audit(s: Store, genuine: Plan -> bool, now: int) returns (readiness: Readiness, checks: seq<Check>)
    ensures |checks| == 13
    ensures forall i :: 0 <= i < 13 ==> Place(checks[i].name) == i && checks[i].ok == Passes(s, genuine, now, checks[i].name)
    ensures readiness == NOT_READY <==> !AllPass(checks)
    ensures readiness == NOT_READY <==> !Sound(s, genuine, now)
    ensures readiness == READY_FOR_AUTOMATIC_CLOSE_PILOT <==> Sound(s, genuine, now) && On(s, AUTOMATIC_CLOSE)
    ensures readiness == READY_FOR_STAGING <==> Sound(s, genuine, now) && !On(s, AUTOMATIC_CLOSE) && !On(s, BILLING)
  {
    hide Passes, Place, Sound;
    var auditor := new Auditor(s, genuine, now);
    auditor.CheckContract();
    auditor.CheckRecords();
    checks := auditor.checks;
    AllPassWhenSound(checks, s, genuine, now);
    var blocking := !AllPass(checks);
    readiness :=
      if blocking then NOT_READY
      else if On(s, AUTOMATIC_CLOSE) then READY_FOR_AUTOMATIC_CLOSE_PILOT
      else if On(s, BILLING) then READY_FOR_MANUAL_PILOT
      else READY_FOR_STAGING;
  }

  /** What a ready ledger is worth: its refunds never exceed its completions. */
  lemma ReadyMeansBalanced(s: Store, genuine: Plan -> bool, now: int)
    requires Sound(s, genuine, now)
    ensures |References(s.events, FULL_REFUND)| <= |References(s.events, COMPLETED)|
  {
    assert Passes(s, genuine, now, LEDGER_UNIQUENESS);
    assert LedgerPasses(s.events);
    hide *;
    RefundsNeverExceedCompletions(s.events);
  }
}
