// The life cycle of menu versions: the actions the screen offers, the transitions the
// service allows, and every run of commands of any number of administrators.
module CatalogVersions {
  import opened Prelude

  datatype Status =
    DRAFT | IN_REVIEW | APPROVED | SCHEDULED | PUBLISHING | ACTIVE | SUPERSEDED | ROLLED_BACK | FAILED | ARCHIVED

  type Id = nat

  datatype Version = Version(menuKey: nat, status: Status)

  type Catalog = map<Id, Version>

  // ---- The two tables ----

  function Allowed(current: Status): set<Status> {
    match current
    case DRAFT => {IN_REVIEW, ARCHIVED}
    case IN_REVIEW => {APPROVED, DRAFT, ARCHIVED}
    case APPROVED => {SCHEDULED, PUBLISHING, DRAFT, ARCHIVED}
    case SCHEDULED => {PUBLISHING, APPROVED, ARCHIVED}
    case PUBLISHING => {ACTIVE, FAILED}
    case ACTIVE => {SUPERSEDED, ROLLED_BACK}
    case SUPERSEDED => {ROLLED_BACK, ARCHIVED}
    case ROLLED_BACK => {ARCHIVED}
    case FAILED => {DRAFT, ARCHIVED}
    case ARCHIVED => {}
  }

  function Offered(current: Status): set<Status> {
    match current
    case DRAFT => {IN_REVIEW, ARCHIVED}
    case IN_REVIEW => {APPROVED, DRAFT}
    case APPROVED => {SCHEDULED, PUBLISHING, DRAFT}
    case SCHEDULED => {PUBLISHING, APPROVED}
    case PUBLISHING => {ACTIVE, FAILED}
    case ACTIVE => {ROLLED_BACK}
    case SUPERSEDED => {ROLLED_BACK, ARCHIVED}
    case ROLLED_BACK => {ARCHIVED}
    case FAILED => {DRAFT, ARCHIVED}
    case ARCHIVED => {}
  }

  /** The screen offers what the service allows, except that it archives no version under way
      and leaves superseding to the service. */
  lemma OfferedIsAllowed(current: Status, next: Status)
    ensures next in Offered(current) <==>
      next in Allowed(current) &&
      !(next == ARCHIVED && current in {IN_REVIEW, APPROVED, SCHEDULED}) && next != SUPERSEDED
    ensures current !in Allowed(current)
  {
  }

  // ---- The service ----

  datatype Command = CreateDraft(menuKey: nat) | Transition(id: Id, next: Status, scheduledAt: Option<int>)

  predicate Accepts(catalog: Catalog, c: Command) {
    c.Transition? ==>
      && c.id in catalog
      && c.next in Allowed(catalog[c.id].status)
      && (c.next == SCHEDULED ==> c.scheduledAt.Some?)
  }

  // The other active versions of the menu step back.
  function Superseded(catalog: Catalog, id: Id): Catalog
    requires id in catalog
  {
    map v | v in catalog ::
      if v != id && catalog[v] == Version(catalog[id].menuKey, ACTIVE) then catalog[v].(status := SUPERSEDED) else catalog[v]
  }

  function Apply(catalog: Catalog, c: Command, newId: Id): Catalog {
    if !Accepts(catalog, c) then catalog
    else
      match c
      case CreateDraft(menuKey) => if newId in catalog then catalog else catalog[newId := Version(menuKey, DRAFT)]
      case Transition(id, next, _) =>
        var others := if next == ACTIVE then Superseded(catalog, id) else catalog;
        others[id := Version(catalog[id].menuKey, next)]
  }

  // Commands come with the id that a created version would get.
  type Log = seq<(Command, Id)>

  function After(catalog: Catalog, log: Log): Catalog {
    if log == [] then catalog
    else var last := log[|log| - 1]; Apply(After(catalog, log[..|log| - 1]), last.0, last.1)
  }

  class CatalogService {
    var versions: Catalog
    var moduleOn: bool   // the headquarters module of the organization

    constructor (versions: Catalog, moduleOn: bool)
      ensures this.versions == versions && this.moduleOn == moduleOn
    {
      this.versions, this.moduleOn := versions, moduleOn;
    }

    method SwitchModule(on: bool)
      modifies this
      ensures moduleOn == on && versions == old(versions)
    {
      moduleOn := on;
    }

    method CreateCatalogDraft(menuKey: nat, newId: Id)
      requires newId !in versions
      modifies this
      ensures moduleOn == old(moduleOn)
      ensures versions == if moduleOn then Apply(old(versions), CreateDraft(menuKey), newId) else old(versions)
    {
      if !moduleOn { return; }
      versions := versions[newId := Version(menuKey, DRAFT)];
    }

    /** One serializable transaction; refused, it leaves every version as it was. */
    method TransitionCatalogVersion(id: Id, next: Status, scheduledAt: Option<int>) returns (ok: bool)
      modifies this
      ensures moduleOn == old(moduleOn)
      ensures ok == (moduleOn && Accepts(old(versions), Transition(id, next, scheduledAt)))
      ensures versions == if moduleOn then Apply(old(versions), Transition(id, next, scheduledAt), 0) else old(versions)
    {
      if !moduleOn { return false; }
      if id !in versions { return false; }
      var current := versions[id];
      if current.status == next || next !in Allowed(current.status) { return false; }
      if next == SCHEDULED && scheduledAt.None? { return false; }
      if next == ACTIVE {
        versions := map v | v in versions ::
          if versions[v].menuKey == current.menuKey && versions[v].status == ACTIVE && v != id
          then Version(versions[v].menuKey, SUPERSEDED) else versions[v];
      }
      versions := versions[id := current.(status := next)];
      return true;
    }
  }

  // ---- At most one active version of a menu ----

  predicate OneActive(catalog: Catalog) {
    forall v, w | v in catalog && w in catalog ::
      catalog[v].status == ACTIVE && catalog[w].status == ACTIVE && catalog[v].menuKey == catalog[w].menuKey ==> v == w
  }

  ghost predicate HasActive(catalog: Catalog, menuKey: nat) {
    exists v :: v in catalog && catalog[v] == Version(menuKey, ACTIVE)
  }

  lemma StepKeepsOneActive(catalog: Catalog, c: Command, newId: Id)
    requires OneActive(catalog)
    ensures OneActive(Apply(catalog, c, newId))
  {
    hide Allowed;
  }

  /** No run of commands, by any number of screens, makes two versions of a menu active. */
  lemma {:induction false} RunKeepsOneActive(catalog: Catalog, log: Log)
    requires OneActive(catalog)
    ensures OneActive(After(catalog, log))
  {
    if log != [] {
      var n := |log| - 1;
      RunKeepsOneActive(catalog, log[..n]);
      StepKeepsOneActive(After(catalog, log[..n]), log[n].0, log[n].1);
    }
  }

  /** A menu loses its active version, without a successor, by withdrawing it and in no other way. */
  lemma ActiveIsLostByWithdrawal(catalog: Catalog, c: Command, newId: Id, v: Id)
    requires OneActive(catalog) && v in catalog && catalog[v].status == ACTIVE
    ensures !HasActive(Apply(catalog, c, newId), catalog[v].menuKey) <==>
              c.Transition? && c.id == v && c.next in {SUPERSEDED, ROLLED_BACK}
  {
    var after := Apply(catalog, c, newId);
    if Accepts(catalog, c) && c.Transition? {
      if c.id == v {
        assert after[v].status in {SUPERSEDED, ROLLED_BACK};
      } else if c.next == ACTIVE && catalog[c.id].menuKey == catalog[v].menuKey {
        assert after[c.id] == Version(catalog[v].menuKey, ACTIVE);
      } else {
        assert after[v] == catalog[v];
      }
    } else {
      assert after[v] == catalog[v];
    }
  }

  // ---- The history of one version ----

  predicate Moves(a: Status, b: Status) { a == b || b in Allowed(a) }

  lemma StepMovesVersion(catalog: Catalog, c: Command, newId: Id, id: Id)
    requires id in catalog
    ensures var after := Apply(catalog, c, newId);
      id in after && Moves(catalog[id].status, after[id].status) && after[id].menuKey == catalog[id].menuKey
  {
  }

  lemma {:induction false} VersionsStay(catalog: Catalog, log: Log, id: Id)
    requires id in catalog
    ensures id in After(catalog, log) && After(catalog, log)[id].menuKey == catalog[id].menuKey
  {
    if log != [] {
      var n := |log| - 1;
      VersionsStay(catalog, log[..n], id);
      StepMovesVersion(After(catalog, log[..n]), log[n].0, log[n].1, id);
    }
  }

  // The status of a version after the first k commands.
  ghost function StatusAt(catalog: Catalog, log: Log, id: Id, k: nat): Status
    requires id in catalog && k <= |log|
  {
    VersionsStay(catalog, log[..k], id);
    After(catalog, log[..k])[id].status
  }

  lemma HistoryMoves(catalog: Catalog, log: Log, id: Id, k: nat)
    requires id in catalog && k < |log|
    ensures Moves(StatusAt(catalog, log, id, k), StatusAt(catalog, log, id, k + 1))
  {
    hide Moves;
    VersionsStay(catalog, log[..k], id);
    VersionsStay(catalog, log[..k + 1], id);
    assert log[..k + 1][..k] == log[..k];
    StepMovesVersion(After(catalog, log[..k]), log[k].0, log[k].1, id);
  }

  // The milestones a status has behind it: review, approval, publishing.
  function Stage(status: Status): nat {
    match status
    case DRAFT => 0
    case IN_REVIEW => 1
    case APPROVED => 2
    case SCHEDULED => 2
    case ARCHIVED => 0
    case _ => 3
  }

  ghost predicate Milestones(h: seq<Status>, d: nat, r: nat, a: nat, p: nat, n: nat)
    requires n < |h|
  {
    && d <= n && h[d] == DRAFT
    && (forall k :: d < k <= n ==> h[k] != DRAFT)
    && (Stage(h[n]) >= 1 ==> d < r <= n && h[r] == IN_REVIEW)
    && (Stage(h[n]) >= 2 ==> r < a <= n && h[a] == APPROVED)
    && (Stage(h[n]) >= 3 ==> a < p <= n && h[p] == PUBLISHING)
  }

  lemma {:induction false} MilestonesPassed(h: seq<Status>, n: nat) returns (d: nat, r: nat, a: nat, p: nat)
    requires n < |h| && h[0] == DRAFT && forall k :: 0 <= k < |h| - 1 ==> Moves(h[k], h[k + 1])
    ensures Milestones(h, d, r, a, p, n)
  {
    if n == 0 { return 0, 0, 0, 0; }
    d, r, a, p := MilestonesPassed(h, n - 1);
    assert Moves(h[n - 1], h[n - 1 + 1]);
    if h[n] == DRAFT {
      d := n;
    } else if h[n] != h[n - 1] {
      match h[n] {
        case IN_REVIEW => r := n;
        case APPROVED => if h[n - 1] == IN_REVIEW { a := n; }
        case PUBLISHING => p := n;
        case _ =>
      }
    }
  }

  // Last a draft after d commands, then in review, approved and publishing.
  ghost predicate ReviewedAt(catalog: Catalog, log: Log, id: Id, d: nat, r: nat, a: nat, p: nat)
    requires id in catalog
  {
    && d < r < a < p < |log|
    && StatusAt(catalog, log, id, d) == DRAFT
    && (forall k :: d < k <= |log| ==> StatusAt(catalog, log, id, k) != DRAFT)
    && StatusAt(catalog, log, id, r) == IN_REVIEW
    && StatusAt(catalog, log, id, a) == APPROVED
    && StatusAt(catalog, log, id, p) == PUBLISHING
  }

  /** A version that starts as a draft is active only after, since it was last a draft, it was
      in review, then approved, then publishing. */
  lemma ActivationWasReviewed(catalog: Catalog, log: Log, id: Id)
    requires id in catalog && catalog[id].status == DRAFT
    requires StatusAt(catalog, log, id, |log|) == ACTIVE
    ensures exists d, r, a, p :: ReviewedAt(catalog, log, id, d, r, a, p)
  {
    hide StatusAt, Moves, Allowed;
    var h := HistoryOf(catalog, log, id);
    var d, r, a, p := MilestonesPassed(h, |log|);
    assert h[d] == StatusAt(catalog, log, id, d) && h[r] == StatusAt(catalog, log, id, r);
    assert h[a] == StatusAt(catalog, log, id, a) && h[p] == StatusAt(catalog, log, id, p);
    assert p < |log| by { assert h[p] != h[|log|]; }
    forall k | d < k <= |log| ensures StatusAt(catalog, log, id, k) != DRAFT { assert h[k] != DRAFT; }
    assert ReviewedAt(catalog, log, id, d, r, a, p);
  }

  lemma HistoryOf(catalog: Catalog, log: Log, id: Id) returns (h: seq<Status>)
    requires id in catalog
    ensures |h| == |log| + 1 && forall k :: 0 <= k <= |log| ==> h[k] == StatusAt(catalog, log, id, k)
    ensures h[0] == catalog[id].status
    ensures forall k :: 0 <= k < |h| - 1 ==> Moves(h[k], h[k + 1])
  {
    h := [];
    assert StatusAt(catalog, log, id, 0) == catalog[id].status by { assert log[..0] == []; }
    hide StatusAt, Moves;
    for k := 0 to |log| + 1
      invariant |h| == k && forall j :: 0 <= j < k ==> h[j] == StatusAt(catalog, log, id, j)
    {
      h := h + [StatusAt(catalog, log, id, k)];
    }
    forall k | 0 <= k < |h| - 1 ensures Moves(h[k], h[k + 1]) { HistoryMoves(catalog, log, id, k); }
  }

  predicate Retired(status: Status) { status in {SUPERSEDED, ROLLED_BACK, ARCHIVED} }

  lemma {:induction false} RetiredForGood(h: seq<Status>, j: nat, k: nat)
    requires j <= k < |h| && forall i :: 0 <= i < |h| - 1 ==> Moves(h[i], h[i + 1])
    ensures Retired(h[j]) ==> Retired(h[k])
    ensures h[j] == ACTIVE ==> h[k] == ACTIVE || Retired(h[k])
    ensures h[j] == ARCHIVED ==> h[k] == ARCHIVED
  {
    if j < k {
      RetiredForGood(h, j, k - 1);
      assert Moves(h[k - 1], h[k - 1 + 1]);
    }
  }

  /** A version is active during one stretch of its history at most; archived is for good. */
  lemma ActiveOnce(catalog: Catalog, log: Log, id: Id, i: nat, j: nat, k: nat)
    requires id in catalog && i <= j <= k <= |log|
    ensures StatusAt(catalog, log, id, i) == ACTIVE && StatusAt(catalog, log, id, j) != ACTIVE ==>
              Retired(StatusAt(catalog, log, id, k))
    ensures StatusAt(catalog, log, id, i) == ARCHIVED ==> StatusAt(catalog, log, id, k) == ARCHIVED
  {
    hide StatusAt;
    var h := HistoryOf(catalog, log, id);
    assert h[i] == StatusAt(catalog, log, id, i) && h[j] == StatusAt(catalog, log, id, j) && h[k] == StatusAt(catalog, log, id, k);
    RetiredForGood(h, i, j);
    RetiredForGood(h, j, k);
    RetiredForGood(h, i, k);
  }

  // ---- Every version can be archived from the screen ----

  predicate OfferedPath(path: seq<Status>) {
    path != [] && forall k :: 0 <= k < |path| - 1 ==> path[k + 1] in Offered(path[k])
  }

  function StepsToArchive(status: Status): nat {
    match status
    case ARCHIVED => 0
    case DRAFT => 1
    case SUPERSEDED => 1
    case ROLLED_BACK => 1
    case FAILED => 1
    case IN_REVIEW => 2
    case APPROVED => 2
    case PUBLISHING => 2
    case ACTIVE => 2
    case SCHEDULED => 3
  }

  lemma NextTowardsArchive(status: Status) returns (next: Status)
    requires status != ARCHIVED
    ensures next in Offered(status) && StepsToArchive(next) == StepsToArchive(status) - 1
    ensures forall other :: other in Offered(status) ==> StepsToArchive(other) >= StepsToArchive(status) - 1
  {
    next := match status case IN_REVIEW => DRAFT case APPROVED => DRAFT case SCHEDULED => APPROVED
                         case PUBLISHING => FAILED case ACTIVE => ROLLED_BACK case _ => ARCHIVED;
  }

  /** From every status offered actions lead to ARCHIVED, in as few steps as the rank says. */
  lemma {:induction false} ArchiveIsReachable(status: Status) returns (path: seq<Status>)
    ensures OfferedPath(path) && path[0] == status && path[|path| - 1] == ARCHIVED
    ensures |path| - 1 == StepsToArchive(status)
    decreases StepsToArchive(status)
  {
    path := [status];
    if status != ARCHIVED {
      var next := NextTowardsArchive(status);
      var rest := ArchiveIsReachable(next);
      path := [status] + rest;
    }
  }

  lemma {:induction false} ArchiveTakesThatLong(path: seq<Status>)
    requires OfferedPath(path) && path[|path| - 1] == ARCHIVED
    ensures StepsToArchive(path[0]) <= |path| - 1
  {
    if |path| > 1 {
      assert path[0 + 1] in Offered(path[0]);
      ArchiveTakesThatLong(path[1..]);
      if path[0] != ARCHIVED { var next := NextTowardsArchive(path[0]); }
    }
  }

  // ---- The screen ----

  // LOST: the command was carried out, and the screen got no answer.
  datatype Outcome = DELIVERED | REJECTED | LOST

  datatype Event =
    | Press(id: Id, next: Status, scheduledAt: Option<int>)
    | Answer(outcome: Outcome)
    | Elsewhere(command: Command, newId: Id)
    | Module(on: bool)

  const DEFAULT_MENU: nat := 0

  // What the service lists for the screen.
  function Listed(catalog: Catalog): Catalog { map v | v in catalog && catalog[v].menuKey == DEFAULT_MENU :: catalog[v] }

  // refusals counts the offered commands that the service refused although the module was on.
  datatype Desk = Desk(view: Catalog, busy: Option<Command>, server: Catalog, moduleOn: bool, refusals: nat)

  function Opened(catalog: Catalog, moduleOn: bool): Desk { Desk(Listed(catalog), None, catalog, moduleOn, 0) }

  function Step(s: Desk, e: Event): Desk {
    match e
    case Press(id, next, scheduledAt) =>
      if s.busy.Some? || id !in s.view || next !in Offered(s.view[id].status) || (next == SCHEDULED && scheduledAt.None?) then s
      else s.(busy := Some(Transition(id, next, if next == SCHEDULED then scheduledAt else None)))
    case Elsewhere(command, newId) => if s.moduleOn then s.(server := Apply(s.server, command, newId)) else s
    case Module(on) => s.(moduleOn := on)
    case Answer(outcome) =>
      if s.busy.None? then s
      else if outcome == REJECTED || !s.moduleOn then s.(busy := None)
      else
        var after := Apply(s.server, s.busy.value, 0);
        if outcome == LOST then s.(busy := None, server := after)
        else if Accepts(s.server, s.busy.value) then s.(view := Listed(after), busy := None, server := after)
        else s.(busy := None, refusals := s.refusals + 1)
  }

  function AfterEvents(s: Desk, events: seq<Event>): Desk {
    if events == [] then s else Step(AfterEvents(s, events[..|events| - 1]), events[|events| - 1])
  }

  /** With one screen at work and no answer lost, the screen is never behind, and only a module
      that was switched off makes the service refuse what the screen offers. */
  lemma {:induction false} OffersAreHonoured(catalog: Catalog, moduleOn: bool, events: seq<Event>)
    requires forall e <- events :: !e.Elsewhere? && e != Answer(LOST)
    ensures var s := AfterEvents(Opened(catalog, moduleOn), events);
      && s.view == Listed(s.server) && s.refusals == 0
      && (s.busy.Some? ==> Accepts(s.server, s.busy.value))
  {
    hide Superseded;
    if events != [] {
      var n := |events| - 1;
      OffersAreHonoured(catalog, moduleOn, events[..n]);
      assert events[n] in events;
      var e, s := events[n], AfterEvents(Opened(catalog, moduleOn), events[..n]);
      if e.Press? && e.id in s.view { OfferedIsAllowed(s.view[e.id].status, e.next); }
    }
  }

  class CatalogVersionManager {
    const service: CatalogService
    var versions: Catalog
    var busy: Option<Command>
    var scheduledPublishAt: Option<int>
    var refusals: nat

    constructor (service: CatalogService)
      ensures this.service == service
      ensures Now() == Opened(service.versions, service.moduleOn)
    {
      this.service := service;
      versions, busy, scheduledPublishAt, refusals := Listed(service.versions), None, None, 0;
    }

    function Now(): Desk
      reads this, service
    {
      Desk(versions, busy, service.versions, service.moduleOn, refusals)
    }

    /** A press on one of the offered actions. */
    method BeginTransition(id: Id, next: Status)
      requires id in versions && next in Offered(versions[id].status)
      modifies this
      ensures Now() == Step(old(Now()), Press(id, next, old(scheduledPublishAt)))
    {
      if busy.Some? { return; }
      if next == SCHEDULED && scheduledPublishAt.None? { return; }
      busy := Some(Transition(id, next, if next == SCHEDULED then scheduledPublishAt else None));
    }

    /** The command reaches the service or not, and the answer the screen or not. */
    method EndTransition(outcome: Outcome)
      requires busy.Some? && busy.value.Transition?
      modifies this, service
      ensures Now() == Step(old(Now()), Answer(outcome))
    {
      var command := busy.value;
      var ok := false;
      if outcome != REJECTED {
        ok := service.TransitionCatalogVersion(command.id, command.next, command.scheduledAt);
        if outcome == DELIVERED && ok { versions := Listed(service.versions); }
        if outcome == DELIVERED && !ok && service.moduleOn { refusals := refusals + 1; }
      }
      busy := None;
    }
  }
}
