// The sign-in method switches of the platform administrator: the guard on the screen, the
// guard in the transaction that writes a flag, and every run of screens, requests to the
// service and expiring overrides.
module LoginMethods {
  datatype Provider = GOOGLE | LINE | APPLE | MICROSOFT

  // The global feature flags behind sign-in, by what they switch.
  datatype Switch = PASSWORD | OAUTH_ONLY | FOUNDATION | MOCK | OAuth(provider: Provider)

  // The flags that are on.
  type Flags = set<Switch>

  // Providers whose credentials are configured, those of them in live mode, and whether the
  // older Google sign-in is set up.
  datatype Environment = Environment(configured: set<Provider>, live: set<Provider>, legacyGoogle: bool)

  // What an administrator can sign in with.
  datatype Admin = Admin(hasPassword: bool, identities: set<Provider>, hasLegacyGoogle: bool)

  function Put(flags: Flags, flag: Switch, on: bool): Flags { if on then flags + {flag} else flags - {flag} }

  // ---- What the flags offer ----

  predicate PasswordWorks(flags: Flags) { PASSWORD in flags && OAUTH_ONLY !in flags }

  predicate Enabled(flags: Flags, env: Environment, p: Provider) {
    FOUNDATION in flags && OAuth(p) in flags && p in env.configured && (p in env.live || MOCK in flags)
  }

  predicate LegacyGoogle(flags: Flags, env: Environment) {
    && OAUTH_ONLY !in flags && FOUNDATION in flags && OAuth(GOOGLE) in flags && env.legacyGoogle
    && !Enabled(flags, env, GOOGLE)
  }

  predicate AnyEnabled(flags: Flags, env: Environment) {
    Enabled(flags, env, GOOGLE) || Enabled(flags, env, LINE) || Enabled(flags, env, APPLE) || Enabled(flags, env, MICROSOFT)
  }

  /** Some sign-in method works. */
  predicate Open(flags: Flags, env: Environment) {
    PasswordWorks(flags) || LegacyGoogle(flags, env) || AnyEnabled(flags, env)
  }

  /** The administrator can sign in. */
  predicate Recoverable(flags: Flags, env: Environment, admin: Admin) {
    || (PasswordWorks(flags) && admin.hasPassword)
    || (exists p <- admin.identities :: Enabled(flags, env, p))
    || (LegacyGoogle(flags, env) && admin.hasLegacyGoogle)
  }

  /** Does a method work that the screen has a switch for? */
  predicate Works(flags: Flags, env: Environment, method': Switch) {
    match method'
    case PASSWORD => PasswordWorks(flags)
    case OAuth(p) => Enabled(flags, env, p) || (p == GOOGLE && LegacyGoogle(flags, env))
    case _ => false
  }

  lemma OpenMeansSomethingWorks(flags: Flags, env: Environment)
    ensures Open(flags, env) <==> exists m :: Works(flags, env, m)
  {
    if Open(flags, env) {
      var m := if PasswordWorks(flags) then PASSWORD
               else if LegacyGoogle(flags, env) || Enabled(flags, env, GOOGLE) then OAuth(GOOGLE)
               else if Enabled(flags, env, LINE) then OAuth(LINE)
               else if Enabled(flags, env, APPLE) then OAuth(APPLE) else OAuth(MICROSOFT);
      assert Works(flags, env, m);
    } else {
      forall m: Switch ensures !Works(flags, env, m) { if m.OAuth? { EveryProvider(m.provider); } }
    }
  }

  lemma EveryProvider(p: Provider)
    ensures p in {GOOGLE, LINE, APPLE, MICROSOFT}
  {
  }

  // ---- The stored flags: as they are now, and once temporary overrides have expired ----

  datatype Settings = Settings(now: Flags, later: Flags)

  // What counts as a fallback: on now and later. The restriction to OAuth counts at once.
  function Strict(s: Settings): Flags {
    set flag | flag in s.now + s.later && (flag == OAUTH_ONLY || (flag in s.now && flag in s.later))
  }

  // The flags that the guard judges a write by.
  function Intended(s: Settings, flag: Switch, on: bool): Flags { Put(Strict(s), flag, on) }

  predicate Accepts(s: Settings, env: Environment, admin: Admin, flag: Switch, on: bool) {
    var flags := Intended(s, flag, on);
    && !(flag == PASSWORD && on && OAUTH_ONLY in flags)
    && !(flag.OAuth? && on && flag.provider !in env.configured && !(flag.provider == GOOGLE && LegacyGoogle(flags, env)))
    && Open(flags, env)
    && Recoverable(flags, env, admin)
  }

  // A write is a permanent override.
  function Carried(s: Settings, flag: Switch, on: bool): Settings { Settings(Put(s.now, flag, on), Put(s.later, flag, on)) }

  function Wrote(s: Settings, env: Environment, admin: Admin, flag: Switch, on: bool): Settings {
    if Accepts(s, env, admin, flag, on) then Carried(s, flag, on) else s
  }

  function Expired(s: Settings, flags: set<Switch>): Settings { s.(now := (s.now - flags) + (s.later * flags)) }

  // ---- The screen ----

  // A confirmation holds the flags of the moment of the click; a write may be preceded by
  // that of the identity foundation.
  datatype Phase = Idle | Confirming(asked: Switch, seen: Flags) | Writing(target: Switch, on: bool, foundationFirst: bool)

  datatype Screen = Screen(view: Flags, locked: bool, phase: Phase, hasError: bool)

  // What the page hands to the component when it loads.
  function ViewOf(flags: Flags): Flags {
    set flag | flag in flags && (flag.FOUNDATION? || flag.OAuth? || (flag.PASSWORD? && OAUTH_ONLY !in flags))
  }

  function Loaded(flags: Flags): Screen { Screen(ViewOf(flags), OAUTH_ONLY in flags, Idle, false) }

  predicate Configured(env: Environment, p: Provider) { p in env.configured || (p == GOOGLE && env.legacyGoogle) }

  predicate Visible(view: Flags, env: Environment, p: Provider) {
    FOUNDATION in view && OAuth(p) in view && Configured(env, p)
  }

  predicate Shows(view: Flags, env: Environment, target: Switch) {
    match target
    case PASSWORD => PASSWORD in view
    case OAuth(p) => Visible(view, env, p)
    case _ => false
  }

  function VisibleCount(view: Flags, env: Environment): nat {
    var g, l := Visible(view, env, GOOGLE), Visible(view, env, LINE);
    var a, m := Visible(view, env, APPLE), Visible(view, env, MICROSOFT);
    (if g then 1 else 0) + (if l then 1 else 0) + (if a then 1 else 0) + (if m then 1 else 0)
  }

  predicate Clickable(screen: Screen, env: Environment, target: Switch) {
    match target
    case PASSWORD => !screen.locked
    case OAuth(p) => Configured(env, p)
    case _ => false
  }

  // The screen's own guard.
  predicate Refuses(view: Flags, env: Environment, target: Switch) {
    match target
    case PASSWORD => PASSWORD in view && VisibleCount(view, env) == 0
    case OAuth(p) =>
      if Visible(view, env, p) then PASSWORD !in view && VisibleCount(view, env) <= 1 else !Configured(env, p)
    case _ => true
  }

  // ---- Runs ----

  datatype State = State(server: Settings, screen: Screen)

  // LOST: the server carried the write out if it accepted it, and the screen got an error.
  datatype Outcome = ACKED | REJECTED | LOST

  // Elsewhere is a write of any other screen or client, Expire the passing of overrides.
  datatype Event =
    | Load | Click(target: Switch) | Cancel | Confirm | Reply(outcome: Outcome)
    | Elsewhere(admin: Admin, flag: Switch, on: bool) | Expire(flags: set<Switch>)

  function Flag(write: Phase): Switch
    requires write.Writing?
  {
    if write.foundationFirst then FOUNDATION else write.target
  }

  function NextScreen(screen: Screen, env: Environment, e: Event): Screen {
    match (e, screen.phase)
    case (Click(target), Idle) =>
      if !Clickable(screen, env, target) then screen
      else if Refuses(screen.view, env, target) then screen.(hasError := true)
      else screen.(phase := Confirming(target, screen.view))
    case (Cancel, Confirming(_, _)) => screen.(phase := Idle)
    case (Confirm, Confirming(target, seen)) =>
      if Refuses(seen, env, target) then screen.(phase := Idle, hasError := true)
      else
        var on := !Shows(seen, env, target);
        screen.(phase := Writing(target, on, target.OAuth? && on && FOUNDATION !in seen), hasError := false)
    case _ => screen
  }

  function Answered(screen: Screen, ok: bool): Screen
    requires screen.phase.Writing?
  {
    var write := screen.phase;
    if !ok then screen.(phase := Idle, hasError := true)
    else screen.(view := Put(screen.view, Flag(write), write.on),
                 phase := if write.foundationFirst then Writing(write.target, write.on, false) else Idle)
  }

  // The administrator at the screen is given; so is the environment.
  function Next(s: State, env: Environment, me: Admin, e: Event): State {
    match e
    case Load => s.(screen := Loaded(s.server.now))
    case Elsewhere(admin, flag, on) => s.(server := Wrote(s.server, env, admin, flag, on))
    case Expire(flags) => s.(server := Expired(s.server, flags))
    case Reply(outcome) =>
      if !s.screen.phase.Writing? then s
      else
        var flag, on := Flag(s.screen.phase), s.screen.phase.on;
        State(if outcome == REJECTED then s.server else Wrote(s.server, env, me, flag, on),
              Answered(s.screen, outcome == ACKED && Accepts(s.server, env, me, flag, on)))
    case _ => s.(screen := NextScreen(s.screen, env, e))
  }

  function After(s: State, env: Environment, me: Admin, events: seq<Event>): State {
    if events == [] then s
    else Next(After(s, env, me, events[..|events| - 1]), env, me, events[|events| - 1])
  }

  // ---- Nobody is ever locked out ----

  // Everything that counts as a fallback in a is on in b, and b restricts no more.
  predicate AtLeast(b: Flags, a: Flags) {
    (forall flag :: flag in a && flag != OAUTH_ONLY ==> flag in b) && (OAUTH_ONLY in b ==> OAUTH_ONLY in a)
  }

  lemma OpenGrows(a: Flags, b: Flags, env: Environment)
    requires AtLeast(b, a) && Open(a, env)
    ensures Open(b, env)
  {
  }

  lemma StrictIsLeast(s: Settings, flags: set<Switch>)
    ensures AtLeast(s.now, Strict(s)) && AtLeast(s.later, Strict(s)) && AtLeast(Strict(Expired(s, flags)), Strict(s))
  {
  }

  // What a write leaves is what the guard judged.
  lemma CarriedAsIntended(s: Settings, flag: Switch, on: bool)
    ensures Strict(Carried(s, flag, on)) == Intended(s, flag, on)
  {
  }

  lemma StepKeepsOpen(s: State, env: Environment, me: Admin, e: Event)
    requires Open(Strict(s.server), env)
    ensures Open(Strict(Next(s, env, me, e).server), env)
  {
    hide Open, Strict, Intended, Expired, NextScreen, Answered;
    match e
    case Elsewhere(_, flag, on) => CarriedAsIntended(s.server, flag, on);
    case Expire(flags) =>
      StrictIsLeast(s.server, flags);
      OpenGrows(Strict(s.server), Strict(Expired(s.server, flags)), env);
    case Reply(_) =>
      if s.screen.phase.Writing? { CarriedAsIntended(s.server, Flag(s.screen.phase), s.screen.phase.on); }
    case _ =>
  }

  /** From a state in which some method works for good, some method works in every run: whatever
      is clicked, rejected, lost or half done, by any number of screens and clients, and
      whichever overrides expire. */
  lemma {:induction false} NeverLockedOut(s: State, env: Environment, me: Admin, events: seq<Event>)
    requires Open(Strict(s.server), env)
    ensures var server := After(s, env, me, events).server; Open(Strict(server), env) && Open(server.now, env)
  {
    hide Open, Strict, Next;
    if events != [] {
      var n := |events| - 1;
      NeverLockedOut(s, env, me, events[..n]);
      StepKeepsOpen(After(s, env, me, events[..n]), env, me, events[n]);
    }
    var server := After(s, env, me, events).server;
    StrictIsLeast(server, {});
    OpenGrows(Strict(server), server.now, env);
  }

  /** That start is exactly what is needed: without it, overrides can expire in an order that
      leaves nothing. */
  lemma LastingMethodIsNeeded(s: State, env: Environment, me: Admin)
    ensures Open(Strict(s.server), env) <==> forall events :: Open(After(s, env, me, events).server.now, env)
  {
    hide Open;
    if Open(Strict(s.server), env) {
      forall events ensures Open(After(s, env, me, events).server.now, env) { NeverLockedOut(s, env, me, events); }
    } else {
      var server := s.server;
      var flags := (server.now - server.later - {OAUTH_ONLY}) + ((server.later - server.now) * {OAUTH_ONLY});
      assert Expired(server, flags).now == Strict(server);
      var run := [Expire(flags)];
      assert run[..0] == [];
      assert After(s, env, me, run) == Next(After(s, env, me, []), env, me, Expire(flags));
      assert !Open(After(s, env, me, run).server.now, env);
    }
  }

  /** The guard is not stricter than that: a write that leaves a method for its own
      administrator is refused only for a password under the restriction to OAuth, or a
      provider without credentials. */
  lemma RefusalsAreExact(s: Settings, env: Environment, admin: Admin, flag: Switch, on: bool)
    ensures Recoverable(Intended(s, flag, on), env, admin) ==> Open(Intended(s, flag, on), env)
    ensures !Accepts(s, env, admin, flag, on) <==>
      || !Recoverable(Intended(s, flag, on), env, admin)
      || (on && flag == PASSWORD && OAUTH_ONLY in s.now + s.later)
      || (on && flag.OAuth? && flag.provider !in env.configured &&
          !(flag.provider == GOOGLE && env.legacyGoogle && FOUNDATION in Strict(s) && OAUTH_ONLY !in s.now + s.later))
  {
    var flags := Intended(s, flag, on);
    if p :| p in admin.identities && Enabled(flags, env, p) { EveryProvider(p); }
  }

  // ---- Some administrator keeps access ----

  // The older Google sign-in gives way to the newer one when mock mode starts, unless Google
  // is live or has no credentials of its own.
  predicate GoogleIsSettled(env: Environment) {
    env.legacyGoogle ==> GOOGLE in env.live || GOOGLE !in env.configured
  }

  lemma RecoverableGrows(a: Flags, b: Flags, env: Environment, admin: Admin)
    requires GoogleIsSettled(env) && AtLeast(b, a) && Recoverable(a, env, admin)
    ensures Recoverable(b, env, admin)
  {
    if p :| p in admin.identities && Enabled(a, env, p) { assert Enabled(b, env, p); }
  }

  // One of the given administrators can sign in.
  ghost predicate OneCanSignIn(flags: Flags, env: Environment, admins: set<Admin>) {
    exists admin :: admin in admins && Recoverable(flags, env, admin)
  }

  lemma StepKeepsAccess(s: State, env: Environment, me: Admin, e: Event, admins: set<Admin>)
    requires GoogleIsSettled(env) && me in admins && (e.Elsewhere? ==> e.admin in admins)
    requires OneCanSignIn(Strict(s.server), env, admins)
    ensures OneCanSignIn(Strict(Next(s, env, me, e).server), env, admins)
  {
    hide Recoverable, Open, Strict, Intended, Expired, NextScreen, Answered;
    match e
    case Elsewhere(_, flag, on) => CarriedAsIntended(s.server, flag, on);
    case Expire(flags) =>
      var admin :| admin in admins && Recoverable(Strict(s.server), env, admin);
      StrictIsLeast(s.server, flags);
      RecoverableGrows(Strict(s.server), Strict(Expired(s.server, flags)), env, admin);
    case Reply(_) =>
      if s.screen.phase.Writing? { CarriedAsIntended(s.server, Flag(s.screen.phase), s.screen.phase.on); }
    case _ =>
  }

  /** While Google is settled, one of the administrators who write can sign in throughout. */
  lemma {:induction false} AnAdministratorKeepsAccess(s: State, env: Environment, me: Admin, events: seq<Event>, admins: set<Admin>)
    requires GoogleIsSettled(env) && me in admins && forall e <- events :: e.Elsewhere? ==> e.admin in admins
    requires OneCanSignIn(Strict(s.server), env, admins)
    ensures var server := After(s, env, me, events).server;
      OneCanSignIn(Strict(server), env, admins) && OneCanSignIn(server.now, env, admins)
  {
    hide Recoverable, Strict, Next;
    if events != [] {
      var n := |events| - 1;
      AnAdministratorKeepsAccess(s, env, me, events[..n], admins);
      assert events[n] in events;
      StepKeepsAccess(After(s, env, me, events[..n]), env, me, events[n], admins);
    }
    var server := After(s, env, me, events).server;
    var admin :| admin in admins && Recoverable(Strict(server), env, admin);
    StrictIsLeast(server, {});
    RecoverableGrows(Strict(server), server.now, env, admin);
  }

  /** The condition is exact: in every other environment a temporary end of mock mode, when it
      expires, takes the only method of an administrator away. */
  lemma SettledGoogleIsNeeded(env: Environment)
    ensures GoogleIsSettled(env) <==>
      forall s, flags, admin :: Recoverable(Strict(s), env, admin) ==> Recoverable(Strict(Expired(s, flags)), env, admin)
  {
    if GoogleIsSettled(env) {
      forall s, flags, admin | Recoverable(Strict(s), env, admin) ensures Recoverable(Strict(Expired(s, flags)), env, admin) {
        StrictIsLeast(s, flags);
        RecoverableGrows(Strict(s), Strict(Expired(s, flags)), env, admin);
      }
    } else {
      var google := {FOUNDATION, OAuth(GOOGLE)};
      var s, admin := Settings(google, google + {MOCK}), Admin(false, {}, true);
      assert Strict(s) == google;
      assert Strict(Expired(s, {MOCK})) == google + {MOCK};
      assert Recoverable(Strict(s), env, admin) && !Recoverable(Strict(Expired(s, {MOCK})), env, admin);
    }
  }

  // ---- The screen's guard beside the server's ----

  // Every provider that the screen can show works when it is shown.
  predicate ShownProvidersWork(flags: Flags, env: Environment) {
    forall p :: Configured(env, p) ==>
      || (p in env.configured && (p in env.live || MOCK in flags))
      || (p == GOOGLE && env.legacyGoogle && OAUTH_ONLY !in flags)
  }

  lemma ViewShowsWhatWorks(flags: Flags, env: Environment, m: Switch)
    ensures Works(flags, env, m) ==> Shows(ViewOf(flags), env, m)
    ensures ShownProvidersWork(flags, env) ==> (Works(flags, env, m) <==> Shows(ViewOf(flags), env, m))
  {
  }

  lemma GuardLooksForAnother(view: Flags, env: Environment, target: Switch)
    requires Shows(view, env, target)
    ensures Refuses(view, env, target) <==> forall m :: m != target ==> !Shows(view, env, m)
  {
    hide Visible;
    forall m: Switch | m.OAuth? ensures m.provider in {GOOGLE, LINE, APPLE, MICROSOFT} { EveryProvider(m.provider); }
    assert Shows(view, env, PASSWORD) <==> PASSWORD in view;
    assert Shows(view, env, OAuth(GOOGLE)) <==> Visible(view, env, GOOGLE);
    assert Shows(view, env, OAuth(LINE)) <==> Visible(view, env, LINE);
    assert Shows(view, env, OAuth(APPLE)) <==> Visible(view, env, APPLE);
    assert Shows(view, env, OAuth(MICROSOFT)) <==> Visible(view, env, MICROSOFT);
    if target.OAuth? { EveryProvider(target.provider); }
  }

  lemma SwitchingOffHidesOneMethod(flags: Flags, env: Environment, target: Switch)
    requires target.PASSWORD? || target.OAuth?
    ensures forall m :: Works(Put(flags, target, false), env, m) <==> m != target && Works(flags, env, m)
  {
  }

  /** On an up-to-date screen, switching off what the screen refuses would leave no method on the
      server either; and where every provider shown works, the two guards agree. */
  lemma ScreenGuardAgrees(flags: Flags, env: Environment, target: Switch)
    requires Shows(ViewOf(flags), env, target)
    ensures Refuses(ViewOf(flags), env, target) ==> !Open(Put(flags, target, false), env)
    ensures ShownProvidersWork(flags, env) ==>
              (Refuses(ViewOf(flags), env, target) <==> !Open(Put(flags, target, false), env))
  {
    hide Works, Shows, Refuses, Open, ViewOf, ShownProvidersWork;
    GuardLooksForAnother(ViewOf(flags), env, target);
    OpenMeansSomethingWorks(Put(flags, target, false), env);
    TargetsHaveSwitches(ViewOf(flags), env, target);
    SwitchingOffHidesOneMethod(flags, env, target);
    forall m
      ensures Works(flags, env, m) ==> Shows(ViewOf(flags), env, m)
      ensures ShownProvidersWork(flags, env) ==> (Works(flags, env, m) <==> Shows(ViewOf(flags), env, m))
    {
      ViewShowsWhatWorks(flags, env, m);
    }
  }

  lemma TargetsHaveSwitches(view: Flags, env: Environment, target: Switch)
    requires Shows(view, env, target)
    ensures target.PASSWORD? || target.OAuth?
  {
  }

  /** Writing a flag: a method switched on hides no other, one switched off hides itself alone,
      and the foundation makes every provider work whose own flag is on and that can run. */
  lemma WriteEffects(flags: Flags, env: Environment, flag: Switch, p: Provider)
    requires flag.PASSWORD? || flag.FOUNDATION? || flag.OAuth?
    ensures forall m :: Works(flags, env, m) ==> Works(Put(flags, flag, true), env, m)
    ensures flag != FOUNDATION ==>
              forall m :: Works(Put(flags, flag, false), env, m) <==> m != flag && Works(flags, env, m)
    ensures Works(Put(flags, FOUNDATION, true), env, OAuth(p)) <==>
              OAuth(p) in flags && ((p in env.configured && (p in env.live || MOCK in flags)) ||
                                    (p == GOOGLE && env.legacyGoogle && OAUTH_ONLY !in flags))
  {
  }

  // ---- What the screen knows ----

  // Events after which a screen that knew the flags still knows them.
  predicate KeepsScreenCurrent(e: Event) { !e.Elsewhere? && !e.Expire? && e != Reply(LOST) }

  predicate Current(s: State) {
    && s.screen.view == ViewOf(s.server.now)
    && (s.screen.locked <==> OAUTH_ONLY in s.server.now)
    && (s.screen.phase.Confirming? ==>
          s.screen.phase.seen == s.screen.view && (s.screen.phase.asked.PASSWORD? || s.screen.phase.asked.OAuth?) &&
          (s.screen.phase.asked == PASSWORD ==> !s.screen.locked))
    && (s.screen.phase.Writing? ==>
          (s.screen.phase.target.PASSWORD? || s.screen.phase.target.OAuth?) &&
          (s.screen.phase.target == PASSWORD ==> !s.screen.locked))
  }

  lemma ViewFollowsWrite(flags: Flags, flag: Switch, on: bool)
    requires flag.FOUNDATION? || flag.OAuth? || (flag.PASSWORD? && OAUTH_ONLY !in flags)
    ensures ViewOf(Put(flags, flag, on)) == Put(ViewOf(flags), flag, on)
    ensures OAUTH_ONLY in Put(flags, flag, on) <==> OAUTH_ONLY in flags
  {
  }

  lemma StepKeepsCurrent(s: State, env: Environment, me: Admin, e: Event)
    requires Current(s) && KeepsScreenCurrent(e)
    ensures Current(Next(s, env, me, e))
  {
    hide Refuses, Accepts, ViewOf, Put;
    if e.Reply? && s.screen.phase.Writing? {
      ViewFollowsWrite(s.server.now, Flag(s.screen.phase), s.screen.phase.on);
    }
  }

  /** While no reply is lost and nobody else writes, a loaded screen shows what is stored, also
      between the two writes of one click and when the second one fails. */
  lemma {:induction false} ScreenShowsTheServer(s: State, env: Environment, me: Admin, events: seq<Event>)
    requires forall e <- events :: KeepsScreenCurrent(e)
    ensures Current(After(s, env, me, [Load] + events))
  {
    hide Next, Current;
    var n := |events|;
    if n == 0 {
      assert [Load] + events == [Load] && [Load][..0] == [];
      assert After(s, env, me, [Load]) == Next(After(s, env, me, []), env, me, Load);
      LoadedIsCurrent(s, env, me);
    } else {
      var last := events[n - 1];
      assert last in events;
      ScreenShowsTheServer(s, env, me, events[..n - 1]);
      assert ([Load] + events)[..n] == [Load] + events[..n - 1];
      StepKeepsCurrent(After(s, env, me, [Load] + events[..n - 1]), env, me, last);
    }
  }

  lemma LoadedIsCurrent(s: State, env: Environment, me: Admin)
    ensures Current(Next(s, env, me, Load))
  {
  }

  /** What a lost reply does: the method goes off on the server and stays on the screen, until
      the page is loaded again. */
  lemma LostReplyLeavesTheScreenBehind(s: State, env: Environment, me: Admin)
    requires Current(s) && s.screen.phase.Writing? && !s.screen.phase.on && !s.screen.phase.foundationFirst
    requires s.screen.phase.target in s.screen.view
    ensures var after := Next(s, env, me, Reply(LOST));
      && after.screen.view == s.screen.view && after.screen.hasError
      && (Current(after) <==> !Accepts(s.server, env, me, s.screen.phase.target, false))
      && Current(Next(after, env, me, Load))
  {
    var target := s.screen.phase.target;
    ViewFollowsWrite(s.server.now, target, false);
    LoadedIsCurrent(Next(s, env, me, Reply(LOST)), env, me);
  }

  /** And the write that would take the last method away is refused, however far behind the
      screen is: nothing is stored, the screen keeps its view and reports an error. */
  lemma LastMethodIsRefused(s: State, env: Environment, me: Admin, outcome: Outcome)
    requires s.screen.phase.Writing? && !Open(Intended(s.server, Flag(s.screen.phase), s.screen.phase.on), env)
    ensures Next(s, env, me, Reply(outcome)) == State(s.server, s.screen.(phase := Idle, hasError := true))
  {
  }

  /** Password and one provider are on. The provider goes off and the reply is lost; the screen
      then lets the password be switched off as well; the server refuses, and the password works. */
  lemma AfterALostReply(env: Environment, me: Admin, p: Provider)
    requires p in env.configured && p in env.live && me.hasPassword
    ensures var both := {PASSWORD, FOUNDATION, OAuth(p)};
      var s := After(State(Settings(both, both), Loaded(both)), env, me,
                     [Click(OAuth(p)), Confirm, Reply(LOST), Click(PASSWORD), Confirm, Reply(ACKED)]);
      && s.server.now == {PASSWORD, FOUNDATION} && s.screen.view == both && s.screen.hasError && s.screen.phase == Idle
  {
    var both := {PASSWORD, FOUNDATION, OAuth(p)};
    var start := State(Settings(both, both), Loaded(both));
    assert ViewOf(both) == both;
    var run := [Click(OAuth(p)), Confirm, Reply(LOST), Click(PASSWORD), Confirm, Reply(ACKED)];
    FirstWriteIsLost(env, me, p);
    SecondWriteIsRefused(env, me, p);
    RunOf(start, env, me, run[..3], run[3..]);
    assert run[..3] == [Click(OAuth(p)), Confirm, Reply(LOST)] && run[3..] == [Click(PASSWORD), Confirm, Reply(ACKED)];
    assert run == run[..3] + run[3..];
  }

  lemma FirstWriteIsLost(env: Environment, me: Admin, p: Provider)
    requires p in env.configured && p in env.live && me.hasPassword
    ensures var both, left := {PASSWORD, FOUNDATION, OAuth(p)}, {PASSWORD, FOUNDATION};
      After(State(Settings(both, both), Loaded(both)), env, me, [Click(OAuth(p)), Confirm, Reply(LOST)])
        == State(Settings(left, left), Screen(both, false, Idle, true))
  {
    var both := {PASSWORD, FOUNDATION, OAuth(p)};
    var start := State(Settings(both, both), Loaded(both));
    assert ViewOf(both) == both && Strict(start.server) == both;
    Run3(start, env, me, Click(OAuth(p)), Confirm, Reply(LOST));
    assert Put(both, OAuth(p), false) == {PASSWORD, FOUNDATION};
  }

  lemma SecondWriteIsRefused(env: Environment, me: Admin, p: Provider)
    requires p in env.configured && p in env.live && me.hasPassword
    ensures var both, left := {PASSWORD, FOUNDATION, OAuth(p)}, {PASSWORD, FOUNDATION};
      var s := State(Settings(left, left), Screen(both, false, Idle, true));
      After(s, env, me, [Click(PASSWORD), Confirm, Reply(ACKED)]) == s
  {
    var both, left := {PASSWORD, FOUNDATION, OAuth(p)}, {PASSWORD, FOUNDATION};
    var s := State(Settings(left, left), Screen(both, false, Idle, true));
    EveryProvider(p);
    assert VisibleCount(both, env) > 0;
    Run3(s, env, me, Click(PASSWORD), Confirm, Reply(ACKED));
    assert Strict(s.server) == left && Put(left, PASSWORD, false) == {FOUNDATION};
    var writing := s.(screen := s.screen.(phase := Writing(PASSWORD, false, false), hasError := false));
    LastMethodIsRefused(writing, env, me, ACKED);
  }

  lemma {:induction false} RunOf(s: State, env: Environment, me: Admin, xs: seq<Event>, ys: seq<Event>)
    ensures After(s, env, me, xs + ys) == After(After(s, env, me, xs), env, me, ys)
  {
    hide Next;
    if ys == [] {
      assert xs + ys == xs;
    } else {
      RunOf(s, env, me, xs, ys[..|ys| - 1]);
      assert (xs + ys)[..|xs + ys| - 1] == xs + ys[..|ys| - 1];
    }
  }

  lemma Run3(s: State, env: Environment, me: Admin, a: Event, b: Event, c: Event)
    ensures After(s, env, me, [a, b, c]) == Next(Next(Next(s, env, me, a), env, me, b), env, me, c)
  {
    hide Next;
    assert [a, b, c][..2] == [a, b] && [a, b][..1] == [a] && [a][..0] == [];
    assert After(s, env, me, [a]) == Next(After(s, env, me, []), env, me, a);
    assert After(s, env, me, [a, b]) == Next(After(s, env, me, [a]), env, me, b);
  }

  // ---- The service and the component ----

  class FeatureFlagService {
    const env: Environment
    var now: Flags
    var later: Flags

    constructor (env: Environment, settings: Settings)
      ensures this.env == env && Stored() == settings
    {
      this.env, now, later := env, settings.now, settings.later;
    }

    function Stored(): Settings
      reads this
    {
      Settings(now, later)
    }

    /** One transaction under the advisory lock: the guard judges the flags as they would be. */
    method SetOverride(admin: Admin, flag: Switch, on: bool) returns (ok: bool)
      modifies this
      ensures ok == Accepts(old(Stored()), env, admin, flag, on)
      ensures Stored() == Wrote(old(Stored()), env, admin, flag, on)
    {
      var flags := Put(Strict(Stored()), flag, on);
      if flag == PASSWORD && on && OAUTH_ONLY in flags { return false; }
      var legacy := LegacyGoogle(flags, env);
      if flag.OAuth? && on && flag.provider !in env.configured && !(flag.provider == GOOGLE && legacy) { return false; }
      var anyEnabled := AnyEnabled(flags, env);
      if !PasswordWorks(flags) && !legacy && !anyEnabled { return false; }
      if !Recoverable(flags, env, admin) { return false; }
      now, later := Put(now, flag, on), Put(later, flag, on);
      return true;
    }
  }

  class LoginMethodControls {
    const service: FeatureFlagService
    const me: Admin
    const locked: bool
    var passwordEnabled: bool
    var foundationEnabled: bool
    var providers: set<Provider>
    var phase: Phase
    var hasError: bool

    constructor (service: FeatureFlagService, me: Admin)
      ensures this.service == service && this.me == me
      ensures Now() == Next(State(service.Stored(), Loaded({})), service.env, me, Load)
    {
      this.service, this.me := service, me;
      locked := OAUTH_ONLY in service.now;
      passwordEnabled := PASSWORD in service.now && OAUTH_ONLY !in service.now;
      foundationEnabled := FOUNDATION in service.now;
      providers := set p: Provider | OAuth(p) in service.now;
      phase, hasError := Idle, false;
      new;
      assert View() == ViewOf(service.now);
    }

    function View(): Flags
      reads this
    {
      (if passwordEnabled then {PASSWORD} else {}) + (if foundationEnabled then {FOUNDATION} else {}) +
      (set p | p in providers :: OAuth(p))
    }

    function Now(): State
      reads this, service
    {
      State(service.Stored(), Screen(View(), locked, phase, hasError))
    }

    // Runs with the flags of the render in which it was created.
    method TogglePassword(seen: Flags, confirmed: bool)
      modifies this
      ensures View() == old(View())
      ensures phase == if Refuses(seen, service.env, PASSWORD) then Idle
                       else if confirmed then Writing(PASSWORD, PASSWORD !in seen, false) else Confirming(PASSWORD, seen)
      ensures hasError == (Refuses(seen, service.env, PASSWORD) || (!confirmed && old(hasError)))
    {
      var nextEnabled := PASSWORD !in seen;
      if !nextEnabled && VisibleCount(seen, service.env) == 0 {
        phase, hasError := Idle, true;
        return;
      }
      if !confirmed {
        phase := Confirming(PASSWORD, seen);
        return;
      }
      phase, hasError := Writing(PASSWORD, nextEnabled, false), false;
    }

    method ToggleProvider(seen: Flags, p: Provider, confirmed: bool)
      modifies this
      ensures View() == old(View())
      ensures var on := !Visible(seen, service.env, p);
        phase == if Refuses(seen, service.env, OAuth(p)) then Idle
                 else if confirmed then Writing(OAuth(p), on, on && FOUNDATION !in seen) else Confirming(OAuth(p), seen)
      ensures hasError == (Refuses(seen, service.env, OAuth(p)) || (!confirmed && old(hasError)))
    {
      hide VisibleCount;
      var nextEnabled := !Visible(seen, service.env, p);
      if nextEnabled && !Configured(service.env, p) {
        phase, hasError := Idle, true;
        return;
      }
      if !nextEnabled && PASSWORD !in seen && VisibleCount(seen, service.env) <= 1 {
        phase, hasError := Idle, true;
        return;
      }
      if !confirmed {
        phase := Confirming(OAuth(p), seen);
        return;
      }
      phase, hasError := Writing(OAuth(p), nextEnabled, nextEnabled && FOUNDATION !in seen), false;
    }

    method Toggle(seen: Flags, target: Switch, confirmed: bool)
      requires target.PASSWORD? || target.OAuth?
      requires phase == if confirmed then Confirming(target, seen) else Idle
      requires confirmed || (seen == View() && Clickable(Now().screen, service.env, target))
      modifies this
      ensures Now() == Next(old(Now()), service.env, me, if confirmed then Confirm else Click(target))
    {
      hide Refuses, Visible;
      if target == PASSWORD { TogglePassword(seen, confirmed); } else { ToggleProvider(seen, target.provider, confirmed); }
    }

    /** A disabled switch, or one behind the open confirmation, takes no click. */
    method OnClick(target: Switch)
      modifies this
      ensures Now() == Next(old(Now()), service.env, me, Click(target))
    {
      hide Refuses;
      if !phase.Idle? || !Clickable(Now().screen, service.env, target) { return; }
      Toggle(View(), target, false);
    }

    method OnCancel()
      modifies this
      ensures Now() == Next(old(Now()), service.env, me, Cancel)
    {
      if phase.Confirming? { phase := Idle; }
    }

    method OnConfirm()
      requires phase.Confirming? ==> phase.asked.PASSWORD? || phase.asked.OAuth?
      modifies this
      ensures Now() == Next(old(Now()), service.env, me, Confirm)
    {
      hide Refuses;
      if phase.Confirming? { Toggle(phase.seen, phase.asked, true); }
    }

    /** One request to set a global flag comes to its end. */
    method OnReply(outcome: Outcome)
      requires phase.Writing? ==> phase.target.PASSWORD? || phase.target.OAuth?
      modifies this, service
      ensures Now() == Next(old(Now()), service.env, me, Reply(outcome))
    {
      hide Accepts, Strict;
      if !phase.Writing? { return; }
      var write, ok := phase, false;
      if outcome != REJECTED { ok := service.SetOverride(me, Flag(write), write.on); }
      if outcome != ACKED || !ok {
        phase, hasError := Idle, true;
      } else if write.foundationFirst {
        foundationEnabled := write.on;
        phase := Writing(write.target, write.on, false);
      } else {
        if write.target == PASSWORD {
          passwordEnabled := write.on;
        } else {
          var p := write.target.provider;
          providers := if write.on then providers + {p} else providers - {p};
        }
        phase := Idle;
      }
      assert outcome == ACKED && ok ==> View() == Put(old(View()), Flag(write), write.on);
    }
  }
}
