// Staff push notifications in the service worker: deduplication across retries
// and worker restarts, and the display receipt that may follow a notification.
//
// Every `await` of the worker is a step boundary. A step is an Event; which
// promises settle, in which order and with which outcome, is up to the run.
module PushReceipts {
  import opened Prelude

  type Tag = string

  // How long a shown tag is remembered, in milliseconds.
  const RETENTION := 86_400_000

  datatype Payload = Unreadable | Payload(kind: string, tag: Tag, url: string)

  predicate IsTagCharacter(c: char) { 'a' <= c <= 'f' || '0' <= c <= '9' || c == '-' }

  predicate IsPathCharacter(c: char) {
    'a' <= c <= 'z' || 'A' <= c <= 'Z' || '0' <= c <= '9' || c in "%_-"
  }

  predicate IsOrderTag(tag: Tag) {
    StartsWith(tag, "staff-order-") && |tag| == 48 && forall i :: 12 <= i < 48 ==> IsTagCharacter(tag[i])
  }

  predicate IsStaffPath(url: string) {
    StartsWith(url, "/staff/") && |url| > 7 && forall i :: 7 <= i < |url| ==> IsPathCharacter(url[i])
  }

  predicate Acceptable(p: Payload) {
    p.Payload? && p.kind == "STAFF_NEW_ORDER" && IsOrderTag(p.tag) && IsStaffPath(p.url)
  }

  // What a task of the in-flight map is waiting for.
  datatype Phase =
    | Reading     // pushWasShown
    | Showing     // showNotification was called
    | Displayed   // the notification is on screen, its promise still pending
    | Recording   // rememberPush is opening the store
    | Writing     // its readwrite transaction is open
    | Sending     // the receipt POST was sent

  datatype Effect = Shown(tag: Tag, at: int) | Receipt(tag: Tag, at: int)

  // The readwrite transaction: readwrite transactions on one store run one at a time.
  datatype Transaction = Closed | Open(tag: Tag, rows: map<Tag, int>, unvisited: set<Tag>)

  datatype Worker = Worker(
    tasks: map<Tag, Phase>,    // lost when the worker stops
    receipts: map<Tag, int>,   // the persistent store "shown"
    write: Transaction,
    now: int,
    log: seq<Effect>)

  datatype Event =
    | Tick(ms: nat)
    | Push(payload: Payload)
    | ReadSettles(tag: Tag, ok: bool)
    | Displays(tag: Tag)
    | DisplayFails(tag: Tag)
    | DisplayResolves(tag: Tag)
    | OpensWrite(tag: Tag)
    | Visits(key: Tag)
    | Commits
    | WriteFails(tag: Tag)
    | ReceiptSettles(tag: Tag)
    | Restart(committed: bool)

  function Fresh(start: int): Worker { Worker(map[], map[], Closed, start, []) }

  predicate At(w: Worker, tag: Tag, phase: Phase) { tag in w.tasks && w.tasks[tag] == phase }

  predicate Enabled(w: Worker, e: Event) {
    match e
    case Tick(_) => true
    case Push(_) => true
    case ReadSettles(tag, _) => At(w, tag, Reading)
    case Displays(tag) => At(w, tag, Showing)
    case DisplayFails(tag) => At(w, tag, Showing)
    case DisplayResolves(tag) => At(w, tag, Displayed)
    case OpensWrite(tag) => At(w, tag, Recording) && w.write.Closed?
    case Visits(key) => w.write.Open? && key in w.write.unvisited && key in w.write.rows
    case Commits => w.write.Open? && w.write.unvisited == {}
    case WriteFails(tag) => At(w, tag, Recording) || (At(w, tag, Writing) && w.write.Open? && w.write.tag == tag)
    case ReceiptSettles(tag) => At(w, tag, Sending)
    case Restart(committed) => committed ==> w.write.Open? && w.write.unvisited == {}
  }

  function MoveTo(w: Worker, tag: Tag, phase: Phase): Worker { w.(tasks := w.tasks[tag := phase]) }

  function Send(w: Worker, tag: Tag): Worker {
    MoveTo(w, tag, Sending).(log := w.log + [Receipt(tag, w.now)])
  }

  // The store holds Date.now() under the tag; the worker only asks whether it is truthy.
  predicate WasShown(receipts: map<Tag, int>, tag: Tag) { tag in receipts && receipts[tag] != 0 }

  function Next(w: Worker, e: Event): Worker
    requires Enabled(w, e)
  {
    match e
    case Tick(ms) => w.(now := w.now + ms)
    case Push(p) => if Acceptable(p) && p.tag !in w.tasks then MoveTo(w, p.tag, Reading) else w
    case ReadSettles(tag, ok) =>
      if ok && WasShown(w.receipts, tag) then Send(w, tag) else MoveTo(w, tag, Showing)
    case Displays(tag) => MoveTo(w, tag, Displayed).(log := w.log + [Shown(tag, w.now)])
    case DisplayFails(tag) => w.(tasks := w.tasks - {tag})
    case DisplayResolves(tag) => MoveTo(w, tag, Recording)
    case OpensWrite(tag) =>
      var rows := w.receipts[tag := w.now];
      MoveTo(w, tag, Writing).(write := Open(tag, rows, rows.Keys))
    case Visits(key) =>
      var rows := if w.write.rows[key] < w.now - RETENTION then w.write.rows - {key} else w.write.rows;
      w.(write := w.write.(rows := rows, unvisited := w.write.unvisited - {key}))
    case Commits => Send(w.(receipts := w.write.rows, write := Closed), w.write.tag)
    case WriteFails(tag) => Send(if w.tasks[tag] == Writing then w.(write := Closed) else w, tag)
    case ReceiptSettles(tag) => w.(tasks := w.tasks - {tag})
    case Restart(committed) =>
      w.(tasks := map[], receipts := if committed then w.write.rows else w.receipts, write := Closed)
  }

  predicate Runs(w: Worker, es: seq<Event>)
    decreases |es|
  {
    es == [] || (Enabled(w, es[0]) && Runs(Next(w, es[0]), es[1..]))
  }

  function After(w: Worker, es: seq<Event>): Worker
    requires Runs(w, es)
    decreases |es|
  {
    if es == [] then w else After(Next(w, es[0]), es[1..])
  }

  // ---- A receipt is only ever sent for a notification that was shown ----

  predicate ShownIn(log: seq<Effect>, tag: Tag) {
    exists j :: 0 <= j < |log| && log[j].Shown? && log[j].tag == tag
  }

  predicate ReceiptsFollowDisplays(log: seq<Effect>) {
    forall i :: 0 <= i < |log| && log[i].Receipt? ==> ShownIn(log[..i], log[i].tag)
  }

  ghost predicate LogIsSound(w: Worker) {
    && ReceiptsFollowDisplays(w.log)
    && (forall e :: e in w.log ==> IsOrderTag(e.tag))
  }

  // A tag in flight is well-formed; past showing, or on record, it was shown.
  predicate Accounted(w: Worker, tag: Tag) {
    && (tag in w.tasks ==> IsOrderTag(tag))
    && (tag in w.receipts ==> ShownIn(w.log, tag))
    && (tag in w.tasks && !w.tasks[tag].Reading? && !w.tasks[tag].Showing? ==> ShownIn(w.log, tag))
    && (w.write.Open? && tag in w.write.rows ==> ShownIn(w.log, tag))
  }

  ghost predicate RecordIsSound(w: Worker) {
    (w.write.Open? ==> At(w, w.write.tag, Writing)) && forall tag :: Accounted(w, tag)
  }

  ghost predicate Acknowledgeable(w: Worker) { LogIsSound(w) && RecordIsSound(w) }

  lemma ShownGrows(log: seq<Effect>, e: Effect)
    ensures forall tag :: ShownIn(log, tag) ==> ShownIn(log + [e], tag)
    ensures e.Shown? ==> ShownIn(log + [e], e.tag)
  {
    assert (log + [e])[|log|] == e;
    forall tag | ShownIn(log, tag) ensures ShownIn(log + [e], tag) {
      var j :| 0 <= j < |log| && log[j].Shown? && log[j].tag == tag;
      assert (log + [e])[j] == log[j];
    }
  }

  lemma FollowGrows(log: seq<Effect>, e: Effect)
    requires ReceiptsFollowDisplays(log)
    requires e.Receipt? ==> ShownIn(log, e.tag)
    ensures ReceiptsFollowDisplays(log + [e])
  {
    forall i | 0 <= i < |log + [e]| && (log + [e])[i].Receipt?
      ensures ShownIn((log + [e])[..i], (log + [e])[i].tag)
    {
      if i < |log| { assert (log + [e])[..i] == log[..i]; } else { assert (log + [e])[..i] == log; }
    }
  }

  lemma StepGrowsLog(w: Worker, e: Event, tag: Tag)
    requires Enabled(w, e)
    ensures ShownIn(w.log, tag) ==> ShownIn(Next(w, e).log, tag)
    ensures e == Displays(tag) ==> ShownIn(Next(w, e).log, tag)
  {
    hide ShownIn, Acceptable, WasShown;
    var next := Next(w, e);
    if next.log != w.log {
      var effect := if e.Displays? then Shown(e.tag, w.now) else next.log[|w.log|];
      ShownGrows(w.log, effect);
      assert next.log == w.log + [effect];
    }
  }

  lemma StepKeepsAccounted(w: Worker, e: Event, tag: Tag)
    requires RecordIsSound(w) && Enabled(w, e)
    ensures Accounted(Next(w, e), tag)
  {
    StepGrowsLog(w, e, tag);
    assert Accounted(w, tag);
    if e.OpensWrite? && e.tag == tag { assert At(w, tag, Recording); }
    hide RecordIsSound, ShownIn, IsOrderTag, IsStaffPath;
  }

  lemma StepKeepsRecord(w: Worker, e: Event)
    requires RecordIsSound(w) && Enabled(w, e)
    ensures RecordIsSound(Next(w, e))
  {
    hide Accounted, Acceptable, WasShown;
    forall tag ensures Accounted(Next(w, e), tag) { StepKeepsAccounted(w, e, tag); }
  }

  lemma StepKeepsLog(w: Worker, e: Event)
    requires Acknowledgeable(w) && Enabled(w, e)
    ensures LogIsSound(Next(w, e))
  {
    hide IsOrderTag, IsStaffPath, ShownIn, ReceiptsFollowDisplays;
    var next := Next(w, e);
    if next.log != w.log {
      var effect := next.log[|w.log|];
      assert Accounted(w, effect.tag);
      FollowGrows(w.log, effect);
    }
  }

  lemma {:induction false} RunKeepsAcknowledgeable(w: Worker, es: seq<Event>)
    requires Acknowledgeable(w) && Runs(w, es)
    ensures Acknowledgeable(After(w, es))
    decreases |es|
  {
    if es != [] {
      StepKeepsRecord(w, es[0]);
      StepKeepsLog(w, es[0]);
      RunKeepsAcknowledgeable(Next(w, es[0]), es[1..]);
    }
  }

  /** In every run, with any failures and restarts, a receipt for a tag follows a
      notification with that tag, and only well-formed order tags are ever used. */
  lemma ReceiptOnlyAfterNotification(start: int, es: seq<Event>)
    requires Runs(Fresh(start), es)
    ensures var log := After(Fresh(start), es).log;
      ReceiptsFollowDisplays(log) && forall e :: e in log ==> IsOrderTag(e.tag)
  {
    RunKeepsAcknowledgeable(Fresh(start), es);
  }

  // ---- Notifications with one tag are more than a day apart ----

  predicate Spaced(log: seq<Effect>) {
    forall i, j :: 0 <= i < j < |log| && log[i].Shown? && log[j].Shown? && log[i].tag == log[j].tag ==>
      log[j].at - log[i].at > RETENTION
  }

  predicate IsShown(effect: Effect, tag: Tag) { effect.Shown? && effect.tag == tag }

  // Shown within the last day.
  predicate Recent(w: Worker, tag: Tag) {
    exists i :: 0 <= i < |w.log| && IsShown(w.log[i], tag) && w.now - w.log[i].at <= RETENTION
  }

  // On its way from the screen to the store.
  predicate Pending(w: Worker, tag: Tag) { At(w, tag, Displayed) || At(w, tag, Recording) || At(w, tag, Writing) }

  // Shown within the last day, and about to be shown again or free to be.
  predicate Exposed(w: Worker, tag: Tag) {
    Recent(w, tag) && (At(w, tag, Showing) || (!Pending(w, tag) && !WasShown(w.receipts, tag)))
  }

  // The events that lose the record of a tag shown within the last day: a read of it that
  // fails, a write of it that fails, a commit that swept away an older record of it, and a
  // restart that finds no record of it.
  ghost predicate Harmful(w: Worker, e: Event)
    requires Enabled(w, e)
  {
    match e
    case ReadSettles(tag, ok) => !ok && Recent(w, tag)
    case WriteFails(tag) => Recent(w, tag) && !WasShown(w.receipts, tag)
    case Commits =>
      exists tag :: Recent(w, tag) && !At(w, tag, Displayed) && !At(w, tag, Recording) && !WasShown(w.write.rows, tag)
    case Restart(committed) =>
      exists tag :: Recent(w, tag) && !WasShown(if committed then w.write.rows else w.receipts, tag)
    case _ => false
  }

  ghost predicate RunsHarmlessly(w: Worker, es: seq<Event>)
    decreases |es|
  {
    es == [] || (Enabled(w, es[0]) && !Harmful(w, es[0]) && RunsHarmlessly(Next(w, es[0]), es[1..]))
  }

  ghost predicate OneWriter(w: Worker) {
    && (w.write.Open? ==> At(w, w.write.tag, Writing))
    && (forall tag :: At(w, tag, Writing) ==> w.write.Open? && w.write.tag == tag)
  }

  ghost predicate Guarded(w: Worker) {
    && Spaced(w.log)
    && (forall effect <- w.log :: effect.at <= w.now)
    && OneWriter(w)
    && (forall tag :: !Exposed(w, tag))
  }

  lemma StepKeepsOneWriter(w: Worker, e: Event)
    requires OneWriter(w) && Enabled(w, e)
    ensures OneWriter(Next(w, e))
  {
    hide WasShown, Acceptable;
    var next := Next(w, e);
    assert forall tag :: At(next, tag, Writing) ==> At(w, tag, Writing) || e == OpensWrite(tag);
  }

  // A step shows at most one tag, and time only makes a tag less recent.
  lemma StepAndRecent(w: Worker, e: Event, tag: Tag)
    requires Enabled(w, e)
    ensures e == Displays(tag) ==> Recent(Next(w, e), tag)
    ensures e != Displays(tag) && Recent(Next(w, e), tag) ==> Recent(w, tag)
    ensures !e.Tick? && Recent(w, tag) ==> Recent(Next(w, e), tag)
  {
    hide WasShown, Acceptable;
    var next := Next(w, e);
    if e == Displays(tag) { assert IsShown(next.log[|w.log|], tag); }
    if i :| 0 <= i < |w.log| && IsShown(w.log[i], tag) && w.now - w.log[i].at <= RETENTION { assert next.log[i] == w.log[i]; }
    if i :| 0 <= i < |next.log| && IsShown(next.log[i], tag) && next.now - next.log[i].at <= RETENTION {
      assert i < |w.log| ==> next.log[i] == w.log[i];
    }
  }

  // What an event does to the protection of one tag, by the branches of Harmful.
  lemma ExposureIsHarm(w: Worker, e: Event, tag: Tag)
    requires Guarded(w) && Enabled(w, e) && Exposed(Next(w, e), tag)
    ensures Harmful(w, e)
  {
    hide Spaced, Acceptable, WasShown, Recent;
    StepAndRecent(w, e, tag);
    assert !Exposed(w, tag);
  }

  lemma HarmToTag(w: Worker, e: Event)
    requires OneWriter(w) && Enabled(w, e) && (e.ReadSettles? || e.WriteFails?) && Harmful(w, e)
    ensures Exposed(Next(w, e), e.tag)
  {
    hide Acceptable, WasShown, Recent;
    StepAndRecent(w, e, e.tag);
  }

  lemma HarmByCommit(w: Worker, tag: Tag)
    requires OneWriter(w) && Enabled(w, Commits)
    requires Recent(w, tag) && !At(w, tag, Displayed) && !At(w, tag, Recording) && !WasShown(w.write.rows, tag)
    ensures Exposed(Next(w, Commits), tag)
  {
    hide Acceptable, WasShown, Recent;
    StepAndRecent(w, Commits, tag);
    var next := Next(w, Commits);
    assert next.receipts == w.write.rows && At(next, w.write.tag, Sending);
    StepKeepsOneWriter(w, Commits);
  }

  lemma HarmByRestart(w: Worker, committed: bool, tag: Tag)
    requires Enabled(w, Restart(committed))
    requires Recent(w, tag) && !WasShown(if committed then w.write.rows else w.receipts, tag)
    ensures Exposed(Next(w, Restart(committed)), tag)
  {
    hide Acceptable, WasShown, Recent;
    StepAndRecent(w, Restart(committed), tag);
  }

  lemma StepKeepsSpacing(w: Worker, e: Event)
    requires Guarded(w) && Enabled(w, e)
    ensures Spaced(Next(w, e).log) && forall effect <- Next(w, e).log :: effect.at <= Next(w, e).now
  {
    hide WasShown, Acceptable, OneWriter;
    if e.Displays? {
      assert !Exposed(w, e.tag);
      var log := Next(w, e).log;
      forall i | 0 <= i < |w.log| && IsShown(w.log[i], e.tag) ensures w.now - w.log[i].at > RETENTION {
        assert !Recent(w, e.tag);
      }
    }
  }

  /** An event is harmful exactly when it leaves some tag exposed. */
  lemma HarmExposes(w: Worker, e: Event)
    requires Guarded(w) && Enabled(w, e)
    ensures Harmful(w, e) <==> exists tag :: Exposed(Next(w, e), tag)
  {
    assert OneWriter(w);
    hide Guarded, OneWriter, Exposed, Next, Recent, WasShown;
    if tag :| Exposed(Next(w, e), tag) { ExposureIsHarm(w, e, tag); }
    if Harmful(w, e) {
      match e
      case Commits =>
        var tag :| Recent(w, tag) && !At(w, tag, Displayed) && !At(w, tag, Recording) && !WasShown(w.write.rows, tag);
        HarmByCommit(w, tag);
      case Restart(committed) =>
        var tag :| Recent(w, tag) && !WasShown(if committed then w.write.rows else w.receipts, tag);
        HarmByRestart(w, committed, tag);
      case _ => HarmToTag(w, e);
    }
  }

  lemma StepKeepsGuarded(w: Worker, e: Event)
    requires Guarded(w) && Enabled(w, e) && !Harmful(w, e)
    ensures Guarded(Next(w, e))
  {
    hide Spaced, Exposed, OneWriter, Next, Harmful, Enabled;
    StepKeepsSpacing(w, e);
    StepKeepsOneWriter(w, e);
    HarmExposes(w, e);
  }

  lemma {:induction false} RunKeepsGuarded(w: Worker, es: seq<Event>)
    requires Guarded(w) && RunsHarmlessly(w, es)
    ensures Runs(w, es) && Guarded(After(w, es))
    decreases |es|
  {
    hide Guarded, Harmful, Enabled, Next;
    if es != [] {
      StepKeepsGuarded(w, es[0]);
      RunKeepsGuarded(Next(w, es[0]), es[1..]);
    }
  }

  /** Until the first harmful event, two notifications with the same tag are more than
      RETENTION apart. */
  lemma SameTagNotificationsAreSpaced(start: int, es: seq<Event>)
    requires RunsHarmlessly(Fresh(start), es)
    ensures Runs(Fresh(start), es) && Spaced(After(Fresh(start), es).log)
  {
    RunKeepsGuarded(Fresh(start), es);
  }

  // ---- A working store and no untimely restart ----

  // The store answers, and the worker does not stop between calling showNotification and the
  // commit of rememberPush.
  predicate Reliable(w: Worker, e: Event) {
    match e
    case ReadSettles(_, ok) => ok
    case WriteFails(_) => false
    case Restart(_) => forall tag :: tag in w.tasks ==> w.tasks[tag] in {Reading, Sending}
    case _ => true
  }

  predicate RunsReliably(w: Worker, es: seq<Event>)
    decreases |es|
  {
    es == [] || (Enabled(w, es[0]) && Reliable(w, es[0]) && RunsReliably(Next(w, es[0]), es[1..]))
  }

  // A notification shown at t is still on record in rows, or lies more than a day back.
  predicate OnRecord(rows: map<Tag, int>, tag: Tag, t: int, now: int) {
    (tag in rows && t <= rows[tag] && 0 < rows[tag]) || now - t > RETENTION
  }

  // Where the record of a notification is.
  predicate Recorded(w: Worker, tag: Tag, t: int) {
    && t <= w.now
    && (At(w, tag, Showing) ==> w.now - t > RETENTION)
    && (Pending(w, tag) || OnRecord(w.receipts, tag, t, w.now))
    && (w.write.Open? ==> At(w, tag, Displayed) || At(w, tag, Recording) || OnRecord(w.write.rows, tag, t, w.now))
  }

  ghost predicate Deduplicating(w: Worker) {
    && 0 < w.now && OneWriter(w)
    && forall effect <- w.log :: effect.Shown? ==> Recorded(w, effect.tag, effect.at)
  }

  // The steps of the transaction, for one notification.
  lemma TransactionKeepsRecorded(w: Worker, e: Event, tag: Tag, t: int)
    requires 0 < w.now && OneWriter(w) && Recorded(w, tag, t) && Enabled(w, e)
    requires e.OpensWrite? || e.Visits? || e.Commits?
    ensures Recorded(Next(w, e), tag, t)
  {
    hide Acceptable, WasShown;
  }

  lemma PushKeepsRecorded(w: Worker, e: Event, tag: Tag, t: int)
    requires 0 < w.now && OneWriter(w) && Recorded(w, tag, t) && Enabled(w, e) && Reliable(w, e)
    requires !e.OpensWrite? && !e.Visits? && !e.Commits?
    ensures Recorded(Next(w, e), tag, t)
  {
    hide Acceptable;
  }

  lemma StepKeepsDeduplicating(w: Worker, e: Event)
    requires Deduplicating(w) && Enabled(w, e) && Reliable(w, e)
    ensures Deduplicating(Next(w, e))
  {
    StepKeepsOneWriter(w, e);
    hide OneWriter, Recorded, Reliable, WasShown, Acceptable;
    var next := Next(w, e);
    forall effect <- w.log | effect.Shown? ensures Recorded(next, effect.tag, effect.at) {
      if e.OpensWrite? || e.Visits? || e.Commits? {
        TransactionKeepsRecorded(w, e, effect.tag, effect.at);
      } else {
        PushKeepsRecorded(w, e, effect.tag, effect.at);
      }
    }
    if e.Displays? { NewlyShownIsRecorded(w, e.tag); }
  }

  lemma NewlyShownIsRecorded(w: Worker, tag: Tag)
    requires Enabled(w, Displays(tag))
    ensures Recorded(Next(w, Displays(tag)), tag, w.now)
  {
  }

  lemma ReliableIsHarmless(w: Worker, e: Event)
    requires Deduplicating(w) && Enabled(w, e) && Reliable(w, e)
    ensures !Harmful(w, e)
  {
    forall tag | Recent(w, tag) ensures exists t :: w.now - t <= RETENTION && Recorded(w, tag, t) {
      var i :| 0 <= i < |w.log| && IsShown(w.log[i], tag) && w.now - w.log[i].at <= RETENTION;
      assert w.log[i] in w.log;
    }
    hide Recent, Acceptable;
  }

  /** While the store works and no restart separates showing from remembering, nothing harmful
      happens. */
  lemma {:induction false} ReliableRunsAreHarmless(w: Worker, es: seq<Event>)
    requires Deduplicating(w) && RunsReliably(w, es)
    ensures RunsHarmlessly(w, es)
    decreases |es|
  {
    hide Deduplicating, Harmful, Reliable, Enabled, Next;
    if es != [] {
      ReliableIsHarmless(w, es[0]);
      StepKeepsDeduplicating(w, es[0]);
      ReliableRunsAreHarmless(Next(w, es[0]), es[1..]);
    }
  }

  lemma ReliableRunsAreSpaced(start: int, es: seq<Event>)
    requires 0 < start && RunsReliably(Fresh(start), es)
    ensures Runs(Fresh(start), es) && Spaced(After(Fresh(start), es).log)
  {
    ReliableRunsAreHarmless(Fresh(start), es);
    SameTagNotificationsAreSpaced(start, es);
  }

  // A concrete push for the two runs below.
  const SAMPLE := Payload("STAFF_NEW_ORDER", "staff-order-" + seq(36, _ => '0'), "/staff/" + ['1'])

  lemma SampleIsAcceptable()
    ensures Acceptable(SAMPLE)
  {
    var tag, url := SAMPLE.tag, SAMPLE.url;
    assert tag[..12] == "staff-order-" && url[..7] == "/staff/";
    forall i | 12 <= i < 48 ensures tag[i] == '0' { assert tag[i] == seq(36, _ => '0')[i - 12]; }
    assert url[7] == '1';
  }

  lemma RunStep(w: Worker, e: Event, rest: seq<Event>)
    requires Enabled(w, e) && Runs(Next(w, e), rest)
    ensures Runs(w, [e] + rest) && After(w, [e] + rest) == After(Next(w, e), rest)
  {
    assert ([e] + rest)[1..] == rest;
  }

  lemma {:induction false} RunInTwoParts(w: Worker, first: seq<Event>, second: seq<Event>)
    requires Runs(w, first) && Runs(After(w, first), second)
    ensures Runs(w, first + second) && After(w, first + second) == After(After(w, first), second)
    decreases |first|
  {
    if first == [] {
      assert first + second == second;
    } else {
      RunInTwoParts(Next(w, first[0]), first[1..], second);
      assert (first + second)[1..] == first[1..] + second;
    }
  }

  // A push for a tag on no record and not in flight brings its notification on screen.
  lemma DisplayRun(w: Worker, p: Payload, ok: bool)
    requires Acceptable(p) && p.tag !in w.tasks && (ok ==> !WasShown(w.receipts, p.tag))
    ensures var es := [Push(p), ReadSettles(p.tag, ok), Displays(p.tag)];
      Runs(w, es) && After(w, es) == MoveTo(w, p.tag, Displayed).(log := w.log + [Shown(p.tag, w.now)])
  {
    var w1 := Next(w, Push(p));
    var w2 := Next(w1, ReadSettles(p.tag, ok));
    var w3 := Next(w2, Displays(p.tag));
    RunStep(w2, Displays(p.tag), []);
    RunStep(w1, ReadSettles(p.tag, ok), [Displays(p.tag)]);
    RunStep(w, Push(p), [ReadSettles(p.tag, ok), Displays(p.tag)]);
    assert [ReadSettles(p.tag, ok)] + [Displays(p.tag)] == [ReadSettles(p.tag, ok), Displays(p.tag)];
    assert [Push(p)] + [ReadSettles(p.tag, ok), Displays(p.tag)] == [Push(p), ReadSettles(p.tag, ok), Displays(p.tag)];
    assert w3.tasks == w.tasks[p.tag := Displayed];
  }

  // The same worker then remembers it (store otherwise empty) ...
  lemma RememberRun(w: Worker, tag: Tag)
    requires w.tasks == map[tag := Displayed] && w.receipts == map[] && w.write == Closed
    ensures var es := [DisplayResolves(tag), OpensWrite(tag), Visits(tag)];
      Runs(w, es) && After(w, es) == Worker(map[tag := Writing], map[], Open(tag, map[tag := w.now], {}), w.now, w.log)
  {
    var es := [DisplayResolves(tag), OpensWrite(tag), Visits(tag)];
    var w1 := Next(w, es[0]);
    var w2 := Next(w1, es[1]);
    var w3 := Next(w2, es[2]);
    assert w2.tasks == map[tag := Writing] && w2.write == Open(tag, map[tag := w.now], {tag});
    assert w3.write == Open(tag, map[tag := w.now], {});
    assert w3 == Worker(map[tag := Writing], map[], Open(tag, map[tag := w.now], {}), w.now, w.log);
    hide Next, Enabled;
    RunStep(w2, es[2], []);
    RunStep(w1, es[1], [es[2]]);
    RunStep(w, es[0], [es[1]] + [es[2]]);
    assert [es[0]] + ([es[1]] + [es[2]]) == es;
  }

  // ... and sends the receipt.
  lemma RecordRun(w: Worker, tag: Tag)
    requires w.tasks == map[tag := Displayed] && w.receipts == map[] && w.write == Closed
    ensures var es := [DisplayResolves(tag), OpensWrite(tag), Visits(tag)] + [Commits, ReceiptSettles(tag)];
      Runs(w, es) && After(w, es) == Worker(map[], map[tag := w.now], Closed, w.now, w.log + [Receipt(tag, w.now)])
  {
    var first := [DisplayResolves(tag), OpensWrite(tag), Visits(tag)];
    RememberRun(w, tag);
    var w3 := After(w, first);
    hide Runs, After;
    var w4 := Next(w3, Commits);
    var w5 := Next(w4, ReceiptSettles(tag));
    assert w5 == Worker(map[], map[tag := w.now], Closed, w.now, w.log + [Receipt(tag, w.now)]);
    hide Next, Enabled;
    EmptyRun(w5);
    RunStep(w4, ReceiptSettles(tag), []);
    RunStep(w3, Commits, [ReceiptSettles(tag)]);
    assert [Commits] + [ReceiptSettles(tag)] == [Commits, ReceiptSettles(tag)];
    RunInTwoParts(w, first, [Commits, ReceiptSettles(tag)]);
  }

  lemma EmptyRun(w: Worker)
    ensures Runs(w, []) && After(w, []) == w
  {
  }

  /** Two such runs from the start. A restart between showing and remembering lets the same tag
      be shown again in the same millisecond ... */
  lemma RestartRepeatsNotification(start: int)
    ensures exists es :: Runs(Fresh(start), es) &&
              After(Fresh(start), es).log == [Shown(SAMPLE.tag, start), Shown(SAMPLE.tag, start)]
  {
    var w := Fresh(start);
    SampleIsAcceptable();
    DisplayRun(w, SAMPLE, true);
    var first := [Push(SAMPLE), ReadSettles(SAMPLE.tag, true), Displays(SAMPLE.tag)];
    var stopped := Next(After(w, first), Restart(false));
    RunStep(After(w, first), Restart(false), []);
    RunInTwoParts(w, first, [Restart(false)]);
    DisplayRun(stopped, SAMPLE, true);
    RunInTwoParts(w, first + [Restart(false)], first);
    assert After(w, first + [Restart(false)] + first).log == [Shown(SAMPLE.tag, start), Shown(SAMPLE.tag, start)];
  }

  /** ... and so does a receipt store that cannot be read back. */
  lemma UnreadableStoreRepeatsNotification(start: int)
    ensures exists es :: Runs(Fresh(start), es) &&
              After(Fresh(start), es).log ==
                [Shown(SAMPLE.tag, start), Receipt(SAMPLE.tag, start), Shown(SAMPLE.tag, start)]
  {
    var w, tag := Fresh(start), SAMPLE.tag;
    SampleIsAcceptable();
    DisplayRun(w, SAMPLE, true);
    var first := [Push(SAMPLE), ReadSettles(tag, true), Displays(tag)];
    RecordRun(After(w, first), tag);
    var second := [DisplayResolves(tag), OpensWrite(tag), Visits(tag)] + [Commits, ReceiptSettles(tag)];
    RunInTwoParts(w, first, second);
    DisplayRun(After(w, first + second), SAMPLE, false);
    var third := [Push(SAMPLE), ReadSettles(tag, false), Displays(tag)];
    RunInTwoParts(w, first + second, third);
    assert After(w, first + second + third).log == [Shown(tag, start), Receipt(tag, start), Shown(tag, start)];
  }

  // ---- What the first harmful event leads to ----

  lemma PayloadFor(tag: Tag) returns (p: Payload)
    requires IsOrderTag(tag)
    ensures Acceptable(p) && p.tag == tag
  {
    SampleIsAcceptable();
    hide IsOrderTag, IsStaffPath;
    p := SAMPLE.(tag := tag);
  }

  lemma RepeatIsTooEarly(w: Worker, tag: Tag)
    requires Recent(w, tag)
    ensures !Spaced(w.log + [Shown(tag, w.now)])
  {
    var i :| 0 <= i < |w.log| && IsShown(w.log[i], tag) && w.now - w.log[i].at <= RETENTION;
    var log := w.log + [Shown(tag, w.now)];
    assert log[i] == w.log[i] && log[|w.log|] == Shown(tag, w.now);
  }

  // Nothing fails, and no time passes.
  predicate Smooth(e: Event) { !e.Tick? && !e.Restart? && !e.WriteFails? && !e.DisplayFails? && (e.ReadSettles? ==> e.ok) }

  // The steps that are left until an exposed tag is on screen again.
  lemma ShownAgain(w: Worker, tag: Tag) returns (more: seq<Event>)
    requires Exposed(w, tag) && IsOrderTag(tag)
    ensures (forall e <- more :: Smooth(e)) && Runs(w, more)
    ensures After(w, more).log == w.log + [Shown(tag, w.now)]
  {
    hide Recent, IsOrderTag;
    if At(w, tag, Showing) {
      more := [Displays(tag)];
      RunStep(w, Displays(tag), []);
    } else if At(w, tag, Reading) {
      more := [ReadSettles(tag, true), Displays(tag)];
      var w1 := Next(w, ReadSettles(tag, true));
      RunStep(w1, Displays(tag), []);
      RunStep(w, ReadSettles(tag, true), [Displays(tag)]);
      assert more == [ReadSettles(tag, true)] + [Displays(tag)];
    } else {
      var p := PayloadFor(tag);
      var again := [Push(p), ReadSettles(tag, true), Displays(tag)];
      if At(w, tag, Sending) {
        more := [ReceiptSettles(tag)] + again;
        var w1 := Next(w, ReceiptSettles(tag));
        DisplayRun(w1, p, true);
        RunStep(w, ReceiptSettles(tag), again);
      } else {
        assert tag !in w.tasks;
        more := again;
        DisplayRun(w, p, true);
      }
    }
  }

  lemma {:induction false} RunGoesOn(w: Worker, es: seq<Event>, e: Event)
    requires Runs(w, es) && Enabled(After(w, es), e)
    ensures Runs(w, es + [e]) && After(w, es + [e]) == Next(After(w, es), e)
  {
    hide Next, Enabled;
    RunStep(After(w, es), e, []);
    RunInTwoParts(w, es, [e]);
  }

  /** The condition is exact: after any harmless run, a harmful event can be followed, with
      nothing else failing and no time passing, by a notification that comes too early. */
  lemma FirstHarmBreaksSpacing(start: int, es: seq<Event>, e: Event) returns (more: seq<Event>)
    requires RunsHarmlessly(Fresh(start), es) && Runs(Fresh(start), es)
    requires Enabled(After(Fresh(start), es), e) && Harmful(After(Fresh(start), es), e)
    ensures forall x <- more :: Smooth(x)
    ensures Runs(Fresh(start), es + [e] + more) && !Spaced(After(Fresh(start), es + [e] + more).log)
  {
    var w := After(Fresh(start), es);
    RunKeepsGuarded(Fresh(start), es);
    HarmExposes(w, e);
    RunGoesOn(Fresh(start), es, e);
    RunKeepsAcknowledgeable(Fresh(start), es + [e]);
    var next := Next(w, e);
    hide Next, Enabled, Harmful, Guarded, Spaced, Smooth, IsOrderTag, WasShown;
    var tag :| Exposed(next, tag);
    assert IsOrderTag(tag) by {
      var i :| 0 <= i < |next.log| && IsShown(next.log[i], tag);
      assert next.log[i] in next.log;
    }
    more := ShownAgain(next, tag);
    RunInTwoParts(Fresh(start), es + [e], more);
    RepeatIsTooEarly(next, tag);
  }

  /** A retried push whose tag is on record is acknowledged without being shown again. */
  lemma RetryIsOnlyAcknowledged(w: Worker, p: Payload)
    requires Acceptable(p) && p.tag !in w.tasks && WasShown(w.receipts, p.tag)
    ensures var es := [Push(p), ReadSettles(p.tag, true), ReceiptSettles(p.tag)];
      Runs(w, es) && After(w, es) == w.(log := w.log + [Receipt(p.tag, w.now)])
  {
    var es := [Push(p), ReadSettles(p.tag, true), ReceiptSettles(p.tag)];
    var w1 := Next(w, es[0]);
    var w2 := Next(w1, es[1]);
    assert Next(w2, es[2]).tasks == w.tasks;
    RunStep(w2, es[2], []);
    RunStep(w1, es[1], [es[2]]);
    RunStep(w, es[0], [es[1]] + [es[2]]);
    assert [es[0]] + ([es[1]] + [es[2]]) == es;
  }

  // ---- The worker itself: fields updated in place, one method per step ----

  // The store after remembering a tag at an instant: entries older than a day are gone.
  function Remembered(receipts: map<Tag, int>, tag: Tag, now: int): map<Tag, int> {
    var rows := receipts[tag := now];
    map key | key in rows && now - RETENTION <= rows[key] :: rows[key]
  }

  class PushWorker {
    var pushInFlight: map<Tag, Phase>
    var receipts: map<Tag, int>
    var write: Transaction
    var now: int
    ghost var log: seq<Effect>

    ghost function State(): Worker
      reads this
    {
      Worker(pushInFlight, receipts, write, now, log)
    }

    constructor (start: int)
      ensures State() == Fresh(start)
    {
      pushInFlight, receipts, write, now, log := map[], map[], Closed, start, [];
    }

    method PassTime(ms: nat)
      modifies this
      ensures State() == Next(old(State()), Tick(ms))
    {
      now := now + ms;
    }

    method OnPush(payload: Payload)
      modifies this
      ensures State() == Next(old(State()), Push(payload))
    {
      if !Acceptable(payload) { return; }
      if payload.tag !in pushInFlight {
        pushInFlight := pushInFlight[payload.tag := Reading];
      }
    }

    method SendReceipt(tag: Tag)
      modifies this
      ensures State() == Send(old(State()), tag)
    {
      pushInFlight := pushInFlight[tag := Sending];
      log := log + [Receipt(tag, now)];
    }

    method OnRead(tag: Tag, ok: bool)
      requires Enabled(State(), ReadSettles(tag, ok))
      modifies this
      ensures State() == Next(old(State()), ReadSettles(tag, ok))
    {
      var shown := false;
      if ok && tag in receipts { shown := receipts[tag] != 0; }
      if shown {
        SendReceipt(tag);
      } else {
        pushInFlight := pushInFlight[tag := Showing];
      }
    }

    method OnDisplay(tag: Tag)
      requires Enabled(State(), Displays(tag))
      modifies this
      ensures State() == Next(old(State()), Displays(tag))
    {
      log := log + [Shown(tag, now)];
      pushInFlight := pushInFlight[tag := Displayed];
    }

    method OnShowSettled(tag: Tag, displayed: bool)
      requires Enabled(State(), if displayed then DisplayResolves(tag) else DisplayFails(tag))
      modifies this
      ensures State() == Next(old(State()), if displayed then DisplayResolves(tag) else DisplayFails(tag))
    {
      if displayed {
        pushInFlight := pushInFlight[tag := Recording];
      } else {
        pushInFlight := pushInFlight - {tag};
      }
    }

    method BeginWrite(tag: Tag)
      requires Enabled(State(), OpensWrite(tag))
      modifies this
      ensures State() == Next(old(State()), OpensWrite(tag))
    {
      var rows := receipts[tag := now];
      write := Open(tag, rows, rows.Keys);
      pushInFlight := pushInFlight[tag := Writing];
    }

    method VisitCursor(key: Tag)
      requires Enabled(State(), Visits(key))
      modifies this
      ensures State() == Next(old(State()), Visits(key))
    {
      var rows := write.rows;
      if rows[key] < now - RETENTION { rows := rows - {key}; }
      write := Open(write.tag, rows, write.unvisited - {key});
    }

    method CommitWrite()
      requires Enabled(State(), Commits)
      modifies this
      ensures State() == Next(old(State()), Commits)
    {
      var tag := write.tag;
      receipts := write.rows;
      write := Closed;
      SendReceipt(tag);
    }

    method AbandonWrite(tag: Tag)
      requires Enabled(State(), WriteFails(tag))
      modifies this
      ensures State() == Next(old(State()), WriteFails(tag))
    {
      if pushInFlight[tag] == Writing { write := Closed; }
      SendReceipt(tag);
    }

    method OnReceiptSettled(tag: Tag)
      requires Enabled(State(), ReceiptSettles(tag))
      modifies this
      ensures State() == Next(old(State()), ReceiptSettles(tag))
    {
      pushInFlight := pushInFlight - {tag};
    }

    method Stop(committed: bool)
      requires Enabled(State(), Event.Restart(committed))
      modifies this
      ensures State() == Next(old(State()), Event.Restart(committed))
    {
      if committed { receipts := write.rows; }
      pushInFlight := map[];
      write := Closed;
    }

    /** The whole of rememberPush at one instant: the cursor loop keeps exactly the new
        entry and those at most a day old, then the receipt is sent. */
    method RememberPush(tag: Tag)
      requires Enabled(State(), OpensWrite(tag))
      modifies this
      ensures State() == Send(old(State()).(receipts := Remembered(old(receipts), tag, now)), tag)
    {
      BeginWrite(tag);
      ghost var before := write.rows;
      while write.unvisited != {}
        invariant write.Open? && write.tag == tag && write.unvisited <= write.rows.Keys <= before.Keys
        invariant forall key :: key in write.rows ==> write.rows[key] == before[key]
        invariant forall key :: key in before && key !in write.unvisited ==>
          (key in write.rows <==> now - RETENTION <= before[key])
        invariant State() == old(State()).(tasks := old(pushInFlight)[tag := Writing], write := write)
        decreases |write.unvisited|
      {
        var key :| key in write.unvisited;
        VisitCursor(key);
      }
      assert write.rows == Remembered(old(receipts), tag, now);
      CommitWrite();
      assert pushInFlight == old(pushInFlight)[tag := Sending];
    }
  }
}
