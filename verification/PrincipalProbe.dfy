// The database-principal probe: what it reports of a failure, what a reader can take
// from the report, and which steps it performs whatever fails.
module PrincipalProbe {
  import opened Prelude

  // ---- Values that can be thrown ----

  // Property names; those that matter here have a name of their own.
  datatype Key = DIAGNOSTIC | FAILURE | FINAL_STAGE | STAGE | REASON | CODE | Named(name: string)

  // A getter returns or throws.
  datatype Property = Data(value: Value) | Accessor(result: Value) | Throwing(thrown: Value)

  // Scalar stands for every value that is neither a string nor an object.
  datatype Value =
    | Undefined
    | Scalar
    | Text(text: string)
    | Object(isError: bool, message: string, own: map<Key, Property>, inherited: map<Key, Property>)

  function Plain(own: map<Key, Property>): Value { Object(false, "", own, map[]) }

  datatype Access = Got(value: Value) | Threw(thrown: Value)

  // An ordinary property access: own or inherited, through a getter or not.
  function Lookup(v: Value, key: Key): Access
    requires v.Object?
  {
    var found: Option<Property> := if key in v.own then Some(v.own[key]) else if key in v.inherited then Some(v.inherited[key]) else None;
    match found
    case None => Got(Undefined)
    case Some(Data(x)) => Got(x)
    case Some(Accessor(x)) => Got(x)
    case Some(Throwing(x)) => Threw(x)
  }

  // Own data properties only.
  function OwnValue(v: Value, key: Key): Value {
    if v.Object? && key in v.own && v.own[key].Data? then v.own[key].value else Undefined
  }

  // ---- Stages and reasons ----

  datatype Stage =
    PREFLIGHT | VERSION | ANONYMOUS_DENIAL | FOREIGN_BEFORE | FIXTURE_CREATE | PRINCIPAL_RESPONSE |
    REMOVE_ADMIN | NON_ADMIN_DENIAL | REVOKE_SESSION | REVOKED_DENIAL | CLEANUP | FOREIGN_AFTER

  const NAMES := [
    "preflight", "version", "anonymous-denial", "foreign-before", "fixture-create", "principal-response",
    "remove-admin", "non-admin-denial", "revoke-session", "revoked-denial", "cleanup", "foreign-after"]

  function Position(s: Stage): (k: nat)
    ensures k < 12
  {
    match s
    case PREFLIGHT => 0 case VERSION => 1 case ANONYMOUS_DENIAL => 2 case FOREIGN_BEFORE => 3
    case FIXTURE_CREATE => 4 case PRINCIPAL_RESPONSE => 5 case REMOVE_ADMIN => 6 case NON_ADMIN_DENIAL => 7
    case REVOKE_SESSION => 8 case REVOKED_DENIAL => 9 case CLEANUP => 10 case FOREIGN_AFTER => 11
  }

  function Name(s: Stage): (name: string)
    ensures IsStageName(name)
  {
    NAMES[Position(s)]
  }

  predicate IsStageName(text: string) { text in NAMES }

  const CODES := [
    "PREVIEW_PRINCIPAL_INVALID", "PREVIEW_PRINCIPAL_INVOCATION_INVALID", "PREVIEW_PRINCIPAL_TARGET_INVALID",
    "PREVIEW_PRINCIPAL_SOURCE_INVALID", "PREVIEW_PRINCIPAL_DENIAL_INVALID", "PREVIEW_PRINCIPAL_RATE_SNAPSHOT_INVALID",
    "PREVIEW_PRINCIPAL_CLEANUP_OWNERSHIP", "PREVIEW_PRINCIPAL_CLEANUP_INCOMPLETE",
    "PREVIEW_PRINCIPAL_FOREIGN_BUCKET_CHANGED"]

  const UNCLASSIFIED := "UNCLASSIFIED"

  predicate IsFailureCode(text: string) { text in CODES }

  // P and four digits.
  predicate IsDatabaseCode(text: string) {
    |text| == 5 && text[0] == 'P' && forall i :: 1 <= i < 5 ==> '0' <= text[i] <= '9'
  }

  predicate IsAllowedReason(text: string) { IsFailureCode(text) || IsDatabaseCode(text) || text == UNCLASSIFIED }

  // The text up to its first line break, which is a line feed or a carriage return and a line feed.
  function FirstLine(text: string): (line: string)
    ensures line <= text && '\n' !in line
    ensures '\n' !in text ==> line == text
    ensures '\n' in text ==> text[|line|] == '\n' || (|line| + 1 < |text| && text[|line|] == '\r' && text[|line| + 1] == '\n')
  {
    if text == [] || text[0] == '\n' then []
    else if |text| > 1 && text[0] == '\r' && text[1] == '\n' then []
    else [text[0]] + FirstLine(text[1..])
  }

  datatype Details = Details(stage: string, reason: string)

  predicate Proper(d: Details) { IsStageName(d.stage) && IsAllowedReason(d.reason) }

  // What describing a failure comes to: a getter of the thrown value may itself throw.
  datatype Description = Described(details: Details) | Raised(thrown: Value)

  // The code property of a thrown value.
  function CodeOf(error: Value): Access { if error.Object? then Lookup(error, CODE) else Got(Undefined) }

  function Reason(error: Value, code: Value): (reason: string)
    ensures IsAllowedReason(reason)
  {
    var firstLine := if error.Object? && error.isError then FirstLine(error.message) else "";
    if IsFailureCode(firstLine) then firstLine
    else if code.Text? && IsDatabaseCode(code.text) then code.text
    else UNCLASSIFIED
  }

  function FailureDetails(error: Value, stage: Stage): (description: Description)
    ensures description.Described? ==> Proper(description.details)
    ensures description.Raised? <==> CodeOf(error).Threw?
  {
    match CodeOf(error)
    case Threw(x) => Raised(x)
    case Got(code) => Described(Details(Name(stage), Reason(error, code)))
  }

  // ---- Writing and reading the report ----

  datatype Diagnostic = Diagnostic(failure: Option<Details>, finalStage: Option<Details>)

  function DetailsValue(d: Details): Value { Plain(map[STAGE := Data(Text(d.stage)), REASON := Data(Text(d.reason))]) }

  function Wrapped(failure: Option<Details>, final: Details): Value {
    var report := Plain(map[
      FAILURE := Data(if failure.Some? then DetailsValue(failure.value) else Undefined),
      FINAL_STAGE := Data(DetailsValue(final))]);
    Object(true, if failure.Some? then failure.value.reason else final.reason, map[DIAGNOSTIC := Data(report)], map[])
  }

  function ReadDetails(report: Value, key: Key): Option<Details> {
    var item := OwnValue(report, key);
    var stage, reason := OwnValue(item, STAGE), OwnValue(item, REASON);
    if stage.Text? && IsStageName(stage.text) && reason.Text? && IsAllowedReason(reason.text)
    then Some(Details(stage.text, reason.text)) else None
  }

  function ReadDiagnostic(error: Value): Option<Diagnostic> {
    var report := OwnValue(error, DIAGNOSTIC);
    if !report.Object? then None else Some(Diagnostic(ReadDetails(report, FAILURE), ReadDetails(report, FINAL_STAGE)))
  }

  /** Reading a wrapped error gives exactly what was attached: for the details of any failures
      at all, and only listed stages and reasons are ever attached. */
  lemma DiagnosticRoundTrip(failure: Option<Details>, final: Details)
    requires Proper(final) && (failure.Some? ==> Proper(failure.value))
    ensures ReadDiagnostic(Wrapped(failure, final)) == Some(Diagnostic(failure, Some(final)))
  {
    hide IsStageName, IsAllowedReason, NAMES;
    var report := OwnValue(Wrapped(failure, final), DIAGNOSTIC);
    if failure.Some? { ReadsDetails(failure.value, FAILURE, report); }
    ReadsDetails(final, FINAL_STAGE, report);
  }

  lemma ReadsDetails(d: Details, key: Key, report: Value)
    requires Proper(d) && OwnValue(report, key) == DetailsValue(d)
    ensures ReadDetails(report, key) == Some(d)
  {
    hide IsStageName, IsAllowedReason;
  }

  /** Whatever value is read, forged or not, only listed stages and reasons come out. */
  lemma OnlyListedComesOut(error: Value)
    ensures var d := ReadDiagnostic(error);
      d.Some? ==> (d.value.failure.Some? ==> Proper(d.value.failure.value)) &&
                  (d.value.finalStage.Some? ==> Proper(d.value.finalStage.value))
  {
    hide IsStageName, IsAllowedReason;
  }

  /** Classified a second time, a wrapped error keeps a failure code, but loses a database code. */
  lemma ReclassifyingAWrappedError(failure: Option<Details>, final: Details)
    requires Proper(final) && (failure.Some? ==> Proper(failure.value))
    ensures var reason := (if failure.Some? then failure.value else final).reason;
      CodeOf(Wrapped(failure, final)) == Got(Undefined) &&
      Reason(Wrapped(failure, final), Undefined) == if IsFailureCode(reason) then reason else UNCLASSIFIED
  {
    hide IsStageName, IsFailureCode, IsDatabaseCode, UNCLASSIFIED;
    var reason := (if failure.Some? then failure.value else final).reason;
    ReasonsAreOneLine(reason);
    assert FirstLine(reason) == reason;
  }

  lemma ReasonsAreOneLine(reason: string)
    requires IsAllowedReason(reason)
    ensures '\n' !in reason
  {
    hide CODES;
    if IsFailureCode(reason) { CodesAreOneLine(reason); }
  }

  lemma CodesAreOneLine(code: string)
    requires IsFailureCode(code)
    ensures '\n' !in code
  {
    forall i | 0 <= i < |CODES| ensures '\n' !in CODES[i] { }
  }

  // ---- The steps of the probe ----

  // Which steps throw, and what.
  type Throws = Stage -> Option<Value>

  const BEFORE := [PREFLIGHT, VERSION, ANONYMOUS_DENIAL, FOREIGN_BEFORE]
  const BODY := [FIXTURE_CREATE, PRINCIPAL_RESPONSE, REMOVE_ADMIN, NON_ADMIN_DENIAL, REVOKE_SESSION, REVOKED_DENIAL]

  // The stages performed, up to and including the first that throws.
  function Performed(throws: Throws, stages: seq<Stage>): (done: seq<Stage>)
    ensures done <= stages
    ensures stages != [] ==> done != []
    ensures forall i :: 0 <= i < |done| - 1 ==> throws(done[i]).None?
    ensures |done| < |stages| ==> done != [] && throws(done[|done| - 1]).Some?
  {
    if stages == [] then []
    else if throws(stages[0]).Some? then [stages[0]]
    else [stages[0]] + Performed(throws, stages[1..])
  }

  datatype Report = Report(trail: seq<Stage>, error: Option<Value>)

  function Last<T>(xs: seq<T>): T
    requires xs != []
  {
    xs[|xs| - 1]
  }

  // What the catch block at the end makes of a thrown value.
  function Rejection(failure: Option<Details>, pending: Value, stage: Stage): Value {
    match FailureDetails(pending, stage)
    case Described(details) => Wrapped(failure, details)
    case Raised(x) => x
  }

  // The catch block of the body: what it records, and what goes on.
  function Caught(thrown: Option<Value>, stage: Stage): (Option<Details>, Option<Value>) {
    if thrown.None? then (None, None)
    else
      match FailureDetails(thrown.value, stage)
      case Described(details) => (Some(details), thrown)
      case Raised(x) => (None, Some(x))
  }

  function Probe(throws: Throws): Report {
    var before := Performed(throws, BEFORE);
    if throws(Last(before)).Some? then
      Report(before, Some(Rejection(None, throws(Last(before)).value, Last(before))))
    else
      var body := Performed(throws, BODY);
      var (failure, going) := Caught(throws(Last(body)), Last(body));
      var trail := before + body + [CLEANUP] + if throws(CLEANUP).None? then [FOREIGN_AFTER] else [];
      var pending := if throws(Last(trail)).Some? then throws(Last(trail)) else going;
      Report(trail, if pending.Some? then Some(Rejection(failure, pending.value, Last(trail))) else None)
  }

  lemma Phases(throws: Throws)
    ensures var before, body := Performed(throws, BEFORE), Performed(throws, BODY);
      && before != [] && body != [] && body[0] == FIXTURE_CREATE
      && (forall s <- before :: Position(s) < 4)
      && (forall s <- body :: 4 <= Position(s) < 10)
  {
    assert forall s <- BEFORE :: Position(s) < 4;
    assert forall s <- BODY :: 4 <= Position(s) < 10;
    hide Performed;
    forall s <- Performed(throws, BEFORE) ensures s in BEFORE { }
    forall s <- Performed(throws, BODY) ensures s in BODY { }
  }

  /** From the creation of the fixture on, the cleanup is attempted on every path, once and
      after everything else but the final check; before it, never. */
  lemma CleanupIsAttempted(throws: Throws)
    ensures var trail := Probe(throws).trail;
      && (FIXTURE_CREATE in trail <==> CLEANUP in trail)
      && (forall i :: 0 <= i < |trail| && trail[i] == CLEANUP ==> i >= |trail| - 2)
      && (FOREIGN_AFTER in trail <==> CLEANUP in trail && throws(CLEANUP).None?)
  {
    hide Performed, Rejection, FailureDetails, BODY, BEFORE;
    Phases(throws);
    var trail := Probe(throws).trail;
    assert forall s <- trail :: s == CLEANUP ==> Position(s) == 10;
    assert forall s <- trail :: s == FOREIGN_AFTER ==> Position(s) == 11;
  }

  lemma AllPerformed(throws: Throws, stages: seq<Stage>)
    requires stages != []
    ensures throws(Last(Performed(throws, stages))).None? <==> forall s <- stages :: throws(s).None?
    ensures throws(Last(Performed(throws, stages))).None? ==> Performed(throws, stages) == stages
  {
    var done := Performed(throws, stages);
    if throws(Last(done)).None? {
      assert |done| == |stages| && done == stages;
      forall s <- stages ensures throws(s).None? { var i :| 0 <= i < |stages| && done[i] == s; }
    }
  }

  lemma ProbePasses(throws: Throws)
    ensures Probe(throws).error.None? <==>
      throws(Last(Performed(throws, BEFORE))).None? && throws(Last(Performed(throws, BODY))).None? &&
      throws(CLEANUP).None? && throws(FOREIGN_AFTER).None?
    ensures Probe(throws).error.None? ==>
      Probe(throws).trail == Performed(throws, BEFORE) + Performed(throws, BODY) + [CLEANUP, FOREIGN_AFTER]
  {
    hide Performed, Rejection, FailureDetails, BODY, BEFORE;
    var before, body := Performed(throws, BEFORE), Performed(throws, BODY);
    assert Last(before + body + [CLEANUP]) == CLEANUP && Last(before + body + [CLEANUP] + [FOREIGN_AFTER]) == FOREIGN_AFTER;
    assert before + body + [CLEANUP] + [FOREIGN_AFTER] == before + body + [CLEANUP, FOREIGN_AFTER];
  }

  /** A result is returned exactly when every step, the cleanup and the check of the foreign
      buckets included, was performed and passed. */
  lemma ResultNeedsCleanup(throws: Throws)
    ensures Probe(throws).error.None? <==> forall s :: throws(s).None?
    ensures Probe(throws).error.None? ==> Probe(throws).trail == BEFORE + BODY + [CLEANUP, FOREIGN_AFTER]
  {
    assert BEFORE != [] && BODY != [];
    hide *;
    forall s: Stage ensures s in BEFORE || s in BODY || s == CLEANUP || s == FOREIGN_AFTER { StagesListed(s); }
    ProbePasses(throws);
    AllPerformed(throws, BEFORE);
    AllPerformed(throws, BODY);
  }

  lemma StagesListed(s: Stage)
    ensures s in BEFORE || s in BODY || s == CLEANUP || s == FOREIGN_AFTER
  {
    if Position(s) < 4 { assert BEFORE[Position(s)] == s; }
    else if Position(s) < 10 { assert BODY[Position(s) - 4] == s; }
  }

  lemma PerformedUpTo(throws: Throws, stages: seq<Stage>, n: nat)
    requires n < |stages| && forall i :: 0 <= i < n ==> throws(stages[i]).None?
    requires throws(stages[n]).Some? || n == |stages| - 1
    ensures Performed(throws, stages) == stages[..n + 1]
  {
    if n > 0 {
      PerformedUpTo(throws, stages[1..], n - 1);
      assert stages[..n + 1] == [stages[0]] + stages[1..][..n];
    }
  }

  ghost predicate FirstToThrow(throws: Throws, s: Stage) {
    throws(s).Some? && forall t :: Position(t) < Position(s) ==> throws(t).None?
  }

  lemma BodyStopsAt(throws: Throws, s: Stage)
    requires 4 <= Position(s) < 10 && FirstToThrow(throws, s)
    ensures Performed(throws, BEFORE) == BEFORE && throws(Last(BEFORE)).None?
    ensures Performed(throws, BODY) == BODY[..Position(s) - 3] && Last(Performed(throws, BODY)) == s
  {
    var k := Position(s) - 4;
    assert BODY[k] == s;
    assert forall i :: 0 <= i < 4 ==> Position(BEFORE[i]) == i;
    assert forall i :: 0 <= i < 6 ==> Position(BODY[i]) == i + 4;
    hide Performed, Position;
    PerformedUpTo(throws, BEFORE, 3);
    PerformedUpTo(throws, BODY, k);
  }

  lemma FailedBody(throws: Throws, s: Stage) returns (last: Stage)
    requires 4 <= Position(s) < 10 && FirstToThrow(throws, s)
    ensures last == if throws(CLEANUP).Some? then CLEANUP else FOREIGN_AFTER
    ensures Probe(throws).error == Some(
      Rejection(Caught(throws(s), s).0, if throws(last).Some? then throws(last).value else Caught(throws(s), s).1.value, last))
  {
    hide Performed, Rejection, FailureDetails, BODY, BEFORE;
    BodyStopsAt(throws, s);
    last := Last(Probe(throws).trail);
  }

  /** The first failure's stage and reason are what the error says, whether or not the cleanup or
      the final check then fails as well, as long as the failures can be described. Otherwise
      the error is what the getter of the last of them threw. */
  lemma FirstReasonSurvives(throws: Throws, s: Stage)
    requires 4 <= Position(s) < 10 && FirstToThrow(throws, s) && FailureDetails(throws(s).value, s).Described?
    ensures Probe(throws).error.Some?
    ensures var first, e := FailureDetails(throws(s).value, s).details, Probe(throws).error.value;
      var last := if throws(CLEANUP).Some? then CLEANUP else FOREIGN_AFTER;
      if throws(last).Some? && FailureDetails(throws(last).value, last).Raised? then
        e == FailureDetails(throws(last).value, last).thrown
      else
        && e.Object? && e.message == first.reason
        && ReadDiagnostic(e).Some? && ReadDiagnostic(e).value.failure == Some(first)
        && ReadDiagnostic(e).value.finalStage.Some? && ReadDiagnostic(e).value.finalStage.value.stage == Name(last)
  {
    var last := FailedBody(throws, s);
    hide Probe, Position, ReadDiagnostic, Reason, NAMES, CodeOf;
    var first := FailureDetails(throws(s).value, s).details;
    var pending := if throws(last).Some? then throws(last).value else throws(s).value;
    if FailureDetails(pending, last).Described? { DiagnosticRoundTrip(Some(first), FailureDetails(pending, last).details); }
  }

  /** A failure before the fixture, or of the cleanup or the final check alone, is reported as the
      final stage, with no other failure. */
  lemma LoneFailureIsReported(throws: Throws, s: Stage)
    requires (Position(s) < 4 || Position(s) >= 10) && FirstToThrow(throws, s)
    ensures Probe(throws).trail != [] && Last(Probe(throws).trail) == s && Probe(throws).error.Some?
    ensures var e := Probe(throws).error.value;
      match FailureDetails(throws(s).value, s) {
        case Described(details) =>
          e.Object? && e.message == details.reason && ReadDiagnostic(e) == Some(Diagnostic(None, Some(details)))
        case Raised(x) => e == x
      }
  {
    LoneFailure(throws, s);
    hide Probe, Position, ReadDiagnostic, Reason, NAMES, CodeOf, FirstToThrow;
    if FailureDetails(throws(s).value, s).Described? { DiagnosticRoundTrip(None, FailureDetails(throws(s).value, s).details); }
  }

  lemma LoneFailure(throws: Throws, s: Stage)
    requires (Position(s) < 4 || Position(s) >= 10) && FirstToThrow(throws, s)
    ensures Probe(throws).trail != [] && Last(Probe(throws).trail) == s
    ensures Probe(throws).error == Some(Rejection(None, throws(s).value, s))
  {
    if Position(s) < 4 {
      EarlyStopsAt(throws, s);
      hide Performed, Rejection, FailureDetails, Position;
    } else {
      assert throws(REVOKED_DENIAL).None? && throws(FOREIGN_BEFORE).None?;
      assert s == FOREIGN_AFTER ==> throws(CLEANUP).None?;
      assert s == CLEANUP || s == FOREIGN_AFTER;
      BodyGoesThrough(throws, s);
      hide Performed, Rejection, FailureDetails, Position, FirstToThrow;
    }
  }

  lemma EarlyStopsAt(throws: Throws, s: Stage)
    requires Position(s) < 4 && FirstToThrow(throws, s)
    ensures Performed(throws, BEFORE) == BEFORE[..Position(s) + 1] && Last(Performed(throws, BEFORE)) == s
  {
    assert BEFORE[Position(s)] == s;
    assert forall i :: 0 <= i < 4 ==> Position(BEFORE[i]) == i;
    hide Performed, Position;
    PerformedUpTo(throws, BEFORE, Position(s));
  }

  lemma BodyGoesThrough(throws: Throws, s: Stage)
    requires Position(s) >= 10 && FirstToThrow(throws, s)
    ensures Performed(throws, BEFORE) == BEFORE && Last(BEFORE) == FOREIGN_BEFORE
    ensures Performed(throws, BODY) == BODY && Last(BODY) == REVOKED_DENIAL
  {
    assert throws(REVOKED_DENIAL).None?;
    forall t: Stage | t in BEFORE || t in BODY ensures throws(t).None? {
      StagePlaces(t);
    }
    hide Performed, Position, FirstToThrow;
    PerformedUpTo(throws, BEFORE, 3);
    PerformedUpTo(throws, BODY, 5);
  }

  lemma StagePlaces(s: Stage)
    ensures s in BEFORE <==> Position(s) < 4
    ensures s in BODY <==> 4 <= Position(s) < 10
  {
    StagesListed(s);
  }

  class PrincipalVerifier {
    var trail: seq<Stage>
    var stage: Stage
    var failure: Option<Details>

    constructor ()
      ensures trail == [] && failure == None
    {
      trail, stage, failure := [], PREFLIGHT, None;
    }

    // Enters a stage and performs its step.
    method Enter(next: Stage, throws: Throws) returns (thrown: Option<Value>)
      modifies this
      ensures stage == next && trail == old(trail) + [next] && failure == old(failure) && thrown == throws(next)
    {
      stage := next;
      trail := trail + [next];
      thrown := throws(next);
    }

    // Runs through stages until one throws.
    method Prepare(throws: Throws) returns (thrown: Option<Value>)
      requires trail == []
      modifies this
      ensures trail == Performed(throws, BEFORE) && stage == Last(trail) && thrown == throws(stage)
      ensures failure == old(failure)
    {
      hide Performed;
      thrown := Enter(PREFLIGHT, throws);
      if thrown.Some? { PerformedUpTo(throws, BEFORE, 0); return; }
      thrown := Enter(VERSION, throws);
      if thrown.Some? { PerformedUpTo(throws, BEFORE, 1); return; }
      thrown := Enter(ANONYMOUS_DENIAL, throws);
      if thrown.Some? { PerformedUpTo(throws, BEFORE, 2); return; }
      thrown := Enter(FOREIGN_BEFORE, throws);
      PerformedUpTo(throws, BEFORE, 3);
    }

    method RunBody(throws: Throws) returns (thrown: Option<Value>)
      modifies this
      ensures trail == old(trail) + Performed(throws, BODY) && stage == Last(Performed(throws, BODY))
      ensures thrown == throws(stage) && failure == old(failure)
    {
      hide Performed;
      thrown := Enter(FIXTURE_CREATE, throws);
      if thrown.Some? { PerformedUpTo(throws, BODY, 0); return; }
      thrown := Enter(PRINCIPAL_RESPONSE, throws);
      if thrown.Some? { PerformedUpTo(throws, BODY, 1); return; }
      thrown := Enter(REMOVE_ADMIN, throws);
      if thrown.Some? { PerformedUpTo(throws, BODY, 2); return; }
      thrown := Enter(NON_ADMIN_DENIAL, throws);
      if thrown.Some? { PerformedUpTo(throws, BODY, 3); return; }
      thrown := Enter(REVOKE_SESSION, throws);
      if thrown.Some? { PerformedUpTo(throws, BODY, 4); return; }
      thrown := Enter(REVOKED_DENIAL, throws);
      PerformedUpTo(throws, BODY, 5);
    }

    // The finally block; what it throws takes the place of what was thrown before.
    method CleanUp(throws: Throws, pending: Option<Value>) returns (thrown: Option<Value>)
      modifies this
      ensures trail == old(trail) + [CLEANUP] + (if throws(CLEANUP).None? then [FOREIGN_AFTER] else [])
      ensures stage == Last(trail) && failure == old(failure)
      ensures thrown == if throws(stage).Some? then throws(stage) else pending
    {
      thrown := Enter(CLEANUP, throws);
      if thrown.Some? { return; }
      thrown := Enter(FOREIGN_AFTER, throws);
      if thrown.None? { thrown := pending; }
    }

    method VerifyPreviewDatabasePrincipal(throws: Throws) returns (error: Option<Value>)
      requires trail == [] && failure == None
      modifies this
      ensures Report(trail, error) == Probe(throws)
    {
      hide FailureDetails, Wrapped, Performed, BEFORE, BODY;
      var thrown := Prepare(throws);
      if thrown.None? {
        thrown := RunBody(throws);
        if thrown.Some? {
          match FailureDetails(thrown.value, stage) {
            case Described(details) => failure := Some(details);
            case Raised(x) => thrown := Some(x);
          }
        }
        thrown := CleanUp(throws, thrown);
      }
      if thrown.None? { return None; }
      match FailureDetails(thrown.value, stage) {
        case Described(diagnostic) => return Some(Wrapped(failure, diagnostic));
        case Raised(x) => return Some(x);
      }
    }
  }
}
