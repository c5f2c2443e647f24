// The named caches of the service worker: what its strategies store, in whatever
// order their late writes settle, and what activation purges.
module ShellCache {
  import opened Prelude
  import opened FetchRouting
  import opened UpdateSafety

  const CACHE_NAME := "stallorder-shell-v9"
  const SHELL_PREFIX := "stallorder-shell-"
  const SHELL_ASSETS := {"/icons/stallorder-192.png", "/icons/stallorder-512.png"}

  // The facts about a response that the worker looks at. noStore: the cache-control
  // header contains "no-store"; sensitive: it has a private or no-store directive;
  // offlineMarked: x-stallorder-offline-cache is "public-menu-v1".
  datatype Response = Response(status: int, noStore: bool, sensitive: bool, offlineMarked: bool, body: nat)

  predicate Ok(r: Response) { 200 <= r.status <= 299 }

  predicate Gone(r: Response) { r.status == 404 || r.status == 410 }

  type Entries = map<Url, Response>

  type Stores = map<string, Entries>

  // A cache operation that a strategy has issued and awaits.
  datatype Op = Put(url: Url, response: Response) | Drop(url: Url)

  datatype Purge = NotStarted | Purging(unscanned: set<string>, doomed: set<(string, Url)>) | Purged

  datatype Worker = Worker(caches: Stores, pending: seq<Op>, purge: Purge)

  datatype Event =
    | Answer(request: Request, response: Response)   // the network answers a strategy
    | Unreached(request: Request)                    // the network does not
    | ShellAnswer(asset: Url, response: Response)    // the network answers the installation
    | Settle(index: nat, ok: bool)                   // an awaited cache operation settles
    | StartPurge
    | ScanCache(name: string)
    | DeleteSensitive(name: string, url: Url)
    | FinishPurge
    | DropOldCaches
    | Stop

  // ---- The decision each strategy takes on a response ----

  predicate CacheableData(r: Response) { Ok(r) && !r.noStore }

  predicate CacheableMenuPage(url: Url, r: Response) {
    Ok(r) && url.search == "" && (r.offlineMarked || !r.sensitive)
  }

  function Decide(route: Route, url: Url, r: Response): Option<Op> {
    match route
    case Static => if Ok(r) then Some(Put(url, r)) else None
    case MenuData => if CacheableData(r) then Some(Put(url, r)) else None
    case ProductImage =>
      if CacheableData(r) then Some(Put(url, r)) else if Gone(r) then Some(Drop(url)) else None
    case PublicMenu =>
      if CacheableMenuPage(url, r) then Some(Put(url, r))
      else if url.search != "" || Gone(r) then Some(Drop(url))
      else None
    case _ => None
  }

  predicate IsShellAsset(asset: Url) {
    || (asset.search == "" && (asset.path == OFFLINE_PATH || asset.path in SHELL_ASSETS))
    || StartsWith(asset.path, "/_next/static/")
  }

  // ---- Steps ----

  function EntriesOf(caches: Stores, name: string): Entries { if name in caches then caches[name] else map[] }

  function Lookup(caches: Stores, url: Url): Option<Response> {
    var entries := EntriesOf(caches, CACHE_NAME);
    if url in entries then Some(entries[url]) else None
  }

  function Apply(caches: Stores, op: Op): Stores {
    var entries := EntriesOf(caches, CACHE_NAME);
    caches[CACHE_NAME := match op case Put(url, r) => entries[url := r] case Drop(url) => entries - {url}]
  }

  function WithoutEntry(caches: Stores, name: string, url: Url): Stores {
    if name in caches then caches[name := caches[name] - {url}] else caches
  }

  predicate IsShellName(name: string) { StartsWith(name, SHELL_PREFIX) }

  function ShellNames(caches: Stores): set<string> { set name | name in caches && IsShellName(name) }

  function Searched(caches: Stores, name: string): set<(string, Url)> {
    set url | url in EntriesOf(caches, name) && url.search != "" :: (name, url)
  }

  function Issue(w: Worker, op: Option<Op>): Worker {
    if op.Some? then w.(pending := w.pending + [op.value]) else w
  }

  predicate Enabled(w: Worker, e: Event) {
    match e
    case Answer(_, _) => true
    case Unreached(_) => true
    case ShellAnswer(asset, _) => IsShellAsset(asset)
    case Settle(index, _) => index < |w.pending|
    case StartPurge => w.purge.NotStarted?
    case ScanCache(name) => w.purge.Purging? && name in w.purge.unscanned
    case DeleteSensitive(name, url) => w.purge.Purging? && (name, url) in w.purge.doomed
    case FinishPurge => w.purge == Purging({}, {})
    case DropOldCaches => w.purge.Purged?
    case Stop => true
  }

  function Next(w: Worker, e: Event): Worker
    requires Enabled(w, e)
  {
    match e
    case Answer(request, r) => Issue(w, Decide(RouteOf(request), request.url, r))
    case Unreached(_) => w
    case ShellAnswer(asset, r) => Issue(w, Decide(Static, asset, r))
    case Settle(i, ok) =>
      w.(caches := if ok then Apply(w.caches, w.pending[i]) else w.caches,
         pending := w.pending[..i] + w.pending[i + 1..])
    case StartPurge => w.(purge := Purging(ShellNames(w.caches), {}))
    case ScanCache(name) =>
      w.(purge := Purging(w.purge.unscanned - {name}, w.purge.doomed + Searched(w.caches, name)))
    case DeleteSensitive(name, url) =>
      w.(caches := WithoutEntry(w.caches, name, url), purge := w.purge.(doomed := w.purge.doomed - {(name, url)}))
    case FinishPurge => w.(purge := Purged)
    case DropOldCaches => w.(caches := map name | name in w.caches && name == CACHE_NAME :: w.caches[name])
    case Stop => w.(pending := [], purge := if w.purge.Purged? then Purged else NotStarted)
  }

  predicate Runs(w: Worker, es: seq<Event>)
    decreases |es|
  {
    es == [] || (Enabled(w, es[0]) && Runs(Next(w, es[0]), es[1..]))
  }

  function After(w: Worker, es: seq<Event>): Worker
    requires Runs(w, es)
    decreases |es|
  {
    if es == [] then w else After(Next(w, es[0]), es[1..])
  }

  function Started(caches: Stores): Worker { Worker(caches, [], NotStarted) }

  // ---- Where the entries of the current cache come from ----

  predicate Admissible(url: Url, r: Response) {
    && Ok(r)
    && (IsProductImage(url.path) || IsMenuData(url.path) ==> !r.noStore)
    && (IsMenuPage(url.path) ==> url.search == "" && (r.offlineMarked || !r.sensitive))
    && (IsStatic(url.path) || IsProductImage(url.path) || IsMenuData(url.path) || IsMenuPage(url.path))
  }

  predicate AdmissibleOp(op: Op) { op.Put? ==> Admissible(op.url, op.response) }

  ghost predicate Provenance(w: Worker) {
    && (forall op :: op in w.pending ==> AdmissibleOp(op))
    && (forall url :: url in EntriesOf(w.caches, CACHE_NAME) ==> Admissible(url, EntriesOf(w.caches, CACHE_NAME)[url]))
  }

  lemma DecisionsAreAdmissible(route: Route, url: Url, r: Response)
    requires InFamily(route, url.path)
    ensures var op := Decide(route, url, r); op.Some? ==> AdmissibleOp(op.value) && op.value.url == url
  {
    FamilyMarks(route, url.path);
    if IsProductImage(url.path) { FamiliesAreDisjoint(route, ProductImage, url.path); }
    if IsMenuData(url.path) { FamiliesAreDisjoint(route, MenuData, url.path); }
    if IsMenuPage(url.path) { FamiliesAreDisjoint(route, PublicMenu, url.path); }
  }

  lemma ShellAssetsAreStatic(asset: Url)
    requires IsShellAsset(asset)
    ensures IsStatic(asset.path)
  {
    assert "/icons/stallorder-192.png"[..7] == "/icons/";
    assert "/icons/stallorder-512.png"[..7] == "/icons/";
  }

  lemma IssuedOpsAreAdmissible(w: Worker, e: Event)
    requires Enabled(w, e) && (forall op :: op in w.pending ==> AdmissibleOp(op))
    ensures forall op :: op in Next(w, e).pending ==> AdmissibleOp(op)
  {
    if e.Answer? && Caches(RouteOf(e.request)) {
      DecisionsAreAdmissible(RouteOf(e.request), e.request.url, e.response);
    }
    if e.ShellAnswer? {
      ShellAssetsAreStatic(e.asset);
      DecisionsAreAdmissible(Static, e.asset, e.response);
    }
  }

  lemma StepKeepsProvenance(w: Worker, e: Event)
    requires Provenance(w) && Enabled(w, e)
    ensures Provenance(Next(w, e))
  {
    IssuedOpsAreAdmissible(w, e);
    var old', new' := EntriesOf(w.caches, CACHE_NAME), EntriesOf(Next(w, e).caches, CACHE_NAME);
    forall url | url in new' ensures Admissible(url, new'[url]) {
      if e.Settle? && w.pending[e.index] == Put(url, new'[url]) {
        assert AdmissibleOp(w.pending[e.index]);
      } else {
        assert url in old' && old'[url] == new'[url];
      }
    }
  }

  lemma {:induction false} RunKeepsProvenance(w: Worker, es: seq<Event>)
    requires Provenance(w) && Runs(w, es)
    ensures Provenance(After(w, es))
    decreases |es|
  {
    if es != [] {
      StepKeepsProvenance(w, es[0]);
      RunKeepsProvenance(Next(w, es[0]), es[1..]);
    }
  }

  /** A cache that this version created holds, in every run and under every order of late
      writes, only ok responses to handled keys; images and menu data that were not
      no-store; and menu pages without a query that may be kept. */
  lemma CurrentCacheIsAdmissible(caches: Stores, es: seq<Event>)
    requires CACHE_NAME !in caches && Runs(Started(caches), es)
    ensures forall url :: Lookup(After(Started(caches), es).caches, url).Some? ==>
              Admissible(url, Lookup(After(Started(caches), es).caches, url).value)
  {
    RunKeepsProvenance(Started(caches), es);
  }

  // ---- The activation purge ----

  predicate SensitiveIn(caches: Stores, name: string, url: Url) {
    IsShellName(name) && url in EntriesOf(caches, name) && IsMenuPage(url.path) && url.search != ""
  }

  ghost predicate PurgeProgress(w: Worker) {
    && (forall op :: op in w.pending ==> AdmissibleOp(op))
    && (w.purge.Purging? ==> forall name, url :: SensitiveIn(w.caches, name, url) ==>
          name in w.purge.unscanned || (name, url) in w.purge.doomed)
    && (w.purge.Purged? ==> forall name, url :: !SensitiveIn(w.caches, name, url))
  }

  lemma StepAddsNothingSensitive(w: Worker, e: Event)
    requires Enabled(w, e) && (forall op :: op in w.pending ==> AdmissibleOp(op))
    ensures forall name, url :: SensitiveIn(Next(w, e).caches, name, url) ==> SensitiveIn(w.caches, name, url)
  {
    if e.Settle? { assert AdmissibleOp(w.pending[e.index]); }
  }

  lemma StepKeepsPurgeProgress(w: Worker, e: Event)
    requires PurgeProgress(w) && Enabled(w, e)
    ensures PurgeProgress(Next(w, e))
  {
    IssuedOpsAreAdmissible(w, e);
    StepAddsNothingSensitive(w, e);
  }

  lemma {:induction false} RunKeepsPurgeProgress(w: Worker, es: seq<Event>)
    requires PurgeProgress(w) && Runs(w, es)
    ensures PurgeProgress(After(w, es))
    decreases |es|
  {
    if es != [] {
      StepKeepsPurgeProgress(w, es[0]);
      RunKeepsPurgeProgress(Next(w, es[0]), es[1..]);
    }
  }

  /** Whatever earlier versions left behind, once the purge has completed no shell cache
      holds a menu page under a URL with a query, however the purge interleaved with late
      writes of the strategies. */
  lemma NoSensitiveMenuPageAfterPurge(caches: Stores, es: seq<Event>, name: string, url: Url)
    requires Runs(Started(caches), es) && After(Started(caches), es).purge.Purged?
    ensures !SensitiveIn(After(Started(caches), es).caches, name, url)
  {
    RunKeepsPurgeProgress(Started(caches), es);
  }

  // ---- One key, in completion order ----

  // The successful operations on a key of the current cache, in the order they settle.
  function Settled(w: Worker, es: seq<Event>, url: Url): seq<Op>
    requires Runs(w, es)
    decreases |es|
  {
    if es == [] then []
    else
      var e, rest := es[0], Settled(Next(w, es[0]), es[1..], url);
      if e.Settle? && e.ok && w.pending[e.index].url == url then [w.pending[e.index]] + rest
      else if e == DeleteSensitive(CACHE_NAME, url) then [Drop(url)] + rest
      else rest
  }

  function Leaves(op: Op): Option<Response> { if op.Put? then Some(op.response) else None }

  /** In every run the entry of a key is what its last settled operation left. */
  lemma {:induction false} CompletionOrderDecides(w: Worker, es: seq<Event>, url: Url)
    requires Runs(w, es)
    ensures var ops := Settled(w, es, url);
      Lookup(After(w, es).caches, url) == if ops == [] then Lookup(w.caches, url) else Leaves(ops[|ops| - 1])
    decreases |es|
  {
    if es != [] { CompletionOrderDecides(Next(w, es[0]), es[1..], url); }
  }

  lemma RunStep(w: Worker, e: Event, rest: seq<Event>)
    requires Enabled(w, e) && Runs(Next(w, e), rest)
    ensures Runs(w, [e] + rest) && After(w, [e] + rest) == After(Next(w, e), rest)
  {
    assert ([e] + rest)[1..] == rest;
  }

  /** So answers that overlap can undo a revocation: an ok answer, then a 404, whose
      operations settle the other way round, leave the revoked image in the cache. */
  lemma OverlapRestoresRevokedImage(image: Url, good: Response, gone: Response)
    requires IsProductImage(image.path) && CacheableData(good) && Gone(gone)
    ensures var request := Request("GET", true, false, image);
      var es := [Answer(request, good), Answer(request, gone), Settle(1, true), Settle(0, true)];
      Runs(Started(map[]), es) && Lookup(After(Started(map[]), es).caches, image) == Some(good)
  {
    var request := Request("GET", true, false, image);
    FamilyMarks(ProductImage, image.path);
    if IsStatic(image.path) { FamiliesAreDisjoint(Static, ProductImage, image.path); }
    assert RouteOf(request) == ProductImage;
    var es := [Answer(request, good), Answer(request, gone), Settle(1, true), Settle(0, true)];
    var w1 := Next(Started(map[]), es[0]);
    var w2 := Next(w1, es[1]);
    assert w2.pending == [Put(image, good), Drop(image)];
    var w3 := Next(w2, es[2]);
    assert w3.pending == [Put(image, good)];
    var w4 := Next(w3, es[3]);
    RunStep(w3, es[3], []);
    RunStep(w2, es[2], [es[3]]);
    RunStep(w1, es[1], [es[2]] + [es[3]]);
    RunStep(Started(map[]), es[0], [es[1]] + ([es[2]] + [es[3]]));
    assert [es[0]] + ([es[1]] + ([es[2]] + [es[3]])) == es;
  }

  // ---- The strategies, run one at a time ----

  datatype Network = Reply(response: Response) | Unreachable

  // What a page receives; Rejected is a network error.
  datatype Served = Answered(response: Response) | Rejected

  const UNAVAILABLE := Response(503, false, false, false, 0)

  function OrElse(cached: Option<Response>, fallback: Served): Served {
    if cached.Some? then Answered(cached.value) else fallback
  }

  // The caches after a strategy handled an answer and its operation settled.
  function Handled(caches: Stores, route: Route, url: Url, network: Network, storage: bool): Stores {
    if network.Reply? && storage && Decide(route, url, network.response).Some?
    then Apply(caches, Decide(route, url, network.response).value)
    else caches
  }

  // The strategies get through when the network answers and their cache operation, if any, succeeds.
  predicate GetsThrough(route: Route, url: Url, network: Network, storage: bool) {
    network.Reply? && (storage || Decide(route, url, network.response).None?)
  }

  function ServeImage(caches: Stores, url: Url, network: Network, storage: bool): Response {
    if GetsThrough(ProductImage, url, network, storage) then network.response
    else if Lookup(caches, url).Some? then Lookup(caches, url).value
    else UNAVAILABLE
  }

  // The caches after a sequence of requests for one product image.
  function AfterImages(caches: Stores, url: Url, history: seq<Network>): Stores {
    if history == [] then caches
    else
      var last := |history| - 1;
      Handled(AfterImages(caches, url, history[..last]), ProductImage, url, history[last], true)
  }

  // An answer that neither fills nor revokes an image.
  predicate Neutral(network: Network) {
    network.Unreachable? || (!CacheableData(network.response) && !Gone(network.response))
  }

  // The i-th answer is the latest one that may be kept, and none since then revoked it.
  predicate IsLive(history: seq<Network>, i: nat) {
    && i < |history| && history[i].Reply? && CacheableData(history[i].response)
    && forall j :: i < j < |history| ==> Neutral(history[j])
  }

  /** The cached image is always that of the latest ok, not no-store answer since the last
      404 or 410, and with none the next network failure is answered with 503. */
  lemma {:induction false} ImageIsLatestLive(caches: Stores, url: Url, history: seq<Network>)
    requires Lookup(caches, url) == None
    ensures forall i: nat :: IsLive(history, i) ==>
              Lookup(AfterImages(caches, url, history), url) == Some(history[i].response)
    ensures (forall i: nat :: !IsLive(history, i)) ==> Lookup(AfterImages(caches, url, history), url) == None
    ensures (forall i: nat :: !IsLive(history, i)) ==>
              ServeImage(AfterImages(caches, url, history), url, Unreachable, true) == UNAVAILABLE
  {
    if history != [] {
      var last := |history| - 1;
      var shorter := history[..last];
      ImageIsLatestLive(caches, url, shorter);
      assert Lookup(AfterImages(caches, url, history), url) ==
             if Neutral(history[last]) then Lookup(AfterImages(caches, url, shorter), url)
             else if CacheableData(history[last].response) then Some(history[last].response)
             else None;
      if Neutral(history[last]) {
        forall i: nat ensures IsLive(history, i) <==> IsLive(shorter, i) {
          if IsLive(shorter, i) {
            forall j | i < j < |history| ensures Neutral(history[j]) { if j < last { assert shorter[j] == history[j]; } }
          }
          if IsLive(history, i) {
            assert i != last;
            forall j | i < j < |shorter| ensures Neutral(shorter[j]) { assert shorter[j] == history[j]; }
          }
        }
      } else if CacheableData(history[last].response) {
        assert IsLive(history, last);
      }
    }
  }

  // ---- Images over interleaved runs ----

  // What the network said about an image, in the order it said so.
  function Said(es: seq<Event>, image: Url): seq<Network> {
    if es == [] then []
    else
      var rest := Said(es[1..], image);
      match es[0]
      case Answer(request, r) => if request.url == image && RouteOf(request) == ProductImage then [Reply(r)] + rest else rest
      case Unreached(request) => if request.url == image && RouteOf(request) == ProductImage then [Unreachable] + rest else rest
      case _ => rest
  }

  // The operations that those answers call for.
  function DueFor(answer: Network, image: Url): seq<Op> {
    var op := if answer.Reply? then Decide(ProductImage, image, answer.response) else None;
    if op.Some? then [op.value] else []
  }

  function Due(said: seq<Network>, image: Url): seq<Op> {
    if said == [] then [] else DueFor(said[0], image) + Due(said[1..], image)
  }

  // The copy that stands after a history: that of the latest live answer.
  function Standing(copy: Option<Response>, said: seq<Network>): Option<Response>
    decreases |said|
  {
    if said == [] then copy
    else Standing(if Neutral(said[0]) then copy else if CacheableData(said[0].response) then Some(said[0].response) else None, said[1..])
  }

  function Left(copy: Option<Response>, ops: seq<Op>): Option<Response> { if ops == [] then copy else Leaves(ops[|ops| - 1]) }

  lemma {:induction false} StandingIsLatestLive(copy: Option<Response>, said: seq<Network>)
    ensures forall i: nat :: IsLive(said, i) ==> Standing(copy, said) == Some(said[i].response)
    ensures (forall i: nat :: !IsLive(said, i)) ==>
              Standing(copy, said) == if forall n <- said :: Neutral(n) then copy else None
    decreases |said|
  {
    if said != [] {
      var rest := said[1..];
      var next := if Neutral(said[0]) then copy else if CacheableData(said[0].response) then Some(said[0].response) else None;
      StandingIsLatestLive(next, rest);
      forall i: nat | i < |rest| ensures IsLive(rest, i) <==> IsLive(said, i + 1) {
        if IsLive(rest, i) {
          forall j | i + 1 < j < |said| ensures Neutral(said[j]) { assert said[j] == rest[j - 1]; }
        }
        if IsLive(said, i + 1) {
          forall j | i < j < |rest| ensures Neutral(rest[j]) { assert rest[j] == said[j + 1]; }
        }
      }
      if forall n <- rest :: Neutral(n) {
        if !Neutral(said[0]) && CacheableData(said[0].response) {
          assert IsLive(said, 0) by { forall j | 0 < j < |said| ensures Neutral(said[j]) { assert said[j] in rest; } }
        }
        forall i: nat | i < |rest| ensures !IsLive(rest, i) { assert Neutral(rest[i]); }
      } else {
        var n :| n in rest && !Neutral(n);
        var k :| 0 <= k < |rest| && rest[k] == n;
        assert !Neutral(said[k + 1]);
        assert !IsLive(said, 0);
      }
      forall i: nat | IsLive(said, i) ensures Standing(copy, said) == Some(said[i].response) {
        if i > 0 { assert IsLive(rest, i - 1); }
      }
    }
  }

  lemma {:induction false} DueLeavesStanding(copy: Option<Response>, said: seq<Network>, image: Url)
    ensures Left(copy, Due(said, image)) == Standing(copy, said)
    decreases |said|
  {
    if said != [] {
      var next := if Neutral(said[0]) then copy else if CacheableData(said[0].response) then Some(said[0].response) else None;
      DueLeavesStanding(next, said[1..], image);
    }
  }

  /** In every run, whatever fails, overlaps or stops: an image's entry is that of the latest live
      answer exactly when its last settled operation leaves what the last one due would leave. */
  lemma LatestLiveExactly(w: Worker, es: seq<Event>, image: Url)
    requires Runs(w, es)
    ensures Lookup(After(w, es).caches, image) == Standing(Lookup(w.caches, image), Said(es, image)) <==>
      Left(Lookup(w.caches, image), Settled(w, es, image)) ==
      Left(Lookup(w.caches, image), Due(Said(es, image), image))
  {
    CompletionOrderDecides(w, es, image);
    DueLeavesStanding(Lookup(w.caches, image), Said(es, image), image);
  }

  // Operations on the image settle well and in the order of the answers, and neither a stop nor
  // the purge comes between.
  predicate InOrder(w: Worker, e: Event, image: Url)
    requires Enabled(w, e)
  {
    match e
    case Settle(i, ok) => w.pending[i].url == image ==> ok && forall j :: 0 <= j < i ==> w.pending[j].url != image
    case Stop => forall op <- w.pending :: op.url != image
    case DeleteSensitive(name, url) => !(name == CACHE_NAME && url == image)
    case _ => true
  }

  predicate RunsInOrder(w: Worker, es: seq<Event>, image: Url)
    decreases |es|
  {
    es == [] || (Enabled(w, es[0]) && InOrder(w, es[0], image) && RunsInOrder(Next(w, es[0]), es[1..], image))
  }

  function On(image: Url): Op -> bool { (op: Op) => op.url == image }

  function PendingOn(w: Worker, image: Url): seq<Op> { Filter(On(image), w.pending) }

  lemma RouteOfImage(request: Request, image: Url)
    requires IsProductImage(image.path) && request.url == image && Caches(RouteOf(request))
    ensures RouteOf(request) == ProductImage
  {
    FamiliesAreDisjoint(RouteOf(request), ProductImage, image.path);
  }

  lemma DecisionKeepsUrl(route: Route, url: Url, r: Response)
    ensures Decide(route, url, r).Some? ==> Decide(route, url, r).value.url == url && Caches(route)
  {
  }

  // The operations on the image that a step adds, settles, and leaves pending.
  lemma StepInOrder(w: Worker, e: Event, image: Url)
    requires IsProductImage(image.path) && Enabled(w, e) && InOrder(w, e, image)
    ensures PendingOn(w, image) + Due(Said([e], image), image) ==
      (if e.Settle? && e.ok && w.pending[e.index].url == image then [w.pending[e.index]] else []) + PendingOn(Next(w, e), image)
  {
    hide Decide, RouteOf, IsProductImage, Filter;
    assert [e][1..] == [];
    match e
    case Answer(request, r) =>
      DecisionKeepsUrl(RouteOf(request), request.url, r);
      if request.url == image && Caches(RouteOf(request)) { RouteOfImage(request, image); }
      var op := Decide(RouteOf(request), request.url, r);
      if op.Some? { FilterAppend(On(image), w.pending, op.value); }
      assert Due([Reply(r)], image) == if Decide(ProductImage, image, r).Some? then [Decide(ProductImage, image, r).value] else [] by {
        assert [Reply(r)][1..] == [];
      }
    case ShellAnswer(asset, r) =>
      DecisionKeepsUrl(Static, asset, r);
      ShellAssetsAreStatic(asset);
      if asset == image { FamiliesAreDisjoint(Static, ProductImage, image.path); }
      var op := Decide(Static, asset, r);
      if op.Some? { FilterAppend(On(image), w.pending, op.value); }
    case Unreached(request) =>
      assert Due([Unreachable], image) == [] by { assert [Unreachable][1..] == []; }
    case Settle(i, ok) => FilterWithout(On(image), w.pending, i);
    case Stop =>
      FilterNone(On(image), w.pending);
      FilterNone(On(image), []);
    case _ =>
  }

  lemma {:induction false} SaidInParts(es: seq<Event>, image: Url)
    requires es != []
    ensures Said(es, image) == Said([es[0]], image) + Said(es[1..], image)
  {
    assert [es[0]][1..] == [];
  }

  lemma {:induction false} DueInParts(first: seq<Network>, second: seq<Network>, image: Url)
    ensures Due(first + second, image) == Due(first, image) + Due(second, image)
  {
    hide DueFor;
    if first == [] {
      assert first + second == second;
    } else {
      DueInParts(first[1..], second, image);
      var both, due := first + second, DueFor(first[0], image);
      assert both[0] == first[0] && both[1..] == first[1..] + second;
      var a, b := Due(first[1..], image), Due(second, image);
      assert due + (a + b) == due + a + b;
    }
  }

  // What is due, and was pending before, is settled or pending, in that order.
  lemma {:induction false} SettlesInOrder(w: Worker, es: seq<Event>, image: Url)
    requires IsProductImage(image.path) && RunsInOrder(w, es, image)
    ensures Runs(w, es)
    ensures PendingOn(w, image) + Due(Said(es, image), image) == Settled(w, es, image) + PendingOn(After(w, es), image)
    decreases |es|
  {
    hide IsProductImage, Next, Due, Said, PendingOn;
    if es == [] {
      NothingSaid(image);
    } else {
      var next, rest := Next(w, es[0]), es[1..];
      SettlesInOrder(next, rest, image);
      StepInOrder(w, es[0], image);
      SaidInParts(es, image);
      DueInParts(Said([es[0]], image), Said(rest, image), image);
      var e := es[0];
      var settled := if e.Settle? && e.ok && w.pending[e.index].url == image then [w.pending[e.index]] else [];
      assert Settled(w, es, image) == settled + Settled(next, rest, image);
      hide *;
      Regroup(PendingOn(w, image), Due(Said([e], image), image), Due(Said(rest, image), image), settled,
              PendingOn(next, image), Settled(next, rest, image), PendingOn(After(next, rest), image));
    }
  }

  lemma Regroup<T>(before: seq<T>, due: seq<T>, later: seq<T>, settled: seq<T>, middle: seq<T>, rest: seq<T>, after: seq<T>)
    requires before + due == settled + middle && middle + later == rest + after
    ensures before + (due + later) == settled + rest + after
  {
    assert before + (due + later) == before + due + later;
    assert settled + middle + later == settled + (middle + later);
    assert settled + (rest + after) == settled + rest + after;
  }

  lemma NothingSaid(image: Url)
    ensures Said([], image) == [] && Due([], image) == []
  {
  }

  /** In every interleaved run in which the operations on an image settle in the order of its
      answers, and all have settled, its entry is that of the latest ok, not no-store answer since
      the last 404 or 410; with none, an image asked for while the network fails gets 503. */
  lemma SettledImageIsLatestLive(caches: Stores, es: seq<Event>, image: Url)
    requires IsProductImage(image.path) && Lookup(caches, image) == None
    requires RunsInOrder(Started(caches), es, image) && Runs(Started(caches), es)
    requires forall op <- After(Started(caches), es).pending :: op.url != image
    ensures var now, said := After(Started(caches), es).caches, Said(es, image);
      && (forall i: nat :: IsLive(said, i) ==> Lookup(now, image) == Some(said[i].response))
      && ((forall i: nat :: !IsLive(said, i)) ==> Lookup(now, image) == None)
      && (forall i: nat :: IsLive(said, i) ==> ServeImage(now, image, Unreachable, true) == said[i].response)
      && ((forall i: nat :: !IsLive(said, i)) ==> ServeImage(now, image, Unreachable, true) == UNAVAILABLE)
  {
    hide IsProductImage, IsLive, Next, Runs, Enabled;
    var w := Started(caches);
    SettlesInOrder(w, es, image);
    FilterNone(On(image), After(w, es).pending);
    FilterNone(On(image), []);
    assert PendingOn(w, image) == [] && PendingOn(After(w, es), image) == [];
    var due, settled := Due(Said(es, image), image), Settled(w, es, image);
    assert [] + due == due && settled + [] == settled;
    LatestLiveExactly(w, es, image);
    StandingIsLatestLive(None, Said(es, image));
  }

  function PurgedStores(caches: Stores): Stores {
    map name | name in caches ::
      if IsShellName(name) then (map url | url in caches[name] && url.search == "" :: caches[name][url])
      else caches[name]
  }

  class ShellWorker {
    var caches: Stores
    var skippedWaiting: bool
    var blockedWith: Option<nat>   // the SW_UPDATE_BLOCKED message

    constructor (caches: Stores)
      ensures this.caches == caches && !skippedWaiting && blockedWith == None
    {
      this.caches, skippedWaiting, blockedWith := caches, false, None;
    }

    method PutEntry(url: Url, r: Response)
      modifies this`caches
      ensures caches == Apply(old(caches), Put(url, r))
    {
      caches := caches[CACHE_NAME := EntriesOf(caches, CACHE_NAME)[url := r]];
    }

    method DeleteEntry(url: Url)
      modifies this`caches
      ensures caches == Apply(old(caches), Drop(url))
    {
      caches := caches[CACHE_NAME := EntriesOf(caches, CACHE_NAME) - {url}];
    }

    // caches.match: an entry of any cache.
    method MatchAny(url: Url) returns (found: Option<Response>)
      ensures found.None? <==> forall name :: name in caches ==> url !in caches[name]
      ensures found.Some? ==> exists name :: name in caches && url in caches[name] && caches[name][url] == found.value
    {
      if name :| name in caches && url in caches[name] {
        found := Some(caches[name][url]);
      } else {
        found := None;
      }
    }

    /** A copy in any cache is served without the network; otherwise only an ok answer is kept. */
    method CacheFirst(url: Url, network: Network, storage: bool) returns (served: Served)
      modifies this`caches
      ensures (exists name :: name in old(caches) && url in old(caches)[name]) ==>
                caches == old(caches) && served.Answered? &&
                exists name :: name in old(caches) && url in old(caches)[name] && old(caches)[name][url] == served.response
      ensures (forall name :: name in old(caches) ==> url !in old(caches)[name]) ==>
                caches == Handled(old(caches), Static, url, network, storage) &&
                served == if GetsThrough(Static, url, network, storage) then Answered(network.response) else Rejected
    {
      var cached := MatchAny(url);
      if cached.Some? { return Answered(cached.value); }
      if network.Unreachable? { return Rejected; }
      if Ok(network.response) {
        if !storage { return Rejected; }
        PutEntry(url, network.response);
      }
      return Answered(network.response);
    }

    /** The cached copy is served at once and refreshed behind the page's back. */
    method StaleWhileRevalidate(url: Url, network: Network, storage: bool) returns (served: Served)
      modifies this`caches
      ensures caches == Handled(old(caches), MenuData, url, network, storage)
      ensures served == OrElse(Lookup(old(caches), url),
                               if GetsThrough(MenuData, url, network, storage) then Answered(network.response) else Rejected)
    {
      var cached := Lookup(caches, url);
      served := Rejected;
      if network.Reply? {
        var r := network.response;
        if Ok(r) && !r.noStore {
          if storage {
            PutEntry(url, r);
            served := Answered(r);
          }
        } else {
          served := Answered(r);
        }
      }
      if cached.Some? { served := Answered(cached.value); }
    }

    method NetworkFirstRevocableAsset(url: Url, network: Network, storage: bool) returns (served: Response)
      modifies this`caches
      ensures caches == Handled(old(caches), ProductImage, url, network, storage)
      ensures served == ServeImage(old(caches), url, network, storage)
    {
      if network.Reply? {
        var r := network.response;
        if Ok(r) && !r.noStore {
          if storage { PutEntry(url, r); return r; }
        } else if r.status == 404 || r.status == 410 {
          if storage { DeleteEntry(url); return r; }
        } else {
          return r;
        }
      }
      var cached := Lookup(caches, url);
      return if cached.Some? then cached.value else UNAVAILABLE;
    }

    /** A menu page comes from the network; its copy answers for a server error or a lost
        connection, and then the offline page does. */
    method NetworkFirstPublicMenuNavigation(url: Url, network: Network, storage: bool) returns (served: Served)
      modifies this`caches
      ensures caches == Handled(old(caches), PublicMenu, url, network, storage)
      ensures GetsThrough(PublicMenu, url, network, storage) && network.response.status < 500 ==>
                served == Answered(network.response)
      ensures Lookup(old(caches), url).Some? &&
              (!GetsThrough(PublicMenu, url, network, storage) || network.response.status >= 500) ==>
                served == Answered(Lookup(old(caches), url).value)
      ensures Lookup(old(caches), url).None? && GetsThrough(PublicMenu, url, network, storage) ==>
                served == Answered(network.response)
      ensures Lookup(old(caches), url).None? && !GetsThrough(PublicMenu, url, network, storage) ==>
                (served.Answered? <==> exists name :: name in caches && Url(OFFLINE_PATH, "") in caches[name])
    {
      var cached := Lookup(caches, url);
      if network.Reply? {
        var r := network.response;
        var hasSensitiveQuery := url.search != "";
        var cacheAllowed := Ok(r) && !hasSensitiveQuery && (r.offlineMarked || !r.sensitive);
        var drops := !cacheAllowed && (hasSensitiveQuery || r.status == 404 || r.status == 410);
        if storage || (!cacheAllowed && !drops) {
          if cacheAllowed { PutEntry(url, r); } else if drops { DeleteEntry(url); }
          if r.status >= 500 && cached.Some? { return Answered(cached.value); }
          return Answered(r);
        }
      }
      if cached.Some? { return Answered(cached.value); }
      var offline := MatchAny(Url(OFFLINE_PATH, ""));
      return if offline.Some? then Answered(offline.value) else Rejected;
    }

    /** Every entry with a query leaves every shell cache; nothing else changes. */
    method PurgeSensitiveNavigationEntries()
      modifies this`caches
      ensures caches == PurgedStores(old(caches))
    {
      var names := ShellNames(caches);
      while names != {}
        invariant names <= ShellNames(old(caches))
        invariant caches.Keys == old(caches).Keys
        invariant forall name :: name in caches ==>
          caches[name] == if IsShellName(name) && name !in names then PurgedStores(old(caches))[name] else old(caches)[name]
        decreases |names|
      {
        var name :| name in names;
        PurgeCache(name);
        names := names - {name};
      }
    }

    method PurgeCache(name: string)
      requires name in caches
      modifies this`caches
      ensures caches == old(caches)[name := map url | url in old(caches)[name] && url.search == "" :: old(caches)[name][url]]
    {
      ghost var before := caches[name];
      var requests := caches[name].Keys;
      while requests != {}
        invariant requests <= before.Keys && name in caches && caches == old(caches)[name := caches[name]]
        invariant forall url :: url in caches[name] <==> url in before && (url in requests || url.search == "")
        invariant forall url :: url in caches[name] ==> caches[name][url] == before[url]
        decreases |requests|
      {
        var request :| request in requests;
        if request.search != "" { caches := caches[name := caches[name] - {request}]; }
        requests := requests - {request};
      }
      assert caches[name] == map url | url in before && url.search == "" :: before[url];
    }

    /** Caches of other versions go only when no unsynchronized record is counted. */
    method Activate(db: OfflineDatabase, access: StoreAccess)
      modifies this`caches
      ensures var purged := PurgedStores(old(caches));
        caches == if CountUnsynchronizedRecords(db, access) == 0
                  then map name | name in purged && name == CACHE_NAME :: purged[name]
                  else purged
    {
      PurgeSensitiveNavigationEntries();
      var pendingRecords := CountUnsynchronizedRecords(db, access);
      if pendingRecords == 0 {
        caches := map name | name in caches && name == CACHE_NAME :: caches[name];
      }
    }

    /** With successful reads, an update activates only over fully synchronized stores;
        otherwise the pages are told how many records block it. */
    method ActivateUpdate(db: OfflineDatabase, access: StoreAccess)
      modifies this`skippedWaiting, this`blockedWith
      ensures skippedWaiting == (old(skippedWaiting) || CountUnsynchronizedRecords(db, access) == 0)
      ensures blockedWith == if CountUnsynchronizedRecords(db, access) > 0
                             then Some(CountUnsynchronizedRecords(db, access)) else old(blockedWith)
      ensures access == StoreAccess(true, true, true) && db.Present? && (HasUnsynchronized(db.queue) || HasUnsynchronized(db.orders)) ==>
                skippedWaiting == old(skippedWaiting) && blockedWith.Some?
    {
      ZeroMeansSynchronized(db);
      var pendingRecords := CountUnsynchronizedRecords(db, access);
      if pendingRecords > 0 {
        blockedWith := Some(pendingRecords);
        return;
      }
      skippedWaiting := true;
    }
  }
}
