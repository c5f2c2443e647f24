// Which caching strategy of the service worker handles a request, and which cache
// keys each strategy can therefore write.
module FetchRouting {
  import opened Prelude

  const OFFLINE_PATH := "/offline"

  // A same-origin URL: the path, and the query including its question mark.
  datatype Url = Url(path: string, search: string)

  datatype Request = Request(verb: string, sameOrigin: bool, navigate: bool, url: Url)

  datatype Route =
    | Unhandled      // left to the browser
    | NetworkOnly    // a navigation that is fetched, with the offline page as fallback
    | PublicMenu     // networkFirstPublicMenuNavigation
    | Static         // cacheFirst
    | ProductImage   // networkFirstRevocableAsset
    | MenuData       // staleWhileRevalidate

  // The prefix followed by exactly one non-empty path segment.
  predicate OneSegment(path: string, prefix: string) {
    StartsWith(path, prefix) && |path| > |prefix| && '/' !in path[|prefix|..]
  }

  predicate IsLegacyStorefront(path: string) {
    OneSegment(path, "/menu/") || OneSegment(path, "/s/") || OneSegment(path, "/delivery/")
  }

  predicate IsMenuPage(path: string) { OneSegment(path, "/q/") || OneSegment(path, "/store/") }

  predicate IsStatic(path: string) {
    StartsWith(path, "/_next/static/") || StartsWith(path, "/icons/") || path == OFFLINE_PATH
  }

  predicate IsProductImage(path: string) { StartsWith(path, "/api/assets/product-images/") }

  predicate IsStallMenu(path: string) {
    && StartsWith(path, "/api/public/stalls/")
    && |path| > |"/api/public/stalls/"| + |"/menu"|
    && path[|path| - 5..] == "/menu"
    && '/' !in path[|"/api/public/stalls/"|..|path| - 5]
  }

  predicate IsMenuData(path: string) { StartsWith(path, "/api/assets/offline-menus/") || IsStallMenu(path) }

  function RouteOf(request: Request): Route {
    var path := request.url.path;
    if request.verb != "GET" || !request.sameOrigin then Unhandled
    else if request.navigate then
      if IsLegacyStorefront(path) then Unhandled
      else if IsMenuPage(path) then PublicMenu
      else NetworkOnly
    else if IsStatic(path) then Static
    else if IsProductImage(path) then ProductImage
    else if IsMenuData(path) then MenuData
    else Unhandled
  }

  // The keys a caching strategy can write, told from the path alone.
  predicate InFamily(route: Route, path: string) {
    match route
    case PublicMenu => IsMenuPage(path)
    case Static => IsStatic(path)
    case ProductImage => IsProductImage(path)
    case MenuData => IsMenuData(path)
    case _ => false
  }

  predicate Caches(route: Route) { route !in {Unhandled, NetworkOnly} }

  lemma PrefixCharacter(path: string, prefix: string, i: nat)
    requires StartsWith(path, prefix) && i < |prefix|
    ensures path[i] == prefix[i]
  {
    assert path[..|prefix|][i] == path[i];
  }

  // The characters at which the key families part: position 1, and below /api/ further on.
  predicate Marked(route: Route, path: string) {
    match route
    case PublicMenu => |path| > 1 && path[1] in "qs"
    case Static => |path| > 1 && path[1] in "_io"
    case ProductImage => |path| > 12 && path[1] == 'a' && path[5] == 'a' && path[12] == 'p'
    case _ => |path| > 12 && path[1] == 'a' && (path[5] == 'p' || path[12] == 'o')
  }

  lemma FamilyMarks(route: Route, path: string)
    requires InFamily(route, path)
    ensures Marked(route, path)
  {
    match route
    case PublicMenu =>
      PrefixCharacter(path, if OneSegment(path, "/q/") then "/q/" else "/store/", 1);
    case Static =>
      if path != OFFLINE_PATH {
        PrefixCharacter(path, if StartsWith(path, "/icons/") then "/icons/" else "/_next/static/", 1);
      }
    case ProductImage =>
      var prefix := "/api/assets/product-images/";
      PrefixCharacter(path, prefix, 1);
      PrefixCharacter(path, prefix, 5);
      PrefixCharacter(path, prefix, 12);
    case MenuData =>
      var prefix := if StartsWith(path, "/api/assets/offline-menus/") then "/api/assets/offline-menus/" else "/api/public/stalls/";
      PrefixCharacter(path, prefix, 1);
      PrefixCharacter(path, prefix, 5);
      PrefixCharacter(path, prefix, 12);
  }

  /** Two caching strategies never share a key, so a key has at most one writer: whatever
      the mode of the request, the path alone tells the strategy. */
  lemma OneStrategyPerKey(a: Request, b: Request)
    requires Caches(RouteOf(a)) && Caches(RouteOf(b)) && a.url.path == b.url.path
    ensures RouteOf(a) == RouteOf(b)
    ensures InFamily(RouteOf(a), a.url.path)
  {
    FamilyMarks(RouteOf(a), a.url.path);
    FamilyMarks(RouteOf(b), b.url.path);
  }

  lemma FamiliesAreDisjoint(a: Route, b: Route, path: string)
    requires InFamily(a, path) && InFamily(b, path)
    ensures a == b
  {
    FamilyMarks(a, path);
    FamilyMarks(b, path);
  }
}
