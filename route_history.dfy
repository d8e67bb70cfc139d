/** The saved-route history: two local-storage entries holding the last visited
    path and the time it was saved, valid for thirty minutes. */
module RouteHistory {
  import opened Wrappers
  import opened Text

  const RouteKey: string := "rifaqui_last_route"
  const TimestampKey: string := "rifaqui_route_timestamp"

  /** Thirty minutes in milliseconds. */
  const ExpiryMs: int := 30 * 60 * 1000

  /** The paths that are never saved, and from which nothing is restored. */
  const ExcludedPaths: seq<string> := ["/login", "/register", "/admin/login", "/"]

  predicate ShouldSave(pathname: string) {
    pathname !in ExcludedPaths
  }

  /** Local storage after `saveCurrentRoute(pathname)` at the instant `now`. */
  function Saved(storage: map<string, string>, pathname: string, now: nat): (s: map<string, string>)
    ensures RouteKey in s && s[RouteKey] == pathname
    ensures TimestampKey in s && ParseInt(s[TimestampKey]) == Some(now)
    ensures forall k :: k != RouteKey && k != TimestampKey ==>
      (k in s <==> k in storage) && (k in s ==> s[k] == storage[k])
  {
    ParseIntDecimal(now);
    storage[RouteKey := pathname][TimestampKey := Decimal(now)]
  }

  /** Local storage after `clearRouteHistory`. */
  function Cleared(storage: map<string, string>): (s: map<string, string>)
    ensures RouteKey !in s && TimestampKey !in s
    ensures forall k :: k != RouteKey && k != TimestampKey ==>
      (k in s <==> k in storage) && (k in s ==> s[k] == storage[k])
  {
    storage - {RouteKey, TimestampKey}
  }

  /** Both entries are there and non-empty; `!savedRoute || !timestamp` fails. */
  predicate BothPresent(storage: map<string, string>) {
    RouteKey in storage && storage[RouteKey] != "" && TimestampKey in storage && storage[TimestampKey] != ""
  }

  /** The saved route is older than thirty minutes. A timestamp that does not parse
      gives `NaN` for the age, and `NaN > limit` is false. */
  predicate IsExpired(storage: map<string, string>, now: int) {
    BothPresent(storage) &&
    match ParseInt(storage[TimestampKey])
    case Some(t) => now - t > ExpiryMs
    case None => false
  }

  /** The value `getLastRoute` returns. */
  function LastRoute(storage: map<string, string>, now: int): (r: Option<string>)
    ensures r.Some? <==> BothPresent(storage) && !IsExpired(storage, now)
    ensures r.Some? ==> r.value == storage[RouteKey] && r.value != ""
  {
    if !BothPresent(storage) || IsExpired(storage, now) then None
    else Some(storage[RouteKey])
  }

  /** A timestamp that does not parse never expires: the saved route is returned
      however much time has passed. */
  lemma UnparsableTimestampKept(storage: map<string, string>, now: int)
    requires BothPresent(storage) && ParseInt(storage[TimestampKey]).None?
    ensures LastRoute(storage, now) == Some(storage[RouteKey])
  {
  }

  /** A route saved at `saved` is returned at `now` exactly while at most thirty
      minutes have passed; thirty minutes on the dot is still valid. */
  lemma SavedRouteValidity(storage: map<string, string>, pathname: string, saved: nat, now: int)
    requires pathname != ""
    ensures LastRoute(Saved(storage, pathname, saved), now) == Some(pathname) <==> now - saved <= 1800000
    ensures now - saved > 1800000 ==> LastRoute(Saved(storage, pathname, saved), now) == None
  {
  }

  /** `restoreLastRoute`'s choice, given the current path: the last route, when it
      differs from the current path and the current path is neither an
      authentication page nor the home page. */
  function Restore(lastRoute: Option<string>, currentPath: string): (r: Option<string>)
    ensures r.Some? <==> lastRoute.Some? && lastRoute.value != "" && lastRoute.value != currentPath
                         && currentPath !in ExcludedPaths
    ensures r.Some? ==> r == lastRoute
  {
    match lastRoute
    case Some(last) =>
      if last != "" && last != currentPath then
        var isAuthPage := currentPath in ["/login", "/register", "/admin/login"];
        var isHomePage := currentPath == "/";
        if !isAuthPage && !isHomePage then Some(last) else None
      else None
    case None => None
  }

  /** Nothing is ever restored on a page whose path is not saved either. */
  lemma NoRestoreWhereNotSaved(lastRoute: Option<string>, currentPath: string)
    requires !ShouldSave(currentPath)
    ensures Restore(lastRoute, currentPath) == None
  {
  }

  /** The storage, as the hook sees it. */
  class RouteStore {
    var storage: map<string, string>

    constructor(initial: map<string, string>)
      ensures storage == initial
    {
      storage := initial;
    }

    /** `saveCurrentRoute`. */
    method SaveCurrentRoute(pathname: string, now: nat)
      modifies this
      ensures storage == Saved(old(storage), pathname, now)
    {
      storage := storage[RouteKey := pathname];
      storage := storage[TimestampKey := Decimal(now)];
    }

    /** `clearRouteHistory`. */
    method ClearRouteHistory()
      modifies this
      ensures storage == Cleared(old(storage))
    {
      storage := storage - {RouteKey};
      storage := storage - {TimestampKey};
    }

    /** `getLastRoute` at the instant `now`: an expired route is cleared. */
    method GetLastRoute(now: int) returns (r: Option<string>)
      modifies this
      ensures r == LastRoute(old(storage), now)
      ensures storage == if IsExpired(old(storage), now) then Cleared(old(storage)) else old(storage)
    {
      if RouteKey !in storage || TimestampKey !in storage {
        return None;
      }
      var savedRoute := storage[RouteKey];
      var timestamp := storage[TimestampKey];
      if savedRoute == "" || timestamp == "" {
        return None;
      }
      match ParseInt(timestamp) {
        case Some(t) =>
          if now - t > ExpiryMs {
            ClearRouteHistory();
            return None;
          }
        case None =>
      }
      r := Some(savedRoute);
    }

    /** `restoreLastRoute` while the browser shows `currentPath`. */
    method RestoreLastRoute(currentPath: string, now: int) returns (r: Option<string>)
      modifies this
      ensures r == Restore(LastRoute(old(storage), now), currentPath)
      ensures storage == if IsExpired(old(storage), now) then Cleared(old(storage)) else old(storage)
    {
      var lastRoute := GetLastRoute(now);
      r := Restore(lastRoute, currentPath);
    }

    /** The effect run on every path change: save unless the path is excluded. */
    method OnPathChange(pathname: string, now: nat)
      modifies this
      ensures ShouldSave(pathname) ==> storage == Saved(old(storage), pathname, now)
      ensures !ShouldSave(pathname) ==> storage == old(storage)
    {
      if ShouldSave(pathname) {
        SaveCurrentRoute(pathname, now);
      }
    }
  }
}
