/**
 * `verifyRouteAuthInventory` of apps/api/scripts/route-auth-inventory.ts: three loops over the
 * manifest, the captured routes and the manifest's keys. A pass is shown to be equivalent to a
 * statement about the two lists that mentions no loop and no map.
 */
module RouteInventory {
  import opened Prelude
  import opened JsText

  datatype AuthClass = PublicExact | ServiceAuthenticated | AuthenticatedUserAgent | OwnerMember | AdminOperator | DevOnly

  datatype Entry = Entry(verb: string, path: string, classification: AuthClass, guards: seq<string>)

  /** What a route may have in place of a handler or a guard; functions are compared by identity. */
  datatype Value = Null | Function(id: nat) | Other(id: nat)

  datatype Captured = Captured(verb: string, path: string, preHandlers: seq<Value>, serviceGuard: Value,
                               hasExactServiceMarker: bool, hasLookalikeServiceMarker: bool)

  datatype Failure =
    | DuplicateManifestRoute(key: string)
    | UnsupportedMethod(key: string)
    | UnapprovedWildcard(key: string)
    | InvalidContract(key: string)
    | DuplicateRoute(key: string)
    | Unclassified(key: string)
    | Lookalike(key: string)
    | GuardDrift(key: string)
    | EquivalenceDrift(key: string)
    | IdentityReused(key: string)
    | NotEffective(key: string)

  const SUPPORTED_METHODS: set<string> := {"DELETE", "GET", "HEAD", "OPTIONS", "PATCH", "POST", "PUT"}
  const APPROVED_WILDCARD_KEYS: set<string> := {"OPTIONS *", "GET /media/*", "HEAD /media/*"}

  function Upper(s: string): string {
    seq(|s|, i requires 0 <= i < |s| => if 'a' <= s[i] <= 'z' then s[i] - 'a' + 'A' else s[i])
  }

  function KeyOf(verb: string, path: string): string {
    Upper(verb) + " " + path
  }

  function EntryKey(entry: Entry): string {
    KeyOf(entry.verb, entry.path)
  }

  function RouteKey(route: Captured): string {
    KeyOf(route.verb, route.path)
  }

  // ---------------------------------------------------------------------------
  // Guard lists
  // ---------------------------------------------------------------------------

  predicate IsServiceGuard(guard: string) {
    "root-service:" <= guard
  }

  predicate IsRouteGuard(guard: string) {
    "route:" <= guard
  }

  function ServiceGuards(guards: seq<string>): seq<string> {
    if |guards| == 0 then []
    else (if IsServiceGuard(guards[0]) then [guards[0]] else []) + ServiceGuards(guards[1..])
  }

  /** `guards.find(...)`. */
  function Identifier(guards: seq<string>): Option<string> {
    if |guards| == 0 then None
    else if IsServiceGuard(guards[0]) then Some(guards[0])
    else Identifier(guards[1..])
  }

  function Insert(s: string, sorted: seq<string>): seq<string> {
    if |sorted| == 0 || Less(s, sorted[0]) then [s] + sorted else [sorted[0]] + Insert(s, sorted[1..])
  }

  /** `[...guards].sort()`. */
  function Sorted(guards: seq<string>): seq<string> {
    if |guards| == 0 then [] else Insert(guards[|guards| - 1], Sorted(guards[..|guards| - 1]))
  }

  /** `guards.join('|')`. */
  function Joined(guards: seq<string>): string {
    if |guards| == 0 then "" else if |guards| == 1 then guards[0] else guards[0] + "|" + Joined(guards[1..])
  }

  function Bars(s: string): nat {
    if |s| == 0 then 0 else (if s[0] == '|' then 1 else 0) + Bars(s[1..])
  }

  lemma {:induction false} BarsOfConcat(s: string, t: string)
    ensures Bars(s + t) == Bars(s) + Bars(t)
  {
    if |s| == 0 {
      assert s + t == t;
    } else {
      assert (s + t)[1..] == s[1..] + t;
      BarsOfConcat(s[1..], t);
    }
  }

  lemma {:induction false} NoBars(s: string)
    ensures Bars(s) == 0 <==> '|' !in s
  {
    if |s| > 0 {
      assert s == [s[0]] + s[1..];
      NoBars(s[1..]);
    }
  }

  /** Joining `n` texts puts at least `n - 1` bars into the result. */
  lemma {:induction false} BarsOfJoined(guards: seq<string>)
    ensures |guards| <= Bars(Joined(guards)) + 1
  {
    if |guards| > 1 {
      var rest := Joined(guards[1..]);
      BarsOfJoined(guards[1..]);
      BarsOfConcat(guards[0], "|");
      BarsOfConcat(guards[0] + "|", rest);
    }
  }

  lemma {:induction false} InsertAdds(s: string, sorted: seq<string>)
    ensures |Insert(s, sorted)| == |sorted| + 1
  {
    if |sorted| > 0 {
      InsertAdds(s, sorted[1..]);
    }
  }

  lemma {:induction false} SortedLength(guards: seq<string>)
    ensures |Sorted(guards)| == |guards|
  {
    if |guards| > 0 {
      SortedLength(guards[..|guards| - 1]);
      InsertAdds(guards[|guards| - 1], Sorted(guards[..|guards| - 1]));
    }
  }

  lemma SortedOne(x: string)
    ensures Sorted([x]) == [x]
  {
    assert [x][..0] == [];
  }

  lemma SortedTwo(x: string, y: string)
    ensures Sorted([x, y]) == if Less(y, x) then [y, x] else [x, y]
  {
    SortedOne(x);
    assert [x, y][..1] == [x];
    assert Insert(y, [x]) == if Less(y, x) then [y, x] else [x] + Insert(y, [x][1..]);
  }

  /** A list that sorts and joins to a text without a bar is that text alone. */
  lemma JoinsToOne(guards: seq<string>, a: string)
    requires '|' !in a && a != ""
    ensures Joined(Sorted(guards)) == a <==> guards == [a]
  {
    SortedOne(a);
    if Joined(Sorted(guards)) == a {
      NoBars(a);
      BarsOfJoined(Sorted(guards));
      SortedLength(guards);
      if |guards| == 1 {
        SortedOne(guards[0]);
        assert guards == [guards[0]];
      }
    }
  }

  /**
   * A list that sorts and joins to `a|b` has `a` and `b` in either order, or is the one text
   * `a|b`: the comparison cannot tell a bar inside an identifier from the one it puts between two.
   */
  lemma JoinsToTwo(guards: seq<string>, a: string, b: string)
    requires '|' !in a && '|' !in b && Less(a, b)
    ensures Joined(Sorted(guards)) == a + "|" + b <==> guards == [a, b] || guards == [b, a] || guards == [a + "|" + b]
  {
    SortedOne(a + "|" + b);
    SortedTwo(a, b);
    SortedTwo(b, a);
    LessIsIrreflexive(a);
    if Less(b, a) {
      LessIsTransitive(a, b, a);
    }
    assert Joined([a, b]) == a + "|" + b;
    if Joined(Sorted(guards)) == a + "|" + b {
      BarsOfTwo(a, b);
      NoBars(a);
      NoBars(b);
      BarsOfJoined(Sorted(guards));
      SortedLength(guards);
      if |guards| == 1 {
        SortedOne(guards[0]);
        assert guards == [guards[0]];
      } else if |guards| == 2 {
        PairJoinsToTwo(guards[0], guards[1], a, b);
        assert guards == [guards[0], guards[1]];
      }
    }
  }

  lemma BarsOfTwo(x: string, y: string)
    ensures Bars(x + "|" + y) == Bars(x) + 1 + Bars(y)
  {
    BarsOfConcat(x, "|");
    BarsOfConcat(x + "|", y);
  }

  lemma PairJoinsToTwo(x: string, y: string, a: string, b: string)
    requires '|' !in a && '|' !in b && Joined(Sorted([x, y])) == a + "|" + b
    ensures (x == a && y == b) || (x == b && y == a)
  {
    SortedTwo(x, y);
    var p, q := if Less(y, x) then y else x, if Less(y, x) then x else y;
    assert Joined([p, q]) == p + "|" + q;
    BarsOfTwo(p, q);
    BarsOfTwo(a, b);
    NoBars(a);
    NoBars(b);
    NoBars(p);
    NoBars(q);
    CutAtFirst(p, q, a, b, '|');
  }

  // ---------------------------------------------------------------------------
  // What a pass means
  // ---------------------------------------------------------------------------

  /** The guard contract of each class. */
  predicate HonoursContract(entry: Entry) {
    match entry.classification
    case PublicExact => forall i :: 0 <= i < |entry.guards| ==> !IsRouteGuard(entry.guards[i]) && !IsServiceGuard(entry.guards[i])
    case ServiceAuthenticated => entry.verb == "POST" && |ServiceGuards(entry.guards)| == 1
    case AuthenticatedUserAgent => entry.guards == ["route:requireAuth"]
    case OwnerMember => IsPair(entry.guards, "handler:resource-authority", "route:requireAuth")
    case AdminOperator => IsPair(entry.guards, "handler:admin", "route:requireAuth")
    case DevOnly => entry.guards == ["server:dev-mount-condition"] && "/dev/" <= entry.path
  }

  predicate IsPair(guards: seq<string>, a: string, b: string) {
    guards == [a, b] || guards == [b, a] || guards == [a + "|" + b]
  }

  predicate GoodEntry(entry: Entry) {
    && entry.verb in SUPPORTED_METHODS
    && ('*' in entry.path || '?' in entry.path ==> EntryKey(entry) in APPROVED_WILDCARD_KEYS)
    && HonoursContract(entry)
  }

  predicate RequiresAuth(classification: AuthClass) {
    classification in {AuthenticatedUserAgent, OwnerMember, AdminOperator}
  }

  /** A captured route carries exactly what its manifest entry says. */
  predicate GoodRoute(route: Captured, expected: Entry, requireAuth: Value) {
    && !route.hasLookalikeServiceMarker
    && (RequiresAuth(expected.classification) <==> route.preHandlers == [requireAuth])
    && if expected.classification == ServiceAuthenticated then
         route.preHandlers == [] && route.hasExactServiceMarker && route.serviceGuard.Function?
       else
         && !route.hasExactServiceMarker && route.serviceGuard == Null
         && (RequiresAuth(expected.classification) || route.preHandlers == [])
  }

  ghost predicate GoodManifest(manifest: seq<Entry>, n: nat)
    requires n <= |manifest|
  {
    && (forall i :: 0 <= i < n ==> GoodEntry(manifest[i]))
    && forall i, j :: 0 <= i < j < n ==> EntryKey(manifest[i]) != EntryKey(manifest[j])
  }

  predicate Matches(entry: Entry, route: Captured) {
    EntryKey(entry) == RouteKey(route)
  }

  /** Some entry stands for the route, and the route carries what that entry says. */
  ghost predicate Classified(manifest: seq<Entry>, route: Captured, requireAuth: Value) {
    exists entry :: entry in manifest && Matches(entry, route) && GoodRoute(route, entry, requireAuth)
  }

  ghost predicate IsService(manifest: seq<Entry>, route: Captured, identifier: Option<string>) {
    exists entry :: entry in manifest && Matches(entry, route) && entry.classification == ServiceAuthenticated &&
      identifier == Identifier(entry.guards)
  }

  ghost predicate PairOneToOne(manifest: seq<Entry>, a: Captured, b: Captured) {
    forall x, y :: IsService(manifest, a, x) && IsService(manifest, b, y) ==> (x == y <==> a.serviceGuard == b.serviceGuard)
  }

  /** Service identifiers and guard identities go one to one. */
  ghost predicate OneToOne(manifest: seq<Entry>, captured: seq<Captured>) {
    forall i, j :: 0 <= i < |captured| && 0 <= j < |captured| ==> PairOneToOne(manifest, captured[i], captured[j])
  }

  ghost predicate DistinctRoutes(captured: seq<Captured>, n: nat)
    requires n <= |captured|
  {
    forall i, j :: 0 <= i < j < n ==> RouteKey(captured[i]) != RouteKey(captured[j])
  }

  ghost predicate AllClassified(manifest: seq<Entry>, captured: seq<Captured>, requireAuth: Value) {
    forall i :: 0 <= i < |captured| ==> Classified(manifest, captured[i], requireAuth)
  }

  /** Every entry stands for some route. */
  ghost predicate AllEffective(manifest: seq<Entry>, captured: seq<Captured>) {
    forall i :: 0 <= i < |manifest| ==> exists j :: 0 <= j < |captured| && Matches(manifest[i], captured[j])
  }

  /** The declarative statement. */
  ghost predicate Sound(captured: seq<Captured>, requireAuth: Value, manifest: seq<Entry>) {
    && GoodManifest(manifest, |manifest|)
    && DistinctRoutes(captured, |captured|)
    && AllClassified(manifest, captured, requireAuth)
    && OneToOne(manifest, captured)
    && AllEffective(manifest, captured)
  }

  // ---------------------------------------------------------------------------
  // The manifest loop
  // ---------------------------------------------------------------------------

  /** `manifestByKey` after the first `n` entries. */
  function ByKey(manifest: seq<Entry>, n: nat): map<string, Entry>
    requires n <= |manifest|
  {
    if n == 0 then map[] else ByKey(manifest, n - 1)[EntryKey(manifest[n - 1]) := manifest[n - 1]]
  }

  lemma {:induction false} ByKeyHolds(manifest: seq<Entry>, n: nat, key: string)
    requires n <= |manifest|
    ensures key in ByKey(manifest, n) <==> exists i :: 0 <= i < n && EntryKey(manifest[i]) == key
    ensures key in ByKey(manifest, n) ==> EntryKey(ByKey(manifest, n)[key]) == key && ByKey(manifest, n)[key] in manifest
  {
    if n > 0 {
      ByKeyHolds(manifest, n - 1, key);
      if key in ByKey(manifest, n) && key != EntryKey(manifest[n - 1]) {
        var i :| 0 <= i < n - 1 && EntryKey(manifest[i]) == key;
      }
    }
  }

  /** The checks of one entry. */
  method CheckEntry(entry: Entry) returns (failures: seq<Failure>)
    ensures failures == [] <==> GoodEntry(entry)
    ensures var key := EntryKey(entry);
            && (UnsupportedMethod(key) in failures <==> entry.verb !in SUPPORTED_METHODS)
            && (UnapprovedWildcard(key) in failures <==>
                  ('*' in entry.path || '?' in entry.path) && key !in APPROVED_WILDCARD_KEYS)
            && (InvalidContract(key) in failures <==> !HonoursContract(entry))
            && forall f :: f in failures ==> f in {UnsupportedMethod(key), UnapprovedWildcard(key), InvalidContract(key)}
  {
    var routeKey := EntryKey(entry);
    failures := [];
    if entry.verb !in SUPPORTED_METHODS {
      failures := failures + [UnsupportedMethod(routeKey)];
    }
    if ('*' in entry.path || '?' in entry.path) && routeKey !in APPROVED_WILDCARD_KEYS {
      failures := failures + [UnapprovedWildcard(routeKey)];
    }
    var contract := CheckContract(entry);
    if !contract {
      failures := failures + [InvalidContract(routeKey)];
    }
  }

  lemma OwnerGuards(guards: seq<string>)
    ensures Joined(Sorted(guards)) == "handler:resource-authority|route:requireAuth" <==>
              IsPair(guards, "handler:resource-authority", "route:requireAuth")
  {
    var a, b := "handler:resource-authority", "route:requireAuth";
    assert a[..0] == b[..0];
    FirstDifferenceDecides(a, b, 0);
    assert a + "|" + b == "handler:resource-authority|route:requireAuth";
    JoinsToTwo(guards, a, b);
  }

  lemma AdminGuards(guards: seq<string>)
    ensures Joined(Sorted(guards)) == "handler:admin|route:requireAuth" <==> IsPair(guards, "handler:admin", "route:requireAuth")
  {
    var a, b := "handler:admin", "route:requireAuth";
    assert a[..0] == b[..0];
    FirstDifferenceDecides(a, b, 0);
    assert a + "|" + b == "handler:admin|route:requireAuth";
    JoinsToTwo(guards, a, b);
  }

  method CheckContract(entry: Entry) returns (ok: bool)
    ensures ok <==> HonoursContract(entry)
  {
    var guards := Joined(Sorted(entry.guards));
    match entry.classification
    case ServiceAuthenticated =>
      ok := entry.verb == "POST" && |ServiceGuards(entry.guards)| == 1;
    case AuthenticatedUserAgent =>
      JoinsToOne(entry.guards, "route:requireAuth");
      ok := guards == "route:requireAuth";
    case OwnerMember =>
      OwnerGuards(entry.guards);
      ok := guards == "handler:resource-authority|route:requireAuth";
    case AdminOperator =>
      AdminGuards(entry.guards);
      ok := guards == "handler:admin|route:requireAuth";
    case DevOnly =>
      JoinsToOne(entry.guards, "server:dev-mount-condition");
      ok := guards == "server:dev-mount-condition" && "/dev/" <= entry.path;
    case PublicExact =>
      ok := !exists i :: 0 <= i < |entry.guards| && (IsRouteGuard(entry.guards[i]) || IsServiceGuard(entry.guards[i]));
  }

  lemma ManifestGrows(manifest: seq<Entry>, n: nat)
    requires n < |manifest|
    ensures GoodManifest(manifest, n + 1) <==>
              GoodManifest(manifest, n) && GoodEntry(manifest[n]) && EntryKey(manifest[n]) !in ByKey(manifest, n)
  {
    ByKeyHolds(manifest, n, EntryKey(manifest[n]));
  }

  method CheckManifest(manifest: seq<Entry>) returns (manifestByKey: map<string, Entry>, failures: seq<Failure>)
    ensures manifestByKey == ByKey(manifest, |manifest|)
    ensures failures == [] <==> GoodManifest(manifest, |manifest|)
  {
    manifestByKey, failures := map[], [];
    for n := 0 to |manifest|
      invariant manifestByKey == ByKey(manifest, n)
      invariant failures == [] <==> GoodManifest(manifest, n)
    {
      var entry := manifest[n];
      var routeKey := EntryKey(entry);
      ManifestGrows(manifest, n);
      if routeKey in manifestByKey {
        failures := failures + [DuplicateManifestRoute(routeKey)];
      }
      manifestByKey := manifestByKey[routeKey := entry];
      var found := CheckEntry(entry);
      failures := failures + found;
    }
  }

  // ---------------------------------------------------------------------------
  // The route loop
  // ---------------------------------------------------------------------------

  /** The checks of one route that need no other route. */
  method CheckRoute(route: Captured, expected: Entry, requireAuth: Value) returns (failures: seq<Failure>, isService: bool)
    ensures failures == [] <==> GoodRoute(route, expected, requireAuth)
    ensures isService <==>
              && expected.classification == ServiceAuthenticated
              && route.preHandlers == [] && route.hasExactServiceMarker && route.serviceGuard.Function?
    ensures var key := RouteKey(route);
            && (Lookalike(key) in failures <==> route.hasLookalikeServiceMarker)
            && (GuardDrift(key) in failures <==> !GoodRoute(route.(hasLookalikeServiceMarker := false), expected, requireAuth))
            && forall f :: f in failures ==> f in {Lookalike(key), GuardDrift(key)}
  {
    var routeKey := RouteKey(route);
    failures, isService := [], false;
    if route.hasLookalikeServiceMarker {
      failures := failures + [Lookalike(routeKey)];
    }
    var requiresRouteAuth := RequiresAuth(expected.classification);
    var hasExactRouteAuth := |route.preHandlers| == 1 && route.preHandlers[0] == requireAuth;
    assert hasExactRouteAuth <==> route.preHandlers == [requireAuth];
    if requiresRouteAuth != hasExactRouteAuth {
      failures := failures + [GuardDrift(routeKey)];
    }
    if expected.classification == ServiceAuthenticated {
      if |route.preHandlers| != 0 || !route.hasExactServiceMarker || !route.serviceGuard.Function? {
        failures := failures + [GuardDrift(routeKey)];
      } else {
        isService := true;
      }
    } else if route.hasExactServiceMarker || route.serviceGuard != Null || (!requiresRouteAuth && |route.preHandlers| != 0) {
      failures := failures + [GuardDrift(routeKey)];
    }
  }

  predicate Fits(m: map<string, Entry>, route: Captured, requireAuth: Value) {
    RouteKey(route) in m && GoodRoute(route, m[RouteKey(route)], requireAuth)
  }

  predicate ServiceRoute(m: map<string, Entry>, route: Captured) {
    RouteKey(route) in m && m[RouteKey(route)].classification == ServiceAuthenticated
  }

  function IdentifierOf(m: map<string, Entry>, route: Captured): Option<string>
    requires RouteKey(route) in m
  {
    Identifier(m[RouteKey(route)].guards)
  }

  /** Two service routes agree on the identifier exactly when they agree on the guard. */
  predicate Agree(m: map<string, Entry>, a: Captured, b: Captured) {
    ServiceRoute(m, a) && ServiceRoute(m, b) ==> (IdentifierOf(m, a) == IdentifierOf(m, b) <==> a.serviceGuard == b.serviceGuard)
  }

  ghost predicate AllFit(m: map<string, Entry>, captured: seq<Captured>, requireAuth: Value, n: nat)
    requires n <= |captured|
  {
    forall i :: 0 <= i < n ==> Fits(m, captured[i], requireAuth)
  }

  ghost predicate AllAgree(m: map<string, Entry>, captured: seq<Captured>, n: nat)
    requires n <= |captured|
  {
    forall i, j :: 0 <= i < n && 0 <= j < n ==> Agree(m, captured[i], captured[j])
  }

  /** The routes before `n` pass against the manifest map. */
  ghost predicate GoodRoutes(m: map<string, Entry>, captured: seq<Captured>, requireAuth: Value, n: nat)
    requires n <= |captured|
  {
    DistinctRoutes(captured, n) && AllFit(m, captured, requireAuth, n) && AllAgree(m, captured, n)
  }

  /** The two binding maps hold the service routes before `n`, each under its identifier and under its guard, and no more. */
  ghost predicate Bound(m: map<string, Entry>, captured: seq<Captured>, n: nat, byIdentifier: map<Option<string>, Value>,
                        byGuard: map<Value, Option<string>>)
    requires n <= |captured|
  {
    && AllBound(m, captured, n, byIdentifier, byGuard)
    && (forall x :: x in byIdentifier ==> UsesIdentifier(m, captured, n, x))
    && (forall g :: g in byGuard ==> UsesGuard(m, captured, n, g))
  }

  ghost predicate AllBound(m: map<string, Entry>, captured: seq<Captured>, n: nat, byIdentifier: map<Option<string>, Value>,
                           byGuard: map<Value, Option<string>>)
    requires n <= |captured|
  {
    forall i :: 0 <= i < n && ServiceRoute(m, captured[i]) ==> BoundTo(m, captured[i], byIdentifier, byGuard)
  }

  ghost predicate UsesIdentifier(m: map<string, Entry>, captured: seq<Captured>, n: nat, x: Option<string>)
    requires n <= |captured|
  {
    exists i :: 0 <= i < n && ServiceRoute(m, captured[i]) && IdentifierOf(m, captured[i]) == x
  }

  ghost predicate UsesGuard(m: map<string, Entry>, captured: seq<Captured>, n: nat, g: Value)
    requires n <= |captured|
  {
    exists i :: 0 <= i < n && ServiceRoute(m, captured[i]) && captured[i].serviceGuard == g
  }

  predicate BoundTo(m: map<string, Entry>, route: Captured, byIdentifier: map<Option<string>, Value>, byGuard: map<Value, Option<string>>)
    requires RouteKey(route) in m
  {
    var x := IdentifierOf(m, route);
    x in byIdentifier && byIdentifier[x] == route.serviceGuard && route.serviceGuard in byGuard && byGuard[route.serviceGuard] == x
  }

  /** Whether one more route agrees with the bindings so far; a guard bound to no identifier counts as unbound. */
  predicate Consistent(x: Option<string>, guard: Value, byIdentifier: map<Option<string>, Value>, byGuard: map<Value, Option<string>>) {
    (x in byIdentifier ==> byIdentifier[x] == guard) && (guard in byGuard && byGuard[guard].Some? ==> byGuard[guard] == x)
  }

  /** Every service entry names a service guard, as the contract of its class demands. */
  ghost predicate Named(m: map<string, Entry>) {
    forall key :: key in m && m[key].classification == ServiceAuthenticated ==> Identifier(m[key].guards).Some?
  }

  lemma ConsistentIffAgrees(m: map<string, Entry>, captured: seq<Captured>, n: nat, byIdentifier: map<Option<string>, Value>,
                            byGuard: map<Value, Option<string>>)
    requires n < |captured| && Bound(m, captured, n, byIdentifier, byGuard) && ServiceRoute(m, captured[n]) && Named(m)
    ensures Consistent(IdentifierOf(m, captured[n]), captured[n].serviceGuard, byIdentifier, byGuard) <==>
              forall i :: 0 <= i < n ==> Agree(m, captured[i], captured[n])
  {
    var x, g := IdentifierOf(m, captured[n]), captured[n].serviceGuard;
    if forall i :: 0 <= i < n ==> Agree(m, captured[i], captured[n]) {
      if x in byIdentifier {
        var i :| 0 <= i < n && ServiceRoute(m, captured[i]) && IdentifierOf(m, captured[i]) == x;
        assert BoundTo(m, captured[i], byIdentifier, byGuard);
      }
      if g in byGuard {
        var i :| 0 <= i < n && ServiceRoute(m, captured[i]) && captured[i].serviceGuard == g;
        assert BoundTo(m, captured[i], byIdentifier, byGuard);
      }
    }
    if Consistent(x, g, byIdentifier, byGuard) {
      forall i | 0 <= i < n
        ensures Agree(m, captured[i], captured[n])
      {
        if ServiceRoute(m, captured[i]) {
          assert BoundTo(m, captured[i], byIdentifier, byGuard);
        }
      }
    }
  }

  lemma BoundToStays(m: map<string, Entry>, route: Captured, x: Option<string>, g: Value, byIdentifier: map<Option<string>, Value>,
                     byGuard: map<Value, Option<string>>)
    requires RouteKey(route) in m && BoundTo(m, route, byIdentifier, byGuard) && Consistent(x, g, byIdentifier, byGuard)
    requires IdentifierOf(m, route).Some?
    ensures BoundTo(m, route, byIdentifier[x := g], byGuard[g := x])
  {
  }

  lemma UsesGrow(m: map<string, Entry>, captured: seq<Captured>, n: nat, x: Option<string>, g: Value)
    requires n < |captured|
    ensures UsesIdentifier(m, captured, n, x) ==> UsesIdentifier(m, captured, n + 1, x)
    ensures UsesGuard(m, captured, n, g) ==> UsesGuard(m, captured, n + 1, g)
    ensures ServiceRoute(m, captured[n]) && IdentifierOf(m, captured[n]) == x ==> UsesIdentifier(m, captured, n + 1, x)
    ensures ServiceRoute(m, captured[n]) && captured[n].serviceGuard == g ==> UsesGuard(m, captured, n + 1, g)
  {
  }

  lemma AllBoundGrows(m: map<string, Entry>, captured: seq<Captured>, n: nat, byIdentifier: map<Option<string>, Value>,
                      byGuard: map<Value, Option<string>>, x: Option<string>, g: Value)
    requires n < |captured| && AllBound(m, captured, n, byIdentifier, byGuard) && ServiceRoute(m, captured[n]) && Named(m)
    requires x == IdentifierOf(m, captured[n]) && g == captured[n].serviceGuard && Consistent(x, g, byIdentifier, byGuard)
    ensures AllBound(m, captured, n + 1, byIdentifier[x := g], byGuard[g := x])
  {
    forall i | 0 <= i < n + 1 && ServiceRoute(m, captured[i])
      ensures BoundTo(m, captured[i], byIdentifier[x := g], byGuard[g := x])
    {
      if i < n {
        BoundToStays(m, captured[i], x, g, byIdentifier, byGuard);
      }
    }
  }

  lemma BoundGrows(m: map<string, Entry>, captured: seq<Captured>, n: nat, byIdentifier: map<Option<string>, Value>,
                   byGuard: map<Value, Option<string>>, x: Option<string>, g: Value)
    requires n < |captured| && Bound(m, captured, n, byIdentifier, byGuard) && ServiceRoute(m, captured[n]) && Named(m)
    requires x == IdentifierOf(m, captured[n]) && g == captured[n].serviceGuard && Consistent(x, g, byIdentifier, byGuard)
    ensures Bound(m, captured, n + 1, byIdentifier[x := g], byGuard[g := x])
  {
    AllBoundGrows(m, captured, n, byIdentifier, byGuard, x, g);
    var identifiers, guards := byIdentifier[x := g], byGuard[g := x];
    forall y | y in identifiers
      ensures UsesIdentifier(m, captured, n + 1, y)
    {
      UsesGrow(m, captured, n, y, g);
    }
    forall h | h in guards
      ensures UsesGuard(m, captured, n + 1, h)
    {
      UsesGrow(m, captured, n, x, h);
    }
  }

  lemma BoundStays(m: map<string, Entry>, captured: seq<Captured>, n: nat, byIdentifier: map<Option<string>, Value>,
                   byGuard: map<Value, Option<string>>)
    requires n < |captured| && Bound(m, captured, n, byIdentifier, byGuard) && !ServiceRoute(m, captured[n])
    ensures Bound(m, captured, n + 1, byIdentifier, byGuard)
  {
    forall y | y in byIdentifier
      ensures UsesIdentifier(m, captured, n + 1, y)
    {
      UsesGrow(m, captured, n, y, Null);
    }
    forall h | h in byGuard
      ensures UsesGuard(m, captured, n + 1, h)
    {
      UsesGrow(m, captured, n, None, h);
    }
  }

  ghost function Keys(captured: seq<Captured>, n: nat): set<string>
    requires n <= |captured|
  {
    set i | 0 <= i < n :: RouteKey(captured[i])
  }

  lemma RoutesGrow(m: map<string, Entry>, captured: seq<Captured>, requireAuth: Value, n: nat)
    requires n < |captured|
    ensures GoodRoutes(m, captured, requireAuth, n + 1) <==>
              && GoodRoutes(m, captured, requireAuth, n)
              && RouteKey(captured[n]) !in Keys(captured, n)
              && Fits(m, captured[n], requireAuth)
              && forall i :: 0 <= i < n ==> Agree(m, captured[i], captured[n])
  {
    assert GoodRoutes(m, captured, requireAuth, n + 1) ==> forall i :: 0 <= i < n ==> Agree(m, captured[i], captured[n]);
    assert forall i, j :: Agree(m, i, j) <==> Agree(m, j, i);
  }

  /** Binds a service route's identifier and guard to each other, or reports what they are bound to. */
  method Bind(x: Option<string>, guard: Value, routeKey: string, byIdentifier: map<Option<string>, Value>,
              byGuard: map<Value, Option<string>>)
    returns (byIdentifier': map<Option<string>, Value>, byGuard': map<Value, Option<string>>, failures: seq<Failure>)
    ensures failures == [] <==> Consistent(x, guard, byIdentifier, byGuard)
    ensures failures == [] ==> byIdentifier' == byIdentifier[x := guard] && byGuard' == byGuard[guard := x]
  {
    byIdentifier', byGuard', failures := byIdentifier, byGuard, [];
    if x in byIdentifier && byIdentifier[x] != guard {
      failures := failures + [EquivalenceDrift(routeKey)];
    } else {
      byIdentifier' := byIdentifier[x := guard];
    }
    if guard in byGuard && byGuard[guard].Some? && byGuard[guard] != x {
      failures := failures + [IdentityReused(routeKey)];
    } else {
      byGuard' := byGuard[guard := x];
    }
  }

  /** What one route must satisfy given the bindings so far. */
  predicate Admits(m: map<string, Entry>, route: Captured, requireAuth: Value, byIdentifier: map<Option<string>, Value>,
                   byGuard: map<Value, Option<string>>)
  {
    && Fits(m, route, requireAuth)
    && (ServiceRoute(m, route) ==> Consistent(IdentifierOf(m, route), route.serviceGuard, byIdentifier, byGuard))
  }

  function BindIdentifier(m: map<string, Entry>, route: Captured, byIdentifier: map<Option<string>, Value>): map<Option<string>, Value> {
    if ServiceRoute(m, route) then byIdentifier[IdentifierOf(m, route) := route.serviceGuard] else byIdentifier
  }

  function BindGuard(m: map<string, Entry>, route: Captured, byGuard: map<Value, Option<string>>): map<Value, Option<string>> {
    if ServiceRoute(m, route) then byGuard[route.serviceGuard := IdentifierOf(m, route)] else byGuard
  }

  /** One classified route against the manifest map and the bindings so far. */
  method CheckCaptured(manifestByKey: map<string, Entry>, route: Captured, requireAuth: Value, byIdentifier: map<Option<string>, Value>,
                       byGuard: map<Value, Option<string>>)
    returns (byIdentifier': map<Option<string>, Value>, byGuard': map<Value, Option<string>>, failures: seq<Failure>)
    requires RouteKey(route) in manifestByKey
    ensures failures == [] <==> Admits(manifestByKey, route, requireAuth, byIdentifier, byGuard)
    ensures failures == [] ==>
              && byIdentifier' == BindIdentifier(manifestByKey, route, byIdentifier)
              && byGuard' == BindGuard(manifestByKey, route, byGuard)
  {
    var expected := manifestByKey[RouteKey(route)];
    byIdentifier', byGuard' := byIdentifier, byGuard;
    var isService;
    failures, isService := CheckRoute(route, expected, requireAuth);
    if isService {
      var drift;
      byIdentifier', byGuard', drift := Bind(Identifier(expected.guards), route.serviceGuard, RouteKey(route), byIdentifier, byGuard);
      failures := failures + drift;
    }
  }

  lemma RouteAdmitted(m: map<string, Entry>, captured: seq<Captured>, requireAuth: Value, n: nat, byIdentifier: map<Option<string>, Value>,
                      byGuard: map<Value, Option<string>>)
    requires n < |captured| && RouteKey(captured[n]) in m && RouteKey(captured[n]) !in Keys(captured, n) && Named(m)
    requires GoodRoutes(m, captured, requireAuth, n) ==> Bound(m, captured, n, byIdentifier, byGuard)
    ensures GoodRoutes(m, captured, requireAuth, n + 1) <==>
              GoodRoutes(m, captured, requireAuth, n) && Admits(m, captured[n], requireAuth, byIdentifier, byGuard)
    ensures GoodRoutes(m, captured, requireAuth, n + 1) ==>
              Bound(m, captured, n + 1, BindIdentifier(m, captured[n], byIdentifier), BindGuard(m, captured[n], byGuard))
  {
    RoutesGrow(m, captured, requireAuth, n);
    if GoodRoutes(m, captured, requireAuth, n) {
      if ServiceRoute(m, captured[n]) {
        ConsistentIffAgrees(m, captured, n, byIdentifier, byGuard);
        if Admits(m, captured[n], requireAuth, byIdentifier, byGuard) {
          BoundGrows(m, captured, n, byIdentifier, byGuard, IdentifierOf(m, captured[n]), captured[n].serviceGuard);
        }
      } else {
        BoundStays(m, captured, n, byIdentifier, byGuard);
      }
    }
  }

  lemma RouteRejected(m: map<string, Entry>, captured: seq<Captured>, requireAuth: Value, n: nat)
    requires n < |captured|
    requires RouteKey(captured[n]) in Keys(captured, n) || RouteKey(captured[n]) !in m
    ensures !GoodRoutes(m, captured, requireAuth, n + 1)
  {
    RoutesGrow(m, captured, requireAuth, n);
  }

  lemma KeysGrow(captured: seq<Captured>, n: nat)
    requires n < |captured|
    ensures Keys(captured, n + 1) == Keys(captured, n) + {RouteKey(captured[n])}
  {
  }

  method CheckRoutes(manifestByKey: map<string, Entry>, captured: seq<Captured>, requireAuth: Value)
    returns (capturedKeys: set<string>, failures: seq<Failure>)
    ensures capturedKeys == Keys(captured, |captured|)
    ensures Named(manifestByKey) ==> (failures == [] <==> GoodRoutes(manifestByKey, captured, requireAuth, |captured|))
  {
    capturedKeys, failures := {}, [];
    var serviceGuardByIdentifier: map<Option<string>, Value> := map[];
    var identifierByServiceGuard: map<Value, Option<string>> := map[];
    for n := 0 to |captured|
      invariant capturedKeys == Keys(captured, n)
      invariant Named(manifestByKey) ==> (failures == [] <==> GoodRoutes(manifestByKey, captured, requireAuth, n))
      invariant Named(manifestByKey) && failures == [] ==> Bound(manifestByKey, captured, n, serviceGuardByIdentifier, identifierByServiceGuard)
    {
      var route := captured[n];
      var routeKey := RouteKey(route);
      KeysGrow(captured, n);
      if routeKey in capturedKeys {
        RouteRejected(manifestByKey, captured, requireAuth, n);
        failures := failures + [DuplicateRoute(routeKey)];
        continue;
      }
      capturedKeys := capturedKeys + {routeKey};
      if routeKey !in manifestByKey {
        RouteRejected(manifestByKey, captured, requireAuth, n);
        failures := failures + [Unclassified(routeKey)];
        continue;
      }
      if Named(manifestByKey) {
        RouteAdmitted(manifestByKey, captured, requireAuth, n, serviceGuardByIdentifier, identifierByServiceGuard);
      }
      var found;
      serviceGuardByIdentifier, identifierByServiceGuard, found :=
        CheckCaptured(manifestByKey, route, requireAuth, serviceGuardByIdentifier, identifierByServiceGuard);
      failures := failures + found;
    }
  }

  // ---------------------------------------------------------------------------
  // The whole verifier
  // ---------------------------------------------------------------------------

  lemma {:induction false} ByKeyFinds(manifest: seq<Entry>, n: nat, i: nat)
    requires i < n <= |manifest| && GoodManifest(manifest, n)
    ensures EntryKey(manifest[i]) in ByKey(manifest, n) && ByKey(manifest, n)[EntryKey(manifest[i])] == manifest[i]
  {
    if i < n - 1 {
      ByKeyFinds(manifest, n - 1, i);
    }
  }

  /** In a good manifest the map finds the one entry that stands for a route. */
  lemma MatchIsLookup(manifest: seq<Entry>, entry: Entry, route: Captured)
    requires GoodManifest(manifest, |manifest|)
    ensures var m := ByKey(manifest, |manifest|);
            entry in manifest && Matches(entry, route) <==> RouteKey(route) in m && m[RouteKey(route)] == entry
  {
    ByKeyHolds(manifest, |manifest|, RouteKey(route));
    if entry in manifest && Matches(entry, route) {
      var i :| 0 <= i < |manifest| && manifest[i] == entry;
      ByKeyFinds(manifest, |manifest|, i);
    }
  }

  lemma ClassifiedIsFits(manifest: seq<Entry>, route: Captured, requireAuth: Value)
    requires GoodManifest(manifest, |manifest|)
    ensures Classified(manifest, route, requireAuth) <==> Fits(ByKey(manifest, |manifest|), route, requireAuth)
  {
    var m := ByKey(manifest, |manifest|);
    if Classified(manifest, route, requireAuth) {
      var entry :| entry in manifest && Matches(entry, route) && GoodRoute(route, entry, requireAuth);
      MatchIsLookup(manifest, entry, route);
    }
    if Fits(m, route, requireAuth) {
      MatchIsLookup(manifest, m[RouteKey(route)], route);
    }
  }

  lemma AllClassifiedIsAllFit(manifest: seq<Entry>, captured: seq<Captured>, requireAuth: Value)
    requires GoodManifest(manifest, |manifest|)
    ensures AllClassified(manifest, captured, requireAuth) <==> AllFit(ByKey(manifest, |manifest|), captured, requireAuth, |captured|)
  {
    forall i | 0 <= i < |captured|
      ensures Classified(manifest, captured[i], requireAuth) <==> Fits(ByKey(manifest, |manifest|), captured[i], requireAuth)
    {
      ClassifiedIsFits(manifest, captured[i], requireAuth);
    }
  }

  lemma ServiceIsLookup(manifest: seq<Entry>, route: Captured, x: Option<string>)
    requires GoodManifest(manifest, |manifest|)
    ensures var m := ByKey(manifest, |manifest|);
            IsService(manifest, route, x) <==> ServiceRoute(m, route) && IdentifierOf(m, route) == x
  {
    var m := ByKey(manifest, |manifest|);
    if IsService(manifest, route, x) {
      var entry :| entry in manifest && Matches(entry, route) && entry.classification == ServiceAuthenticated && x == Identifier(entry.guards);
      MatchIsLookup(manifest, entry, route);
    }
    if ServiceRoute(m, route) {
      MatchIsLookup(manifest, m[RouteKey(route)], route);
    }
  }

  lemma PairIsAgreement(manifest: seq<Entry>, a: Captured, b: Captured)
    requires GoodManifest(manifest, |manifest|)
    ensures PairOneToOne(manifest, a, b) <==> Agree(ByKey(manifest, |manifest|), a, b)
  {
    var m := ByKey(manifest, |manifest|);
    if PairOneToOne(manifest, a, b) && ServiceRoute(m, a) && ServiceRoute(m, b) {
      ServiceIsLookup(manifest, a, IdentifierOf(m, a));
      ServiceIsLookup(manifest, b, IdentifierOf(m, b));
    }
    if Agree(m, a, b) {
      forall x, y | IsService(manifest, a, x) && IsService(manifest, b, y)
        ensures x == y <==> a.serviceGuard == b.serviceGuard
      {
        ServiceIsLookup(manifest, a, x);
        ServiceIsLookup(manifest, b, y);
      }
    }
  }

  lemma OneToOneIsAgreement(manifest: seq<Entry>, captured: seq<Captured>)
    requires GoodManifest(manifest, |manifest|)
    ensures OneToOne(manifest, captured) <==> AllAgree(ByKey(manifest, |manifest|), captured, |captured|)
  {
    forall i, j | 0 <= i < |captured| && 0 <= j < |captured|
      ensures PairOneToOne(manifest, captured[i], captured[j]) <==> Agree(ByKey(manifest, |manifest|), captured[i], captured[j])
    {
      PairIsAgreement(manifest, captured[i], captured[j]);
    }
  }

  lemma CoverageIsInclusion(manifest: seq<Entry>, captured: seq<Captured>)
    ensures ByKey(manifest, |manifest|).Keys <= Keys(captured, |captured|) <==> AllEffective(manifest, captured)
  {
    var m, keys := ByKey(manifest, |manifest|), Keys(captured, |captured|);
    if m.Keys <= keys {
      forall i | 0 <= i < |manifest|
        ensures exists j :: 0 <= j < |captured| && Matches(manifest[i], captured[j])
      {
        ByKeyHolds(manifest, |manifest|, EntryKey(manifest[i]));
        assert EntryKey(manifest[i]) in keys;
        var j :| 0 <= j < |captured| && RouteKey(captured[j]) == EntryKey(manifest[i]);
        assert Matches(manifest[i], captured[j]);
      }
    }
    if AllEffective(manifest, captured) {
      forall key | key in m.Keys
        ensures key in keys
      {
        ByKeyHolds(manifest, |manifest|, key);
        var i :| 0 <= i < |manifest| && EntryKey(manifest[i]) == key;
        var j :| 0 <= j < |captured| && Matches(manifest[i], captured[j]);
      }
    }
  }

  lemma {:induction false} ServiceGuardIsFound(guards: seq<string>)
    requires |ServiceGuards(guards)| > 0
    ensures Identifier(guards).Some?
  {
    if !IsServiceGuard(guards[0]) {
      ServiceGuardIsFound(guards[1..]);
    }
  }

  lemma GoodManifestIsNamed(manifest: seq<Entry>)
    requires GoodManifest(manifest, |manifest|)
    ensures Named(ByKey(manifest, |manifest|))
  {
    var m := ByKey(manifest, |manifest|);
    forall key | key in m && m[key].classification == ServiceAuthenticated
      ensures Identifier(m[key].guards).Some?
    {
      ByKeyHolds(manifest, |manifest|, key);
      var i :| 0 <= i < |manifest| && manifest[i] == m[key];
      assert GoodEntry(manifest[i]);
      ServiceGuardIsFound(m[key].guards);
    }
  }

  /** What the loops establish with their maps is the declarative statement. */
  lemma LoopsDecideSound(captured: seq<Captured>, requireAuth: Value, manifest: seq<Entry>)
    ensures var m := ByKey(manifest, |manifest|);
            Sound(captured, requireAuth, manifest) <==>
              && GoodManifest(manifest, |manifest|)
              && GoodRoutes(m, captured, requireAuth, |captured|)
              && m.Keys <= Keys(captured, |captured|)
  {
    if GoodManifest(manifest, |manifest|) {
      AllClassifiedIsAllFit(manifest, captured, requireAuth);
      OneToOneIsAgreement(manifest, captured);
      CoverageIsInclusion(manifest, captured);
    }
  }

  method CheckCoverage(manifestByKey: map<string, Entry>, capturedKeys: set<string>) returns (failures: seq<Failure>)
    ensures failures == [] <==> manifestByKey.Keys <= capturedKeys
  {
    failures := [];
    var pending := manifestByKey.Keys;
    while pending != {}
      invariant pending <= manifestByKey.Keys
      invariant failures == [] <==> manifestByKey.Keys - pending <= capturedKeys
      decreases |pending|
    {
      var routeKey :| routeKey in pending;
      assert manifestByKey.Keys - (pending - {routeKey}) == (manifestByKey.Keys - pending) + {routeKey};
      pending := pending - {routeKey};
      if routeKey !in capturedKeys {
        failures := failures + [NotEffective(routeKey)];
      }
    }
  }

  /** A pass is equivalent to the declarative statement. */
  method VerifyRouteAuthInventory(captured: seq<Captured>, requireAuth: Value, manifest: seq<Entry>) returns (failures: seq<Failure>)
    ensures failures == [] <==> Sound(captured, requireAuth, manifest)
  {
    var manifestByKey, manifestFailures := CheckManifest(manifest);
    var capturedKeys, routeFailures := CheckRoutes(manifestByKey, captured, requireAuth);
    var coverageFailures := CheckCoverage(manifestByKey, capturedKeys);
    failures := manifestFailures + routeFailures + coverageFailures;
    if GoodManifest(manifest, |manifest|) {
      GoodManifestIsNamed(manifest);
    }
    LoopsDecideSound(captured, requireAuth, manifest);
  }

  /** The key of a good entry gives back its method and its path. */
  lemma KeyNamesTheRoute(entry: Entry, route: Captured)
    requires GoodEntry(entry) && ' ' !in route.verb
    ensures Matches(entry, route) <==> entry.verb == Upper(route.verb) && entry.path == route.path
  {
    assert forall i :: 0 <= i < |entry.verb| ==> !('a' <= entry.verb[i] <= 'z') && entry.verb[i] != ' ';
    assert Upper(entry.verb) == entry.verb;
    assert forall i :: 0 <= i < |route.verb| ==> route.verb[i] in route.verb && Upper(route.verb)[i] != ' ';
    assert RouteKey(route) == Upper(route.verb) + [' '] + route.path && EntryKey(entry) == entry.verb + [' '] + entry.path;
    if Matches(entry, route) {
      CutAtFirst(entry.verb, entry.path, Upper(route.verb), route.path, ' ');
    }
  }

  /** After a pass, a route runs `requireAuth` alone exactly when its class demands a signed-in caller. */
  lemma AuthenticatedExactly(captured: seq<Captured>, requireAuth: Value, manifest: seq<Entry>, entry: Entry, route: Captured)
    requires Sound(captured, requireAuth, manifest)
    requires entry in manifest && route in captured && Matches(entry, route)
    ensures RequiresAuth(entry.classification) <==> route.preHandlers == [requireAuth]
    ensures !RequiresAuth(entry.classification) ==> route.preHandlers == []
    ensures entry.classification == ServiceAuthenticated <==> route.serviceGuard.Function?
  {
    var i :| 0 <= i < |captured| && captured[i] == route;
    ClassifiedIsFits(manifest, captured[i], requireAuth);
    MatchIsLookup(manifest, entry, route);
  }

  /** The guards an entry of each class may list. */
  ghost predicate ListsGuardsOfClass(entry: Entry) {
    match entry.classification
    case PublicExact =>
      forall guard :: guard in entry.guards ==> !("route:" <= guard) && !("root-service:" <= guard)
    case ServiceAuthenticated =>
      entry.verb == "POST" && exists i :: OnlyServiceGuardAt(entry.guards, i)
    case AuthenticatedUserAgent => entry.guards == ["route:requireAuth"]
    case OwnerMember => multiset(entry.guards) == multiset{"handler:resource-authority", "route:requireAuth"} ||
                        entry.guards == ["handler:resource-authority|route:requireAuth"]
    case AdminOperator => multiset(entry.guards) == multiset{"handler:admin", "route:requireAuth"} ||
                          entry.guards == ["handler:admin|route:requireAuth"]
    case DevOnly => entry.guards == ["server:dev-mount-condition"] && |entry.path| >= 5 && entry.path[..5] == "/dev/"
  }

  lemma {:induction false} NoServiceGuards(guards: seq<string>)
    ensures ServiceGuards(guards) == [] <==> forall i :: 0 <= i < |guards| ==> !("root-service:" <= guards[i])
  {
    if |guards| > 0 {
      NoServiceGuards(guards[1..]);
      assert forall i :: 1 <= i < |guards| ==> guards[i] == guards[1..][i - 1];
    }
  }

  /** Place `i` of the list names a service guard, and no other does. */
  ghost predicate OnlyServiceGuardAt(guards: seq<string>, i: int) {
    && 0 <= i < |guards| && "root-service:" <= guards[i]
    && forall j :: 0 <= j < |guards| && j != i ==> !("root-service:" <= guards[j])
  }

  lemma OnlyFirst(guards: seq<string>, i: int)
    requires |guards| > 0 && IsServiceGuard(guards[0])
    ensures OnlyServiceGuardAt(guards, i) <==> i == 0 && ServiceGuards(guards[1..]) == []
  {
    NoServiceGuards(guards[1..]);
    assert forall j :: 1 <= j < |guards| ==> guards[j] == guards[1..][j - 1];
  }

  lemma OnlyLater(guards: seq<string>, i: int)
    requires |guards| > 0 && !IsServiceGuard(guards[0])
    ensures OnlyServiceGuardAt(guards, i) <==> OnlyServiceGuardAt(guards[1..], i - 1)
  {
    assert forall j :: 1 <= j < |guards| ==> guards[j] == guards[1..][j - 1];
  }

  /** There is one service guard exactly when one place of the list has one and no other has. */
  lemma {:induction false} OneServiceGuard(guards: seq<string>)
    ensures |ServiceGuards(guards)| == 1 <==> exists i :: OnlyServiceGuardAt(guards, i)
  {
    if |guards| > 0 {
      if IsServiceGuard(guards[0]) {
        OnlyFirst(guards, 0);
        if i :| OnlyServiceGuardAt(guards, i) {
          OnlyFirst(guards, i);
        }
      } else {
        OneServiceGuard(guards[1..]);
        if i :| OnlyServiceGuardAt(guards, i) {
          OnlyLater(guards, i);
        }
        if i :| OnlyServiceGuardAt(guards[1..], i) {
          OnlyLater(guards, i + 1);
        }
      }
    }
  }

  lemma PairIsMultiset(guards: seq<string>, a: string, b: string)
    requires a != b
    ensures multiset(guards) == multiset{a, b} <==> guards == [a, b] || guards == [b, a]
  {
    assert multiset([a, b]) == multiset{a, b} && multiset([b, a]) == multiset{a, b};
    if multiset(guards) == multiset{a, b} {
      assert |guards| == |multiset(guards)| == 2;
      assert guards == [guards[0], guards[1]];
      assert multiset(guards) == multiset{guards[0], guards[1]};
      assert guards[0] in multiset{a, b} && guards[1] in multiset{a, b};
      assert a in multiset{guards[0], guards[1]} && b in multiset{guards[0], guards[1]};
    }
  }

  lemma PublicLists(guards: seq<string>)
    ensures (forall i :: 0 <= i < |guards| ==> !IsRouteGuard(guards[i]) && !IsServiceGuard(guards[i])) <==>
            forall guard :: guard in guards ==> !("route:" <= guard) && !("root-service:" <= guard)
  {
    if forall guard :: guard in guards ==> !("route:" <= guard) && !("root-service:" <= guard) {
      forall i | 0 <= i < |guards|
        ensures !IsRouteGuard(guards[i]) && !IsServiceGuard(guards[i])
      {
        assert guards[i] in guards;
      }
    }
  }

  lemma OwnerPair(guards: seq<string>)
    ensures IsPair(guards, "handler:resource-authority", "route:requireAuth") <==>
            multiset(guards) == multiset{"handler:resource-authority", "route:requireAuth"} ||
            guards == ["handler:resource-authority|route:requireAuth"]
  {
    PairIsMultiset(guards, "handler:resource-authority", "route:requireAuth");
    assert "handler:resource-authority" + "|" + "route:requireAuth" == "handler:resource-authority|route:requireAuth";
  }

  lemma AdminPair(guards: seq<string>)
    ensures IsPair(guards, "handler:admin", "route:requireAuth") <==>
            multiset(guards) == multiset{"handler:admin", "route:requireAuth"} || guards == ["handler:admin|route:requireAuth"]
  {
    PairIsMultiset(guards, "handler:admin", "route:requireAuth");
    assert "handler:admin" + "|" + "route:requireAuth" == "handler:admin|route:requireAuth";
  }

  /** The guard contract in the words of the classes. */
  lemma ContractIsOfClass(entry: Entry)
    ensures HonoursContract(entry) <==> ListsGuardsOfClass(entry)
  {
    match entry.classification
    case PublicExact => PublicLists(entry.guards);
    case ServiceAuthenticated => OneServiceGuard(entry.guards);
    case AuthenticatedUserAgent =>
    case OwnerMember => OwnerPair(entry.guards);
    case AdminOperator => AdminPair(entry.guards);
    case DevOnly =>
  }

  /** What a pass says of a route and its entry. */
  ghost predicate CarriesWhatItsClassSays(route: Captured, entry: Entry, requireAuth: Value) {
    && entry.verb in {"DELETE", "GET", "HEAD", "OPTIONS", "PATCH", "POST", "PUT"}
    && ('*' in entry.path || '?' in entry.path ==> EntryKey(entry) in {"OPTIONS *", "GET /media/*", "HEAD /media/*"})
    && ListsGuardsOfClass(entry)
    && !route.hasLookalikeServiceMarker
    && (route.hasExactServiceMarker <==> entry.classification == ServiceAuthenticated)
    && match entry.classification
       case AuthenticatedUserAgent => route.preHandlers == [requireAuth] && route.serviceGuard == Null
       case OwnerMember => route.preHandlers == [requireAuth] && route.serviceGuard == Null
       case AdminOperator => route.preHandlers == [requireAuth] && route.serviceGuard == Null
       case ServiceAuthenticated => route.preHandlers == [] && route.serviceGuard.Function?
       case PublicExact => route.preHandlers == [] && route.serviceGuard == Null
       case DevOnly => route.preHandlers == [] && route.serviceGuard == Null
  }

  lemma GoodIsOfClass(route: Captured, entry: Entry, requireAuth: Value)
    ensures GoodEntry(entry) && GoodRoute(route, entry, requireAuth) <==> CarriesWhatItsClassSays(route, entry, requireAuth)
  {
    ContractIsOfClass(entry);
  }

  /**
   * After a pass every route has one entry, of its own method and path, and carries just what that
   * entry's class says; a route behind no sign-in is public, a service's own or a development one.
   */
  lemma PassedRoutesCarryTheirClass(captured: seq<Captured>, requireAuth: Value, manifest: seq<Entry>, route: Captured)
    requires Sound(captured, requireAuth, manifest) && route in captured
    ensures exists entry :: entry in manifest && Matches(entry, route) && CarriesWhatItsClassSays(route, entry, requireAuth)
    ensures forall entry :: entry in manifest && Matches(entry, route) ==> CarriesWhatItsClassSays(route, entry, requireAuth)
  {
    var i :| 0 <= i < |captured| && captured[i] == route;
    assert Classified(manifest, captured[i], requireAuth);
    var own :| own in manifest && Matches(own, route) && GoodRoute(route, own, requireAuth);
    MatchIsLookup(manifest, own, route);
    var k :| 0 <= k < |manifest| && manifest[k] == own;
    GoodIsOfClass(route, own, requireAuth);
    forall entry | entry in manifest && Matches(entry, route)
      ensures entry == own
    {
      MatchIsLookup(manifest, entry, route);
    }
  }
}
