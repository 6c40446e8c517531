/**
 * The effective-dated registries of packages/core/src/metering.ts: provider prices and turn
 * ceilings are looked up by the same rule. A row's `payload` is the price or the ceiling; a row
 * of the ceiling table has no unit.
 */
module Metering {
  import opened Prelude
  import opened JsText

  datatype Row<+P> = Row(provider: string, model: string, unit: Option<string>, effectiveDate: string, payload: P)

  datatype Route = Route(provider: string, model: string, unit: Option<string>)

  /** A date asked for as text, or a `Date` by the day it prints; None is a `Date` with no time. */
  datatype AsOf = Text(value: string) | Instant(day: Option<string>)

  datatype Error = BadAsOf | BadDate(date: string) | Ambiguous(identity: string, date: string) | NoEntry

  // Dates

  predicate IsDigit(c: char) {
    '0' <= c <= '9'
  }

  function Digit(s: string, i: nat): nat
    requires i < |s| && IsDigit(s[i])
  {
    s[i] as int - '0' as int
  }

  /** The shape YYYY-MM-DD. */
  predicate HasDayShape(s: string) {
    && |s| == 10 && s[4] == '-' && s[7] == '-'
    && forall i :: 0 <= i < 10 && i != 4 && i != 7 ==> IsDigit(s[i])
  }

  function Year(s: string): nat
    requires HasDayShape(s)
  {
    1000 * Digit(s, 0) + 100 * Digit(s, 1) + 10 * Digit(s, 2) + Digit(s, 3)
  }

  function Month(s: string): nat
    requires HasDayShape(s)
  {
    10 * Digit(s, 5) + Digit(s, 6)
  }

  function DayOfMonth(s: string): nat
    requires HasDayShape(s)
  {
    10 * Digit(s, 8) + Digit(s, 9)
  }

  function DaysIn(year: nat, month: nat): nat {
    if month == 2 then
      if year % 4 == 0 && (year % 100 != 0 || year % 400 == 0) then 29 else 28
    else if month in {4, 6, 9, 11} then 30
    else 31
  }

  /** A real day of the Gregorian calendar. */
  predicate IsDay(s: string) {
    HasDayShape(s) && 1 <= Month(s) <= 12 && 1 <= DayOfMonth(s) <= DaysIn(Year(s), Month(s))
  }

  predicate Earlier(s: string, t: string)
    requires HasDayShape(s) && HasDayShape(t)
  {
    || Year(s) < Year(t)
    || (Year(s) == Year(t) && (Month(s) < Month(t) || (Month(s) == Month(t) && DayOfMonth(s) < DayOfMonth(t))))
  }

  /** On days, comparing the texts compares the dates. */
  lemma TextOrderIsCalendarOrder(s: string, t: string)
    requires HasDayShape(s) && HasDayShape(t)
    ensures Less(s, t) <==> Earlier(s, t)
  {
    if s == t {
      LessIsIrreflexive(s);
    } else {
      var k := FirstDifference(s, t);
      FirstDifferenceDecides(s, t, k);
      assert forall i :: 0 <= i < k ==> s[i] == s[..k][i] == t[..k][i] == t[i];
    }
  }

  // Rows

  /** The model id with white space and a leading `provider/` taken off. */
  function Normalize(provider: string, model: string): string {
    var trimmed := Trim(model);
    var prefix := provider + "/";
    if prefix <= trimmed then trimmed[|prefix|..] else trimmed
  }

  /** White space around an id and one leading `provider/` make no difference. */
  lemma PrefixIsIrrelevant(provider: string, model: string, before: string, after: string)
    requires provider != "" && !IsSpace(provider[0]) && IsBlank(before) && IsBlank(after)
    requires model != "" && !IsSpace(model[0]) && !IsSpace(model[|model| - 1]) && !(provider + "/" <= model)
    ensures Normalize(provider, before + (provider + "/" + model) + after) == model
    ensures Normalize(provider, before + model + after) == model
  {
    var prefixed := provider + "/" + model;
    assert prefixed[|prefixed| - 1] == model[|model| - 1];
    NormalizeTrimmed(provider, before, prefixed, after);
    NormalizeTrimmed(provider, before, model, after);
    assert prefixed[|provider + "/"|..] == model;
  }

  lemma NormalizeTrimmed(provider: string, before: string, id: string, after: string)
    requires IsBlank(before) && IsBlank(after) && id != "" && !IsSpace(id[0]) && !IsSpace(id[|id| - 1])
    ensures Normalize(provider, before + id + after) == if provider + "/" <= id then id[|provider + "/"|..] else id
  {
    TrimTakesBlanks(before, id, after);
  }

  function ModelKey(row: Row): string {
    if row.model == "*" then "*" else Normalize(row.provider, row.model)
  }

  function Cell(row: Row): string {
    match row.unit
    case None => ModelKey(row)
    case Some(unit) => ModelKey(row) + "/" + unit
  }

  function Identity(row: Row): string {
    row.provider + "/" + Cell(row)
  }

  function Version<P>(row: Row<P>, identity: Row<P> -> string): string {
    identity(row) + "\0" + row.effectiveDate
  }

  /** What the registry check demands of the first `n` rows. */
  ghost predicate UnambiguousUpTo<P>(table: seq<Row<P>>, identity: Row<P> -> string, n: nat)
    requires n <= |table|
  {
    && (forall i :: 0 <= i < n ==> IsDay(table[i].effectiveDate))
    && forall i, j :: 0 <= i < j < n ==> Version(table[i], identity) != Version(table[j], identity)
  }

  ghost predicate Unambiguous<P>(table: seq<Row<P>>, identity: Row<P> -> string) {
    UnambiguousUpTo(table, identity, |table|)
  }

  ghost function Versions<P>(table: seq<Row<P>>, identity: Row<P> -> string, n: nat): set<string>
    requires n <= |table|
  {
    set j | 0 <= j < n :: Version(table[j], identity)
  }

  lemma VersionsExtend<P>(table: seq<Row<P>>, identity: Row<P> -> string, n: nat)
    requires n < |table|
    ensures Versions(table, identity, n + 1) == Versions(table, identity, n) + {Version(table[n], identity)}
  {
  }

  lemma VersionSeen<P>(table: seq<Row<P>>, identity: Row<P> -> string, n: nat)
    requires n < |table|
    ensures Version(table[n], identity) in Versions(table, identity, n) <==> exists j :: 0 <= j < n && Version(table[j], identity) == Version(table[n], identity)
  {
  }

  lemma FreshRowFits<P>(table: seq<Row<P>>, identity: Row<P> -> string, n: nat)
    requires n < |table| && UnambiguousUpTo(table, identity, n)
    requires IsDay(table[n].effectiveDate) && Version(table[n], identity) !in Versions(table, identity, n)
    ensures UnambiguousUpTo(table, identity, n + 1)
  {
    VersionSeen(table, identity, n);
  }

  lemma BadRowFails<P>(table: seq<Row<P>>, identity: Row<P> -> string, n: nat)
    requires n < |table|
    requires !IsDay(table[n].effectiveDate) || Version(table[n], identity) in Versions(table, identity, n)
    ensures !UnambiguousUpTo(table, identity, n + 1)
  {
    VersionSeen(table, identity, n);
  }

  lemma AmbiguityPersists<P>(table: seq<Row<P>>, identity: Row<P> -> string, n: nat)
    requires n <= |table| && !UnambiguousUpTo(table, identity, n)
    ensures !Unambiguous(table, identity)
  {
  }

  /** The complaint about a row when the rows before it are fine. */
  function Complaint<P>(row: Row<P>, identity: Row<P> -> string): Error {
    if IsDay(row.effectiveDate) then Ambiguous(identity(row), row.effectiveDate) else BadDate(row.effectiveDate)
  }

  ghost predicate FailsFirstAt<P>(table: seq<Row<P>>, identity: Row<P> -> string, n: nat) {
    n < |table| && UnambiguousUpTo(table, identity, n) && !UnambiguousUpTo(table, identity, n + 1)
  }

  /** Some row before the `n`-th has its version. */
  ghost predicate ClaimedBefore<P>(table: seq<Row<P>>, identity: Row<P> -> string, n: nat)
    requires n < |table|
  {
    exists j :: 0 <= j < n && Version(table[j], identity) == Version(table[n], identity)
  }

  method AssertUnambiguousEffectiveRows<P>(table: seq<Row<P>>, identity: Row<P> -> string) returns (failure: Option<Error>)
    ensures failure.None? <==> Unambiguous(table, identity)
    ensures failure.Some? ==> exists n: nat :: FailsFirstAt(table, identity, n) && failure.value == Complaint(table[n], identity)
    ensures failure.Some? ==> exists n ::
              && 0 <= n < |table|
              && if !IsDay(table[n].effectiveDate) then failure.value == BadDate(table[n].effectiveDate)
                 else failure.value == Ambiguous(identity(table[n]), table[n].effectiveDate) && ClaimedBefore(table, identity, n)
  {
    var seen: set<string> := {};
    var n: nat := 0;
    while n < |table|
      invariant n <= |table| && seen == Versions(table, identity, n)
      invariant UnambiguousUpTo(table, identity, n)
    {
      var entry := table[n];
      var date := entry.effectiveDate;
      var version := Version(entry, identity);
      if !IsDay(date) || version in seen {
        BadRowFails(table, identity, n);
        AmbiguityPersists(table, identity, n + 1);
        assert FailsFirstAt(table, identity, n);
        VersionSeen(table, identity, n);
        return Some(if !IsDay(date) then BadDate(date) else Ambiguous(identity(entry), date));
      }
      FreshRowFits(table, identity, n);
      VersionsExtend(table, identity, n);
      seen := seen + {version};
      n := n + 1;
    }
    failure := None;
  }

  /** What the selectors demand of their table. */
  ghost predicate Accepted<P>(table: seq<Row<P>>) {
    Unambiguous(table, Identity)
  }

  /** Both rows speak of every model, or of the same one; a model may itself be called `*` behind its provider. */
  predicate SameModel<P, Q>(a: Row<P>, b: Row<Q>) {
    if a.model == "*" then b.model == "*" || Normalize(b.provider, b.model) == "*"
    else if b.model == "*" then Normalize(a.provider, a.model) == "*"
    else Normalize(a.provider, a.model) == Normalize(b.provider, b.model)
  }

  /** Two rows that claim the same cell of the registry. */
  predicate SameCell<P, Q>(a: Row<P>, b: Row<Q>) {
    a.provider == b.provider && SameModel(a, b) && a.unit == b.unit && a.effectiveDate == b.effectiveDate
  }

  /** Provider and unit names are closed sets of plain identifiers. */
  predicate PlainNames(row: Row) {
    '/' !in row.provider && (row.unit.Some? ==> '/' !in row.unit.value)
  }

  lemma CutAtSameLength(x: string, p: string, y: string, q: string, c: char)
    requires |p| == |q| && x + [c] + p == y + [c] + q
    ensures p == q && x == y
  {
    var s, t := x + [c] + p, y + [c] + q;
    assert |x| == |y|;
    assert x == s[..|x|] && y == t[..|x|];
    assert p == s[|x| + 1..] && q == t[|x| + 1..];
  }

  lemma IdentityNamesTheCell<P>(a: Row<P>, b: Row<P>)
    requires PlainNames(a) && PlainNames(b) && (a.unit.Some? <==> b.unit.Some?) && Identity(a) == Identity(b)
    ensures a.provider == b.provider && ModelKey(a) == ModelKey(b) && a.unit == b.unit
  {
    CutAtFirst(a.provider, Cell(a), b.provider, Cell(b), '/');
    if a.unit.Some? {
      CutAtLast(ModelKey(a), a.unit.value, ModelKey(b), b.unit.value, '/');
    }
  }

  /** The version text stands for the cell: the joined identity loses nothing. */
  lemma VersionNamesTheCell<P>(a: Row<P>, b: Row<P>)
    requires IsDay(a.effectiveDate) && IsDay(b.effectiveDate) && PlainNames(a) && PlainNames(b) && (a.unit.Some? <==> b.unit.Some?)
    ensures Version(a, Identity) == Version(b, Identity) <==> SameCell(a, b)
  {
    if Version(a, Identity) == Version(b, Identity) {
      CutAtSameLength(Identity(a), a.effectiveDate, Identity(b), b.effectiveDate, '\0');
      IdentityNamesTheCell(a, b);
    }
  }

  /** The registry check rejects exactly bad dates and doubly claimed cells. */
  lemma AmbiguityIsExact<P>(table: seq<Row<P>>)
    requires forall row :: row in table ==> PlainNames(row)
    requires forall row, other :: row in table && other in table ==> (row.unit.Some? <==> other.unit.Some?)
    ensures Accepted(table) <==>
              && (forall i :: 0 <= i < |table| ==> IsDay(table[i].effectiveDate))
              && forall i, j :: 0 <= i < j < |table| ==> !SameCell(table[i], table[j])
  {
    if forall i :: 0 <= i < |table| ==> IsDay(table[i].effectiveDate) {
      forall i, j | 0 <= i < j < |table|
        ensures Version(table[i], Identity) == Version(table[j], Identity) <==> SameCell(table[i], table[j])
      {
        assert table[i] in table && table[j] in table;
        VersionNamesTheCell(table[i], table[j]);
      }
    }
  }

  // Selection

  predicate Eligible(row: Row, day: string) {
    !Less(day, row.effectiveDate)
  }

  predicate IsExact(row: Row, route: Route) {
    && row.provider == route.provider && row.unit == route.unit && row.model != "*"
    && Normalize(row.provider, row.model) == Normalize(route.provider, route.model)
  }

  predicate IsWildcard(row: Row, route: Route) {
    row.provider == route.provider && row.unit == route.unit && row.model == "*"
  }

  function EffectiveDay(asOf: AsOf): Option<string> {
    match asOf
    case Text(value) => if IsDay(value) then Some(value) else None
    case Instant(day) => day
  }

  /** `entries[i]` is the first of the latest entries not after `day`. */
  predicate IsLatestEligible<P>(entries: seq<Row<P>>, day: string, i: nat) {
    && i < |entries| && Eligible(entries[i], day)
    && (forall j :: 0 <= j < |entries| && Eligible(entries[j], day) ==> !Less(entries[i].effectiveDate, entries[j].effectiveDate))
    && (forall j :: 0 <= j < i && Eligible(entries[j], day) ==> Less(entries[j].effectiveDate, entries[i].effectiveDate))
  }

  method LatestEligible<P>(entries: seq<Row<P>>, day: string) returns (selected: Option<Row<P>>)
    ensures selected.None? <==> forall i :: 0 <= i < |entries| ==> !Eligible(entries[i], day)
    ensures selected.Some? ==> exists i: nat :: IsLatestEligible(entries, day, i) && selected.value == entries[i]
  {
    selected := None;
    ghost var at := 0;
    for n := 0 to |entries|
      invariant selected.None? ==> forall i :: 0 <= i < n ==> !Eligible(entries[i], day)
      invariant selected.Some? ==> IsLatestEligible(entries[..n], day, at) && selected.value == entries[at]
    {
      assert entries[..n + 1] == entries[..n] + [entries[n]];
      if Less(day, entries[n].effectiveDate) {
        continue;
      }
      if selected.None? || Less(selected.value.effectiveDate, entries[n].effectiveDate) {
        forall j | 0 <= j < n && Eligible(entries[j], day)
          ensures Less(entries[j].effectiveDate, entries[n].effectiveDate)
          ensures !Less(entries[n].effectiveDate, entries[j].effectiveDate)
        {
          assert entries[..n][j] == entries[j];
          NotLaterThanLess(entries[j].effectiveDate, entries[at].effectiveDate, entries[n].effectiveDate);
        }
        LessIsIrreflexive(entries[n].effectiveDate);
        selected, at := Some(entries[n]), n;
      }
    }
    assert entries[..|entries|] == entries;
  }

  lemma NotLaterThanLess(a: string, b: string, c: string)
    requires !Less(b, a) && Less(b, c)
    ensures Less(a, c) && !Less(c, a)
  {
    LessIsTotal(a, b);
    if a != b {
      LessIsTransitive(a, b, c);
    }
    if Less(c, a) {
      LessIsTransitive(a, c, a);
      LessIsIrreflexive(a);
    }
  }

  function Where<P>(table: seq<Row<P>>, keep: Row<P> -> bool): (kept: seq<Row<P>>)
    ensures forall i :: 0 <= i < |kept| ==> kept[i] in table && keep(kept[i])
    ensures forall i :: 0 <= i < |table| && keep(table[i]) ==> table[i] in kept
  {
    if |table| == 0 then []
    else if keep(table[0]) then [table[0]] + Where(table[1..], keep)
    else Where(table[1..], keep)
  }

  /** `row` answers the route: an exact row, or a wildcard when no exact one is in force; and no rival of its kind is later. */
  ghost predicate Chosen<P>(table: seq<Row<P>>, route: Route, day: string, row: Row<P>) {
    && row in table && Eligible(row, day)
    && (IsExact(row, route) || (IsWildcard(row, route) && forall other :: other in table && Eligible(other, day) ==> !IsExact(other, route)))
    && forall other :: other in table && Eligible(other, day) && (IsExact(other, route) <==> IsExact(row, route)) &&
                       (IsWildcard(other, route) <==> IsWildcard(row, route)) ==>
         !Less(row.effectiveDate, other.effectiveDate)
  }

  ghost predicate Unpriced<P>(table: seq<Row<P>>, route: Route, day: string) {
    forall row :: row in table && Eligible(row, day) ==> !IsExact(row, route) && !IsWildcard(row, route)
  }

  /** What the selectors may answer. */
  ghost predicate Answers<P>(table: seq<Row<P>>, route: Route, asOf: AsOf, reply: Result<Row<P>, Error>) {
    match EffectiveDay(asOf)
    case None => reply == Err(BadAsOf)
    case Some(day) =>
      match reply
      case Ok(row) => Accepted(table) && Chosen(table, route, day, row)
      case Err(NoEntry) => Accepted(table) && Unpriced(table, route, day)
      case Err(error) => !Accepted(table) && exists n: nat :: FailsFirstAt(table, Identity, n) && error == Complaint(table[n], Identity)
  }

  predicate IsKind(row: Row, route: Route, exact: bool) {
    if exact then IsExact(row, route) else IsWildcard(row, route)
  }

  /** `kind` holds the eligible rows of one kind, in whatever order. */
  ghost predicate EligibleKind<P>(table: seq<Row<P>>, route: Route, day: string, exact: bool, kind: seq<Row<P>>) {
    && (forall row :: row in kind ==> row in table && Eligible(row, day) && IsKind(row, route, exact))
    && (forall row :: row in table && Eligible(row, day) && IsKind(row, route, exact) ==> row in kind)
  }

  /** The filters of the two selectors. */
  method FilterEligible<P>(table: seq<Row<P>>, route: Route, day: string, exact: bool) returns (kind: seq<Row<P>>)
    ensures EligibleKind(table, route, day, exact, kind)
  {
    kind := Where(table, (row: Row<P>) => IsKind(row, route, exact) && Eligible(row, day));
  }

  lemma NoneOfKind<P>(table: seq<Row<P>>, route: Route, day: string, exact: bool)
    requires EligibleKind(table, route, day, exact, [])
    ensures forall row :: row in table && Eligible(row, day) ==> !IsKind(row, route, exact)
  {
    forall row | row in table && Eligible(row, day)
      ensures !IsKind(row, route, exact)
    {
      assert IsKind(row, route, exact) ==> row in [];
    }
  }

  lemma LatestHasNoLaterRival<P>(table: seq<Row<P>>, route: Route, day: string, exact: bool, kind: seq<Row<P>>, i: nat, other: Row<P>)
    requires IsLatestEligible(kind, day, i) && EligibleKind(table, route, day, exact, kind)
    requires other in table && Eligible(other, day) && IsKind(other, route, exact)
    ensures !Less(kind[i].effectiveDate, other.effectiveDate)
  {
    assert other in kind;
    var j :| 0 <= j < |kind| && kind[j] == other;
  }

  /** The latest of the eligible exact rows, or of the wildcards when there is none, answers the route. */
  lemma LatestIsChosen<P>(table: seq<Row<P>>, route: Route, day: string, exact: bool, kind: seq<Row<P>>, i: nat)
    requires IsLatestEligible(kind, day, i) && EligibleKind(table, route, day, exact, kind)
    requires exact || EligibleKind(table, route, day, true, [])
    ensures Chosen(table, route, day, kind[i])
  {
    assert kind[i] in kind;
    forall other | other in table && Eligible(other, day) && IsKind(other, route, exact)
      ensures !Less(kind[i].effectiveDate, other.effectiveDate)
    {
      LatestHasNoLaterRival(table, route, day, exact, kind, i, other);
    }
    if !exact {
      NoneOfKind(table, route, day, true);
    }
  }

  lemma FirstOfKindIsEligible<P>(table: seq<Row<P>>, route: Route, day: string, exact: bool, kind: seq<Row<P>>)
    requires EligibleKind(table, route, day, exact, kind) && |kind| > 0
    ensures Eligible(kind[0], day)
  {
    assert kind[0] in kind;
  }

  method SelectInForce<P>(table: seq<Row<P>>, route: Route, day: string) returns (entry: Option<Row<P>>)
    ensures match entry case Some(row) => Chosen(table, route, day, row) case None => Unpriced(table, route, day)
  {
    var eligibleExact := FilterEligible(table, route, day, true);
    var eligibleWildcard := FilterEligible(table, route, day, false);
    var exact := |eligibleExact| > 0;
    assert exact || eligibleExact == [];
    var kind := if exact then eligibleExact else eligibleWildcard;
    if |kind| > 0 {
      FirstOfKindIsEligible(table, route, day, exact, kind);
    }
    entry := LatestEligible(kind, day);
    if entry.None? {
      assert kind == [];
      NoneOfKind(table, route, day, true);
      NoneOfKind(table, route, day, false);
    } else {
      ghost var i: nat :| IsLatestEligible(kind, day, i) && entry.value == kind[i];
      LatestIsChosen(table, route, day, exact, kind, i);
    }
  }

  method SelectEntry<P>(table: seq<Row<P>>, route: Route, asOf: AsOf) returns (reply: Result<Row<P>, Error>)
    ensures Answers(table, route, asOf, reply)
  {
    var effective := EffectiveDay(asOf);
    if effective.None? {
      return Err(BadAsOf);
    }
    var failure := AssertUnambiguousEffectiveRows(table, Identity);
    if failure.Some? {
      return Err(failure.value);
    }
    var entry := SelectInForce(table, route, effective.value);
    reply := if entry.Some? then Ok(entry.value) else Err(NoEntry);
  }

  // Theorems

  /** An accepted table has one row per version. */
  lemma SameVersionSameRow<P>(table: seq<Row<P>>, a: Row<P>, b: Row<P>)
    requires Accepted(table) && a in table && b in table
    requires Identity(a) == Identity(b) && a.effectiveDate == b.effectiveDate
    ensures a == b
  {
    var i :| 0 <= i < |table| && table[i] == a;
    var j :| 0 <= j < |table| && table[j] == b;
    assert i == j;
  }

  /** Of two rows that both answer, neither is later; an accepted table has one. */
  lemma ChosenIsUnique<P>(table: seq<Row<P>>, route: Route, day: string, row: Row<P>, other: Row<P>)
    requires Accepted(table) && Chosen(table, route, day, row) && Chosen(table, route, day, other)
    ensures row == other
  {
    LessIsTotal(row.effectiveDate, other.effectiveDate);
    assert row.effectiveDate == other.effectiveDate;
    SameVersionSameRow(table, row, other);
  }

  /** So the answer of an accepted table is one, and there always is one. */
  lemma AnswerIsUnique<P>(table: seq<Row<P>>, route: Route, asOf: AsOf, reply: Result<Row<P>, Error>, again: Result<Row<P>, Error>)
    requires Accepted(table)
    requires Answers(table, route, asOf, reply) && Answers(table, route, asOf, again)
    ensures reply == again
  {
    if reply.Ok? && again.Ok? {
      ChosenIsUnique(table, route, EffectiveDay(asOf).value, reply.value, again.value);
    }
  }

  lemma TwiceCounts<T>(s: seq<T>, i: nat, j: nat)
    requires i < j < |s| && s[i] == s[j]
    ensures multiset(s)[s[i]] >= 2
  {
    assert s == s[..j] + [s[j]] + s[j + 1..];
    assert s[..j][i] == s[i];
  }

  lemma {:induction false} CountsTwice<T>(s: seq<T>, x: T) returns (i: nat, j: nat)
    requires multiset(s)[x] >= 2
    ensures i < j < |s| && s[i] == x && s[j] == x
  {
    assert s == [s[0]] + s[1..];
    if s[0] == x {
      assert x in multiset(s[1..]);
      var k :| 0 <= k < |s[1..]| && s[1..][k] == x;
      i, j := 0, k + 1;
    } else {
      var k, l := CountsTwice(s[1..], x);
      i, j := k + 1, l + 1;
    }
  }

  lemma AcceptanceIsOrderFree<P>(table: seq<Row<P>>, shuffled: seq<Row<P>>)
    requires multiset(table) == multiset(shuffled) && Accepted(table)
    ensures Accepted(shuffled)
  {
    forall i | 0 <= i < |shuffled|
      ensures IsDay(shuffled[i].effectiveDate)
    {
      assert shuffled[i] in multiset(shuffled);
      assert shuffled[i] in table;
    }
    forall i, j | 0 <= i < j < |shuffled|
      ensures Version(shuffled[i], Identity) != Version(shuffled[j], Identity)
    {
      var a, b := shuffled[i], shuffled[j];
      assert a in multiset(shuffled) && b in multiset(shuffled);
      assert a in table && b in table;
      if a == b {
        TwiceCounts(shuffled, i, j);
        var k, l := CountsTwice(table, a);
      } else if Version(a, Identity) == Version(b, Identity) {
        CutAtSameLength(Identity(a), a.effectiveDate, Identity(b), b.effectiveDate, '\0');
        SameVersionSameRow(table, a, b);
      }
    }
  }

  /** The order of the rows matters neither to the check nor to the answer. */
  lemma RowOrderIsIrrelevant<P>(table: seq<Row<P>>, shuffled: seq<Row<P>>, route: Route, asOf: AsOf, reply: Result<Row<P>, Error>)
    requires multiset(table) == multiset(shuffled) && Accepted(table)
    ensures Accepted(shuffled)
    ensures Answers(table, route, asOf, reply) <==> Answers(shuffled, route, asOf, reply)
  {
    AcceptanceIsOrderFree(table, shuffled);
    forall row
      ensures row in table <==> row in shuffled
    {
      assert row in multiset(table) <==> row in multiset(shuffled);
    }
  }

  /** Rows that only come into force after a day never change what that day's price is. */
  lemma LaterRowsChangeNothing<P>(table: seq<Row<P>>, later: seq<Row<P>>, whole: seq<Row<P>>, route: Route, asOf: AsOf,
                                  reply: Result<Row<P>, Error>)
    requires multiset(whole) == multiset(table + later) && Accepted(whole)
    requires EffectiveDay(asOf).Some?
    requires forall row :: row in later ==> Less(EffectiveDay(asOf).value, row.effectiveDate)
    ensures Answers(table, route, asOf, reply) <==> Answers(whole, route, asOf, reply)
  {
    AcceptanceIsOrderFree(whole, table + later);
    assert Accepted(table) by {
      forall i | 0 <= i < |table|
        ensures table[i] == (table + later)[i]
      {
      }
    }
    RowOrderIsIrrelevant(whole, table + later, route, asOf, reply);
    var day := EffectiveDay(asOf).value;
    forall row | Eligible(row, day)
      ensures row in table <==> row in table + later
    {
    }
  }

  /** A wildcard answers only when no exact row is in force, and the answer is the last change made. */
  lemma ExactRowsComeFirst<P>(table: seq<Row<P>>, route: Route, asOf: AsOf, reply: Result<Row<P>, Error>, exact: Row<P>)
    requires Accepted(table) && Answers(table, route, asOf, reply) && EffectiveDay(asOf).Some?
    requires exact in table && IsExact(exact, route) && Eligible(exact, EffectiveDay(asOf).value)
    ensures reply.Ok? && IsExact(reply.value, route)
    ensures exact == reply.value || Less(exact.effectiveDate, reply.value.effectiveDate)
  {
    var row := reply.value;
    LessIsTotal(exact.effectiveDate, row.effectiveDate);
    if exact.effectiveDate == row.effectiveDate {
      SameVersionSameRow(table, exact, row);
    }
  }

  /** A row is in force from its own day on. */
  predicate InForce(row: Row, day: string)
    requires HasDayShape(row.effectiveDate) && HasDayShape(day)
  {
    row.effectiveDate == day || Earlier(row.effectiveDate, day)
  }

  lemma InForceIsEligible(row: Row, day: string)
    requires HasDayShape(row.effectiveDate) && HasDayShape(day)
    ensures InForce(row, day) <==> Eligible(row, day)
  {
    TextOrderIsCalendarOrder(day, row.effectiveDate);
    TextOrderIsCalendarOrder(row.effectiveDate, day);
    LessIsTotal(row.effectiveDate, day);
    LessIsIrreflexive(day);
    if Less(row.effectiveDate, day) && Less(day, row.effectiveDate) {
      LessIsTransitive(row.effectiveDate, day, row.effectiveDate);
      LessIsIrreflexive(row.effectiveDate);
    }
  }

  /** The row speaks of this provider and unit, and names this model. */
  predicate Names(row: Row, route: Route) {
    && row.provider == route.provider && row.unit == route.unit
    && row.model != "*" && Normalize(row.provider, row.model) == Normalize(route.provider, route.model)
  }

  /** The row speaks of this provider and unit, and of every model. */
  predicate NamesAll(row: Row, route: Route) {
    row.provider == route.provider && row.unit == route.unit && row.model == "*"
  }

  lemma RowsInForce<P>(table: seq<Row<P>>, day: string)
    requires Accepted(table) && HasDayShape(day)
    ensures forall row :: row in table ==> HasDayShape(row.effectiveDate) && (InForce(row, day) <==> Eligible(row, day))
  {
    forall row | row in table
      ensures HasDayShape(row.effectiveDate) && (InForce(row, day) <==> Eligible(row, day))
    {
      var i :| 0 <= i < |table| && table[i] == row;
      InForceIsEligible(row, day);
    }
  }

  /**
   * What a real day costs, by the calendar: the row that names the model and came into force last,
   * be it on that very day; failing that, the last one for every model; failing that, nothing.
   */
  lemma AnswerIsLatestInForce<P>(table: seq<Row<P>>, route: Route, day: string, reply: Result<Row<P>, Error>, row: Row<P>)
    requires Accepted(table) && IsDay(day) && Answers(table, route, Text(day), reply) && row in table
    ensures HasDayShape(row.effectiveDate)
    ensures InForce(row, day) && Names(row, route) ==>
              && reply.Ok? && Names(reply.value, route)
              && (row == reply.value || (HasDayShape(reply.value.effectiveDate) && Earlier(row.effectiveDate, reply.value.effectiveDate)))
    ensures InForce(row, day) && NamesAll(row, route) ==>
              && reply.Ok?
              && (row == reply.value || Names(reply.value, route)
                  || (HasDayShape(reply.value.effectiveDate) && Earlier(row.effectiveDate, reply.value.effectiveDate)))
    ensures reply == Ok(row) ==> InForce(row, day) && (Names(row, route) || NamesAll(row, route))
    ensures reply.Ok? ==> reply.value in table
    ensures reply.Err? ==> reply.error == NoEntry
  {
    RowsInForce(table, day);
    if reply.Ok? {
      var chosen := reply.value;
      TextOrderIsCalendarOrder(row.effectiveDate, chosen.effectiveDate);
      LessIsTotal(row.effectiveDate, chosen.effectiveDate);
      if row.effectiveDate == chosen.effectiveDate && Identity(row) == Identity(chosen) {
        SameVersionSameRow(table, row, chosen);
      }
    }
  }

  /** Only what is no real day is refused as a date. */
  lemma BadDatesAreRefused<P>(table: seq<Row<P>>, route: Route, asOf: AsOf, reply: Result<Row<P>, Error>)
    requires Answers(table, route, asOf, reply)
    ensures reply == Err(BadAsOf) <==> asOf == Instant(None) || (asOf.Text? && !IsDay(asOf.value))
  {
  }

  /** A year has 365 days, and one more if it is divisible by 4 but not by 100, or by 400. */
  lemma YearsAreGregorian(year: nat)
    ensures DaysIn(year, 1) + DaysIn(year, 2) + DaysIn(year, 3) + DaysIn(year, 4) + DaysIn(year, 5) + DaysIn(year, 6) +
            DaysIn(year, 7) + DaysIn(year, 8) + DaysIn(year, 9) + DaysIn(year, 10) + DaysIn(year, 11) + DaysIn(year, 12) ==
            if (year % 4 == 0 && year % 100 != 0) || year % 400 == 0 then 366 else 365
    ensures forall month :: month in {1, 3, 5, 7, 8, 10, 12} ==> DaysIn(year, month) == 31
    ensures forall month :: month in {4, 6, 9, 11} ==> DaysIn(year, month) == 30
  {
  }
}
