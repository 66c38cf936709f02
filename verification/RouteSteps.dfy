/** What a sequence of deletions or additions achieves, whatever fails on the way. */
module RouteSteps {
  import opened Wrappers
  import opened RouteTypes
  import opened RouteBackend

  /** The tracked routes without those of the given identities. */
  function Forget(owned: set<RouteSpec>, ids: set<Identity>): set<RouteSpec> {
    set o | o in owned && o.id !in ids
  }

  predicate AllCanonical(s: seq<RouteSpec>) {
    forall x :: x in s ==> Canonical(x.id)
  }

  /** Tracked identities and kernel table at one moment. */
  datatype Snapshot = Snapshot(owned: set<Identity>, table: set<Identity>)

  predicate Consistent(history: seq<Snapshot>) {
    forall h :: h in history ==> h.owned <= h.table
  }

  // Deleting

  /** The calls made for one deletion, and what they tell. */
  predicate DeleteCalls(
      calls: seq<Event>, spec: RouteSpec, before: set<Identity>, after: set<Identity>, error: Option<ErrorKind>)
  {
    && (after == before - {Key(spec.id)} || after == before)
    && 1 <= |calls| <= 2
    && calls[0].Deleted? && calls[0].spec == spec && calls[0].before == before
    && if |calls| == 1 then
         !calls[0].failed && error.None? && after == before - {Key(spec.id)}
       else
         && calls[0].failed && calls[1].Listed? && calls[1].before == after
         && (error.Some? <==> calls[1].failed || spec.id in after)
  }

  predicate DeletesOnly(t: seq<Event>, routes: seq<RouteSpec>) {
    forall e :: e in t ==> !e.Added? && (e.Deleted? ==> e.spec in routes)
  }

  /** Deletions come in the order of their ranks. */
  predicate DeletesOrdered(t: seq<Event>) {
    forall i, j :: 0 <= i < j < |t| && t[i].Deleted? && t[j].Deleted? ==>
      DelRank(t[i].spec.id) <= DelRank(t[j].spec.id)
  }

  /** The calls of an undisturbed deletion of `routes`. */
  predicate PlainDeletes(t: seq<Event>, routes: seq<RouteSpec>, table: set<Identity>) {
    && |t| == |routes|
    && forall j :: 0 <= j < |t| ==> t[j] == Deleted(routes[j], false, table - KeysOf(routes[..j]))
  }

  /** No two routes share an identity. */
  predicate DistinctIds(s: seq<RouteSpec>) {
    forall i, j :: 0 <= i < j < |s| ==> s[i].id != s[j].id
  }

  datatype Progress = Progress(
    owned: set<RouteSpec>,
    table: set<Identity>,
    calls: seq<Event>,
    history: seq<Snapshot>,
    errors: seq<ErrorKind>)

  function Begin(owned: set<RouteSpec>, table: set<Identity>): Progress {
    Progress(owned, table, [], [], [])
  }

  predicate AllTracked(routes: seq<RouteSpec>, owned: set<RouteSpec>) {
    forall x :: x in routes ==> x in owned
  }

  predicate NoneTracked(routes: seq<RouteSpec>, owned: set<RouteSpec>) {
    forall x :: x in routes ==> x !in owned
  }

  /** State of affairs after trying to delete the routes in `done`. */
  predicate Deleting(owned0: set<RouteSpec>, table0: set<Identity>, done: seq<RouteSpec>, p: Progress) {
    && Forget(owned0, IdsOf(done)) <= p.owned <= owned0
    && p.table <= table0 <= p.table + KeysOf(done)
    && |p.errors| == Unmended(p.calls)
    && (DistinctIds(done) && AllTracked(done, owned0) ==> (p.errors == [] <==> NoneTracked(done, p.owned)))
    && DeletesOnly(p.calls, done) && Closed(p.calls)
    && (SortedByRank(done, false) ==> DeletesOrdered(p.calls))
    && (p.errors == [] ==>
          p.owned == Forget(owned0, IdsOf(done)) && (AllCanonical(done) ==> p.table == table0 - KeysOf(done)))
    && (AllFine(p.calls) ==>
          p.errors == [] && PlainDeletes(p.calls, done, table0) && p.table == table0 - KeysOf(done))
    && (AllListed(p.calls) && Ids(owned0) <= table0 && AllCanonical(done) ==>
          Ids(p.owned) <= p.table && Consistent(p.history))
  }

  lemma DeletingNothing(owned: set<RouteSpec>, table: set<Identity>)
    ensures Deleting(owned, table, [], Begin(owned, table))
  {
  }

  function AfterDelete(p: Progress, spec: RouteSpec, table: set<Identity>, calls: seq<Event>, error: Option<ErrorKind>)
    : Progress
  {
    var owned := if error.None? then Forget(p.owned, {spec.id}) else p.owned;
    Progress(owned, table, p.calls + calls, p.history + [Snapshot(Ids(owned), table)],
             if error.None? then p.errors else p.errors + [error.value])
  }

  lemma DeleteKeepsFrame(
      owned0: set<RouteSpec>, table0: set<Identity>, done: seq<RouteSpec>, p: Progress,
      spec: RouteSpec, table: set<Identity>, calls: seq<Event>, error: Option<ErrorKind>)
    requires Deleting(owned0, table0, done, p) && DeleteCalls(calls, spec, p.table, table, error)
    ensures var n := AfterDelete(p, spec, table, calls, error); var all := done + [spec];
            && Forget(owned0, IdsOf(all)) <= n.owned <= owned0
            && n.table <= table0 <= n.table + KeysOf(all)
            && (n.errors == [] ==> n.owned == Forget(owned0, IdsOf(all)))
  {
    AppendId(done, spec);
  }

  lemma DeleteKeepsCalls(
      done: seq<RouteSpec>, p: Progress,
      spec: RouteSpec, table: set<Identity>, calls: seq<Event>, error: Option<ErrorKind>)
    requires DeletesOnly(p.calls, done) && DeleteCalls(calls, spec, p.table, table, error)
    ensures DeletesOnly(p.calls + calls, done + [spec]) && Closed(p.calls + calls)
  {
    assert forall e :: e in calls ==> e == calls[0] || (|calls| == 2 && e == calls[1]);
  }

  /** An error is raised exactly when the call failed and was not mended. */
  lemma DeleteErrorIff(
      p: Progress, spec: RouteSpec, table: set<Identity>, calls: seq<Event>, error: Option<ErrorKind>)
    requires DeleteCalls(calls, spec, p.table, table, error) && Closed(p.calls)
    ensures Unmended(p.calls + calls) == Unmended(p.calls) + if error.None? then 0 else 1
  {
    UnmendedJoin(p.calls, calls);
    assert MendedAt(calls, 0) <==> error.None?;
    if |calls| == 2 {
      assert MendedAt(calls[1..], 0) && calls[1..][1..] == [];
      assert Unmended(calls[1..]) == 0;
    } else {
      assert calls[1..] == [];
    }
  }

  /** Among distinct identities, the routes without an error are those no longer tracked. */
  lemma DeleteUntracks(
      owned0: set<RouteSpec>, done: seq<RouteSpec>, p: Progress, spec: RouteSpec, error: Option<ErrorKind>)
    requires Forget(owned0, IdsOf(done)) <= p.owned <= owned0
    requires DistinctIds(done) && AllTracked(done, owned0) ==> (p.errors == [] <==> NoneTracked(done, p.owned))
    requires DistinctIds(done + [spec]) && AllTracked(done + [spec], owned0)
    ensures var owned := if error.None? then Forget(p.owned, {spec.id}) else p.owned;
            (p.errors == [] && error.None?) <==> NoneTracked(done + [spec], owned)
  {
    var all := done + [spec];
    assert forall i :: 0 <= i < |done| ==> all[i] == done[i];
    assert all[|done|] == spec && spec in all;
    assert forall x :: x in done ==> x in all && x.id != spec.id;
    assert DistinctIds(done) && AllTracked(done, owned0);
    assert spec in p.owned;
  }

  /** A route whose deletion raised no error is out of the table, confirmed by the answer or by a listing. */
  lemma DeleteConfirmed(
      owned0: set<RouteSpec>, table0: set<Identity>, done: seq<RouteSpec>, p: Progress,
      spec: RouteSpec, table: set<Identity>, calls: seq<Event>, error: Option<ErrorKind>)
    requires Deleting(owned0, table0, done, p) && DeleteCalls(calls, spec, p.table, table, error)
    requires p.errors == [] && error.None? && AllCanonical(done + [spec])
    ensures table == table0 - KeysOf(done + [spec])
  {
    AppendId(done, spec);
    assert forall x :: x in done ==> x in done + [spec];
    assert spec in done + [spec];
  }

  lemma DeleteKeepsOrder(
      owned0: set<RouteSpec>, table0: set<Identity>, done: seq<RouteSpec>, p: Progress,
      spec: RouteSpec, table: set<Identity>, calls: seq<Event>, error: Option<ErrorKind>)
    requires Deleting(owned0, table0, done, p) && DeleteCalls(calls, spec, p.table, table, error)
    requires SortedByRank(done + [spec], false)
    ensures DeletesOrdered(p.calls + calls)
  {
    var all := done + [spec];
    assert SortedByRank(done, false) by {
      assert forall i :: 0 <= i < |done| ==> all[i] == done[i];
    }
    forall x | x in done ensures DelRank(x.id) <= DelRank(spec.id) {
      var i :| 0 <= i < |done| && done[i] == x;
      assert all[i] == x && all[|done|] == spec;
    }
    var t := p.calls + calls;
    forall i, j | 0 <= i < j < |t| && t[i].Deleted? && t[j].Deleted?
      ensures DelRank(t[i].spec.id) <= DelRank(t[j].spec.id)
    {
      if j >= |p.calls| && i < |p.calls| {
        assert t[i] in p.calls;
      }
    }
  }

  lemma FineParts(a: seq<Event>, b: seq<Event>)
    requires AllFine(a + b)
    ensures AllFine(a) && AllFine(b)
  {
    assert forall e :: e in a ==> e in a + b;
    assert forall e :: e in b ==> e in a + b;
  }

  lemma PlainDeletesGrow(t: seq<Event>, routes: seq<RouteSpec>, table: set<Identity>, spec: RouteSpec)
    requires PlainDeletes(t, routes, table)
    ensures PlainDeletes(t + [Deleted(spec, false, table - KeysOf(routes))], routes + [spec], table)
  {
    var all := routes + [spec];
    forall j | 0 <= j < |all| ensures all[..j] == routes[..j] {
    }
    assert routes[..|routes|] == routes;
  }

  lemma DeleteStaysPlain(
      table0: set<Identity>, done: seq<RouteSpec>, p: Progress,
      spec: RouteSpec, table: set<Identity>, calls: seq<Event>, error: Option<ErrorKind>)
    requires PlainDeletes(p.calls, done, table0) && p.table == table0 - KeysOf(done)
    requires DeleteCalls(calls, spec, p.table, table, error) && AllFine(calls)
    ensures error.None? && table == table0 - KeysOf(done + [spec])
    ensures PlainDeletes(p.calls + calls, done + [spec], table0)
  {
    AppendId(done, spec);
    assert calls[0] in calls;
    assert calls == [calls[0]] && calls[0] == Deleted(spec, false, p.table);
    PlainDeletesGrow(p.calls, done, table0, spec);
  }

  lemma DeleteStaysConsistent(
      owned0: set<RouteSpec>, table0: set<Identity>, done: seq<RouteSpec>, p: Progress,
      spec: RouteSpec, table: set<Identity>, calls: seq<Event>, error: Option<ErrorKind>)
    requires Deleting(owned0, table0, done, p) && DeleteCalls(calls, spec, p.table, table, error)
    requires AllListed(p.calls + calls) && Ids(owned0) <= table0 && AllCanonical(done + [spec])
    ensures var n := AfterDelete(p, spec, table, calls, error); Ids(n.owned) <= n.table && Consistent(n.history)
  {
    assert AllListed(p.calls) by {
      assert forall e :: e in p.calls ==> e in p.calls + calls;
    }
    assert |calls| == 2 ==> calls[1] in p.calls + calls;
    assert AllCanonical(done) && Canonical(spec.id) by {
      assert forall x :: x in done ==> x in done + [spec];
      assert spec in done + [spec];
    }
  }

  /** One more deletion, however it goes, keeps the books. */
  lemma DeleteStep(
      owned0: set<RouteSpec>, table0: set<Identity>, done: seq<RouteSpec>, p: Progress,
      spec: RouteSpec, table: set<Identity>, calls: seq<Event>, error: Option<ErrorKind>)
    requires Deleting(owned0, table0, done, p) && DeleteCalls(calls, spec, p.table, table, error)
    ensures Deleting(owned0, table0, done + [spec], AfterDelete(p, spec, table, calls, error))
  {
    DeleteKeepsFrame(owned0, table0, done, p, spec, table, calls, error);
    DeleteKeepsCalls(done, p, spec, table, calls, error);
    DeleteErrorIff(p, spec, table, calls, error);
    if DistinctIds(done + [spec]) && AllTracked(done + [spec], owned0) {
      DeleteUntracks(owned0, done, p, spec, error);
    }
    if p.errors == [] && error.None? && AllCanonical(done + [spec]) {
      DeleteConfirmed(owned0, table0, done, p, spec, table, calls, error);
    }
    if SortedByRank(done + [spec], false) {
      DeleteKeepsOrder(owned0, table0, done, p, spec, table, calls, error);
    }
    if AllFine(p.calls + calls) {
      FineParts(p.calls, calls);
      DeleteStaysPlain(table0, done, p, spec, table, calls, error);
    }
    if AllListed(p.calls + calls) && Ids(owned0) <= table0 && AllCanonical(done + [spec]) {
      DeleteStaysConsistent(owned0, table0, done, p, spec, table, calls, error);
    }
  }

  /** Any account of the deletions so far. */
  type DeleteBooks = (seq<RouteSpec>, Progress) -> bool

  /** The account stays true however one more deletion goes. */
  ghost predicate DeletesKeep(books: DeleteBooks) {
    forall done, p, spec, table, calls, error ::
      books(done, p) && DeleteCalls(calls, spec, p.table, table, error) ==>
        books(done + [spec], AfterDelete(p, spec, table, calls, error))
  }

  function DeletingFrom(owned0: set<RouteSpec>, table0: set<Identity>): DeleteBooks {
    (done, p) => Deleting(owned0, table0, done, p)
  }

  lemma DeletingIsKept(owned0: set<RouteSpec>, table0: set<Identity>)
    ensures DeletesKeep(DeletingFrom(owned0, table0)) && DeletingFrom(owned0, table0)([], Begin(owned0, table0))
  {
    forall done, p, spec, table, calls, error
      | DeletingFrom(owned0, table0)(done, p) && DeleteCalls(calls, spec, p.table, table, error)
      ensures DeletingFrom(owned0, table0)(done + [spec], AfterDelete(p, spec, table, calls, error))
    {
      DeleteStep(owned0, table0, done, p, spec, table, calls, error);
    }
    DeletingNothing(owned0, table0);
  }

  // Adding

  /** The calls made for one addition, and what they tell. */
  predicate AddCalls(
      calls: seq<Event>, spec: RouteSpec, before: set<Identity>, after: set<Identity>, error: Option<ErrorKind>)
  {
    && (after == before + {Key(spec.id)} || after == before)
    && 1 <= |calls| <= 2
    && calls[0].Added? && calls[0].spec == spec && calls[0].before == before
    && (!calls[0].failed ==> |calls| == 1 && error.None? && after == before + {Key(spec.id)})
    && (calls[0].failed && |calls| == 1 ==> error.Some?)
    && (|calls| == 2 ==>
          && calls[0].failed && calls[1].Listed? && calls[1].before == after
          && (error.None? <==> !calls[1].failed && spec.id in after))
  }

  /** The wanted host routes around the tunnel. */
  function Escapes(want: set<RouteSpec>): set<Identity> {
    set w | w in want && IsHostEscape(w.id) :: w.id
  }

  predicate AddsOnly(t: seq<Event>, routes: seq<RouteSpec>) {
    forall e :: e in t ==> !e.Deleted? && (e.Added? ==> e.spec in routes)
  }

  /** The tunnel's default route is only ever added over a full set of escapes. */
  predicate EscapesFirst(t: seq<Event>, escapes: set<Identity>) {
    forall e :: e in t ==> e.Added? && IsDefaultTun(e.spec.id) ==> escapes <= e.before
  }

  /** The calls of an undisturbed addition of `routes`. */
  predicate PlainAdds(t: seq<Event>, routes: seq<RouteSpec>, table: set<Identity>) {
    && |t| == |routes|
    && forall j :: 0 <= j < |t| ==> t[j] == Added(routes[j], false, table + KeysOf(routes[..j]))
  }

  lemma PlainAddsGrow(t: seq<Event>, routes: seq<RouteSpec>, table: set<Identity>, spec: RouteSpec)
    requires PlainAdds(t, routes, table)
    ensures PlainAdds(t + [Added(spec, false, table + KeysOf(routes))], routes + [spec], table)
  {
    var all := routes + [spec];
    forall j | 0 <= j < |all| ensures all[..j] == routes[..j] {
    }
    assert routes[..|routes|] == routes;
  }

  /** Everything was added over at least this table. */
  predicate AddsOver(t: seq<Event>, table: set<Identity>) {
    forall e :: e in t && e.Added? ==> table <= e.before
  }

  /** The route was added, with success. */
  predicate Made(t: seq<Event>, x: RouteSpec) {
    exists e :: e in t && e.Added? && e.spec == x && !e.failed
  }

  /** A network with host bits does not get in by a failed addition, for no listing shows it. */
  predicate HostBitsMade(t: seq<Event>, routes: seq<RouteSpec>) {
    forall x :: x in routes && !Canonical(x.id) ==> Made(t, x)
  }

  /** The routes are new to the table, and to each other. */
  predicate NewTo(routes: seq<RouteSpec>, table: set<Identity>) {
    && (forall x :: x in routes ==> Key(x.id) !in table)
    && (forall i, j :: 0 <= i < j < |routes| ==> Key(routes[i].id) != Key(routes[j].id))
  }

  /** Additions come in the order of their ranks. */
  predicate AddsOrdered(t: seq<Event>) {
    forall i, j :: 0 <= i < j < |t| && t[i].Added? && t[j].Added? ==> AddRank(t[i].spec.id) <= AddRank(t[j].spec.id)
  }

  /** State of affairs after trying to add the routes in `done`. */
  predicate Adding(
      escapes: set<Identity>, owned0: set<RouteSpec>, table0: set<Identity>, done: seq<RouteSpec>, p: Progress,
      escapeFailed: bool)
  {
    && owned0 <= p.owned <= owned0 + (set x | x in done)
    && table0 <= p.table <= table0 + KeysOf(done)
    && AddsOnly(p.calls, done)
    && EscapesFirst(p.calls, escapes)
    && AddsOver(p.calls, table0)
    && (SortedByRank(done, true) ==> AddsOrdered(p.calls))
    && |p.errors| == Unmended(p.calls)
    && (p.errors == [] && AllKeys(table0) ==> HostBitsMade(p.calls, done))
    && (!escapeFailed ==> forall x :: x in done && IsHostEscape(x.id) ==> x.id in p.table)
    && (escapeFailed ==> p.errors != [])
    && (p.errors == [] && AllKeys(table0) ==>
          p.table == table0 + KeysOf(done) && p.owned == owned0 + (set x | x in done))
    && (AllFine(p.calls) && AllKeys(table0) ==> p.errors == [] && PlainAdds(p.calls, done, table0))
    && (NewTo(done, table0) && AllKeys(table0) && OnlyExistingFail(p.calls) ==> AllFine(p.calls))
    && (AllCanonical(done) && Ids(owned0) <= table0 ==> Ids(p.owned) <= p.table && Consistent(p.history))
  }

  lemma AddingNothing(escapes: set<Identity>, owned: set<RouteSpec>, table: set<Identity>)
    ensures Adding(escapes, owned, table, [], Begin(owned, table), false)
  {
  }

  function AfterAdd(p: Progress, spec: RouteSpec, table: set<Identity>, calls: seq<Event>, error: Option<ErrorKind>)
    : Progress
  {
    var owned := if error.None? then p.owned + {spec} else p.owned;
    Progress(owned, table, p.calls + calls, p.history + [Snapshot(Ids(owned), table)],
             if error.None? then p.errors else p.errors + [error.value])
  }

  predicate AfterEscape(escapeFailed: bool, spec: RouteSpec, error: Option<ErrorKind>) {
    escapeFailed || (error.Some? && IsHostEscape(spec.id))
  }

  lemma AddKeepsFrame(
      escapes: set<Identity>, owned0: set<RouteSpec>, table0: set<Identity>, done: seq<RouteSpec>, p: Progress,
      escapeFailed: bool, spec: RouteSpec, table: set<Identity>, calls: seq<Event>, error: Option<ErrorKind>)
    requires Adding(escapes, owned0, table0, done, p, escapeFailed) && AddCalls(calls, spec, p.table, table, error)
    ensures var n := AfterAdd(p, spec, table, calls, error); var all := done + [spec];
            && owned0 <= n.owned <= owned0 + (set x | x in all)
            && table0 <= n.table <= table0 + KeysOf(all)
            && (!AfterEscape(escapeFailed, spec, error) ==>
                  forall x :: x in all && IsHostEscape(x.id) ==> x.id in n.table)
  {
    AppendId(done, spec);
  }

  lemma AddKeepsCalls(
      escapes: set<Identity>, done: seq<RouteSpec>, p: Progress,
      spec: RouteSpec, table: set<Identity>, calls: seq<Event>, error: Option<ErrorKind>)
    requires AddsOnly(p.calls, done) && EscapesFirst(p.calls, escapes)
    requires AddCalls(calls, spec, p.table, table, error)
    requires IsDefaultTun(spec.id) ==> escapes <= p.table
    ensures AddsOnly(p.calls + calls, done + [spec]) && EscapesFirst(p.calls + calls, escapes)
    ensures forall table0 :: AddsOver(p.calls, table0) && table0 <= p.table ==> AddsOver(p.calls + calls, table0)
  {
    assert forall e :: e in calls ==> e == calls[0] || (|calls| == 2 && e == calls[1]);
  }

  lemma SortedPart(routes: seq<RouteSpec>, spec: RouteSpec, adding: bool)
    requires SortedByRank(routes + [spec], adding)
    ensures SortedByRank(routes, adding)
    ensures forall x :: x in routes ==> Rank(x.id, adding) <= Rank(spec.id, adding)
  {
    var all := routes + [spec];
    assert forall i :: 0 <= i < |routes| ==> all[i] == routes[i];
    forall x | x in routes ensures Rank(x.id, adding) <= Rank(spec.id, adding) {
      var i :| 0 <= i < |routes| && routes[i] == x;
      assert all[i] == x && all[|routes|] == spec;
    }
  }

  lemma AddKeepsOrder(
      done: seq<RouteSpec>, p: Progress,
      spec: RouteSpec, table: set<Identity>, calls: seq<Event>, error: Option<ErrorKind>)
    requires AddsOnly(p.calls, done) && AddCalls(calls, spec, p.table, table, error)
    requires AddsOrdered(p.calls) && SortedByRank(done + [spec], true)
    ensures AddsOrdered(p.calls + calls)
  {
    SortedPart(done, spec, true);
    var t := p.calls + calls;
    forall i, j | 0 <= i < j < |t| && t[i].Added? && t[j].Added?
      ensures AddRank(t[i].spec.id) <= AddRank(t[j].spec.id)
    {
      if j >= |p.calls| && i < |p.calls| {
        assert t[i] in p.calls;
        assert Rank(t[i].spec.id, true) <= Rank(spec.id, true);
      }
    }
  }

  /** An error is raised exactly when the call failed and was not mended. */
  lemma AddErrorIff(
      p: Progress, spec: RouteSpec, table: set<Identity>, calls: seq<Event>, error: Option<ErrorKind>)
    requires AddCalls(calls, spec, p.table, table, error)
    ensures Unmended(p.calls + calls) == Unmended(p.calls) + if error.None? then 0 else 1
  {
    UnmendedJoin(p.calls, calls);
    assert MendedAt(calls, 0) <==> error.None?;
    if |calls| == 2 {
      assert MendedAt(calls[1..], 0) && calls[1..][1..] == [];
      assert Unmended(calls[1..]) == 0;
    } else {
      assert calls[1..] == [];
    }
  }

  lemma AddMakes(
      done: seq<RouteSpec>, p: Progress, spec: RouteSpec, table: set<Identity>, calls: seq<Event>,
      error: Option<ErrorKind>)
    requires AddCalls(calls, spec, p.table, table, error) && error.None? && AllKeys(table)
    requires HostBitsMade(p.calls, done)
    ensures HostBitsMade(p.calls + calls, done + [spec])
  {
    var t := p.calls + calls;
    assert calls[0] in t;
    forall x | x in done + [spec] && !Canonical(x.id) ensures Made(t, x) {
      if x in done {
        var e :| e in p.calls && e.Added? && e.spec == x && !e.failed;
        assert e in t;
      }
    }
  }

  lemma AddStaysPlain(
      table0: set<Identity>, done: seq<RouteSpec>, p: Progress,
      spec: RouteSpec, table: set<Identity>, calls: seq<Event>, error: Option<ErrorKind>)
    requires PlainAdds(p.calls, done, table0) && p.table == table0 + KeysOf(done)
    requires AddCalls(calls, spec, p.table, table, error) && AllFine(calls)
    ensures error.None? && PlainAdds(p.calls + calls, done + [spec], table0)
  {
    assert calls[0] in calls;
    assert calls == [calls[0]] && calls[0] == Added(spec, false, p.table);
    PlainAddsGrow(p.calls, done, table0, spec);
  }

  /** An addition that could only fail over an existing route does not fail for a new one. */
  lemma AddOfNewIsFine(
      table0: set<Identity>, done: seq<RouteSpec>, p: Progress,
      spec: RouteSpec, table: set<Identity>, calls: seq<Event>, error: Option<ErrorKind>)
    requires AddCalls(calls, spec, p.table, table, error) && p.table == table0 + KeysOf(done)
    requires NewTo(done + [spec], table0) && OnlyExistingFail(p.calls + calls) && AllFine(p.calls)
    ensures AllFine(p.calls + calls)
  {
    var all := done + [spec];
    assert spec in all && all[|done|] == spec;
    forall x | x in done ensures Key(x.id) != Key(spec.id) {
      var i :| 0 <= i < |done| && done[i] == x;
      assert all[i] == x;
    }
    assert calls[0] in p.calls + calls;
    assert !calls[0].failed;
    assert calls == [calls[0]];
  }

  lemma NewPart(routes: seq<RouteSpec>, spec: RouteSpec, table: set<Identity>)
    requires NewTo(routes + [spec], table)
    ensures NewTo(routes, table)
  {
    var all := routes + [spec];
    assert forall i :: 0 <= i < |routes| ==> all[i] == routes[i];
    assert forall x :: x in routes ==> x in all;
  }

  lemma OnlyExistingPart(a: seq<Event>, b: seq<Event>)
    requires OnlyExistingFail(a + b)
    ensures OnlyExistingFail(a)
  {
    assert forall e :: e in a ==> e in a + b;
  }

  /** A route whose addition raised no error is in the table, and tracked. */
  lemma AddConfirmed(
      owned0: set<RouteSpec>, table0: set<Identity>, done: seq<RouteSpec>, p: Progress,
      spec: RouteSpec, table: set<Identity>, calls: seq<Event>, error: Option<ErrorKind>)
    requires p.table == table0 + KeysOf(done) && p.owned == owned0 + (set x | x in done)
    requires AddCalls(calls, spec, p.table, table, error) && error.None? && AllKeys(table0)
    ensures table == table0 + KeysOf(done + [spec]) && p.owned + {spec} == owned0 + (set x | x in done + [spec])
  {
    AppendId(done, spec);
    if |calls| == 2 {
      assert spec.id in table0 + KeysOf(done) + {Key(spec.id)};
      assert Canonical(spec.id);
    }
  }

  lemma AddStaysConsistent(
      done: seq<RouteSpec>, p: Progress,
      spec: RouteSpec, table: set<Identity>, calls: seq<Event>, error: Option<ErrorKind>)
    requires AddCalls(calls, spec, p.table, table, error) && AllCanonical(done + [spec])
    requires AllCanonical(done) ==> Ids(p.owned) <= p.table && Consistent(p.history)
    ensures var n := AfterAdd(p, spec, table, calls, error); Ids(n.owned) <= n.table && Consistent(n.history)
  {
    assert forall x :: x in done ==> x in done + [spec];
    assert spec in done + [spec];
  }

  /** One more addition, however it goes, keeps the books. */
  lemma AddStep(
      escapes: set<Identity>, owned0: set<RouteSpec>, table0: set<Identity>, done: seq<RouteSpec>, p: Progress,
      escapeFailed: bool, spec: RouteSpec, table: set<Identity>, calls: seq<Event>, error: Option<ErrorKind>)
    requires Adding(escapes, owned0, table0, done, p, escapeFailed) && AddCalls(calls, spec, p.table, table, error)
    requires IsDefaultTun(spec.id) ==> escapes <= p.table
    ensures Adding(escapes, owned0, table0, done + [spec],
                   AfterAdd(p, spec, table, calls, error), AfterEscape(escapeFailed, spec, error))
  {
    AddKeepsFrame(escapes, owned0, table0, done, p, escapeFailed, spec, table, calls, error);
    AddKeepsCalls(escapes, done, p, spec, table, calls, error);
    AddErrorIff(p, spec, table, calls, error);
    if SortedByRank(done + [spec], true) {
      SortedPart(done, spec, true);
      AddKeepsOrder(done, p, spec, table, calls, error);
    }
    if p.errors == [] && error.None? && AllKeys(table0) {
      AddConfirmed(owned0, table0, done, p, spec, table, calls, error);
      AddMakes(done, p, spec, table, calls, error);
    }
    if NewTo(done + [spec], table0) && AllKeys(table0) && OnlyExistingFail(p.calls + calls) {
      NewPart(done, spec, table0);
      OnlyExistingPart(p.calls, calls);
      AddOfNewIsFine(table0, done, p, spec, table, calls, error);
    }
    if AllFine(p.calls + calls) && AllKeys(table0) {
      FineParts(p.calls, calls);
      AddStaysPlain(table0, done, p, spec, table, calls, error);
    }
    if AllCanonical(done + [spec]) && Ids(owned0) <= table0 {
      AddStaysConsistent(done, p, spec, table, calls, error);
    }
  }

  /** Skipping the default route after a failed escape. */
  lemma SkipStep(
      escapes: set<Identity>, owned0: set<RouteSpec>, table0: set<Identity>, done: seq<RouteSpec>, p: Progress,
      spec: RouteSpec)
    requires Adding(escapes, owned0, table0, done, p, true) && IsDefaultTun(spec.id)
    ensures Adding(escapes, owned0, table0, done + [spec], p, true)
  {
    AppendId(done, spec);
    assert forall x :: x in done ==> x in done + [spec];
    if NewTo(done + [spec], table0) {
      NewPart(done, spec, table0);
    }
    if SortedByRank(done + [spec], true) {
      SortedPart(done, spec, true);
    }
  }

  /** Any account of the additions so far, and of whether an escape has failed. */
  type AddBooks = (seq<RouteSpec>, Progress, bool) -> bool

  /**
   The account stays true however one more addition goes, the default route coming
   only over a full set of escapes.
   */
  ghost predicate AddsKeep(books: AddBooks, escapes: set<Identity>) {
    && (forall done, p, failed, spec, table, calls, error ::
          books(done, p, failed) && AddCalls(calls, spec, p.table, table, error) &&
          (IsDefaultTun(spec.id) ==> escapes <= p.table) ==>
            books(done + [spec], AfterAdd(p, spec, table, calls, error), AfterEscape(failed, spec, error)))
    && (forall done, p, spec: RouteSpec :: books(done, p, true) && IsDefaultTun(spec.id) ==>
          books(done + [spec], p, true))
  }

  /** When the tunnel's default route has its turn, and no escape has failed, the escapes are in. */
  ghost predicate EscapesReady(books: AddBooks, routes: seq<RouteSpec>, escapes: set<Identity>) {
    forall i, p: Progress ::
      0 <= i < |routes| && books(routes[..i], p, false) && IsDefaultTun(routes[i].id) ==> escapes <= p.table
  }

  function AddingFrom(escapes: set<Identity>, owned0: set<RouteSpec>, table0: set<Identity>): AddBooks {
    (done, p, failed) => Adding(escapes, owned0, table0, done, p, failed)
  }

  lemma AddingIsKept(escapes: set<Identity>, owned0: set<RouteSpec>, table0: set<Identity>)
    ensures AddsKeep(AddingFrom(escapes, owned0, table0), escapes)
    ensures AddingFrom(escapes, owned0, table0)([], Begin(owned0, table0), false)
  {
    var books := AddingFrom(escapes, owned0, table0);
    forall done, p, failed, spec, table, calls, error
      | books(done, p, failed) && AddCalls(calls, spec, p.table, table, error) &&
        (IsDefaultTun(spec.id) ==> escapes <= p.table)
      ensures books(done + [spec], AfterAdd(p, spec, table, calls, error), AfterEscape(failed, spec, error))
    {
      AddStep(escapes, owned0, table0, done, p, failed, spec, table, calls, error);
    }
    forall done, p, spec: RouteSpec | books(done, p, true) && IsDefaultTun(spec.id)
      ensures books(done + [spec], p, true)
    {
      SkipStep(escapes, owned0, table0, done, p, spec);
    }
    AddingNothing(escapes, owned0, table0);
  }
}
