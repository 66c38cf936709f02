/** The reconciler that drives the kernel's table towards the wanted routes. */
module RouteEngine {
  import opened Wrappers
  import opened RouteTypes
  import opened RouteBackend
  import opened RouteSteps
  import opened RoutePlan

  datatype RouteError = InvalidInterface | ListFailed | OneFailed(kind: ErrorKind) | Multiple(kinds: seq<ErrorKind>)

  function Outcome(errors: seq<ErrorKind>): Result<(), RouteError> {
    if |errors| == 0 then Ok(())
    else if |errors| == 1 then Err(OneFailed(errors[0]))
    else Err(Multiple(errors))
  }

  predicate OnceEach(s: seq<RouteSpec>) {
    forall x :: x in s ==> multiset(s)[x] == 1
  }

  lemma {:induction false} CountsTwice(s: seq<RouteSpec>, i: nat, j: nat)
    requires i < j < |s| && s[i] == s[j]
    ensures multiset(s)[s[i]] >= 2
  {
    assert s == s[..j] + [s[j]] + s[j + 1..];
    assert s[i] in s[..j];
  }

  lemma OnceEachNoRepeats(s: seq<RouteSpec>)
    requires OnceEach(s)
    ensures NoRepeats(s)
  {
    forall i, j | 0 <= i < j < |s| ensures s[i] != s[j] {
      if s[i] == s[j] {
        CountsTwice(s, i, j);
        assert false;
      }
    }
  }

  /** The elements of a set, in some order. */
  method Listing(s: set<RouteSpec>) returns (r: seq<RouteSpec>)
    ensures (forall x :: x in r <==> x in s) && OnceEach(r)
  {
    r := [];
    var rest := s;
    while rest != {}
      invariant rest <= s && (forall x :: x in r <==> x in s && x !in rest) && OnceEach(r)
      decreases rest
    {
      var x :| x in rest;
      r := r + [x];
      rest := rest - {x};
    }
  }

  class Engine {
    const backend: Backend
    var owned: set<RouteSpec>

    constructor (backend: Backend)
      ensures this.backend == backend && owned == {}
    {
      this.backend := backend;
      owned := {};
    }

    /** Delete one route; on an error, look whether it is still there. */
    method DeleteOne(spec: RouteSpec) returns (error: Option<ErrorKind>, ghost calls: seq<Event>)
      requires backend.Valid()
      modifies this, backend
      ensures backend.Valid() && backend.trace == old(backend.trace) + calls
      ensures DeleteCalls(calls, spec, old(backend.table), backend.table, error)
      ensures owned == if error.None? then Forget(old(owned), {spec.id}) else old(owned)
    {
      var r := backend.Delete(spec);
      if r.Ok? || r.error == NotFound {
        owned := Forget(owned, {spec.id});
        error := None;
        calls := [Deleted(spec, false, old(backend.table))];
      } else {
        var list := backend.List();
        calls := [Deleted(spec, true, old(backend.table)), Listed(list.Err?, backend.table)];
        var stillThere := if list.Ok? then spec.id in IdsOf(list.value) else true;
        if stillThere {
          error := Some(r.error);
        } else {
          owned := Forget(owned, {spec.id});
          error := None;
        }
      }
    }

    /** Delete the routes in order, keeping any books that single deletions keep. */
    method DeleteAll(routes: seq<RouteSpec>, ghost books: DeleteBooks)
      returns (errors: seq<ErrorKind>, ghost p: Progress)
      requires backend.Valid() && DeletesKeep(books) && books([], Begin(owned, backend.table))
      modifies this, backend
      ensures backend.Valid() && backend.trace == old(backend.trace) + p.calls
      ensures p.owned == owned && p.table == backend.table && p.errors == errors
      ensures books(routes, p)
    {
      errors := [];
      p := Begin(owned, backend.table);
      for i := 0 to |routes|
        invariant backend.Valid() && backend.trace == old(backend.trace) + p.calls
        invariant p.owned == owned && p.table == backend.table && p.errors == errors
        invariant books(routes[..i], p)
      {
        var error, calls := DeleteOne(routes[i]);
        assert routes[..i + 1] == routes[..i] + [routes[i]];
        assert books(routes[..i] + [routes[i]], AfterDelete(p, routes[i], backend.table, calls, error));
        p := AfterDelete(p, routes[i], backend.table, calls, error);
        if error.Some? {
          errors := errors + [error.value];
        }
      }
      assert routes[..|routes|] == routes;
    }

    /** Add one route; an existing one counts if the kernel has it under the same identity. */
    method AddOne(spec: RouteSpec) returns (error: Option<ErrorKind>, ghost calls: seq<Event>)
      requires backend.Valid()
      modifies this, backend
      ensures backend.Valid() && backend.trace == old(backend.trace) + calls
      ensures AddCalls(calls, spec, old(backend.table), backend.table, error)
      ensures owned == if error.None? then old(owned) + {spec} else old(owned)
      ensures |calls| == 2 <==> old(backend.AddReply(spec)).Refuse? && old(backend.AddReply(spec)).kind == AlreadyExists
      ensures error.Some? ==> old(backend.AddReply(spec)).Refuse? && error.value == old(backend.AddReply(spec)).kind
    {
      var r := backend.Add(spec);
      calls := [Added(spec, r.Err?, old(backend.table))];
      if r.Ok? {
        owned := owned + {spec};
        error := None;
      } else if r.error == AlreadyExists {
        var list := backend.List();
        calls := calls + [Listed(list.Err?, backend.table)];
        var kernel := if list.Ok? then list.value else [];
        if spec.id in IdsOf(kernel) {
          owned := owned + {spec};
          error := None;
        } else {
          error := Some(r.error);
        }
      } else {
        error := Some(r.error);
      }
    }

    /** Add the next route, unless it is the tunnel's default route and an escape has failed. */
    method AddNext(
        spec: RouteSpec, escapeFailed: bool, errors: seq<ErrorKind>, ghost escapes: set<Identity>,
        ghost books: AddBooks, ghost done: seq<RouteSpec>, ghost p: Progress)
      returns (failed: bool, errors': seq<ErrorKind>, ghost p': Progress, ghost calls: seq<Event>)
      requires backend.Valid() && AddsKeep(books, escapes)
      requires p.owned == owned && p.table == backend.table && p.errors == errors
      requires books(done, p, escapeFailed)
      requires IsDefaultTun(spec.id) && !escapeFailed ==> escapes <= p.table
      modifies this, backend
      ensures backend.Valid() && p'.calls == p.calls + calls && backend.trace == old(backend.trace) + calls
      ensures p'.owned == owned && p'.table == backend.table && p'.errors == errors'
      ensures books(done + [spec], p', failed)
    {
      failed, errors', p', calls := escapeFailed, errors, p, [];
      if IsDefaultTun(spec.id) && escapeFailed {
        return;
      }
      var error;
      error, calls := AddOne(spec);
      assert books(done + [spec], AfterAdd(p, spec, backend.table, calls, error),
                   AfterEscape(escapeFailed, spec, error));
      p' := AfterAdd(p, spec, backend.table, calls, error);
      if error.Some? {
        if IsHostEscape(spec.id) {
          failed := true;
        }
        errors' := errors + [error.value];
      }
    }

    /**
     Add the routes in order, leaving out the tunnel's default route once an escape
     has failed, and keeping any books that single additions keep.
     */
    method AddAll(routes: seq<RouteSpec>, ghost escapes: set<Identity>, ghost books: AddBooks)
      returns (errors: seq<ErrorKind>, ghost p: Progress, ghost failed: bool)
      requires backend.Valid() && AddsKeep(books, escapes) && books([], Begin(owned, backend.table), false)
      requires EscapesReady(books, routes, escapes)
      modifies this, backend
      ensures backend.Valid() && backend.trace == old(backend.trace) + p.calls
      ensures p.owned == owned && p.table == backend.table && p.errors == errors
      ensures books(routes, p, failed)
    {
      errors := [];
      p := Begin(owned, backend.table);
      var escapeFailed := false;
      for i := 0 to |routes|
        invariant backend.Valid() && backend.trace == old(backend.trace) + p.calls
        invariant p.owned == owned && p.table == backend.table && p.errors == errors
        invariant books(routes[..i], p, escapeFailed)
      {
        assert routes[..i + 1] == routes[..i] + [routes[i]];
        ghost var before, more := p.calls, [];
        escapeFailed, errors, p, more := AddNext(routes[i], escapeFailed, errors, escapes, books, routes[..i], p);
        assert old(backend.trace) + before + more == old(backend.trace) + (before + more);
      }
      assert routes[..|routes|] == routes;
      failed := escapeFailed;
    }

    /** Compare the tracked routes with a listing. */
    method Adopt(kernel: seq<RouteSpec>, want: set<RouteSpec>)
      modifies this
      ensures owned == Adopted(old(owned), IdsOf(kernel), want)
    {
      var kernelIds := IdsOf(kernel);
      owned := set o | o in owned && o.id in kernelIds;
      var wanted := Listing(want);
      for i := 0 to |wanted|
        invariant owned == (set o | o in old(owned) && o.id in kernelIds) +
                           (set w | w in wanted[..i] && w.id in kernelIds)
      {
        assert wanted[..i + 1] == wanted[..i] + [wanted[i]];
        if wanted[i].id in kernelIds {
          owned := owned + {wanted[i]};
        }
      }
      assert wanted[..|wanted|] == wanted;
    }

    /** The routes to delete: tracked ones no longer wanted, then kernel routes in the way. */
    method PlanDeletes(kernel: seq<RouteSpec>, want: set<RouteSpec>, tun: nat) returns (toDel: seq<RouteSpec>)
      requires Ids(owned) <= IdsOf(kernel)
      requires forall w :: w in want && w.id.gateway.None? ==> w.id.ifIndex == tun
      ensures IdsOf(toDel) == DoomedIn(IdsOf(kernel), Ids(owned), want, tun)
    {
      var stale := set o | o in owned && o.id !in Ids(want);
      toDel := Listing(stale);
      StaleAreDoomed(owned, stale, want, tun, IdsOf(kernel));
      for i := 0 to |kernel|
        invariant IdsOf(toDel) == Ids(stale) + DoomedIn(IdsOf(kernel[..i]), Ids(owned), want, tun)
      {
        var k := kernel[i];
        assert kernel[..i + 1] == kernel[..i] + [k];
        AppendId(kernel[..i], k);
        AppendId(toDel, k);
        DoomedGrows(IdsOf(kernel[..i]), k.id, Ids(owned), want, tun);
        DoomedCases(k.id, owned, stale, want, tun);
        var desiredDest := exists w :: w in want && w.id.dest == k.id.dest;
        if k.id in Ids(want) {
        } else if OnLink(k.id, tun) && !(exists w :: w in want && w.id.dest == k.id.dest && w.id.gateway.None?) {
          if k.id !in IdsOf(toDel) {
            toDel := toDel + [k];
          }
        } else if desiredDest && k.id !in IdsOf(toDel) {
          toDel := toDel + [k];
        }
      }
      assert kernel[..|kernel|] == kernel;
    }

    /** The deletion pass of a reconcile. */
    method DeletePass(kernel: seq<RouteSpec>, want: set<RouteSpec>, tun: nat)
      returns (errors: seq<ErrorKind>, ghost toDel: seq<RouteSpec>, ghost p: Progress)
      requires backend.Valid() && IdsOf(kernel) == backend.table
      requires forall w :: w in want && w.id.gateway.None? ==> w.id.ifIndex == tun
      modifies this, backend
      ensures backend.Valid() && backend.trace == old(backend.trace) + p.calls
      ensures p.owned == owned && p.table == backend.table && p.errors == errors
      ensures DeletePassed(old(owned), old(backend.table), want, tun, toDel, p)
    {
      Adopt(kernel, want);
      var planned := PlanDeletes(kernel, want, tun);
      SortByRankSorts(planned, false);
      var sorted := SortByRank(planned, false);
      assert IdsOf(sorted) == IdsOf(planned);
      DeletingIsKept(owned, backend.table);
      errors, p := DeleteAll(sorted, DeletingFrom(owned, backend.table));
      toDel := sorted;
    }

    /** The addition pass, from a fresh listing. */
    method AddPass(kernel: seq<RouteSpec>, want: set<RouteSpec>)
      returns (errors: seq<ErrorKind>, ghost toAdd: seq<RouteSpec>, ghost p: Progress, ghost failed: bool)
      requires backend.Valid() && IdsOf(kernel) == backend.table
      modifies this, backend
      ensures backend.Valid() && backend.trace == old(backend.trace) + p.calls
      ensures p.owned == owned && p.table == backend.table && p.errors == errors
      ensures AddPassed(old(owned), old(backend.table), want, toAdd, p, failed)
    {
      var kernelIds := IdsOf(kernel);
      var missing := Listing(set w | w in want && w.id !in kernelIds);
      SortByRankSorts(missing, true);
      var sorted := SortByRank(missing, true);
      OnceEachNoRepeats(sorted);
      assert forall id :: id in Escapes(want) ==> id in kernelIds || id in IdsOf(sorted);
      AddingIsKept(Escapes(want), owned, backend.table);
      EscapesAreIn(sorted, Escapes(want), owned, backend.table);
      errors, p, failed := AddAll(sorted, Escapes(want), AddingFrom(Escapes(want), owned, backend.table));
      toAdd := sorted;
    }

    /**
     One reconcile towards the wanted routes, with the calls it made and the
     tracked routes and table after each handled route.

     Whatever fails: only routes that are unwanted and either tracked, on-link on
     the tunnel or to a wanted destination are deleted; only wanted routes are
     added; every other route stays; the tunnel's default route is added only
     over a full set of escapes.  With every listing successful and no host bits
     in wanted networks, tracked routes stay within the table throughout.  Ok means
     that the table is at its target with exactly the wanted routes tracked.  The
     answer is Ok if and only if the listings of both passes succeed and each failed
     call is followed by a listing that shows it to have taken effect.  On a kernel
     that refuses to add what it has, the answer is an error while a wanted network
     with host bits is stuck, and it stays so; when nothing else fails, only then.
     When nothing fails, the answer is Ok, exactly the doomed
     routes are deleted and the missing ones added, and tracked routes are in the
     table if and only if the wanted networks have no host bits.  A table already in
     sync gets listings only.
     */
    method ReconcileNative(d: DesiredRoutes, underlay: Option<Underlay>, tunIndex: Option<nat>)
      returns (r: Result<(), RouteError>, ghost calls: seq<Event>, ghost history: seq<Snapshot>)
      requires backend.Valid()
      modifies this, backend
      ensures backend.Valid() && backend.trace == old(backend.trace) + calls
      ensures tunIndex.None? ==>
                r == Err(InvalidInterface) && calls == [] && owned == old(owned) && backend.table == old(backend.table)
      ensures tunIndex.Some? ==>
                var tun := tunIndex.value; var want := WantSpecs(d, underlay, tun); var mine := Ids(old(owned));
                && (forall e :: e in calls ==>
                      && (e.Deleted? ==> Doomed(e.spec.id, mine, want, tun))
                      && (e.Added? ==> e.spec in want))
                && DefaultGoesLast(calls, d, underlay, tun) && RightOrder(calls)
                && (forall id :: id in old(backend.table) && !Doomed(id, mine, want, tun) ==> id in backend.table)
                && backend.table <= old(backend.table) + Keys(want)
      ensures tunIndex.Some? && WantCanonical(WantSpecs(d, underlay, tunIndex.value)) && AllListed(calls) ==>
                Ids(owned) <= backend.table && Consistent(history)
      ensures r.Ok? ==>
                && tunIndex.Some? && Ids(owned) == Ids(WantSpecs(d, underlay, tunIndex.value))
                && backend.table ==
                   Target(old(backend.table), Ids(old(owned)), WantSpecs(d, underlay, tunIndex.value), tunIndex.value)
      ensures tunIndex.Some? ==> ListingsDecide(calls, r)
      ensures tunIndex.Some? && AllFine(calls) ==>
                var want := WantSpecs(d, underlay, tunIndex.value);
                && r == Ok(())
                && DeletedIn(calls) == DoomedIn(old(backend.table), Ids(old(owned)), want, tunIndex.value)
                && AddedIn(calls) == MissingIn(old(backend.table), want)
                && (Ids(owned) <= backend.table <==> WantCanonical(want))
      ensures tunIndex.Some? &&
              InSync(old(backend.table), Ids(old(owned)), WantSpecs(d, underlay, tunIndex.value), tunIndex.value) ==>
                OnlyLists(calls)
      ensures tunIndex.Some? && backend.strict ==>
                StuckDecides(old(owned), old(backend.table), WantSpecs(d, underlay, tunIndex.value), tunIndex.value,
                             owned, backend.table, calls, r)
    {
      calls, history := [], [];
      if tunIndex.None? {
        return Err(InvalidInterface), calls, history;
      }
      var kinds := Kinds(d, GatewayOf(underlay), AllowDefault(d, underlay));
      var want := ToSpecs(kinds, underlay, tunIndex.value, d.ifName);
      r, calls, history := Reconcile(want, tunIndex.value);
      RefusesExistingPart(old(backend.trace), calls);
      EscapesInPlace(calls, d, underlay, tunIndex.value);
    }

    method Reconcile(want: set<RouteSpec>, tun: nat)
      returns (r: Result<(), RouteError>, ghost calls: seq<Event>, ghost history: seq<Snapshot>)
      requires backend.Valid()
      requires forall w :: w in want && w.id.gateway.None? ==> w.id.ifIndex == tun
      modifies this, backend
      ensures backend.Valid() && backend.trace == old(backend.trace) + calls
      ensures Reconciled(old(owned), old(backend.table), want, tun, owned, backend.table, calls, history, r)
    {
      history := [];
      ghost var owned0, table0 := owned, backend.table;
      var first := backend.List();
      if first.Err? {
        calls := [Listed(true, table0)];
        r := Err(ListFailed);
        NotStarted(owned0, table0, want, tun);
        return;
      }
      var delErrors, toDel, del := DeletePass(first.value, want, tun);
      var second := backend.List();
      if second.Err? {
        ghost var course := Course(toDel, del, true, [], Begin(owned, backend.table), false);
        calls, history := CallsOf(table0, course), HistoryOf(owned0, table0, want, course);
        r := Err(ListFailed);
        JoinCalls(old(backend.trace), table0, course);
        CourseFacts(owned0, table0, want, tun, course, r);
        return;
      }
      var addErrors, toAdd, add, failed := AddPass(second.value, want);
      ghost var course := Course(toDel, del, false, toAdd, add, failed);
      calls, history := CallsOf(table0, course), HistoryOf(owned0, table0, want, course);
      r := Outcome(delErrors + addErrors);
      JoinCalls(old(backend.trace), table0, course);
      CourseFacts(owned0, table0, want, tun, course, r);
    }

    /** Delete every tracked route. */
    method Clear() returns (r: Result<(), RouteError>, ghost calls: seq<Event>, ghost history: seq<Snapshot>)
      requires backend.Valid()
      modifies this, backend
      ensures backend.Valid() && backend.trace == old(backend.trace) + calls
      ensures Cleared(old(owned), old(backend.table), owned, backend.table, calls, history, r)
    {
      ghost var owned0, table0 := owned, backend.table;
      var routes := Listing(owned);
      SortByRankSorts(routes, false);
      var sorted := SortByRank(routes, false);
      DeletingIsKept(owned, backend.table);
      var errors, p := DeleteAll(sorted, DeletingFrom(owned, backend.table));
      calls, history := p.calls, p.history;
      r := Outcome(errors);
      ClearFacts(owned0, table0, sorted, p);
    }
  }

  lemma StaleAreDoomed(
      owned: set<RouteSpec>, stale: set<RouteSpec>, want: set<RouteSpec>, tun: nat, table: set<Identity>)
    requires stale == (set o | o in owned && o.id !in Ids(want)) && Ids(owned) <= table
    ensures Ids(stale) <= DoomedIn(table, Ids(owned), want, tun)
  {
  }

  /** The cases in which a kernel route is deleted, as the plan goes through them. */
  lemma DoomedCases(id: Identity, owned: set<RouteSpec>, stale: set<RouteSpec>, want: set<RouteSpec>, tun: nat)
    requires stale == set o | o in owned && o.id !in Ids(want)
    requires forall w :: w in want && w.id.gateway.None? ==> w.id.ifIndex == tun
    ensures Doomed(id, Ids(owned), want, tun) <==>
              id !in Ids(want) && (id in Ids(stale) || OnLink(id, tun) || exists w :: w in want && w.id.dest == id.dest)
    ensures id !in Ids(want) && OnLink(id, tun) ==>
              !exists w :: w in want && w.id.dest == id.dest && w.id.gateway.None?
  {
  }

  /**
   Whenever a default route through the tunnel is added, every wanted host route
   around it is in the table, and with an exit node those of all underlay hosts.
   */
  ghost predicate DefaultGoesLast(calls: seq<Event>, d: DesiredRoutes, underlay: Option<Underlay>, tun: nat) {
    forall e :: e in calls && e.Added? && e.spec.id.gateway.None? && e.spec.id.dest.prefix == 0 ==>
      && (forall w :: w in WantSpecs(d, underlay, tun) && w.id.gateway.Some? && w.id.dest.prefix == 32 ==>
            w.id in e.before)
      && ((d.hasExit || d.exitNode) && d.mode == Exclude && underlay.Some? && underlay.value.gateway.Some? ==>
            forall host :: host in d.underlayHosts ==>
              Identity(Net(host, 0, 32), underlay.value.gateway, underlay.value.ifIndex) in e.before)
  }

  lemma EscapesInPlace(calls: seq<Event>, d: DesiredRoutes, underlay: Option<Underlay>, tun: nat)
    requires EscapesFirst(calls, Escapes(WantSpecs(d, underlay, tun)))
    ensures DefaultGoesLast(calls, d, underlay, tun)
  {
    var want := WantSpecs(d, underlay, tun);
    forall w | w in want && w.id.gateway.Some? && w.id.dest.prefix == 32 ensures w.id in Escapes(want) {
    }
    if (d.hasExit || d.exitNode) && d.mode == Exclude && underlay.Some? && underlay.value.gateway.Some? {
      forall host | host in d.underlayHosts
        ensures Identity(Net(host, 0, 32), underlay.value.gateway, underlay.value.ifIndex) in Escapes(want)
      {
        EscapesAreWanted(d, underlay.value, tun, host);
      }
    }
  }

  /** When a default route's turn comes and no escape has failed, all escapes are in the table. */
  lemma EscapesAreIn(routes: seq<RouteSpec>, escapes: set<Identity>, owned0: set<RouteSpec>, table0: set<Identity>)
    requires SortedByRank(routes, true)
    requires forall id :: id in escapes ==> IsHostEscape(id) && (id in table0 || id in IdsOf(routes))
    ensures EscapesReady(AddingFrom(escapes, owned0, table0), routes, escapes)
  {
    var books := AddingFrom(escapes, owned0, table0);
    forall i, p: Progress | 0 <= i < |routes| && books(routes[..i], p, false) && IsDefaultTun(routes[i].id)
      ensures escapes <= p.table
    {
      forall id | id in escapes ensures id in p.table {
        if id !in table0 {
          EscapeCameBefore(routes, i, id);
        }
      }
    }
  }

  lemma EscapeCameBefore(routes: seq<RouteSpec>, i: nat, id: Identity)
    requires i < |routes| && SortedByRank(routes, true) && IsDefaultTun(routes[i].id)
    requires IsHostEscape(id) && id in IdsOf(routes)
    ensures exists x :: x in routes[..i] && x.id == id
  {
    var x :| x in routes && x.id == id;
    var j :| 0 <= j < |routes| && routes[j] == x;
    assert Rank(routes[j].id, true) < Rank(routes[i].id, true);
    assert x in routes[..i];
  }

  /**
   The listing between the two passes: no addition before it, no deletion after it,
   and not one that looks again after a failed call.
   */
  predicate BetweenPasses(calls: seq<Event>, k: nat) {
    && 0 < k < |calls| && calls[k].Listed? && (calls[k - 1].Listed? || !calls[k - 1].failed)
    && (forall j :: 0 <= j < k ==> !calls[j].Added?)
    && (forall j :: k < j < |calls| ==> !calls[j].Deleted?)
  }

  /** Ok exactly when every failed call was mended; else the one error, or all of them. */
  predicate Answers(r: Result<(), RouteError>, calls: seq<Event>) {
    && (r.Ok? <==> Mended(calls))
    && match Unmended(calls)
       case 0 => r.Ok?
       case 1 => r.Err? && r.error.OneFailed?
       case _ => r.Err? && r.error.Multiple? && |r.error.kinds| == Unmended(calls)
  }

  /**
   Each pass opens with a listing; if that fails, it is the last call, and the error
   returned.  Otherwise the answer is Ok exactly when every failed call was mended.
   */
  predicate ListingsDecide(calls: seq<Event>, r: Result<(), RouteError>) {
    && calls != [] && calls[0].Listed?
    && if calls[0].failed then |calls| == 1 && r == Err(ListFailed)
       else exists k :: 0 <= k < |calls| && BetweenPasses(calls, k)
                   && if calls[k].failed then k == |calls| - 1 && r == Err(ListFailed) else Answers(r, calls)
  }

  lemma RefusesExistingPart(a: seq<Event>, b: seq<Event>)
    ensures RefusesExisting(a + b) ==> RefusesExisting(b)
  {
    assert forall e :: e in b ==> e in a + b;
  }

  /**
   On a kernel that refuses to add a route it has: a stuck route means an error,
   and is still stuck afterwards; and if nothing else fails and the kernel can tell
   the wanted routes apart, an error means a stuck route.
   */
  ghost predicate StuckDecides(
      owned0: set<RouteSpec>, table0: set<Identity>, want: set<RouteSpec>, tun: nat,
      owned: set<RouteSpec>, table: set<Identity>, calls: seq<Event>, r: Result<(), RouteError>)
  {
    && (forall w :: Stuck(table0, Ids(owned0), want, tun, w) ==> r.Err? && Stuck(table, Ids(owned), want, tun, w))
    && (OnlyExistingFail(calls) && DistinctKeys(want) ==>
          (r.Err? <==> exists w :: Stuck(table0, Ids(owned0), want, tun, w)))
  }

  lemma CourseListings(owned: set<RouteSpec>, table: set<Identity>, want: set<RouteSpec>, tun: nat, c: Course,
                       r: Result<(), RouteError>)
    requires IsCourse(owned, table, want, tun, c)
    requires r == if c.blind then Err(ListFailed) else Outcome(c.del.errors + c.add.errors)
    ensures ListingsDecide(CallsOf(table, c), r)
  {
    var calls, n := CallsOf(table, c), |c.del.calls|;
    assert AddsOnly(c.add.calls, c.toAdd);
    SecondListing(table, c);
    CourseMended(owned, table, want, tun, c);
    assert c.blind ==> c.add.calls == [];
    assert BetweenPasses(calls, n + 1);
  }

  lemma SecondListing(table: set<Identity>, c: Course)
    requires DeletesOnly(c.del.calls, c.toDel) && Closed(c.del.calls) && AddsOnly(c.add.calls, c.toAdd)
    ensures var n := |c.del.calls|; var calls := CallsOf(table, c);
            BetweenPasses(calls, n + 1) && calls[n + 1] == Listed(c.blind, c.del.table)
  {
    var calls, n := CallsOf(table, c), |c.del.calls|;
    assert calls[n + 1] == Listed(c.blind, c.del.table);
    assert calls[n] == if n == 0 then Listed(false, table) else c.del.calls[n - 1];
    forall j | 0 <= j < n + 1 ensures !calls[j].Added? {
      assert j > 0 ==> calls[j] == c.del.calls[j - 1] && calls[j] in c.del.calls;
    }
    forall j | n + 1 < j < |calls| ensures !calls[j].Deleted? {
      assert calls[j] == c.add.calls[j - n - 2] && calls[j] in c.add.calls;
    }
  }

  /** What holds after a reconcile, whatever failed in it. */
  ghost predicate Reconciled(
      owned0: set<RouteSpec>, table0: set<Identity>, want: set<RouteSpec>, tun: nat,
      owned: set<RouteSpec>, table: set<Identity>, calls: seq<Event>, history: seq<Snapshot>, r: Result<(), RouteError>)
  {
    && (forall e :: e in calls ==>
          && (e.Deleted? ==> Doomed(e.spec.id, Ids(owned0), want, tun))
          && (e.Added? ==> e.spec in want))
    && EscapesFirst(calls, Escapes(want)) && RightOrder(calls)
    && (forall id :: id in table0 && !Doomed(id, Ids(owned0), want, tun) ==> id in table)
    && table <= table0 + Keys(want)
    && (WantCanonical(want) && AllListed(calls) ==> Ids(owned) <= table && Consistent(history))
    && (r.Ok? ==> table == Target(table0, Ids(owned0), want, tun) && Ids(owned) == Ids(want))
    && ListingsDecide(calls, r)
    && (AllFine(calls) ==>
          && r == Ok(())
          && DeletedIn(calls) == DoomedIn(table0, Ids(owned0), want, tun)
          && AddedIn(calls) == MissingIn(table0, want)
          && (Ids(owned) <= table <==> WantCanonical(want)))
    && (InSync(table0, Ids(owned0), want, tun) ==> OnlyLists(calls))
    && (RefusesExisting(calls) ==> StuckDecides(owned0, table0, want, tun, owned, table, calls, r))
  }

  lemma JoinCalls(before: seq<Event>, table: set<Identity>, c: Course)
    ensures before + [Listed(false, table)] + c.del.calls + [Listed(c.blind, c.del.table)] + c.add.calls
            == before + CallsOf(table, c)
  {
  }

  lemma NotStarted(owned: set<RouteSpec>, table: set<Identity>, want: set<RouteSpec>, tun: nat)
    ensures Reconciled(owned, table, want, tun, owned, table, [Listed(true, table)], [], Err(ListFailed))
  {
  }

  lemma CourseFacts(
      owned: set<RouteSpec>, table: set<Identity>, want: set<RouteSpec>, tun: nat, c: Course, r: Result<(), RouteError>)
    requires IsCourse(owned, table, want, tun, c)
    requires r == if c.blind then Err(ListFailed) else Outcome(c.del.errors + c.add.errors)
    ensures Reconciled(owned, table, want, tun, c.add.owned, c.add.table, CallsOf(table, c),
                       HistoryOf(owned, table, want, c), r)
  {
    CourseIsSafe(owned, table, want, tun, c);
    CourseInOrder(owned, table, want, tun, c);
    CourseListings(owned, table, want, tun, c, r);
    if r.Ok? {
      assert |c.del.errors + c.add.errors| == 0;
      CourseReachesTarget(owned, table, want, tun, c);
    }
    if AllFine(CallsOf(table, c)) {
      FineCourse(owned, table, want, tun, c);
      CourseReachesTarget(owned, table, want, tun, c);
      UndisturbedCalls(owned, table, want, tun, c);
      TargetHoldsCanonical(owned, table, want, tun, c);
    }
    if WantCanonical(want) && AllListed(CallsOf(table, c)) {
      CourseIsConsistent(owned, table, want, tun, c);
    }
    if InSync(table, Ids(owned), want, tun) {
      InSyncCourseIsIdle(owned, table, want, tun, c);
    }
    if RefusesExisting(CallsOf(table, c)) {
      CourseStuck(owned, table, want, tun, c, r);
    }
  }

  lemma CourseStuck(
      owned: set<RouteSpec>, table: set<Identity>, want: set<RouteSpec>, tun: nat, c: Course, r: Result<(), RouteError>)
    requires IsCourse(owned, table, want, tun, c) && RefusesExisting(CallsOf(table, c))
    requires r == if c.blind then Err(ListFailed) else Outcome(c.del.errors + c.add.errors)
    ensures StuckDecides(owned, table, want, tun, c.add.owned, c.add.table, CallsOf(table, c), r)
  {
    forall w | Stuck(table, Ids(owned), want, tun, w)
      ensures r.Err? && Stuck(c.add.table, Ids(c.add.owned), want, tun, w)
    {
      StuckCourse(owned, table, want, tun, c, w);
    }
    if OnlyExistingFail(CallsOf(table, c)) && DistinctKeys(want) {
      if forall w :: !Stuck(table, Ids(owned), want, tun, w) {
        FreeCourse(owned, table, want, tun, c);
        FineCourse(owned, table, want, tun, c);
      }
    }
  }

  /** The kernel cannot hold a wanted identity with host bits. */
  lemma TargetHoldsCanonical(owned: set<RouteSpec>, table: set<Identity>, want: set<RouteSpec>, tun: nat, c: Course)
    requires IsCourse(owned, table, want, tun, c)
    ensures Ids(want) <= Target(table, Ids(owned), want, tun) <==> WantCanonical(want)
  {
    if WantCanonical(want) {
      KeysAreIds(want);
    } else {
      var w :| w in want && !Canonical(w.id);
      assert w.id in Ids(want);
    }
  }

  /** Once a tracked gateway route is missing, no tracked default route of the tunnel is left. */
  ghost predicate TunnelGoesFirst(owned: set<RouteSpec>, table0: set<Identity>, table: set<Identity>) {
    forall g, t :: g in owned && t in owned && g.id.gateway.Some? && t.id.gateway.None? && t.id.dest.prefix == 0 ==>
      Key(g.id) in table0 && Key(g.id) !in table ==> Key(t.id) !in table
  }

  lemma RanksBefore(routes: seq<RouteSpec>, t: RouteSpec, a: nat)
    requires SortedByRank(routes, false) && t in routes && a < |routes|
    requires DelRank(t.id) < DelRank(routes[a].id)
    ensures t in routes[..a]
  {
    var b :| 0 <= b < |routes| && routes[b] == t;
    assert Rank(routes[b].id, false) < Rank(routes[a].id, false);
  }

  lemma TeardownOrder(owned: set<RouteSpec>, table: set<Identity>, routes: seq<RouteSpec>, j: nat)
    requires j <= |routes| && SortedByRank(routes, false) && forall x :: x in routes <==> x in owned
    ensures TunnelGoesFirst(owned, table, table - KeysOf(routes[..j]))
  {
    var left := table - KeysOf(routes[..j]);
    forall g, t | g in owned && t in owned && g.id.gateway.Some? && t.id.gateway.None? && t.id.dest.prefix == 0
      ensures Key(g.id) in table && Key(g.id) !in left ==> Key(t.id) !in left
    {
      if Key(g.id) in table && Key(g.id) !in left {
        var x :| x in routes[..j] && Key(x.id) == Key(g.id);
        var a :| 0 <= a < j && routes[a] == x;
        RanksBefore(routes, t, a);
        assert t in routes[..j];
      }
    }
  }

  /** No two tracked routes share an identity. */
  predicate DistinctTracked(owned: set<RouteSpec>) {
    forall a, b :: a in owned && b in owned && a.id == b.id ==> a == b
  }

  lemma DistinctSorted(owned: set<RouteSpec>, routes: seq<RouteSpec>)
    requires DistinctTracked(owned) && OnceEach(routes) && forall x :: x in routes <==> x in owned
    ensures DistinctIds(routes) && AllTracked(routes, owned)
  {
    OnceEachNoRepeats(routes);
    forall i, j | 0 <= i < j < |routes| ensures routes[i].id != routes[j].id {
      assert routes[i] in owned && routes[j] in owned;
    }
  }

  /**
   Two tracked routes of one identity, as after a change of the interface's name:
   the first deletion may fail for good and the second untrack both, so that
   nothing is tracked and yet an error returned.
   */
  lemma ErrorWithNothingTracked(a: RouteSpec, b: RouteSpec, table: set<Identity>)
    requires a != b && a.id == b.id && a.id in table && Canonical(a.id)
    ensures var calls1 := [Deleted(a, true, table), Listed(false, table)];
            var p1 := AfterDelete(Begin({a, b}, table), a, table, calls1, Some(OtherError));
            var calls2 := [Deleted(b, false, table)];
            var p2 := AfterDelete(p1, b, table - {Key(b.id)}, calls2, None);
            && DeleteCalls(calls1, a, table, table, Some(OtherError))
            && DeleteCalls(calls2, b, table, table - {Key(b.id)}, None)
            && p2.owned == {} && Outcome(p2.errors) == Err(OneFailed(OtherError))
  {
  }

  /**
   What holds after every tracked route was deleted or tried to be.  Only tracked
   routes are deleted, by rank, and none is added.  The answer is Ok if and only if
   each failed deletion is followed by a listing without that route.  Ok leaves
   nothing tracked and, networks having no host bits, exactly the tracked routes
   gone; with no two tracked routes of one identity, nothing tracked means Ok.
   While listings succeed, what is tracked stays within the table.
   */
  ghost predicate Cleared(
      owned0: set<RouteSpec>, table0: set<Identity>,
      owned: set<RouteSpec>, table: set<Identity>, calls: seq<Event>, history: seq<Snapshot>, r: Result<(), RouteError>)
  {
    && (forall e :: e in calls ==> !e.Added? && (e.Deleted? ==> e.spec in owned0))
    && RightOrder(calls)
    && table <= table0 <= table + Keys(owned0)
    && Answers(r, calls)
    && (r.Ok? ==> owned == {})
    && (DistinctTracked(owned0) ==> (r.Ok? <==> owned == {}))
    && (r.Ok? && (forall o :: o in owned0 ==> Canonical(o.id)) ==> table == table0 - Keys(owned0))
    && (AllListed(calls) && Ids(owned0) <= table0 ==> Ids(owned) <= table && Consistent(history))
    && (AllFine(calls) ==>
          && r == Ok(())
          && table == table0 - Keys(owned0)
          && (forall j :: 0 <= j < |calls| ==> TunnelGoesFirst(owned0, table0, calls[j].before)))
  }

  lemma PlainTeardown(owned: set<RouteSpec>, table: set<Identity>, routes: seq<RouteSpec>, calls: seq<Event>)
    requires SortedByRank(routes, false) && (forall x :: x in routes <==> x in owned)
    requires PlainDeletes(calls, routes, table)
    ensures forall j :: 0 <= j < |calls| ==> TunnelGoesFirst(owned, table, calls[j].before)
  {
    forall j | 0 <= j < |calls| ensures TunnelGoesFirst(owned, table, calls[j].before) {
      TeardownOrder(owned, table, routes, j);
    }
  }

  lemma SameRoutes(owned: set<RouteSpec>, routes: seq<RouteSpec>)
    requires forall x :: x in routes <==> x in owned
    ensures KeysOf(routes) == Keys(owned) && Forget(owned, IdsOf(routes)) == {}
    ensures (forall o :: o in owned ==> Canonical(o.id)) ==> AllCanonical(routes)
  {
    forall o | o in owned ensures o.id in IdsOf(routes) {
      assert o in routes;
    }
  }

  lemma ClearFacts(owned: set<RouteSpec>, table: set<Identity>, routes: seq<RouteSpec>, p: Progress)
    requires SortedByRank(routes, false) && (forall x :: x in routes <==> x in owned) && OnceEach(routes)
    requires DeletingFrom(owned, table)(routes, p) && AllKeys(table)
    ensures Cleared(owned, table, p.owned, p.table, p.calls, p.history, Outcome(p.errors))
  {
    SameRoutes(owned, routes);
    NoneUnmended(p.calls);
    DeletesInOrder(p.calls, routes);
    if Ids(owned) <= table {
      assert forall x :: x in routes ==> x.id in Ids(owned);
    }
    if DistinctTracked(owned) {
      DistinctSorted(owned, routes);
      assert NoneTracked(routes, p.owned) <==> p.owned == {};
    }
    if AllFine(p.calls) {
      PlainTeardown(owned, table, routes, p.calls);
    }
  }
}
