/** Which routes a reconcile may touch, and where it must end. */
module RoutePlan {
  import opened RouteTypes
  import opened RouteBackend
  import opened RouteSteps

  predicate OnLink(id: Identity, tun: nat) {
    id.gateway.None? && id.ifIndex == tun
  }

  predicate ToWantedDest(id: Identity, want: set<RouteSpec>) {
    exists w :: w in want && w.id.dest == id.dest
  }

  /** Not wanted, and owned, on-link on the tunnel, or in the way of a wanted destination. */
  predicate Doomed(id: Identity, owned: set<Identity>, want: set<RouteSpec>, tun: nat) {
    && id !in Ids(want)
    && (id in owned || OnLink(id, tun) || ToWantedDest(id, want))
  }

  /** The table an undisturbed reconcile leaves behind. */
  function Target(table: set<Identity>, owned: set<Identity>, want: set<RouteSpec>, tun: nat): set<Identity> {
    (set id | id in table && !Doomed(id, owned, want, tun)) + Keys(want)
  }

  predicate WantCanonical(want: set<RouteSpec>) {
    forall w :: w in want ==> Canonical(w.id)
  }

  /** Nothing to add and nothing to delete. */
  predicate InSync(table: set<Identity>, owned: set<Identity>, want: set<RouteSpec>, tun: nat) {
    && Ids(want) <= table
    && forall id :: id in table ==> !Doomed(id, owned, want, tun)
  }

  /** Tracked routes after comparing with a fresh listing. */
  function Adopted(owned: set<RouteSpec>, table: set<Identity>, want: set<RouteSpec>): set<RouteSpec> {
    (set o | o in owned && o.id in table) + (set w | w in want && w.id in table)
  }

  /** The doomed routes of a table. */
  function DoomedIn(table: set<Identity>, owned: set<Identity>, want: set<RouteSpec>, tun: nat): set<Identity> {
    set id | id in table && Doomed(id, owned, want, tun)
  }

  lemma DoomedGrows(table: set<Identity>, id: Identity, owned: set<Identity>, want: set<RouteSpec>, tun: nat)
    ensures DoomedIn(table + {id}, owned, want, tun) ==
            DoomedIn(table, owned, want, tun) + if Doomed(id, owned, want, tun) then {id} else {}
  {
  }

  /** The wanted routes a table lacks. */
  function MissingIn(table: set<Identity>, want: set<RouteSpec>): set<RouteSpec> {
    set w | w in want && w.id !in table
  }

  /**
   The target from each side.  A wanted destination has exactly the wanted routes,
   as the kernel keeps them; so has the tunnel, on-link; what was tracked is gone
   unless wanted; and everything else stays as it was.
   */
  lemma TargetShape(table: set<Identity>, owned: set<Identity>, want: set<RouteSpec>, tun: nat, id: Identity)
    requires AllKeys(table)
    ensures var wanted := exists w :: w in want && id == Identity(Network(w.id.dest), w.id.gateway, w.id.ifIndex);
            var inTheWay := (exists w :: w in want && w.id.dest == id.dest) || (id.gateway.None? && id.ifIndex == tun);
            id in Target(table, owned, want, tun) <==> if inTheWay || id in owned then wanted else id in table || wanted
  {
    forall w | w in want && id == Identity(Network(w.id.dest), w.id.gateway, w.id.ifIndex) ensures id in Keys(want) {
      assert Key(w.id) in Keys(want);
    }
    if id in table && id in Ids(want) {
      var w :| w in want && w.id == id;
      assert ToWantedDest(id, want) && Key(w.id) == id;
    }
  }

  lemma KeysAreIds(want: set<RouteSpec>)
    requires WantCanonical(want)
    ensures Keys(want) == Ids(want)
  {
  }

  /** The target is a fixed point: with the wanted routes tracked, there is nothing left to do. */
  lemma TargetIsInSync(table: set<Identity>, owned: set<Identity>, want: set<RouteSpec>, tun: nat)
    requires WantCanonical(want)
    ensures InSync(Target(table, owned, want, tun), Ids(want), want, tun)
  {
    KeysAreIds(want);
  }

  // The course of a reconcile

  /** `del` and `add` are what the two passes did between a first and a second listing. */
  datatype Course = Course(
    toDel: seq<RouteSpec>, del: Progress, blind: bool,
    toAdd: seq<RouteSpec>, add: Progress, escapeFailed: bool)

  function CallsOf(table: set<Identity>, c: Course): seq<Event> {
    [Listed(false, table)] + c.del.calls + [Listed(c.blind, c.del.table)] + c.add.calls
  }

  function HistoryOf(owned: set<RouteSpec>, table: set<Identity>, want: set<RouteSpec>, c: Course): seq<Snapshot> {
    [Snapshot(Ids(Adopted(owned, table, want)), table)] + c.del.history + c.add.history
  }

  /** The deletion pass compared the tracked routes with the table and tried every doomed route. */
  predicate DeletePassed(
      owned: set<RouteSpec>, table: set<Identity>, want: set<RouteSpec>, tun: nat, toDel: seq<RouteSpec>, del: Progress)
  {
    var adopted := Adopted(owned, table, want);
    && IdsOf(toDel) == DoomedIn(table, Ids(adopted), want, tun)
    && SortedByRank(toDel, false)
    && Deleting(adopted, table, toDel, del)
  }

  predicate NoRepeats(routes: seq<RouteSpec>) {
    forall i, j :: 0 <= i < j < |routes| ==> routes[i] != routes[j]
  }

  /** The addition pass tried every wanted route the table lacked. */
  ghost predicate AddPassed(
      owned: set<RouteSpec>, table: set<Identity>, want: set<RouteSpec>, toAdd: seq<RouteSpec>, add: Progress,
      failed: bool)
  {
    && (forall w :: w in toAdd <==> w in want && w.id !in table)
    && NoRepeats(toAdd) && SortedByRank(toAdd, true)
    && Adding(Escapes(want), owned, table, toAdd, add, failed)
  }

  ghost predicate IsCourse(owned: set<RouteSpec>, table: set<Identity>, want: set<RouteSpec>, tun: nat, c: Course) {
    && AllKeys(table)
    && DeletePassed(owned, table, want, tun, c.toDel, c.del)
    && if c.blind
       then c.toAdd == [] && c.add == Begin(c.del.owned, c.del.table)
       else AddPassed(c.del.owned, c.del.table, want, c.toAdd, c.add, c.escapeFailed)
  }

  lemma AdoptedDoom(id: Identity, owned: set<RouteSpec>, table: set<Identity>, want: set<RouteSpec>, tun: nat)
    requires id in table
    ensures Doomed(id, Ids(Adopted(owned, table, want)), want, tun) <==> Doomed(id, Ids(owned), want, tun)
  {
    var adopted := Adopted(owned, table, want);
    if id in Ids(owned) {
      var o :| o in owned && o.id == id;
      assert o in adopted;
    }
  }

  lemma DoomedRoutes(owned: set<RouteSpec>, table: set<Identity>, want: set<RouteSpec>, tun: nat, c: Course)
    requires IsCourse(owned, table, want, tun, c)
    ensures IdsOf(c.toDel) == (set id | id in table && Doomed(id, Ids(owned), want, tun))
    ensures KeysOf(c.toDel) == IdsOf(c.toDel) && AllCanonical(c.toDel)
  {
    forall id | id in table
      ensures Doomed(id, Ids(Adopted(owned, table, want)), want, tun) <==> Doomed(id, Ids(owned), want, tun)
    {
      AdoptedDoom(id, owned, table, want, tun);
    }
    forall x | x in c.toDel ensures Canonical(x.id) {
      assert x.id in IdsOf(c.toDel);
    }
  }

  /** Only doomed routes are deleted and only wanted ones added, whatever fails. */
  lemma CourseIsSafe(owned: set<RouteSpec>, table: set<Identity>, want: set<RouteSpec>, tun: nat, c: Course)
    requires IsCourse(owned, table, want, tun, c)
    ensures forall e :: e in CallsOf(table, c) ==>
              && (e.Deleted? ==> Doomed(e.spec.id, Ids(owned), want, tun))
              && (e.Added? ==> e.spec in want)
    ensures EscapesFirst(CallsOf(table, c), Escapes(want))
    ensures forall id :: id in table && !Doomed(id, Ids(owned), want, tun) ==> id in c.add.table
    ensures c.add.table <= table + Keys(want)
  {
    DoomedRoutes(owned, table, want, tun, c);
    forall e | e in CallsOf(table, c)
      ensures e.Deleted? ==> Doomed(e.spec.id, Ids(owned), want, tun)
      ensures e.Added? ==> e.spec in want
      ensures e.Added? && IsDefaultTun(e.spec.id) ==> Escapes(want) <= e.before
    {
      if e in c.del.calls {
        if e.Deleted? {
          assert e.spec.id in IdsOf(c.toDel);
        }
      }
    }
    forall id | id in c.add.table ensures id in table + Keys(want) {
      if id in KeysOf(c.toAdd) {
        var x :| x in c.toAdd && Key(x.id) == id;
        assert x in want;
      }
    }
  }

  /**
   Additions go from host routes around the tunnel over other routes around it and
   networks through it to its default route; deletions go the other way.
   */
  predicate RightOrder(t: seq<Event>) {
    && (forall i, j :: 0 <= i < j < |t| && t[i].Added? && t[j].Added? ==> Sooner(t[i].spec.id, t[j].spec.id))
    && (forall i, j :: 0 <= i < j < |t| && t[i].Deleted? && t[j].Deleted? ==> Sooner(t[j].spec.id, t[i].spec.id))
  }

  /** The first need not come after the second. */
  predicate Sooner(a: Identity, b: Identity) {
    && (b.gateway.Some? ==> a.gateway.Some?)
    && (b.gateway.Some? && b.dest.prefix == 32 ==> a.gateway.Some? && a.dest.prefix == 32)
    && (a.gateway.None? && a.dest.prefix == 0 ==> b.gateway.None? && b.dest.prefix == 0)
  }

  lemma DeletesInOrder(t: seq<Event>, routes: seq<RouteSpec>)
    requires DeletesOnly(t, routes) && DeletesOrdered(t)
    ensures RightOrder(t)
  {
    forall i, j | 0 <= i < j < |t| && t[i].Deleted? && t[j].Deleted? ensures Sooner(t[j].spec.id, t[i].spec.id) {
      assert DelRank(t[i].spec.id) <= DelRank(t[j].spec.id);
    }
    assert forall i :: 0 <= i < |t| ==> t[i] in t;
  }

  lemma CourseInOrder(owned: set<RouteSpec>, table: set<Identity>, want: set<RouteSpec>, tun: nat, c: Course)
    requires IsCourse(owned, table, want, tun, c)
    ensures RightOrder(CallsOf(table, c))
  {
    assert DeletesOrdered(c.del.calls) && AddsOrdered(c.add.calls);
    JoinInOrder(table, c);
  }

  lemma JoinInOrder(table: set<Identity>, c: Course)
    requires DeletesOnly(c.del.calls, c.toDel) && AddsOnly(c.add.calls, c.toAdd)
    requires DeletesOrdered(c.del.calls) && AddsOrdered(c.add.calls)
    ensures RightOrder(CallsOf(table, c))
  {
    var t, n := CallsOf(table, c), |c.del.calls|;
    forall i | 0 <= i < |t|
      ensures t[i].Added? ==> i >= n + 2 && t[i] == c.add.calls[i - n - 2]
      ensures t[i].Deleted? ==> 1 <= i <= n && t[i] == c.del.calls[i - 1]
    {
      if 1 <= i <= n {
        assert t[i] == c.del.calls[i - 1] && t[i] in c.del.calls;
      } else if i >= n + 2 {
        assert t[i] == c.add.calls[i - n - 2] && t[i] in c.add.calls;
      }
    }
    forall i, j | 0 <= i < j < |t| && t[i].Deleted? && t[j].Deleted? ensures Sooner(t[j].spec.id, t[i].spec.id) {
      assert DelRank(c.del.calls[i - 1].spec.id) <= DelRank(c.del.calls[j - 1].spec.id);
    }
    forall i, j | 0 <= i < j < |t| && t[i].Added? && t[j].Added? ensures Sooner(t[i].spec.id, t[j].spec.id) {
      assert AddRank(c.add.calls[i - n - 2].spec.id) <= AddRank(c.add.calls[j - n - 2].spec.id);
    }
  }

  /** With every listing successful, tracked routes stay within the kernel's table throughout. */
  lemma CourseIsConsistent(owned: set<RouteSpec>, table: set<Identity>, want: set<RouteSpec>, tun: nat, c: Course)
    requires IsCourse(owned, table, want, tun, c) && AllListed(CallsOf(table, c)) && WantCanonical(want)
    ensures Ids(c.add.owned) <= c.add.table && Consistent(HistoryOf(owned, table, want, c))
  {
    DoomedRoutes(owned, table, want, tun, c);
    assert forall e :: e in c.del.calls ==> e in CallsOf(table, c);
    assert AllCanonical(c.toAdd);
  }

  /** A course without failures raises no error. */
  lemma FineCourse(owned: set<RouteSpec>, table: set<Identity>, want: set<RouteSpec>, tun: nat, c: Course)
    requires IsCourse(owned, table, want, tun, c) && AllFine(CallsOf(table, c))
    ensures !c.blind && c.del.errors == [] && c.add.errors == [] && AllFine(c.del.calls) && AllFine(c.add.calls)
  {
    assert forall e :: e in c.del.calls ==> e in CallsOf(table, c);
    assert forall e :: e in c.add.calls ==> e in CallsOf(table, c);
    assert Listed(c.blind, c.del.table) in CallsOf(table, c);
    assert AllKeys(c.del.table);
  }

  /**
   A reconcile that raises no error, be it that no call failed or that a listing
   showed each failed one to have taken effect, reaches the target and tracks
   exactly the wanted routes.
   */
  lemma CourseReachesTarget(owned: set<RouteSpec>, table: set<Identity>, want: set<RouteSpec>, tun: nat, c: Course)
    requires IsCourse(owned, table, want, tun, c) && !c.blind && c.del.errors == [] && c.add.errors == []
    ensures c.add.table == Target(table, Ids(owned), want, tun)
    ensures Ids(c.add.owned) == Ids(want)
  {
    TargetTable(owned, table, want, tun, c);
    TargetOwned(owned, table, want, tun, c);
  }

  lemma TargetTable(owned: set<RouteSpec>, table: set<Identity>, want: set<RouteSpec>, tun: nat, c: Course)
    requires IsCourse(owned, table, want, tun, c) && !c.blind && c.del.errors == [] && c.add.errors == []
    ensures c.add.table == Target(table, Ids(owned), want, tun)
  {
    DoomedRoutes(owned, table, want, tun, c);
    forall id ensures id in c.add.table <==> id in Target(table, Ids(owned), want, tun) {
      if id in KeysOf(c.toAdd) {
        var x :| x in c.toAdd && Key(x.id) == id;
        assert x in want;
      }
      if id in Keys(want) {
        var w :| w in want && Key(w.id) == id;
        if w.id in c.del.table {
          assert Canonical(w.id);
        } else {
          assert w in c.toAdd;
        }
      }
    }
  }

  lemma TargetOwned(owned: set<RouteSpec>, table: set<Identity>, want: set<RouteSpec>, tun: nat, c: Course)
    requires IsCourse(owned, table, want, tun, c) && !c.blind && c.del.errors == [] && c.add.errors == []
    ensures Ids(c.add.owned) == Ids(want)
  {
    DoomedRoutes(owned, table, want, tun, c);
    var adopted := Adopted(owned, table, want);
    forall id | id in Ids(c.add.owned) ensures id in Ids(want) {
      var o :| o in c.add.owned && o.id == id;
      if o !in c.toAdd {
        assert o in adopted && o.id in table;
        assert o.id !in IdsOf(c.toDel);
        assert o.id in Ids(adopted);
      }
    }
    forall id | id in Ids(want) ensures id in Ids(c.add.owned) {
      var w :| w in want && w.id == id;
      if w.id in c.del.table {
        assert w in adopted;
        assert w.id !in IdsOf(c.toDel);
      }
    }
  }

  /** As many errors are raised as there are failed calls that the next listing does not show to have taken effect. */
  lemma CourseMended(owned: set<RouteSpec>, table: set<Identity>, want: set<RouteSpec>, tun: nat, c: Course)
    requires IsCourse(owned, table, want, tun, c)
    ensures Unmended(CallsOf(table, c)) == |c.del.errors| + |c.add.errors|
    ensures Mended(CallsOf(table, c)) <==> c.del.errors == [] && c.add.errors == []
  {
    NoneUnmended(CallsOf(table, c));
    PassesMended([Listed(false, table)], c.del.calls, [Listed(c.blind, c.del.table)], c.add.calls);
  }

  lemma PassesMended(first: seq<Event>, del: seq<Event>, second: seq<Event>, add: seq<Event>)
    requires |first| == |second| == 1 && first[0].Listed? && second[0].Listed? && Closed(del)
    ensures Unmended(first + del + second + add) == Unmended(del) + Unmended(add)
  {
    UnmendedJoin(first, del);
    UnmendedJoin(first + del, second);
    UnmendedJoin(first + del + second, add);
    assert Unmended(first) == 0 && Unmended(second) == 0 by {
      assert first[1..] == [] && second[1..] == [];
    }
  }

  // A kernel that refuses to add a route it has

  /**
   The kernel has the route under another notation, in which nobody takes it for the
   wanted one nor for one in the way.
   */
  predicate Stuck(table: set<Identity>, owned: set<Identity>, want: set<RouteSpec>, tun: nat, w: RouteSpec) {
    w in want && !Canonical(w.id) && Key(w.id) in table && !Doomed(Key(w.id), owned, want, tun)
  }

  lemma StuckStays(owned: set<RouteSpec>, table: set<Identity>, want: set<RouteSpec>, tun: nat, c: Course, w: RouteSpec)
    requires IsCourse(owned, table, want, tun, c) && Stuck(table, Ids(owned), want, tun, w)
    ensures Key(w.id) in c.del.table && Stuck(c.add.table, Ids(c.add.owned), want, tun, w)
  {
    CourseIsSafe(owned, table, want, tun, c);
    DoomedRoutes(owned, table, want, tun, c);
    assert Key(w.id) !in KeysOf(c.toDel);
    forall o | o in c.add.owned && o.id == Key(w.id) ensures o.id in Ids(want) {
      if o in owned {
        assert o.id in Ids(owned);
      } else {
        assert o in want;
      }
    }
  }

  /** Such a kernel makes the reconcile fail, and leaves things as they are for the next one. */
  lemma StuckCourse(
      owned: set<RouteSpec>, table: set<Identity>, want: set<RouteSpec>, tun: nat, c: Course, w: RouteSpec)
    requires IsCourse(owned, table, want, tun, c) && Stuck(table, Ids(owned), want, tun, w)
    requires RefusesExisting(CallsOf(table, c))
    ensures c.blind || c.add.errors != []
    ensures Stuck(c.add.table, Ids(c.add.owned), want, tun, w)
  {
    StuckStays(owned, table, want, tun, c, w);
    if !c.blind {
      assert AllKeys(c.del.table);
      assert w in c.toAdd;
      assert forall e :: e in c.add.calls ==> e in CallsOf(table, c);
      assert !Made(c.add.calls, w);
    }
  }

  /** No two wanted routes are the same route to the kernel. */
  predicate DistinctKeys(want: set<RouteSpec>) {
    forall v, w :: v in want && w in want && Key(v.id) == Key(w.id) ==> v == w
  }

  lemma FreeAdds(
      owned: set<RouteSpec>, table: set<Identity>, want: set<RouteSpec>, toAdd: seq<RouteSpec>, add: Progress,
      failed: bool)
    requires AddPassed(owned, table, want, toAdd, add, failed) && AllKeys(table)
    requires NewTo(toAdd, table) && OnlyExistingFail(add.calls)
    ensures AllFine(add.calls)
  {
  }

  lemma FreeDeletes(
      owned: set<RouteSpec>, table: set<Identity>, want: set<RouteSpec>, tun: nat, toDel: seq<RouteSpec>, del: Progress)
    requires DeletePassed(owned, table, want, tun, toDel, del) && OnlyExistingFail(del.calls)
    ensures AllFine(del.calls) && del.errors == []
  {
  }

  lemma OnlyExistingParts(table: set<Identity>, c: Course)
    requires OnlyExistingFail(CallsOf(table, c))
    ensures !c.blind && OnlyExistingFail(c.del.calls) && OnlyExistingFail(c.add.calls)
    ensures AllFine(c.del.calls) && AllFine(c.add.calls) ==> AllFine(CallsOf(table, c))
  {
    var calls := CallsOf(table, c);
    assert Listed(c.blind, c.del.table) in calls;
    assert forall e :: e in c.del.calls ==> e in calls;
    assert forall e :: e in c.add.calls ==> e in calls;
  }

  lemma MissingAreNew(owned: set<RouteSpec>, table: set<Identity>, want: set<RouteSpec>, tun: nat, c: Course)
    requires IsCourse(owned, table, want, tun, c) && !c.blind && DistinctKeys(want) && c.del.errors == []
    requires forall w :: !Stuck(table, Ids(owned), want, tun, w)
    ensures NewTo(c.toAdd, c.del.table)
  {
    DoomedRoutes(owned, table, want, tun, c);
    forall w | w in c.toAdd ensures Key(w.id) !in c.del.table {
      assert !Stuck(table, Ids(owned), want, tun, w);
    }
    forall i, j | 0 <= i < j < |c.toAdd| ensures Key(c.toAdd[i].id) != Key(c.toAdd[j].id) {
      assert c.toAdd[i] in want && c.toAdd[j] in want;
    }
  }

  /** If nothing else fails and no route is stuck, nothing fails at all. */
  lemma FreeCourse(owned: set<RouteSpec>, table: set<Identity>, want: set<RouteSpec>, tun: nat, c: Course)
    requires IsCourse(owned, table, want, tun, c) && OnlyExistingFail(CallsOf(table, c)) && DistinctKeys(want)
    requires forall w :: !Stuck(table, Ids(owned), want, tun, w)
    ensures AllFine(CallsOf(table, c))
  {
    OnlyExistingParts(table, c);
    FreeDeletes(owned, table, want, tun, c.toDel, c.del);
    MissingAreNew(owned, table, want, tun, c);
    FreeAdds(c.del.owned, c.del.table, want, c.toAdd, c.add, c.escapeFailed);
  }

  // What an undisturbed course calls for

  lemma PlainDeletesDelete(t: seq<Event>, routes: seq<RouteSpec>, table: set<Identity>)
    requires PlainDeletes(t, routes, table)
    ensures DeletedIn(t) == IdsOf(routes) && AddedIn(t) == {}
  {
    forall id | id in IdsOf(routes) ensures id in DeletedIn(t) {
      var j :| 0 <= j < |routes| && routes[j].id == id;
      assert t[j] in t;
    }
  }

  lemma PlainAddsAdd(t: seq<Event>, routes: seq<RouteSpec>, table: set<Identity>)
    requires PlainAdds(t, routes, table)
    ensures AddedIn(t) == (set x | x in routes) && DeletedIn(t) == {}
  {
    forall x | x in routes ensures x in AddedIn(t) {
      var j :| 0 <= j < |routes| && routes[j] == x;
      assert t[j] in t;
    }
  }

  lemma CallsJoin(table: set<Identity>, c: Course)
    ensures DeletedIn(CallsOf(table, c)) == DeletedIn(c.del.calls) + DeletedIn(c.add.calls)
    ensures AddedIn(CallsOf(table, c)) == AddedIn(c.del.calls) + AddedIn(c.add.calls)
  {
    assert forall e :: e in c.del.calls ==> e in CallsOf(table, c);
    assert forall e :: e in c.add.calls ==> e in CallsOf(table, c);
  }

  /** Without failures exactly the doomed routes are deleted and exactly the missing ones added. */
  lemma UndisturbedCalls(owned: set<RouteSpec>, table: set<Identity>, want: set<RouteSpec>, tun: nat, c: Course)
    requires IsCourse(owned, table, want, tun, c) && AllFine(CallsOf(table, c))
    ensures DeletedIn(CallsOf(table, c)) == DoomedIn(table, Ids(owned), want, tun)
    ensures AddedIn(CallsOf(table, c)) == MissingIn(table, want)
  {
    FineCourse(owned, table, want, tun, c);
    PlainCourse(owned, table, want, tun, c);
    PlainDeletesDelete(c.del.calls, c.toDel, table);
    PlainAddsAdd(c.add.calls, c.toAdd, c.del.table);
    CallsJoin(table, c);
  }

  lemma PlainCourse(owned: set<RouteSpec>, table: set<Identity>, want: set<RouteSpec>, tun: nat, c: Course)
    requires IsCourse(owned, table, want, tun, c) && !c.blind && AllFine(c.del.calls) && AllFine(c.add.calls)
    ensures PlainDeletes(c.del.calls, c.toDel, table) && IdsOf(c.toDel) == DoomedIn(table, Ids(owned), want, tun)
    ensures PlainAdds(c.add.calls, c.toAdd, c.del.table) && (set w | w in c.toAdd) == MissingIn(table, want)
  {
    DoomedRoutes(owned, table, want, tun, c);
    assert AllKeys(c.del.table);
    forall w | w in want ensures w in c.toAdd <==> w.id !in table {
      if w.id in table {
        assert w.id in Ids(want);
        assert w.id !in IdsOf(c.toDel);
      }
    }
  }

  /** Only listing is calling for nothing. */
  lemma OnlyListsIff(t: seq<Event>)
    ensures OnlyLists(t) <==> DeletedIn(t) == {} && AddedIn(t) == {}
  {
    forall e | e in t ensures e.Deleted? ==> e.spec.id in DeletedIn(t) {
    }
    forall e | e in t ensures e.Added? ==> e.spec in AddedIn(t) {
    }
  }

  lemma InSyncIff(table: set<Identity>, owned: set<Identity>, want: set<RouteSpec>, tun: nat)
    ensures InSync(table, owned, want, tun) <==> DoomedIn(table, owned, want, tun) == {} && MissingIn(table, want) == {}
  {
    if InSync(table, owned, want, tun) {
      forall w | w in want ensures w.id in table {
        assert w.id in Ids(want);
      }
    } else if id :| id in table && Doomed(id, owned, want, tun) {
      assert id in DoomedIn(table, owned, want, tun);
    } else {
      var id :| id in Ids(want) && id !in table;
      var w :| w in want && w.id == id;
      assert w in MissingIn(table, want);
    }
  }

  /** An undisturbed reconcile only lists if and only if kernel and wanted routes already agree. */
  lemma IdleIffInSync(owned: set<RouteSpec>, table: set<Identity>, want: set<RouteSpec>, tun: nat, c: Course)
    requires IsCourse(owned, table, want, tun, c) && AllFine(CallsOf(table, c))
    ensures OnlyLists(CallsOf(table, c)) <==> InSync(table, Ids(owned), want, tun)
  {
    UndisturbedCalls(owned, table, want, tun, c);
    OnlyListsIff(CallsOf(table, c));
    InSyncIff(table, Ids(owned), want, tun);
  }

  /** Nothing is added or deleted when kernel and wanted routes already agree, whatever listing fails. */
  lemma InSyncCourseIsIdle(owned: set<RouteSpec>, table: set<Identity>, want: set<RouteSpec>, tun: nat, c: Course)
    requires IsCourse(owned, table, want, tun, c) && InSync(table, Ids(owned), want, tun)
    ensures OnlyLists(CallsOf(table, c))
  {
    DoomedRoutes(owned, table, want, tun, c);
    assert IdsOf(c.toDel) == {};
    assert forall w :: w in want ==> w.id in Ids(want);
    assert IdsOf(c.toAdd) == {};
    if c.toDel != [] {
      SomeIds(c.toDel);
    }
    if c.toAdd != [] {
      SomeIds(c.toAdd);
    }
  }

  // Reconciling again

  /** Kernel routes of wanted networks with host bits that a further reconcile takes for strangers in the way. */
  function Churned(want: set<RouteSpec>, tun: nat): set<Identity> {
    set id | id in Keys(want) && id !in Ids(want) && (OnLink(id, tun) || ToWantedDest(id, want))
  }

  /**
   From a table that a reconcile has just left: what another one finds missing are
   the wanted networks with host bits, all of them again, and what it finds doomed
   are the routes the kernel made of those that lie on the tunnel or share a
   wanted destination.
   */
  lemma AgainFromTarget(table: set<Identity>, owned: set<Identity>, want: set<RouteSpec>, tun: nat)
    requires AllKeys(table)
    ensures MissingIn(Target(table, owned, want, tun), want) == set w | w in want && !Canonical(w.id)
    ensures DoomedIn(Target(table, owned, want, tun), Ids(want), want, tun) == Churned(want, tun)
  {
    var target := Target(table, owned, want, tun);
    forall w | w in want ensures w.id in target <==> Canonical(w.id) {
      if Canonical(w.id) {
        assert Key(w.id) in Keys(want);
      }
    }
  }

  /**
   Of the networks with host bits, those the next reconcile does not clear away first
   are the ones it gets stuck with.
   */
  lemma StuckAtTarget(table: set<Identity>, owned: set<Identity>, want: set<RouteSpec>, tun: nat, w: RouteSpec)
    requires w in want && !Canonical(w.id)
    ensures Stuck(Target(table, owned, want, tun), Ids(want), want, tun, w) <==> Key(w.id) !in Churned(want, tun)
  {
    assert Key(w.id) in Keys(want);
  }

  lemma SomeIds(s: seq<RouteSpec>)
    requires s != []
    ensures IdsOf(s) != {}
  {
    assert s[0] in s;
    assert s[0].id in IdsOf(s);
  }
}
