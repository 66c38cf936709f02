/**
 The kernel's routing table behind an interface where any call can fail.  The
 replies are given by a script chosen in advance, so a method proved for every
 script is proved for every pattern of failures; when it runs out, calls succeed.
 A strict kernel besides refuses to add a route it has.
 */
module RouteBackend {
  import opened Wrappers
  import opened RouteTypes

  datatype ErrorKind = AlreadyExists | NotFound | OtherError

  /** `applied` says whether a refused change took effect all the same. */
  datatype Reply = Fine | Refuse(kind: ErrorKind, applied: bool)

  /** A call as it was answered, with the table around it. */
  datatype Event =
    | Added(spec: RouteSpec, failed: bool, before: set<Identity>)
    | Deleted(spec: RouteSpec, failed: bool, before: set<Identity>)
    | Listed(failed: bool, before: set<Identity>)

  function IdsOf(s: seq<RouteSpec>): set<Identity> {
    set x | x in s :: x.id
  }

  function KeysOf(s: seq<RouteSpec>): set<Identity> {
    set x | x in s :: Key(x.id)
  }

  lemma AppendId(s: seq<RouteSpec>, x: RouteSpec)
    ensures IdsOf(s + [x]) == IdsOf(s) + {x.id}
    ensures KeysOf(s + [x]) == KeysOf(s) + {Key(x.id)}
  {
    assert x in s + [x];
    assert forall y :: y in s ==> y in s + [x];
  }

  predicate AllKeys(table: set<Identity>) {
    forall id :: id in table ==> Canonical(id)
  }

  /** Every call succeeded. */
  predicate AllFine(t: seq<Event>) {
    forall e :: e in t ==> !e.failed
  }

  /** Every listing succeeded. */
  predicate AllListed(t: seq<Event>) {
    forall e :: e in t ==> e.Listed? ==> !e.failed
  }

  /** The identities a sequence of calls tried to delete. */
  function DeletedIn(t: seq<Event>): set<Identity> {
    set e | e in t && e.Deleted? :: e.spec.id
  }

  /** The routes a sequence of calls tried to add. */
  function AddedIn(t: seq<Event>): set<RouteSpec> {
    set e | e in t && e.Added? :: e.spec
  }

  predicate OnlyLists(t: seq<Event>) {
    forall e :: e in t ==> e.Listed?
  }

  /** No addition of a route already there was answered with success. */
  predicate RefusesExisting(t: seq<Event>) {
    forall e :: e in t ==> e.Added? && Key(e.spec.id) in e.before ==> e.failed
  }

  /** Nothing failed but additions of routes already there. */
  predicate OnlyExistingFail(t: seq<Event>) {
    forall e :: e in t && e.failed ==> e.Added? && Key(e.spec.id) in e.before
  }

  // What a listing after a failed call can show

  /** The listing shows that the call took effect. */
  predicate Shows(listing: Event, call: Event) {
    && listing.Listed? && !listing.failed
    && match call
       case Added(spec, _, _) => spec.id in listing.before
       case Deleted(spec, _, _) => spec.id !in listing.before
       case Listed(_, _) => true
  }

  /** The call at `i`, if it is a change that failed, is followed by a listing that shows it to have taken effect. */
  predicate MendedAt(t: seq<Event>, i: nat)
    requires i < |t|
  {
    t[i].failed && !t[i].Listed? ==> i + 1 < |t| && Shows(t[i + 1], t[i])
  }

  predicate Mended(t: seq<Event>) {
    forall i :: 0 <= i < |t| ==> MendedAt(t, i)
  }

  /** The last call succeeded, or was a listing. */
  predicate Closed(t: seq<Event>) {
    t != [] ==> t[|t| - 1].Listed? || !t[|t| - 1].failed
  }

  /** How many failed changes were not mended. */
  function Unmended(t: seq<Event>): nat {
    if t == [] then 0 else (if MendedAt(t, 0) then 0 else 1) + Unmended(t[1..])
  }

  /** Two parts are counted one by one, if the second does not open with a listing the first waits for. */
  lemma {:induction false} UnmendedJoin(a: seq<Event>, b: seq<Event>)
    requires Closed(a) || b == [] || !b[0].Listed?
    ensures Unmended(a + b) == Unmended(a) + Unmended(b)
    decreases |a|
  {
    if a == [] {
      assert a + b == b;
    } else {
      assert (a + b)[1..] == a[1..] + b;
      assert |a| > 1 ==> a[1..][|a| - 2] == a[|a| - 1];
      UnmendedJoin(a[1..], b);
    }
  }

  lemma {:induction false} NoneUnmended(t: seq<Event>)
    ensures Unmended(t) == 0 <==> Mended(t)
    decreases |t|
  {
    if t == [] {
    } else {
      NoneUnmended(t[1..]);
      forall i | 0 < i < |t| ensures MendedAt(t, i) <==> MendedAt(t[1..], i - 1) {
      }
      if Mended(t[1..]) && MendedAt(t, 0) {
        forall i | 0 <= i < |t| ensures MendedAt(t, i) {
          assert i > 0 ==> MendedAt(t[1..], i - 1);
        }
      }
      if Mended(t) {
        forall i | 0 <= i < |t| - 1 ensures MendedAt(t[1..], i) {
          assert MendedAt(t, i + 1);
        }
      }
    }
  }

  class Backend {
    var table: set<Identity>
    var script: seq<Reply>
    ghost var trace: seq<Event>
    const nameOf: Identity -> string
    const strict: bool

    /** The kernel keeps networks without host bits. */
    ghost predicate Valid()
      reads this
    {
      AllKeys(table) && (strict ==> RefusesExisting(trace))
    }

    constructor (table: set<Identity>, script: seq<Reply>, nameOf: Identity -> string, strict: bool)
      requires AllKeys(table)
      ensures Valid() && this.table == table && trace == [] && this.strict == strict
    {
      this.table := table;
      this.script := script;
      this.nameOf := nameOf;
      this.strict := strict;
      trace := [];
    }

    /** The answer an addition is about to get. */
    ghost function AddReply(spec: RouteSpec): Reply
      reads this
    {
      if strict && Key(spec.id) in table then Refuse(AlreadyExists, false)
      else if script == [] then Fine
      else script[0]
    }

    method NextReply() returns (r: Reply)
      modifies this`script
      ensures r == if old(script) == [] then Fine else old(script)[0]
    {
      r := Fine;
      if script != [] {
        r := script[0];
        script := script[1..];
      }
    }

    method Add(spec: RouteSpec) returns (r: Result<(), ErrorKind>)
      requires Valid()
      modifies this
      ensures Valid()
      ensures trace == old(trace) + [Added(spec, r.Err?, old(table))]
      ensures r == if old(AddReply(spec)).Fine? then Ok(()) else Err(old(AddReply(spec)).kind)
      ensures r.Ok? ==> table == old(table) + {Key(spec.id)}
      ensures table == old(table) + {Key(spec.id)} || table == old(table)
    {
      ghost var before := table;
      var reply := Refuse(AlreadyExists, false);
      if !(strict && Key(spec.id) in table) {
        reply := NextReply();
      }
      match reply {
        case Fine =>
          table := table + {Key(spec.id)};
          r := Ok(());
        case Refuse(kind, applied) =>
          table := if applied then table + {Key(spec.id)} else table;
          r := Err(kind);
      }
      trace := trace + [Added(spec, r.Err?, before)];
    }

    /** A route reported missing is missing afterwards, and counts as deleted. */
    method Delete(spec: RouteSpec) returns (r: Result<(), ErrorKind>)
      requires Valid()
      modifies this
      ensures Valid()
      ensures trace == old(trace) + [Deleted(spec, r.Err? && r.error != NotFound, old(table))]
      ensures r.Ok? || r.error == NotFound ==> table == old(table) - {Key(spec.id)}
      ensures table == old(table) - {Key(spec.id)} || table == old(table)
    {
      ghost var before := table;
      var reply := NextReply();
      match reply {
        case Fine =>
          table := table - {Key(spec.id)};
          r := Ok(());
        case Refuse(kind, applied) =>
          table := if applied || kind == NotFound then table - {Key(spec.id)} else table;
          r := Err(kind);
      }
      trace := trace + [Deleted(spec, r.Err? && r.error != NotFound, before)];
    }

    /** A listing that succeeds is accurate. */
    method List() returns (r: Result<seq<RouteSpec>, ErrorKind>)
      requires Valid()
      modifies this`script, this`trace
      ensures Valid() && trace == old(trace) + [Listed(r.Err?, table)]
      ensures r.Ok? ==> IdsOf(r.value) == table
    {
      var reply := NextReply();
      if reply.Refuse? {
        r := Err(reply.kind);
      } else {
        var rest, out := table, [];
        while rest != {}
          invariant rest <= table && IdsOf(out) == table - rest && trace == old(trace)
          decreases rest
        {
          var id :| id in rest;
          AppendId(out, RouteSpec(id, nameOf(id)));
          out := out + [RouteSpec(id, nameOf(id))];
          rest := rest - {id};
        }
        r := Ok(out);
      }
      trace := trace + [Listed(r.Err?, table)];
    }
  }
}
