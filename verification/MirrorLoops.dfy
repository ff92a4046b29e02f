/**
 The loops of the mirror: the writer over the first list of units and over every batch of changes,
 and a client over its snapshot and its queue.  What the writer does is a run of the transition
 system in module Mirror.
 */
module MirrorLoops {
  import opened Entities
  import opened Mirror
  import opened MirrorTheorems

  ghost predicate IsService(u: UnitStatus) {
    (exists stem: string :: u.name == stem + ".service") || u.jobType == "service"
  }

  lemma ServicesAreKept(u: UnitStatus)
    ensures Kept(u) <==> IsService(u)
  {
    var n := |u.name| - |".service"|;
    if n >= 0 && u.name[n..] == ".service" {
      assert u.name == u.name[..n] + ".service";
    }
    if exists stem: string :: u.name == stem + ".service" {
      var stem: string :| u.name == stem + ".service";
      assert |stem| == n && u.name[n..] == ".service";
    }
  }

  // `rows` are the services among `units`, in order: row i is the unit at places[i].
  ghost predicate ServicesOf(rows: seq<UnitStatus>, units: seq<UnitStatus>, places: seq<nat>) {
    && |places| == |rows|
    && (forall i, j :: 0 <= i < j < |places| ==> places[i] < places[j])
    && (forall i :: 0 <= i < |places| ==> places[i] < |units| && rows[i] == units[places[i]])
    && (forall n :: 0 <= n < |units| ==> (n in places <==> IsService(units[n])))
  }

  // One more unit, which is a service or not.
  lemma OneMorePlace(rows: seq<UnitStatus>, units: seq<UnitStatus>, places: seq<nat>, u: UnitStatus)
    requires ServicesOf(rows, units, places)
    ensures IsService(u) ==> ServicesOf(rows + [u], units + [u], places + [|units|])
    ensures !IsService(u) ==> ServicesOf(rows, units + [u], places)
  {
    var all := units + [u];
    assert forall n :: 0 <= n < |units| ==> all[n] == units[n];
    forall n | 0 <= n < |all| ensures IsService(all[n]) <==> n in places || (n == |units| && IsService(u)) {
      if n < |units| { assert n in places <==> IsService(units[n]); }
    }
  }

  lemma {:induction false} KeptAreServices(units: seq<UnitStatus>) returns (places: seq<nat>)
    ensures ServicesOf(KeptOf(units), units, places)
  {
    if units == [] {
      places := [];
    } else {
      var n := |units| - 1;
      places := KeptAreServices(units[..n]);
      ServicesAreKept(units[n]);
      assert units == units[..n] + [units[n]];
      OneMorePlace(KeptOf(units[..n]), units[..n], places, units[n]);
      if Kept(units[n]) { places := places + [n]; }
    }
  }

  lemma SentAreServices(before: seq<UnitStatus>, after: seq<UnitStatus>, units: seq<UnitStatus>)
    returns (places: seq<nat>)
    requires after == before + KeptOf(units)
    ensures ServicesOf(after[|before|..], units, places)
  {
    assert after[|before|..] == KeptOf(units);
    places := KeptAreServices(units);
  }

  function KeptOf(units: seq<UnitStatus>): seq<UnitStatus> {
    if units == [] then []
    else if Kept(units[|units| - 1]) then KeptOf(units[..|units| - 1]) + [units[|units| - 1]]
    else KeptOf(units[..|units| - 1])
  }

  lemma {:induction false} KeptExtends(units: seq<UnitStatus>, u: UnitStatus)
    ensures KeptOf(units + [u]) == if Kept(u) then KeptOf(units) + [u] else KeptOf(units)
  {
    assert (units + [u])[..|units|] == units;
  }

  lemma KeptOfNext(units: seq<UnitStatus>, i: nat)
    requires i < |units|
    ensures KeptOf(units[..i + 1]) == if Kept(units[i]) then KeptOf(units[..i]) + [units[i]] else KeptOf(units[..i])
  {
    assert units[..i + 1] == units[..i] + [units[i]];
    KeptExtends(units[..i], units[i]);
  }

  // Rows filed one after the other.
  function Filed(view: map<string, UnitStatus>, rows: seq<UnitStatus>): map<string, UnitStatus> {
    if rows == [] then view else Told(Filed(view, rows[..|rows| - 1]), rows[|rows| - 1])
  }

  // What counts is the last row about a unit.
  lemma {:induction false} FiledIsLast(view: map<string, UnitStatus>, rows: seq<UnitStatus>, x: string)
    ensures Last(rows, x).Some? ==> x in Filed(view, rows) && Filed(view, rows)[x] == Last(rows, x).value
    ensures Last(rows, x) == None ==> (x in Filed(view, rows) <==> x in view)
    ensures Last(rows, x) == None && x in view ==> Filed(view, rows)[x] == view[x]
  {
    if rows != [] { FiledIsLast(view, rows[..|rows| - 1], x); }
  }

  lemma {:induction false} FiledExtends(view: map<string, UnitStatus>, rows: seq<UnitStatus>, u: UnitStatus)
    ensures Filed(view, rows + [u]) == Told(Filed(view, rows), u)
  {
    assert (rows + [u])[..|rows|] == rows;
  }

  lemma {:induction false} LastIsThere(rows: seq<UnitStatus>, x: string)
    ensures Last(rows, x).Some? ==> exists i :: 0 <= i < |rows| && rows[i].name == x
  {
    if rows != [] { LastIsThere(rows[..|rows| - 1], x); }
  }

  predicate NamesDiffer(units: seq<UnitStatus>) {
    forall i, j :: 0 <= i < j < |units| ==> units[i].name != units[j].name
  }

  lemma {:induction false} NewNameIsNotFiled(rows: seq<UnitStatus>, u: UnitStatus)
    requires NamesDiffer(rows + [u])
    ensures NamesDiffer(rows) && u.name !in Filed(map[], rows)
  {
    var all := rows + [u];
    assert forall i :: 0 <= i < |rows| ==> all[i] == rows[i];
    FiledIsLast(map[], rows, u.name);
    LastIsThere(rows, u.name);
    assert all[|rows|] == u;
  }

  lemma NewNameIsNew(
      status: map<string, UnitStatus>, sent: seq<UnitStatus>, before: seq<UnitStatus>, kept: seq<UnitStatus>,
      u: UnitStatus)
    requires status == Filed(map[], sent) && sent == before + kept
    ensures before == [] && NamesDiffer(kept + [u]) ==> NamesDiffer(kept) && u.name !in status
  {
    if before == [] && NamesDiffer(kept + [u]) {
      assert sent == kept;
      NewNameIsNotFiled(kept, u);
    }
  }

  // The server as its writer sees it, with nobody connected.
  function Quiet(status: map<string, UnitStatus>): Server {
    Server(status, None, None, map[])
  }

  class Handler {
    var status: map<string, UnitStatus>
    var sent: seq<UnitStatus>
    ghost var trace: seq<Action>

    // The map is what the broadcasts add up to, and the whole is a run.
    ghost predicate Valid()
      reads this
    {
      status == Filed(map[], sent) && Run(Quiet(map[]), trace, Quiet(status))
    }

    constructor ()
      ensures Valid() && status == map[] && sent == [] && trace == []
    {
      status, sent, trace := map[], [], [];
    }

    method Save(u: UnitStatus)
      requires Valid() && Kept(u) && u.name != ""
      modifies this
      ensures Valid() && sent == old(sent) + [u] && status == old(status)[u.name := u]
      ensures trace == old(trace) + [Store(u), Broadcast]
    {
      StoreAndBroadcast(trace, status, u);
      FiledExtends(map[], sent, u);
      trace := trace + [Store(u), Broadcast];
      status := status[u.name := u];
      sent := sent + [u];
    }

    // A unit of the first list.  A name that is there already is blanked before it is stored anew.
    method List(u: UnitStatus)
      requires Valid() && Kept(u) && u.name != ""
      modifies this
      ensures Valid() && sent == old(sent) + [u] && status == old(status)[u.name := u]
      ensures trace == old(trace) + (if u.name in old(status) then [Blank(u.name)] else []) + [Store(u), Broadcast]
      ensures u.name !in old(status) && NoBlanks(old(trace)) ==> NoBlanks(trace)
    {
      FiledExtends(map[], sent, u);
      if u.name in status {
        BlankAndStore(trace, status, u);
        assert status[u.name := BLANK][u.name := u] == status[u.name := u];
        status, trace := status[u.name := BLANK], trace + [Blank(u.name)];
      } else {
        StoreAndBroadcast(trace, status, u);
      }
      status, sent, trace := status[u.name := u], sent + [u], trace + [Store(u), Broadcast];
    }

    // The first list: when no name comes twice, nothing is ever blanked.
    method ListUnits(units: seq<UnitStatus>) returns (ghost places: seq<nat>)
      requires Valid() && forall i :: 0 <= i < |units| ==> units[i].name != ""
      modifies this
      ensures Valid() && sent == old(sent) + KeptOf(units)
      ensures ServicesOf(sent[|old(sent)|..], units, places)
      ensures old(sent) == [] && NoBlanks(old(trace)) && NamesDiffer(KeptOf(units)) ==> NoBlanks(trace)
    {
      ghost var clean := old(sent) == [] && NoBlanks(old(trace));
      ghost var kept: seq<UnitStatus> := [];
      for i := 0 to |units|
        invariant Valid() && sent == old(sent) + kept && kept == KeptOf(units[..i])
        invariant clean && NamesDiffer(kept) ==> NoBlanks(trace)
      {
        KeptOfNext(units, i);
        if Kept(units[i]) {
          NewNameIsNew(status, sent, old(sent), kept, units[i]);
          List(units[i]);
          kept := kept + [units[i]];
        }
      }
      assert units[..|units|] == units;
      places := SentAreServices(old(sent), sent, units);
    }

    // A batch of changes, some of them nil.
    method Changed(units: seq<Option<UnitStatus>>) returns (ghost places: seq<nat>)
      requires Valid() && forall i :: 0 <= i < |units| && units[i].Some? ==> units[i].value.name != ""
      modifies this
      ensures Valid() && sent == old(sent) + KeptOf(Present(units))
      ensures ServicesOf(sent[|old(sent)|..], Present(units), places)
    {
      for i := 0 to |units|
        invariant Valid() && sent == old(sent) + KeptOf(Present(units[..i]))
      {
        assert units[..i + 1][..i] == units[..i];
        if units[i].Some? {
          var u := units[i].value;
          KeptExtends(Present(units[..i]), u);
          if Kept(u) { Save(u); }
        }
      }
      assert units[..|units|] == units;
      places := SentAreServices(old(sent), sent, Present(units));
    }
  }

  function Present(units: seq<Option<UnitStatus>>): seq<UnitStatus> {
    if units == [] then []
    else if units[|units| - 1].Some? then Present(units[..|units| - 1]) + [units[|units| - 1].value]
    else Present(units[..|units| - 1])
  }

  lemma {:induction false} StoreAndBroadcast(trace: seq<Action>, status: map<string, UnitStatus>, u: UnitStatus)
    requires Run(Quiet(map[]), trace, Quiet(status)) && Kept(u) && u.name != ""
    ensures Run(Quiet(map[]), trace + [Store(u), Broadcast], Quiet(status[u.name := u]))
  {
    RunExtends(Quiet(map[]), trace, Quiet(status), Store(u));
    var s := Do(Quiet(status), Store(u));
    RunExtends(Quiet(map[]), trace + [Store(u)], s, Broadcast);
    assert Do(s, Broadcast).clients == map[];
    assert trace + [Store(u)] + [Broadcast] == trace + [Store(u), Broadcast];
  }

  lemma {:induction false} BlankAndStore(trace: seq<Action>, status: map<string, UnitStatus>, u: UnitStatus)
    requires Run(Quiet(map[]), trace, Quiet(status)) && Kept(u) && u.name != "" && u.name in status
    ensures Run(Quiet(map[]), trace + [Blank(u.name)] + [Store(u), Broadcast], Quiet(status[u.name := u]))
  {
    RunExtends(Quiet(map[]), trace, Quiet(status), Blank(u.name));
    var b := Do(Quiet(status), Blank(u.name));
    RunExtends(Quiet(map[]), trace + [Blank(u.name)], b, Store(u));
    var s := Do(b, Store(u));
    RunExtends(Quiet(map[]), trace + [Blank(u.name)] + [Store(u)], s, Broadcast);
    assert Do(s, Broadcast).clients == map[];
    assert status[u.name := BLANK][u.name := u] == status[u.name := u];
    assert trace + [Blank(u.name)] + [Store(u)] + [Broadcast] == trace + [Blank(u.name)] + [Store(u), Broadcast];
  }

  ghost predicate Lists(order: seq<string>, status: map<string, UnitStatus>) {
    && (forall x :: x in order <==> x in status)
    && Distinct(order)
  }

  function Rows(order: seq<string>, status: map<string, UnitStatus>): seq<UnitStatus>
    requires forall x :: x in order ==> x in status
  {
    seq(|order|, i requires 0 <= i < |order| => status[order[i]])
  }

  lemma {:induction false} OneMoreRow(
      order: seq<string>, status: map<string, UnitStatus>, x: string, view: map<string, UnitStatus>)
    requires Distinct(order) && x !in order && x in status && forall y :: y in order ==> y in status
    ensures Distinct(order + [x]) && forall y :: y in order + [x] <==> y in order || y == x
    ensures Filed(view, Rows(order + [x], status)) == Told(Filed(view, Rows(order, status)), status[x])
  {
    assert Rows(order + [x], status) == Rows(order, status) + [status[x]];
    FiledExtends(view, Rows(order, status), status[x]);
  }

  lemma {:induction false} LastRow(order: seq<string>, status: map<string, UnitStatus>, x: string)
    requires forall y :: y in order ==> y in status && status[y].name == y
    ensures Last(Rows(order, status), x) == if x in order then Some(status[x]) else None
  {
    if order != [] {
      var front := order[..|order| - 1];
      assert order == front + [order[|order| - 1]];
      LastRow(front, status, x);
      assert Rows(order, status)[..|order| - 1] == Rows(front, status);
    }
  }

  // The order in which the entries are sent does not matter, as long as each carries its name.
  lemma {:induction false} SnapshotIsTheMap(
      view: map<string, UnitStatus>, order: seq<string>, status: map<string, UnitStatus>)
    requires Lists(order, status) && forall x :: x in status ==> status[x].name == x
    ensures Filed(view, Rows(order, status)) == view + status
  {
    forall x ensures x in Filed(view, Rows(order, status)) <==> x in view + status {
      LastRow(order, status, x);
      FiledIsLast(view, Rows(order, status), x);
    }
    forall x | x in view + status ensures Filed(view, Rows(order, status))[x] == (view + status)[x] {
      LastRow(order, status, x);
      FiledIsLast(view, Rows(order, status), x);
    }
  }

  // A client: the snapshot in the order in which the map yields it, then the queue as it comes.
  class Stream {
    var view: map<string, UnitStatus>

    // Every entry is sent once, in some order.
    method SendSnapshot(status: map<string, UnitStatus>) returns (ghost order: seq<string>)
      modifies this
      ensures Lists(order, status)
      ensures view == Filed(old(view), Rows(order, status))
    {
      var rest := status.Keys;
      order := [];
      while rest != {}
        invariant rest <= status.Keys
        invariant Distinct(order) && forall x :: x in order <==> x in status.Keys - rest
        invariant view == Filed(old(view), Rows(order, status))
        decreases |rest|
      {
        var x :| x in rest;
        OneMoreRow(order, status, x, old(view));
        view, rest, order := Told(view, status[x]), rest - {x}, order + [x];
      }
    }

    method Drain(queue: seq<UnitStatus>)
      modifies this
      ensures view == Filed(old(view), queue)
    {
      for i := 0 to |queue|
        invariant view == Filed(old(view), queue[..i])
      {
        assert queue[..i + 1][..i] == queue[..i];
        view := Told(view, queue[i]);
      }
      assert queue[..|queue|] == queue;
    }
  }
}
