/**
 What a client of the mirror can rely on, and what it cannot.
 */
module MirrorTheorems {
  import opened Entities
  import opened Mirror

  ghost predicate Reachable(s: Server) {
    exists s0: Server, actions: seq<Action> :: Initial(s0) && Run(s0, actions, s)
  }

  lemma ReachableInv(s: Server)
    requires Reachable(s)
    ensures Inv(s)
  {
    var s0: Server, actions: seq<Action> :| Initial(s0) && Run(s0, actions, s);
    InitialInv(s0);
    RunKeepsInv(s0, actions, s);
  }

  predicate WriterIdle(s: Server) {
    s.pending == None && s.blanked == None
  }

  predicate Drained(s: Server, id: nat) {
    id in s.clients && s.clients[id].phase.Draining? && s.clients[id].queue == []
  }

  // Once the writer is idle and its queue is drained, a client has the server's map; all that it
  // may have besides is a row without a name.
  lemma Converges(s: Server, id: nat)
    requires Reachable(s) && WriterIdle(s) && Drained(s, id)
    ensures s.clients[id].view - {""} == s.status
    ensures s.clients[id].view == s.status <==> "" !in s.clients[id].view
  {
    ReachableInv(s);
    InvConverges(s, id);
  }

  lemma InvConverges(s: Server, id: nat)
    requires Inv(s) && WriterIdle(s) && Drained(s, id)
    ensures s.clients[id].view - {""} == s.status
    ensures s.clients[id].view == s.status <==> "" !in s.clients[id].view
  {
    var c := s.clients[id];
    assert ClientOk(s, id);
    forall x | x != "" ensures (x in c.view <==> x in s.status) && (x in s.status ==> c.view[x] == s.status[x]) {
      assert EntryOk(s, c, x);
    }
    assert "" !in c.view ==> c.view - {""} == c.view;
  }

  // And at any time, what it has or is going to be told about a unit, last, is true.
  lemma NothingIsLost(s: Server, id: nat, x: string)
    requires Reachable(s) && id in s.clients && s.clients[id].phase.Draining?
    requires x in s.status && s.blanked != Some(x)
    ensures var c := s.clients[id];
            if Coming(s, c, x).Some? then Coming(s, c, x).value == s.status[x]
            else x in c.view && c.view[x] == s.status[x]
  {
    ReachableInv(s);
    assert ClientOk(s, id);
    assert EntryOk(s, s.clients[id], x);
  }

  // --- The nameless row. ---

  // Whether step a is client `id` reading an entry that is blank at the moment.
  predicate ReadsBlank(s: Server, a: Action, id: nat) {
    a.Send? && a.id == id && s.blanked == Some(a.name)
  }

  // Whether client `id` has read a blank entry since it last subscribed; `so` says whether it had
  // before these actions.
  function HasReadBlank(s: Server, actions: seq<Action>, id: nat, so: bool): bool
    decreases |actions|
  {
    if actions == [] || !Enabled(s, actions[0]) then so
    else
      var now := if actions[0] == Subscribe(id) then false else so || ReadsBlank(s, actions[0], id);
      HasReadBlank(Do(s, actions[0]), actions[1..], id, now)
  }

  // `so` tells whether the view of the client has a row without a name.
  ghost predicate Nameless(s: Server, id: nat, so: bool) {
    id in s.clients ==> ("" in s.clients[id].view <==> so)
  }

  lemma StepKeepsNameless(s: Server, a: Action, id: nat, so: bool)
    requires Inv(s) && Nameless(s, id, so) && Enabled(s, a)
    ensures Nameless(Do(s, a), id, if a == Subscribe(id) then false else so || ReadsBlank(s, a, id))
  {
    if a.Send? || a.Drain? { assert ClientOk(s, a.id); }
  }

  lemma {:induction false} RunKeepsNameless(s: Server, actions: seq<Action>, t: Server, id: nat, so: bool)
    requires Inv(s) && Nameless(s, id, so) && Run(s, actions, t)
    ensures Inv(t) && Nameless(t, id, HasReadBlank(s, actions, id, so))
    decreases |actions|
  {
    if actions != [] {
      var now := if actions[0] == Subscribe(id) then false else so || ReadsBlank(s, actions[0], id);
      StepKeepsInv(s, actions[0]);
      StepKeepsNameless(s, actions[0], id, so);
      RunKeepsNameless(Do(s, actions[0]), actions[1..], t, id, now);
    }
  }

  // Convergence to the letter: with an idle writer and a drained queue, view and map are equal
  // exactly when the snapshot of this subscription has not read an entry while it was blank.
  lemma {:induction false} ConvergesExactly(s0: Server, actions: seq<Action>, s: Server, id: nat)
    requires Initial(s0) && Run(s0, actions, s)
    requires WriterIdle(s) && Drained(s, id)
    ensures s.clients[id].view == s.status <==> !HasReadBlank(s0, actions, id, false)
  {
    InitialInv(s0);
    RunKeepsNameless(s0, actions, s, id, false);
    InvConverges(s, id);
  }

  // The first list of units names none of them twice.
  predicate NoBlanks(actions: seq<Action>) {
    forall a :: a in actions ==> !a.Blank?
  }

  lemma {:induction false} NoBlankNoRead(s: Server, actions: seq<Action>, t: Server, id: nat)
    requires s.blanked == None && Run(s, actions, t) && NoBlanks(actions)
    ensures !HasReadBlank(s, actions, id, false)
    decreases |actions|
  {
    if actions != [] { NoBlankNoRead(Do(s, actions[0]), actions[1..], t, id); }
  }

  // So it comes out equal when no unit is listed twice.
  lemma {:induction false} ConvergesWithoutBlanks(s0: Server, actions: seq<Action>, s: Server, id: nat)
    requires Initial(s0) && Run(s0, actions, s) && NoBlanks(actions)
    requires WriterIdle(s) && Drained(s, id)
    ensures s.clients[id].view == s.status
  {
    ConvergesExactly(s0, actions, s, id);
    NoBlankNoRead(s0, actions, s, id);
  }

  // --- Catching up. ---

  predicate AllDrains(actions: seq<Action>, id: nat) {
    forall a :: a in actions ==> a == Drain(id)
  }

  // From any state with an idle writer, a client that drains its queue gets there, on its own.
  lemma {:induction false} DrainingGetsThere(s: Server, id: nat) returns (actions: seq<Action>, t: Server)
    requires Inv(s) && WriterIdle(s) && id in s.clients && s.clients[id].phase.Draining?
    ensures Run(s, actions, t) && AllDrains(actions, id) && |actions| == |s.clients[id].queue|
    ensures t.status == s.status && Drained(t, id) && t.clients[id].view - {""} == s.status
    decreases |s.clients[id].queue|
  {
    if s.clients[id].queue == [] {
      actions, t := [], s;
      InvConverges(s, id);
    } else {
      StepKeepsInv(s, Drain(id));
      actions, t := DrainingGetsThere(Do(s, Drain(id)), id);
      actions := [Drain(id)] + actions;
    }
  }

  // --- What does not hold. ---

  lemma {:induction false} RunExtends(s: Server, actions: seq<Action>, m: Server, a: Action)
    requires Run(s, actions, m) && Enabled(m, a)
    ensures Run(s, actions + [a], Do(m, a))
    decreases |actions|
  {
    if actions == [] {
      assert Run(Do(m, a), [], Do(m, a));
      assert (actions + [a])[1..] == [];
    } else {
      RunExtends(Do(s, actions[0]), actions[1..], m, a);
      assert (actions + [a])[1..] == actions[1..] + [a];
    }
  }

  lemma Follow(s: Server, a: Action)
    requires Reachable(s) && Enabled(s, a)
    ensures Reachable(Do(s, a))
  {
    var s0: Server, actions: seq<Action> :| Initial(s0) && Run(s0, actions, s);
    RunExtends(s0, actions, s, a);
  }

  // A server with one client, and what the two can do.
  function One(status: map<string, UnitStatus>, pending: Option<UnitStatus>, blanked: Option<string>, c: Client)
    : Server
  {
    Server(status, pending, blanked, map[0 := c])
  }

  lemma OneSubscribes(status: map<string, UnitStatus>, pending: Option<UnitStatus>, blanked: Option<string>)
    requires Reachable(Server(status, pending, blanked, map[]))
    ensures Reachable(One(status, pending, blanked, Client(Subscribed, [], map[])))
  {
    Follow(Server(status, pending, blanked, map[]), Subscribe(0));
  }

  lemma OneStores(status: map<string, UnitStatus>, blanked: Option<string>, c: Client, u: UnitStatus)
    requires Reachable(One(status, None, blanked, c)) && !c.phase.Sending?
    requires Kept(u) && u.name != "" && (blanked == None || blanked == Some(u.name))
    ensures Reachable(One(status[u.name := u], Some(u), None, c))
  {
    Follow(One(status, None, blanked, c), Store(u));
  }

  lemma OneBroadcasts(status: map<string, UnitStatus>, u: UnitStatus, c: Client)
    requires Reachable(One(status, Some(u), None, c))
    ensures Reachable(One(status, None, None, c.(queue := c.queue + [u])))
  {
    var s := One(status, Some(u), None, c);
    Follow(s, Broadcast);
    assert Do(s, Broadcast).clients == map[0 := c.(queue := c.queue + [u])];
  }

  lemma OneDrains(status: map<string, UnitStatus>, c: Client)
    requires Reachable(One(status, None, None, c)) && c.phase.Draining? && c.queue != []
    ensures Reachable(One(status, None, None, c.(queue := c.queue[1..], view := Told(c.view, c.queue[0]))))
  {
    var s := One(status, None, None, c);
    Follow(s, Drain(0));
    assert Do(s, Drain(0)).clients == map[0 := c.(queue := c.queue[1..], view := Told(c.view, c.queue[0]))];
  }

  // The snapshot of a map with one entry.
  lemma OneTakesSnapshot(status: map<string, UnitStatus>, pending: Option<UnitStatus>, blanked: Option<string>,
                         queue: seq<UnitStatus>, name: string)
    requires Reachable(One(status, pending, blanked, Client(Subscribed, queue, map[]))) && status.Keys == {name}
    ensures Reachable(One(status, pending, blanked, Client(Draining, queue, map[status[name].name := status[name]])))
  {
    var s := One(status, pending, blanked, Client(Subscribed, queue, map[]));
    Follow(s, Lock(0));
    assert Do(s, Lock(0)).clients == map[0 := Client(Sending({name}), queue, map[])];
    OneSends(One(status, pending, blanked, Client(Sending({name}), queue, map[])), queue, name);
    var t := One(status, pending, blanked, Client(Sending({}), queue, map[status[name].name := status[name]]));
    Follow(t, Unlock(0));
    assert Do(t, Unlock(0)).clients == map[0 := Client(Draining, queue, map[status[name].name := status[name]])];
  }

  lemma OneSends(s: Server, queue: seq<UnitStatus>, name: string)
    requires Reachable(s) && s.clients == map[0 := Client(Sending({name}), queue, map[])] && name in s.status
    ensures Reachable(s.(clients := map[0 := Client(Sending({}), queue, map[s.status[name].name := s.status[name]])]))
  {
    Follow(s, Send(0, name));
    assert {name} - {name} == {};
    assert Do(s, Send(0, name)).clients ==
        map[0 := Client(Sending({}), queue, map[s.status[name].name := s.status[name]])];
  }

  const UP := UnitStatus("a.service", "active", "running", "")
  const DOWN := UnitStatus("a.service", "inactive", "dead", "")

  lemma BothAreKept()
    ensures Kept(UP) && Kept(DOWN)
  {
    assert "a.service"[1..] == SUFFIX;
  }

  // A client subscribes, the unit comes up and goes down, and only then the client takes its
  // snapshot.
  lemma LateSnapshot()
    ensures Reachable(One(map["a.service" := DOWN], Some(DOWN), None, Client(Draining, [UP], map["a.service" := DOWN])))
  {
    BothAreKept();
    var s := Server(map[], None, None, map[]);
    assert Initial(s) && Run(s, [], s);
    OneSubscribes(map[], None, None);
    OneStores(map[], None, Client(Subscribed, [], map[]), UP);
    assert map["a.service" := UP] == map[]["a.service" := UP];
    OneBroadcasts(map["a.service" := UP], UP, Client(Subscribed, [], map[]));
    assert [] + [UP] == [UP];
    OneStores(map["a.service" := UP], None, Client(Subscribed, [UP], map[]), DOWN);
    assert map["a.service" := UP]["a.service" := DOWN] == map["a.service" := DOWN];
    OneTakesSnapshot(map["a.service" := DOWN], Some(DOWN), None, [UP], "a.service");
  }

  // Agreement comes only in the end: a client that agrees with the server can go back to what was
  // true before.
  lemma ViewCanGoBack()
    ensures exists s: Server ::
              && Reachable(s) && Enabled(s, Drain(0)) && s.clients[0].view == s.status == map["a.service" := DOWN]
              && Do(s, Drain(0)).clients[0].view == map["a.service" := UP]
  {
    LateSnapshot();
    var s := One(map["a.service" := DOWN], Some(DOWN), None, Client(Draining, [UP], map["a.service" := DOWN]));
    assert Do(s, Drain(0)).clients[0].view == map["a.service" := UP];
  }

  // A unit is listed twice, and a client takes its snapshot in between: it keeps a row without a
  // name, although everything has come to rest.
  lemma BlankLeavesARow()
    ensures exists s: Server :: Reachable(s) && WriterIdle(s) && Drained(s, 0) && s.clients[0].view != s.status
  {
    BothAreKept();
    ListedTwice();
    var name, junk := "a.service", map["" := BLANK];
    OneSubscribes(map[name := BLANK], None, Some(name));
    OneTakesSnapshot(map[name := BLANK], None, Some(name), [], name);
    OneStores(map[name := BLANK], Some(name), Client(Draining, [], junk), UP);
    OneBroadcasts(map[name := BLANK][name := UP], UP, Client(Draining, [], junk));
    OneDrains(map[name := BLANK][name := UP], Client(Draining, [] + [UP], junk));
    var t := One(map[name := BLANK][name := UP], None, None,
        Client(Draining, ([] + [UP])[1..], Told(junk, ([] + [UP])[0])));
    assert WriterIdle(t) && Drained(t, 0) && "" in t.clients[0].view && "" !in t.status;
  }

  lemma ListedTwice()
    ensures Reachable(Server(map["a.service" := BLANK], None, Some("a.service"), map[]))
  {
    BothAreKept();
    var s := Server(map[], None, None, map[]);
    assert Initial(s) && Run(s, [], s);
    Follow(s, Store(UP));
    s := Do(s, Store(UP));
    Follow(s, Broadcast);
    assert Do(s, Broadcast).clients == map[];
    s := Do(s, Broadcast);
    Follow(s, Blank("a.service"));
    assert map[]["a.service" := UP]["a.service" := BLANK] == map["a.service" := BLANK];
  }
}
