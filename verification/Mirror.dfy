/**
 The mirror of the systemd units.  One writer stores the status of a unit under the write lock and
 broadcasts it afterwards, without the lock.  A client subscribes, sends itself a snapshot unit by
 unit under the read lock, and then drains what has been queued for it.
 */
module Mirror {
  import opened Entities

  datatype UnitStatus = UnitStatus(name: string, activeState: string, subState: string, jobType: string)

  // The zero value.
  const BLANK := UnitStatus("", "", "", "")

  const SUFFIX := ".service"

  // Only services are mirrored: units that are called so, and those with a job of that type.
  predicate Kept(u: UnitStatus) {
    (|u.name| >= |SUFFIX| && u.name[|u.name| - |SUFFIX|..] == SUFFIX) || u.jobType == "service"
  }

  datatype Phase =
    | Subscribed
    | Sending(rest: set<string>)   // holds the read lock; `rest` is still to be sent
    | Draining

  // `view` is what the client has been told, by key.
  datatype Client = Client(phase: Phase, queue: seq<UnitStatus>, view: map<string, UnitStatus>)

  // `pending` has been stored and not broadcast; `blanked` is a name that came twice in the first
  // list, whose entry is empty for a moment.
  datatype Server = Server(
    status: map<string, UnitStatus>,
    pending: Option<UnitStatus>,
    blanked: Option<string>,
    clients: map<nat, Client>)

  datatype Action =
    | Blank(name: string)
    | Store(unit: UnitStatus)
    | Broadcast
    | Subscribe(id: nat)
    | Lock(id: nat)
    | Send(id: nat, name: string)
    | Unlock(id: nat)
    | Drain(id: nat)
    | Leave(id: nat)

  // A client that holds the read lock keeps the writer out.
  predicate Locked(s: Server) {
    exists id :: id in s.clients && s.clients[id].phase.Sending?
  }

  predicate Enabled(s: Server, a: Action) {
    match a
    case Blank(name) => s.pending == None && s.blanked == None && name in s.status
    case Store(u) =>
      s.pending == None && (s.blanked == None || s.blanked == Some(u.name)) && Kept(u) && u.name != "" && !Locked(s)
    case Broadcast => s.pending.Some?
    case Subscribe(id) => id !in s.clients
    case Lock(id) => id in s.clients && s.clients[id].phase.Subscribed?
    case Send(id, name) => id in s.clients && s.clients[id].phase.Sending? && name in s.clients[id].phase.rest &&
      name in s.status
    case Unlock(id) => id in s.clients && s.clients[id].phase == Sending({})
    case Drain(id) => id in s.clients && s.clients[id].phase.Draining? && s.clients[id].queue != []
    case Leave(id) => id in s.clients
  }

  // What a client makes of a row: it is filed under the name that the row carries.
  function Told(view: map<string, UnitStatus>, u: UnitStatus): map<string, UnitStatus> {
    view[u.name := u]
  }

  function Queued(c: Client, u: UnitStatus): Client {
    c.(queue := c.queue + [u])
  }

  function Do(s: Server, a: Action): Server
    requires Enabled(s, a)
  {
    match a
    case Blank(name) => s.(status := s.status[name := BLANK], blanked := Some(name))
    case Store(u) => s.(status := s.status[u.name := u], pending := Some(u), blanked := None)
    case Broadcast => s.(pending := None, clients := map id | id in s.clients :: Queued(s.clients[id], s.pending.value))
    case Subscribe(id) => s.(clients := s.clients[id := Client(Subscribed, [], map[])])
    case Lock(id) => s.(clients := s.clients[id := s.clients[id].(phase := Sending(s.status.Keys))])
    case Send(id, name) =>
      var c := s.clients[id];
      s.(clients := s.clients[id := c.(phase := Sending(c.phase.rest - {name}), view := Told(c.view, s.status[name]))])
    case Unlock(id) => s.(clients := s.clients[id := s.clients[id].(phase := Draining)])
    case Drain(id) =>
      var c := s.clients[id];
      s.(clients := s.clients[id := c.(queue := c.queue[1..], view := Told(c.view, c.queue[0]))])
    case Leave(id) => s.(clients := s.clients - {id})
  }

  predicate Run(s: Server, actions: seq<Action>, t: Server)
    decreases |actions|
  {
    if actions == [] then s == t
    else Enabled(s, actions[0]) && Run(Do(s, actions[0]), actions[1..], t)
  }

  predicate Initial(s: Server) {
    s == Server(map[], None, None, map[])
  }

  // --- The invariant. ---

  // The last row about x in a queue.
  function Last(queue: seq<UnitStatus>, x: string): Option<UnitStatus> {
    if queue == [] then None
    else if queue[|queue| - 1].name == x then Some(queue[|queue| - 1])
    else Last(queue[..|queue| - 1], x)
  }

  // What a client is still going to be told about x, last.
  function Coming(s: Server, c: Client, x: string): Option<UnitStatus> {
    if s.pending.Some? && s.pending.value.name == x then s.pending else Last(c.queue, x)
  }

  // Entry x of the map, unless it is blank at the moment: what a client is going to be told about
  // it last is true, and if nothing is to come, the client has been told already or will read it.
  ghost predicate EntryOk(s: Server, c: Client, x: string) {
    x != "" && s.blanked != Some(x) ==>
      if Coming(s, c, x).Some? then
        x in s.status && s.status[x] == Coming(s, c, x).value
      else
        match c.phase
        case Subscribed => true
        case Sending(rest) =>
          if x in s.status then x in rest || (x in c.view && c.view[x] == s.status[x]) else x !in c.view
        case Draining => if x in s.status then x in c.view && c.view[x] == s.status[x] else x !in c.view
  }

  ghost predicate ClientOk(s: Server, id: nat)
    requires id in s.clients
  {
    var c := s.clients[id];
    && (forall x {:trigger EntryOk(s, c, x)} :: EntryOk(s, c, x))
    && (c.phase.Subscribed? ==> c.view == map[])
    && (c.phase.Sending? ==> c.phase.rest <= s.status.Keys)
    && (forall i :: 0 <= i < |c.queue| ==> c.queue[i].name != "" && c.queue[i].name in s.status)
    && (forall x :: x in c.view ==> c.view[x].name == x)
  }

  ghost predicate RowsOk(s: Server) {
    && "" !in s.status
    && (forall x :: x in s.status && s.blanked != Some(x) ==> s.status[x].name == x && Kept(s.status[x]))
    && (s.pending.Some? ==>
         s.blanked == None && s.pending.value.name in s.status && s.status[s.pending.value.name] == s.pending.value)
    && (s.blanked.Some? ==> s.blanked.value in s.status && s.status[s.blanked.value] == BLANK)
  }

  ghost predicate Inv(s: Server) {
    RowsOk(s) && forall id {:trigger ClientOk(s, id)} :: id in s.clients ==> ClientOk(s, id)
  }

  lemma InitialInv(s: Server)
    requires Initial(s)
    ensures Inv(s)
  {
  }

  lemma {:induction false} LastOfAppend(queue: seq<UnitStatus>, u: UnitStatus, x: string)
    ensures Last(queue + [u], x) == if u.name == x then Some(u) else Last(queue, x)
  {
    assert (queue + [u])[..|queue|] == queue;
  }

  lemma {:induction false} LastOfRest(queue: seq<UnitStatus>, x: string)
    requires queue != []
    ensures Last(queue, x) ==
            if Last(queue[1..], x).Some? then Last(queue[1..], x)
            else if queue[0].name == x then Some(queue[0])
            else None
  {
    if |queue| > 1 {
      assert queue[1..][..|queue| - 2] == queue[..|queue| - 1][1..];
      LastOfRest(queue[..|queue| - 1], x);
    } else {
      assert queue[..0] == [] && queue[1..] == [];
    }
  }

  // --- The writer. ---

  lemma BlankKeepsInv(s: Server, name: string)
    requires Inv(s) && Enabled(s, Blank(name))
    ensures Inv(Do(s, Blank(name)))
  {
    var t := Do(s, Blank(name));
    forall id | id in t.clients ensures ClientOk(t, id) {
      assert ClientOk(s, id);
      forall x ensures EntryOk(t, t.clients[id], x) { assert EntryOk(s, s.clients[id], x); }
    }
  }

  lemma StoreKeepsInv(s: Server, u: UnitStatus)
    requires Inv(s) && Enabled(s, Store(u))
    ensures Inv(Do(s, Store(u)))
  {
    var t := Do(s, Store(u));
    forall id | id in t.clients ensures ClientOk(t, id) {
      assert ClientOk(s, id);
      assert !s.clients[id].phase.Sending?;
      forall x ensures EntryOk(t, t.clients[id], x) { assert EntryOk(s, s.clients[id], x); }
    }
  }

  lemma BroadcastKeepsInv(s: Server)
    requires Inv(s) && Enabled(s, Broadcast)
    ensures Inv(Do(s, Broadcast))
  {
    var t := Do(s, Broadcast);
    forall id | id in t.clients ensures ClientOk(t, id) {
      assert ClientOk(s, id);
      var c := s.clients[id];
      forall x ensures EntryOk(t, t.clients[id], x) {
        assert EntryOk(s, c, x);
        LastOfAppend(c.queue, s.pending.value, x);
      }
    }
  }

  // --- A client. ---

  // Only client `id` changes.
  lemma ClientStepKeepsInv(s: Server, t: Server, id: nat)
    requires Inv(s) && t.status == s.status && t.pending == s.pending && t.blanked == s.blanked
    requires forall i :: i != id && i in t.clients ==> i in s.clients && t.clients[i] == s.clients[i]
    requires id in t.clients ==> ClientOk(t, id)
    ensures Inv(t)
  {
    forall i | i in t.clients ensures ClientOk(t, i) {
      if i != id {
        assert ClientOk(s, i);
        forall x ensures EntryOk(t, t.clients[i], x) { assert EntryOk(s, s.clients[i], x); }
      }
    }
  }

  lemma SubscribeIsOk(s: Server, t: Server, id: nat)
    requires Inv(s) && Enabled(s, Subscribe(id)) && t == Do(s, Subscribe(id))
    ensures ClientOk(t, id)
  {
  }

  lemma LockIsOk(s: Server, t: Server, id: nat)
    requires Inv(s) && Enabled(s, Lock(id)) && t == Do(s, Lock(id))
    ensures ClientOk(t, id)
  {
    assert ClientOk(s, id);
    forall x ensures EntryOk(t, t.clients[id], x) { assert EntryOk(s, s.clients[id], x); }
  }

  lemma SendIsOk(s: Server, t: Server, id: nat, name: string)
    requires Inv(s) && Enabled(s, Send(id, name)) && t == Do(s, Send(id, name))
    ensures ClientOk(t, id)
  {
    assert ClientOk(s, id);
    forall x ensures EntryOk(t, t.clients[id], x) { assert EntryOk(s, s.clients[id], x); }
  }

  lemma UnlockIsOk(s: Server, t: Server, id: nat)
    requires Inv(s) && Enabled(s, Unlock(id)) && t == Do(s, Unlock(id))
    ensures ClientOk(t, id)
  {
    assert ClientOk(s, id);
    forall x ensures EntryOk(t, t.clients[id], x) { assert EntryOk(s, s.clients[id], x); }
  }

  lemma DrainIsOk(s: Server, t: Server, id: nat)
    requires Inv(s) && Enabled(s, Drain(id)) && t == Do(s, Drain(id))
    ensures ClientOk(t, id)
  {
    assert ClientOk(s, id);
    var c := s.clients[id];
    forall x ensures EntryOk(t, t.clients[id], x) {
      assert EntryOk(s, c, x);
      LastOfRest(c.queue, x);
    }
  }

  lemma StepKeepsInv(s: Server, a: Action)
    requires Inv(s) && Enabled(s, a)
    ensures Inv(Do(s, a))
  {
    var t := Do(s, a);
    match a {
      case Blank(name) => BlankKeepsInv(s, name);
      case Store(u) => StoreKeepsInv(s, u);
      case Broadcast => BroadcastKeepsInv(s);
      case Subscribe(id) => SubscribeIsOk(s, t, id); ClientStepKeepsInv(s, t, id);
      case Lock(id) => LockIsOk(s, t, id); ClientStepKeepsInv(s, t, id);
      case Send(id, name) => SendIsOk(s, t, id, name); ClientStepKeepsInv(s, t, id);
      case Unlock(id) => UnlockIsOk(s, t, id); ClientStepKeepsInv(s, t, id);
      case Drain(id) => DrainIsOk(s, t, id); ClientStepKeepsInv(s, t, id);
      case Leave(id) => ClientStepKeepsInv(s, t, id);
    }
  }

  lemma {:induction false} RunKeepsInv(s: Server, actions: seq<Action>, t: Server)
    requires Inv(s) && Run(s, actions, t)
    ensures Inv(t)
    decreases |actions|
  {
    if actions != [] {
      StepKeepsInv(s, actions[0]);
      RunKeepsInv(Do(s, actions[0]), actions[1..], t);
    }
  }
}
