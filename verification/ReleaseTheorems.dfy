/**
 What holds on a host in every state that any run can reach, whatever stops where and however the
 runs interleave; and what goes wrong without the two rules that the users have to keep.
 */
module ReleaseTheorems {
  import opened Entities
  import opened Release

  lemma {:induction false} RunKeepsInv(d: Disk, actions: seq<Action>, e: Disk)
    requires Inv(d) && Run(d, actions, e)
    ensures Inv(e)
    decreases |actions|
  {
    if actions != [] {
      StepKeepsInv(d, actions[0]);
      RunKeepsInv(Do(d, actions[0]), actions[1..], e);
    }
  }

  ghost predicate Reachable(d: Disk) {
    exists d0: Disk, actions: seq<Action> :: Initial(d0) && Run(d0, actions, d)
  }

  lemma ReachableInv(d: Disk)
    requires Reachable(d)
    ensures Inv(d)
  {
    var d0: Disk, actions: seq<Action> :| Initial(d0) && Run(d0, actions, d);
    InitialInv(d0);
    RunKeepsInv(d0, actions, d);
  }

  // A release directory that is not empty holds the complete extraction, and the link `current`
  // points to such a directory or nowhere.
  lemma ReleasesAreWhole(d: Disk, b: Build)
    requires Reachable(d)
    ensures !Empty(ShelfOf(d, b).release) ==> ShelfOf(d, b).release == Dir(Artifact(d, b))
    ensures d.current == Some(b) ==> ShelfOf(d, b).release == Dir(Artifact(d, b)) && Artifact(d, b) != []
  {
    ReachableInv(d);
    assert ReleaseOk(d, b);
  }

  // No step removes or replaces what is installed.
  lemma StepKeepsRelease(d: Disk, a: Action, b: Build)
    requires Inv(d) && Enabled(d, a) && !Empty(ShelfOf(d, b).release)
    ensures ShelfOf(Do(d, a), b).release == ShelfOf(d, b).release
  {
    match a {
      case Advance(id) => assert WorkerOk(d, id);
      case Erase(id, _) => assert WorkerOk(d, id);
      case _ =>
    }
  }

  lemma {:induction false} InstalledStays(d: Disk, actions: seq<Action>, e: Disk, b: Build)
    requires Inv(d) && Run(d, actions, e) && !Empty(ShelfOf(d, b).release)
    ensures ShelfOf(e, b).release == ShelfOf(d, b).release
    decreases |actions|
  {
    if actions != [] {
      StepKeepsInv(d, actions[0]);
      StepKeepsRelease(d, actions[0], b);
      InstalledStays(Do(d, actions[0]), actions[1..], e, b);
    }
  }

  // A configuration that returns success leaves the complete build behind, for the rest of every run.
  lemma {:induction false} SuccessMeansInstalled(d: Disk, id: nat, actions: seq<Action>, e: Disk)
    requires Reachable(d) && id in d.workers && d.workers[id].Configures? && CanSucceed(d, d.workers[id])
    requires Run(d, actions, e)
    ensures var b := d.workers[id].build;
            ShelfOf(e, b).release == Dir(Artifact(d, b)) && Artifact(d, b) != []
  {
    ReachableInv(d);
    var b := d.workers[id].build;
    assert WorkerOk(d, id) && ReleaseOk(d, b);
    InstalledStays(d, actions, e, b);
  }

  // --- A deployment by itself. ---

  // How far deployment `id` of build b has got, on a host whose link pointed to `was` before it.
  predicate OnCourse(d: Disk, id: nat, b: Build, was: Option<Build>) {
    id in d.workers && d.workers[id].Deploys? ==>
      && d.workers[id].build == b
      && match d.workers[id].stage
         case Checking => d.current == was
         case Checked => d.current == was
         case Switching(target, previous, back, at) =>
           && (if back then was == Some(target) && d.current == Some(b)
               else target == b && previous == was && d.current == was)
           && (at.Renaming? ==> d.currentTmp == Some(target))
         case Switched(previous, back) => if back then d.current == was else previous == was && d.current == Some(b)
  }

  predicate NoOtherDeployment(d: Disk, id: nat) {
    forall i :: i in d.workers && i != id ==> d.workers[i].Configures?
  }

  lemma StepKeepsCourse(d: Disk, a: Action, id: nat, b: Build, was: Option<Build>)
    requires OnCourse(d, id, b, was) && NoOtherDeployment(d, id) && Enabled(d, a) && !a.Deploy?
    ensures OnCourse(Do(d, a), id, b, was) && NoOtherDeployment(Do(d, a), id)
  {
  }

  lemma {:induction false} RunKeepsCourse(
      d: Disk, actions: seq<Action>, e: Disk, id: nat, b: Build, was: Option<Build>)
    requires OnCourse(d, id, b, was) && NoOtherDeployment(d, id) && AnyRun(d, actions, e)
    requires forall a :: a in actions ==> !a.Deploy?
    ensures OnCourse(e, id, b, was)
    decreases |actions|
  {
    if actions != [] {
      StepKeepsCourse(d, actions[0], id, b, was);
      RunKeepsCourse(Do(d, actions[0]), actions[1..], e, id, b, was);
    }
  }

  // A deployment that no other one interferes with, whatever configurations go on: it can return
  // success only when the link points to its own build, and a finished rollback has left the link
  // where it was.  Until its switch the link has not moved.
  lemma {:induction false} LoneDeploymentSwitches(
      d: Disk, id: nat, b: Build, p: Program, actions: seq<Action>, e: Disk)
    requires id !in d.workers && NoOtherDeployment(d, id) && AnyRun(Do(d, Deploy(id, b, p)), actions, e)
    requires forall a :: a in actions ==> !a.Deploy?
    requires id in e.workers && e.workers[id].Deploys?
    ensures CanSucceed(e, e.workers[id]) ==> e.current == Some(b)
    ensures e.workers[id].stage.Switched? && e.workers[id].stage.back ==> e.current == d.current
    ensures !e.workers[id].stage.Switched? && !(e.workers[id].stage.Switching? && e.workers[id].stage.back) ==>
              e.current == d.current
  {
    RunKeepsCourse(Do(d, Deploy(id, b, p)), actions, e, id, b, d.current);
  }

  // --- Without the rules. ---

  // A host in order on which release b is empty, and the path of the program leads somewhere.
  function Lure(b: Build, p: Program): Disk {
    var empty := Shelf(Dir([]), Absent, Upto(0));
    match p
    case InRelease(c, None) => Disk(map[], map[c := empty][b := empty], {}, None, None, map[])
    case InRelease(c, Some(path)) =>
      var all := [Create(path)];
      Disk(map[c := all], map[c := Shelf(Dir(all), Absent, Upto(0))][b := empty], {}, None, None, map[])
    case Elsewhere(file) => Disk(map[], map[b := empty], {file}, None, None, map[])
  }

  lemma LureWorks(b: Build, p: Program)
    requires !LiesInside(b, p)
    ensures Inv(Lure(b, p)) && Validates(Lure(b, p), b, p) && !Complete(Lure(b, p), b)
  {
    var d := Lure(b, p);
    forall c ensures ReleaseOk(d, c) {}
    if p.InRelease? && p.path.Some? {
      assert ShelfOf(d, p.build).release.writes[0].path == p.path.value;
    }
  }

  // What the program checks before a deployment shows that the release is complete exactly when
  // the configured path leads into that release.
  lemma CheckIsWorthItsPath(b: Build, p: Program)
    ensures (forall d: Disk :: Inv(d) && Validates(d, b, p) ==> Complete(d, b)) <==> LiesInside(b, p)
  {
    if LiesInside(b, p) {
      forall d: Disk | Inv(d) && Validates(d, b, p) ensures Complete(d, b) {
        assert ReleaseOk(d, b);
        ValidatedIsComplete(d, b, p);
      }
    } else {
      LureWorks(b, p);
    }
  }

  lemma {:induction false} AnyRunExtends(d: Disk, actions: seq<Action>, m: Disk, a: Action)
    requires AnyRun(d, actions, m) && Enabled(m, a)
    ensures AnyRun(d, actions + [a], Do(m, a))
    decreases |actions|
  {
    if actions == [] {
      assert AnyRun(Do(m, a), [], Do(m, a));
      assert (actions + [a])[1..] == [];
    } else {
      AnyRunExtends(Do(d, actions[0]), actions[1..], m, a);
      assert (actions + [a])[1..] == actions[1..] + [a];
    }
  }

  // Two configurations of build 0, whose artifact is `all`, and nothing else.
  function Two(all: seq<Write>, s: Shelf, p: Phase, q: Phase): Disk {
    Disk(map[0 := all], map[0 := s], {}, None, None, map[1 := Configures(0, p), 2 := Configures(0, q)])
  }

  function Fresh(all: seq<Write>): Disk {
    Disk(map[0 := all], map[0 := Shelf(Absent, Absent, Upto(0))], {}, None, None, map[])
  }

  ghost predicate CanReach(all: seq<Write>, d: Disk) {
    exists actions: seq<Action> :: AnyRun(Fresh(all), actions, d)
  }

  lemma Follow(all: seq<Write>, d: Disk, a: Action)
    requires CanReach(all, d) && Enabled(d, a)
    ensures CanReach(all, Do(d, a))
  {
    var actions: seq<Action> :| AnyRun(Fresh(all), actions, d);
    AnyRunExtends(Fresh(all), actions, d, a);
  }

  lemma OneOfTwoWorks(all: seq<Write>, s: Shelf, p: Phase, q: Phase, s': Shelf, p': Phase)
    ensures Worked(Two(all, s, p, q), 1, 0, s', p') == Two(all, s', p', q)
    ensures Worked(Two(all, s, p, q), 2, 0, s', p') == Two(all, s', p, p')
  {
    var workers := map[1 := Configures(0, p), 2 := Configures(0, q)];
    assert map[0 := s][0 := s'] == map[0 := s'];
    assert workers[1 := Configures(0, p')] == map[1 := Configures(0, p'), 2 := Configures(0, q)];
    assert workers[2 := Configures(0, p')] == map[1 := Configures(0, p), 2 := Configures(0, p')];
  }

  lemma BothStart(all: seq<Write>)
    ensures CanReach(all, Two(all, Shelf(Absent, Absent, Upto(0)), Begun, Begun))
  {
    assert AnyRun(Fresh(all), [], Fresh(all));
    Follow(all, Fresh(all), Configure(1, 0));
    var d := Do(Fresh(all), Configure(1, 0));
    Follow(all, d, Configure(2, 0));
    assert Do(d, Configure(2, 0)).workers == map[1 := Configures(0, Begun), 2 := Configures(0, Begun)];
    assert Do(d, Configure(2, 0)).shelves == map[0 := Shelf(Absent, Absent, Upto(0))];
  }

  lemma OneAdvances(all: seq<Write>, s: Shelf, p: Phase, q: Phase)
    requires CanReach(all, Two(all, s, p, q)) && CanAdvance(s, all, p)
    ensures CanReach(all, Two(all, NextShelf(s, all, p), NextPhase(all, p), q))
  {
    OneOfTwoWorks(all, s, p, q, NextShelf(s, all, p), NextPhase(all, p));
    Follow(all, Two(all, s, p, q), Advance(1));
  }

  lemma TwoAdvances(all: seq<Write>, s: Shelf, p: Phase, q: Phase)
    requires CanReach(all, Two(all, s, p, q)) && CanAdvance(s, all, q)
    ensures CanReach(all, Two(all, NextShelf(s, all, q), p, NextPhase(all, q)))
  {
    OneOfTwoWorks(all, s, p, q, NextShelf(s, all, q), NextPhase(all, q));
    Follow(all, Two(all, s, p, q), Advance(2));
  }

  // A download in one chunk.
  lemma OneReceives(all: seq<Write>, s: Shelf, q: Phase)
    requires CanReach(all, Two(all, s, Downloading(0), q)) && s.archive == Upto(0)
    ensures CanReach(all, Two(all, s.(archive := Upto(|all|)), Downloading(|all|), q))
  {
    OneOfTwoWorks(all, s, Downloading(0), q, s.(archive := Upto(|all|)), Downloading(|all|));
    Follow(all, Two(all, s, Downloading(0), q), Receive(1, |all|));
  }

  lemma TwoReceives(all: seq<Write>, s: Shelf, p: Phase)
    requires CanReach(all, Two(all, s, p, Downloading(0))) && s.archive == Upto(0)
    ensures CanReach(all, Two(all, s.(archive := Upto(|all|)), p, Downloading(|all|)))
  {
    OneOfTwoWorks(all, s, p, Downloading(0), s.(archive := Upto(|all|)), Downloading(|all|));
    Follow(all, Two(all, s, p, Downloading(0)), Receive(2, |all|));
  }

  lemma WithoutIsShorter(writes: seq<Write>, path: string)
    requires exists w :: w in writes && w.path == path
    ensures |Without(writes, path)| < |writes|
  {
    var n := |writes| - 1;
    assert writes == writes[..n] + [writes[n]];
    if writes[n].path != path { WithoutIsShorter(writes[..n], path); }
  }

  lemma {:induction false} TwoErasesAll(all: seq<Write>, s: Shelf, p: Phase, writes: seq<Write>)
    requires CanReach(all, Two(all, s, p, Clearing)) && s.temp == Dir(writes)
    ensures CanReach(all, Two(all, s.(temp := Dir([])), p, Clearing))
    decreases |writes|
  {
    if writes != [] {
      var path := writes[0].path;
      var t := Erased(s, Clearing, path);
      OneOfTwoWorks(all, s, p, Clearing, t, Clearing);
      Follow(all, Two(all, s, p, Clearing), Erase(2, path));
      WithoutIsShorter(writes, path);
      TwoErasesAll(all, t, p, t.temp.writes);
    }
  }

  // Both runs find the release empty, and run 1 downloads,
  lemma BothFindItEmpty(all: seq<Write>)
    ensures CanReach(all, Two(all, Shelf(Dir([]), Absent, Upto(|all|)), Downloaded, FoundEmpty))
  {
    BothStart(all);
    OneAdvances(all, Shelf(Absent, Absent, Upto(0)), Begun, Begun);
    var s := Shelf(Dir([]), Absent, Upto(0));
    TwoAdvances(all, s, Ensured, Begun);
    OneAdvances(all, s, Ensured, Ensured);
    TwoAdvances(all, s, FoundEmpty, Ensured);
    OneAdvances(all, s, FoundEmpty, FoundEmpty);
    OneReceives(all, s, FoundEmpty);
    OneAdvances(all, s.(archive := Upto(|all|)), Downloading(|all|), FoundEmpty);
  }

  // The temporary directory after n writes.
  function Extracted(all: seq<Write>, n: nat): Content
    requires n <= |all|
  {
    if n == 0 then Absent else Dir(all[..n])
  }

  // extracts,
  lemma {:induction false} OneWrites(all: seq<Write>, n: nat)
    requires CanReach(all, Two(all, Shelf(Dir([]), Absent, Upto(|all|)), Extracting(0), FoundEmpty)) && n <= |all|
    ensures CanReach(all, Two(all, Shelf(Dir([]), Extracted(all, n), Upto(|all|)), Extracting(n), FoundEmpty))
  {
    if n > 0 {
      OneWrites(all, n - 1);
      OneAdvances(all, Shelf(Dir([]), Extracted(all, n - 1), Upto(|all|)), Extracting(n - 1), FoundEmpty);
      assert all[..n] == all[..n - 1] + [all[n - 1]];
      assert Written(Extracted(all, n - 1), all[n - 1]) == Extracted(all, n);
    }
  }

  // and is about to rename the directory it has extracted.
  lemma OneExtracts(all: seq<Write>)
    requires all != []
    ensures CanReach(all, Two(all, Shelf(Absent, Dir(all), Upto(|all|)), Cleared, FoundEmpty))
  {
    BothFindItEmpty(all);
    OneAdvances(all, Shelf(Dir([]), Absent, Upto(|all|)), Downloaded, FoundEmpty);
    OneAdvances(all, Shelf(Dir([]), Dir([]), Upto(|all|)), Clearing, FoundEmpty);
    OneWrites(all, |all|);
    assert all[..|all|] == all;
    OneAdvances(all, Shelf(Dir([]), Dir(all), Upto(|all|)), Extracting(|all|), FoundEmpty);
    OneAdvances(all, Shelf(Dir([]), Dir(all), Upto(|all|)), Replacing, FoundEmpty);
  }

  // Then run 2 downloads too, clears that directory
  lemma TwoClears(all: seq<Write>)
    requires all != []
    ensures CanReach(all, Two(all, Shelf(Absent, Absent, Upto(|all|)), Cleared, Extracting(0)))
  {
    OneExtracts(all);
    TwoAdvances(all, Shelf(Absent, Dir(all), Upto(|all|)), Cleared, FoundEmpty);
    TwoReceives(all, Shelf(Absent, Dir(all), Upto(0)), Cleared);
    TwoAdvances(all, Shelf(Absent, Dir(all), Upto(|all|)), Cleared, Downloading(|all|));
    TwoAdvances(all, Shelf(Absent, Dir(all), Upto(|all|)), Cleared, Downloaded);
    TwoErasesAll(all, Shelf(Absent, Dir(all), Upto(|all|)), Cleared, all);
    TwoAdvances(all, Shelf(Absent, Dir([]), Upto(|all|)), Cleared, Clearing);
  }

  // and begins to extract,
  lemma {:induction false} TwoWrites(all: seq<Write>, n: nat)
    requires all != [] && n <= |all|
    ensures CanReach(all, Two(all, Shelf(Absent, Extracted(all, n), Upto(|all|)), Cleared, Extracting(n)))
  {
    if n == 0 {
      TwoClears(all);
    } else {
      TwoWrites(all, n - 1);
      TwoAdvances(all, Shelf(Absent, Extracted(all, n - 1), Upto(|all|)), Cleared, Extracting(n - 1));
      assert all[..n] == all[..n - 1] + [all[n - 1]];
      assert Written(Extracted(all, n - 1), all[n - 1]) == Extracted(all, n);
    }
  }

  // and run 1 installs what run 2 has written so far.  So for every build of more than one write,
  // two configurations that overlap can leave any part of it, up to some write, as the release.
  lemma OverlapCanInstallAPart(all: seq<Write>, n: nat)
    requires 0 < n < |all|
    ensures Initial(Fresh(all))
    ensures exists actions: seq<Action>, d: Disk ::
              && AnyRun(Fresh(all), actions, d) && Artifact(d, 0) == all
              && ShelfOf(d, 0).release == Dir(all[..n]) && !ReleaseOk(d, 0)
  {
    TwoWrites(all, n);
    OneAdvances(all, Shelf(Absent, Dir(all[..n]), Upto(|all|)), Cleared, Extracting(n));
    var d := Two(all, Shelf(Dir(all[..n]), Absent, Upto(|all|)), Installed, Extracting(n));
    var actions: seq<Action> :| AnyRun(Fresh(all), actions, d);
  }
}
