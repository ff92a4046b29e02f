/**
 Installing builds on one host.  Configuration runs put a build under build-release/<id> by way of a
 temporary directory; deployment runs point the link `current` at it.  Every file-system operation
 is one step, runs interleave freely, and a run may stop at any point: with an error, or because the
 process dies.
 */
module Release {
  import opened Entities

  type Build = nat

  // What extracting an archive does to a directory, operation by operation.
  datatype Write =
    | MakeDir(path: string)
    | Create(path: string)
    | Append(path: string, data: string)

  datatype Content = Absent | Dir(writes: seq<Write>)

  // A downloaded archive: so much of the artifact, or bytes that two downloads have mixed up.
  datatype Archive = Upto(n: nat) | Garbled

  // The directory build-release/<id>, its .tmp neighbour, and the downloaded archive of one build.
  datatype Shelf = Shelf(release: Content, temp: Content, archive: Archive)

  // What a configuration run has done so far, from the release directory on.
  datatype Phase =
    | Begun
    | Ensured                  // the release directory exists
    | FoundEmpty               // ... and had nothing in it
    | Downloading(total: nat)
    | Downloaded               // ... as many bytes as recorded
    | Clearing                 // removes the old temporary directory
    | Extracting(done: nat)
    | Replacing                // removes the old release directory
    | Cleared
    | Installed

  // Where a switch of the link stands; `back` is the switch that undoes one.
  datatype Switch = Removing | Linking | Renaming

  datatype Stage =
    | Checking
    | Checked
    | Switching(target: Build, previous: Option<Build>, back: bool, at: Switch)
    | Switched(previous: Option<Build>, back: bool)

  // Where the configured path of the program leads, once it is joined with the release directory
  // and cleaned: into a release directory, this one or another, or to some other file.  No path
  // means the directory itself.
  datatype Program =
    | InRelease(build: Build, path: Option<string>)
    | Elsewhere(file: string)

  datatype Worker =
    | Configures(build: Build, phase: Phase)
    | Deploys(build: Build, program: Program, stage: Stage)

  datatype Disk = Disk(
    artifacts: map<Build, seq<Write>>,
    shelves: map<Build, Shelf>,
    elsewhere: set<string>,
    current: Option<Build>,
    currentTmp: Option<Build>,
    workers: map<nat, Worker>)

  datatype Action =
    | Configure(id: nat, build: Build)
    | Deploy(id: nat, build: Build, program: Program)
    | Stop(id: nat)
    | Succeed(id: nat)
    | Receive(id: nat, n: nat)
    | Erase(id: nat, path: string)
    | Advance(id: nat)
    | RollBack(id: nat)

  function ShelfOf(d: Disk, b: Build): Shelf {
    if b in d.shelves then d.shelves[b] else Shelf(Absent, Absent, Upto(0))
  }

  function Artifact(d: Disk, b: Build): seq<Write> {
    if b in d.artifacts then d.artifacts[b] else []
  }

  predicate Empty(c: Content) {
    c == Absent || c == Dir([])
  }

  function EnsureDir(c: Content): Content {
    if c == Absent then Dir([]) else c
  }

  function Written(c: Content, w: Write): Content {
    if c == Absent then Dir([w]) else Dir(c.writes + [w])
  }

  predicate Contains(c: Content, path: string) {
    c.Dir? && exists i :: 0 <= i < |c.writes| && c.writes[i].path == path
  }

  // The archive after n more pieces are written behind the first `total`.
  function Stored(a: Archive, total: nat, n: nat): Archive {
    if a.Garbled? || a.n < total then Garbled
    else if a.n < total + n then Upto(total + n)
    else a
  }

  // --- Configuration runs, on the shelf of a build with the given artifact. ---

  // Whether the next operation can succeed.
  predicate CanAdvance(s: Shelf, artifact: seq<Write>, p: Phase) {
    match p
    case Begun => true
    case Ensured => s.release == Dir([])
    case FoundEmpty => true
    case Downloading(total) => total == |artifact|
    case Downloaded => true
    case Clearing => Empty(s.temp)
    case Extracting(i) => s.archive.Upto? && (i < |artifact| ==> i < s.archive.n)
    case Replacing => Empty(s.release)
    case Cleared => s.temp.Dir? && Empty(s.release)
    case Installed => false
  }

  function NextPhase(artifact: seq<Write>, p: Phase): Phase {
    match p
    case Begun => Ensured
    case Ensured => FoundEmpty
    case FoundEmpty => Downloading(0)
    case Downloading(_) => Downloaded
    case Downloaded => Clearing
    case Clearing => Extracting(0)
    case Extracting(i) => if i < |artifact| then Extracting(i + 1) else Replacing
    case Replacing => Cleared
    case Cleared => Installed
    case Installed => Installed
  }

  function NextShelf(s: Shelf, artifact: seq<Write>, p: Phase): Shelf {
    match p
    case Begun => s.(release := EnsureDir(s.release))
    case Ensured => s
    case FoundEmpty => s.(archive := Upto(0))
    case Downloading(_) => s
    case Downloaded => s.(temp := EnsureDir(s.temp))
    case Clearing => s.(temp := Absent)
    case Extracting(i) => if i < |artifact| then s.(temp := Written(s.temp, artifact[i])) else s
    case Replacing => s.(release := Absent)
    case Cleared => s.(release := s.temp, temp := Absent)
    case Installed => s
  }

  // Removing a directory goes path by path.
  predicate CanErase(s: Shelf, p: Phase, path: string) {
    (p.Clearing? && Contains(s.temp, path)) || (p.Replacing? && Contains(s.release, path))
  }

  function Without(writes: seq<Write>, path: string): (rest: seq<Write>)
    ensures forall w :: w in rest <==> w in writes && w.path != path
    ensures |rest| <= |writes|
  {
    if writes == [] then []
    else
      var front := Without(writes[..|writes| - 1], path);
      assert writes == writes[..|writes| - 1] + [writes[|writes| - 1]];
      if writes[|writes| - 1].path == path then front else front + [writes[|writes| - 1]]
  }

  function Erased(s: Shelf, p: Phase, path: string): Shelf
    requires CanErase(s, p, path)
  {
    if p.Clearing? then s.(temp := Dir(Without(s.temp.writes, path)))
    else s.(release := Dir(Without(s.release.writes, path)))
  }

  // A run succeeds at its end, or early on a release directory that is not empty.
  predicate CanSucceed(d: Disk, w: Worker) {
    match w
    case Configures(b, p) => p.Installed? || (p.Ensured? && !Empty(ShelfOf(d, b).release))
    case Deploys(_, _, stage) => stage.Switched? && !stage.back
  }

  // --- Deployment runs. ---

  predicate Exists(d: Disk, p: Program) {
    match p
    case InRelease(b, None) => ShelfOf(d, b).release.Dir?
    case InRelease(b, Some(path)) => Contains(ShelfOf(d, b).release, path)
    case Elsewhere(file) => file in d.elsewhere
  }

  // The release exists, and so does what the path of the program leads to.
  predicate Validates(d: Disk, b: Build, p: Program) {
    ShelfOf(d, b).release.Dir? && Exists(d, p)
  }

  // The path leads into the release that is deployed.
  predicate LiesInside(b: Build, p: Program) {
    p.InRelease? && p.build == b && p.path.Some?
  }

  predicate CanMoveOn(d: Disk, w: Worker)
    requires w.Deploys?
  {
    match w.stage
    case Checking => Validates(d, w.build, w.program)
    case Checked => true
    case Switching(_, _, _, at) => (at.Linking? ==> d.currentTmp == None) && (at.Renaming? ==> d.currentTmp.Some?)
    case Switched(_, _) => false
  }

  function MovedOn(d: Disk, id: nat, w: Worker): Disk
    requires w.Deploys?
  {
    match w.stage
    case Checking => d.(workers := d.workers[id := w.(stage := Checked)])
    case Checked => d.(workers := d.workers[id := w.(stage := Switching(w.build, d.current, false, Removing))])
    case Switching(target, previous, back, at) =>
      (match at
       case Removing =>
         d.(currentTmp := None, workers := d.workers[id := w.(stage := Switching(target, previous, back, Linking))])
       case Linking =>
         d.(currentTmp := Some(target),
            workers := d.workers[id := w.(stage := Switching(target, previous, back, Renaming))])
       case Renaming =>
         d.(current := d.currentTmp, currentTmp := None,
            workers := d.workers[id := w.(stage := Switched(previous, back))]))
    case Switched(_, _) => d
  }

  predicate CanRollBack(w: Worker) {
    w.Deploys? && w.stage.Switched? && !w.stage.back && w.stage.previous.Some?
  }

  // --- Steps. ---

  predicate Enabled(d: Disk, a: Action) {
    match a
    case Configure(id, b) => id !in d.workers
    case Deploy(id, b, p) => id !in d.workers
    case Stop(id) => id in d.workers
    case Succeed(id) => id in d.workers && CanSucceed(d, d.workers[id])
    case Receive(id, n) => id in d.workers && d.workers[id].Configures? && d.workers[id].phase.Downloading?
    case Erase(id, path) =>
      id in d.workers && d.workers[id].Configures? &&
          CanErase(ShelfOf(d, d.workers[id].build), d.workers[id].phase, path)
    case Advance(id) =>
      && id in d.workers
      && (if d.workers[id].Configures? then
            CanAdvance(ShelfOf(d, d.workers[id].build), Artifact(d, d.workers[id].build), d.workers[id].phase)
          else CanMoveOn(d, d.workers[id]))
    case RollBack(id) => id in d.workers && CanRollBack(d.workers[id])
  }

  // A configuration run changes its shelf and gets to another phase.
  function Worked(d: Disk, id: nat, b: Build, s: Shelf, p: Phase): Disk {
    d.(shelves := d.shelves[b := s], workers := d.workers[id := Configures(b, p)])
  }

  function Do(d: Disk, a: Action): Disk
    requires Enabled(d, a)
  {
    match a
    case Configure(id, b) => Worked(d, id, b, ShelfOf(d, b), Begun)
    case Deploy(id, b, p) => d.(workers := d.workers[id := Deploys(b, p, Checking)])
    case Stop(id) => d.(workers := d.workers - {id})
    case Succeed(id) => d.(workers := d.workers - {id})
    case Receive(id, n) =>
      var b, total := d.workers[id].build, d.workers[id].phase.total;
      Worked(d, id, b, ShelfOf(d, b).(archive := Stored(ShelfOf(d, b).archive, total, n)), Downloading(total + n))
    case Erase(id, path) =>
      var b, p := d.workers[id].build, d.workers[id].phase;
      Worked(d, id, b, Erased(ShelfOf(d, b), p, path), p)
    case Advance(id) =>
      if d.workers[id].Configures? then
        var b, p := d.workers[id].build, d.workers[id].phase;
        Worked(d, id, b, NextShelf(ShelfOf(d, b), Artifact(d, b), p), NextPhase(Artifact(d, b), p))
      else
        MovedOn(d, id, d.workers[id])
    case RollBack(id) =>
      var w := d.workers[id];
      d.(workers := d.workers[id := w.(stage := Switching(w.stage.previous.value, None, true, Removing))])
  }

  // Runs of any kind.
  predicate AnyRun(d: Disk, actions: seq<Action>, e: Disk)
    decreases |actions|
  {
    if actions == [] then d == e
    else Enabled(d, actions[0]) && AnyRun(Do(d, actions[0]), actions[1..], e)
  }

  // The two things that the program leaves to its users: no configuration starts while another one
  // of the same build goes on, and the configured program lies inside the release.
  predicate Disciplined(d: Disk, a: Action) {
    && (a.Configure? ==> forall id :: id in d.workers && d.workers[id].Configures? ==> d.workers[id].build != a.build)
    && (a.Deploy? ==> LiesInside(a.build, a.program))
  }

  predicate Run(d: Disk, actions: seq<Action>, e: Disk)
    decreases |actions|
  {
    if actions == [] then d == e
    else Enabled(d, actions[0]) && Disciplined(d, actions[0]) && Run(Do(d, actions[0]), actions[1..], e)
  }

  predicate Initial(d: Disk) {
    && d.workers == map[] && d.current == None && d.currentTmp == None
    && forall b :: b in d.shelves ==> Empty(d.shelves[b].release)
  }

  // --- The invariant. ---

  // The complete extraction is in place.
  predicate Whole(s: Shelf, artifact: seq<Write>) {
    s.release == Dir(artifact) && artifact != []
  }

  predicate Complete(d: Disk, b: Build) {
    Whole(ShelfOf(d, b), Artifact(d, b))
  }

  predicate ReleaseOk(d: Disk, b: Build) {
    Empty(ShelfOf(d, b).release) || Complete(d, b)
  }

  // A run that goes to replace the release has found it empty, and nobody has filled it since.
  predicate PhaseOk(s: Shelf, artifact: seq<Write>, p: Phase) {
    match p
    case Begun => true
    case Ensured => true
    case FoundEmpty => Empty(s.release)
    case Downloading(total) => Empty(s.release) && s.archive == Upto(total)
    case Downloaded => Empty(s.release) && s.archive == Upto(|artifact|)
    case Clearing => Empty(s.release) && s.archive == Upto(|artifact|)
    case Extracting(i) =>
      && Empty(s.release) && s.archive == Upto(|artifact|)
      && i <= |artifact| && s.temp == if i == 0 then Absent else Dir(artifact[..i])
    case Replacing => Empty(s.release) && s.temp == if artifact == [] then Absent else Dir(artifact)
    case Cleared => Empty(s.release) && s.temp == if artifact == [] then Absent else Dir(artifact)
    case Installed => Whole(s, artifact)
  }

  lemma AdvanceKeepsPhaseOk(s: Shelf, artifact: seq<Write>, p: Phase)
    requires CanAdvance(s, artifact, p) && PhaseOk(s, artifact, p)
    requires Empty(s.release) || Whole(s, artifact)
    ensures PhaseOk(NextShelf(s, artifact, p), artifact, NextPhase(artifact, p))
    ensures Empty(NextShelf(s, artifact, p).release) || Whole(NextShelf(s, artifact, p), artifact)
    ensures Whole(s, artifact) ==> Whole(NextShelf(s, artifact, p), artifact)
  {
    if p.Extracting? && p.done < |artifact| {
      assert artifact[..p.done + 1] == artifact[..p.done] + [artifact[p.done]];
    }
  }

  // Deployments handle complete releases only.
  ghost predicate DeployOk(d: Disk, w: Worker)
    requires w.Deploys?
  {
    && LiesInside(w.build, w.program)
    && match w.stage
       case Checking => true
       case Checked => Complete(d, w.build)
       case Switching(target, previous, _, _) => Complete(d, target) && (previous.Some? ==> Complete(d, previous.value))
       case Switched(previous, _) => previous.Some? ==> Complete(d, previous.value)
  }

  ghost predicate WorkerOk(d: Disk, id: nat)
    requires id in d.workers
  {
    var w := d.workers[id];
    if w.Configures? then PhaseOk(ShelfOf(d, w.build), Artifact(d, w.build), w.phase) else DeployOk(d, w)
  }

  ghost predicate Apart(d: Disk, i: nat, j: nat)
    requires i in d.workers && j in d.workers
  {
    i != j && d.workers[i].Configures? && d.workers[j].Configures? ==> d.workers[i].build != d.workers[j].build
  }

  ghost predicate Inv(d: Disk) {
    && (forall b {:trigger ReleaseOk(d, b)} :: ReleaseOk(d, b))
    && (forall id {:trigger WorkerOk(d, id)} :: id in d.workers ==> WorkerOk(d, id))
    && (forall i, j {:trigger Apart(d, i, j)} :: i in d.workers && j in d.workers ==> Apart(d, i, j))
    && (d.current.Some? ==> Complete(d, d.current.value))
    && (d.currentTmp.Some? ==> Complete(d, d.currentTmp.value))
  }

  lemma InitialInv(d: Disk)
    requires Initial(d)
    ensures Inv(d)
  {
  }

  // --- One step of the run `id`, which touches the files of build b only. ---

  // No configuration run but `id` works on b.
  ghost predicate Alone(d: Disk, id: nat, b: Build) {
    forall i :: i in d.workers && i != id && d.workers[i].Configures? ==> d.workers[i].build != b
  }

  ghost predicate Touches(d: Disk, e: Disk, id: nat, b: Build) {
    && e.artifacts == d.artifacts
    && (forall c :: c != b ==> ShelfOf(e, c) == ShelfOf(d, c))
    && (Complete(d, b) ==> Complete(e, b))
    && e.workers - {id} == d.workers - {id}
    && (ShelfOf(e, b) == ShelfOf(d, b) || Alone(d, id, b))
    && (id in e.workers && e.workers[id].Configures? ==> e.workers[id].build == b && Alone(d, id, b))
  }

  lemma CompleteStays(d: Disk, e: Disk, id: nat, b: Build, c: Build)
    requires Touches(d, e, id, b)
    ensures Complete(d, c) ==> Complete(e, c)
  {
  }

  // A run whose build is not touched goes on as before.
  lemma BystanderStaysOk(d: Disk, e: Disk, id: nat, b: Build, i: nat)
    requires Touches(d, e, id, b) && i != id && i in d.workers && i in e.workers && e.workers[i] == d.workers[i]
    requires WorkerOk(d, i)
    ensures WorkerOk(e, i)
  {
    var w := d.workers[i];
    CompleteStays(d, e, id, b, w.build);
    if w.Deploys? { DeploymentStaysOk(d, e, id, b, w); }
  }

  lemma DeploymentStaysOk(d: Disk, e: Disk, id: nat, b: Build, w: Worker)
    requires Touches(d, e, id, b) && w.Deploys? && DeployOk(d, w)
    ensures DeployOk(e, w)
  {
    CompleteStays(d, e, id, b, w.build);
    match w.stage {
      case Switching(target, previous, _, _) =>
        CompleteStays(d, e, id, b, target);
        if previous.Some? { CompleteStays(d, e, id, b, previous.value); }
      case Switched(previous, _) =>
        if previous.Some? { CompleteStays(d, e, id, b, previous.value); }
      case _ =>
    }
  }

  lemma TouchKeepsInv(d: Disk, e: Disk, id: nat, b: Build)
    requires Inv(d) && Touches(d, e, id, b)
    requires ReleaseOk(e, b)
    requires id in e.workers ==> WorkerOk(e, id)
    requires e.current.Some? ==> Complete(e, e.current.value)
    requires e.currentTmp.Some? ==> Complete(e, e.currentTmp.value)
    ensures Inv(e)
  {
    OthersStay(d, e, id);
    forall c ensures ReleaseOk(e, c) { assert ReleaseOk(d, c); }
    forall i | i in e.workers ensures WorkerOk(e, i) {
      if i != id {
        assert WorkerOk(d, i);
        BystanderStaysOk(d, e, id, b, i);
      }
    }
    forall i, j | i in e.workers && j in e.workers ensures Apart(e, i, j) {
      assert i != id && j != id ==> Apart(d, i, j);
    }
  }

  lemma OthersStay(d: Disk, e: Disk, id: nat)
    requires e.workers - {id} == d.workers - {id}
    ensures forall i :: i != id ==> (i in e.workers <==> i in d.workers)
    ensures forall i :: i != id && i in e.workers && i in d.workers ==> e.workers[i] == d.workers[i]
  {
    forall i | i != id ensures i in e.workers <==> i in d.workers {
      assert i in e.workers - {id} <==> i in d.workers - {id};
    }
    forall i | i != id && i in e.workers && i in d.workers ensures e.workers[i] == d.workers[i] {
      assert e.workers[i] == (e.workers - {id})[i] && d.workers[i] == (d.workers - {id})[i];
    }
  }

  lemma ConfigurationIsAlone(d: Disk, id: nat)
    requires Inv(d) && id in d.workers && d.workers[id].Configures?
    ensures Alone(d, id, d.workers[id].build)
  {
    forall i | i in d.workers && i != id && d.workers[i].Configures? ensures d.workers[i].build != d.workers[id].build {
      assert Apart(d, i, id);
    }
  }

  // A configuration run works on its shelf.
  lemma WorkKeepsInv(d: Disk, id: nat, b: Build, s: Shelf, p: Phase)
    requires Inv(d) && id in d.workers && d.workers[id].Configures? && d.workers[id].build == b
    requires PhaseOk(s, Artifact(d, b), p) && (Empty(s.release) || Whole(s, Artifact(d, b)))
    requires Complete(d, b) ==> Whole(s, Artifact(d, b))
    ensures Inv(Worked(d, id, b, s, p))
  {
    var e := Worked(d, id, b, s, p);
    ConfigurationIsAlone(d, id);
    assert ReleaseOk(d, b);
    CurrentStays(d, e, id, b);
    TouchKeepsInv(d, e, id, b);
  }

  lemma CurrentStays(d: Disk, e: Disk, id: nat, b: Build)
    requires Inv(d) && Touches(d, e, id, b) && e.current == d.current && e.currentTmp == d.currentTmp
    ensures e.current.Some? ==> Complete(e, e.current.value)
    ensures e.currentTmp.Some? ==> Complete(e, e.currentTmp.value)
  {
    if d.current.Some? { CompleteStays(d, e, id, b, d.current.value); }
    if d.currentTmp.Some? { CompleteStays(d, e, id, b, d.currentTmp.value); }
  }

  // A program inside a release that is not partial: the release is complete.
  lemma ValidatedIsComplete(d: Disk, b: Build, p: Program)
    requires ReleaseOk(d, b) && LiesInside(b, p) && Validates(d, b, p)
    ensures Complete(d, b)
  {
  }

  lemma DeploymentKeepsInv(d: Disk, e: Disk, id: nat)
    requires Inv(d) && id in d.workers && d.workers[id].Deploys? && CanMoveOn(d, d.workers[id])
    requires e == MovedOn(d, id, d.workers[id])
    ensures Inv(e)
  {
    var w := d.workers[id];
    assert WorkerOk(d, id) && ReleaseOk(d, w.build);
    MoveTouchesNoFile(d, e, id, w);
    MovesOnTo(d, e, id, w);
    TouchKeepsInv(d, e, id, w.build);
  }

  // A deployment changes no file, only the links and its own stage.
  ghost predicate SameDisk(d: Disk, e: Disk) {
    e.artifacts == d.artifacts && e.shelves == d.shelves && e.elsewhere == d.elsewhere
  }

  lemma MoveTouchesNoFile(d: Disk, e: Disk, id: nat, w: Worker)
    requires id in d.workers && d.workers[id] == w && w.Deploys? && CanMoveOn(d, w) && e == MovedOn(d, id, w)
    ensures SameDisk(d, e) && id in e.workers && e.workers[id].Deploys? && e.workers - {id} == d.workers - {id}
  {
    var after := e.workers[id];
    assert e.workers == d.workers[id := after];
    OneWorkerMoves(d.workers, id, after);
  }

  lemma OneWorkerMoves(workers: map<nat, Worker>, id: nat, after: Worker)
    ensures workers[id := after] - {id} == workers - {id}
  {
  }

  lemma MovesOnTo(d: Disk, e: Disk, id: nat, w: Worker)
    requires id in d.workers && w.Deploys? && CanMoveOn(d, w)
    requires e == MovedOn(d, id, w) && DeployOk(d, w) && ReleaseOk(d, w.build)
    requires SameDisk(d, e) && id in e.workers && e.workers[id].Deploys?
    requires d.current.Some? ==> Complete(d, d.current.value)
    requires d.currentTmp.Some? ==> Complete(d, d.currentTmp.value)
    ensures DeployOk(e, e.workers[id])
    ensures e.current.Some? ==> Complete(e, e.current.value)
    ensures e.currentTmp.Some? ==> Complete(e, e.currentTmp.value)
  {
    forall b ensures Complete(e, b) == Complete(d, b) {}
    if w.stage.Checking? { ValidatedIsComplete(d, w.build, w.program); }
  }

  lemma StartKeepsInv(d: Disk, e: Disk, id: nat, b: Build)
    requires Inv(d) && id !in d.workers
    requires (e == Do(d, Configure(id, b)) && Alone(d, id, b)) ||
             (exists path: string :: e == Do(d, Deploy(id, b, InRelease(b, Some(path)))))
    ensures Inv(e)
  {
    assert ReleaseOk(d, b);
    CurrentStays(d, e, id, b);
    TouchKeepsInv(d, e, id, b);
  }

  lemma EndKeepsInv(d: Disk, e: Disk, id: nat)
    requires Inv(d) && id in d.workers && e == d.(workers := d.workers - {id})
    ensures Inv(e)
  {
    assert ReleaseOk(d, d.workers[id].build);
    CurrentStays(d, e, id, d.workers[id].build);
    TouchKeepsInv(d, e, id, d.workers[id].build);
  }

  lemma RollBackKeepsInv(d: Disk, e: Disk, id: nat)
    requires Inv(d) && id in d.workers && CanRollBack(d.workers[id])
    requires e == Do(d, RollBack(id))
    ensures Inv(e)
  {
    assert WorkerOk(d, id) && ReleaseOk(d, d.workers[id].build);
    CurrentStays(d, e, id, d.workers[id].build);
    TouchKeepsInv(d, e, id, d.workers[id].build);
  }

  lemma StepKeepsInv(d: Disk, a: Action)
    requires Inv(d) && Enabled(d, a) && Disciplined(d, a)
    ensures Inv(Do(d, a))
  {
    var e := Do(d, a);
    match a {
      case Configure(id, b) => StartKeepsInv(d, e, id, b);
      case Deploy(id, b, p) => StartKeepsInv(d, e, id, b);
      case Stop(id) => EndKeepsInv(d, e, id);
      case Succeed(id) => EndKeepsInv(d, e, id);
      case Receive(id, n) => ConfigurationKeepsInv(d, e, a, id);
      case Erase(id, path) => ConfigurationKeepsInv(d, e, a, id);
      case Advance(id) =>
        if d.workers[id].Configures? { ConfigurationKeepsInv(d, e, a, id); } else { DeploymentKeepsInv(d, e, id); }
      case RollBack(id) => RollBackKeepsInv(d, e, id);
    }
  }

  lemma ConfigurationKeepsInv(d: Disk, e: Disk, a: Action, id: nat)
    requires Inv(d) && Enabled(d, a) && e == Do(d, a) && id in d.workers && d.workers[id].Configures?
    requires a == Advance(id) || (a.Receive? && a.id == id) || (a.Erase? && a.id == id)
    ensures Inv(e)
  {
    var b, p := d.workers[id].build, d.workers[id].phase;
    assert WorkerOk(d, id) && ReleaseOk(d, b);
    if a.Advance? { AdvanceKeepsPhaseOk(ShelfOf(d, b), Artifact(d, b), p); }
    WorkKeepsInv(d, id, b, e.shelves[b], e.workers[id].phase);
  }
}
