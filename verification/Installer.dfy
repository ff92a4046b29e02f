/**
 The configuration of a host as the program performs it, from the release directory on: one
 operation after the other on the shelf of the build, any of which may fail.  What it does is a run
 of the transition system in module Release.
 */
module Installer {
  import opened Release
  import opened ReleaseTheorems

  function Total(chunks: seq<nat>): nat {
    if chunks == [] then 0 else Total(chunks[..|chunks| - 1]) + chunks[|chunks| - 1]
  }

  lemma {:induction false} RunExtends(d: Disk, actions: seq<Action>, m: Disk, a: Action)
    requires Run(d, actions, m) && Enabled(m, a) && Disciplined(m, a)
    ensures Run(d, actions + [a], Do(m, a))
    decreases |actions|
  {
    if actions == [] {
      assert Run(Do(m, a), [], Do(m, a));
      assert (actions + [a])[1..] == [];
    } else {
      RunExtends(Do(d, actions[0]), actions[1..], m, a);
      assert (actions + [a])[1..] == actions[1..] + [a];
    }
  }

  // The operations of a configuration, each of which may fail.
  datatype Operation =
    | MakeRelease
    | ReadRelease
    | OpenArchive              // empties the archive of an earlier run
    | LookUp
    | StoreChunk(i: nat)
    | MakeTemp
    | ClearOne(path: string)   // of the old temporary directory
    | RemoveTemp
    | WriteOne(i: nat)
    | FinishArchive
    | RemoveRelease
    | RenameTemp
    | Reload

  // What there is in a directory.
  function Paths(c: Content): set<string> {
    if c.Dir? then set w | w in c.writes :: w.path else {}
  }

  // Nothing fails while the archive is looked up and downloaded, and it comes to its recorded size.
  predicate Downloads(fails: Operation -> bool, chunks: seq<nat>, size: nat) {
    && !fails(OpenArchive) && !fails(LookUp)
    && (forall i: nat :: i < |chunks| ==> !fails(StoreChunk(i))) && Total(chunks) == size
  }

  predicate Clears(fails: Operation -> bool, left: set<string>) {
    !fails(MakeTemp) && (forall path :: path in left ==> !fails(ClearOne(path))) && !fails(RemoveTemp)
  }

  predicate Extracts(fails: Operation -> bool, size: nat) {
    (forall i: nat :: i < size ==> !fails(WriteOne(i))) && !fails(FinishArchive)
  }

  // An archive with nothing in it leaves no directory to rename.
  predicate Replaces(fails: Operation -> bool, size: nat) {
    !fails(RemoveRelease) && !fails(RenameTemp) && size > 0
  }

  predicate Installs(fails: Operation -> bool, chunks: seq<nat>, left: set<string>, size: nat) {
    Downloads(fails, chunks, size) && Clears(fails, left) && Extracts(fails, size) && Replaces(fails, size)
  }

  // `rest` is the host apart from this run and its shelf; the run has the number 0.
  class ConfigureHost {
    const build: Build
    const artifact: seq<Write>
    var shelf: Shelf
    ghost const rest: Disk
    ghost const start: Disk
    ghost var phase: Phase
    ghost var trace: seq<Action>

    ghost function Host(): Disk
      reads this
    {
      rest.(shelves := rest.shelves[build := shelf], workers := rest.workers[0 := Configures(build, phase)])
    }

    // What has been done so far is a run, from a host in order.
    ghost predicate Valid()
      reads this
    {
      && Artifact(rest, build) == artifact
      && Inv(start) && Run(start, trace, Host())
    }

    constructor (host: Disk, b: Build)
      requires Inv(host) && 0 !in host.workers && Alone(host, 0, b)
      ensures Valid() && build == b && shelf == ShelfOf(host, b) && artifact == Artifact(host, b) && start == host
      ensures phase == Begun
    {
      build, artifact, shelf := b, Artifact(host, b), ShelfOf(host, b);
      rest, start := host, host;
      phase, trace := Begun, [Configure(0, b)];
      new;
    }

    // One operation: the shelf becomes s, which is step a of the system.
    method Put(s: Shelf, ghost p: Phase, ghost a: Action)
      requires Valid() && Enabled(Host(), a) && !a.Configure? && !a.Deploy?
      requires Do(Host(), a) == Worked(Host(), 0, build, s, p)
      modifies this
      ensures Valid() && shelf == s && phase == p
    {
      RunExtends(start, trace, Host(), a);
      assert rest.shelves[build := shelf][build := s] == rest.shelves[build := s];
      assert rest.workers[0 := Configures(build, phase)][0 := Configures(build, p)] ==
          rest.workers[0 := Configures(build, p)];
      shelf, phase, trace := s, p, trace + [a];
    }

    // The next operation of the run.
    method Go(s: Shelf)
      requires Valid() && CanAdvance(shelf, artifact, phase) && s == NextShelf(shelf, artifact, phase)
      modifies this
      ensures Valid() && shelf == s && phase == NextPhase(artifact, old(phase))
    {
      Put(s, NextPhase(artifact, phase), Advance(0));
    }

    // n more pieces of the artifact arrive.
    method Store(total: nat, n: nat)
      requires Valid() && phase == Downloading(total) && shelf.archive == Upto(total)
      modifies this
      ensures Valid() && phase == Downloading(total + n) && shelf == old(shelf).(archive := Upto(total + n))
    {
      Put(shelf.(archive := Stored(shelf.archive, total, n)), Downloading(total + n), Receive(0, n));
    }

    // The download: `chunks` is what arrives.
    method Download(chunks: seq<nat>, fails: Operation -> bool) returns (ok: bool)
      requires Valid() && phase == FoundEmpty
      modifies this
      ensures Valid() && shelf.release == old(shelf).release && shelf.temp == old(shelf).temp
      ensures ok <==> Downloads(fails, chunks, |artifact|)
      ensures ok ==> phase == Downloaded && shelf.archive == Upto(|artifact|)
      ensures fails(OpenArchive) ==> shelf == old(shelf)
      ensures !fails(OpenArchive) && fails(LookUp) ==> shelf.archive == Upto(0)
    {
      if fails(OpenArchive) { return false; }
      Go(shelf.(archive := Upto(0)));
      if fails(LookUp) { return false; }
      var total, i := 0, 0;
      while i < |chunks|
        invariant Valid() && phase == Downloading(total)
        invariant shelf == old(shelf).(archive := Upto(total))
        invariant i <= |chunks| && total == Total(chunks[..i])
        invariant forall j: nat :: j < i ==> !fails(StoreChunk(j))
      {
        if fails(StoreChunk(i)) { return false; }
        assert chunks[..i + 1][..i] == chunks[..i];
        Store(total, chunks[i]);
        total, i := total + chunks[i], i + 1;
      }
      assert chunks[..i] == chunks;
      if total != |artifact| { return false; }
      Go(shelf);
      return true;
    }

    // A path of the temporary directory goes.
    method Unlink(path: string)
      requires Valid() && phase == Clearing && Contains(shelf.temp, path)
      modifies this
      ensures Valid() && phase == Clearing && shelf.release == old(shelf).release
      ensures shelf.temp.Dir? && |shelf.temp.writes| < |old(shelf).temp.writes|
      ensures Paths(shelf.temp) == Paths(old(shelf).temp) - {path}
    {
      WithoutIsShorter(shelf.temp.writes, path);
      Put(Erased(shelf, Clearing, path), Clearing, Erase(0, path));
    }

    // Whatever an earlier run has left in the temporary directory goes, piece by piece.
    method ClearTemp(fails: Operation -> bool) returns (ok: bool)
      requires Valid() && phase == Downloaded
      modifies this
      ensures Valid() && shelf.release == old(shelf).release
      ensures ok <==> Clears(fails, Paths(old(shelf).temp))
      ensures ok ==> phase == Extracting(0) && shelf.temp == Absent
    {
      if fails(MakeTemp) { return false; }
      Go(shelf.(temp := EnsureDir(shelf.temp)));
      while shelf.temp.writes != []
        invariant Valid() && phase == Clearing && shelf.release == old(shelf).release && shelf.temp.Dir?
        invariant Paths(shelf.temp) <= Paths(old(shelf).temp)
        invariant forall path :: path in Paths(old(shelf).temp) - Paths(shelf.temp) ==> !fails(ClearOne(path))
        decreases |shelf.temp.writes|
      {
        var path := shelf.temp.writes[0].path;
        assert path in Paths(shelf.temp);
        if fails(ClearOne(path)) { return false; }
        Unlink(path);
      }
      if fails(RemoveTemp) { return false; }
      Go(shelf.(temp := Absent));
      return true;
    }

    method Extract(fails: Operation -> bool) returns (ok: bool)
      requires Valid() && phase == Extracting(0)
      modifies this
      ensures Valid() && shelf.release == old(shelf).release
      ensures ok <==> Extracts(fails, |artifact|)
      ensures ok ==> phase == Replacing && shelf.temp == if artifact == [] then Absent else Dir(artifact)
    {
      var i := 0;
      while i < |artifact|
        invariant Valid() && phase == Extracting(i) && i <= |artifact| && shelf.release == old(shelf).release
        invariant forall j: nat :: j < i ==> !fails(WriteOne(j))
      {
        InOrder();
        if fails(WriteOne(i)) { return false; }
        Go(shelf.(temp := Written(shelf.temp, artifact[i])));
        i := i + 1;
      }
      InOrder();
      if fails(FinishArchive) { return false; }
      Go(shelf);
      InOrder();
      return true;
    }

    // Whatever has been done so far has kept the host in order.
    lemma InOrder()
      requires Valid()
      ensures Inv(Host()) && PhaseOk(shelf, artifact, phase)
      ensures Empty(shelf.release) || Whole(shelf, artifact)
    {
      RunKeepsInv(start, trace, Host());
      assert WorkerOk(Host(), 0) && ReleaseOk(Host(), build);
    }

    // The release is removed and what has been extracted takes its place.  Between the two there
    // is no release at all.
    method Replace(fails: Operation -> bool) returns (ok: bool)
      requires Valid() && phase == Replacing
      modifies this
      ensures Valid()
      ensures ok <==> Replaces(fails, |artifact|)
      ensures ok ==> phase == Installed && Whole(shelf, artifact) && shelf.temp == Absent
      ensures fails(RemoveRelease) ==> shelf == old(shelf)
      ensures !ok && !fails(RemoveRelease) ==> shelf == old(shelf).(release := Absent)
    {
      InOrder();
      if fails(RemoveRelease) { return false; }
      Go(shelf.(release := Absent));
      InOrder();
      if shelf.temp == Absent || fails(RenameTemp) { return false; }
      Go(shelf.(release := shelf.temp, temp := Absent));
      InOrder();
      return true;
    }

    // From the empty release directory on.
    method Install(chunks: seq<nat>, fails: Operation -> bool) returns (ok: bool)
      requires Valid() && phase == FoundEmpty
      modifies this
      ensures Valid()
      ensures ok <==> Installs(fails, chunks, Paths(old(shelf).temp), |artifact|)
      ensures ok ==> phase == Installed && Whole(shelf, artifact)
    {
      ok := Download(chunks, fails);
      if ok { ok := ClearTemp(fails); }
      if ok { ok := Extract(fails); }
      if ok { ok := Replace(fails); }
    }

    // A success leaves the complete build in place, however it came about; a failure leaves what
    // was there, or nothing, or the complete build.  Whether it is a success depends on what fails,
    // operation by operation, and on nothing else that an earlier run has left behind.
    method Execute(chunks: seq<nat>, fails: Operation -> bool) returns (ok: bool)
      requires Valid() && phase == Begun
      modifies this
      ensures Valid() && Inv(Host())
      ensures ok ==> Whole(shelf, artifact) && CanSucceed(Host(), Configures(build, phase))
      ensures !ok ==> Empty(shelf.release) || Whole(shelf, artifact)
      ensures !Empty(old(shelf.release)) ==> shelf == old(shelf)
      ensures ok <==>
                && !fails(MakeRelease) && !fails(ReadRelease)
                && (|| !Empty(old(shelf.release))
                    || (Installs(fails, chunks, Paths(old(shelf).temp), |artifact|) && !fails(Reload)))
    {
      InOrder();
      if fails(MakeRelease) { return false; }
      Go(shelf.(release := EnsureDir(shelf.release)));
      InOrder();
      if fails(ReadRelease) { return false; }
      if !Empty(shelf.release) { return true; }
      Go(shelf);
      ok := Install(chunks, fails);
      InOrder();
      ok := ok && !fails(Reload);
    }
  }
}
