/**
 Switching a host to a new release: the service is stopped, the links to the build and to its
 environment are switched one after the other, the service is started and looked at, and what has
 been done is undone when a later part fails.  Any operation may fail.
 */
module SwitchOver {
  import opened Entities

  // The two links, and the names under which new ones are prepared.
  datatype Name = Current | CurrentTmp | Env | EnvTmp

  function Tmp(n: Name): Name
    requires n == Current || n == Env
  {
    if n == Current then CurrentTmp else EnvTmp
  }

  type Links = map<Name, string>

  datatype UnitState = Active | Activating | Inactive | Broken

  // Which of the three operations of a switch fail.
  datatype Trouble = Trouble(remove: bool, symlink: bool, rename: bool)

  // What fails in a deployment, and what becomes of the unit at each request to systemd, whose
  // report about a finished request the program does not read.
  datatype Luck = Luck(
    stopFails: bool, stopped: UnitState,
    buildUnreadable: bool, envUnreadable: bool,
    build: Trouble, env: Trouble,
    startFails: bool, started: UnitState, stateUnreadable: bool,
    buildBack: Trouble, envBack: Trouble,
    restarted: UnitState)

  // A switch works if nothing fails; a leftover from an earlier switch is in the way only when it
  // cannot be removed.
  predicate Works(links: Links, link: Name, t: Trouble)
    requires link == Current || link == Env
  {
    !t.symlink && !t.rename && !(t.remove && Tmp(link) in links)
  }

  // Each link points where it pointed before or where it is to point, and never nowhere.
  predicate OldOrNew(links: Links, before: Links, build: string, env: string) {
    && (Current in before ==> Points(links, Current) == Some(before[Current]) || Points(links, Current) == Some(build))
    && (Env in before ==> Points(links, Env) == Some(before[Env]) || Points(links, Env) == Some(env))
  }

  // The links in `links` point where they pointed in `before`.
  predicate SameLinks(links: Links, before: Links) {
    forall n :: n == Current || n == Env ==> Points(links, n) == Points(before, n)
  }

  function Points(links: Links, n: Name): Option<string> {
    if n in links then Some(links[n]) else None
  }

  predicate SameExcept(links: Links, before: Links, n: Name) {
    forall m :: m != n ==> Points(links, m) == Points(before, m)
  }

  // Nothing stands in the way of the service being started on the new links.
  predicate Reaches(before: Links, valid: bool, luck: Luck) {
    valid && !luck.stopFails && Works(before, Current, luck.build) && Works(before, Env, luck.env)
  }

  // A switched link gets back to where it pointed: it was there already, or its old target has
  // been read and the switch back works.
  predicate Restores(before: Links, link: Name, target: string, unreadable: bool, back: Trouble) {
    || Points(before, link) == Some(target)
    || (link in before && before[link] != "" && !unreadable && !back.symlink && !back.rename)
  }

  // Everything that has been switched gets back.
  predicate Undoes(before: Links, build: string, env: string, valid: bool, luck: Luck) {
    valid && !luck.stopFails && Works(before, Current, luck.build) ==>
      && Restores(before, Current, build, luck.buildUnreadable, luck.buildBack)
      && (Works(before, Env, luck.env) ==> Restores(before, Env, env, luck.envUnreadable, luck.envBack))
  }

  // The old targets can be read, and a switch back works.
  predicate Recovers(luck: Luck) {
    && !luck.buildUnreadable && !luck.buildBack.symlink && !luck.buildBack.rename
    && !luck.envUnreadable && !luck.envBack.symlink && !luck.envBack.rename
  }

  // There is an old target to go back to, or nothing to change.
  predicate InPlace(before: Links, link: Name, target: string) {
    (link in before && before[link] != "") || Points(before, link) == Some(target)
  }

  // All or nothing, as long as switches back work: whatever else fails, exactly when both links
  // were in place before.  The first deployment of a service is not undone.
  lemma AllOrNothing(before: Links, build: string, env: string)
    ensures (forall valid, luck {:trigger Undoes(before, build, env, valid, luck)} ::
               Recovers(luck) ==> Undoes(before, build, env, valid, luck))
            <==> InPlace(before, Current, build) && InPlace(before, Env, env)
  {
    var fine := Trouble(false, false, false);
    var down := Luck(false, Inactive, false, false, fine, fine, true, Broken, false, fine, fine, Active);
    assert Recovers(down);
    assert Undoes(before, build, env, true, down) ==> InPlace(before, Current, build) && InPlace(before, Env, env);
  }

  predicate BeforeOrAfter(links: Links, before: Links, after: Links, n: Name) {
    Points(links, n) == Points(before, n) || Points(links, n) == Points(after, n)
  }

  // Where a link points after it has been switched back, if there is something to go back to.
  function Reverted(now: Option<string>, target: string, back: Trouble): Option<string> {
    if target != "" && !back.symlink && !back.rename then Some(target) else now
  }

  class Machine {
    var links: Links
    var unit: UnitState
    // every state that the links have had, and those in which the service was stopped and started
    ghost var past: seq<Links>
    ghost var stops: seq<Links>
    ghost var starts: seq<Links>

    method Put(after: Links)
      modifies this`links, this`past
      ensures links == after && past == old(past) + [after]
    {
      links, past := after, past + [after];
    }

    method SwitchSymlinkAtomic(link: Name, target: string, t: Trouble) returns (ok: bool)
      requires link == Current || link == Env
      modifies this`links, this`past
      ensures ok <==> Works(old(links), link, t)
      ensures ok ==> links == old(links)[link := target] - {Tmp(link)}
      ensures !ok ==> SameExcept(links, old(links), Tmp(link))
      ensures old(past) <= past
      ensures forall i :: |old(past)| <= i < |past| ==>
                SameExcept(past[i], old(links), Tmp(link)) || (ok && past[i] == links)
    {
      var tmp := Tmp(link);
      if !t.remove { Put(links - {tmp}); }
      if t.symlink || tmp in links { return false; }
      Put(links[tmp := target]);
      if t.rename { return false; }
      Put(links[link := links[tmp]] - {tmp});
      return true;
    }

    method Stop(after: UnitState)
      modifies this`unit, this`stops
      ensures unit == after && stops == old(stops) + [links]
    {
      unit, stops := after, stops + [links];
    }

    method Start(after: UnitState)
      modifies this`unit, this`starts
      ensures unit == after && starts == old(starts) + [links]
    {
      unit, starts := after, starts + [links];
    }

    // An old target that could not be read, or was not there, is the empty string.
    method Rollback(oldBuild: string, oldEnv: string, luck: Luck)
      requires CurrentTmp !in links && EnvTmp !in links
      modifies this`links, this`past, this`unit, this`starts
      ensures Points(links, Current) == Reverted(Points(old(links), Current), oldBuild, luck.buildBack)
      ensures Points(links, Env) == Reverted(Points(old(links), Env), oldEnv, luck.envBack)
      ensures unit == luck.restarted && starts == old(starts) + [links]
      ensures old(past) <= past
      ensures forall i :: |old(past)| <= i < |past| ==>
                && BeforeOrAfter(past[i], old(links), links, Current)
                && BeforeOrAfter(past[i], old(links), links, Env)
    {
      if oldBuild != "" { var _ := SwitchSymlinkAtomic(Current, oldBuild, luck.buildBack); }
      assert Points(links, EnvTmp) == None && Points(links, Env) == Points(old(links), Env);
      if oldEnv != "" { var _ := SwitchSymlinkAtomic(Env, oldEnv, luck.envBack); }
      Start(luck.restarted);
    }

    // Both links, one after the other; when the second switch fails, the first one is undone if
    // there is something to go back to.
    method SwitchLinks(build: string, env: string, oldBuild: string, luck: Luck) returns (ok: bool)
      requires oldBuild != "" ==> Points(links, Current) == Some(oldBuild)
      modifies this`links, this`past
      ensures ok <==> Works(old(links), Current, luck.build) && Works(old(links), Env, luck.env)
      ensures ok ==> Points(links, Current) == Some(build) && Points(links, Env) == Some(env)
      ensures ok ==> CurrentTmp !in links && EnvTmp !in links
      ensures !ok ==> Points(links, Env) == Points(old(links), Env)
      ensures !ok ==>
                var switched := Works(old(links), Current, luck.build);
                Points(links, Current) ==
                  if switched then Reverted(Some(build), oldBuild, luck.buildBack) else Points(old(links), Current)
      ensures old(past) <= past
      ensures forall i :: |old(past)| <= i < |past| ==> OldOrNew(past[i], old(links), build, env)
    {
      ok := SwitchSymlinkAtomic(Current, build, luck.build);
      if !ok { return; }
      label Switched:
      ok := SwitchSymlinkAtomic(Env, env, luck.env);
      if !ok {
        assert Points(links, CurrentTmp) == Points(old@Switched(links), CurrentTmp) == None;
        assert Points(links, Current) == Some(build) && Points(links, Env) == Points(old(links), Env);
        if oldBuild != "" { var _ := SwitchSymlinkAtomic(Current, oldBuild, luck.buildBack); }
      }
    }

    // The service starts and is found active, or everything that can be is rolled back.
    method StartService(oldBuild: string, oldEnv: string, luck: Luck) returns (ok: bool)
      requires CurrentTmp !in links && EnvTmp !in links
      modifies this`links, this`past, this`unit, this`starts
      ensures ok <==> !luck.startFails && !luck.stateUnreadable && luck.started == Active
      ensures ok ==> links == old(links) && past == old(past) && starts == old(starts) + [links] && unit == Active
      ensures !ok ==> Points(links, Current) == Reverted(Points(old(links), Current), oldBuild, luck.buildBack)
      ensures !ok ==> Points(links, Env) == Reverted(Points(old(links), Env), oldEnv, luck.envBack)
      ensures !ok ==> unit == luck.restarted && starts == old(starts) + [old(links), links]
      ensures old(past) <= past
      ensures forall i :: |old(past)| <= i < |past| ==>
                && BeforeOrAfter(past[i], old(links), links, Current)
                && BeforeOrAfter(past[i], old(links), links, Env)
    {
      Start(luck.started);
      if luck.startFails {
        Rollback(oldBuild, oldEnv, luck);
        return false;
      }
      if luck.stateUnreadable || unit != Active {
        Rollback(oldBuild, oldEnv, luck);
        return false;
      }
      return true;
    }

    // `valid` tells whether the release, the environment and the program have been found.
    method Deploy(build: string, env: string, valid: bool, luck: Luck) returns (ok: bool)
      modifies this
      // it returns success exactly when nothing failed and the unit is active, with both links new
      ensures ok <==>
                Reaches(old(links), valid, luck) && !luck.startFails && !luck.stateUnreadable && luck.started == Active
      ensures ok ==> Points(links, Current) == Some(build) && Points(links, Env) == Some(env) && unit == Active
      // an error leaves both links as they were exactly when all that was switched can be undone
      ensures !ok ==> (SameLinks(links, old(links)) <==> Undoes(old(links), build, env, valid, luck))
      // in so many words: which of all that can fail must not
      ensures ok <==>
                && valid && !luck.stopFails && !luck.startFails && !luck.stateUnreadable && luck.started == Active
                && !luck.build.symlink && !luck.build.rename && !(luck.build.remove && CurrentTmp in old(links))
                && !luck.env.symlink && !luck.env.rename && !(luck.env.remove && EnvTmp in old(links))
      // and whatever fails, old links that can be read and switched back to are back at the end
      ensures !ok && Current in old(links) && old(links)[Current] != "" && Env in old(links) && old(links)[Env] != "" &&
              !luck.buildUnreadable && !luck.buildBack.symlink && !luck.buildBack.rename &&
              !luck.envUnreadable && !luck.envBack.symlink && !luck.envBack.rename ==>
                && Current in links && links[Current] == old(links)[Current]
                && Env in links && links[Env] == old(links)[Env]
      // the service is stopped before any link moves
      ensures stops == if valid then old(stops) + [old(links)] else old(stops)
      // in between, each link points to its old or its new target
      ensures old(past) <= past
      ensures forall i :: |old(past)| <= i < |past| ==> OldOrNew(past[i], old(links), build, env)
      // the service is started on the new links, and after a rollback on what that has left
      ensures !Reaches(old(links), valid, luck) ==>
                starts == old(starts) && unit == if valid then luck.stopped else old(unit)
      ensures Reaches(old(links), valid, luck) ==>
                && |starts| == |old(starts)| + (if ok then 1 else 2) && old(starts) <= starts
                && Points(starts[|old(starts)|], Current) == Some(build) &&
                     Points(starts[|old(starts)|], Env) == Some(env)
                && (!ok ==> starts[|old(starts)| + 1] == links && unit == luck.restarted)
    {
      if !valid { return false; }
      Stop(luck.stopped);
      if luck.stopFails { return false; }
      var oldBuild := if Current in links && !luck.buildUnreadable then links[Current] else "";
      var oldEnv := if Env in links && !luck.envUnreadable then links[Env] else "";
      ok := SwitchLinks(build, env, oldBuild, luck);
      if !ok { return; }
      ok := StartService(oldBuild, oldEnv, luck);
    }
  }
}
