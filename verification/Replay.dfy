// Replaying a cleanup pass after a crash: a pass that stopped anywhere is repeated from what
// Kubernetes and Restate then hold, at the same instant.
module Replay {
  import opened Base
  import opened Policy
  import opened Cleanup

  // Versions are keyed by their own name and no two carry the same deployment id.
  ghost predicate WellFormed(v: View) {
    && (forall n :: n in v.versions ==> v.versions[n].name == n)
    && (forall m, n :: m in v.versions && n in v.versions && m != n && v.versions[m].id.Some? ==>
          v.versions[m].id != v.versions[n].id)
  }

  // Two views in which one version's turn in the loop reads the same things.
  ghost predicate SameFor(a: View, b: View, n: Name) {
    && (n in a.versions <==> n in b.versions)
    && (n in a.hpas <==> n in b.hpas)
    && (n in a.versions ==>
          && a.versions[n] == b.versions[n]
          && UsageFor(a.usage, a.versions[n]) == UsageFor(b.usage, b.versions[n]))
  }

  ghost predicate CleanupWrite(w: Write) {
    !w.Create? && !w.RecordId?
  }

  // A write that leaves version `n`'s turn alone.
  ghost predicate Spares(w: Write, v: View, n: Name) {
    && CleanupWrite(w)
    && w.name != n
    && (w.Deregister? && n in v.versions ==> v.versions[n].id != Some(w.id))
  }

  lemma {:induction false} SparedStaysSame(v: View, writes: seq<Write>, clock: Time, n: Name)
    requires forall w :: w in writes ==> Spares(w, v, n)
    ensures SameFor(v, Effects(v, writes, clock), n)
    decreases |writes|
  {
    if writes != [] {
      var u := Effect(v, writes[0], clock);
      assert Spares(writes[0], v, n);
      assert SameFor(v, u, n);
      forall w | w in writes[1..] ensures Spares(w, u, n) {
        assert w in writes;
      }
      SparedStaysSame(u, writes[1..], clock, n);
    }
  }

  lemma EffectKeepsWellFormed(v: View, w: Write, clock: Time)
    requires WellFormed(v) && CleanupWrite(w)
    ensures
      var u := Effect(v, w, clock);
      && WellFormed(u) && u.versions.Keys <= v.versions.Keys
      && (forall n :: n in u.versions ==> u.versions[n].id == v.versions[n].id)
  {
    var u := Effect(v, w, clock);
    forall n | n in u.versions
      ensures n in v.versions && u.versions[n].name == n && u.versions[n].id == v.versions[n].id
    {
    }
  }

  // Cleanup only ever removes versions, and never renames one or changes its id.
  lemma {:induction false} EffectsKeepWellFormed(v: View, writes: seq<Write>, clock: Time)
    requires WellFormed(v) && forall w :: w in writes ==> CleanupWrite(w)
    ensures WellFormed(Effects(v, writes, clock))
    ensures Effects(v, writes, clock).versions.Keys <= v.versions.Keys
    ensures forall n :: n in Effects(v, writes, clock).versions ==>
              Effects(v, writes, clock).versions[n].id == v.versions[n].id
    decreases |writes|
  {
    if writes != [] {
      assert writes[0] in writes;
      var u := Effect(v, writes[0], clock);
      EffectKeepsWellFormed(v, writes[0], clock);
      assert forall w :: w in writes[1..] ==> w in writes;
      EffectsKeepWellFormed(u, writes[1..], clock);
    }
  }

  lemma VersionWritesAbout(p: Pass, v: View, ver: Version, h: nat)
    ensures forall w :: w in VersionWrites(p, v, ver, h) ==>
              CleanupWrite(w) && w.name == ver.name && (w.Deregister? ==> ver.id == Some(w.id))
  {
    forall w | w in VersionWrites(p, v, ver, h)
      ensures CleanupWrite(w) && w.name == ver.name && (w.Deregister? ==> ver.id == Some(w.id))
    {
      match Judge(p, v.usage, ver)
      case Blocked(_) => assert w in ActiveHpaWrites(p, v, ver.name) || w == ClearDeadline(ver.name);
      case Due =>
        if w !in ScaleDownWrites(p, v, ver) {
          assert w in TearDownWrites(v, ver);
        }
      case _ =>
    }
  }

  lemma {:induction false} PassWritesAbout(p: Pass, v: View, order: seq<Name>, h: nat)
    requires WellFormed(v)
    ensures forall w :: w in PassWrites(p, v, order, h) ==>
              && CleanupWrite(w)
              && w.name in order && w.name in v.versions
              && (w.Deregister? ==> v.versions[w.name].id == Some(w.id))
    decreases |order|
  {
    if order != [] {
      if order[0] !in v.versions {
        PassWritesAbout(p, v, order[1..], h);
      } else {
        var ver := v.versions[order[0]];
        VersionWritesAbout(p, v, ver, h);
        PassWritesAbout(p, v, order[1..], h + if Retains(p, v.usage, ver, h) then 1 else 0);
      }
    }
  }

  lemma {:induction false} SameViewsSameWrites(p: Pass, a: View, b: View, order: seq<Name>, h: nat)
    requires WellFormed(a) && WellFormed(b)
    requires forall n :: n in order ==> SameFor(a, b, n)
    ensures PassWrites(p, a, order, h) == PassWrites(p, b, order, h)
    decreases |order|
  {
    if order != [] {
      assert SameFor(a, b, order[0]);
      assert forall n :: n in order[1..] ==> n in order;
      if order[0] !in a.versions {
        SameViewsSameWrites(p, a, b, order[1..], h);
      } else {
        var ver := a.versions[order[0]];
        assert VersionWrites(p, a, ver, h) == VersionWrites(p, b, ver, h);
        SameViewsSameWrites(p, a, b, order[1..], h + if Retains(p, a.usage, ver, h) then 1 else 0);
      }
    }
  }

  // What the loop writes for the single name `n`.
  ghost function TurnWrites(p: Pass, v: View, n: Name, h: nat): seq<Write> {
    if n in v.versions then VersionWrites(p, v, v.versions[n], h) else []
  }

  ghost function NextCount(p: Pass, v: View, n: Name, h: nat): nat {
    if n in v.versions && Retains(p, v.usage, v.versions[n], h) then h + 1 else h
  }

  lemma PassWritesUnfold(p: Pass, v: View, order: seq<Name>, h: nat)
    requires order != []
    ensures PassWrites(p, v, order, h) ==
            TurnWrites(p, v, order[0], h) + PassWrites(p, v, order[1..], NextCount(p, v, order[0], h))
  {
  }

  // The pass stopped after deleting a still-active version's autoscaler and before restoring
  // the replica count the autoscaler had changed.
  ghost predicate CutsRestore(v: View, writes: seq<Write>, k: nat) {
    && 0 < k < |writes|
    && writes[k].RestoreScale?
    && writes[k - 1] == DeleteHpa(writes[k].name)
    && writes[k].name in v.versions
    && v.versions[writes[k].name].replicas != writes[k].replicas
  }

  lemma EffectsOfFew(v: View, writes: seq<Write>, clock: Time)
    requires |writes| <= 4
    ensures |writes| == 0 ==> Effects(v, writes, clock) == v
    ensures |writes| == 1 ==> Effects(v, writes, clock) == Effect(v, writes[0], clock)
    ensures |writes| == 2 ==>
              Effects(v, writes, clock) == Effect(Effect(v, writes[0], clock), writes[1], clock)
    ensures |writes| == 3 ==>
              Effects(v, writes, clock)
              == Effect(Effect(Effect(v, writes[0], clock), writes[1], clock), writes[2], clock)
    ensures |writes| == 4 ==>
              Effects(v, writes, clock)
              == Effect(Effect(Effect(Effect(v, writes[0], clock), writes[1], clock), writes[2], clock), writes[3], clock)
    decreases |writes|
  {
    if |writes| > 1 {
      EffectsOfFew(Effect(v, writes[0], clock), writes[1..], clock);
    }
  }

  ghost predicate TurnReplaysTo(p: Pass, v: View, n: Name, h: nat, k: nat)
    requires k <= |TurnWrites(p, v, n, h)|
  {
    var all := TurnWrites(p, v, n, h);
    var cut := Effects(v, all[..k], p.now);
    var end := Effects(v, all, p.now);
    var again := Effects(cut, TurnWrites(p, cut, n, h), p.now);
    && NextCount(p, cut, n, h) == NextCount(p, v, n, h)
    && (!CutsRestore(v, all, k) ==> again == end)
    && (CutsRestore(v, all, k) ==>
          n in end.versions && n in again.versions && again.versions[n] != end.versions[n])
  }

  ghost predicate DueStepResumes(p: Pass, v: View, n: Name, h: nat)
    requires TurnWrites(p, v, n, h) != []
  {
    var u := Effect(v, TurnWrites(p, v, n, h)[0], p.now);
    && TurnWrites(p, u, n, h) == TurnWrites(p, v, n, h)[1..]
    && NextCount(p, u, n, h) == NextCount(p, v, n, h)
    && WellFormed(u)
    && (n in u.versions ==> Judge(p, u.usage, u.versions[n]).Due?)
  }

  lemma ScaleDownEffect(p: Pass, v: View, n: Name)
    requires WellFormed(v) && n in v.versions && ScaleDownWrites(p, v, v.versions[n]) != []
    ensures
      var ver := v.versions[n];
      var down := ScaleDownWrites(p, v, ver);
      var u := Effect(v, down[0], p.now);
      && n in u.versions && u.usage == v.usage
      && u.versions[n] == ver.(replicas := u.versions[n].replicas)
      && ScaleDownWrites(p, u, u.versions[n]) == down[1..]
      && CleanupWrite(down[0])
  {
    var ver := v.versions[n];
    var down := ScaleDownWrites(p, v, ver);
    if n in v.hpas {
      assert down == [DeleteHpa(n)] + if ver.replicas > 0 then [ScaleToZero(n)] else [];
    } else {
      assert down == [ScaleToZero(n)];
    }
  }

  lemma ScaleDownStep(p: Pass, v: View, n: Name, h: nat)
    requires WellFormed(v) && n in v.versions && Judge(p, v.usage, v.versions[n]).Due?
    requires ScaleDownWrites(p, v, v.versions[n]) != []
    ensures TurnWrites(p, v, n, h) != [] && DueStepResumes(p, v, n, h)
  {
    var ver := v.versions[n];
    var down := ScaleDownWrites(p, v, ver);
    ScaleDownEffect(p, v, n);
    EffectKeepsWellFormed(v, down[0], p.now);
    var tear := if Retains(p, v.usage, ver, h) then [] else TearDownWrites(v, ver);
    assert TurnWrites(p, v, n, h) == down + tear;
    var u := Effect(v, down[0], p.now);
    SameVerdict(p, v, u, n, h);
    hide ScaleDownWrites, Effect, WellFormed, Judge, Retains, TearDownWrites, VersionWrites, TurnWrites, NextCount;
    assert (down + tear)[0] == down[0] && (down + tear)[1..] == down[1..] + tear;
  }

  // Replicas do not enter the verdict: a due version stays due, with the same teardown to come.
  lemma SameVerdict(p: Pass, v: View, u: View, n: Name, h: nat)
    requires n in v.versions && n in u.versions && u.usage == v.usage
    requires u.versions[n] == v.versions[n].(replicas := u.versions[n].replicas)
    requires Judge(p, v.usage, v.versions[n]).Due?
    ensures Judge(p, u.usage, u.versions[n]).Due? && NextCount(p, u, n, h) == NextCount(p, v, n, h)
    ensures TurnWrites(p, u, n, h) ==
      ScaleDownWrites(p, u, u.versions[n])
      + if Retains(p, v.usage, v.versions[n], h) then [] else TearDownWrites(v, v.versions[n])
  {
  }

  lemma TearDownStep(p: Pass, v: View, n: Name, h: nat)
    requires WellFormed(v) && n in v.versions && Judge(p, v.usage, v.versions[n]).Due?
    requires ScaleDownWrites(p, v, v.versions[n]) == []
    requires !Retains(p, v.usage, v.versions[n], h)
    ensures TurnWrites(p, v, n, h) != [] && DueStepResumes(p, v, n, h)
  {
    var ver := v.versions[n];
    var all := TurnWrites(p, v, n, h);
    assert all == TearDownWrites(v, ver);
    var u := Effect(v, all[0], p.now);
    if UsageFor(v.usage, ver).Some? {
      assert all == [Deregister(n, ver.id.value), DeleteVersion(n)];
      assert u.versions == v.versions && UsageFor(u.usage, ver).None?;
      assert ScaleDownWrites(p, u, ver) == [];
      assert TearDownWrites(u, ver) == [DeleteVersion(n)];
      assert TurnWrites(p, u, n, h) == [DeleteVersion(n)];
    } else {
      assert all == [DeleteVersion(n)];
      assert n !in u.versions;
    }
  }

  // Tearing down resumes where it stopped: each write removes itself from what is left to do.
  lemma DueTurnStep(p: Pass, v: View, n: Name, h: nat)
    requires WellFormed(v) && n in v.versions && Judge(p, v.usage, v.versions[n]).Due?
    requires TurnWrites(p, v, n, h) != []
    ensures DueStepResumes(p, v, n, h)
  {
    if ScaleDownWrites(p, v, v.versions[n]) != [] {
      ScaleDownStep(p, v, n, h);
    } else {
      TearDownStep(p, v, n, h);
    }
  }

  // After the first write of a teardown the rest of it is left to do.
  lemma DueTurnGoesOn(p: Pass, v: View, n: Name, h: nat)
    requires WellFormed(v) && (n in v.versions ==> Judge(p, v.usage, v.versions[n]).Due?)
    requires TurnWrites(p, v, n, h) != []
    ensures
      var all := TurnWrites(p, v, n, h);
      var u := Effect(v, all[0], p.now);
      && TurnWrites(p, u, n, h) == all[1..] && NextCount(p, u, n, h) == NextCount(p, v, n, h)
      && WellFormed(u) && (n in u.versions ==> Judge(p, u.usage, u.versions[n]).Due?)
  {
    DueTurnStep(p, v, n, h);
  }

  lemma EffectsOfCut(v: View, all: seq<Write>, k: nat, clock: Time)
    requires k <= |all|
    ensures k == 0 ==> Effects(v, all[..k], clock) == v && all[k..] == all
    ensures k > 0 ==>
      && Effects(v, all[..k], clock) == Effects(Effect(v, all[0], clock), all[1..][..k - 1], clock)
      && all[1..][k - 1..] == all[k..]
  {
    if k > 0 {
      assert all[..k][0] == all[0] && all[..k][1..] == all[1..][..k - 1];
    }
    hide Effect;
  }

  lemma {:induction false} DueTurnResumes(p: Pass, v: View, n: Name, h: nat, k: nat)
    requires WellFormed(v) && (n in v.versions ==> Judge(p, v.usage, v.versions[n]).Due?)
    requires k <= |TurnWrites(p, v, n, h)|
    ensures
      var cut := Effects(v, TurnWrites(p, v, n, h)[..k], p.now);
      && TurnWrites(p, cut, n, h) == TurnWrites(p, v, n, h)[k..]
      && NextCount(p, cut, n, h) == NextCount(p, v, n, h)
    decreases k
  {
    hide *;
    var all := TurnWrites(p, v, n, h);
    EffectsOfCut(v, all, k, p.now);
    if k > 0 {
      DueTurnGoesOn(p, v, n, h);
      DueTurnResumes(p, Effect(v, all[0], p.now), n, h, k - 1);
    }
  }

  lemma BlockedTurnEffects(p: Pass, v: View, n: Name, h: nat)
    requires n in v.versions && v.versions[n].name == n && Judge(p, v.usage, v.versions[n]).Blocked?
    ensures
      var hpa := ActiveHpaWrites(p, v, n);
      Effects(v, TurnWrites(p, v, n, h), p.now) == View(
        v.versions[n := v.versions[n].(
          replicas := if |hpa| == 2 then p.rsd.replicas else v.versions[n].replicas,
          removeAt := None)],
        v.usage,
        if hpa == [] then v.hpas else if |hpa| == 1 then v.hpas + {n} else v.hpas - {n})
  {
    hide TurnWrites, ActiveHpaWrites, Judge;
    BlockedTurnWrites(p, v, n, h);
    EffectsOfFew(v, TurnWrites(p, v, n, h), p.now);
  }

  lemma BlockedTurnWrites(p: Pass, v: View, n: Name, h: nat)
    requires n in v.versions && v.versions[n].name == n && Judge(p, v.usage, v.versions[n]).Blocked?
    ensures
      var hpa := ActiveHpaWrites(p, v, n);
      && TurnWrites(p, v, n, h) == hpa + (if v.versions[n].removeAt.Some? then [ClearDeadline(n)] else [])
      && (hpa == [] || hpa == [EnsureHpa(n)] || hpa == [DeleteHpa(n), RestoreScale(n, p.rsd.replicas)])
  {
  }

  lemma EnsureTurnReplays(p: Pass, v: View, n: Name, h: nat, k: nat)
    requires WellFormed(v) && n in v.versions && Judge(p, v.usage, v.versions[n]).Blocked?
    requires ActiveHpaWrites(p, v, n) == [EnsureHpa(n)]
    requires k <= |TurnWrites(p, v, n, h)|
    ensures TurnReplaysTo(p, v, n, h, k)
  {
    var all := TurnWrites(p, v, n, h);
    var cut := Effects(v, all[..k], p.now);
    EffectsOfFew(v, all[..k], p.now);
    EffectsOfFew(v, all, p.now);
    var again := TurnWrites(p, cut, n, h);
    EffectsOfFew(cut, again, p.now);
    if v.versions[n].removeAt.None? {
      assert all == [EnsureHpa(n)];
      assert again == [EnsureHpa(n)];
    } else {
      assert all == [EnsureHpa(n), ClearDeadline(n)];
      if k == 2 {
        assert again == [EnsureHpa(n)];
        assert cut.versions[n].removeAt.None?;
      } else {
        assert again == all;
      }
    }
    assert Effects(cut, again, p.now) == Effects(v, all, p.now);
  }

  // Where a turn that removes an autoscaler stands after some of its writes.
  lemma RestoreTurnCut(p: Pass, v: View, n: Name, h: nat, k: nat)
    requires n in v.versions && v.versions[n].name == n && Judge(p, v.usage, v.versions[n]).Blocked?
    requires ActiveHpaWrites(p, v, n) == [DeleteHpa(n), RestoreScale(n, p.rsd.replicas)]
    requires 1 <= k <= |TurnWrites(p, v, n, h)|
    ensures Effects(v, TurnWrites(p, v, n, h)[..k], p.now) == View(
      v.versions[n := v.versions[n].(
        replicas := if k == 1 then v.versions[n].replicas else p.rsd.replicas,
        removeAt := if k == 3 then None else v.versions[n].removeAt)],
      v.usage,
      v.hpas - {n})
  {
    var some := TurnWrites(p, v, n, h)[..k];
    EffectsOfFew(v, some, p.now);
    assert some[0] == DeleteHpa(n);
    assert k >= 2 ==> some[1] == RestoreScale(n, p.rsd.replicas);
    assert k == 3 ==> some[2] == ClearDeadline(n);
  }

  lemma RestoreTurnReplays(p: Pass, v: View, n: Name, h: nat, k: nat)
    requires WellFormed(v) && n in v.versions && Judge(p, v.usage, v.versions[n]).Blocked?
    requires ActiveHpaWrites(p, v, n) == [DeleteHpa(n), RestoreScale(n, p.rsd.replicas)]
    requires k <= |TurnWrites(p, v, n, h)|
    ensures TurnReplaysTo(p, v, n, h, k)
  {
    var all := TurnWrites(p, v, n, h);
    if k == 0 {
      assert all[..k] == [];
    } else {
      RestoreTurnCut(p, v, n, h, k);
      var cut := Effects(v, all[..k], p.now);
      assert ActiveHpaWrites(p, cut, n) == [];
      assert Judge(p, cut.usage, cut.versions[n]).Blocked?;
      BlockedTurnEffects(p, cut, n, h);
      BlockedTurnEffects(p, v, n, h);
    }
  }

  // A still-active version's turn: its autoscaler is applied again, its deadline cleared once.
  lemma BlockedTurnReplays(p: Pass, v: View, n: Name, h: nat, k: nat)
    requires WellFormed(v) && n in v.versions && Judge(p, v.usage, v.versions[n]).Blocked?
    requires k <= |TurnWrites(p, v, n, h)|
    ensures TurnReplaysTo(p, v, n, h, k)
  {
    var hpa := ActiveHpaWrites(p, v, n);
    if hpa == [EnsureHpa(n)] {
      EnsureTurnReplays(p, v, n, h, k);
    } else if hpa != [] {
      RestoreTurnReplays(p, v, n, h, k);
    } else {
      var all := TurnWrites(p, v, n, h);
      EffectsOfFew(v, all[..k], p.now);
      EffectsOfFew(v, all, p.now);
      var cut := Effects(v, all[..k], p.now);
      EffectsOfFew(cut, TurnWrites(p, cut, n, h), p.now);
    }
  }

  lemma DueTurnReplays(p: Pass, v: View, n: Name, h: nat, k: nat)
    requires WellFormed(v) && n in v.versions && Judge(p, v.usage, v.versions[n]).Due?
    requires k <= |TurnWrites(p, v, n, h)|
    ensures TurnReplaysTo(p, v, n, h, k)
  {
    var all := TurnWrites(p, v, n, h);
    DueTurnResumes(p, v, n, h, k);
    NoRestoreWhenDue(p, v, n, h);
    hide TurnWrites, NextCount, Judge, WellFormed, Effects;
    assert all[..k] + all[k..] == all;
    EffectsConcat(v, all[..k], all[k..], p.now);
  }

  lemma NoRestoreWhenDue(p: Pass, v: View, n: Name, h: nat)
    requires n in v.versions && Judge(p, v.usage, v.versions[n]).Due?
    ensures forall w :: w in TurnWrites(p, v, n, h) ==> !w.RestoreScale?
  {
    var ver := v.versions[n];
    assert forall w :: w in ScaleDownWrites(p, v, ver) ==> !w.RestoreScale?;
    assert forall w :: w in TearDownWrites(v, ver) ==> !w.RestoreScale?;
  }

  lemma OutstandingTurnReplays(p: Pass, v: View, n: Name, h: nat, k: nat)
    requires n in v.versions && v.versions[n].name == n
    requires Judge(p, v.usage, v.versions[n]).Waiting? || Judge(p, v.usage, v.versions[n]).Unstamped?
    requires k <= |TurnWrites(p, v, n, h)|
    ensures TurnReplaysTo(p, v, n, h, k)
  {
    var all := TurnWrites(p, v, n, h);
    EffectsOfFew(v, all, p.now);
    EffectsOfFew(v, all[..k], p.now);
  }

  // One version's turn, cut after `k` of its writes and then repeated.
  lemma TurnReplays(p: Pass, v: View, n: Name, h: nat, k: nat)
    requires WellFormed(v) && k <= |TurnWrites(p, v, n, h)|
    ensures TurnReplaysTo(p, v, n, h, k)
  {
    if n in v.versions {
      hide TurnReplaysTo;
      match Judge(p, v.usage, v.versions[n])
      case Blocked(_) => BlockedTurnReplays(p, v, n, h, k);
      case Due => DueTurnReplays(p, v, n, h, k);
      case _ => OutstandingTurnReplays(p, v, n, h, k);
    }
  }

  // Every write of the rest of the pass spares the name already handled.
  lemma RestSpares(p: Pass, v: View, order: seq<Name>, h: nat, n: Name)
    requires WellFormed(v) && n !in order
    ensures forall w :: w in PassWrites(p, v, order, h) ==> Spares(w, v, n)
  {
    PassWritesAbout(p, v, order, h);
  }

  // Handling one name leaves every other name's turn as it was.
  lemma TurnSpares(p: Pass, v: View, n: Name, h: nat, k: nat, rest: seq<Name>)
    requires WellFormed(v) && n !in rest && k <= |TurnWrites(p, v, n, h)|
    ensures
      var u := Effects(v, TurnWrites(p, v, n, h)[..k], p.now);
      && WellFormed(u)
      && (forall m :: m in rest ==> SameFor(v, u, m))
  {
    var some := TurnWrites(p, v, n, h)[..k];
    if n in v.versions {
      VersionWritesAbout(p, v, v.versions[n], h);
      assert forall w :: w in some ==> w in TurnWrites(p, v, n, h);
      EffectsKeepWellFormed(v, some, p.now);
      forall m | m in rest ensures SameFor(v, Effects(v, some, p.now), m) {
        assert forall w :: w in some ==> Spares(w, v, m);
        SparedStaysSame(v, some, p.now, m);
      }
    }
  }

  // What is left of a name's turn after it ran: nothing, or applying the autoscaler again.
  ghost predicate TurnDone(p: Pass, v: View, n: Name, h: nat) {
    var u := Effects(v, TurnWrites(p, v, n, h), p.now);
    && (TurnWrites(p, u, n, h) == [] || (TurnWrites(p, u, n, h) == [EnsureHpa(n)] && n in u.hpas))
    && NextCount(p, u, n, h) == NextCount(p, v, n, h)
  }

  lemma FinishedBlockedTurn(p: Pass, v: View, n: Name, h: nat)
    requires n in v.versions && v.versions[n].name == n && Judge(p, v.usage, v.versions[n]).Blocked?
    ensures TurnDone(p, v, n, h)
  {
    BlockedTurnEffects(p, v, n, h);
    var u := Effects(v, TurnWrites(p, v, n, h), p.now);
    assert Judge(p, u.usage, u.versions[n]).Blocked?;
    assert TurnWrites(p, u, n, h) == ActiveHpaWrites(p, u, n);
  }

  lemma FinishedUnstampedTurn(p: Pass, v: View, n: Name, h: nat)
    requires n in v.versions && v.versions[n].name == n && Judge(p, v.usage, v.versions[n]).Unstamped?
    ensures TurnDone(p, v, n, h)
  {
    var stamp := StampDeadline(n, p.rsd.DrainDelay());
    assert TurnWrites(p, v, n, h) == [stamp];
    var u := Effect(v, stamp, p.now);
    assert Effects(v, [stamp], p.now) == u;
    assert Judge(p, u.usage, u.versions[n]) == Waiting(p.now + p.rsd.DrainDelay());
  }

  // A whole turn leaves nothing to do but applying the autoscaler again.
  lemma FinishedTurn(p: Pass, v: View, n: Name, h: nat)
    requires WellFormed(v)
    ensures TurnDone(p, v, n, h)
  {
    if n in v.versions {
      match Judge(p, v.usage, v.versions[n])
      case Blocked(_) => FinishedBlockedTurn(p, v, n, h);
      case Due =>
        var all := TurnWrites(p, v, n, h);
        assert all[..|all|] == all;
        DueTurnResumes(p, v, n, h, |all|);
      case Waiting(_) =>
      case Unstamped => FinishedUnstampedTurn(p, v, n, h);
    }
  }

  // The state a pass reaches when it stops after `k` writes and is then repeated.
  ghost function Repeated(p: Pass, v: View, order: seq<Name>, h: nat, k: nat): View
    requires k <= |PassWrites(p, v, order, h)|
  {
    var cut := Effects(v, PassWrites(p, v, order, h)[..k], p.now);
    Effects(cut, PassWrites(p, cut, order, h), p.now)
  }

  ghost function Finished(p: Pass, v: View, order: seq<Name>, h: nat): View {
    Effects(v, PassWrites(p, v, order, h), p.now)
  }

  // Crash-safe teardown: a pass stopped after any of its writes and repeated ends where the
  // uninterrupted pass ends, unless it stopped inside the removal of an autoscaler.
  lemma {:induction false} ReplayReachesSameEnd(p: Pass, v: View, order: seq<Name>, h: nat, k: nat)
    requires WellFormed(v) && Distinct(order)
    requires k <= |PassWrites(p, v, order, h)|
    ensures Repeated(p, v, order, h, k) == Finished(p, v, order, h)
       <==> !CutsRestore(v, PassWrites(p, v, order, h), k)
    decreases |order|
  {
    hide *;
    if order == [] {
      NothingToReplay(p, v, h, k);
    } else if k <= |TurnWrites(p, v, order[0], h)| {
      ReplayInsideTurn(p, v, order, h, k);
    } else {
      var turn := TurnWrites(p, v, order[0], h);
      AfterTurn(p, v, order, h);
      RestAfterTurn(p, v, order, h);
      ReplayReachesSameEnd(p, Effects(v, turn, p.now), order[1..], NextCount(p, v, order[0], h), k - |turn|);
      ReplayBeyondTurn(p, v, order, h, k);
    }
  }

  lemma NothingToReplay(p: Pass, v: View, h: nat, k: nat)
    requires k <= |PassWrites(p, v, [], h)|
    ensures Repeated(p, v, [], h, k) == Finished(p, v, [], h) && !CutsRestore(v, PassWrites(p, v, [], h), k)
  {
  }

  lemma ReplayBeyondTurn(p: Pass, v: View, order: seq<Name>, h: nat, k: nat)
    requires WellFormed(v) && Distinct(order) && order != []
    requires |TurnWrites(p, v, order[0], h)| < k <= |PassWrites(p, v, order, h)|
    requires
      var mid := Effects(v, TurnWrites(p, v, order[0], h), p.now);
      var h' := NextCount(p, v, order[0], h);
      var j := k - |TurnWrites(p, v, order[0], h)|;
      && j <= |PassWrites(p, mid, order[1..], h')|
      && (Repeated(p, mid, order[1..], h', j) == Finished(p, mid, order[1..], h')
          <==> !CutsRestore(mid, PassWrites(p, mid, order[1..], h'), j))
    ensures Repeated(p, v, order, h, k) == Finished(p, v, order, h)
       <==> !CutsRestore(v, PassWrites(p, v, order, h), k)
  {
    hide TurnWrites, NextCount, CutsRestore, Effects;
    var j := k - |TurnWrites(p, v, order[0], h)|;
    RestAfterTurn(p, v, order, h);
    RepeatAfterTurn(p, v, order, h, j);
    CutAfterTurn(p, v, order, h, j);
  }

  // Stopping inside the first turn and repeating the pass redoes that turn, then the rest.
  lemma RepeatInsideTurn(p: Pass, v: View, order: seq<Name>, h: nat, k: nat)
    requires WellFormed(v) && Distinct(order) && order != []
    requires k <= |TurnWrites(p, v, order[0], h)|
    ensures k <= |PassWrites(p, v, order, h)|
    ensures
      var turn := TurnWrites(p, v, order[0], h);
      var more := PassWrites(p, v, order[1..], NextCount(p, v, order[0], h));
      var cut := Effects(v, turn[..k], p.now);
      var again := Effects(cut, TurnWrites(p, cut, order[0], h), p.now);
      && Repeated(p, v, order, h, k) == Effects(again, more, p.now)
      && Finished(p, v, order, h) == Effects(Effects(v, turn, p.now), more, p.now)
  {
    var n, rest := order[0], order[1..];
    var turn := TurnWrites(p, v, n, h);
    var more := PassWrites(p, v, rest, NextCount(p, v, n, h));
    var cut := Effects(v, turn[..k], p.now);
    assert n !in rest;
    PassWritesUnfold(p, v, order, h);
    assert (turn + more)[..k] == turn[..k];
    RepeatedIs(p, v, order, h, k);
    FinishedIs(p, v, order, h);
    TurnSpares(p, v, n, h, k, rest);
    NextCountReplays(p, v, n, h, k);
    hide *;
    SameViewsSameWrites(p, v, cut, rest, NextCount(p, v, n, h));
    PassWritesUnfold(p, cut, order, h);
    EffectsConcat(cut, TurnWrites(p, cut, n, h), more, p.now);
    EffectsConcat(v, turn, more, p.now);
  }

  lemma NextCountReplays(p: Pass, v: View, n: Name, h: nat, k: nat)
    requires WellFormed(v) && k <= |TurnWrites(p, v, n, h)|
    ensures NextCount(p, Effects(v, TurnWrites(p, v, n, h)[..k], p.now), n, h) == NextCount(p, v, n, h)
  {
    TurnReplays(p, v, n, h, k);
  }

  lemma CutInsideTurn(p: Pass, v: View, order: seq<Name>, h: nat, k: nat)
    requires WellFormed(v) && Distinct(order) && order != []
    requires k <= |TurnWrites(p, v, order[0], h)|
    ensures CutsRestore(v, PassWrites(p, v, order, h), k) == CutsRestore(v, TurnWrites(p, v, order[0], h), k)
  {
    var n, rest := order[0], order[1..];
    var turn := TurnWrites(p, v, n, h);
    var more := PassWrites(p, v, rest, NextCount(p, v, n, h));
    PassWritesUnfold(p, v, order, h);
    PassWritesAbout(p, v, rest, NextCount(p, v, n, h));
    if n in v.versions { VersionWritesAbout(p, v, v.versions[n], h); }
    assert forall w :: w in turn ==> w.name == n;
    assert n !in rest;
    hide TurnWrites, NextCount, PassWrites, WellFormed;
    if k < |turn| {
      assert (turn + more)[k] == turn[k] && (k > 0 ==> (turn + more)[k - 1] == turn[k - 1]);
    } else if k < |turn + more| {
      assert (turn + more)[k] == more[0] && more[0] in more;
      if k > 0 {
        assert (turn + more)[k - 1] == turn[k - 1] && turn[k - 1] in turn;
      }
    }
  }

  // The rest of the pass does not make up for what the cut turn lost.
  lemma DifferenceSurvives(p: Pass, v: View, order: seq<Name>, h: nat, k: nat)
    requires WellFormed(v) && Distinct(order) && order != []
    requires k <= |TurnWrites(p, v, order[0], h)|
    requires
      var turn := TurnWrites(p, v, order[0], h);
      var cut := Effects(v, turn[..k], p.now);
      var again, end := Effects(cut, TurnWrites(p, cut, order[0], h), p.now), Effects(v, turn, p.now);
      order[0] in again.versions && order[0] in end.versions && again.versions[order[0]] != end.versions[order[0]]
    ensures
      var turn := TurnWrites(p, v, order[0], h);
      var cut := Effects(v, turn[..k], p.now);
      var again, end := Effects(cut, TurnWrites(p, cut, order[0], h), p.now), Effects(v, turn, p.now);
      var more := PassWrites(p, v, order[1..], NextCount(p, v, order[0], h));
      Effects(again, more, p.now) != Effects(end, more, p.now)
  {
    var n := order[0];
    var turn := TurnWrites(p, v, n, h);
    var cut := Effects(v, turn[..k], p.now);
    var again, end := Effects(cut, TurnWrites(p, cut, n, h), p.now), Effects(v, turn, p.now);
    var more := PassWrites(p, v, order[1..], NextCount(p, v, n, h));
    assert n !in order[1..];
    IdsKept(p, v, n, h, k);
    PassWritesAbout(p, v, order[1..], NextCount(p, v, n, h));
    hide TurnWrites, NextCount, PassWrites, WellFormed, Effects;
    assert forall w :: w in more ==> Spares(w, again, n) && Spares(w, end, n);
    SparedStaysSame(again, more, p.now, n);
    SparedStaysSame(end, more, p.now, n);
  }

  lemma ReplayInsideTurn(p: Pass, v: View, order: seq<Name>, h: nat, k: nat)
    requires WellFormed(v) && Distinct(order) && order != []
    requires k <= |TurnWrites(p, v, order[0], h)|
    ensures k <= |PassWrites(p, v, order, h)|
    ensures Repeated(p, v, order, h, k) == Finished(p, v, order, h)
       <==> !CutsRestore(v, PassWrites(p, v, order, h), k)
  {
    RepeatInsideTurn(p, v, order, h, k);
    CutInsideTurn(p, v, order, h, k);
    TurnReplays(p, v, order[0], h, k);
    hide TurnWrites, NextCount, PassWrites, WellFormed, Effects, CutsRestore, Repeated, Finished;
    if CutsRestore(v, TurnWrites(p, v, order[0], h), k) {
      DifferenceSurvives(p, v, order, h, k);
    }
  }

  // Replaying one name's turn from a cut does not change which deployment it carries.
  lemma IdsKept(p: Pass, v: View, n: Name, h: nat, k: nat)
    requires WellFormed(v) && k <= |TurnWrites(p, v, n, h)|
    ensures
      var cut := Effects(v, TurnWrites(p, v, n, h)[..k], p.now);
      var again := Effects(cut, TurnWrites(p, cut, n, h), p.now);
      var end := Effects(v, TurnWrites(p, v, n, h), p.now);
      && (n in again.versions ==> n in v.versions && again.versions[n].id == v.versions[n].id)
      && (n in end.versions ==> n in v.versions && end.versions[n].id == v.versions[n].id)
  {
    var turn := TurnWrites(p, v, n, h);
    if n in v.versions { VersionWritesAbout(p, v, v.versions[n], h); }
    assert forall w :: w in turn[..k] ==> w in turn;
    EffectsKeepWellFormed(v, turn[..k], p.now);
    EffectsKeepWellFormed(v, turn, p.now);
    var cut := Effects(v, turn[..k], p.now);
    if n in cut.versions { VersionWritesAbout(p, cut, cut.versions[n], h); }
    EffectsKeepWellFormed(cut, TurnWrites(p, cut, n, h), p.now);
  }

  lemma SameTurn(p: Pass, a: View, b: View, n: Name, h: nat)
    requires WellFormed(a) && WellFormed(b) && SameFor(a, b, n)
    ensures TurnWrites(p, a, n, h) == TurnWrites(p, b, n, h)
    ensures NextCount(p, a, n, h) == NextCount(p, b, n, h)
  {
  }

  lemma ApplyingAnAutoscalerAgain(v: View, n: Name, writes: seq<Write>, clock: Time)
    requires writes == [] || (writes == [EnsureHpa(n)] && n in v.hpas)
    ensures Effects(v, writes, clock) == v
  {
    EffectsOfFew(v, writes, clock);
    assert n in v.hpas ==> v.hpas + {n} == v.hpas;
  }

  // Once a name's turn is complete, stopping later changes nothing about its turn.
  lemma FinishedTurnStaysFinished(p: Pass, v: View, order: seq<Name>, h: nat, j: nat)
    requires WellFormed(v) && Distinct(order) && order != []
    requires
      var mid := Effects(v, TurnWrites(p, v, order[0], h), p.now);
      j <= |PassWrites(p, mid, order[1..], NextCount(p, v, order[0], h))|
    ensures
      var n := order[0];
      var mid := Effects(v, TurnWrites(p, v, n, h), p.now);
      var h' := NextCount(p, v, n, h);
      var cut := Effects(mid, PassWrites(p, mid, order[1..], h')[..j], p.now);
      && NextCount(p, cut, n, h) == h'
      && Effects(cut, TurnWrites(p, cut, n, h), p.now) == cut
      && Effects(cut, PassWrites(p, cut, order, h), p.now) == Effects(cut, PassWrites(p, cut, order[1..], h'), p.now)
  {
    var n, rest := order[0], order[1..];
    var turn := TurnWrites(p, v, n, h);
    var mid := Effects(v, turn, p.now);
    var h' := NextCount(p, v, n, h);
    assert turn[..|turn|] == turn;
    TurnSpares(p, v, n, h, |turn|, []);
    var more := PassWrites(p, mid, rest, h');
    var cut := Effects(mid, more[..j], p.now);
    assert n !in rest;
    RestSpares(p, mid, rest, h', n);
    assert forall w :: w in more[..j] ==> w in more;
    SparedStaysSame(mid, more[..j], p.now, n);
    PassWritesAbout(p, mid, rest, h');
    EffectsKeepWellFormed(mid, more[..j], p.now);
    FinishedTurn(p, v, n, h);
    SameTurn(p, mid, cut, n, h);
    var again := TurnWrites(p, cut, n, h);
    ApplyingAnAutoscalerAgain(cut, n, again, p.now);
    PassWritesUnfold(p, cut, order, h);
    EffectsConcat(cut, again, PassWrites(p, cut, rest, h'), p.now);
  }

  // The view once one name's turn is complete reads the same for every later name.
  lemma AfterTurn(p: Pass, v: View, order: seq<Name>, h: nat)
    requires WellFormed(v) && Distinct(order) && order != []
    ensures
      var mid := Effects(v, TurnWrites(p, v, order[0], h), p.now);
      && WellFormed(mid)
      && Distinct(order[1..])
      && (forall m :: m in order[1..] ==> SameFor(v, mid, m))
  {
    var turn := TurnWrites(p, v, order[0], h);
    assert turn[..|turn|] == turn;
    assert order[0] !in order[1..];
    TurnSpares(p, v, order[0], h, |turn|, order[1..]);
  }

  // The rest of a pass once one name's turn is complete.
  lemma RestAfterTurn(p: Pass, v: View, order: seq<Name>, h: nat)
    requires WellFormed(v) && Distinct(order) && order != []
    ensures
      var n := order[0];
      var turn := TurnWrites(p, v, n, h);
      var mid := Effects(v, turn, p.now);
      && PassWrites(p, v, order, h) == turn + PassWrites(p, mid, order[1..], NextCount(p, v, n, h))
      && Finished(p, v, order, h) == Finished(p, mid, order[1..], NextCount(p, v, n, h))
  {
    var n := order[0];
    var turn := TurnWrites(p, v, n, h);
    PassWritesUnfold(p, v, order, h);
    AfterTurn(p, v, order, h);
    var mid := Effects(v, turn, p.now);
    SameViewsSameWrites(p, v, mid, order[1..], NextCount(p, v, n, h));
    EffectsConcat(v, turn, PassWrites(p, mid, order[1..], NextCount(p, v, n, h)), p.now);
  }

  lemma CutAfterTurn(p: Pass, v: View, order: seq<Name>, h: nat, j: nat)
    requires WellFormed(v) && Distinct(order) && order != []
    requires
      var mid := Effects(v, TurnWrites(p, v, order[0], h), p.now);
      0 < j <= |PassWrites(p, mid, order[1..], NextCount(p, v, order[0], h))|
    ensures
      var turn := TurnWrites(p, v, order[0], h);
      var mid := Effects(v, turn, p.now);
      var more := PassWrites(p, mid, order[1..], NextCount(p, v, order[0], h));
      CutsRestore(v, turn + more, |turn| + j) == CutsRestore(mid, more, j)
  {
    AfterTurn(p, v, order, h);
    var turn := TurnWrites(p, v, order[0], h);
    var mid := Effects(v, turn, p.now);
    var more := PassWrites(p, mid, order[1..], NextCount(p, v, order[0], h));
    if j < |more| {
      PassWritesAbout(p, mid, order[1..], NextCount(p, v, order[0], h));
      assert (turn + more)[|turn| + j] == more[j] && (turn + more)[|turn| + j - 1] == more[j - 1];
      assert more[j] in more;
      assert SameFor(v, mid, more[j].name);
    }
  }

  lemma FinishedIs(p: Pass, v: View, order: seq<Name>, h: nat)
    ensures Finished(p, v, order, h) == Effects(v, PassWrites(p, v, order, h), p.now)
  {
  }

  lemma RepeatedIs(p: Pass, v: View, order: seq<Name>, h: nat, k: nat)
    requires k <= |PassWrites(p, v, order, h)|
    ensures
      var cut := Effects(v, PassWrites(p, v, order, h)[..k], p.now);
      Repeated(p, v, order, h, k) == Effects(cut, PassWrites(p, cut, order, h), p.now)
  {
  }

  lemma PrefixOfConcat<T>(a: seq<T>, b: seq<T>, j: nat)
    requires j <= |b|
    ensures (a + b)[..|a| + j] == a + b[..j]
  {
  }

  // Stopping in the rest of the pass and repeating all of it repeats the rest only.
  lemma RepeatAfterTurn(p: Pass, v: View, order: seq<Name>, h: nat, j: nat)
    requires WellFormed(v) && Distinct(order) && order != []
    requires
      var mid := Effects(v, TurnWrites(p, v, order[0], h), p.now);
      0 < j <= |PassWrites(p, mid, order[1..], NextCount(p, v, order[0], h))|
    ensures
      var turn := TurnWrites(p, v, order[0], h);
      var mid := Effects(v, turn, p.now);
      var h' := NextCount(p, v, order[0], h);
      var all := turn + PassWrites(p, mid, order[1..], h');
      var cut := Effects(v, all[..|turn| + j], p.now);
      Effects(cut, PassWrites(p, cut, order, h), p.now) == Repeated(p, mid, order[1..], h', j)
  {
    hide *;
    var turn := TurnWrites(p, v, order[0], h);
    var mid := Effects(v, turn, p.now);
    var more := PassWrites(p, mid, order[1..], NextCount(p, v, order[0], h));
    var cut := Effects(mid, more[..j], p.now);
    RepeatedIs(p, mid, order[1..], NextCount(p, v, order[0], h), j);
    FinishedTurnStaysFinished(p, v, order, h, j);
    assert Effects(v, (turn + more)[..|turn| + j], p.now) == cut by {
      PrefixOfConcat(turn, more, j);
      EffectsConcat(v, turn, more[..j], p.now);
    }
  }
}
