// What one pass of cleanup amounts to: how many superseded versions it keeps for rollback and
// which, and that repeating it at once has nothing left to do.
module Outcome {
  import opened Base
  import opened Usage
  import opened Policy
  import opened Cleanup
  import opened Replay

  // Versions due for removal among the first `i` of the order.
  ghost function DueBefore(p: Pass, view: View, order: seq<Name>, i: nat): nat
    requires i <= |order|
  {
    if i == 0 then 0
    else
      DueBefore(p, view, order, i - 1)
      + if order[i - 1] in view.versions && Judge(p, view.usage, view.versions[order[i - 1]]).Due? then 1 else 0
  }

  // How many versions a pass keeps for rollback in all.
  ghost function Quota(p: Pass): nat {
    if p.mode.IsDeleting() then 0 else Max(0, p.rsd.revisionHistoryLimit)
  }

  // The `i`-th version is due for removal but is among the newest that fit the quota.
  ghost predicate Kept(p: Pass, view: View, order: seq<Name>, i: nat)
    requires i < |order|
  {
    && order[i] in view.versions
    && Judge(p, view.usage, view.versions[order[i]]).Due?
    && DueBefore(p, view, order, i) < Quota(p)
  }

  // The loop's counter, in terms of what came before.
  ghost function KeptBefore(p: Pass, view: View, order: seq<Name>, i: nat): nat
    requires i <= |order|
  {
    Min(Quota(p), DueBefore(p, view, order, i))
  }

  lemma CounterDecides(p: Pass, view: View, order: seq<Name>, i: nat)
    requires i < |order| && order[i] in view.versions
    ensures
      var v := view.versions[order[i]];
      && (Retains(p, view.usage, v, KeptBefore(p, view, order, i)) <==> Kept(p, view, order, i))
      && KeptBefore(p, view, order, i + 1)
         == KeptBefore(p, view, order, i) + if Kept(p, view, order, i) then 1 else 0
  {
  }

  // What is written from the `i`-th version on.
  ghost function WritesFrom(p: Pass, view: View, order: seq<Name>, i: nat): seq<Write>
    requires i <= |order|
  {
    PassWrites(p, view, order[i..], KeptBefore(p, view, order, i))
  }

  lemma WritesUnfold(p: Pass, view: View, order: seq<Name>, i: nat)
    requires i < |order| && order[i] in view.versions
    ensures
      WritesFrom(p, view, order, i)
      == VersionWrites(p, view, view.versions[order[i]], KeptBefore(p, view, order, i))
         + WritesFrom(p, view, order, i + 1)
  {
    CounterDecides(p, view, order, i);
    assert order[i..][0] == order[i] && order[i..][1..] == order[i + 1..];
  }

  lemma {:induction false} DueBeforeMonotone(p: Pass, view: View, order: seq<Name>, i: nat, j: nat)
    requires i <= j <= |order|
    ensures DueBefore(p, view, order, i) <= DueBefore(p, view, order, j)
    ensures i < j && order[i] in view.versions && Judge(p, view.usage, view.versions[order[i]]).Due? ==>
              DueBefore(p, view, order, i) < DueBefore(p, view, order, j)
    decreases j
  {
    if i < j {
      DueBeforeMonotone(p, view, order, i, j - 1);
    }
  }

  // The versions kept for rollback are the newest that are due: none that is torn down is newer.
  lemma KeptAreNewest(p: Pass, view: View, order: seq<Name>, except: Option<Name>, i: nat, j: nat)
    requires IsNewestFirst(order, view.versions, except) && i < |order| && j < |order|
    requires Kept(p, view, order, i)
    requires Judge(p, view.usage, view.versions[order[j]]).Due? && !Kept(p, view, order, j)
    ensures view.versions[order[i]].created >= view.versions[order[j]].created
  {
    if j < i {
      DueBeforeMonotone(p, view, order, j, i);
    }
  }

  ghost function CountKept(p: Pass, view: View, order: seq<Name>, i: nat): nat
    requires i <= |order|
  {
    if i == 0 then 0
    else CountKept(p, view, order, i - 1) + if Kept(p, view, order, i - 1) then 1 else 0
  }

  // Exactly min(limit, due) versions are kept in a rollout, and none in a deletion.
  lemma {:induction false} KeptCount(p: Pass, view: View, order: seq<Name>, i: nat)
    requires i <= |order|
    ensures CountKept(p, view, order, i)
         == if p.mode.IsDeleting() then 0
            else Min(Max(0, p.rsd.revisionHistoryLimit), DueBefore(p, view, order, i))
  {
    if i > 0 {
      KeptCount(p, view, order, i - 1);
      if order[i - 1] in view.versions {
        CounterDecides(p, view, order, i - 1);
      }
    }
  }

  // Repeating a finished pass at the same instant only applies autoscalers that are there.
  lemma {:induction false} RepeatWritesNothing(p: Pass, v: View, order: seq<Name>, h: nat)
    requires WellFormed(v) && Distinct(order)
    ensures
      var end := Finished(p, v, order, h);
      forall w :: w in PassWrites(p, end, order, h) ==> w.EnsureHpa? && w.name in end.hpas
    decreases |order|
  {
    hide *;
    if order == [] {
      EmptyPass(p, Finished(p, v, order, h), h);
    } else {
      var mid := Effects(v, TurnWrites(p, v, order[0], h), p.now);
      var h' := NextCount(p, v, order[0], h);
      AfterTurn(p, v, order, h);
      RepeatWritesNothing(p, mid, order[1..], h');
      RestAfterTurn(p, v, order, h);
      var end := Finished(p, mid, order[1..], h');
      FirstTurnDone(p, v, order, h);
      PassWritesUnfold(p, end, order, h);
    }
  }

  lemma EmptyPass(p: Pass, v: View, h: nat)
    ensures PassWrites(p, v, [], h) == []
  {
  }

  // At the end of the pass the first name's turn is still done.
  lemma FirstTurnDone(p: Pass, v: View, order: seq<Name>, h: nat)
    requires WellFormed(v) && Distinct(order) && order != []
    ensures
      var n := order[0];
      var mid := Effects(v, TurnWrites(p, v, n, h), p.now);
      var h' := NextCount(p, v, n, h);
      var end := Finished(p, mid, order[1..], h');
      && (forall w :: w in TurnWrites(p, end, n, h) ==> w.EnsureHpa? && w.name in end.hpas)
      && NextCount(p, end, n, h) == h'
  {
    var n := order[0];
    var mid := Effects(v, TurnWrites(p, v, n, h), p.now);
    var h' := NextCount(p, v, n, h);
    var more := PassWrites(p, mid, order[1..], h');
    AfterTurn(p, v, order, h);
    FinishedTurn(p, v, n, h);
    assert n !in order[1..];
    RestSpares(p, mid, order[1..], h', n);
    SparedStaysSame(mid, more, p.now, n);
    PassWritesAbout(p, mid, order[1..], h');
    EffectsKeepWellFormed(mid, more, p.now);
    SameTurn(p, mid, Effects(mid, more, p.now), n, h);
  }
}
