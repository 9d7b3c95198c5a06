/** The discovery client's tables, changed in place. The order in which a table is
    gone through is a parameter. */
module DiscoveryObject {
  import opened Tables
  import opened Discovery
  import opened DiscoveryRuns

  class SystemDiscoveryClient {
    var reportedCookedResults: Systems
    var pendingUpdates: Updates
    var knownInfos: Systems
    /** Each target's is-new flag, and the DiscoveryUpdate calls it was given. */
    var targets: map<nat, Target>

    ghost predicate Valid()
      reads this
    {
      Overlay(knownInfos, pendingUpdates) == reportedCookedResults
    }

    ghost predicate Told()
      reads this
    {
      forall t :: t in targets ==> IsTold(targets[t], knownInfos)
    }

    constructor ()
      ensures Valid() && Told() && reportedCookedResults == map[] && targets == map[]
    {
      reportedCookedResults, pendingUpdates, knownInfos, targets := map[], map[], map[], map[];
      new;
      OverlayNothing(knownInfos);
    }

    method ReportSystemUpdate(systemName: Name, info: Option<Info>)
      modifies this`pendingUpdates
      ensures pendingUpdates == Post(old(pendingUpdates), Call(systemName, info))
    {
      pendingUpdates := pendingUpdates[systemName := info];
    }

    method ReportGone(news: Systems, names: seq<Name>)
      modifies this`pendingUpdates
      ensures pendingUpdates == PostAll(old(pendingUpdates), Listing(names, Gone(reportedCookedResults, news), |names|))
    {
      for i := 0 to |names|
        invariant pendingUpdates == PostAll(old(pendingUpdates), Listing(names, Gone(reportedCookedResults, news), i))
      {
        PostOneMore(old(pendingUpdates), names, Gone(reportedCookedResults, news), i);
        if names[i] in reportedCookedResults && names[i] !in news {
          ReportSystemUpdate(names[i], None);
        }
      }
    }

    method ReportChanged(news: Systems, names: seq<Name>)
      modifies this`pendingUpdates
      ensures pendingUpdates == PostAll(old(pendingUpdates), Listing(names, Changed(reportedCookedResults, news), |names|))
    {
      for i := 0 to |names|
        invariant pendingUpdates == PostAll(old(pendingUpdates), Listing(names, Changed(reportedCookedResults, news), i))
      {
        PostOneMore(old(pendingUpdates), names, Changed(reportedCookedResults, news), i);
        if names[i] in news {
          var info := news[names[i]];
          if names[i] !in reportedCookedResults || reportedCookedResults[names[i]] != info {
            ReportSystemUpdate(names[i], Some(info));
          }
        }
      }
    }

    /** With the differences pending, what is known adds up to the new result set. */
    method UpdateResultSet(newCookedResults: Systems, names: seq<Name>)
      requires Valid() && Covers(names, reportedCookedResults.Keys + newCookedResults.Keys)
      modifies this`pendingUpdates, this`reportedCookedResults
      ensures Valid() && reportedCookedResults == newCookedResults
      ensures pendingUpdates == PostAll(old(pendingUpdates), Reports(names, old(reportedCookedResults), newCookedResults))
    {
      hide Listing, LearnAll, Overlay, PostAll;
      ghost var pending, reported := pendingUpdates, reportedCookedResults;
      ReportsAddUp(names, reported, newCookedResults);
      ReportGone(newCookedResults, names);
      ReportChanged(newCookedResults, names);
      PostMore(pending, Listing(names, Gone(reported, newCookedResults), |names|),
               Listing(names, Changed(reported, newCookedResults), |names|));
      OverlayPostAll(knownInfos, pending, Reports(names, reported, newCookedResults));
      reportedCookedResults := newCookedResults;
    }

    method GrabUpdates() returns (updates: Updates)
      modifies this`pendingUpdates
      ensures updates == old(pendingUpdates) && pendingUpdates == map[]
    {
      updates := pendingUpdates;
      pendingUpdates := map[];
    }

    /** One target's calls: the backlog if it is new, then the updates. */
    method NotifyTarget(t: nat, updates: Updates, names: seq<Name>)
      requires t in targets
      modifies this`targets
      ensures targets == old(targets)[t := Tell(names, knownInfos, updates, old(targets)[t])]
    {
      var calls := targets[t].calls;
      if targets[t].isNew {
        var backlog := [];
        for i := 0 to |names|
          invariant backlog == Listing(names, Uncovered(knownInfos, updates), i)
        {
          if names[i] in knownInfos && names[i] !in updates {
            backlog := backlog + [Call(names[i], Some(knownInfos[names[i]]))];
          }
        }
        calls := calls + backlog;
      }
      var current := [];
      for i := 0 to |names|
        invariant current == Listing(names, updates, i)
      {
        if names[i] in updates {
          current := current + [Call(names[i], updates[names[i]])];
        }
      }
      CallsConcat(targets[t].calls, Listing(names, Uncovered(knownInfos, updates), |names|), current);
      targets := targets[t := Target(false, calls + current)];
    }

    method NotifyTargets(updates: Updates, names: seq<Name>)
      modifies this`targets
      ensures targets == map t | t in old(targets) :: Tell(names, knownInfos, updates, old(targets)[t])
    {
      hide Tell;
      var todo := targets.Keys;
      while todo != {}
        invariant todo <= targets.Keys == old(targets).Keys
        invariant forall t :: t in targets ==>
          targets[t] == if t in todo then old(targets)[t] else Tell(names, knownInfos, updates, old(targets)[t])
        decreases |todo|
      {
        var t :| t in todo;
        NotifyTarget(t, updates, names);
        todo := todo - {t};
      }
    }

    method AdoptUpdates(updates: Updates, names: seq<Name>)
      requires Covers(names, knownInfos.Keys + updates.Keys)
      modifies this`knownInfos
      ensures knownInfos == Overlay(old(knownInfos), updates)
    {
      hide Overlay;
      ghost var was := knownInfos;
      for i := 0 to |names|
        invariant knownInfos == LearnAll(was, Listing(names, updates, i))
      {
        ghost var before := Listing(names, updates, i);
        assert before + [] == before;
        if names[i] in updates {
          LearnOneMore(was, before, Call(names[i], updates[names[i]]));
          if updates[names[i]].Some? {
            knownInfos := knownInfos[names[i] := updates[names[i]].value];
          } else {
            knownInfos := knownInfos - {names[i]};
          }
        }
      }
      DeliveriesTellAll(names, was, updates, false, was);
      assert [] + Listing(names, updates, |names|) == Listing(names, updates, |names|);
    }

    /** After a dispatch nothing is pending, so the known systems are the reported
        ones, and every target has been told exactly that. */
    method DispatchCallbacks(names: seq<Name>)
      requires Valid() && Told() && Covers(names, knownInfos.Keys + pendingUpdates.Keys)
      modifies this
      ensures Valid() && Told() && pendingUpdates == map[]
      ensures reportedCookedResults == old(reportedCookedResults) && knownInfos == reportedCookedResults
      ensures targets.Keys == old(targets).Keys && forall t :: t in targets ==> !targets[t].isNew
    {
      hide Overlay, LearnAll, Tell;
      ghost var was, known := targets, knownInfos;
      var updates := GrabUpdates();
      NotifyTargets(updates, names);
      AdoptUpdates(updates, names);
      OverlayNothing(knownInfos);
      forall t | t in targets
        ensures !targets[t].isNew && LearnAll(map[], targets[t].calls) == knownInfos
      {
        TellTells(names, known, updates, was[t]);
        TellIsNotNew(names, known, updates, was[t]);
      }
    }

    /** Everything is forgotten; the targets are left as they were told. */
    method Stop()
      modifies this
      ensures Valid() && reportedCookedResults == map[] && pendingUpdates == map[] && knownInfos == map[]
      ensures targets == old(targets)
    {
      reportedCookedResults, pendingUpdates, knownInfos := map[], map[], map[];
      OverlayNothing(knownInfos);
    }

    /** A target is new, again if it was registered already. */
    method RegisterTarget(newTarget: nat)
      requires Told()
      modifies this`targets
      ensures Told()
      ensures newTarget in targets && targets[newTarget].isNew && targets - {newTarget} == old(targets) - {newTarget}
      ensures targets[newTarget].calls == if newTarget in old(targets) then old(targets)[newTarget].calls else []
    {
      targets := targets[newTarget := Target(true, if newTarget in targets then targets[newTarget].calls else [])];
    }

    method UnregisterTarget(target: nat)
      requires Told()
      modifies this`targets
      ensures Told() && targets == old(targets) - {target}
    {
      targets := targets - {target};
    }
  }

  // ----- Posting several reports -----

  function PostAll(pending: Updates, calls: seq<Call>): Updates {
    if calls == [] then pending else Post(PostAll(pending, calls[..|calls| - 1]), calls[|calls| - 1])
  }

  lemma PostSnoc(pending: Updates, calls: seq<Call>, c: Call)
    ensures PostAll(pending, calls + [c]) == Post(PostAll(pending, calls), c)
  {
    assert (calls + [c])[..|calls|] == calls;
  }

  lemma PostOneMore(pending: Updates, names: seq<Name>, table: Updates, i: nat)
    requires i < |names|
    ensures PostAll(pending, Listing(names, table, i + 1)) ==
            var before := PostAll(pending, Listing(names, table, i));
            if names[i] in table then Post(before, Call(names[i], table[names[i]])) else before
  {
    var before := Listing(names, table, i);
    assert before + [] == before;
    if names[i] in table {
      PostSnoc(pending, before, Call(names[i], table[names[i]]));
    }
  }

  lemma {:induction false} PostMore(pending: Updates, a: seq<Call>, b: seq<Call>)
    ensures PostAll(pending, a + b) == PostAll(PostAll(pending, a), b)
  {
    if b == [] {
      assert a + b == a;
    } else {
      var n := |b| - 1;
      assert a + b == (a + b[..n]) + [b[n]];
      PostMore(pending, a, b[..n]);
      PostSnoc(pending, a + b[..n], b[n]);
    }
  }

  /** Pending reports, coalesced, mean what the reports mean one by one. */
  lemma {:induction false} OverlayPostAll(known: Systems, pending: Updates, calls: seq<Call>)
    ensures Overlay(known, PostAll(pending, calls)) == LearnAll(Overlay(known, pending), calls)
  {
    if calls != [] {
      var n := |calls| - 1;
      OverlayPostAll(known, pending, calls[..n]);
      OverlayPost(known, PostAll(pending, calls[..n]), calls[n]);
    }
  }

  lemma CallsConcat(a: seq<Call>, b: seq<Call>, c: seq<Call>)
    ensures (a + b) + c == a + (b + c) && a + c == a + ([] + c)
  {
  }

  lemma TellIsNotNew(names: seq<Name>, known: Systems, updates: Updates, t: Target)
    ensures !Tell(names, known, updates, t).isNew
  {
  }
}
