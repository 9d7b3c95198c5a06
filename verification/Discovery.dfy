/** The discovery client: one thread keeps the set of systems found and reports the
    differences into a table of pending updates; another grabs that table whenever
    it gets round to it, tells the registered targets and updates what it knows. */
module Discovery {
  import opened Tables

  type Name = string

  /** A system's information message; equal messages are equal values. */
  type Info = nat

  type Systems = map<Name, Info>

  /** An update: what is now known of a system, or None when it is gone. */
  type Updates = map<Name, Option<Info>>

  /** One DiscoveryUpdate call. */
  datatype Call = Call(name: Name, info: Option<Info>)

  function Read(m: Systems, n: Name): Option<Info> {
    if n in m then Some(m[n]) else None
  }

  lemma SameReads(a: Systems, b: Systems)
    requires forall n :: Read(a, n) == Read(b, n)
    ensures a == b
  {
    forall n | n in a
      ensures n in b && a[n] == b[n]
    {
      assert Read(a, n) == Read(b, n);
    }
    forall n | n in b
      ensures n in a
    {
      assert Read(a, n) == Read(b, n);
    }
  }

  /** PutOrRemove: what a listener makes of a call. */
  function Learn(m: Systems, c: Call): Systems {
    if c.info.Some? then m[c.name := c.info.value] else m - {c.name}
  }

  function LearnAll(m: Systems, calls: seq<Call>): Systems {
    if calls == [] then m else Learn(LearnAll(m, calls[..|calls| - 1]), calls[|calls| - 1])
  }

  lemma LearnOneMore(m: Systems, calls: seq<Call>, c: Call)
    ensures LearnAll(m, calls + [c]) == Learn(LearnAll(m, calls), c)
  {
    assert (calls + [c])[..|calls|] == calls;
  }

  lemma {:induction false} LearnMore(m: Systems, a: seq<Call>, b: seq<Call>)
    ensures LearnAll(m, a + b) == LearnAll(LearnAll(m, a), b)
  {
    if b == [] {
      assert a + b == a;
    } else {
      var n := |b| - 1;
      assert a + b == (a + b[..n]) + [b[n]] && b == b[..n] + [b[n]];
      LearnMore(m, a, b[..n]);
      LearnOneMore(m, a + b[..n], b[n]);
    }
  }

  // ----- Going through a table -----

  /** A table's entries as calls, in the order of `names`, so far as the first `n`. */
  function Listing(names: seq<Name>, table: Updates, n: nat): seq<Call>
    requires n <= |names|
  {
    if n == 0 then []
    else Listing(names, table, n - 1) + if names[n - 1] in table then [Call(names[n - 1], table[names[n - 1]])] else []
  }

  ghost predicate Named(names: seq<Name>, n: nat, x: Name) {
    exists i :: 0 <= i < n && i < |names| && names[i] == x
  }

  lemma NamedNext(names: seq<Name>, n: nat, x: Name)
    requires 0 < n <= |names|
    ensures Named(names, n, x) <==> Named(names, n - 1, x) || names[n - 1] == x
  {
  }

  lemma {:induction false} ReadListing(m: Systems, names: seq<Name>, table: Updates, n: nat, x: Name)
    requires n <= |names|
    ensures Read(LearnAll(m, Listing(names, table, n)), x) ==
            if Named(names, n, x) && x in table then table[x] else Read(m, x)
  {
    if n > 0 {
      hide Named, LearnAll;
      ReadListing(m, names, table, n - 1, x);
      NamedNext(names, n, x);
      var before := Listing(names, table, n - 1);
      if names[n - 1] in table {
        LearnOneMore(m, before, Call(names[n - 1], table[names[n - 1]]));
      } else {
        assert Listing(names, table, n) == before + [] == before;
      }
    }
  }

  /** The names cover every key of a table. */
  ghost predicate Covers(names: seq<Name>, keys: set<Name>) {
    forall x :: x in keys ==> x in names
  }

  lemma ReadWholeListing(m: Systems, names: seq<Name>, table: Updates, x: Name)
    requires Covers(names, table.Keys)
    ensures Read(LearnAll(m, Listing(names, table, |names|)), x) == if x in table then table[x] else Read(m, x)
  {
    ReadListing(m, names, table, |names|, x);
    assert Named(names, |names|, x) <==> x in names;
  }

  // ----- Reporting differences -----

  function Gone(reported: Systems, news: Systems): Updates {
    map x | x in reported && x !in news :: None
  }

  function Changed(reported: Systems, news: Systems): Updates {
    map x | x in news && Read(reported, x) != Some(news[x]) :: Some(news[x])
  }

  /** What UpdateResultSet reports: first the systems gone missing, then those that
      are new or have changed. */
  function Reports(names: seq<Name>, reported: Systems, news: Systems): seq<Call> {
    Listing(names, Gone(reported, news), |names|) + Listing(names, Changed(reported, news), |names|)
  }

  /** The reports turn the old result set into the new one. */
  lemma ReportsAddUp(names: seq<Name>, reported: Systems, news: Systems)
    requires Covers(names, reported.Keys + news.Keys)
    ensures LearnAll(reported, Reports(names, reported, news)) == news
  {
    hide Listing, LearnAll;
    var a, b := Listing(names, Gone(reported, news), |names|), Listing(names, Changed(reported, news), |names|);
    LearnMore(reported, a, b);
    forall x
      ensures Read(LearnAll(LearnAll(reported, a), b), x) == Read(news, x)
    {
      ReadWholeListing(reported, names, Gone(reported, news), x);
      ReadWholeListing(LearnAll(reported, a), names, Changed(reported, news), x);
    }
    SameReads(LearnAll(LearnAll(reported, a), b), news);
  }

  // ----- Pending updates -----

  /** ReportSystemUpdate: a later report of a system replaces an earlier one. */
  function Post(pending: Updates, c: Call): Updates {
    pending[c.name := c.info]
  }

  /** The systems known once the updates are applied. */
  function Overlay(known: Systems, updates: Updates): Systems {
    map x | x in known.Keys + updates.Keys && (x in updates ==> updates[x].Some?) ::
      if x in updates then updates[x].value else known[x]
  }

  lemma ReadOverlay(known: Systems, updates: Updates, x: Name)
    ensures Read(Overlay(known, updates), x) == if x in updates then updates[x] else Read(known, x)
  {
  }

  lemma OverlayNothing(known: Systems)
    ensures Overlay(known, map[]) == known
  {
  }

  /** Coalescing loses nothing: posting a report and then overlaying is overlaying
      and then learning of it. */
  lemma OverlayPost(known: Systems, pending: Updates, c: Call)
    ensures Overlay(known, Post(pending, c)) == Learn(Overlay(known, pending), c)
  {
    forall x
      ensures Read(Overlay(known, Post(pending, c)), x) == Read(Learn(Overlay(known, pending), c), x)
    {
      ReadOverlay(known, pending, x);
      ReadOverlay(known, Post(pending, c), x);
    }
    SameReads(Overlay(known, Post(pending, c)), Learn(Overlay(known, pending), c));
  }

  // ----- Telling a target -----

  /** What a new target is told first: all that is known, except what the updates
      are about to cover. */
  function Uncovered(known: Systems, updates: Updates): Updates {
    map x | x in known && x !in updates :: Some(known[x])
  }

  function Deliveries(names: seq<Name>, known: Systems, updates: Updates, isNew: bool): seq<Call> {
    (if isNew then Listing(names, Uncovered(known, updates), |names|) else []) + Listing(names, updates, |names|)
  }

  /** A new target that knows nothing, and any that knows what the client knew, end
      with what the client then knows. */
  lemma DeliveriesTellAll(names: seq<Name>, known: Systems, updates: Updates, isNew: bool, start: Systems)
    requires Covers(names, known.Keys + updates.Keys)
    requires start == known || (isNew && start == map[])
    ensures LearnAll(start, Deliveries(names, known, updates, isNew)) == Overlay(known, updates)
  {
    hide Listing, LearnAll, Overlay;
    var a, b := if isNew then Listing(names, Uncovered(known, updates), |names|) else [], Listing(names, updates, |names|);
    LearnMore(start, a, b);
    forall x
      ensures Read(LearnAll(LearnAll(start, a), b), x) == Read(Overlay(known, updates), x)
    {
      ReadOverlay(known, updates, x);
      ReadWholeListing(LearnAll(start, a), names, updates, x);
      if isNew {
        ReadWholeListing(start, names, Uncovered(known, updates), x);
      } else {
        LearnNothing(start);
      }
    }
    SameReads(LearnAll(LearnAll(start, a), b), Overlay(known, updates));
  }

  lemma LearnNothing(m: Systems)
    ensures LearnAll(m, []) == m
  {
  }

  // ----- Nobody is told twice, or told what has not changed -----

  lemma {:induction false} ListingMeans(names: seq<Name>, table: Updates, n: nat, c: Call)
    requires n <= |names|
    ensures c in Listing(names, table, n) <==>
            Named(names, n, c.name) && c.name in table && c.info == table[c.name]
  {
    if n > 0 {
      hide Named;
      ListingMeans(names, table, n - 1, c);
      NamedNext(names, n, c.name);
    }
  }

  /** The reports are exactly of the systems the two result sets do not agree on, each
      with what the new one says. */
  lemma ReportsOnlyChanges(names: seq<Name>, reported: Systems, news: Systems, c: Call)
    requires Covers(names, reported.Keys + news.Keys)
    ensures c in Reports(names, reported, news) <==>
            Read(reported, c.name) != Read(news, c.name) && c.info == Read(news, c.name)
  {
    hide Listing;
    ListingMeans(names, Gone(reported, news), |names|, c);
    ListingMeans(names, Changed(reported, news), |names|, c);
    if c.name in reported.Keys + news.Keys {
      assert Named(names, |names|, c.name) by { assert c.name in names; }
    }
  }

  ghost predicate OncePerName(calls: seq<Call>) {
    forall i, j :: 0 <= i < j < |calls| ==> calls[i].name != calls[j].name
  }

  lemma {:induction false} ListingOnce(names: seq<Name>, table: Updates, n: nat)
    requires n <= |names| && Distinct(names)
    ensures OncePerName(Listing(names, table, n))
  {
    if n > 0 {
      ListingOnce(names, table, n - 1);
      var before := Listing(names, table, n - 1);
      forall i | 0 <= i < |before|
        ensures before[i].name != names[n - 1]
      {
        ListingMeans(names, table, n - 1, before[i]);
      }
    }
  }

  lemma ListingsOnce(names: seq<Name>, first: Updates, second: Updates)
    requires Distinct(names) && first.Keys !! second.Keys
    ensures OncePerName(Listing(names, first, |names|) + Listing(names, second, |names|))
  {
    var a, b := Listing(names, first, |names|), Listing(names, second, |names|);
    ListingOnce(names, first, |names|);
    ListingOnce(names, second, |names|);
    forall i, j | 0 <= i < |a| && 0 <= j < |b|
      ensures a[i].name != b[j].name
    {
      ListingMeans(names, first, |names|, a[i]);
      ListingMeans(names, second, |names|, b[j]);
    }
  }

  /** One pass reports a system at most once, and one dispatch tells a target of it at
      most once, a new target's backlog included. */
  lemma ToldOnce(names: seq<Name>, reported: Systems, news: Systems, known: Systems, updates: Updates, isNew: bool)
    requires Distinct(names)
    ensures OncePerName(Reports(names, reported, news))
    ensures OncePerName(Deliveries(names, known, updates, isNew))
  {
    ListingsOnce(names, Gone(reported, news), Changed(reported, news));
    ListingsOnce(names, Uncovered(known, updates), updates);
    ListingOnce(names, updates, |names|);
    assert [] + Listing(names, updates, |names|) == Listing(names, updates, |names|);
  }
}
