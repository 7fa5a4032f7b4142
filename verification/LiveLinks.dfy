/** Where a path leads (core/src/engine.rs:366-380): following links to their end, however many there are. */
module LiveLinks {
  import opened Basics
  import opened CodeModel
  import opened LiveModel

  /** Following this many links leads from `f` to `g`. */
  predicate Leads(disk: Disk, f: FileId, g: FileId, links: nat)
    decreases links
  {
    if links == 0 then f == g
    else At(disk, f).Link? && At(disk, f).target.Some? && Leads(disk, At(disk, f).target.value, g, links - 1)
  }

  lemma {:induction false} LeadsOn(disk: Disk, f: FileId, g: FileId, h: FileId, i: nat, j: nat)
    requires Leads(disk, f, g, i) && Leads(disk, g, h, j)
    ensures Leads(disk, f, h, i + j)
    decreases i
  {
    if i > 0 { LeadsOn(disk, At(disk, f).target.value, g, h, i - 1, j); }
  }

  /** There is one way on: the shorter of two ways leads to the start of the rest of the longer one. */
  lemma {:induction false} OneWay(disk: Disk, f: FileId, g: FileId, h: FileId, i: nat, j: nat)
    requires Leads(disk, f, g, i) && Leads(disk, f, h, j) && i <= j
    ensures Leads(disk, g, h, j - i)
    decreases i
  {
    if i > 0 { OneWay(disk, At(disk, f).target.value, g, h, i - 1, j - 1); }
  }

  /** The end of the way: no link leads on from here. */
  predicate IsEnd(disk: Disk, g: FileId) {
    !At(disk, g).Link? || At(disk, g).target.None?
  }

  lemma OneEnd(disk: Disk, f: FileId, g: FileId, h: FileId, i: nat, j: nat)
    requires Leads(disk, f, g, i) && IsEnd(disk, g) && Leads(disk, f, h, j) && IsEnd(disk, h)
    ensures g == h
  {
    if i <= j { OneWay(disk, f, g, h, i, j); } else { OneWay(disk, f, h, g, j, i); }
  }

  /** A loop has no end. */
  lemma {:induction false} LoopHasNoEnd(disk: Disk, f: FileId, g: FileId, loop: nat, links: nat)
    requires loop > 0 && Leads(disk, f, f, loop) && Leads(disk, f, g, links)
    ensures !IsEnd(disk, g)
    decreases links
  {
    if links < loop {
      OneWay(disk, f, g, f, links, loop);
    } else {
      OneWay(disk, f, f, g, loop, links);
      LoopHasNoEnd(disk, f, g, loop, links - loop);
    }
  }

  /** The way from `f` ends in `g`. */
  ghost predicate EndsIn(disk: Disk, f: FileId, g: FileId) {
    IsEnd(disk, g) && exists links: nat :: Leads(disk, f, g, links)
  }

  ghost predicate Circles(disk: Disk, f: FileId) {
    exists loop: nat :: loop > 0 && Leads(disk, f, f, loop)
  }

  lemma EndOfLink(disk: Disk, f: FileId, h: FileId, g: FileId)
    requires At(disk, f) == Link(Some(h))
    ensures EndsIn(disk, f, g) <==> EndsIn(disk, h, g)
  {
    if EndsIn(disk, h, g) {
      var links: nat :| Leads(disk, h, g, links);
      assert Leads(disk, f, g, links + 1);
    }
    if EndsIn(disk, f, g) {
      var links: nat :| Leads(disk, f, g, links);
      assert Leads(disk, h, g, links - 1);
    }
  }

  ghost predicate AllLead(disk: Disk, seen: set<FileId>, f: FileId) {
    forall s :: s in seen ==> exists links: nat :: links > 0 && Leads(disk, s, f, links)
  }

  lemma AllLeadOn(disk: Disk, seen: set<FileId>, f: FileId, h: FileId)
    requires AllLead(disk, seen, f) && At(disk, f) == Link(Some(h))
    ensures AllLead(disk, seen + {f}, h)
  {
    assert Leads(disk, h, h, 0);
    assert Leads(disk, f, h, 1);
    forall s | s in seen ensures exists links: nat :: links > 0 && Leads(disk, s, h, links) {
      var links: nat :| links > 0 && Leads(disk, s, f, links);
      LeadsOn(disk, s, f, h, links, 1);
    }
  }

  lemma {:induction false} CanonicalIs(disk: Disk, f: FileId, seen: set<FileId>, g: FileId)
    requires AllLead(disk, seen, f)
    ensures Canonical(disk, f, seen) == Here(g) <==> EndsIn(disk, f, g) && At(disk, g).Present?
    ensures EndsIn(disk, f, g) && At(disk, g).Link? ==> Canonical(disk, f, seen) == Elsewhere
    ensures Canonical(disk, f, seen) == Elsewhere ==> exists h :: EndsIn(disk, f, h) && At(disk, h).Link?
    decreases disk.Keys - seen
  {
    if At(disk, f).Link? && At(disk, f).target.Some? {
      var h := At(disk, f).target.value;
      EndOfLink(disk, f, h, g);
      if f in seen {
        NoEnd(disk, f, g);
      } else {
        AllLeadOn(disk, seen, f, h);
        CanonicalIs(disk, h, seen + {f}, g);
        if Canonical(disk, f, seen) == Elsewhere {
          var e :| EndsIn(disk, h, e) && At(disk, e).Link?;
          EndOfLink(disk, f, h, e);
        }
      }
    } else {
      assert Leads(disk, f, f, 0) && IsEnd(disk, f);
      if EndsIn(disk, f, g) {
        var links: nat :| Leads(disk, f, g, links);
        OneEnd(disk, f, f, g, 0, links);
      }
    }
  }

  lemma NoEnd(disk: Disk, f: FileId, g: FileId)
    requires Circles(disk, f)
    ensures !EndsIn(disk, f, g)
  {
    var loop: nat :| loop > 0 && Leads(disk, f, f, loop);
    if EndsIn(disk, f, g) {
      var links: nat :| Leads(disk, f, g, links);
      LoopHasNoEnd(disk, f, g, loop, links);
    }
  }

  /** A path is prepared under the id of the file it leads to; it is passed over if it leads out of the project; and
      if it leads to nothing, or round in a circle, it is prepared under its own id. */
  lemma TargetIs(disk: Disk, f: FileId)
    ensures forall g: FileId :: EndsIn(disk, f, g) && At(disk, g).Present? ==> Target(disk, f) == Some(g)
    ensures Target(disk, f).None? <==> exists g: FileId :: EndsIn(disk, f, g) && At(disk, g).Link?
    ensures (forall g: FileId :: EndsIn(disk, f, g) ==> At(disk, g).Gone?) ==> Target(disk, f) == Some(f)
  {
    hide EndsIn, Canonical;
    forall g: FileId
      ensures Canonical(disk, f, {}) == Here(g) <==> EndsIn(disk, f, g) && At(disk, g).Present?
      ensures EndsIn(disk, f, g) && At(disk, g).Link? ==> Canonical(disk, f, {}) == Elsewhere
      ensures Canonical(disk, f, {}) == Elsewhere ==> exists h :: EndsIn(disk, f, h) && At(disk, h).Link?
    {
      CanonicalIs(disk, f, {}, g);
    }
  }
}
