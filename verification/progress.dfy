/** Progress accounting for one batch request: how many of its domains are finished
    (status `done` or `error`) out of how many it has. */
module Progress {

  import opened Status
  import opened Store

  /** Number of domain rows of request `rid`: at most the size of the table, and zero
      exactly when no row belongs to the request. */
  function Total(ds: seq<BatchDomain>, rid: RequestId): (n: nat)
    ensures n <= |ds|
    ensures n == 0 <==> forall d :: d in ds ==> d.batchRequest != rid
  {
    NoRowsIff(ds, rid);
    |DomainsOf(ds, rid)|
  }

  /** Number of domain rows of request `rid` whose status is `done` or `error`; never more
      than the request's rows. */
  function Finished(ds: seq<BatchDomain>, rid: RequestId): (n: nat)
    ensures n <= Total(ds, rid)
  {
    |FinishedOf(DomainsOf(ds, rid))|
  }

  /** The finished count never exceeds the total, and equals it exactly when every domain of
      the request is done or in error. */
  lemma FinishedAtMostTotal(ds: seq<BatchDomain>, rid: RequestId)
    ensures Finished(ds, rid) <= Total(ds, rid)
    ensures Finished(ds, rid) == Total(ds, rid) <==>
              forall d :: d in ds && d.batchRequest == rid ==> IsFinished(d.status)
  {
    var mine := DomainsOf(ds, rid);
    FinishedAllIff(mine);
    if Finished(ds, rid) == Total(ds, rid) {
      forall d | d in ds && d.batchRequest == rid
        ensures IsFinished(d.status)
      {
        DomainsOfMembers(ds, rid, d);
      }
    } else {
      var j :| 0 <= j < |mine| && !IsFinished(mine[j].status);
      DomainsOfMembers(ds, rid, mine[j]);
    }
  }

  /** Waiting, running and cancelled domains are what the finished count leaves out. */
  lemma UnfinishedMakeUpTheRest(ds: seq<BatchDomain>, rid: RequestId)
    ensures Finished(ds, rid) + |UnfinishedOf(DomainsOf(ds, rid))| == Total(ds, rid)
    ensures forall d :: d in UnfinishedOf(DomainsOf(ds, rid)) <==>
              d in ds && d.batchRequest == rid && d.status in {DomainStatus.Waiting, DomainStatus.Running, DomainStatus.Cancelled}
  {
    FinishedPartition(DomainsOf(ds, rid));
    forall d
      ensures d in UnfinishedOf(DomainsOf(ds, rid)) <==>
              d in ds && d.batchRequest == rid && d.status in {DomainStatus.Waiting, DomainStatus.Running, DomainStatus.Cancelled}
    {
      UnfinishedOfMembers(DomainsOf(ds, rid), d);
      DomainsOfMembers(ds, rid, d);
    }
  }

  /** How both counts change when the scan takes in one more row. */
  lemma ScanStep(ds: seq<BatchDomain>, i: nat, rid: RequestId)
    requires i < |ds|
    ensures Total(ds[..i + 1], rid) == Total(ds[..i], rid) + (if ds[i].batchRequest == rid then 1 else 0)
    ensures Finished(ds[..i + 1], rid) ==
              Finished(ds[..i], rid) + (if ds[i].batchRequest == rid && IsFinished(ds[i].status) then 1 else 0)
  {
    var d := ds[i];
    assert ds[..i + 1][..i] == ds[..i];
    var before := DomainsOf(ds[..i], rid);
    if d.batchRequest == rid {
      assert DomainsOf(ds[..i + 1], rid) == before + [d];
      assert (before + [d])[..|before|] == before;
    } else {
      assert DomainsOf(ds[..i + 1], rid) == before;
    }
  }

  /** The two row counts of the progress branch, done as one scan of the domain table. */
  method CountProgress(ds: seq<BatchDomain>, rid: RequestId) returns (finished: nat, total: nat)
    ensures total == |DomainsOf(ds, rid)|
    ensures finished == |FinishedOf(DomainsOf(ds, rid))|
    ensures finished <= total
  {
    finished, total := 0, 0;
    var i := 0;
    while i < |ds|
      invariant 0 <= i <= |ds|
      invariant total == Total(ds[..i], rid)
      invariant finished == Finished(ds[..i], rid)
    {
      ScanStep(ds, i, rid);
      var d := ds[i];
      if d.batchRequest == rid {
        total := total + 1;
        if IsFinished(d.status) {
          finished := finished + 1;
        }
      }
      i := i + 1;
    }
    assert ds[..|ds|] == ds;
    FinishedAtMostTotal(ds, rid);
  }

  /** After the cancellation cascade the request keeps all its domain rows but none of them
      counts as finished any more: its progress reads `0/<total>`. */
  lemma {:induction false} CancelClearsProgress(ds: seq<BatchDomain>, rid: RequestId)
    ensures Total(CancelDomains(ds, rid), rid) == Total(ds, rid)
    ensures Finished(CancelDomains(ds, rid), rid) == 0
  {
    if |ds| > 0 {
      var init := ds[..|ds| - 1];
      CancelClearsProgress(init, rid);
      var c := CancelDomains(ds, rid);
      assert c[..|c| - 1] == CancelDomains(init, rid);
      var before := DomainsOf(CancelDomains(init, rid), rid);
      var last := c[|c| - 1];
      if last.batchRequest == rid {
        assert last.status == DomainStatus.Cancelled;
        assert DomainsOf(c, rid) == before + [last];
        assert (before + [last])[..|before|] == before;
        assert FinishedOf(before + [last]) == FinishedOf(before);
      } else {
        assert DomainsOf(c, rid) == before;
      }
    }
  }

  /** The cascade leaves the domain rows of every other request exactly as they were. */
  lemma {:induction false} CancelKeepsOtherDomains(ds: seq<BatchDomain>, rid: RequestId, other: RequestId)
    requires other != rid
    ensures DomainsOf(CancelDomains(ds, rid), other) == DomainsOf(ds, other)
  {
    if |ds| > 0 {
      var init := ds[..|ds| - 1];
      CancelKeepsOtherDomains(init, rid, other);
      var c := CancelDomains(ds, rid);
      assert c[..|c| - 1] == CancelDomains(init, rid);
    }
  }

}
