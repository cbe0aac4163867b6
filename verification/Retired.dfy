/** A node's list of deleted instances, as the scheduler updates it in place. */
module Retired {
  import opened Execution

  // What retryDeletes leaves of the entries before m: a new retry stands in for
  // every attempt that is not confirmed.
  function Replaced(s: Sys, entries: seq<Entry>, m: nat): (r: seq<Entry>)
    requires m <= |entries|
    ensures |r| == m
  {
    if m == 0 then []
    else
      var e := entries[m - 1];
      Replaced(s, entries, m - 1)
      + [if Confirmed(s, e.del) then e else Entry(e.create, Again(|s.retries| + |Retrying(s, entries, m - 1)|))]
  }

  // The entries before m that get a retry.
  function Retrying(s: Sys, entries: seq<Entry>, m: nat): seq<Entry>
    requires m <= |entries|
  {
    if m == 0 then []
    else Retrying(s, entries, m - 1) + if Confirmed(s, entries[m - 1].del) then [] else [entries[m - 1]]
  }

  // t is s with the first m entries of node i requeued.
  ghost predicate PartlyRequeued(s: Sys, t: Sys, i: nat, m: nat)
    requires i < |s.retired| && m <= |s.retired[i]|
  {
    var entries := s.retired[i];
    && |t.retired| == |s.retired| && t.retired[i] == Replaced(s, entries, m) + entries[m..]
    && |t.retries| == |s.retries| + |Retrying(s, entries, m)| && |t.runs| == |s.runs|
    && (forall r :: 0 <= r < |s.retries| ==> t.retries[r] == s.retries[r])
    && (forall k :: 0 <= k < |Retrying(s, entries, m)| ==>
          var p := Retrying(s, entries, m)[k];
          t.retries[|s.retries| + k].create == p.create && t.retries[|s.retries| + k].prev == p.del)
    && (forall h: Handle :: (h.Again? ==> h.retry < |s.retries|) ==> Confirmed(t, h) == Confirmed(s, h))
  }

  lemma RequeueOneMore(s: Sys, t: Sys, i: nat, m: nat)
    requires i < |s.retired| && m < |s.retired[i]| && |s.runs| > 0 && PartlyRequeued(s, t, i, m)
    requires s.retired[i][m].del.Again? ==> s.retired[i][m].del.retry < |s.retries|
    ensures PartlyRequeued(s, RequeueOne(t, i, m), i, m + 1)
  {
    var entries := s.retired[i];
    assert t.retired[i][m] == entries[m];
    assert entries[m..] == [entries[m]] + entries[m + 1..];
  }

  /** The entries and retries of Requeue, entry by entry. */
  lemma {:induction false} RequeueIsEntrywise(s: Sys, t: Sys, i: nat, m: nat)
    requires i < |s.retired| && m <= |s.retired[i]| && |s.runs| > 0 && PartlyRequeued(s, t, i, m)
    requires forall k :: 0 <= k < |s.retired[i]| && s.retired[i][k].del.Again? ==>
               s.retired[i][k].del.retry < |s.retries|
    ensures PartlyRequeued(s, Requeue(t, i, m), i, |s.retired[i]|)
    decreases |s.retired[i]| - m
  {
    assert |t.retired[i]| == |s.retired[i]|;
    if m < |s.retired[i]| {
      RequeueOneMore(s, t, i, m);
      RequeueIsEntrywise(s, RequeueOne(t, i, m), i, m + 1);
    }
  }

  // One more entry dealt with.
  lemma ReplaceOneMore(s: Sys, entries: seq<Entry>, m: nat)
    requires m < |entries|
    ensures var list, e := Replaced(s, entries, m) + entries[m..], entries[m];
            && list[m] == e
            && Replaced(s, entries, m + 1) + entries[m + 1..] ==
               (if Confirmed(s, e.del) then list
                else list[m := Entry(e.create, Again(|s.retries| + |Retrying(s, entries, m)|))])
    ensures Retrying(s, entries, m + 1) ==
            if Confirmed(s, entries[m].del) then Retrying(s, entries, m) else Retrying(s, entries, m) + [entries[m]]
  {
    assert entries[m..] == [entries[m]] + entries[m + 1..];
  }

  lemma NoneReplaced(s: Sys, entries: seq<Entry>)
    ensures Replaced(s, entries, 0) + entries[0..] == entries && Retrying(s, entries, 0) == []
  {
  }

  lemma AllReplaced(s: Sys, i: nat)
    requires i < |s.retired| && |s.runs| > 0
    requires forall k :: 0 <= k < |s.retired[i]| && s.retired[i][k].del.Again? ==>
               s.retired[i][k].del.retry < |s.retries|
    ensures PartlyRequeued(s, Requeue(s, i, 0), i, |s.retired[i]|) && |Requeue(s, i, 0).retired| == |s.retired|
    ensures Requeue(s, i, 0).retired[i] == Replaced(s, s.retired[i], |s.retired[i]|) + s.retired[i][|s.retired[i]|..]
  {
    NoneReplaced(s, s.retired[i]);
    RequeueIsEntrywise(s, s, i, 0);
  }

  /** nodeState's list of retired instances. */
  class History {
    var retired: seq<Entry>

    /** retire: the confirmed entries go, and the new one is appended. */
    method Retire(s: Sys, create: nat, del: Handle)
      modifies this
      ensures retired == Execution.Retire(s, old(retired), Entry(create, del))
    {
      var kept: seq<Entry> := [];
      for i := 0 to |retired|
        invariant retired == old(retired)
        invariant kept + Execution.Retire(s, retired[i..], Entry(create, del)) ==
                  Execution.Retire(s, retired, Entry(create, del))
      {
        var r := retired[i];
        assert retired[i..][0] == r && retired[i..][1..] == retired[i + 1..];
        if !DoneH(s, r.del) || FailedH(s, r.del) {
          kept := kept + [r];
        }
      }
      retired := kept + [Entry(create, del)];
    }

    /** retryDeletes: every entry whose removal is not confirmed gets a retry, which
        takes the place of its attempt and follows it. */
    method RetryDeletes(s: Sys, i: nat) returns (retries: seq<Entry>)
      requires i < |s.retired| && retired == s.retired[i] && |s.runs| > 0
      requires forall k :: 0 <= k < |retired| && retired[k].del.Again? ==> retired[k].del.retry < |s.retries|
      modifies this
      ensures retries == Retrying(s, s.retired[i], |s.retired[i]|)
      ensures |Requeue(s, i, 0).retired| == |s.retired| && retired == Requeue(s, i, 0).retired[i]
      ensures PartlyRequeued(s, Requeue(s, i, 0), i, |s.retired[i]|)
    {
      hide Replaced, Retrying, PartlyRequeued;
      retries := [];
      ghost var entries := retired;
      NoneReplaced(s, entries);
      for m := 0 to |retired|
        invariant |retired| == |entries| && retired == Replaced(s, entries, m) + entries[m..]
        invariant retries == Retrying(s, entries, m)
      {
        ReplaceOneMore(s, entries, m);
        var r := retired[m];
        if !(DoneH(s, r.del) && !FailedH(s, r.del)) {
          retired := retired[m := Entry(r.create, Again(|s.retries| + |retries|))];
          retries := retries + [r];
        }
      }
      AllReplaced(s, i);
    }
  }
}
