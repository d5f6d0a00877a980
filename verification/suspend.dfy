/**
 * The suspension marker: who writes it, who clears it, and what a resume finds in it.
 * Functions give each writer's effect on the marker; `Trail` folds any sequence of writes.
 */
module Suspensions {
  import opened Json
  import opened Contexts
  import opened Budgets

  const BlankMarker := Marker(false, None, None, None, None, 0, false, None)

  function ResumeCount(m: Option<Marker>): nat { if m.Some? then m.value.resumeCount else 0 }

  predicate Requested(m: Option<Marker>) { m.Some? && m.value.requested }

  predicate IsSuspended(m: Option<Marker>) { m.Some? && m.value.suspended }

  function RequestedReason(m: Option<Marker>): SuspendReason {
    if m.Some? && m.value.pendingReason.Some? then m.value.pendingReason.value else SuspendNode
  }

  /** The walk stops: a whole new marker, keeping only the resume count. */
  function StampSuspended(m: Option<Marker>, resumeAt: Id, reason: SuspendReason, origin: Option<Id>, l: Ledger): Marker {
    Marker(true, Some(resumeAt), Some(reason), origin, Some(LedgerSnapshot(l.totalTokens, l.totalCost)),
           ResumeCount(m), false, None)
  }

  /** A resume: nothing to do without a marker; otherwise the key stays and is only un-suspended. */
  function StampResumed(m: Option<Marker>): Option<Marker> {
    if m.None? then None
    else Some(m.value.(suspended := false, requested := false, resumeCount := m.value.resumeCount + 1))
  }

  /** A node asks to be suspended, with a reason of its own or without one. */
  function Request(m: Option<Marker>, reason: Option<SuspendReason>): Marker {
    var base := if m.Some? then m.value else BlankMarker;
    base.(requested := true, pendingReason := reason)
  }

  /** What a node may do to the marker: leave it, or request. */
  ghost predicate OnlyRequests(before: Option<Marker>, after: Option<Marker>) {
    after == before || exists reason :: after == Some(Request(before, reason))
  }

  datatype Write =
    | Suspend(resumeAt: Id, reason: SuspendReason, origin: Option<Id>, ledger: Ledger)
    | Resume
    | RequestPlain
    | RequestWith(why: SuspendReason)

  function Apply(m: Option<Marker>, w: Write): Option<Marker> {
    match w
    case Suspend(at, reason, origin, l) => Some(StampSuspended(m, at, reason, origin, l))
    case Resume => StampResumed(m)
    case RequestPlain => Some(Request(m, None))
    case RequestWith(why) => Some(Request(m, Some(why)))
  }

  function Trail(writes: seq<Write>): Option<Marker> {
    if writes == [] then None
    else Apply(Trail(writes[..|writes| - 1]), writes[|writes| - 1])
  }

  /** Resumes that came after the first write that creates the marker. */
  function CountedResumes(writes: seq<Write>): nat {
    if writes == [] then 0
    else
      var before := writes[..|writes| - 1];
      CountedResumes(before) +
      (if writes[|writes| - 1].Resume? && (exists w :: w in before && !w.Resume?) then 1 else 0)
  }

  /** The marker exists once anything but a resume was written, and counts exactly the resumes since. */
  lemma {:induction false} TrailCountsResumes(writes: seq<Write>)
    ensures Trail(writes).Some? <==> exists w :: w in writes && !w.Resume?
    ensures ResumeCount(Trail(writes)) == CountedResumes(writes)
  {
    if writes != [] {
      var before, last := writes[..|writes| - 1], writes[|writes| - 1];
      assert writes == before + [last];
      TrailCountsResumes(before);
      if !last.Resume? {
        assert last in writes;
      }
      assert forall w :: w in writes <==> w in before || w == last;
    }
  }

  predicate StopsOrResumes(w: Write) { w.Suspend? || w.Resume? }

  predicate SetsReason(w: Write) { !w.Resume? }

  predicate Stops(w: Write) { w.Suspend? }

  /** The last write of its kind. */
  predicate IsLatest(writes: seq<Write>, i: int, kind: Write -> bool) {
    0 <= i < |writes| && kind(writes[i]) && forall j :: i < j < |writes| ==> !kind(writes[j])
  }

  lemma LatestSnoc(before: seq<Write>, last: Write, kind: Write -> bool, i: int)
    ensures IsLatest(before + [last], i, kind) <==> if kind(last) then i == |before| else IsLatest(before, i, kind)
  {
    var longer := before + [last];
    assert longer[|before|] == last && forall j :: 0 <= j < |before| ==> longer[j] == before[j];
    if IsLatest(before, i, kind) && !kind(last) {
      assert IsLatest(longer, i, kind);
    }
    if IsLatest(longer, i, kind) && i < |before| {
      assert !kind(longer[|before|]);
    }
  }

  lemma {:induction false} LatestStopOrResumeDecides(writes: seq<Write>, i: int)
    requires IsLatest(writes, i, StopsOrResumes)
    ensures IsSuspended(Trail(writes)) <==> writes[i].Suspend?
  {
    var before, last := writes[..|writes| - 1], writes[|writes| - 1];
    if !StopsOrResumes(last) {
      assert writes == before + [last];
      LatestSnoc(before, last, StopsOrResumes, i);
      LatestStopOrResumeDecides(before, i);
    }
  }

  lemma {:induction false} NoSuspendNoneSuspended(writes: seq<Write>)
    requires forall i :: 0 <= i < |writes| ==> !StopsOrResumes(writes[i])
    ensures !IsSuspended(Trail(writes))
  {
    if writes != [] {
      NoSuspendNoneSuspended(writes[..|writes| - 1]);
    }
  }

  /** The marker's stored pointer, reason, origin and spend are those of this suspension. */
  predicate Stores(m: Option<Marker>, w: Write)
    requires w.Suspend?
  {
    && m.Some? && m.value.resumeAt == Some(w.resumeAt) && m.value.reason == Some(w.reason) && m.value.origin == w.origin
    && m.value.ledger == Some(LedgerSnapshot(w.ledger.totalTokens, w.ledger.totalCost))
  }

  lemma {:induction false} LatestSuspensionIsStored(writes: seq<Write>, i: int)
    requires IsLatest(writes, i, Stops)
    ensures Stores(Trail(writes), writes[i])
  {
    var before, last := writes[..|writes| - 1], writes[|writes| - 1];
    if !Stops(last) {
      assert writes == before + [last];
      LatestSnoc(before, last, Stops, i);
      LatestSuspensionIsStored(before, i);
    }
  }

  lemma {:induction false} LatestReasonIsReadBack(writes: seq<Write>, i: int)
    requires IsLatest(writes, i, SetsReason)
    ensures RequestedReason(Trail(writes)) == if writes[i].RequestWith? then writes[i].why else SuspendNode
  {
    var before, last := writes[..|writes| - 1], writes[|writes| - 1];
    if !SetsReason(last) {
      assert writes == before + [last];
      LatestSnoc(before, last, SetsReason, i);
      LatestReasonIsReadBack(before, i);
    }
  }

  /**
   * Over whole histories, however the writes are mixed: the latest suspend or resume decides whether the
   * run counts as suspended, the latest suspend alone holds pointer and spend, the latest write that is no
   * resume decides the reason, and a request stands exactly until the next suspend or resume.
   */
  lemma {:induction false} HistoryDecides(writes: seq<Write>)
    ensures Requested(Trail(writes)) <==> writes != [] && !StopsOrResumes(writes[|writes| - 1])
    ensures forall i :: IsLatest(writes, i, StopsOrResumes) ==> (IsSuspended(Trail(writes)) <==> writes[i].Suspend?)
    ensures (forall i :: 0 <= i < |writes| ==> !StopsOrResumes(writes[i])) ==> !IsSuspended(Trail(writes))
    ensures forall i :: IsLatest(writes, i, Stops) ==> Stores(Trail(writes), writes[i])
    ensures forall i :: IsLatest(writes, i, SetsReason) ==>
              RequestedReason(Trail(writes)) == if writes[i].RequestWith? then writes[i].why else SuspendNode
  {
    forall i | IsLatest(writes, i, StopsOrResumes)
      ensures IsSuspended(Trail(writes)) <==> writes[i].Suspend?
    {
      LatestStopOrResumeDecides(writes, i);
    }
    forall i | IsLatest(writes, i, Stops)
      ensures Stores(Trail(writes), writes[i])
    {
      LatestSuspensionIsStored(writes, i);
    }
    forall i | IsLatest(writes, i, SetsReason)
      ensures RequestedReason(Trail(writes)) == if writes[i].RequestWith? then writes[i].why else SuspendNode
    {
      LatestReasonIsReadBack(writes, i);
    }
    if forall i :: 0 <= i < |writes| ==> !StopsOrResumes(writes[i]) {
      NoSuspendNoneSuspended(writes);
    }
  }
}
