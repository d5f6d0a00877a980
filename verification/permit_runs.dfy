/**
 * Runs of the permit protocol built on purpose: how one failed read of a live holder's file lets the maximum
 * be exceeded, whatever it is, and how a permit whose pid was taken over keeps others out.
 */
module PermitRuns {
  import opened Json
  import opened Orders
  import opened Permits

  // ----- Building runs -----

  /** From action `n` on, no read of a live holder's file fails. */
  ghost predicate ReadsOn(cfg: Config, n: nat, actions: seq<Action>) {
    forall k :: n <= k < |actions| ==> !HolderReadFails(cfg, Run(cfg, actions[..k]), actions[k])
  }

  /** Where these actions lead, unless a read of a live holder's file fails on the way. */
  ghost function Continue(cfg: Config, from: State, more: seq<Action>): Option<State> {
    if more == [] then Some(from)
    else match Continue(cfg, from, more[..|more| - 1])
         case None => None
         case Some(s) => if HolderReadFails(cfg, s, more[|more| - 1]) then None else Some(Next(cfg, s, more[|more| - 1]))
  }

  ghost predicate Leads(cfg: Config, from: State, s: State) { exists more :: Continue(cfg, from, more) == Some(s) }

  ghost predicate Reached(cfg: Config, s: State) { Leads(cfg, Empty, s) }

  lemma LeadsHere(cfg: Config, from: State)
    ensures Leads(cfg, from, from)
  {
    assert Continue(cfg, from, []) == Some(from);
  }

  lemma Step(cfg: Config, from: State, s: State, a: Action) returns (n: State)
    requires Leads(cfg, from, s) && Enabled(cfg, s, a) && !HolderReadFails(cfg, s, a)
    ensures n == Apply(cfg, s, a) && Leads(cfg, from, n)
  {
    var more :| Continue(cfg, from, more) == Some(s);
    assert (more + [a])[..|more|] == more;
    n := Apply(cfg, s, a);
    assert Continue(cfg, from, more + [a]) == Some(n);
  }

  lemma {:induction false} ContinueSnoc(cfg: Config, from: State, more: seq<Action>, a: Action)
    requires Continue(cfg, from, more + [a]).Some?
    ensures Continue(cfg, from, more).Some? && !HolderReadFails(cfg, Continue(cfg, from, more).value, a)
    ensures Continue(cfg, from, more + [a]).value == Next(cfg, Continue(cfg, from, more).value, a)
  {
    assert (more + [a])[..|more|] == more;
  }

  lemma {:induction false} ContinueIsRun(cfg: Config, base: seq<Action>, more: seq<Action>)
    requires Continue(cfg, Run(cfg, base), more).Some?
    ensures Run(cfg, base + more) == Continue(cfg, Run(cfg, base), more).value
    ensures ReadsOn(cfg, |base|, base + more)
    decreases |more|
  {
    if more == [] {
      assert base + more == base;
    } else {
      var init, a := more[..|more| - 1], more[|more| - 1];
      assert more == init + [a];
      ContinueSnoc(cfg, Run(cfg, base), init, a);
      ContinueIsRun(cfg, base, init);
      RunAndReadsSnoc(cfg, base, init, a);
    }
  }

  lemma {:induction false} RunAndReadsSnoc(cfg: Config, base: seq<Action>, init: seq<Action>, a: Action)
    requires ReadsOn(cfg, |base|, base + init) && !HolderReadFails(cfg, Run(cfg, base + init), a)
    ensures Run(cfg, base + (init + [a])) == Next(cfg, Run(cfg, base + init), a)
    ensures ReadsOn(cfg, |base|, base + (init + [a]))
  {
    assert base + (init + [a]) == (base + init) + [a];
    RunSnoc(cfg, base + init, a);
    OneMoreRead(cfg, |base|, base + init, a);
  }

  lemma {:induction false} OneMoreRead(cfg: Config, n: nat, actions: seq<Action>, a: Action)
    requires ReadsOn(cfg, n, actions) && !HolderReadFails(cfg, Run(cfg, actions), a)
    ensures ReadsOn(cfg, n, actions + [a])
  {
    var longer := actions + [a];
    assert longer[..|actions|] == actions;
    forall k | n <= k < |actions|
      ensures longer[..k] == actions[..k] && longer[k] == actions[k]
    {
    }
  }

  /** A state that is led to is come to by a longer run in which no such read fails after the start. */
  lemma LeadsByRun(cfg: Config, base: seq<Action>, s: State) returns (longer: seq<Action>)
    requires Leads(cfg, Run(cfg, base), s)
    ensures base <= longer && ReadsOn(cfg, |base|, longer) && Run(cfg, longer) == s
  {
    var more :| Continue(cfg, Run(cfg, base), more) == Some(s);
    ContinueIsRun(cfg, base, more);
    longer := base + more;
  }

  lemma GetAdmitted(cfg: Config, from: State, s: State, p: ProcId, freeMb: real) returns (n: State)
    requires Leads(cfg, from, s) && AtStage(s, p) && StageOf(s, p) == Sweeping([])
    requires |s.files.Keys| < cfg.max && freeMb >= cfg.minFreeMb
    ensures Leads(cfg, from, n) && n == ToStage(s, p, Opening)
  {
    n := Step(cfg, from, s, Count(p));
    n := Step(cfg, from, n, Decide(p, freeMb));
  }

  /** With its list swept and a slot free, the lock owner counts, is admitted, and claims. */
  lemma FinishClaim(cfg: Config, from: State, s: State, p: ProcId, freeMb: real) returns (n: State)
    requires Leads(cfg, from, s) && AtStage(s, p) && StageOf(s, p) == Sweeping([])
    requires |s.files.Keys| < cfg.max && freeMb >= cfg.minFreeMb
    ensures Leads(cfg, from, n)
    ensures n == ToStage(s, p, Claimed).(files := s.files[p := Permit(s.procs[p].pid)])
  {
    n := GetAdmitted(cfg, from, s, p, freeMb);
    n := Step(cfg, from, n, Open(p));
    n := Step(cfg, from, n, Write(p));
  }

  /** A sweep that fails to read some files, none of them a holder's. */
  lemma {:induction false} SweepLeads(cfg: Config, from: State, s: State, p: ProcId, unreadable: set<ProcId>) returns (n: State)
    requires Leads(cfg, from, s) && AtStage(s, p) && StageOf(s, p).Sweeping?
    requires forall u :: u in unreadable ==> !Holds(s, u)
    ensures Leads(cfg, from, n) && n == SweepAll(cfg, s, p, unreadable)
    ensures n == ToStage(s, p, Sweeping([])).(files := n.files)
    decreases |StageOf(s, p).todo|
  {
    var todo := StageOf(s, p).todo;
    if todo == [] {
      n := s;
    } else {
      SweepOne(cfg, s, p, unreadable);
      var next := Step(cfg, from, s, if todo[0] in unreadable then ReadFails(p) else Check(p));
      if StageOf(next, p).Unlinking? {
        next := Step(cfg, from, next, Unlink(p));
      }
      assert next == ToStage(s, p, Sweeping(todo[1..])).(files := next.files);
      n := SweepLeads(cfg, from, next, p, unreadable);
    }
  }

  // ----- Overrunning the maximum -----

  /** Nobody is inside; one live holder has lost its file, the others have theirs. */
  ghost predicate Leaky(s: State, p: ProcId) {
    && s.lock == None && LockExclusive(s) && Holds(s, p) && p !in s.files
    && forall q :: Holds(s, q) && q != p ==> q in s.files && s.files[q] == Permit(s.procs[q].pid)
  }

  lemma {:induction false} LongestOf(names: set<string>) returns (n: nat)
    ensures forall x :: x in names ==> |x| <= n
    decreases names
  {
    if names == {} {
      n := 0;
    } else {
      var x :| x in names;
      n := LongestOf(names - {x});
      n := if |x| > n then |x| else n;
    }
  }

  lemma MemberOf<T>(s: set<T>) returns (x: T)
    requires s != {}
    ensures x in s
  {
    x :| x in s;
  }

  lemma {:induction false} LargestOf(pids: set<int>) returns (n: nat)
    ensures forall x :: x in pids ==> x <= n
    decreases pids
  {
    if pids == {} {
      n := 0;
    } else {
      var x := MemberOf(pids);
      var rest := LargestOf(pids - {x});
      n := if x > rest then x else rest;
      forall y | y in pids
        ensures y <= n
      {
        assert y == x || y in pids - {x};
      }
    }
  }

  /** There is always a process that has not been started yet. */
  lemma FreshProcess(cfg: Config, s: State) returns (p: ProcId, pid: int)
    ensures Enabled(cfg, s, Spawn(p, pid))
  {
    var n := LongestOf(s.procs.Keys);
    p := seq(n + 1, _ => 'x');
    var m := LargestOf(s.used + Running(s));
    pid := m + 1;
    RunningIsPidRunning(s);
  }

  lemma {:induction false} ListAll(names: set<ProcId>) returns (listing: seq<ProcId>)
    ensures forall f :: f in listing <==> f in names
    decreases names
  {
    if names == {} {
      listing := [];
    } else {
      var x :| x in names;
      listing := ListAll(names - {x});
      listing := [x] + listing;
    }
  }

  /** A fresh process inside, with the whole directory on its list. */
  lemma FreshProcessInside(cfg: Config, from: State, s: State) returns (p: ProcId, n: State)
    requires Leads(cfg, from, s) && s.lock == None && LockExclusive(s)
    ensures Leads(cfg, from, n) && p !in s.procs && AtStage(n, p) && StageOf(n, p).Sweeping?
    ensures n.files == s.files && (forall f :: f in s.files ==> f in StageOf(n, p).todo)
    ensures n.lock == Some(p) && n.procs.Keys == s.procs.Keys + {p} && forall q :: q in s.procs ==> n.procs[q] == s.procs[q]
  {
    var pid: int;
    p, pid := FreshProcess(cfg, s);
    n := Step(cfg, from, s, Spawn(p, pid));
    n := Step(cfg, from, n, Lock(p));
    var listing := ListAll(s.files.Keys);
    n := Step(cfg, from, n, List(p, listing));
  }

  /** What that process keeps, failing to read everything but holders' files: the files of all holders but one. */
  lemma KeepsHoldersOnly(s: State, n: State, r: ProcId, p: ProcId)
    requires Leaky(s, p) && r !in s.procs && AtStage(n, r) && StageOf(n, r).Sweeping?
    requires n.files == s.files && n.procs.Keys == s.procs.Keys + {r} && forall q :: q in s.procs ==> n.procs[q] == s.procs[q]
    ensures Swept(n.files, View(Running(n), n.files.Keys - Holders(s))).Keys == Holders(s) - {p}
    ensures forall f :: f in Swept(n.files, View(Running(n), n.files.Keys - Holders(s))) ==>
              Swept(n.files, View(Running(n), n.files.Keys - Holders(s)))[f] == s.files[f]
  {
    var view := View(Running(n), n.files.Keys - Holders(s));
    forall q
      ensures q in Swept(n.files, view) <==> q in Holders(s) - {p}
    {
      if q in Holders(s) && q != p {
        assert Holds(s, q) && n.procs[q].phase != Dead && n.procs[q].pid in Running(n);
      }
    }
  }

  /** A fresh process has swept the directory down to the files of all holders but one. */
  lemma SweptToHolders(cfg: Config, from: State, s: State, p: ProcId) returns (r: ProcId, n: State)
    requires Leads(cfg, from, s) && Leaky(s, p)
    ensures Leads(cfg, from, n) && r !in s.procs && AtStage(n, r) && StageOf(n, r) == Sweeping([]) && n.lock == Some(r)
    ensures n.procs.Keys == s.procs.Keys + {r} && forall q :: q in s.procs ==> n.procs[q] == s.procs[q]
    ensures n.files.Keys == Holders(s) - {p} && forall f :: f in n.files ==> f in s.files && n.files[f] == s.files[f]
  {
    var inside: State;
    r, inside := FreshProcessInside(cfg, from, s);
    var unreadable := inside.files.Keys - Holders(s);
    forall u | u in unreadable
      ensures !Holds(inside, u)
    {
      assert Holds(inside, u) ==> u in Holders(s);
    }
    n := SweepLeads(cfg, from, inside, r, unreadable);
    LoneSweepIsSwept(cfg, inside, r, unreadable);
    KeepsHoldersOnly(s, inside, r, p);
  }

  lemma OneFileShort(s: State, p: ProcId, files: set<ProcId>)
    requires Holds(s, p) && files == Holders(s) - {p}
    ensures |files| == |Holders(s)| - 1
  {
    assert Holders(s) == files + {p};
  }

  /** So it finds a slot free and is admitted. */
  lemma OneMoreHolder(cfg: Config, from: State, s: State, p: ProcId) returns (n: State)
    requires Leads(cfg, from, s) && Leaky(s, p) && |Holders(s)| <= cfg.max
    ensures Leads(cfg, from, n) && Leaky(n, p) && |Holders(n)| == |Holders(s)| + 1
  {
    var r: ProcId, swept: State;
    r, swept := SweptToHolders(cfg, from, s, p);
    OneFileShort(s, p, swept.files.Keys);
    n := ClaimAndLeave(cfg, from, swept, r);
    AdmittedBesides(s, swept, r, p);
  }

  function Left(s: State, r: ProcId): State
    requires r in s.procs
  {
    To(s, r, Building).(files := s.files[r := Permit(s.procs[r].pid)], lock := None)
  }

  lemma ClaimAndLeave(cfg: Config, from: State, s: State, r: ProcId) returns (n: State)
    requires Leads(cfg, from, s) && AtStage(s, r) && StageOf(s, r) == Sweeping([]) && s.lock == Some(r)
    requires |s.files.Keys| < cfg.max
    ensures Leads(cfg, from, n) && n == Left(s, r)
  {
    n := FinishClaim(cfg, from, s, r, cfg.minFreeMb);
    n := Step(cfg, from, n, Unlock(r));
  }

  lemma AdmittedBesides(s: State, swept: State, r: ProcId, p: ProcId)
    requires Leaky(s, p) && r !in s.procs
    requires swept.procs.Keys == s.procs.Keys + {r} && forall q :: q in s.procs ==> swept.procs[q] == s.procs[q]
    requires swept.files.Keys == Holders(s) - {p} && forall f :: f in swept.files ==> f in s.files && swept.files[f] == s.files[f]
    ensures Leaky(Left(swept, r), p) && |Holders(Left(swept, r))| == |Holders(s)| + 1
  {
    var n := Left(swept, r);
    forall q
      ensures Holds(n, q) <==> Holds(s, q) || q == r
      ensures !AtStage(n, q)
    {
      assert q in s.procs ==> !AtStage(s, q);
    }
    assert Holders(n) == Holders(s) + {r};
    forall q | Holds(n, q) && q != p
      ensures q in n.files && n.files[q] == Permit(n.procs[q].pid)
    {
      assert q != r ==> q in swept.files.Keys;
    }
  }

  /** Each fresh process overlooks the unfiled holder, so the maximum is passed. */
  lemma {:induction false} Overfill(cfg: Config, from: State, s: State, p: ProcId) returns (n: State)
    requires Leads(cfg, from, s) && Leaky(s, p) && cfg.max >= 0
    ensures Leads(cfg, from, n) && |Holders(n)| > cfg.max
    decreases cfg.max + 1 - |Holders(s)|
  {
    if |Holders(s)| > cfg.max {
      n := s;
    } else {
      var next := OneMoreHolder(cfg, from, s, p);
      n := Overfill(cfg, from, next, p);
    }
  }

  /** After the failed read: the file goes, the sweeper gives up, and a live holder is left without its file. */
  lemma FailedReadLeaks(cfg: Config, actions: seq<Action>, a: Action) returns (n: State, p: ProcId)
    requires HoldersAreRead(cfg, actions) && HolderReadFails(cfg, Run(cfg, actions), a)
    ensures Leads(cfg, Run(cfg, actions + [a]), n) && Leaky(n, p)
  {
    var s, q := Run(cfg, actions), a.p;
    p := StageOf(s, q).todo[0];
    ReadRunIsSafe(cfg, actions);
    RunSnoc(cfg, actions, a);
    var failed := Run(cfg, actions + [a]);
    LeadsHere(cfg, failed);
    assert failed == ToStage(s, q, Unlinking(p, StageOf(s, q).todo[1..]));
    var unlinked := Step(cfg, failed, failed, Unlink(q));
    n := Step(cfg, failed, unlinked, Fail(q));
    SweeperGivesUp(s, n, q, p);
  }

  lemma SweeperGivesUp(s: State, n: State, q: ProcId, p: ProcId)
    requires Orderly(s) && HoldersFiled(s) && AtStage(s, q) && Holds(s, p) && StageOf(s, q).Sweeping?
    requires n == s.(procs := s.procs[q := s.procs[q].(phase := Degraded)], files := s.files - {p}, lock := None)
    ensures Leaky(n, p)
  {
    assert s.lock == Some(q);
    forall r
      ensures !AtStage(n, r)
      ensures Holds(n, r) ==> Holds(s, r)
    {
      assert AtStage(s, r) ==> r == q;
    }
  }

  /**
   * The condition is exact for the maximum as well: from a run that has met it, the next action breaks it if
   * and only if the run can then go on, without any further such failure, until more live processes hold a
   * permit than the maximum allows, whatever the maximum.
   */
  lemma {:induction false} FailedReadIsExactlyTheOverrun(cfg: Config, actions: seq<Action>, a: Action)
    requires cfg.max >= 0 && HoldersAreRead(cfg, actions)
    ensures HolderReadFails(cfg, Run(cfg, actions), a) <==>
            exists longer :: actions + [a] <= longer && ReadsOn(cfg, |actions| + 1, longer)
                             && |Holders(Run(cfg, longer))| > cfg.max
  {
    if HolderReadFails(cfg, Run(cfg, actions), a) {
      var s, p := FailedReadLeaks(cfg, actions, a);
      var n := Overfill(cfg, Run(cfg, actions + [a]), s, p);
      var longer := LeadsByRun(cfg, actions + [a], n);
    } else {
      forall longer | actions + [a] <= longer && ReadsOn(cfg, |actions| + 1, longer)
        ensures |Holders(Run(cfg, longer))| <= cfg.max
      {
        StillRead(cfg, actions, a, longer);
        HoldersNeverExceedMax(cfg, longer);
      }
    }
  }

  lemma {:induction false} StillRead(cfg: Config, actions: seq<Action>, a: Action, longer: seq<Action>)
    requires HoldersAreRead(cfg, actions) && !HolderReadFails(cfg, Run(cfg, actions), a)
    requires actions + [a] <= longer && ReadsOn(cfg, |actions| + 1, longer)
    ensures HoldersAreRead(cfg, longer)
  {
    forall k | 0 <= k < |longer|
      ensures !HolderReadFails(cfg, Run(cfg, longer[..k]), longer[k])
    {
      if k < |actions| {
        assert longer[..k] == actions[..k] && longer[k] == actions[k];
      } else if k == |actions| {
        assert longer[..k] == actions && longer[k] == a;
      }
    }
  }

  // ----- Under a maximum of one -----

  /** A process alone with an empty directory gets its permit. */
  lemma FirstClaim(cfg: Config, s: State, p: ProcId) returns (n: State)
    requires Reached(cfg, s) && Enabled(cfg, s, Lock(p)) && s.files == map[]
    requires cfg.max > 0
    ensures Reached(cfg, n)
    ensures n == To(s, p, Building).(files := map[p := Permit(s.procs[p].pid)])
  {
    n := Step(cfg, Empty, s, Lock(p));
    var at := n.procs[p].phase.atLock;
    n := Step(cfg, Empty, n, List(p, []));
    assert n == To(s, p, InLock(Sweeping([]), at)).(lock := Some(p));
    n := ClaimAndLeave(cfg, Empty, n, p);
  }

  /** One builds under the only permit, another waits. */
  function Contended(): State {
    State(map["A" := Proc(1, Building), "B" := Proc(2, Queued)], map["A" := Permit(1)], None, {}, {1, 2})
  }

  lemma ContendedIsReached(reuse: bool)
    ensures Reached(Config(1, 0.0, reuse), Contended())
  {
    var cfg := Config(1, 0.0, reuse);
    LeadsHere(cfg, Empty);
    var n := Step(cfg, Empty, Empty, Spawn("A", 1));
    n := Step(cfg, Empty, n, Spawn("B", 2));
    assert n == State(map["A" := Proc(1, Queued), "B" := Proc(2, Queued)], map[], None, {}, {1, 2});
    n := FirstClaim(cfg, n, "A");
    assert n == Contended();
  }

  /** A waiting process takes the lock and lists the one entry. */
  lemma ListTheOne(cfg: Config, s: State, p: ProcId) returns (n: State)
    requires Reached(cfg, s) && Enabled(cfg, s, Lock(p)) && s.files == map["A" := Permit(1)]
    ensures Reached(cfg, n)
    ensures n == To(s, p, InLock(Sweeping(["A"]), StandingAt(s))).(lock := Some(p))
  {
    n := Step(cfg, Empty, s, Lock(p));
    n := Step(cfg, Empty, n, List(p, ["A"]));
  }

  /** So two processes can come to build under a maximum of one. */
  lemma OneFailedReadExceedsMax()
    ensures exists actions :: |Holders(Run(Config(1, 0.0, false), actions))| > 1
  {
    var cfg := Config(1, 0.0, false);
    ContendedIsReached(false);
    var n := ListTheOne(cfg, Contended(), "B");
    var actions := LeadsByRun(cfg, [], n);
    assert HoldersAreRead(cfg, actions);
    assert HolderReadFails(cfg, n, ReadFails("B")) by {
      assert StageOf(n, "B").todo[0] == "A" && Holds(n, "A");
    }
    FailedReadIsExactlyTheOverrun(cfg, actions, ReadFails("B"));
  }

  /** The builder is killed and reaped, and something else is given its pid. */
  function Overtaken(): State {
    State(map["A" := Proc(1, Dead), "B" := Proc(2, Queued)], map["A" := Permit(1)], None, {1}, {1, 2})
  }

  lemma BuilderDies() returns (n: State)
    ensures Reached(Config(1, 0.0, true), n)
    ensures n == State(map["A" := Proc(1, Dead), "B" := Proc(2, Queued)], map["A" := Permit(1)], None, {}, {1, 2})
  {
    var cfg := Config(1, 0.0, true);
    ContendedIsReached(true);
    n := Step(cfg, Empty, Contended(), Kill("A"));
    assert n == State(map["A" := Proc(1, Zombie), "B" := Proc(2, Queued)], map["A" := Permit(1)], None, {}, {1, 2});
    n := Step(cfg, Empty, n, Reap("A"));
  }

  lemma OvertakenIsReached()
    ensures Reached(Config(1, 0.0, true), Overtaken()) && TakenOver(Overtaken(), "A")
  {
    var n := BuilderDies();
    n := Step(Config(1, 0.0, true), Empty, n, OtherStarts(1));
    assert n == Overtaken();
    assert 1 in n.others;
  }

  /** Or its pid is given to a third wrapper, which waits as well. */
  function SelfOvertaken(): State {
    State(map["A" := Proc(1, Dead), "B" := Proc(2, Queued), "C" := Proc(1, Queued)], map["A" := Permit(1)], None, {}, {1, 2})
  }

  lemma SelfOvertakenIsReached()
    ensures Reached(Config(1, 0.0, true), SelfOvertaken()) && TakenOver(SelfOvertaken(), "A")
  {
    var n := BuilderDies();
    n := Step(Config(1, 0.0, true), Empty, n, Spawn("C", 1));
    assert n == SelfOvertaken();
    assert n.procs["C"].pid == 1 && n.procs["C"].phase != Dead;
  }

  /** Its sweep over, a waiting process is turned away by the one entry left. */
  lemma RefusedByOne(cfg: Config, s: State, p: ProcId) returns (n: State)
    requires cfg.max == 1 && Reached(cfg, s) && s.files == map["A" := Permit(1)]
    requires AtStage(s, p) && StageOf(s, p) == Sweeping([]) && Holders(s) == {}
    ensures Reached(cfg, n) && AtStage(n, p) && StageOf(n, p) == Refused && Holders(n) == {} && n.others == s.others
  {
    n := Step(cfg, Empty, s, Count(p));
    n := Step(cfg, Empty, n, Decide(p, cfg.minFreeMb));
    assert s.files.Keys == {"A"};
    forall q | Holds(n, q)
      ensures q in Holders(s)
    {
    }
  }

  lemma KeptByOne(cfg: Config, s: State, p: ProcId) returns (n: State)
    requires cfg.max == 1 && Reached(cfg, s) && Enabled(cfg, s, Lock(p)) && s.files == map["A" := Permit(1)]
    requires PidRunning(s, 1) && Holders(s) == {}
    ensures Reached(cfg, n) && AtStage(n, p) && StageOf(n, p) == Refused && Holders(n) == {} && n.others == s.others
  {
    n := ListTheOne(cfg, s, p);
    assert Survives(n, "A") by {
      if 1 !in s.others {
        var q :| q in s.procs && s.procs[q].phase != Dead && s.procs[q].pid == 1;
        assert n.procs[q].phase != Dead && n.procs[q].pid == 1;
      }
    }
    assert ["A"][1..] == [];
    n := Step(cfg, Empty, n, Check(p));
    assert n == To(s, p, InLock(Sweeping([]), StandingAt(s))).(lock := Some(p));
    forall q | Holds(n, q)
      ensures q in Holders(s)
    {
    }
    n := RefusedByOne(cfg, n, p);
  }

  /** Such a permit turns an attempt away although memory suffices and nobody holds a permit. */
  lemma StrandedPermitBlocks()
    ensures exists s :: Reached(Config(1, 0.0, true), s) && TakenOver(s, "A")
    ensures exists s :: Reached(Config(1, 0.0, true), s) && Holders(s) == {} && AtStage(s, "B") && StageOf(s, "B") == Refused
  {
    OvertakenIsReached();
    var n := KeptByOne(Config(1, 0.0, true), Overtaken(), "B");
  }

  /**
   * And a wrapper given the pid keeps itself out: its own sweep finds its own pid running, keeps the dead
   * process's permit, and it is refused, with no process outside the fleet and no holder.
   */
  lemma WrapperKeepsItselfOut()
    ensures exists s :: Reached(Config(1, 0.0, true), s) && s.others == {} && Holders(s) == {}
                        && AtStage(s, "C") && StageOf(s, "C") == Refused
  {
    SelfOvertakenIsReached();
    assert PidRunning(SelfOvertaken(), 1);
    var n := KeptByOne(Config(1, 0.0, true), SelfOvertaken(), "C");
  }
}
