/**
 * The cross-process build permit: a lock around sweep, count and claim, permit files that outlive their
 * writers, and processes that may be killed between any two file operations.
 */
module Permits {
  import opened Json
  import opened Orders

  /** One wrapper process; its permit file carries the same name, so names are never shared. */
  type ProcId = string

  datatype File = Partial | Permit(pid: int)

  /** Where a lock owner stands: listing, sweeping the list, about to unlink, counted, claiming, or turned away. */
  datatype Stage =
    | Listing
    | Sweeping(todo: seq<ProcId>)
    | Unlinking(victim: ProcId, rest: seq<ProcId>)
    | Counted(current: set<ProcId>)
    | Opening
    | Writing
    | Claimed
    | Refused

  /**
   * `atLock` remembers whose permits stood in the directory when the lock was taken.  A killed process is
   * a zombie until it is reaped: its pid still answers.
   */
  datatype Phase = Queued | InLock(stage: Stage, atLock: Standing) | Building | Degraded | Done | Zombie | Dead

  /** Those who hold or left a permit, and among them those whose own process still answers. */
  datatype Standing = Standing(permits: set<ProcId>, answering: set<ProcId>)

  datatype Proc = Proc(pid: int, phase: Phase)

  datatype State = State(
    procs: map<ProcId, Proc>,
    files: map<ProcId, File>,
    lock: Option<ProcId>,
    others: set<int>,
    used: set<int>)

  datatype Config = Config(max: int, minFreeMb: real, pidReuse: bool)

  datatype Action =
    | Spawn(p: ProcId, pid: int)
    | Lock(p: ProcId)
    | List(p: ProcId, listing: seq<ProcId>)
    | Check(p: ProcId)
    | ReadFails(p: ProcId)
    | Unlink(p: ProcId)
    | Count(p: ProcId)
    | Decide(p: ProcId, freeMb: real)
    | Open(p: ProcId)
    | Write(p: ProcId)
    | Unlock(p: ProcId)
    | Fail(p: ProcId)
    | Release(p: ProcId)
    | Kill(p: ProcId)
    | Reap(p: ProcId)
    | OtherStarts(pid: int)
    | OtherEnds(pid: int)

  const Empty := State(map[], map[], None, {}, {})

  predicate IsGone(s: State, p: ProcId) { p in s.procs && s.procs[p].phase in {Zombie, Dead} }

  predicate IsLive(s: State, p: ProcId) { p in s.procs && !IsGone(s, p) }

  ghost predicate PidRunning(s: State, pid: int) {
    pid in s.others || exists p :: p in s.procs && s.procs[p].phase != Dead && s.procs[p].pid == pid
  }

  predicate Holds(s: State, p: ProcId) {
    p in s.procs && (s.procs[p].phase == Building || (s.procs[p].phase.InLock? && s.procs[p].phase.stage == Claimed))
  }

  function Holders(s: State): set<ProcId> { set p | p in s.procs && Holds(s, p) }

  function Stranded(s: State): set<ProcId> { set f | f in s.files && s.files[f].Permit? && IsGone(s, f) }

  function Unreaped(s: State): set<ProcId> { set f | f in Stranded(s) && s.procs[f].phase == Zombie }

  predicate AtStage(s: State, p: ProcId) { p in s.procs && s.procs[p].phase.InLock? }

  function StageOf(s: State, p: ProcId): Stage
    requires AtStage(s, p)
  {
    s.procs[p].phase.stage
  }

  function To(s: State, p: ProcId, phase: Phase): State
    requires p in s.procs
  {
    s.(procs := s.procs[p := s.procs[p].(phase := phase)])
  }

  function ToStage(s: State, p: ProcId, stage: Stage): State
    requires AtStage(s, p)
  {
    To(s, p, s.procs[p].phase.(stage := stage))
  }

  function Unlocked(s: State, p: ProcId): State { if s.lock == Some(p) then s.(lock := None) else s }

  /** A swept entry survives exactly when it is complete and its recorded process runs. */
  ghost predicate Survives(s: State, f: ProcId) {
    f in s.files && s.files[f].Permit? && PidRunning(s, s.files[f].pid)
  }

  ghost predicate FreshPid(cfg: Config, s: State, pid: int) {
    pid > 0 && !PidRunning(s, pid) && (cfg.pidReuse || pid !in s.used)
  }

  ghost predicate Enabled(cfg: Config, s: State, a: Action) {
    match a
    case Spawn(p, pid) => p !in s.procs && FreshPid(cfg, s, pid)
    case Lock(p) => p in s.procs && s.procs[p].phase == Queued && s.lock == None
    case List(p, listing) => AtStage(s, p) && StageOf(s, p) == Listing && forall f :: f in listing <==> f in s.files
    case Check(p) => AtStage(s, p) && StageOf(s, p).Sweeping? && StageOf(s, p).todo != []
    case ReadFails(p) => AtStage(s, p) && StageOf(s, p).Sweeping? && StageOf(s, p).todo != []
    case Unlink(p) => AtStage(s, p) && StageOf(s, p).Unlinking?
    case Count(p) => AtStage(s, p) && StageOf(s, p) == Sweeping([])
    case Decide(p, _) => AtStage(s, p) && StageOf(s, p).Counted?
    case Open(p) => AtStage(s, p) && StageOf(s, p) == Opening
    case Write(p) => AtStage(s, p) && StageOf(s, p) == Writing
    case Unlock(p) => AtStage(s, p) && StageOf(s, p) in {Claimed, Refused}
    case Fail(p) => p in s.procs && (s.procs[p].phase == Queued || (AtStage(s, p) && StageOf(s, p) !in {Claimed, Refused}))
    case Release(p) => p in s.procs && s.procs[p].phase == Building
    case Kill(p) => IsLive(s, p)
    case Reap(p) => p in s.procs && s.procs[p].phase == Zombie
    case OtherStarts(pid) => FreshPid(cfg, s, pid)
    case OtherEnds(pid) => pid in s.others
  }

  predicate Admits(cfg: Config, current: set<ProcId>, freeMb: real) { |current| < cfg.max && freeMb >= cfg.minFreeMb }

  function StandingAt(s: State): Standing { Standing(Holders(s) + Stranded(s), Holders(s) + Unreaped(s)) }

  ghost function Apply(cfg: Config, s: State, a: Action): State
    requires Enabled(cfg, s, a)
  {
    match a
    case Spawn(p, pid) => s.(procs := s.procs[p := Proc(pid, Queued)], used := s.used + {pid})
    case Lock(p) => To(s, p, InLock(Listing, StandingAt(s))).(lock := Some(p))
    case List(p, listing) => ToStage(s, p, Sweeping(listing))
    case Check(p) =>
      var todo := StageOf(s, p).todo;
      ToStage(s, p, if Survives(s, todo[0]) then Sweeping(todo[1..]) else Unlinking(todo[0], todo[1..]))
    case ReadFails(p) => ToStage(s, p, Unlinking(StageOf(s, p).todo[0], StageOf(s, p).todo[1..]))
    case Unlink(p) => ToStage(s, p, Sweeping(StageOf(s, p).rest)).(files := s.files - {StageOf(s, p).victim})
    case Count(p) => ToStage(s, p, Counted(s.files.Keys))
    case Decide(p, freeMb) => ToStage(s, p, if Admits(cfg, StageOf(s, p).current, freeMb) then Opening else Refused)
    case Open(p) => ToStage(s, p, Writing).(files := s.files[p := Partial])
    case Write(p) => ToStage(s, p, Claimed).(files := s.files[p := Permit(s.procs[p].pid)])
    case Unlock(p) => Unlocked(To(s, p, if StageOf(s, p) == Claimed then Building else Queued), p)
    case Fail(p) => Unlocked(To(s, p, Degraded), p)
    case Release(p) => To(s, p, Done).(files := s.files - {p})
    case Kill(p) => Unlocked(To(s, p, Zombie), p)
    case Reap(p) => To(s, p, Dead)
    case OtherStarts(pid) => s.(others := s.others + {pid}, used := s.used + {pid})
    case OtherEnds(pid) => s.(others := s.others - {pid})
  }

  ghost function Next(cfg: Config, s: State, a: Action): State { if Enabled(cfg, s, a) then Apply(cfg, s, a) else s }

  ghost function Run(cfg: Config, actions: seq<Action>): State {
    if actions == [] then Empty else Next(cfg, Run(cfg, actions[..|actions| - 1]), actions[|actions| - 1])
  }

  // ----- What every run keeps -----

  /** Exactly the lock owner is inside, so nobody else sweeps, counts or claims. */
  ghost predicate LockExclusive(s: State) {
    forall p :: AtStage(s, p) <==> s.lock == Some(p)
  }

  /** A complete file names its process, which holds it or is gone. */
  ghost predicate FilesOwned(s: State) {
    && (forall f :: f in s.files ==> f in s.procs)
    && forall f :: f in s.files && s.files[f].Permit? ==> s.files[f].pid == s.procs[f].pid && (Holds(s, f) || IsGone(s, f))
  }

  ghost predicate Orderly(s: State) { LockExclusive(s) && FilesOwned(s) }

  // ----- What runs keep in which no read of a live holder's file fails -----

  /** A failed read counts the file as stale, whoever holds it. */
  ghost predicate HolderReadFails(cfg: Config, s: State, a: Action) {
    a.ReadFails? && Enabled(cfg, s, a) && Holds(s, StageOf(s, a.p).todo[0])
  }

  ghost predicate HoldersAreRead(cfg: Config, actions: seq<Action>) {
    forall k :: 0 <= k < |actions| ==> !HolderReadFails(cfg, Run(cfg, actions[..k]), actions[k])
  }

  ghost predicate HoldersFiled(s: State) {
    forall p :: Holds(s, p) ==> p in s.files && s.files[p] == Permit(s.procs[p].pid)
  }

  ghost predicate Room(cfg: Config, s: State, wanted: nat) {
    |Holders(s)| + wanted <= cfg.max || (wanted == 0 && Holders(s) == {})
  }

  /** What the lock owner relies on at each stage, for safety. */
  ghost predicate StageSafe(cfg: Config, s: State, p: ProcId)
    requires AtStage(s, p)
  {
    match StageOf(s, p)
    case Unlinking(v, _) => !Holds(s, v)
    case Counted(current) => Holders(s) <= current
    case Opening => Room(cfg, s, 1)
    case Writing => Room(cfg, s, 1)
    case _ => true
  }

  ghost predicate Safe(cfg: Config, s: State) {
    && Orderly(s) && HoldersFiled(s) && Room(cfg, s, 0)
    && forall p :: AtStage(s, p) ==> StageSafe(cfg, s, p)
  }

  // ----- Safety -----

  /** The process an action belongs to. */
  predicate ActsFor(a: Action, p: ProcId) {
    match a
    case OtherStarts(_) => false
    case OtherEnds(_) => false
    case _ => a.p == p
  }

  /** Everyone else stands where they stood, under the same pid. */
  ghost predicate OthersStand(s: State, n: State, a: Action) {
    && s.procs.Keys <= n.procs.Keys
    && (forall q :: q in s.procs ==> n.procs[q].pid == s.procs[q].pid)
    && (forall q :: q in n.procs && !ActsFor(a, q) ==> q in s.procs && n.procs[q] == s.procs[q])
  }

  lemma OthersStandStill(cfg: Config, s: State, a: Action)
    requires Enabled(cfg, s, a)
    ensures OthersStand(s, Apply(cfg, s, a), a)
  {
  }

  /** Only a claim adds a holder, and only a release or a death of that holder removes one. */
  lemma HoldsAfter(cfg: Config, s: State, a: Action, q: ProcId)
    requires Enabled(cfg, s, a)
    ensures var n := Apply(cfg, s, a);
            match a
            case Write(p) => Holds(n, q) <==> Holds(s, q) || q == p
            case Release(p) => Holds(n, q) <==> Holds(s, q) && q != p
            case Kill(p) => Holds(n, q) <==> Holds(s, q) && q != p
            case _ => Holds(n, q) <==> Holds(s, q)
  {
    OthersStandStill(cfg, s, a);
    if ActsFor(a, q) {
      assert q in s.procs || a.Spawn?;
    }
  }

  lemma HoldersAfter(cfg: Config, s: State, a: Action)
    requires Enabled(cfg, s, a)
    ensures var now := Holders(Apply(cfg, s, a));
            match a
            case Write(p) => now == Holders(s) + {p} && p !in Holders(s)
            case Release(p) => now == Holders(s) - {p}
            case Kill(p) => now == Holders(s) - {p}
            case _ => now == Holders(s)
  {
    var n := Apply(cfg, s, a);
    forall q
      ensures q in Holders(n) <==> Holds(n, q)
      ensures q in Holders(s) <==> Holds(s, q)
    {
    }
    forall q
      ensures match a
              case Write(p) => Holds(n, q) <==> Holds(s, q) || q == p
              case Release(p) => Holds(n, q) <==> Holds(s, q) && q != p
              case Kill(p) => Holds(n, q) <==> Holds(s, q) && q != p
              case _ => Holds(n, q) <==> Holds(s, q)
    {
      HoldsAfter(cfg, s, a, q);
    }
  }

  lemma Fewer(cfg: Config, s: State, n: State, wanted: nat)
    requires Holders(n) <= Holders(s) && Room(cfg, s, wanted)
    ensures Room(cfg, n, wanted)
  {
    assert Holders(s) == Holders(n) + (Holders(s) - Holders(n));
  }

  lemma RoomAfter(cfg: Config, s: State, a: Action)
    requires Safe(cfg, s) && Enabled(cfg, s, a)
    ensures Room(cfg, Apply(cfg, s, a), 0)
  {
    HoldersAfter(cfg, s, a);
    if !a.Write? {
      Fewer(cfg, s, Apply(cfg, s, a), 0);
    }
  }

  lemma LockAfter(cfg: Config, s: State, a: Action)
    requires LockExclusive(s) && Enabled(cfg, s, a)
    ensures LockExclusive(Apply(cfg, s, a))
  {
  }

  lemma HolderFileAfter(cfg: Config, s: State, a: Action, p: ProcId)
    requires Safe(cfg, s) && Enabled(cfg, s, a) && Holds(Apply(cfg, s, a), p)
    ensures var n := Apply(cfg, s, a); p in n.files && n.files[p] == Permit(n.procs[p].pid)
  {
    HoldsAfter(cfg, s, a, p);
    OthersStandStill(cfg, s, a);
    if a.Unlink? {
      assert StageSafe(cfg, s, a.p);
    }
  }

  lemma FileOwnedAfter(cfg: Config, s: State, a: Action, f: ProcId)
    requires Orderly(s) && Enabled(cfg, s, a) && f in Apply(cfg, s, a).files
    ensures var n := Apply(cfg, s, a);
            f in n.procs && (n.files[f].Permit? ==> n.files[f].pid == n.procs[f].pid && (Holds(n, f) || IsGone(n, f)))
  {
    HoldsAfter(cfg, s, a, f);
    OthersStandStill(cfg, s, a);
  }

  lemma StepKeepsOrder(cfg: Config, s: State, a: Action)
    requires Orderly(s)
    ensures Orderly(Next(cfg, s, a))
  {
    if Enabled(cfg, s, a) {
      LockAfter(cfg, s, a);
      var n := Apply(cfg, s, a);
      forall f | f in n.files
        ensures f in n.procs
        ensures n.files[f].Permit? ==> n.files[f].pid == n.procs[f].pid && (Holds(n, f) || IsGone(n, f))
      {
        FileOwnedAfter(cfg, s, a, f);
      }
    }
  }

  lemma {:induction false} EveryRunIsOrderly(cfg: Config, actions: seq<Action>)
    ensures Orderly(Run(cfg, actions))
  {
    if actions != [] {
      var init := actions[..|actions| - 1];
      EveryRunIsOrderly(cfg, init);
      StepKeepsOrder(cfg, Run(cfg, init), actions[|actions| - 1]);
    }
  }

  /** While one process is inside, nobody else can claim, and what it relies on only gets easier. */
  lemma StagesOfOthers(cfg: Config, s: State, a: Action, p: ProcId)
    requires Safe(cfg, s) && Enabled(cfg, s, a) && AtStage(Apply(cfg, s, a), p) && !ActsFor(a, p)
    ensures StageSafe(cfg, Apply(cfg, s, a), p)
  {
    var n := Apply(cfg, s, a);
    OthersStandStill(cfg, s, a);
    HoldersAfter(cfg, s, a);
    assert StageSafe(cfg, s, p) && !a.Write?;
    if StageOf(s, p).Opening? || StageOf(s, p).Writing? {
      Fewer(cfg, s, n, 1);
    } else if StageOf(s, p).Unlinking? {
      HoldsAfter(cfg, s, a, StageOf(s, p).victim);
    }
  }

  /** The check finds a victim that is no holder; the count sees every holder; admission leaves room for one more. */
  lemma StageOfActor(cfg: Config, s: State, a: Action, p: ProcId)
    requires Safe(cfg, s) && Enabled(cfg, s, a) && AtStage(Apply(cfg, s, a), p) && ActsFor(a, p)
    requires !HolderReadFails(cfg, s, a)
    ensures StageSafe(cfg, Apply(cfg, s, a), p)
  {
    HoldersAfter(cfg, s, a);
    match a
    case Check(_) =>
      var victim := StageOf(s, p).todo[0];
      HoldsAfter(cfg, s, a, victim);
      assert Holds(s, victim) ==> IsLive(s, victim);
    case ReadFails(_) =>
      HoldsAfter(cfg, s, a, StageOf(s, p).todo[0]);
    case Count(_) =>
      assert forall q :: q in Holders(s) ==> Holds(s, q);
    case Decide(_, _) =>
      var current := StageOf(s, p).current;
      assert current == Holders(s) + (current - Holders(s));
    case _ =>
  }

  lemma StepKeepsSafe(cfg: Config, s: State, a: Action)
    requires Safe(cfg, s) && !HolderReadFails(cfg, s, a)
    ensures Safe(cfg, Next(cfg, s, a))
  {
    if Enabled(cfg, s, a) {
      var n := Apply(cfg, s, a);
      RoomAfter(cfg, s, a);
      StepKeepsOrder(cfg, s, a);
      forall p | Holds(n, p)
        ensures p in n.files && n.files[p] == Permit(n.procs[p].pid)
      {
        HolderFileAfter(cfg, s, a, p);
      }
      forall p | AtStage(n, p)
        ensures StageSafe(cfg, n, p)
      {
        if ActsFor(a, p) {
          StageOfActor(cfg, s, a, p);
        } else {
          StagesOfOthers(cfg, s, a, p);
        }
      }
    }
  }

  lemma {:induction false} FewerReads(cfg: Config, init: seq<Action>, a: Action)
    ensures HoldersAreRead(cfg, init + [a]) <==> HoldersAreRead(cfg, init) && !HolderReadFails(cfg, Run(cfg, init), a)
  {
    var actions := init + [a];
    assert actions[..|init|] == init && actions[|init|] == a;
    forall k | 0 <= k < |init|
      ensures actions[..k] == init[..k] && actions[k] == init[k]
    {
    }
  }

  lemma {:induction false} RunSnoc(cfg: Config, actions: seq<Action>, a: Action)
    ensures Run(cfg, actions + [a]) == Next(cfg, Run(cfg, actions), a)
  {
    assert (actions + [a])[..|actions|] == actions;
  }

  lemma {:induction false} ReadRunIsSafe(cfg: Config, actions: seq<Action>)
    requires HoldersAreRead(cfg, actions)
    ensures Safe(cfg, Run(cfg, actions))
  {
    if actions == [] {
      assert Holders(Empty) == {};
    } else {
      var init, a := actions[..|actions| - 1], actions[|actions| - 1];
      assert actions == init + [a];
      FewerReads(cfg, init, a);
      ReadRunIsSafe(cfg, init);
      StepKeepsSafe(cfg, Run(cfg, init), a);
    }
  }

  /**
   * However processes interleave, and wherever they are killed: as long as no read of a live holder's file
   * fails, live holders never exceed the maximum.
   */
  lemma {:induction false} HoldersNeverExceedMax(cfg: Config, actions: seq<Action>)
    requires HoldersAreRead(cfg, actions)
    ensures |Holders(Run(cfg, actions))| <= if cfg.max < 0 then 0 else cfg.max
  {
    ReadRunIsSafe(cfg, actions);
  }

  /** No other process's step touches a live holder's permit, or stops it from holding. */
  lemma {:induction false} HolderKeepsItsPermit(cfg: Config, actions: seq<Action>, a: Action, p: ProcId)
    requires HoldersAreRead(cfg, actions)
    requires Holds(Run(cfg, actions), p) && !ActsFor(a, p)
    ensures var s, n := Run(cfg, actions), Run(cfg, actions + [a]);
            && Holds(n, p)
            && p in s.files && s.files[p] == Permit(s.procs[p].pid)
            && p in n.files && n.files[p] == s.files[p]
  {
    ReadRunIsSafe(cfg, actions);
    RunSnoc(cfg, actions, a);
    var s := Run(cfg, actions);
    if Enabled(cfg, s, a) {
      HoldsAfter(cfg, s, a, p);
      OthersStandStill(cfg, s, a);
      HolderFileAfter(cfg, s, a, p);
    }
  }

  ghost predicate SomeHolderIsUnfiled(s: State) { exists p :: Holds(s, p) && p !in s.files }

  /**
   * The condition is exact: from a run that has met it, the next action breaks it if and only if the
   * sweep's own next step can leave a live holder without its permit.
   */
  lemma {:induction false} FailedReadIsExactlyTheBreach(cfg: Config, actions: seq<Action>, a: Action)
    requires HoldersAreRead(cfg, actions)
    ensures HolderReadFails(cfg, Run(cfg, actions), a) <==>
            exists q :: SomeHolderIsUnfiled(Run(cfg, actions + [a] + [Unlink(q)]))
  {
    var s := Run(cfg, actions);
    RunSnoc(cfg, actions, a);
    if HolderReadFails(cfg, s, a) {
      var q, v := a.p, StageOf(s, a.p).todo[0];
      RunSnoc(cfg, actions + [a], Unlink(q));
      var n := Next(cfg, s, a);
      HoldsAfter(cfg, s, a, v);
      assert Enabled(cfg, n, Unlink(q)) && StageOf(n, q).victim == v;
      HoldsAfter(cfg, n, Unlink(q), v);
      assert SomeHolderIsUnfiled(Run(cfg, actions + [a] + [Unlink(q)]));
    } else {
      FewerReads(cfg, actions, a);
      forall q
        ensures !SomeHolderIsUnfiled(Run(cfg, actions + [a] + [Unlink(q)]))
      {
        FewerReads(cfg, actions + [a], Unlink(q));
        ReadRunIsSafe(cfg, actions + [a] + [Unlink(q)]);
      }
    }
  }

  // ----- No attempt is turned away without cause -----

  /** Every pid belongs to one process only. */
  ghost predicate PidsApart(s: State) {
    && (forall p :: p in s.procs ==> s.procs[p].pid in s.used && s.procs[p].pid !in s.others)
    && (forall p, q :: p in s.procs && q in s.procs && s.procs[p].pid == s.procs[q].pid ==> p == q)
    && s.others <= s.used
  }

  /** Whose permits can keep an attempt out: where pids are reused, a dead process's too. */
  function Blocking(cfg: Config, at: Standing): set<ProcId> { if cfg.pidReuse then at.permits else at.answering }

  /** The lock owner has seen no claim since it locked, and what its sweep has kept stood in its way then. */
  ghost predicate StageExact(cfg: Config, s: State, p: ProcId)
    requires AtStage(s, p)
  {
    var at := s.procs[p].phase.atLock;
    && at.permits <= s.procs.Keys
    && (forall f :: f in s.files && s.files[f].Permit? ==> f in at.permits || f == p)
    && (forall f :: f in at.permits && s.procs[f].phase != Dead ==> f in at.answering)
    && match StageOf(s, p)
       case Sweeping(todo) => forall f :: f in s.files ==> f in todo || f in Blocking(cfg, at)
       case Unlinking(v, rest) => forall f :: f in s.files ==> f == v || f in rest || f in Blocking(cfg, at)
       case Counted(current) => current <= Blocking(cfg, at)
       case _ => true
  }

  ghost predicate Exact(cfg: Config, s: State) {
    && Orderly(s) && (!cfg.pidReuse ==> PidsApart(s))
    && forall p :: AtStage(s, p) ==> StageExact(cfg, s, p)
  }

  lemma PidsStay(cfg: Config, s: State, a: Action)
    requires Enabled(cfg, s, a) && !a.Spawn? && !a.OtherStarts?
    ensures var n := Apply(cfg, s, a);
            && n.procs.Keys == s.procs.Keys && (forall p :: p in s.procs ==> n.procs[p].pid == s.procs[p].pid)
            && n.others <= s.others && n.used == s.used
  {
  }

  lemma PidsStayApart(cfg: Config, s: State, a: Action)
    requires !cfg.pidReuse && PidsApart(s) && Enabled(cfg, s, a)
    ensures PidsApart(Apply(cfg, s, a))
  {
    if !a.Spawn? && !a.OtherStarts? {
      PidsStay(cfg, s, a);
    }
  }

  /** What survives the check blocks: it was there at the lock, and without pid reuse its own process answers. */
  lemma SurvivorBlocks(cfg: Config, s: State, p: ProcId, f: ProcId)
    requires Exact(cfg, s) && AtStage(s, p) && StageOf(s, p).Sweeping? && Survives(s, f)
    ensures f in Blocking(cfg, s.procs[p].phase.atLock)
  {
    assert StageExact(cfg, s, p);
    assert f != p;
    if !cfg.pidReuse {
      var q :| q in s.procs && s.procs[q].phase != Dead && s.procs[q].pid == s.files[f].pid;
      assert q == f;
    }
  }

  lemma ExactForOthers(cfg: Config, s: State, a: Action, p: ProcId)
    requires Exact(cfg, s) && Enabled(cfg, s, a) && AtStage(Apply(cfg, s, a), p) && !ActsFor(a, p)
    ensures StageExact(cfg, Apply(cfg, s, a), p)
  {
    var n := Apply(cfg, s, a);
    OthersStandStill(cfg, s, a);
    assert AtStage(s, p) && StageExact(cfg, s, p) && s.lock == Some(p);
    assert n.files.Keys <= s.files.Keys && forall f :: f in n.files ==> n.files[f] == s.files[f];
    DeadStayDead(cfg, s, a);
  }

  lemma DeadStayDead(cfg: Config, s: State, a: Action)
    requires Enabled(cfg, s, a)
    ensures forall f :: f in s.procs ==> f in Apply(cfg, s, a).procs
    ensures forall f :: f in s.procs && s.procs[f].phase == Dead ==> Apply(cfg, s, a).procs[f].phase == Dead
  {
  }

  lemma LockIsExact(cfg: Config, s: State, p: ProcId)
    requires Orderly(s) && Enabled(cfg, s, Lock(p))
    ensures StageExact(cfg, Apply(cfg, s, Lock(p)), p)
  {
    var at := StandingAt(s);
    forall f | f in s.files && s.files[f].Permit?
      ensures f in at.permits
    {
      assert Holds(s, f) || IsGone(s, f);
    }
  }

  lemma ExactForActor(cfg: Config, s: State, a: Action, p: ProcId)
    requires Exact(cfg, s) && Enabled(cfg, s, a) && AtStage(Apply(cfg, s, a), p) && ActsFor(a, p)
    ensures StageExact(cfg, Apply(cfg, s, a), p)
  {
    if a.Lock? {
      LockIsExact(cfg, s, p);
    } else {
      assert AtStage(s, p) && StageExact(cfg, s, p);
      if a.Check? || a.ReadFails? {
        var todo := StageOf(s, p).todo;
        assert todo == [todo[0]] + todo[1..];
        if a.Check? && Survives(s, todo[0]) {
          SurvivorBlocks(cfg, s, p, todo[0]);
        }
      }
    }
  }

  lemma StepKeepsExact(cfg: Config, s: State, a: Action)
    requires Exact(cfg, s)
    ensures Exact(cfg, Next(cfg, s, a))
  {
    StepKeepsOrder(cfg, s, a);
    if Enabled(cfg, s, a) {
      if !cfg.pidReuse {
        PidsStayApart(cfg, s, a);
      }
      forall p | AtStage(Apply(cfg, s, a), p)
        ensures StageExact(cfg, Apply(cfg, s, a), p)
      {
        if ActsFor(a, p) {
          ExactForActor(cfg, s, a, p);
        } else {
          ExactForOthers(cfg, s, a, p);
        }
      }
    }
  }

  lemma {:induction false} EveryRunIsExact(cfg: Config, actions: seq<Action>)
    ensures Exact(cfg, Run(cfg, actions))
  {
    if actions != [] {
      var init := actions[..|actions| - 1];
      EveryRunIsExact(cfg, init);
      StepKeepsExact(cfg, Run(cfg, init), actions[|actions| - 1]);
    }
  }

  /** At action `k` the process took the lock, and it has been inside ever since. */
  ghost predicate InsideSince(cfg: Config, actions: seq<Action>, p: ProcId, k: nat) {
    && k < |actions| && actions[k] == Lock(p) && Enabled(cfg, Run(cfg, actions[..k]), Lock(p))
    && forall j :: k < j <= |actions| ==> AtStage(Run(cfg, actions[..j]), p)
  }

  lemma OnlyLockEnters(cfg: Config, s: State, a: Action, p: ProcId)
    requires Enabled(cfg, s, a) && AtStage(Apply(cfg, s, a), p) && a != Lock(p)
    ensures AtStage(s, p) && Apply(cfg, s, a).procs[p].phase.atLock == s.procs[p].phase.atLock
  {
    OthersStandStill(cfg, s, a);
    assert ActsFor(a, p) || s.procs[p] == Apply(cfg, s, a).procs[p];
  }

  lemma {:induction false} RemembersItsLock(cfg: Config, actions: seq<Action>, p: ProcId) returns (k: nat)
    requires AtStage(Run(cfg, actions), p)
    ensures InsideSince(cfg, actions, p, k)
    ensures Run(cfg, actions).procs[p].phase.atLock == StandingAt(Run(cfg, actions[..k]))
  {
    var init, a := actions[..|actions| - 1], actions[|actions| - 1];
    var s := Run(cfg, init);
    assert actions[..|actions|] == actions;
    if a == Lock(p) && Enabled(cfg, s, a) {
      k := |init|;
    } else {
      if Enabled(cfg, s, a) {
        OnlyLockEnters(cfg, s, a, p);
      }
      k := RemembersItsLock(cfg, init, p);
      assert actions[..k] == init[..k];
      forall j | k < j <= |actions|
        ensures AtStage(Run(cfg, actions[..j]), p)
      {
        if j <= |init| {
          assert actions[..j] == init[..j];
        }
      }
    }
  }

  /**
   * An attempt is turned away only for lack of memory, or because, when it took the lock for this very
   * attempt, permits enough stood in its way: those of live holders and of killed processes whose pid still
   * answers; where pids are reused, those of any process that left one.
   */
  lemma {:induction false} RefusedOnlyWhenFull(cfg: Config, actions: seq<Action>, p: ProcId, freeMb: real)
    requires Enabled(cfg, Run(cfg, actions), Decide(p, freeMb))
    requires StageOf(Next(cfg, Run(cfg, actions), Decide(p, freeMb)), p) == Refused
    ensures freeMb < cfg.minFreeMb
            || exists k: nat :: InsideSince(cfg, actions, p, k) &&
                 var at := Run(cfg, actions[..k]);
                 |Holders(at) + (if cfg.pidReuse then Stranded(at) else Unreaped(at))| >= cfg.max
  {
    var s := Run(cfg, actions);
    EveryRunIsExact(cfg, actions);
    assert StageExact(cfg, s, p);
    var k := RemembersItsLock(cfg, actions, p);
    var current, blocking := StageOf(s, p).current, Blocking(cfg, s.procs[p].phase.atLock);
    assert blocking == current + (blocking - current);
    assert InsideSince(cfg, actions, p, k);
  }

  // ----- Nobody holds a permit without cause -----

  /** The process was let in: at its count the directory had a free slot, and memory sufficed. */
  ghost predicate LetIn(cfg: Config, s: State, p: ProcId, freeMb: real) {
    && AtStage(s, p) && StageOf(s, p).Counted?
    && |StageOf(s, p).current| < cfg.max && freeMb >= cfg.minFreeMb
  }

  /** A decision lets a process go on to its claim exactly when a slot is free and memory suffices. */
  lemma DecideLetsIn(cfg: Config, s: State, p: ProcId, freeMb: real)
    requires Enabled(cfg, s, Decide(p, freeMb))
    ensures var n := Apply(cfg, s, Decide(p, freeMb));
            && AtStage(n, p) && StageOf(n, p) in {Opening, Refused}
            && (StageOf(n, p) == Opening <==> |StageOf(s, p).current| < cfg.max && freeMb >= cfg.minFreeMb)
  {
  }

  predicate Claiming(s: State, p: ProcId) {
    p in s.procs && (Holds(s, p) || (s.procs[p].phase.InLock? && s.procs[p].phase.stage in {Opening, Writing}))
  }

  /** Decision `k` of the run let the process in, and it has not taken the lock again since. */
  ghost predicate LetInAt(cfg: Config, actions: seq<Action>, p: ProcId, k: int) {
    && 0 <= k < |actions| && actions[k].Decide? && actions[k].p == p
    && LetIn(cfg, Run(cfg, actions[..k]), p, actions[k].freeMb)
    && forall j :: k < j < |actions| && actions[j] == Lock(p) ==> !Enabled(cfg, Run(cfg, actions[..j]), actions[j])
  }

  lemma ClaimingWasDecided(cfg: Config, s: State, a: Action, p: ProcId)
    requires Enabled(cfg, s, a) && Claiming(Apply(cfg, s, a), p)
    ensures a != Lock(p)
    ensures Claiming(s, p) || (a.Decide? && a.p == p && LetIn(cfg, s, p, a.freeMb))
  {
    OthersStandStill(cfg, s, a);
    if !ActsFor(a, p) {
      assert s.procs[p] == Apply(cfg, s, a).procs[p];
    }
  }

  lemma {:induction false} LetInStays(cfg: Config, actions: seq<Action>, a: Action, p: ProcId, k: int)
    requires LetInAt(cfg, actions, p, k) && (a == Lock(p) ==> !Enabled(cfg, Run(cfg, actions), a))
    ensures LetInAt(cfg, actions + [a], p, k)
  {
    var longer := actions + [a];
    assert longer[..|actions|] == actions && longer[..k] == actions[..k];
    forall j | k < j < |longer| && longer[j] == Lock(p)
      ensures !Enabled(cfg, Run(cfg, longer[..j]), longer[j])
    {
      if j < |actions| {
        assert longer[..j] == actions[..j];
      }
    }
  }

  /**
   * Over every run: whoever holds a permit, or is about to claim one, was let in by a decision taken since it
   * last took the lock, with a slot free in the directory it had counted and memory enough.
   */
  lemma {:induction false} EveryHolderWasLetIn(cfg: Config, actions: seq<Action>, p: ProcId)
    requires Claiming(Run(cfg, actions), p)
    ensures exists k :: LetInAt(cfg, actions, p, k)
  {
    var init, a := actions[..|actions| - 1], actions[|actions| - 1];
    var s := Run(cfg, init);
    assert actions == init + [a];
    if Enabled(cfg, s, a) {
      ClaimingWasDecided(cfg, s, a, p);
    }
    if Claiming(s, p) {
      EveryHolderWasLetIn(cfg, init, p);
      var k :| LetInAt(cfg, init, p, k);
      LetInStays(cfg, init, a, p, k);
    } else {
      assert actions[..|init|] == init;
      assert LetInAt(cfg, actions, p, |init|);
    }
  }

  // ----- Nobody goes without a permit but where the store failed -----

  /** A process turned away leaves the lock and waits to try again. */
  lemma RefusedTriesAgain(cfg: Config, s: State, p: ProcId)
    requires LockExclusive(s) && AtStage(s, p) && StageOf(s, p) == Refused
    ensures Enabled(cfg, s, Unlock(p))
    ensures var n := Apply(cfg, s, Unlock(p));
            n.procs[p].phase == Queued && n.files == s.files && Enabled(cfg, n, Lock(p))
  {
  }

  /** A process admitted and done claiming leaves the lock and builds; done building it removes its own file only. */
  lemma ClaimedBuildsAndReleases(cfg: Config, s: State, p: ProcId)
    requires LockExclusive(s) && AtStage(s, p) && StageOf(s, p) == Claimed
    ensures Enabled(cfg, s, Unlock(p))
    ensures var n := Apply(cfg, s, Unlock(p));
            && n.procs[p].phase == Building && n.files == s.files && n.lock == None
            && Enabled(cfg, n, Release(p)) && Apply(cfg, n, Release(p)).files == s.files - {p}
            && Apply(cfg, n, Release(p)).procs[p].phase == Done
  {
  }

  /** Over every run: whoever builds without a permit had the store fail on it. */
  lemma {:induction false} DegradedMetAFailure(cfg: Config, actions: seq<Action>, p: ProcId)
    requires p in Run(cfg, actions).procs && Run(cfg, actions).procs[p].phase == Degraded
    ensures exists k :: 0 <= k < |actions| && actions[k] == Fail(p) && Enabled(cfg, Run(cfg, actions[..k]), actions[k])
  {
    var init, a := actions[..|actions| - 1], actions[|actions| - 1];
    var s := Run(cfg, init);
    if Enabled(cfg, s, a) && a == Fail(p) {
      assert actions[..|init|] == init;
    } else {
      if Enabled(cfg, s, a) {
        OnlyFailuresDegrade(cfg, s, a, p);
      }
      DegradedMetAFailure(cfg, init, p);
      var k :| 0 <= k < |init| && init[k] == Fail(p) && Enabled(cfg, Run(cfg, init[..k]), init[k]);
      assert actions[k] == Fail(p) && actions[..k] == init[..k];
    }
  }

  lemma OnlyFailuresDegrade(cfg: Config, s: State, a: Action, p: ProcId)
    requires Enabled(cfg, s, a) && a != Fail(p)
    requires p in Apply(cfg, s, a).procs && Apply(cfg, s, a).procs[p].phase == Degraded
    ensures p in s.procs && s.procs[p].phase == Degraded
  {
    OthersStandStill(cfg, s, a);
    if !ActsFor(a, p) {
      assert s.procs[p] == Apply(cfg, s, a).procs[p];
    }
  }

  // ----- A permit whose pid was taken over -----

  /** A dead process's complete permit, its pid run by something else, and nobody about to remove it. */
  ghost predicate TakenOver(s: State, f: ProcId) {
    && f in s.procs && s.procs[f].phase == Dead
    && f in s.files && s.files[f].Permit? && PidRunning(s, s.files[f].pid)
    && forall p :: AtStage(s, p) && StageOf(s, p).Unlinking? ==> StageOf(s, p).victim != f
  }

  /**
   * Its age is never looked at: whoever took over the pid, an outside process or another wrapper, the permit
   * goes on taking up a slot if and only if that pid still runs and the step is no failed read of it.
   */
  lemma StrandedPermitStays(cfg: Config, s: State, a: Action, f: ProcId)
    requires Orderly(s) && TakenOver(s, f) && Enabled(cfg, s, a)
    ensures var n := Apply(cfg, s, a);
            && f in n.files && n.files[f] == s.files[f]
            && (TakenOver(n, f) <==>
                  PidRunning(n, s.files[f].pid) && !(a.ReadFails? && StageOf(s, a.p).todo[0] == f))
  {
    var n := Apply(cfg, s, a);
    OthersStandStill(cfg, s, a);
    assert !ActsFor(a, f);
    assert Survives(s, f);
    if a.ReadFails? && StageOf(s, a.p).todo[0] == f {
      assert AtStage(n, a.p) && StageOf(n, a.p).victim == f;
    } else {
      forall p | AtStage(n, p) && StageOf(n, p).Unlinking?
        ensures StageOf(n, p).victim != f
      {
        if ActsFor(a, p) {
          assert a.Check? ==> !Survives(s, StageOf(s, p).todo[0]);
        } else {
          assert AtStage(s, p) && StageOf(n, p) == StageOf(s, p);
        }
      }
    }
  }

  // ----- One attempt against the directory -----

  /** What a sweep goes by: the pids that run, and the entries it fails to read. */
  datatype View = View(running: set<int>, unreadable: set<ProcId>)

  /** What a sweep leaves: the complete entries it can read whose process runs. */
  function Swept(files: map<ProcId, File>, view: View): map<ProcId, File> {
    map f | f in files && Kept(files, view, f) :: files[f]
  }

  predicate Kept(files: map<ProcId, File>, view: View, f: ProcId)
    requires f in files
  {
    f !in view.unreadable && files[f].Permit? && files[f].pid in view.running
  }

  ghost predicate SweptSoFar(before: map<ProcId, File>, files: map<ProcId, File>, view: View, seen: seq<ProcId>) {
    && (forall f :: f in files <==> f in before && (f in seen ==> Kept(before, view, f)))
    && forall f :: f in files ==> files[f] == before[f]
  }

  /** What one admission attempt finds: the directory, what the sweep sees of it, the free memory. */
  datatype Poll = Poll(found: map<ProcId, File>, view: View, freeMb: real)

  predicate AdmitsPoll(cfg: Config, poll: Poll) { Admits(cfg, Swept(poll.found, poll.view).Keys, poll.freeMb) }

  class PermitDir {
    var files: map<ProcId, File>

    constructor (found: map<ProcId, File>)
      ensures files == found
    {
      files := found;
    }

    method SweepStale(view: View)
      modifies this
      ensures files == Swept(old(files), view)
    {
      StringsAreOrdered();
      var listing := SetInOrder(StringLeq, files.Keys);
      ghost var before := files;
      var i := 0;
      while i < |listing|
        invariant i <= |listing|
        invariant SweptSoFar(before, files, view, listing[..i])
      {
        var f := listing[i];
        assert listing[..i + 1] == listing[..i] + [f];
        if f in files && (f in view.unreadable || files[f].Partial? || files[f].pid !in view.running) {
          files := files - {f};
        }
        i := i + 1;
      }
      assert listing[..i] == listing;
    }

    method TryAcquire(me: ProcId, pid: int, cfg: Config, poll: Poll) returns (admitted: bool)
      modifies this
      ensures admitted <==> |Swept(poll.found, poll.view).Keys| < cfg.max && poll.freeMb >= cfg.minFreeMb
      ensures var swept := Swept(poll.found, poll.view);
              files == if admitted then swept[me := Permit(pid)] else swept
    {
      files := poll.found;
      SweepStale(poll.view);
      admitted := |files.Keys| < cfg.max && poll.freeMb >= cfg.minFreeMb;
      if admitted {
        files := files[me := Permit(pid)];
      }
    }

    /** Poll until admitted: the first poll that admits is the one that claims. */
    method AcquirePermit(me: ProcId, pid: int, cfg: Config, polls: seq<Poll>) returns (attempts: nat)
      requires exists k :: 0 <= k < |polls| && AdmitsPoll(cfg, polls[k])
      modifies this
      ensures attempts < |polls|
      ensures polls[attempts].freeMb >= cfg.minFreeMb
      ensures |Swept(polls[attempts].found, polls[attempts].view).Keys| < cfg.max
      ensures forall k :: 0 <= k < attempts ==>
                polls[k].freeMb < cfg.minFreeMb || |Swept(polls[k].found, polls[k].view).Keys| >= cfg.max
      ensures files == Swept(polls[attempts].found, polls[attempts].view)[me := Permit(pid)]
    {
      attempts := 0;
      var admitted := TryAcquire(me, pid, cfg, polls[0]);
      while !admitted
        invariant attempts < |polls| && admitted == AdmitsPoll(cfg, polls[attempts])
        invariant forall k :: 0 <= k < attempts ==> !AdmitsPoll(cfg, polls[k])
        invariant admitted ==> files == Swept(polls[attempts].found, polls[attempts].view)[me := Permit(pid)]
        decreases |polls| - attempts
      {
        attempts := attempts + 1;
        admitted := TryAcquire(me, pid, cfg, polls[attempts]);
      }
    }

    method Release(me: ProcId)
      modifies this
      ensures files == old(files) - {me}
    {
      files := files - {me};
    }
  }

  // ----- A sweep nobody interferes with -----

  ghost function Running(s: State): set<int> {
    s.others + set p | p in s.procs && s.procs[p].phase != Dead :: s.procs[p].pid
  }

  /** The owner's sweeping steps, one after the other, until its list is empty. */
  ghost function SweepAll(cfg: Config, s: State, p: ProcId, unreadable: set<ProcId>): State
    requires AtStage(s, p) && StageOf(s, p).Sweeping?
    decreases |StageOf(s, p).todo|
  {
    if StageOf(s, p).todo == [] then s
    else
      var checked := Next(cfg, s, if StageOf(s, p).todo[0] in unreadable then ReadFails(p) else Check(p));
      SweepAll(cfg, if StageOf(checked, p).Unlinking? then Next(cfg, checked, Unlink(p)) else checked, p, unreadable)
  }

  /** Left alone, the sweep keeps what it has not listed, and of its list what it can read and finds running. */
  lemma {:induction false} LoneSweep(cfg: Config, s: State, p: ProcId, unreadable: set<ProcId>)
    requires AtStage(s, p) && StageOf(s, p).Sweeping?
    ensures var n := SweepAll(cfg, s, p, unreadable); AtStage(n, p) && StageOf(n, p) == Sweeping([])
    ensures forall f :: f in SweepAll(cfg, s, p, unreadable).files <==>
              f in s.files && (f in StageOf(s, p).todo ==> Kept(s.files, View(Running(s), unreadable), f))
    ensures forall f :: f in SweepAll(cfg, s, p, unreadable).files ==> SweepAll(cfg, s, p, unreadable).files[f] == s.files[f]
    decreases |StageOf(s, p).todo|
  {
    var todo := StageOf(s, p).todo;
    if todo != [] {
      var checked := Next(cfg, s, if todo[0] in unreadable then ReadFails(p) else Check(p));
      var n := if StageOf(checked, p).Unlinking? then Next(cfg, checked, Unlink(p)) else checked;
      assert todo == [todo[0]] + todo[1..];
      SweepOne(cfg, s, p, unreadable);
      LoneSweep(cfg, n, p, unreadable);
    }
  }

  /** One entry: removed unless it can be read and its process found running; no process stirs meanwhile. */
  lemma SweepOne(cfg: Config, s: State, p: ProcId, unreadable: set<ProcId>)
    requires AtStage(s, p) && StageOf(s, p).Sweeping? && StageOf(s, p).todo != []
    ensures var todo := StageOf(s, p).todo;
            var checked := Next(cfg, s, if todo[0] in unreadable then ReadFails(p) else Check(p));
            AtStage(checked, p) &&
            var n := if StageOf(checked, p).Unlinking? then Next(cfg, checked, Unlink(p)) else checked;
            && n == ToStage(s, p, Sweeping(todo[1..])).(files := n.files)
            && Running(n) == Running(s)
            && n.files == if todo[0] in s.files && !Kept(s.files, View(Running(s), unreadable), todo[0])
                          then s.files - {todo[0]} else s.files
  {
    RunningIsPidRunning(s);
    var todo := StageOf(s, p).todo;
    assert todo[0] !in s.files ==> s.files - {todo[0]} == s.files;
    var n := ToStage(s, p, Sweeping(todo[1..]));
    assert forall q :: q in n.procs && n.procs[q].phase != Dead <==> q in s.procs && s.procs[q].phase != Dead;
    assert Running(n) == Running(s);
  }

  lemma RunningIsPidRunning(s: State)
    ensures forall pid :: PidRunning(s, pid) <==> pid in Running(s)
  {
  }

  lemma {:induction false} LoneSweepIsSwept(cfg: Config, s: State, p: ProcId, unreadable: set<ProcId>)
    requires AtStage(s, p) && StageOf(s, p).Sweeping? && forall f :: f in s.files ==> f in StageOf(s, p).todo
    ensures SweepAll(cfg, s, p, unreadable).files == Swept(s.files, View(Running(s), unreadable))
  {
    LoneSweep(cfg, s, p, unreadable);
  }
}
