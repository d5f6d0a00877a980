/** Fan-out over an ordered list of branches, each on its own copy of the context, and the merge of what they return. */
module ParallelBranches {
  import opened Json
  import opened Contexts
  import opened Nodes

  datatype BranchFailure = FailRun | Tolerate

  datatype BranchOutcome = BranchOutcome(branch: Id, ok: bool, error: Option<string>)

  datatype Parallel = Parallel(identity: Id, branches: seq<Node>, branchFailure: BranchFailure)

  // ----- Merging -----

  /** The layer at `j` is the last one that holds the key. */
  ghost predicate LastHolder<V>(layers: seq<map<Id, V>>, k: Id, j: int) {
    0 <= j < |layers| && k in layers[j] && forall i :: j < i < |layers| ==> k !in layers[i]
  }

  function Overlay<V>(layers: seq<map<Id, V>>): map<Id, V> {
    if layers == [] then map[] else Overlay(layers[..|layers| - 1]) + layers[|layers| - 1]
  }

  /** The overlay holds, for each key, the value of the last layer that has it, and nothing else. */
  lemma {:induction false} OverlayTakesLast<V>(layers: seq<map<Id, V>>, k: Id)
    ensures k in Overlay(layers) <==> exists j :: LastHolder(layers, k, j)
    ensures forall j :: LastHolder(layers, k, j) ==> Overlay(layers)[k] == layers[j][k]
  {
    if layers != [] {
      var init, n := layers[..|layers| - 1], |layers| - 1;
      OverlayTakesLast(init, k);
      if k in layers[n] {
        assert LastHolder(layers, k, n);
      } else {
        forall j
          ensures LastHolder(layers, k, j) <==> LastHolder(init, k, j)
        {
        }
      }
    }
  }

  /** Insert every entry of one map into another, in whatever order they come. */
  method InsertAll<V>(into: map<Id, V>, entries: map<Id, V>) returns (r: map<Id, V>)
    ensures r == into + entries
  {
    r := into;
    var todo := entries.Keys;
    while todo != {}
      invariant todo <= entries.Keys
      invariant r == into + (map k | k in entries && k !in todo :: entries[k])
      decreases todo
    {
      var key :| key in todo;
      r, todo := r[key := entries[key]], todo - {key};
    }
  }

  function NodesOf(outputs: seq<Context>): seq<map<Id, Value>> { seq(|outputs|, i requires 0 <= i < |outputs| => outputs[i].nodes) }

  function RunsOf(outputs: seq<Context>): seq<map<Id, NodeRun>> { seq(|outputs|, i requires 0 <= i < |outputs| => outputs[i].nodeRuns) }

  function Merge(base: Context, outputs: seq<Context>): Context {
    base.(nodes := base.nodes + Overlay(NodesOf(outputs)), nodeRuns := base.nodeRuns + Overlay(RunsOf(outputs)))
  }

  method MergeBranchOutputs(base: Context, outputs: seq<Context>) returns (merged: Context)
    ensures merged == Merge(base, outputs)
  {
    var mergedNodes: map<Id, Value> := map[];
    var mergedRuns: map<Id, NodeRun> := map[];
    var i := 0;
    while i < |outputs|
      invariant i <= |outputs|
      invariant mergedNodes == Overlay(NodesOf(outputs)[..i]) && mergedRuns == Overlay(RunsOf(outputs)[..i])
    {
      assert NodesOf(outputs)[..i + 1][..i] == NodesOf(outputs)[..i];
      assert RunsOf(outputs)[..i + 1][..i] == RunsOf(outputs)[..i];
      mergedNodes := InsertAll(mergedNodes, outputs[i].nodes);
      mergedRuns := InsertAll(mergedRuns, outputs[i].nodeRuns);
      i := i + 1;
    }
    assert NodesOf(outputs)[..i] == NodesOf(outputs) && RunsOf(outputs)[..i] == RunsOf(outputs);
    merged := base.(nodes := base.nodes + mergedNodes, nodeRuns := base.nodeRuns + mergedRuns);
  }

  // ----- What survives a merge -----

  /**
   * A merged entry is the last holding branch's, else the parent's; the event and all metadata stay the
   * parent's, whatever the branches wrote there.
   */
  lemma MergedEntry(base: Context, outputs: seq<Context>, k: Id)
    ensures var merged := Merge(base, outputs);
            && merged.event == base.event && merged.metadata == base.metadata
            && (forall j :: LastHolder(NodesOf(outputs), k, j) ==> k in merged.nodes && merged.nodes[k] == outputs[j].nodes[k])
            && (forall j :: LastHolder(RunsOf(outputs), k, j) ==> k in merged.nodeRuns && merged.nodeRuns[k] == outputs[j].nodeRuns[k])
            && ((forall o :: o in outputs ==> k !in o.nodes) ==>
                  (k in merged.nodes <==> k in base.nodes) && (k in base.nodes ==> merged.nodes[k] == base.nodes[k]))
            && ((forall o :: o in outputs ==> k !in o.nodeRuns) ==>
                  (k in merged.nodeRuns <==> k in base.nodeRuns) && (k in base.nodeRuns ==> merged.nodeRuns[k] == base.nodeRuns[k]))
  {
    OverlayTakesLast(NodesOf(outputs), k);
    OverlayTakesLast(RunsOf(outputs), k);
  }

  lemma {:induction false} FindLastHolder<V>(layers: seq<map<Id, V>>, k: Id, j: nat) returns (last: nat)
    requires j < |layers| && k in layers[j]
    ensures j <= last && LastHolder(layers, k, last)
    decreases |layers| - j
  {
    last := j;
    if i :| j < i < |layers| && k in layers[i] {
      last := FindLastHolder(layers, k, i);
    }
  }

  /** A key one branch alone returns survives in every order the branches may be declared in. */
  lemma FreshKeySurvivesEveryOrder(base: Context, outputs: seq<Context>, order: seq<Context>, j: nat, k: Id)
    requires multiset(order) == multiset(outputs)
    requires j < |outputs| && k in outputs[j].nodes && forall i :: 0 <= i < |outputs| && i != j ==> k !in outputs[i].nodes
    ensures k in Merge(base, order).nodes && Merge(base, order).nodes[k] == outputs[j].nodes[k]
  {
    assert outputs[j] in multiset(order);
    var at :| 0 <= at < |order| && order[at] == outputs[j];
    var last := FindLastHolder(NodesOf(order), k, at);
    assert order[last] in multiset(outputs);
    MergedEntry(base, order, k);
  }

  /** Each branch returns the parent's entries overlaid with its own writes. */
  ghost predicate AddsTo(base: Context, outputs: seq<Context>, writes: seq<map<Id, Value>>) {
    |writes| == |outputs| && forall j :: 0 <= j < |outputs| ==> outputs[j].nodes == base.nodes + writes[j]
  }

  ghost predicate PairwiseDisjoint(writes: seq<map<Id, Value>>) {
    forall i, j, k :: 0 <= i < j < |writes| && k in writes[i] ==> k !in writes[j]
  }

  /**
   * Disjoint writes: a branch's entry survives if and only if the key was new to the parent, or the
   * branch is the last one, or it left the parent's value as it was.  Otherwise a later branch's
   * untouched copy has overwritten it.
   */
  lemma DisjointWritesSurvive(base: Context, outputs: seq<Context>, writes: seq<map<Id, Value>>, j: nat, k: Id)
    requires AddsTo(base, outputs, writes) && PairwiseDisjoint(writes)
    requires j < |writes| && k in writes[j]
    ensures k in Merge(base, outputs).nodes
    ensures Merge(base, outputs).nodes[k] == writes[j][k] <==>
            k !in base.nodes || j == |outputs| - 1 || writes[j][k] == base.nodes[k]
  {
    MergedEntry(base, outputs, k);
    var n := |outputs| - 1;
    if k in base.nodes && j < n {
      assert LastHolder(NodesOf(outputs), k, n);
    } else {
      assert LastHolder(NodesOf(outputs), k, j);
    }
  }

  /** Two branches, one key each: the first one's update of an inherited key is undone by the second. */
  lemma DisjointUpdateIsLost()
    ensures exists base, outputs, writes ::
              && AddsTo(base, outputs, writes) && PairwiseDisjoint(writes) && |writes| == 2
              && "kept" in writes[0] && writes[0]["kept"] == Int(1)
              && "kept" in Merge(base, outputs).nodes && Merge(base, outputs).nodes["kept"] == Int(0)
  {
    var base := Context(Null, map["kept" := Int(0)], EmptyMetadata, map[]);
    var writes: seq<map<Id, Value>> := [map["kept" := Int(1)], map["other" := Int(2)]];
    var outputs := [base.(nodes := base.nodes + writes[0]), base.(nodes := base.nodes + writes[1])];
    assert "other"[0] != "kept"[0];
    DisjointWritesSurvive(base, outputs, writes, 0, "kept");
    MergedEntry(base, outputs, "kept");
    assert LastHolder(NodesOf(outputs), "kept", 1);
    assert AddsTo(base, outputs, writes) && PairwiseDisjoint(writes);
  }

  // ----- Running the branches -----

  function OutcomeOf(branch: Node, c: Context): BranchOutcome {
    match branch.process(c)
    case Done(_) => BranchOutcome(branch.name, true, None)
    case Fault(e) => BranchOutcome(branch.name, false, Some(e.message))
  }

  function EncodeOutcome(o: BranchOutcome): Value {
    var required := map["branch" := Str(o.branch), "ok" := Bool(o.ok)];
    Obj(if o.error.Some? then required["error" := Str(o.error.value)] else required)
  }

  function OutcomesValue(branches: seq<Node>, c: Context): Value {
    Arr(seq(|branches|, i requires 0 <= i < |branches| => EncodeOutcome(OutcomeOf(branches[i], c))))
  }

  /** The branches that return a context, in declared order. */
  function Successful(branches: seq<Node>, c: Context): seq<Node> {
    if branches == [] then []
    else
      var last := branches[|branches| - 1];
      Successful(branches[..|branches| - 1], c) + if last.process(c).Done? then [last] else []
  }

  /** What they return. */
  function Outputs(branches: seq<Node>, c: Context): seq<Context> {
    if branches == [] then []
    else
      var last := branches[|branches| - 1].process(c);
      Outputs(branches[..|branches| - 1], c) + if last.Done? then [last.ctx] else []
  }

  lemma {:induction false} SuccessfulSucceed(branches: seq<Node>, c: Context)
    ensures forall b :: b in Successful(branches, c) <==> b in branches && b.process(c).Done?
    ensures Outputs(Successful(branches, c), c) == Outputs(branches, c)
  {
    if branches != [] {
      var init, last := branches[..|branches| - 1], branches[|branches| - 1];
      SuccessfulSucceed(init, c);
      assert branches == init + [last];
      if last.process(c).Done? {
        assert Successful(branches, c) == Successful(init, c) + [last];
        assert Successful(branches, c)[..|Successful(branches, c)| - 1] == Successful(init, c);
      } else {
        assert Successful(branches, c) == Successful(init, c);
      }
    }
  }

  ghost predicate FirstFailure(branches: seq<Node>, c: Context, j: int) {
    && 0 <= j < |branches| && branches[j].process(c).Fault?
    && forall i :: 0 <= i < j ==> branches[i].process(c).Done?
  }

  method ProcessFailRun(p: Parallel, c: Context) returns (r: Outcome)
    ensures r.Done? <==> forall b :: b in p.branches ==> b.process(c).Done?
    ensures r.Done? ==> r.ctx == Merge(c, Outputs(p.branches, c))
    ensures r.Fault? ==> exists j :: FirstFailure(p.branches, c, j) && r == p.branches[j].process(c)
  {
    var outputs: seq<Context> := [];
    var i := 0;
    while i < |p.branches|
      invariant i <= |p.branches|
      invariant forall j :: 0 <= j < i ==> p.branches[j].process(c).Done?
      invariant outputs == Outputs(p.branches[..i], c)
    {
      assert p.branches[..i + 1][..i] == p.branches[..i];
      match p.branches[i].process(c) {
        case Done(out) => outputs := outputs + [out];
        case Fault(err) =>
          assert FirstFailure(p.branches, c, i);
          return Fault(err);
      }
      i := i + 1;
    }
    assert p.branches[..i] == p.branches;
    var merged := MergeBranchOutputs(c, outputs);
    r := Done(merged);
  }

  /** Tolerating failures never fails; it merges what was returned and records every branch's outcome. */
  method ProcessTolerate(p: Parallel, c: Context) returns (r: Outcome)
    ensures var merged := Merge(c, Outputs(p.branches, c));
            r == Done(merged.(nodes := merged.nodes[p.identity := OutcomesValue(p.branches, c)]))
  {
    var outcomes: seq<BranchOutcome> := [];
    var outputs: seq<Context> := [];
    var i := 0;
    while i < |p.branches|
      invariant i <= |p.branches| && |outcomes| == i
      invariant forall j :: 0 <= j < i ==> outcomes[j] == OutcomeOf(p.branches[j], c)
      invariant outputs == Outputs(p.branches[..i], c)
    {
      var node := p.branches[i];
      assert p.branches[..i + 1][..i] == p.branches[..i];
      match node.process(c) {
        case Done(out) =>
          outcomes := outcomes + [BranchOutcome(node.name, true, None)];
          outputs := outputs + [out];
        case Fault(err) =>
          outcomes := outcomes + [BranchOutcome(node.name, false, Some(err.message))];
      }
      i := i + 1;
    }
    assert p.branches[..i] == p.branches;
    var merged := MergeBranchOutputs(c, outputs);
    var encoded := Arr(seq(|outcomes|, i requires 0 <= i < |outcomes| => EncodeOutcome(outcomes[i])));
    assert encoded == OutcomesValue(p.branches, c);
    r := Done(merged.(nodes := merged.nodes[p.identity := encoded]));
  }

  method Process(p: Parallel, c: Context) returns (r: Outcome)
    ensures r == Processed(p, c)
  {
    if p.branchFailure.FailRun? {
      r := ProcessFailRun(p, c);
      if r.Fault? {
        ghost var j :| FirstFailure(p.branches, c, j) && r == p.branches[j].process(c);
        FirstErrorIsFirst(p.branches, c, j);
      } else {
        NoError(p.branches, c);
      }
    } else {
      r := ProcessTolerate(p, c);
    }
  }

  function FirstError(branches: seq<Node>, c: Context): Option<NodeError> {
    if branches == [] then None
    else match branches[0].process(c)
         case Fault(e) => Some(e)
         case Done(_) => FirstError(branches[1..], c)
  }

  lemma {:induction false} FirstErrorIsFirst(branches: seq<Node>, c: Context, j: int)
    requires FirstFailure(branches, c, j)
    ensures Some(branches[j].process(c).error) == FirstError(branches, c)
  {
    if j > 0 {
      assert branches[1..][j - 1] == branches[j];
      FirstErrorIsFirst(branches[1..], c, j - 1);
    }
  }

  lemma {:induction false} NoError(branches: seq<Node>, c: Context)
    ensures FirstError(branches, c).None? <==> forall b :: b in branches ==> b.process(c).Done?
  {
    if branches != [] {
      NoError(branches[1..], c);
      assert branches == [branches[0]] + branches[1..];
    }
  }

  /** The parallel node as one node among others. */
  function Processed(p: Parallel, c: Context): Outcome {
    var merged := Merge(c, Outputs(p.branches, c));
    match p.branchFailure
    case FailRun => if FirstError(p.branches, c).Some? then Fault(FirstError(p.branches, c).value) else Done(merged)
    case Tolerate => Done(merged.(nodes := merged.nodes[p.identity := OutcomesValue(p.branches, c)]))
  }

  // ----- In terms of the branches -----

  /** The last branch, in declared order, that succeeds and returns an output under this name. */
  ghost predicate LastToReturn(branches: seq<Node>, c: Context, k: Id, j: int) {
    && 0 <= j < |branches| && branches[j].process(c).Done? && k in branches[j].process(c).ctx.nodes
    && forall i :: j < i < |branches| && branches[i].process(c).Done? ==> k !in branches[i].process(c).ctx.nodes
  }

  /** Likewise for run records. */
  ghost predicate LastToRecord(branches: seq<Node>, c: Context, k: Id, j: int) {
    && 0 <= j < |branches| && branches[j].process(c).Done? && k in branches[j].process(c).ctx.nodeRuns
    && forall i :: j < i < |branches| && branches[i].process(c).Done? ==> k !in branches[i].process(c).ctx.nodeRuns
  }

  lemma OverlaysSnoc(outputs: seq<Context>, out: Context)
    ensures Overlay(NodesOf(outputs + [out])) == Overlay(NodesOf(outputs)) + out.nodes
    ensures Overlay(RunsOf(outputs + [out])) == Overlay(RunsOf(outputs)) + out.nodeRuns
  {
    assert NodesOf(outputs + [out])[..|outputs|] == NodesOf(outputs);
    assert RunsOf(outputs + [out])[..|outputs|] == RunsOf(outputs);
  }

  lemma LastToReturnSnoc(init: seq<Node>, last: Node, c: Context, k: Id, j: int)
    ensures LastToReturn(init + [last], c, k, j) <==>
              if last.process(c).Done? && k in last.process(c).ctx.nodes then j == |init| else LastToReturn(init, c, k, j)
  {
    var longer := init + [last];
    assert longer[|init|] == last && forall i :: 0 <= i < |init| ==> longer[i] == init[i];
    if LastToReturn(longer, c, k, j) && j < |init| {
      assert longer[|init|].process(c).Done? ==> k !in longer[|init|].process(c).ctx.nodes;
      assert LastToReturn(init, c, k, j);
    }
    if LastToReturn(init, c, k, j) && !(last.process(c).Done? && k in last.process(c).ctx.nodes) {
      assert LastToReturn(longer, c, k, j);
    }
  }

  lemma LastToRecordSnoc(init: seq<Node>, last: Node, c: Context, k: Id, j: int)
    ensures LastToRecord(init + [last], c, k, j) <==>
              if last.process(c).Done? && k in last.process(c).ctx.nodeRuns then j == |init| else LastToRecord(init, c, k, j)
  {
    var longer := init + [last];
    assert longer[|init|] == last && forall i :: 0 <= i < |init| ==> longer[i] == init[i];
    if LastToRecord(longer, c, k, j) && j < |init| {
      assert longer[|init|].process(c).Done? ==> k !in longer[|init|].process(c).ctx.nodeRuns;
      assert LastToRecord(init, c, k, j);
    }
    if LastToRecord(init, c, k, j) && !(last.process(c).Done? && k in last.process(c).ctx.nodeRuns) {
      assert LastToRecord(longer, c, k, j);
    }
  }

  lemma {:induction false} LastToReturnDecides(branches: seq<Node>, c: Context, k: Id)
    ensures forall j :: LastToReturn(branches, c, k, j) ==>
              k in Overlay(NodesOf(Outputs(branches, c)))
              && Overlay(NodesOf(Outputs(branches, c)))[k] == branches[j].process(c).ctx.nodes[k]
    ensures k in Overlay(NodesOf(Outputs(branches, c))) ==> exists j :: LastToReturn(branches, c, k, j)
  {
    if branches != [] {
      var init, last := branches[..|branches| - 1], branches[|branches| - 1];
      assert branches == init + [last];
      LastToReturnDecides(init, c, k);
      forall j {
        LastToReturnSnoc(init, last, c, k, j);
      }
      if last.process(c).Done? {
        OverlaysSnoc(Outputs(init, c), last.process(c).ctx);
        if k in last.process(c).ctx.nodes {
          assert LastToReturn(branches, c, k, |init|);
        }
      } else {
        assert Outputs(branches, c) == Outputs(init, c);
      }
      if j :| LastToReturn(init, c, k, j) {
        assert LastToReturn(branches, c, k, j) <==> !(last.process(c).Done? && k in last.process(c).ctx.nodes);
      }
    }
  }

  lemma {:induction false} LastToRecordDecides(branches: seq<Node>, c: Context, k: Id)
    ensures forall j :: LastToRecord(branches, c, k, j) ==>
              k in Overlay(RunsOf(Outputs(branches, c)))
              && Overlay(RunsOf(Outputs(branches, c)))[k] == branches[j].process(c).ctx.nodeRuns[k]
    ensures k in Overlay(RunsOf(Outputs(branches, c))) ==> exists j :: LastToRecord(branches, c, k, j)
  {
    if branches != [] {
      var init, last := branches[..|branches| - 1], branches[|branches| - 1];
      assert branches == init + [last];
      LastToRecordDecides(init, c, k);
      forall j {
        LastToRecordSnoc(init, last, c, k, j);
      }
      if last.process(c).Done? {
        OverlaysSnoc(Outputs(init, c), last.process(c).ctx);
        if k in last.process(c).ctx.nodeRuns {
          assert LastToRecord(branches, c, k, |init|);
        }
      } else {
        assert Outputs(branches, c) == Outputs(init, c);
      }
      if j :| LastToRecord(init, c, k, j) {
        assert LastToRecord(branches, c, k, j) <==> !(last.process(c).Done? && k in last.process(c).ctx.nodeRuns);
      }
    }
  }

  /**
   * What a parallel node hands back, read off its branches: under every name but its own outcome entry the
   * output of the last branch that succeeds and returns one, or else the parent's; likewise run records; and
   * the parent's event and metadata.
   */
  lemma ParallelReturnsLastBranch(p: Parallel, c: Context, k: Id)
    requires Processed(p, c).Done? && (p.branchFailure.Tolerate? ==> k != p.identity)
    ensures var out := Processed(p, c).ctx;
            && out.event == c.event && out.metadata == c.metadata
            && (forall j :: LastToReturn(p.branches, c, k, j) ==> k in out.nodes && out.nodes[k] == p.branches[j].process(c).ctx.nodes[k])
            && ((forall j :: !LastToReturn(p.branches, c, k, j)) ==>
                  (k in out.nodes <==> k in c.nodes) && (k in c.nodes ==> out.nodes[k] == c.nodes[k]))
            && (forall j :: LastToRecord(p.branches, c, k, j) ==>
                  k in out.nodeRuns && out.nodeRuns[k] == p.branches[j].process(c).ctx.nodeRuns[k])
            && ((forall j :: !LastToRecord(p.branches, c, k, j)) ==>
                  (k in out.nodeRuns <==> k in c.nodeRuns) && (k in c.nodeRuns ==> out.nodeRuns[k] == c.nodeRuns[k]))
  {
    LastToReturnDecides(p.branches, c, k);
    LastToRecordDecides(p.branches, c, k);
  }

  /** Failing the run, it fails if and only if some branch does, with the first failing branch's whole error. */
  lemma FailRunPropagatesFirst(p: Parallel, c: Context)
    requires p.branchFailure.FailRun?
    ensures Processed(p, c).Done? <==> forall b :: b in p.branches ==> b.process(c).Done?
    ensures forall j :: FirstFailure(p.branches, c, j) ==> Processed(p, c) == p.branches[j].process(c)
  {
    NoError(p.branches, c);
    forall j | FirstFailure(p.branches, c, j)
      ensures Processed(p, c) == p.branches[j].process(c)
    {
      FirstErrorIsFirst(p.branches, c, j);
      assert p.branches[j] in p.branches;
    }
  }

  /** The outcome entry: one object a branch, in declared order, with its name, whether it succeeded, and its error only if it did not. */
  lemma OutcomesRecordEveryBranch(p: Parallel, c: Context)
    requires p.branchFailure.Tolerate?
    ensures Processed(p, c).Done? && p.identity in Processed(p, c).ctx.nodes
    ensures var entry := Processed(p, c).ctx.nodes[p.identity];
            && entry.Arr? && |entry.items| == |p.branches|
            && forall i :: 0 <= i < |p.branches| ==>
                 && entry.items[i].Obj?
                 && var fields := entry.items[i].fields;
                    match p.branches[i].process(c)
                    case Done(_) => fields == map["branch" := Str(p.branches[i].name), "ok" := Bool(true)]
                    case Fault(e) =>
                      fields == map["branch" := Str(p.branches[i].name), "ok" := Bool(false), "error" := Str(e.message)]
  {
  }

  /** The one entry by which the two modes differ. */
  predicate AddsOutcomes(tolerant: Outcome, strict: Outcome, identity: Id, entry: Value) {
    strict.Done? && tolerant == Done(strict.ctx.(nodes := strict.ctx.nodes[identity := entry]))
  }

  /**
   * Tolerating is failing the run on the branches that succeed, plus the outcome entry; so where nothing
   * fails the two modes differ in that entry only.
   */
  lemma {:induction false} TolerateAddsOutcomesOnly(p: Parallel, c: Context)
    ensures AddsOutcomes(Processed(p.(branchFailure := Tolerate), c),
                         Processed(Parallel(p.identity, Successful(p.branches, c), FailRun), c),
                         p.identity, OutcomesValue(p.branches, c))
    ensures (forall b :: b in p.branches ==> b.process(c).Done?) ==>
              AddsOutcomes(Processed(p.(branchFailure := Tolerate), c), Processed(p.(branchFailure := FailRun), c),
                           p.identity, OutcomesValue(p.branches, c))
  {
    SuccessfulSucceed(p.branches, c);
    NoError(Successful(p.branches, c), c);
    NoError(p.branches, c);
  }

  lemma {:induction false} OutputsKeepStatuses(branches: seq<Node>, c: Context)
    requires forall b :: b in branches ==> Framed(b)
    ensures forall o :: o in Outputs(branches, c) ==> SameStatuses(c.nodeRuns, o.nodeRuns)
  {
    if branches != [] {
      OutputsKeepStatuses(branches[..|branches| - 1], c);
      var last := branches[|branches| - 1];
      assert last in branches;
      if last.process(c).Done? {
        assert FramedStep(c, last.process(c).ctx);
      }
    }
  }

  function AsNode(p: Parallel): Node { Node(p.identity, (c: Context) => Processed(p, c), None) }

  /** A parallel node keeps its frame when every branch does, so everything proved of runs holds with it. */
  lemma ParallelIsFramed(p: Parallel)
    requires forall b :: b in p.branches ==> Framed(b)
    ensures Framed(AsNode(p))
  {
    forall c | Processed(p, c).Done?
      ensures FramedStep(c, Processed(p, c).ctx)
    {
      MergeKeepsStatuses(p.branches, c);
    }
  }

  lemma {:induction false} MergeKeepsStatuses(branches: seq<Node>, c: Context)
    requires forall b :: b in branches ==> Framed(b)
    ensures SameStatuses(c.nodeRuns, Merge(c, Outputs(branches, c)).nodeRuns)
  {
    OutputsKeepStatuses(branches, c);
    var layers := RunsOf(Outputs(branches, c));
    forall k | k in Overlay(layers)
      ensures k in c.nodeRuns && Overlay(layers)[k].status == c.nodeRuns[k].status
    {
      OverlayTakesLast(layers, k);
      var j :| LastHolder(layers, k, j);
      assert SameStatuses(c.nodeRuns, Outputs(branches, c)[j].nodeRuns);
    }
  }
}
