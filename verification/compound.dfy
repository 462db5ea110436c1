/**
 * The UNION / UNION ALL combinator: folds a left-to-right chain of
 * compiled SELECT cores into Concat (UNION ALL) and Union (UNION) nodes.
 * Runs of one operator share one flat node; an operator change closes the
 * run, and the closed node becomes the first input of the next run.
 */
module Compound {
  import opened Results
  import opened Streams

  /** A core after the first, with the operator written before it. */
  datatype Branch = Branch(op: SetOp, stmt: StreamStmt)

  /** The fold state: the inputs of the open run and the operator it is joined by. */
  datatype Run = Run(members: seq<Stream>, pending: Option<SetOp>)

  function BranchStreams(bs: seq<Branch>): (r: seq<Stream>)
    ensures |r| == |bs|
    ensures forall i :: 0 <= i < |bs| ==> r[i] == bs[i].stmt.stream
  {
    seq(|bs|, i requires 0 <= i < |bs| => bs[i].stmt.stream)
  }

  /** Reads one more operator and branch: a different operator closes the open run first. */
  function Step(r: Run, op: SetOp, b: Stream): Run {
    var members := if r.pending.Some? && r.pending.value != op then [Node(r.pending.value, r.members)] else r.members;
    Run(members + [b], Some(op))
  }

  /** The fold over the branches, left to right. */
  function Fold(first: Stream, rest: seq<Branch>): (r: Run)
    ensures |r.members| >= 1
    ensures r.pending.None? <==> |rest| == 0
    ensures r.pending.Some? ==> |r.members| >= 2 && r.pending.value == rest[|rest| - 1].op
    decreases |rest|
  {
    if |rest| == 0 then Run([first], None)
    else Step(Fold(first, rest[..|rest| - 1]), rest[|rest| - 1].op, rest[|rest| - 1].stmt.stream)
  }

  /** Closes the last run: a lone core stays as it is. */
  function Close(r: Run): Stream
    requires |r.members| >= 1
    requires |r.members| != 1 ==> r.pending.Some?
  {
    if |r.members| == 1 then r.members[0] else Node(r.pending.value, r.members)
  }

  /** The whole compound statement; it is read-only iff every core is. */
  function Combine(first: StreamStmt, rest: seq<Branch>): (r: StreamStmt)
    ensures r.readOnly <==> first.readOnly && forall i :: 0 <= i < |rest| ==> rest[i].stmt.readOnly
    ensures |rest| == 0 ==> r == first
    ensures |rest| > 0 ==> |r.stream| == 1 && (r.stream[0].Union? || r.stream[0].Concat?)
  {
    StreamStmt(Close(Fold(first.stream, rest)), first.readOnly && AllReadOnly(rest))
  }

  predicate AllReadOnly(rest: seq<Branch>) {
    forall i :: 0 <= i < |rest| ==> rest[i].stmt.readOnly
  }

  /** Where the last run of equal operators starts. */
  function LastRunStart(rest: seq<Branch>): (k: nat)
    requires |rest| > 0
    ensures k < |rest|
    ensures forall j :: k <= j < |rest| ==> rest[j].op == rest[|rest| - 1].op
    ensures k > 0 ==> rest[k - 1].op != rest[|rest| - 1].op
    decreases |rest|
  {
    if |rest| == 1 then 0
    else if rest[|rest| - 2].op != rest[|rest| - 1].op then |rest| - 1
    else LastRunStart(rest[..|rest| - 1])
  }

  /**
   * Reference grouping, read from the right: the last run of equal
   * operators forms one node whose first input is the grouping of
   * everything before the run.
   */
  function Nest(first: Stream, rest: seq<Branch>): Stream
    decreases |rest|
  {
    if |rest| == 0 then first
    else
      var k := LastRunStart(rest);
      Node(rest[|rest| - 1].op, [Nest(first, rest[..k])] + BranchStreams(rest[k..]))
  }

  lemma BranchStreamsSnoc(bs: seq<Branch>, b: Branch)
    ensures BranchStreams(bs + [b]) == BranchStreams(bs) + [b.stmt.stream]
  {
  }

  /** Where the last run starts after one more branch: unchanged when the operator repeats, at the new branch otherwise. */
  lemma LastRunStartSnoc(pre: seq<Branch>, b: Branch)
    requires |pre| > 0
    ensures pre[|pre| - 1].op == b.op ==> LastRunStart(pre + [b]) == LastRunStart(pre)
    ensures pre[|pre| - 1].op != b.op ==> LastRunStart(pre + [b]) == |pre|
  {
    var rest := pre + [b];
    assert rest[..|rest| - 1] == pre;
    assert rest[|rest| - 2] == pre[|pre| - 1];
  }

  /** One fold step from the invariant state of `pre` gives the invariant state of `pre + [b]`. */
  lemma StepKeepsShape(first: Stream, pre: seq<Branch>, b: Branch)
    requires |pre| > 0
    requires Fold(first, pre) ==
      Run([Nest(first, pre[..LastRunStart(pre)])] + BranchStreams(pre[LastRunStart(pre)..]), Some(pre[|pre| - 1].op))
    ensures Step(Fold(first, pre), b.op, b.stmt.stream) ==
      Run([Nest(first, (pre + [b])[..LastRunStart(pre + [b])])] + BranchStreams((pre + [b])[LastRunStart(pre + [b])..]),
          Some(b.op))
  {
    LastRunStartSnoc(pre, b);
    if pre[|pre| - 1].op == b.op {
      StepExtends(first, pre, b);
    } else {
      StepCloses(first, pre, b);
    }
  }

  /** The step for a repeated operator: the open run gains the new core. */
  lemma StepExtends(first: Stream, pre: seq<Branch>, b: Branch)
    requires |pre| > 0 && pre[|pre| - 1].op == b.op
    requires LastRunStart(pre + [b]) == LastRunStart(pre)
    ensures var k := LastRunStart(pre);
      Step(Run([Nest(first, pre[..k])] + BranchStreams(pre[k..]), Some(pre[|pre| - 1].op)), b.op, b.stmt.stream) ==
      Run([Nest(first, (pre + [b])[..k])] + BranchStreams((pre + [b])[k..]), Some(b.op))
  {
    var k := LastRunStart(pre);
    var rest := pre + [b];
    var open := [Nest(first, pre[..k])] + BranchStreams(pre[k..]);
    assert rest[..k] == pre[..k];
    assert rest[k..] == pre[k..] + [b];
    BranchStreamsSnoc(pre[k..], b);
    assert open + [b.stmt.stream] == [Nest(first, pre[..k])] + (BranchStreams(pre[k..]) + [b.stmt.stream]);
  }

  /** The step for a changed operator: the open run closes into the first input of a new one. */
  lemma StepCloses(first: Stream, pre: seq<Branch>, b: Branch)
    requires |pre| > 0 && pre[|pre| - 1].op != b.op
    requires LastRunStart(pre + [b]) == |pre|
    ensures var k := LastRunStart(pre);
      Step(Run([Nest(first, pre[..k])] + BranchStreams(pre[k..]), Some(pre[|pre| - 1].op)), b.op, b.stmt.stream) ==
      Run([Nest(first, (pre + [b])[..|pre|])] + BranchStreams((pre + [b])[|pre|..]), Some(b.op))
  {
    var k := LastRunStart(pre);
    var rest := pre + [b];
    var open := [Nest(first, pre[..k])] + BranchStreams(pre[k..]);
    assert rest[..|pre|] == pre;
    assert Nest(first, pre) == Node(pre[|pre| - 1].op, open);
    assert rest[|pre|..] == [b];
    BranchStreamsSnoc([], b);
  }

  /** Folding one more branch is one more step. */
  lemma FoldSnoc(first: Stream, pre: seq<Branch>, b: Branch)
    ensures Fold(first, pre + [b]) == Step(Fold(first, pre), b.op, b.stmt.stream)
  {
    var rest := pre + [b];
    assert rest[..|rest| - 1] == pre;
    assert rest[|rest| - 1] == b;
  }

  /** A single branch opens the first run: the first core, then the branch. */
  lemma FoldSingle(first: Stream, b: Branch)
    ensures Fold(first, [b]) == Run([Nest(first, [b][..LastRunStart([b])])] + BranchStreams([b][LastRunStart([b])..]), Some(b.op))
  {
    assert [] + [b] == [b];
    FoldSnoc(first, [], b);
    assert LastRunStart([b]) == 0;
    assert [b][..0] == [];
    assert Nest(first, []) == first;
    assert [b][0..] == [b];
    BranchStreamsSnoc([], b);
  }

  /** The fold state after a non-empty chain: the nested prefix, then the open run. */
  lemma {:induction false} FoldInvariant(first: Stream, rest: seq<Branch>)
    requires |rest| > 0
    ensures Fold(first, rest) ==
      Run([Nest(first, rest[..LastRunStart(rest)])] + BranchStreams(rest[LastRunStart(rest)..]),
          Some(rest[|rest| - 1].op))
    decreases |rest|
  {
    var n := |rest| - 1;
    var pre := rest[..n];
    var b := rest[n];
    assert rest == pre + [b];
    if n == 0 {
      FoldSingle(first, b);
    } else {
      FoldInvariant(first, pre);
      FoldSnoc(first, pre, b);
      StepKeepsShape(first, pre, b);
    }
  }

  /** The left fold builds exactly the reference grouping. */
  lemma CombineIsNest(first: StreamStmt, rest: seq<Branch>)
    ensures Combine(first, rest).stream == Nest(first.stream, rest)
  {
    if |rest| > 0 {
      FoldInvariant(first.stream, rest);
    }
  }

  /** A chain with a single operator is one flat node over every core, in order. */
  lemma SameOperatorFlattens(first: StreamStmt, rest: seq<Branch>, op: SetOp)
    requires |rest| > 0
    requires forall i :: 0 <= i < |rest| ==> rest[i].op == op
    ensures Combine(first, rest).stream == Node(op, [first.stream] + BranchStreams(rest))
  {
    CombineIsNest(first, rest);
    assert LastRunStart(rest) == 0;
    assert rest[0..] == rest;
  }

  /** A change of operator closes the chain so far; it becomes the first input of the new node. */
  lemma SwitchClosesRun(first: StreamStmt, pre: seq<Branch>, b: Branch)
    requires |pre| > 0 && pre[|pre| - 1].op != b.op
    ensures Combine(first, pre + [b]).stream == Node(b.op, [Combine(first, pre).stream, b.stmt.stream])
  {
    var rest := pre + [b];
    CombineIsNest(first, rest);
    CombineIsNest(first, pre);
    assert rest[..|rest| - 1] == pre;
    assert LastRunStart(rest) == |pre|;
    assert rest[|pre|..] == [b];
    BranchStreamsSnoc([], b);
    assert Nest(first.stream, rest) == Node(b.op, [Nest(first.stream, pre)] + [b.stmt.stream]);
    assert [Nest(first.stream, pre)] + [b.stmt.stream] == [Combine(first, pre).stream, b.stmt.stream];
  }

  /** Repeating the operator extends the open node by one input. */
  lemma SameOperatorExtendsRun(first: StreamStmt, pre: seq<Branch>, b: Branch)
    requires |pre| > 0 && pre[|pre| - 1].op == b.op
    ensures Combine(first, pre + [b]).stream ==
            Node(b.op, Combine(first, pre).stream[0].inputs + [b.stmt.stream])
  {
    var rest := pre + [b];
    CombineIsNest(first, rest);
    CombineIsNest(first, pre);
    var k := LastRunStart(pre);
    assert rest[..|rest| - 1] == pre;
    assert LastRunStart(rest) == k;
    assert rest[..k] == pre[..k];
    assert rest[k..] == pre[k..] + [b];
    BranchStreamsSnoc(pre[k..], b);
  }
}
