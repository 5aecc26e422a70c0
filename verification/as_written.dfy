/**
 * The handler's control flow as the Go code has it, including its three defects:
 * the queue head is read without a length check, the node and table live in
 * process-wide variables that are never set when the annotation is optional, and
 * the dequeue writes into the array shared with the caller's pod. The corrected
 * behaviour is `Reconciler.Reconcile`; the lemmas here relate the two.
 */
module AsWritten {
  import opened Wrappers
  import opened Pods
  import opened Gate
  import opened Rewriter
  import opened Reconciler

  /** The process-wide node and annotation table; both start as nil. */
  datatype Globals = Globals(node: Option<Node>, annotationData: Table)

  const ProcessStart: Globals := Globals(None, map[])

  datatype PanicKind = IndexOutOfRange | NilDereference

  /**
   * The result of one call: a runtime panic, or the decision together with the
   * caller's pod object and the process-wide variables as the call left them.
   */
  datatype Step =
    | Panicked(kind: PanicKind)
    | Returned(outcome: Outcome, callerPod: Pod, globals: Globals)

  /**
   * Go's `append(dst[:0], src...)` when the capacity suffices: `src` is copied over the
   * backing array of `buf` starting at `at`, and every other element stays.
   */
  function CopyInto<T>(buf: seq<T>, at: nat, src: seq<T>): (r: seq<T>)
    requires at + |src| <= |buf|
    ensures |r| == |buf|
    ensures forall i :: at <= i < at + |src| ==> r[i] == src[i - at]
    ensures forall i :: 0 <= i < |buf| && !(at <= i < at + |src|) ==> r[i] == buf[i]
    decreases |src|
  {
    if src == [] then buf else CopyInto(buf[at := src[0]], at + 1, src[1..])
  }

  /** The caller's queue after `append(pending[:0], pending[1:]...)`: shifted left, last entry doubled. */
  lemma AliasedQueueShape(q: seq<string>)
    requires |q| > 0
    ensures CopyInto(q, 0, q[1..]) == q[1..] + [q[|q| - 1]]
  {
  }

  /** The rewrite loops, reading the node through a possibly nil pointer. */
  function RewriteLoops(before: Pod, initialized: Pod, g: Globals): (s: Step)
    ensures s.Panicked? <==> g.node.None? && (|initialized.containers| > 0 || |initialized.initContainers| > 0)
  {
    if g.node.None? && (|initialized.containers| > 0 || |initialized.initContainers| > 0) then
      Panicked(NilDereference)
    else
      var arch := if g.node.Some? then Some(g.node.value.architecture) else None;
      Returned(Rewritten(before, RewritePod(initialized, arch, g.annotationData)), before, g)
  }

  /** One call of the Go handler, with its process-wide variables passed in and out. */
  function ReconcileAsWritten(pod: Pod, cfg: Config, decode: string -> Option<Table>, lookup: string -> Option<Node>, g: Globals): (s: Step)
    ensures s.Panicked? && s.kind == IndexOutOfRange <==> pod.initializers == Some([])
    ensures s.Returned? && !cfg.requireAnnotation ==> s.globals == g
  {
    if pod.initializers.None? then Returned(NoOp, pod, g)
    else
      var q := pod.initializers.value;
      if |q| == 0 then Panicked(IndexOutOfRange)
      else if cfg.initializerName != q[0] then Returned(NoOp, pod, g)
      else
        var initialized := pod.(initializers := if |q| == 1 then None else Some(q[1..]));
        var caller := if |q| == 1 then pod else pod.(initializers := Some(CopyInto(q, 0, q[1..])));
        if !cfg.requireAnnotation then RewriteLoops(caller, initialized, g)
        else if cfg.annotationKey !in pod.annotations then Returned(Passthrough(initialized), caller, g)
        else
          var raw := pod.annotations[cfg.annotationKey];
          match decode(raw)
          case None => Returned(Failed(DecodeError(raw)), caller, g.(annotationData := map[]))
          case Some(table) =>
            var g1 := g.(annotationData := table);
            match lookup(pod.nodeName)
            case None => Returned(Failed(NodeLookupError(pod.nodeName)), caller, g1.(node := None))
            case Some(node) =>
              var g2 := g1.(node := Some(node));
              if node.architecture == BaselineArchitecture then Returned(Passthrough(initialized), caller, g2)
              else RewriteLoops(caller, initialized, g2)
  }

  /**
   * The events a process handles in turn, one handler call after another as the informer's
   * add callback delivers them (initializer/main.go:84-96), threading the process-wide
   * variables; a panic ends the process.
   */
  function Run(pods: seq<Pod>, cfg: Config, decode: string -> Option<Table>, lookup: string -> Option<Node>, g: Globals): Option<Globals>
    decreases |pods|
  {
    if pods == [] then Some(g)
    else match ReconcileAsWritten(pods[0], cfg, decode, lookup, g)
      case Panicked(_) => None
      case Returned(_, _, g1) => Run(pods[1..], cfg, decode, lookup, g1)
  }

  /** With the annotation optional, no event ever assigns the node or the table. */
  lemma {:induction false} OptionalAnnotationNeverSetsGlobals(pods: seq<Pod>, cfg: Config, decode: string -> Option<Table>, lookup: string -> Option<Node>, g: Globals)
    requires !cfg.requireAnnotation
    ensures Run(pods, cfg, decode, lookup, g).Some? ==> Run(pods, cfg, decode, lookup, g) == Some(g)
    decreases |pods|
  {
    if pods != [] {
      OptionalAnnotationNeverSetsGlobals(pods[1..], cfg, decode, lookup, g);
    }
  }

  /** Finding: a present initializers block with an empty queue panics instead of being ignored. */
  lemma EmptyQueuePanics(pod: Pod, cfg: Config, decode: string -> Option<Table>, lookup: string -> Option<Node>, g: Globals)
    requires pod.initializers == Some([])
    ensures ReconcileAsWritten(pod, cfg, decode, lookup, g) == Panicked(IndexOutOfRange)
    ensures Reconcile(pod, cfg, decode, lookup) == NoOp
  {
  }

  /**
   * Finding: with the annotation optional, the node variable is still nil when the
   * rewrite loop reads it, so any pod with a container panics. The corrected handler
   * commits the dequeue with every image kept when the annotation is missing, and
   * otherwise behaves as on the required path.
   */
  lemma OptionalAnnotationPanics(pod: Pod, cfg: Config, decode: string -> Option<Table>, lookup: string -> Option<Node>)
    requires Gated(pod, cfg) && !cfg.requireAnnotation
    requires |pod.containers| > 0 || |pod.initContainers| > 0
    ensures ReconcileAsWritten(pod, cfg, decode, lookup, ProcessStart) == Panicked(NilDereference)
    ensures cfg.annotationKey !in pod.annotations ==>
      && Reconcile(pod, cfg, decode, lookup).Rewritten?
      && SameExceptQueue(pod, Reconcile(pod, cfg, decode, lookup).after)
    ensures cfg.annotationKey in pod.annotations ==>
      Reconcile(pod, cfg, decode, lookup) == Reconcile(pod, cfg.(requireAnnotation := true), decode, lookup)
  {
    if cfg.annotationKey !in pod.annotations {
      OptionalMissingKeepsImages(pod, cfg, decode, lookup);
    } else {
      FlagMattersOnlyWhenMissing(pod, cfg, decode, lookup);
    }
  }

  /**
   * Finding: dequeuing from a queue of two or more overwrites the caller's queue. When
   * this initializer's name occurs only at the head, neither the "before" snapshot the
   * patch is computed from nor the "after" snapshot contains it, so the difference
   * between them does not record its removal.
   */
  lemma AliasingHidesDequeue(pod: Pod, cfg: Config, decode: string -> Option<Table>, lookup: string -> Option<Node>, g: Globals)
    requires Gated(pod, cfg) && |pod.initializers.value| >= 2
    requires cfg.initializerName !in pod.initializers.value[1..]
    requires ReconcileAsWritten(pod, cfg, decode, lookup, g).Returned?
    ensures var s := ReconcileAsWritten(pod, cfg, decode, lookup, g);
      && s.callerPod != pod
      && (s.outcome.Rewritten? ==>
            && cfg.initializerName !in PendingOf(s.outcome.before.initializers)
            && cfg.initializerName !in PendingOf(s.outcome.after.initializers))
  {
    var q := pod.initializers.value;
    AliasedQueueShape(q);
    var aliased := CopyInto(q, 0, q[1..]);
    assert aliased[0] == q[1];
    assert aliased[0] != q[0] by {
      assert q[1] == q[1..][0];
    }
    assert forall i :: 0 <= i < |aliased| ==> aliased[i] in q[1..] by {
      forall i | 0 <= i < |aliased|
        ensures aliased[i] in q[1..]
      {
        if i < |q| - 1 {
          assert aliased[i] == q[1..][i];
        } else {
          assert aliased[i] == q[1..][|q| - 2];
        }
      }
    }
  }

  /** The smallest instance: queue [me, other] leaves the caller's pod with [other, other]. */
  lemma AliasingExample(pod: Pod, cfg: Config, decode: string -> Option<Table>, lookup: string -> Option<Node>)
    requires cfg.initializerName == DefaultInitializerName && !cfg.requireAnnotation
    requires pod.initializers == Some([DefaultInitializerName, "other"])
    requires pod.containers == [] && pod.initContainers == [] && cfg.annotationKey !in pod.annotations
    ensures ReconcileAsWritten(pod, cfg, decode, lookup, ProcessStart)
      == Returned(Rewritten(pod.(initializers := Some(["other", "other"])), pod.(initializers := Some(["other"]))),
                  pod.(initializers := Some(["other", "other"])), ProcessStart)
    ensures Reconcile(pod, cfg, decode, lookup)
      == Rewritten(pod, pod.(initializers := Some(["other"])))
  {
    var q := pod.initializers.value;
    AliasedQueueShape(q);
    assert q[1..] + [q[|q| - 1]] == ["other", "other"];
    assert q[1..] == ["other"];
  }

  /**
   * With the annotation required, whenever the Go handler returns, its decision agrees
   * with the corrected one, except that a patch is computed against the caller's pod as
   * the call left it.
   */
  lemma AsWrittenAgrees(pod: Pod, cfg: Config, decode: string -> Option<Table>, lookup: string -> Option<Node>, g: Globals)
    requires cfg.requireAnnotation
    requires ReconcileAsWritten(pod, cfg, decode, lookup, g).Returned?
    ensures var s := ReconcileAsWritten(pod, cfg, decode, lookup, g);
      var r := Reconcile(pod, cfg, decode, lookup);
      && SameExceptQueue(pod, s.callerPod)
      && (s.outcome.Rewritten? ==> r.Rewritten? && s.outcome.after == r.after && s.outcome.before == s.callerPod)
      && (!s.outcome.Rewritten? ==> s.outcome == r)
  {
  }

  /** The pod a committing outcome sends to the object gateway. */
  function Committed(o: Outcome): Pod
    requires o.Commits()
  {
    if o.Passthrough? then o.pod else o.after
  }

  /**
   * With the annotation optional and the node variable nil, the Go handler returns only
   * for a pod without containers. It then commits the dequeue alone, which is what the
   * corrected handler commits too, if it commits at all.
   */
  lemma AsWrittenAgreesOptional(pod: Pod, cfg: Config, decode: string -> Option<Table>, lookup: string -> Option<Node>, g: Globals)
    requires Gated(pod, cfg) && !cfg.requireAnnotation && g.node.None?
    requires ReconcileAsWritten(pod, cfg, decode, lookup, g).Returned?
    ensures pod.containers == [] && pod.initContainers == []
    ensures var s := ReconcileAsWritten(pod, cfg, decode, lookup, g);
      && s.outcome.Rewritten?
      && s.outcome.after == Initialized(pod, cfg)
      && SameExceptQueue(pod, s.callerPod)
    ensures Reconcile(pod, cfg, decode, lookup).Commits() ==>
      Committed(Reconcile(pod, cfg, decode, lookup)) == Initialized(pod, cfg)
  {
  }
}
