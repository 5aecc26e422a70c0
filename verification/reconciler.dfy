/**
 * The per-event handler: gate the pod, remove this initializer from its queue, and
 * decide between doing nothing, committing the dequeue alone, committing a rewrite,
 * or failing. The annotation decoder and the node registry are supplied as functions;
 * what would be sent to the object gateway is returned as the outcome.
 */
module Reconciler {
  import opened Wrappers
  import opened Pods
  import opened Gate
  import opened Rewriter

  datatype Error =
    | DecodeError(raw: string)
    | NodeLookupError(nodeName: string)
    | CommitError(reason: string)

  /**
   * The decision for one pod event.
   * - NoOp: this initializer is not at the head of the queue; nothing is sent.
   * - Passthrough(pod): a full update with the initializer dequeued and no image change.
   * - Rewritten(before, after): a patch computed between the two snapshots.
   * - Failed(error): nothing is sent.
   */
  datatype Outcome =
    | NoOp
    | Passthrough(pod: Pod)
    | Rewritten(before: Pod, after: Pod)
    | Failed(error: Error)
  {
    /** The outcome sends something to the object gateway. */
    predicate Commits() {
      Passthrough? || Rewritten?
    }
  }

  /** The handler acts on this pod. */
  predicate Gated(pod: Pod, cfg: Config) {
    IsHead(pod.initializers, cfg.initializerName)
  }

  /** The copy of the pod with this initializer removed from the head of its queue. */
  function Initialized(pod: Pod, cfg: Config): (p: Pod)
    requires Gated(pod, cfg)
    ensures SameExceptQueue(pod, p)
    ensures DequeuedFrom(p.initializers, pod.initializers)
  {
    pod.(initializers := Dequeue(pod.initializers.value))
  }

  /** Both container sequences of `pod` rewritten for `arch` with `table`. */
  function RewritePod(pod: Pod, arch: Option<string>, table: Table): (p: Pod)
    ensures SameExceptImagesAndQueue(pod, p)
    ensures p.initializers == pod.initializers
    ensures p.containers == Rewrite(pod.containers, arch, table)
    ensures p.initContainers == Rewrite(pod.initContainers, arch, table)
  {
    RewriteKeepsNames(pod.containers, arch, table);
    RewriteKeepsNames(pod.initContainers, arch, table);
    pod.(containers := Rewrite(pod.containers, arch, table),
         initContainers := Rewrite(pod.initContainers, arch, table))
  }

  /**
   * Handles one pod event. `decode` parses the annotation's raw value (None when it is
   * malformed); `lookup` reads a node by name (None when the read fails).
   * A present annotation is decoded and the node read whether or not the annotation is
   * required; the flag only decides what happens when the annotation is missing.
   */
  function Reconcile(pod: Pod, cfg: Config, decode: string -> Option<Table>, lookup: string -> Option<Node>): (r: Outcome)
    ensures r.NoOp? <==> !Gated(pod, cfg)
    ensures r.Passthrough? ==> SameExceptQueue(pod, r.pod) && DequeuedFrom(r.pod.initializers, pod.initializers)
    ensures r.Rewritten? ==>
      && r.before == pod
      && SameExceptImagesAndQueue(pod, r.after)
      && DequeuedFrom(r.after.initializers, pod.initializers)
    ensures r.Failed? ==> Gated(pod, cfg) && cfg.annotationKey in pod.annotations
  {
    if !Gated(pod, cfg) then NoOp
    else
      var initialized := Initialized(pod, cfg);
      if cfg.annotationKey !in pod.annotations then
        if cfg.requireAnnotation then Passthrough(initialized)
        // Optional and missing: no node is read, the architecture is unknown and the table empty.
        else Rewritten(pod, RewritePod(initialized, None, map[]))
      else
        var raw := pod.annotations[cfg.annotationKey];
        match decode(raw)
        case None => Failed(DecodeError(raw))
        case Some(table) =>
          match lookup(pod.nodeName)
          case None => Failed(NodeLookupError(pod.nodeName))
          case Some(node) =>
            if node.architecture == BaselineArchitecture then Passthrough(initialized)
            else Rewritten(pod, RewritePod(initialized, Some(node.architecture), table))
  }

  /**
   * The value the handler returns once the outcome has been sent: a failed decision
   * returns its error, a rejected commit returns a commit error, anything else succeeds.
   */
  function Respond(o: Outcome, commitRejection: Option<string>): (err: Option<Error>)
    ensures err.None? <==> o.NoOp? || (o.Commits() && commitRejection.None?)
    ensures o.Failed? ==> err == Some(o.error)
    ensures o.Commits() && commitRejection.Some? ==> err == Some(CommitError(commitRejection.value))
  {
    match o
    case NoOp => None
    case Failed(e) => Some(e)
    case _ => if commitRejection.Some? then Some(CommitError(commitRejection.value)) else None
  }

  /** Not at the head (no block, an empty queue, or another name first): nothing happens. */
  lemma NoOpUnlessHead(pod: Pod, cfg: Config, decode: string -> Option<Table>, lookup: string -> Option<Node>)
    requires pod.initializers.None? || |pod.initializers.value| == 0 || pod.initializers.value[0] != cfg.initializerName
    ensures Reconcile(pod, cfg, decode, lookup) == NoOp
    ensures Respond(Reconcile(pod, cfg, decode, lookup), None) == None
  {
  }

  /**
   * The dequeue-only update happens exactly when the annotation is required and missing,
   * or present and leading to a baseline-architecture node; it changes no image.
   */
  lemma PassthroughExactly(pod: Pod, cfg: Config, decode: string -> Option<Table>, lookup: string -> Option<Node>)
    ensures Reconcile(pod, cfg, decode, lookup).Passthrough? <==>
      && Gated(pod, cfg)
      && (|| (cfg.requireAnnotation && cfg.annotationKey !in pod.annotations)
          || (&& cfg.annotationKey in pod.annotations
              && decode(pod.annotations[cfg.annotationKey]).Some?
              && lookup(pod.nodeName).Some?
              && lookup(pod.nodeName).value.architecture == BaselineArchitecture))
    ensures Reconcile(pod, cfg, decode, lookup).Passthrough? ==>
      && Reconcile(pod, cfg, decode, lookup).pod.containers == pod.containers
      && Reconcile(pod, cfg, decode, lookup).pod.initContainers == pod.initContainers
  {
  }

  /**
   * A decode failure fails the event with a decode error before any node is read: the
   * registry's answer makes no difference.
   */
  lemma DecodeFailureExactly(pod: Pod, cfg: Config, decode: string -> Option<Table>, lookup: string -> Option<Node>, lookup2: string -> Option<Node>)
    ensures Reconcile(pod, cfg, decode, lookup) == Failed(DecodeError(pod.annotations[cfg.annotationKey]))
      <== Gated(pod, cfg) && cfg.annotationKey in pod.annotations
          && decode(pod.annotations[cfg.annotationKey]).None?
    ensures Reconcile(pod, cfg, decode, lookup).Failed? && Reconcile(pod, cfg, decode, lookup).error.DecodeError? ==>
      decode(pod.annotations[cfg.annotationKey]).None?
    ensures cfg.annotationKey in pod.annotations && decode(pod.annotations[cfg.annotationKey]).None? ==>
      Reconcile(pod, cfg, decode, lookup) == Reconcile(pod, cfg, decode, lookup2)
  {
  }

  /** A node lookup failure, after a successful decode, fails the event and commits nothing. */
  lemma LookupFailureExactly(pod: Pod, cfg: Config, decode: string -> Option<Table>, lookup: string -> Option<Node>)
    ensures Reconcile(pod, cfg, decode, lookup) == Failed(NodeLookupError(pod.nodeName)) <==>
      && Gated(pod, cfg) && cfg.annotationKey in pod.annotations
      && decode(pod.annotations[cfg.annotationKey]).Some?
      && lookup(pod.nodeName).None?
  {
  }

  /**
   * With the annotation present and decoded to `table`, and a non-baseline node, both
   * container sequences are rewritten from the table and committed as a patch against
   * the pod as received, whether or not the annotation is required.
   */
  lemma RewriteFromTable(pod: Pod, cfg: Config, decode: string -> Option<Table>, lookup: string -> Option<Node>, table: Table, node: Node)
    requires Gated(pod, cfg) && cfg.annotationKey in pod.annotations
    requires decode(pod.annotations[cfg.annotationKey]) == Some(table)
    requires lookup(pod.nodeName) == Some(node) && node.architecture != BaselineArchitecture
    ensures Reconcile(pod, cfg, decode, lookup).Rewritten?
    ensures Reconcile(pod, cfg, decode, lookup).before == pod
    ensures Reconcile(pod, cfg, decode, lookup).after.containers == Rewrite(pod.containers, Some(node.architecture), table)
    ensures Reconcile(pod, cfg, decode, lookup).after.initContainers == Rewrite(pod.initContainers, Some(node.architecture), table)
  {
  }

  /**
   * With the annotation optional and missing, no node is read: every image is kept, and
   * only the dequeue is committed as a patch.
   */
  lemma OptionalMissingKeepsImages(pod: Pod, cfg: Config, decode: string -> Option<Table>, lookup: string -> Option<Node>)
    requires Gated(pod, cfg) && !cfg.requireAnnotation && cfg.annotationKey !in pod.annotations
    ensures Reconcile(pod, cfg, decode, lookup).Rewritten?
    ensures Reconcile(pod, cfg, decode, lookup).before == pod
    ensures SameExceptQueue(pod, Reconcile(pod, cfg, decode, lookup).after)
  {
    var initialized := Initialized(pod, cfg);
    RewriteFallback(initialized.containers, None, map[]);
    RewriteFallback(initialized.initContainers, None, map[]);
  }

  /** Once the annotation is present, whether it is required makes no difference. */
  lemma FlagMattersOnlyWhenMissing(pod: Pod, cfg: Config, decode: string -> Option<Table>, lookup: string -> Option<Node>)
    requires cfg.annotationKey in pod.annotations
    ensures Reconcile(pod, cfg, decode, lookup)
      == Reconcile(pod, cfg.(requireAnnotation := !cfg.requireAnnotation), decode, lookup)
  {
  }

  /** Reconciling the committed pod again is a no-op when the next initializer is someone else. */
  lemma CommittedPodIsNotReprocessed(pod: Pod, cfg: Config, decode: string -> Option<Table>, lookup: string -> Option<Node>)
    requires Gated(pod, cfg)
    requires cfg.initializerName !in pod.initializers.value[1..]
    ensures Reconcile(pod, cfg, decode, lookup).Passthrough? ==>
      Reconcile(Reconcile(pod, cfg, decode, lookup).pod, cfg, decode, lookup) == NoOp
    ensures Reconcile(pod, cfg, decode, lookup).Rewritten? ==>
      Reconcile(Reconcile(pod, cfg, decode, lookup).after, cfg, decode, lookup) == NoOp
  {
    var q := pod.initializers.value;
    var after := Dequeue(q);
    if after.Some? {
      assert after.value == q[1..] by {
        assert [q[0]] + after.value == q;
        assert q[1..] == ([q[0]] + after.value)[1..];
      }
      assert after.value[0] in q[1..];
    }
  }
}
