# Multi-architecture pod initializer — Dafny model

This project models the per-pod handler (`initializePod`) of a Kubernetes initializer.
The initializer intercepts newly created pods that list it at the head of their
pending-initializer queue. It removes itself from that queue. When the pod's
annotation maps the node's architecture and a container's name to an image, it
rewrites that container's image.

Modules:
- `Wrappers`: `Option`.
- `Pods`: containers, pods, nodes, the decoded annotation table, the configuration and the default constants.
- `Gate`: the head-of-queue test and the dequeue, with an absent field replacing an emptied queue.
- `Rewriter`: the image rewrite, applied separately to containers and init containers.
- `Reconciler`: the corrected handler, which returns a decision (`NoOp | Passthrough | Rewritten | Failed`).
- `AsWritten`: the handler as the Go code behaves, with its process-wide variables and the shared-array dequeue, plus lemmas relating it to `Reconciler`.
- `Scenarios`: the outcomes the repository's tests expect, on concrete pods.

External collaborators are parameters:
- The annotation decoder (`json.Unmarshal`) is a function `string -> Option<Table>`. `None` means the value is malformed.
- The node registry read is a function `string -> Option<Node>`. `None` means the read failed.
- The update and patch calls are not performed. The handler returns what it would send: `Passthrough(pod)` for a full update, and `Rewritten(before, after)` for a patch computed between the two snapshots. `Respond` maps a gateway rejection to the handler's error.

Where the code and its tests disagree:
- With `requireAnnotation` false (its default), the code never decodes the annotation and never reads the node; it then dereferences a nil node as soon as the pod has a container (see "## Findings"). The tests at initializer/main_test.go:109-172 run with the flag at its default and expect the annotation's images on an arm node. The corrected handler follows the tests: a present annotation is decoded and the node read whatever the flag says. The flag only decides the missing-annotation case: required gives a dequeue-only update; optional keeps every image (no node is read, the architecture is unknown, the table empty) and commits the dequeue as a patch.
- The baseline architecture is the literal `"amd64"` in the code, not a configuration option.
- The tests call `initializePod` with a different signature, so they are used only as statements of expected outcomes.

## Model

| member | source | states |
|---|---|---|
| Gate.IsHead | initializer/main.go:110-113 | the component acts only when the block exists, its queue is non-empty and the head is the configured name; so it acts only on a name it finds in the queue |
| Gate.HeadDecomposition | initializer/main.go:110-113 | the component is at the head exactly of the queues of the form [its name] + rest, and the rest is what the dequeue leaves |
| Gate.Dequeue | initializer/main.go:118-123 | removes exactly the head of a non-empty queue; putting the head back restores the queue; the result is absent exactly when the queue had one entry and is never present-but-empty |
| Gate.DequeuePreservesOrder | initializer/main.go:118-123 | every remaining initializer sits one place before where it stood, so the relative order is kept |
| Gate.DequeuedFromIsDequeue | initializer/main.go:118-123 | the dequeued-from relation used in the handler's contracts holds of exactly the dequeue's result |
| Rewriter.Rewrite | initializer/main.go:163-189 | length, order and names are kept; a container whose architecture and name are both table keys gets `table[arch][name]`; every other container is unchanged |
| Rewriter.RewriteKeepsNames | initializer/main.go:163-189 | only images change: the rewritten sequence has the input's names |
| Rewriter.RewriteFallback | initializer/main.go:171-174 | with the architecture unknown or not in the table, rewriting is the identity |
| Rewriter.RewriteIdempotent | initializer/main.go:163-189 | rewriting twice with the same inputs equals rewriting once |
| Rewriter.RewriteNameKeyed | initializer/main.go:163-175 | permuting the containers permutes the result the same way; the image depends on the name, not the position |
| Rewriter.RewriteAppend | initializer/main.go:163-175 | each container is rewritten independently: rewriting a concatenation rewrites each part |
| Reconciler.Initialized | initializer/main.go:116-123 | the copy differs from the pod only in its queue, which is the pod's queue with its head removed |
| Reconciler.RewritePod | initializer/main.go:163-189 | containers and init containers are rewritten separately with the same architecture and table; nothing else changes |
| Reconciler.Reconcile | initializer/main.go:109-214 | no-op exactly when not at the head; a full update changes only the queue; a patch is computed against the unmodified input and changes only images and the queue; failures happen only with the annotation present |
| Reconciler.Respond | initializer/main.go:130-213 | a no-op returns no error; a failed decision returns its error; a rejected commit returns a commit error |
| Reconciler.NoOpUnlessHead | initializer/main.go:110-113 | an absent block, an empty queue or another name at the head gives a no-op and no error |
| Reconciler.PassthroughExactly | initializer/main.go:125-160 | a dequeue-only update happens exactly when the annotation is required and missing, or present and leading to an `amd64` node, and it keeps every image |
| Reconciler.DecodeFailureExactly | initializer/main.go:137-143 | a malformed annotation fails the event with a decode error, a decode error arises only from a malformed annotation, and the node registry's answer then makes no difference (no node is read) |
| Reconciler.LookupFailureExactly | initializer/main.go:145-151 | after a successful decode, a failed node read fails the event and nothing is committed |
| Reconciler.RewriteFromTable | initializer/main.go:153-209 | with the annotation present, required or not, on a non-`amd64` node both container sequences are rewritten from the decoded table and patched against the input pod |
| Reconciler.OptionalMissingKeepsImages | initializer/main.go:125-189 | with the annotation optional and missing, no node is read, every image is kept and only the dequeue is committed |
| Reconciler.FlagMattersOnlyWhenMissing | initializer/main_test.go:109-172 | once the annotation is present, the decision is the same whether or not it is required |
| Reconciler.CommittedPodIsNotReprocessed | initializer/main.go:110-113 | once dequeued, a pod with another initializer at its head is left alone by a second event |
| AsWritten.CopyInto | initializer/main.go:122 | Go's in-place `append`: the source overwrites the target range, and every other element stays |
| AsWritten.AliasedQueueShape | initializer/main.go:122 | after the in-place append the caller's queue is shifted left with its last entry doubled |
| AsWritten.RewriteLoops | initializer/main.go:163-189 | the loops panic exactly when the node variable is nil and some container exists |
| AsWritten.ReconcileAsWritten | initializer/main.go:109-214 | an empty queue panics exactly when the block is present; with the annotation optional the process-wide variables are never assigned |
| AsWritten.OptionalAnnotationNeverSetsGlobals | initializer/main.go:37-38 | across any sequence of events with the annotation optional, the node and table variables keep their initial values |
| AsWritten.EmptyQueuePanics | initializer/main.go:113 | an initializers block with an empty queue panics, where the corrected handler does nothing |
| AsWritten.OptionalAnnotationPanics | initializer/main.go:163-164 | with the annotation optional, any pod with a container panics on the nil node, where the corrected handler keeps every image if the annotation is missing and otherwise decides as on the required path |
| AsWritten.AliasingHidesDequeue | initializer/main.go:122 | when this initializer's name occurs only at the head of a queue of two or more, the caller's pod is changed and neither patch snapshot contains the name |
| AsWritten.AliasingExample | initializer/main.go:119-123 | queue [me, other] leaves the caller with [other, other], and the patch's "before" snapshot reads the same |
| AsWritten.AsWrittenAgrees | initializer/main.go:109-214 | with the annotation required, whenever the Go handler returns, its decision equals the corrected one, except that the patch is computed against the modified caller pod |
| AsWritten.AsWrittenAgreesOptional | initializer/main.go:125-189 | with the annotation optional and the node nil, the Go handler returns only for a pod without containers, and then commits the dequeue alone, as the corrected handler does whenever it commits |
| Scenarios.IgnoreImagesWithoutAnnotation | initializer/main_test.go:83-107 | no annotation: images unchanged and the initializer removed |
| Scenarios.RequiredAnnotationMissing | initializer/main.go:125-135 | annotation required but missing: a full update that only removes the initializer |
| Scenarios.PartialTable | initializer/main.go:163-175 | `{"arm":{"A":"arm_A"}}` on an arm node rewrites A and leaves B's image |
| Scenarios.SingleImageSuccess | initializer/main_test.go:109-138 | with the default configuration, `{"arm":{"A":"arm_A"}}` on an arm node rewrites A in both sequences and removes the initializer |
| Scenarios.BaselineNode | initializer/main.go:153-160 | an `amd64` node gives a dequeue-only update whatever the decoded table holds, with the annotation required or optional |
| Scenarios.MultipleImageSuccess | initializer/main_test.go:140-172 | with the default configuration, `{"arm":{"A":"arm_A","B":"arm_B"}}` on an arm node rewrites both images in both sequences |
| Scenarios.ArchitectureNotInTable | initializer/main_test.go:174-205 | a table without the node's architecture changes no image |
| Scenarios.ImageNotSet | initializer/main_test.go:207-236 | a table without the container's name changes no image |

## Left out

- `main` (flag parsing, in-cluster configuration, the watch and informer setup, signal handling): process plumbing and concurrency.
- `json.Unmarshal` of the annotation: it is a library call, so it is the `decode` parameter. Any partial fill of the table on a decode failure is not modelled; the table variable is reset to empty on that path.
- `json.Marshal` and `strategicpatch.CreateTwoWayMergePatch`: library calls. The model returns the two snapshots the patch is computed from, not the patch bytes. Their own failures are folded into the commit rejection of `Respond`.
- The `Update`, `Nodes().Get` and `Patch` calls: network I/O. They are the `lookup` parameter and the returned outcomes.
- The `Result` field of the initializers block and all pod fields other than those listed in `Pods.Pod`: the handler does not read them.
- Error values: the Go handler returns the decoder's and the client's own errors. The model abstracts them to kinds (`DecodeError`, `NodeLookupError`, `CommitError`) with a diagnostic payload (the raw annotation, the node name, the rejection reason) that the Go errors do not necessarily carry.
- Logging, including the log of container names the table does not map, and the unused `config` struct.
- The failure status the node read returns alongside an error: the model sets the node variable to nil on that path; only the annotation-required path reads it, and it always re-reads first.

## Findings

| source | as written | input that shows it | evidently intended | confidence | as-written member | corrected member |
|---|---|---|---|---|---|---|
| initializer/main.go:113 | `Pending[0]` is read without checking the queue's length | an initializers block present with an empty pending queue | treat the pod as not at the head and do nothing | not executed; high | AsWritten.EmptyQueuePanics | Reconciler.NoOpUnlessHead |
| initializer/main.go:163-164 | with `requireAnnotation` false, the process-wide `node` is never assigned, so the loop dereferences nil | annotation optional, queue [this initializer], one container "A" | with the annotation missing, commit the dequeue with every image kept; with it present, decode it, read the node and rewrite as on the required path | not executed; high | AsWritten.OptionalAnnotationPanics | Reconciler.OptionalMissingKeepsImages |
| initializer/main.go:122 | `append(pendingInitializers[:0], ...)` writes into the caller pod's array, and `json.Marshal(pod)` at line 191 then reads the clobbered queue | queue [this initializer, "other"] on the patch path: the caller's queue becomes ["other", "other"] | the input pod stays unchanged, so the patch records the head's removal | not executed; high | AsWritten.AliasingHidesDequeue | Reconciler.Reconcile |
