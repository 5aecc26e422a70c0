/**
 * The image rewriter: each container's image is replaced by the annotation table's
 * entry for the node's architecture and the container's name, when both keys exist.
 */
module Rewriter {
  import opened Wrappers
  import opened Pods

  /** Both keys are present: the table names an image for this container on `arch`. */
  predicate Mapped(table: Table, arch: Option<string>, name: string) {
    arch.Some? && arch.value in table && name in table[arch.value]
  }

  /**
   * One container after rewriting, the body of the loops at initializer/main.go:163-189;
   * an unknown architecture or a missing key leaves it as it is.
   */
  function Retag(c: Container, arch: Option<string>, table: Table): Container {
    if Mapped(table, arch, c.name) then c.(image := table[arch.value][c.name]) else c
  }

  /**
   * Rewrites a container sequence. Length, order and names are kept; a container whose
   * architecture and name are both keys of the table gets the table's image, every other
   * container is returned unchanged.
   */
  function Rewrite(cs: seq<Container>, arch: Option<string>, table: Table): (r: seq<Container>)
    ensures |r| == |cs|
    ensures forall i :: 0 <= i < |cs| ==> r[i].name == cs[i].name
    ensures forall i :: 0 <= i < |cs| && Mapped(table, arch, cs[i].name) ==>
      r[i].image == table[arch.value][cs[i].name]
    ensures forall i :: 0 <= i < |cs| && !Mapped(table, arch, cs[i].name) ==> r[i] == cs[i]
  {
    if cs == [] then [] else [Retag(cs[0], arch, table)] + Rewrite(cs[1..], arch, table)
  }

  /** Only images may change: the names of the rewritten sequence are the names of the input. */
  lemma RewriteKeepsNames(cs: seq<Container>, arch: Option<string>, table: Table)
    ensures Names(Rewrite(cs, arch, table)) == Names(cs)
  {
  }

  /** With the architecture unknown or absent from the table, rewriting is the identity. */
  lemma RewriteFallback(cs: seq<Container>, arch: Option<string>, table: Table)
    requires arch.None? || arch.value !in table
    ensures Rewrite(cs, arch, table) == cs
  {
  }

  /** Rewriting a second time with the same inputs changes nothing further. */
  lemma RewriteIdempotent(cs: seq<Container>, arch: Option<string>, table: Table)
    ensures Rewrite(Rewrite(cs, arch, table), arch, table) == Rewrite(cs, arch, table)
  {
  }

  /**
   * Rewriting is keyed by container name, not by position: permuting the input
   * permutes the output the same way.
   */
  lemma RewriteNameKeyed(cs: seq<Container>, ds: seq<Container>, perm: seq<nat>, arch: Option<string>, table: Table)
    requires |perm| == |ds|
    requires forall i :: 0 <= i < |perm| ==> perm[i] < |cs| && ds[i] == cs[perm[i]]
    ensures forall i :: 0 <= i < |ds| ==> Rewrite(ds, arch, table)[i] == Rewrite(cs, arch, table)[perm[i]]
  {
  }

  /** Each container is rewritten on its own: rewriting a concatenation rewrites each part. */
  lemma RewriteAppend(a: seq<Container>, b: seq<Container>, arch: Option<string>, table: Table)
    ensures Rewrite(a + b, arch, table) == Rewrite(a, arch, table) + Rewrite(b, arch, table)
  {
  }
}
