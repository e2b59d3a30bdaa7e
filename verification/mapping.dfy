/** Merging one YAML mapping into another, in place (internal/config/precedence.go). */
module Mapping {
  import opened Options

  datatype Kind = MappingNode | SequenceNode | ScalarNode

  /** What a node stands for: a mapping from keys to values in order, or anything else. */
  datatype Tree = Map(pairs: seq<Pair>) | Plain(kind: Kind, text: string, items: seq<Tree>)

  datatype Pair = Pair(key: Tree, value: Tree)

  /** The `Value` of a node; only scalars have one. */
  function Text(t: Tree): string {
    if t.Plain? then t.text else ""
  }

  predicate UniqueKeys(pairs: seq<Pair>) {
    forall i, j :: 0 <= i < j < |pairs| ==> Text(pairs[i].key) != Text(pairs[j].key)
  }

  /** No mapping in it has two keys with the same text. */
  predicate Unique(t: Tree) {
    match t
    case Map(pairs) => UniqueKeys(pairs) && forall p :: p in pairs ==> Unique(p.value)
    case Plain(_, _, _) => true
  }

  // ---------- The merge, as a function ----------

  /** `mappingIndex`. */
  function Index(pairs: seq<Pair>, key: string): (i: int)
    ensures -1 <= i < |pairs|
    ensures i >= 0 ==> Text(pairs[i].key) == key
    ensures forall j :: 0 <= j < (if i >= 0 then i else |pairs|) ==> Text(pairs[j].key) != key
  {
    if pairs == [] then -1
    else if Text(pairs[0].key) == key then 0
    else
      var rest := Index(pairs[1..], key);
      assert forall j :: 1 <= j < |pairs| ==> pairs[j] == pairs[1..][j - 1];
      if rest >= 0 then rest + 1 else -1
  }

  /** Two pairs with one key: mappings are merged under the key node that is there, and otherwise the
      later pair wins, key node and all. */
  function Joined(present: Pair, p: Pair): (r: Pair)
    ensures Text(present.key) == Text(p.key) ==> Text(r.key) == Text(p.key)
    decreases p, 1
  {
    if present.value.Map? && p.value.Map? then Pair(present.key, Merge(present.value, p.value)) else p
  }

  /** One turn of the loop; a new key goes to the end. */
  function Put(pairs: seq<Pair>, p: Pair): (r: seq<Pair>)
    decreases p, 2
  {
    var i := Index(pairs, Text(p.key));
    if i >= 0 then pairs[i := Joined(pairs[i], p)] else pairs + [p]
  }

  function MergeAll(pairs: seq<Pair>, overlay: seq<Pair>): seq<Pair>
    decreases overlay, 3
  {
    if overlay == [] then pairs else MergeAll(Put(pairs, overlay[0]), overlay[1..])
  }

  function Merge(base: Tree, overlay: Tree): Tree
    requires base.Map? && overlay.Map?
    decreases overlay, 0
  {
    Map(MergeAll(base.pairs, overlay.pairs))
  }

  // ---------- It is the right-biased recursive merge of maps ----------

  function Lookup(pairs: seq<Pair>, key: string): Option<Tree> {
    var i := Index(pairs, key);
    if i >= 0 then Some(pairs[i].value) else None
  }

  /** The value of one key in the merge of two mappings: the overlay's wins, but two mappings are merged. */
  function Combined(base: Option<Tree>, overlay: Option<Tree>): Option<Tree> {
    if overlay.None? then base
    else if base.Some? && base.value.Map? && overlay.value.Map? then Some(Merge(base.value, overlay.value))
    else overlay
  }

  lemma IndexFirst(pairs: seq<Pair>, key: string, i: nat)
    requires i < |pairs| && Text(pairs[i].key) == key
    requires forall j :: 0 <= j < i ==> Text(pairs[j].key) != key
    ensures Index(pairs, key) == i
  {
  }

  /** A turn of the loop moves no key: a new one comes last. */
  lemma PutIndex(pairs: seq<Pair>, p: Pair, key: string)
    ensures Index(Put(pairs, p), key) ==
      if Index(pairs, key) >= 0 then Index(pairs, key) else if key == Text(p.key) then |pairs| else -1
  {
    var r := Put(pairs, p);
    assert forall x :: 0 <= x < |pairs| ==> Text(r[x].key) == Text(pairs[x].key);
    if Index(pairs, key) >= 0 {
      IndexFirst(r, key, Index(pairs, key));
    } else if key == Text(p.key) {
      IndexFirst(r, key, |pairs|);
    }
  }

  lemma PutLookup(pairs: seq<Pair>, p: Pair, key: string)
    ensures Lookup(Put(pairs, p), key) ==
      if key == Text(p.key) then Combined(Lookup(pairs, key), Some(p.value)) else Lookup(pairs, key)
  {
    PutIndex(pairs, p, key);
  }

  /** The merge, key by key, for an overlay whose keys are unique. */
  lemma {:induction false} MergeLookup(pairs: seq<Pair>, overlay: seq<Pair>, key: string)
    requires UniqueKeys(overlay)
    ensures Lookup(MergeAll(pairs, overlay), key) == Combined(Lookup(pairs, key), Lookup(overlay, key))
    decreases |overlay|
  {
    if overlay != [] {
      var rest := overlay[1..];
      assert forall x :: 0 <= x < |rest| ==> rest[x] == overlay[x + 1];
      PutLookup(pairs, overlay[0], key);
      MergeLookup(Put(pairs, overlay[0]), rest, key);
      if key == Text(overlay[0].key) {
        assert Index(rest, key) == -1;
        IndexFirst(overlay, key, 0);
      }
    }
  }

  /** The texts of the keys, in order. */
  function Keys(pairs: seq<Pair>): seq<string> {
    seq(|pairs|, i requires 0 <= i < |pairs| => Text(pairs[i].key))
  }

  /** The keys of the overlay that the base does not have, in order. */
  function NewKeys(pairs: seq<Pair>, overlay: seq<Pair>): seq<string> {
    if overlay == [] then []
    else (if Index(pairs, Text(overlay[0].key)) >= 0 then [] else [Text(overlay[0].key)]) + NewKeys(pairs, overlay[1..])
  }

  lemma PutKeys(pairs: seq<Pair>, p: Pair)
    ensures Keys(Put(pairs, p)) == Keys(pairs) + (if Index(pairs, Text(p.key)) >= 0 then [] else [Text(p.key)])
  {
  }

  lemma {:induction false} NewKeysSkip(pairs: seq<Pair>, rest: seq<Pair>, p: Pair)
    requires forall i :: 0 <= i < |rest| ==> Text(rest[i].key) != Text(p.key)
    ensures NewKeys(Put(pairs, p), rest) == NewKeys(pairs, rest)
    decreases |rest|
  {
    if rest != [] {
      PutIndex(pairs, p, Text(rest[0].key));
      NewKeysSkip(pairs, rest[1..], p);
    }
  }

  lemma Regroup(a: seq<string>, b: seq<string>, c: seq<string>)
    ensures (a + b) + c == a + (b + c) && a + [] == a
  {
  }

  lemma RestUnique(overlay: seq<Pair>)
    requires overlay != [] && UniqueKeys(overlay)
    ensures UniqueKeys(overlay[1..])
    ensures forall i :: 0 <= i < |overlay[1..]| ==> Text(overlay[1..][i].key) != Text(overlay[0].key)
  {
  }

  /** The old keys stay where they are, and the new ones follow in the overlay's order. */
  lemma {:induction false} MergeKeys(pairs: seq<Pair>, overlay: seq<Pair>)
    requires UniqueKeys(overlay)
    ensures Keys(MergeAll(pairs, overlay)) == Keys(pairs) + NewKeys(pairs, overlay)
    decreases |overlay|
  {
    hide Keys, UniqueKeys, Put;
    if overlay == [] {
      Regroup(Keys(pairs), [], []);
    } else {
      var key, rest := Text(overlay[0].key), overlay[1..];
      RestUnique(overlay);
      PutKeys(pairs, overlay[0]);
      NewKeysSkip(pairs, rest, overlay[0]);
      MergeKeys(Put(pairs, overlay[0]), rest);
      Regroup(Keys(pairs), if Index(pairs, key) >= 0 then [] else [key], NewKeys(pairs, rest));
    }
  }

  lemma JoinedKeepsUnique(present: Pair, p: Pair)
    requires Unique(present.value) && Unique(p.value)
    ensures Unique(Joined(present, p).value)
    decreases p
  {
    if present.value.Map? && p.value.Map? {
      MergeKeepsUnique(present.value.pairs, p.value.pairs);
    }
  }

  lemma PutKeepsUnique(pairs: seq<Pair>, p: Pair)
    requires Unique(Map(pairs)) && Unique(p.value)
    requires forall present :: present in pairs ==> Unique(Joined(present, p).value)
    ensures Unique(Map(Put(pairs, p)))
  {
    var i, after := Index(pairs, Text(p.key)), Put(pairs, p);
    forall q | q in after ensures Unique(q.value) {
      assert q in pairs || q == p || (i >= 0 && q == Joined(pairs[i], p));
    }
    assert forall x :: 0 <= x < |pairs| ==> Text(after[x].key) == Text(pairs[x].key);
  }

  /** Keys stay unique, also in the mappings below, even if the overlay repeats one at its top. */
  lemma {:induction false} MergeKeepsUnique(pairs: seq<Pair>, overlay: seq<Pair>)
    requires Unique(Map(pairs)) && forall p :: p in overlay ==> Unique(p.value)
    ensures Unique(Map(MergeAll(pairs, overlay)))
    decreases overlay
  {
    if overlay != [] {
      assert overlay[0] in overlay;
      forall present | present in pairs ensures Unique(Joined(present, overlay[0]).value) {
        JoinedKeepsUnique(present, overlay[0]);
      }
      PutKeepsUnique(pairs, overlay[0]);
      MergeKeepsUnique(Put(pairs, overlay[0]), overlay[1..]);
    }
  }

  // ---------- It is idempotent ----------

  /** The pair is there already, as the merge would leave it. */
  ghost predicate Absorbs(pairs: seq<Pair>, p: Pair) {
    Index(pairs, Text(p.key)) >= 0 && Joined(pairs[Index(pairs, Text(p.key))], p) == pairs[Index(pairs, Text(p.key))]
  }

  lemma {:induction false} AbsorbedChangesNothing(pairs: seq<Pair>, overlay: seq<Pair>)
    requires forall p :: p in overlay ==> Absorbs(pairs, p)
    ensures MergeAll(pairs, overlay) == pairs
    decreases |overlay|
  {
    if overlay != [] {
      assert Absorbs(pairs, overlay[0]);
      assert Put(pairs, overlay[0]) == pairs;
      AbsorbedChangesNothing(pairs, overlay[1..]);
    }
  }

  lemma StillAbsorbs(pairs: seq<Pair>, p: Pair, other: Pair)
    requires Absorbs(pairs, p) && Text(p.key) != Text(other.key)
    ensures Absorbs(Put(pairs, other), p)
  {
    PutIndex(pairs, other, Text(p.key));
  }

  /** A mapping without repeated keys absorbs itself. */
  lemma {:induction false} SelfMerge(t: Tree)
    requires t.Map? && Unique(t)
    ensures Merge(t, t) == t
    decreases t
  {
    forall p | p in t.pairs ensures Absorbs(t.pairs, p) {
      var i :| 0 <= i < |t.pairs| && t.pairs[i] == p;
      IndexFirst(t.pairs, Text(p.key), i);
      if p.value.Map? {
        SelfMerge(p.value);
      }
    }
    AbsorbedChangesNothing(t.pairs, t.pairs);
  }

  lemma PutAbsorbs(pairs: seq<Pair>, p: Pair)
    requires Unique(p.value)
    requires forall t: Tree :: t.Map? && p.value.Map? ==> Merge(Merge(t, p.value), p.value) == Merge(t, p.value)
    ensures Absorbs(Put(pairs, p), p)
  {
    PutIndex(pairs, p, Text(p.key));
    if p.value.Map? {
      SelfMerge(p.value);
    }
  }

  /** What was merged in is absorbed by the result. */
  lemma {:induction false} MergedAbsorbs(pairs: seq<Pair>, overlay: seq<Pair>, p: Pair)
    requires Absorbs(pairs, p) && forall q :: q in overlay ==> Text(q.key) != Text(p.key)
    ensures Absorbs(MergeAll(pairs, overlay), p)
    decreases |overlay|
  {
    if overlay != [] {
      assert overlay[0] in overlay;
      StillAbsorbs(pairs, p, overlay[0]);
      MergedAbsorbs(Put(pairs, overlay[0]), overlay[1..], p);
    }
  }

  lemma {:induction false} MergeAbsorbs(pairs: seq<Pair>, overlay: seq<Pair>, k: nat)
    requires k < |overlay| && Unique(Map(overlay))
    ensures Absorbs(MergeAll(pairs, overlay), overlay[k])
    decreases overlay, 0
  {
    var rest := overlay[1..];
    assert forall x :: 0 <= x < |rest| ==> rest[x] == overlay[x + 1];
    if k > 0 {
      assert forall p :: p in rest ==> p in overlay;
      MergeAbsorbs(Put(pairs, overlay[0]), rest, k - 1);
    } else {
      assert overlay[0] in overlay && Unique(overlay[0].value);
      if overlay[0].value.Map? {
        forall t: Tree | t.Map? ensures Merge(Merge(t, overlay[0].value), overlay[0].value) == Merge(t, overlay[0].value) {
          MergeTwice(t, overlay[0].value);
        }
      }
      PutAbsorbs(pairs, overlay[0]);
      MergedAbsorbs(Put(pairs, overlay[0]), rest, overlay[0]);
    }
  }

  /** Merging the same overlay once more changes nothing, when no mapping of it repeats a key. */
  lemma {:induction false} MergeTwice(base: Tree, overlay: Tree)
    requires base.Map? && overlay.Map? && Unique(overlay)
    ensures Merge(Merge(base, overlay), overlay) == Merge(base, overlay)
    decreases overlay, 1
  {
    var once := MergeAll(base.pairs, overlay.pairs);
    forall p | p in overlay.pairs ensures Absorbs(once, p) {
      var k :| 0 <= k < |overlay.pairs| && overlay.pairs[k] == p;
      MergeAbsorbs(base.pairs, overlay.pairs, k);
    }
    AbsorbedChangesNothing(once, overlay.pairs);
  }

  // ---------- The same on nodes, in place ----------

  /** The trees of a mapping's content, two by two. */
  function PairUp(trees: seq<Tree>): seq<Pair> {
    seq(|trees| / 2, i requires 0 <= i < |trees| / 2 => Pair(trees[2 * i], trees[2 * i + 1]))
  }

  function TreeOf(kind: Kind, value: string, trees: seq<Tree>): Tree {
    if kind == MappingNode then Map(PairUp(trees)) else Plain(kind, value, trees)
  }

  class Node {
    var kind: Kind
    var value: string
    var content: seq<Node>
    ghost var repr: set<Node>
    ghost var tree: Tree

    /** The nodes below form a tree, of which `repr` holds at least all nodes, and which stands for `tree`. */
    ghost predicate Valid()
      reads this, repr
      decreases repr + {this}
    {
      && this in repr
      && (forall c :: c in content ==> c in repr && c.repr <= repr && this !in c.repr && c.Valid())
      && (forall i, j :: 0 <= i < j < |content| ==> content[i].repr !! content[j].repr)
      && (kind == MappingNode ==> |content| % 2 == 0 && value == "")
      && tree == TreeOf(kind, value, Trees(content))
    }

    constructor (kind: Kind, value: string, content: seq<Node>)
      requires forall c :: c in content ==> c.Valid()
      requires forall i, j :: 0 <= i < j < |content| ==> content[i].repr !! content[j].repr
      requires kind == MappingNode ==> |content| % 2 == 0 && value == ""
      ensures Valid() && fresh(this) && repr == {this} + Reprs(content) && tree == TreeOf(kind, value, Trees(content))
      ensures this.kind == kind && this.value == value && this.content == content
    {
      this.kind, this.value, this.content := kind, value, content;
      this.repr := {this} + Reprs(content);
      this.tree := TreeOf(kind, value, Trees(content));
    }
  }

  ghost function Trees(content: seq<Node>): seq<Tree>
    reads content
  {
    seq(|content|, i requires 0 <= i < |content| reads content => content[i].tree)
  }

  ghost function Reprs(content: seq<Node>): set<Node>
    reads content
  {
    set c, n | c in content && n in c.repr :: n
  }

  lemma SameKind(node: Node)
    requires node.Valid()
    ensures node.tree.Map? <==> node.kind == MappingNode
    ensures Text(node.tree) == node.value && node in node.repr
  {
  }

  lemma ChildKind(node: Node, i: nat)
    requires node.Valid() && i < |node.content|
    ensures node.content[i].Valid() && node.content[i].repr < node.repr
    ensures node.content[i].tree.Map? <==> node.content[i].kind == MappingNode
  {
    assert node.content[i] in node.content;
    SameKind(node.content[i]);
  }

  lemma TreeIs(node: Node)
    requires node.Valid()
    ensures node.tree == TreeOf(node.kind, node.value, Trees(node.content))
    ensures node.kind == MappingNode ==> |node.content| % 2 == 0 && node.value == ""
  {
  }

  /** `cloneNode`: a tree of new nodes that stands for the same. */
  method CloneNode(node: Node) returns (clone: Node)
    requires node.Valid()
    ensures clone.Valid() && fresh(clone.repr) && clone.tree == node.tree
    ensures clone.kind == node.kind && clone.value == node.value
    decreases node.repr
  {
    TreeIs(node);
    hide Node.Valid, TreeOf;
    var content: seq<Node> := [];
    for index := 0 to |node.content|
      invariant |content| == index
      invariant forall i :: 0 <= i < index ==>
        content[i].Valid() && fresh(content[i].repr) && content[i].tree == node.content[i].tree
      invariant forall i, j :: 0 <= i < j < index ==> content[i].repr !! content[j].repr
    {
      ChildKind(node, index);
      var child := CloneNode(node.content[index]);
      content := content + [child];
    }
    clone := new Node(node.kind, node.value, content);
    assert Trees(content) == Trees(node.content);
  }

  lemma IndexNone(pairs: seq<Pair>, key: string)
    requires forall j :: 0 <= j < |pairs| ==> Text(pairs[j].key) != key
    ensures Index(pairs, key) == -1
  {
  }

  lemma PairAt(node: Node, i: nat)
    requires node.Valid() && node.kind == MappingNode && 2 * i < |node.content|
    ensures node.tree.Map? && |node.tree.pairs| == |node.content| / 2 && 2 * i + 1 < |node.content|
    ensures node.tree.pairs[i] == Pair(node.content[2 * i].tree, node.content[2 * i + 1].tree)
    ensures Text(node.content[2 * i].tree) == node.content[2 * i].value
  {
    assert node.content[2 * i] in node.content;
  }

  lemma Evenly(node: Node)
    requires node.Valid() && node.kind == MappingNode
    ensures node.tree.Map? && |node.content| == 2 * |node.tree.pairs| && node.value == ""
    ensures forall i :: 0 <= i < |node.tree.pairs| ==>
      node.tree.pairs[i] == Pair(node.content[2 * i].tree, node.content[2 * i + 1].tree)
  {
    forall i | 0 <= i < |node.tree.pairs|
      ensures node.tree.pairs[i] == Pair(node.content[2 * i].tree, node.content[2 * i + 1].tree)
    {
      PairAt(node, i);
    }
  }

  /** `mappingIndex`, over the flat content: keys are at the even places. */
  method MappingIndex(mapping: Node, key: string) returns (at: int)
    requires mapping.Valid() && mapping.kind == MappingNode
    ensures mapping.tree.Map? && |mapping.content| == 2 * |mapping.tree.pairs|
    ensures at == if Index(mapping.tree.pairs, key) >= 0 then 2 * Index(mapping.tree.pairs, key) else -1
  {
    var index := 0;
    ghost var k := 0;
    Evenly(mapping);
    while index < |mapping.content|
      invariant index == 2 * k && 0 <= k <= |mapping.tree.pairs|
      invariant forall j :: 0 <= j < k ==> Text(mapping.tree.pairs[j].key) != key
    {
      PairAt(mapping, k);
      if mapping.content[index].value == key {
        IndexFirst(mapping.tree.pairs, key, k);
        return index;
      }
      index, k := index + 2, k + 1;
    }
    IndexNone(mapping.tree.pairs, key);
    at := -1;
  }

  lemma PutCases(pairs: seq<Pair>, p: Pair)
    ensures var i := Index(pairs, Text(p.key));
      Put(pairs, p) ==
        if i < 0 then pairs + [p]
        else if pairs[i].value.Map? && p.value.Map? then pairs[i := Pair(pairs[i].key, Merge(pairs[i].value, p.value))]
        else pairs[i := p]
  {
  }

  /** A new pair at the end. */
  method Append(base: Node, k: Node, v: Node)
    requires base.Valid() && k.Valid() && v.Valid() && base.kind == MappingNode
    requires base.repr !! k.repr && base.repr !! v.repr && k.repr !! v.repr
    modifies base
    ensures base.Valid() && base.kind == MappingNode && old(base.tree).Map?
    ensures base.tree == Map(old(base.tree).pairs + [Pair(k.tree, v.tree)])
    ensures base.repr == old(base.repr) + k.repr + v.repr
  {
    Evenly(base);
    base.content := base.content + [k, v];
    base.repr := base.repr + k.repr + v.repr;
    base.tree := Map(base.tree.pairs + [Pair(k.tree, v.tree)]);
    assert base.tree.pairs == PairUp(Trees(base.content));
  }

  /** Another pair in the place of one. */
  method Replace(base: Node, at: nat, ghost i: nat, k: Node, v: Node)
    requires base.Valid() && k.Valid() && v.Valid() && base.kind == MappingNode
    requires base.repr !! k.repr && base.repr !! v.repr && k.repr !! v.repr
    requires base.tree.Map? && at == 2 * i && i < |base.tree.pairs| && |base.content| == 2 * |base.tree.pairs|
    modifies base
    ensures base.Valid() && base.kind == MappingNode
    ensures base.tree == Map(old(base.tree).pairs[i := Pair(k.tree, v.tree)])
    ensures base.repr == old(base.repr) + k.repr + v.repr
  {
    Evenly(base);
    ghost var before := Trees(base.content);
    base.content := base.content[at := k][at + 1 := v];
    base.repr := base.repr + k.repr + v.repr;
    base.tree := Map(base.tree.pairs[i := Pair(k.tree, v.tree)]);
    assert Trees(base.content) == before[at := k.tree][at + 1 := v.tree];
    PairUpReplaced(before, i, k.tree, v.tree);
    hide PairUp;
  }

  lemma PairUpReplaced(trees: seq<Tree>, i: nat, k: Tree, v: Tree)
    requires 2 * i + 1 < |trees|
    ensures PairUp(trees[2 * i := k][2 * i + 1 := v]) == PairUp(trees)[i := Pair(k, v)]
  {
  }

  /** Copies of the pair, over the one that is there or at the end. */
  method PutOver(base: Node, at: int, ghost i: int, key: Node, value: Node)
    requires base.Valid() && key.Valid() && value.Valid() && base.kind == MappingNode
    requires base.repr !! key.repr && base.repr !! value.repr
    requires base.tree.Map? && -1 <= i < |base.tree.pairs| && |base.content| == 2 * |base.tree.pairs|
    requires at == if i < 0 then -1 else 2 * i
    modifies base
    ensures base.Valid() && base.kind == MappingNode
    ensures base.tree == Map(if i < 0 then old(base.tree).pairs + [Pair(key.tree, value.tree)]
                             else old(base.tree).pairs[i := Pair(key.tree, value.tree)])
    ensures fresh(base.repr - old(base.repr))
  {
    SameKind(key);
    SameKind(value);
    SameKind(base);
    hide Node.Valid;
    var k := CloneNode(key);
    var v := CloneNode(value);
    if at >= 0 {
      Replace(base, at, i, k, v);
    } else {
      Append(base, k, v);
    }
  }

  /** What is known of a node and its children. */
  lemma Apart(node: Node, i: nat)
    requires node.Valid() && i < |node.content|
    ensures node in node.repr && node.tree == TreeOf(node.kind, node.value, Trees(node.content))
    ensures forall c :: c in node.content ==> c.Valid() && c.repr <= node.repr && node !in c.repr && c in c.repr
    ensures forall j, k :: 0 <= j < k < |node.content| ==> node.content[j].repr !! node.content[k].repr
    ensures forall j :: 0 <= j < |node.content| && j != i ==> node.content[j].repr !! node.content[i].repr
  {
    forall c | c in node.content ensures c in c.repr {
      assert c.Valid();
    }
  }

  /** After a change below one value, the node accounts for what is new there. */
  ghost method Refresh(base: Node, at: nat, before: seq<Tree>)
    requires base.kind == MappingNode && base.value == ""
    requires |base.content| % 2 == 0 && 2 * at + 1 < |base.content| == |before|
    requires base in base.repr && forall c :: c in base.content ==> c.Valid() && base !in c.repr && c in c.repr
    requires forall i, j :: 0 <= i < j < |base.content| ==> base.content[i].repr !! base.content[j].repr
    requires forall i :: 0 <= i < |base.content| && i != 2 * at + 1 ==>
      base.content[i].repr <= base.repr && base.content[i].tree == before[i]
    modifies base
    ensures base.Valid() && base.kind == MappingNode
    ensures base.repr == old(base.repr) + old(base.content[2 * at + 1].repr)
    ensures base.tree == Map(PairUp(before)[at := Pair(before[2 * at], old(base.content[2 * at + 1].tree))])
  {
    var child := base.content[2 * at + 1];
    base.repr := base.repr + child.repr;
    base.tree := Map(PairUp(Trees(base.content)));
    PairUpSet(before, Trees(base.content), at);
    hide PairUp;
  }

  lemma PairUpSet(before: seq<Tree>, after: seq<Tree>, at: nat)
    requires |before| == |after| && 2 * at + 1 < |before|
    requires forall i :: 0 <= i < |before| && i != 2 * at + 1 ==> after[i] == before[i]
    ensures PairUp(after) == PairUp(before)[at := Pair(before[2 * at], after[2 * at + 1])]
  {
  }

  /** Both values are mappings: the merge goes on below, under the key node that is there. */
  method PutBelow(base: Node, at: nat, ghost i: nat, value: Node)
    requires base.Valid() && value.Valid() && base.kind == MappingNode && base.repr !! value.repr
    requires base.tree.Map? && at == 2 * i && i < |base.tree.pairs| && |base.content| == 2 * |base.tree.pairs|
    requires base.content[at + 1].kind == MappingNode && value.kind == MappingNode
    requires base.tree.pairs[i].value.Map? && value.tree.Map?
    modifies base.repr
    ensures base.Valid() && base.kind == MappingNode
    ensures base.tree == Map(old(base.tree).pairs[i :=
      Pair(old(base.tree).pairs[i].key, Merge(old(base.tree).pairs[i].value, value.tree))])
    ensures fresh(base.repr - old(base.repr))
    decreases value.repr, 2
  {
    Evenly(base);
    Apart(base, at + 1);
    var child := base.content[at + 1];
    ghost var before := Trees(base.content);
    hide Node.Valid;
    MergeMapping(child, value);
    Refresh(base, i, before);
  }

  /** `mergeMapping`: the base becomes the merge of the two, made of its own nodes and new ones; the
      overlay is left alone and shares no node with it. */
  method MergeMapping(base: Node, overlay: Node)
    requires base.Valid() && overlay.Valid() && base.repr !! overlay.repr
    requires base.kind == MappingNode && overlay.kind == MappingNode
    modifies base.repr
    ensures base.Valid() && base.kind == MappingNode
    ensures old(base.tree).Map? && overlay.tree.Map? && base.tree == Merge(old(base.tree), overlay.tree)
    ensures fresh(base.repr - old(base.repr)) && base.repr !! overlay.repr
    ensures overlay.Valid() && overlay.tree == old(overlay.tree) && overlay.repr == old(overlay.repr)
    decreases overlay.repr, 1
  {
    Evenly(base);
    Evenly(overlay);
    SameKind(overlay);
    hide Node.Valid, MergeAll, Merge;
    ghost var given, pairs := base.tree.pairs, overlay.tree.pairs;
    ghost var k := 0;
    assert pairs[0..] == pairs;
    var index := 0;
    while index < |overlay.content|
      invariant index == 2 * k && 0 <= k <= |pairs| && overlay.tree == Map(pairs) && |overlay.content| == 2 * |pairs|
      invariant base.Valid() && base.kind == MappingNode && base.tree.Map? && overlay.Valid()
      invariant fresh(base.repr - old(base.repr)) && base.repr !! overlay.repr
      invariant MergeAll(base.tree.pairs, pairs[k..]) == MergeAll(given, pairs)
    {
      MergeTurn(base, overlay, index, k);
      index, k := index + 2, k + 1;
    }
    MergedAll(base.tree.pairs, pairs, k);
    MergeIs(Map(given), Map(pairs));
  }

  lemma MergeIs(base: Tree, overlay: Tree)
    requires base.Map? && overlay.Map?
    ensures Merge(base, overlay) == Map(MergeAll(base.pairs, overlay.pairs))
  {
  }

  lemma MergedAll(pairs: seq<Pair>, overlay: seq<Pair>, k: nat)
    requires k <= |overlay|
    ensures k == |overlay| ==> MergeAll(pairs, overlay[k..]) == pairs
    ensures k < |overlay| ==> MergeAll(pairs, overlay[k..]) == MergeAll(Put(pairs, overlay[k]), overlay[k + 1..])
  {
    if k < |overlay| {
      assert overlay[k..][1..] == overlay[k + 1..];
    }
  }

  /** One turn of the loop, for the pair at `index`. */
  method MergeTurn(base: Node, overlay: Node, index: nat, ghost k: nat)
    requires base.Valid() && overlay.Valid() && base.repr !! overlay.repr
    requires base.kind == MappingNode && overlay.kind == MappingNode
    requires base.tree.Map? && overlay.tree.Map? && index == 2 * k && index + 1 < |overlay.content|
    requires k < |overlay.tree.pairs|
    modifies base.repr
    ensures base.Valid() && base.kind == MappingNode && base.tree.Map?
    ensures fresh(base.repr - old(base.repr)) && base.repr !! overlay.repr
    ensures MergeAll(base.tree.pairs, overlay.tree.pairs[k + 1..]) == MergeAll(old(base.tree).pairs, overlay.tree.pairs[k..])
    decreases overlay.repr, 0
  {
    hide Node.Valid, MergeAll, Put;
    SameKind(overlay);
    Evenly(overlay);
    ChildKind(overlay, index);
    ChildKind(overlay, index + 1);
    MergedAll(base.tree.pairs, overlay.tree.pairs, k);
    PutPair(base, overlay.content[index], overlay.content[index + 1]);
  }

  /** A key that is there gets its mapping merged if both values are mappings; otherwise the pair is
      copied over it, or to the end. */
  method PutPair(base: Node, key: Node, value: Node)
    requires base.Valid() && key.Valid() && value.Valid() && base.kind == MappingNode
    requires base.repr !! key.repr && base.repr !! value.repr
    modifies base.repr
    ensures base.Valid() && base.kind == MappingNode
    ensures old(base.tree).Map? && base.tree == Map(Put(old(base.tree).pairs, Pair(key.tree, value.tree)))
    ensures fresh(base.repr - old(base.repr))
    decreases value.repr, 3
  {
    SameKind(base);
    hide Node.Valid, Put, Index, Merge;
    ghost var i := Index(base.tree.pairs, key.value);
    var at, below := Find(base, key, value);
    if below {
      PutBelow(base, at, i, value);
    } else {
      PutOver(base, at, i, key, value);
    }
  }

  /** Where the pair goes, and whether the merge goes on below. */
  method Find(base: Node, key: Node, value: Node) returns (at: int, below: bool)
    requires base.Valid() && key.Valid() && value.Valid() && base.kind == MappingNode
    ensures base.tree.Map? && |base.content| == 2 * |base.tree.pairs|
    ensures var i := Index(base.tree.pairs, key.value);
      && at == (if i < 0 then -1 else 2 * i)
      && (below ==> i >= 0 && base.content[at + 1].kind == MappingNode && value.kind == MappingNode
                    && base.tree.pairs[i].value.Map? && value.tree.Map?)
      && Put(base.tree.pairs, Pair(key.tree, value.tree)) ==
        (if below then base.tree.pairs[i := Pair(base.tree.pairs[i].key, Merge(base.tree.pairs[i].value, value.tree))]
         else if i < 0 then base.tree.pairs + [Pair(key.tree, value.tree)]
         else base.tree.pairs[i := Pair(key.tree, value.tree)])
  {
    hide Put, Merge, Node.Valid, PairUp;
    SameKind(key);
    SameKind(value);
    Evenly(base);
    at := MappingIndex(base, key.value);
    PutCases(base.tree.pairs, Pair(key.tree, value.tree));
    below := false;
    if at >= 0 {
      PairAt(base, Index(base.tree.pairs, key.value));
      ChildKind(base, at + 1);
      below := base.content[at + 1].kind == MappingNode && value.kind == MappingNode;
    }
  }
}
