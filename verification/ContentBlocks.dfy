/** Reconciling the rendered blocks of a message with its new blocks. */
module ContentBlocks {
  import opened Basics

  type BlockId = string

  /** A block to show: its id, and the signature of what it renders. */
  datatype Block = Block(id: BlockId, signature: string)

  /** A page element; only its identity matters. */
  class Element {
    constructor () {}
  }

  datatype Rendered = Rendered(element: Element, signature: string)
  type Cache = map<BlockId, Rendered>

  predicate DistinctIds(blocks: seq<Block>) {
    forall i, j :: 0 <= i < j < |blocks| ==> blocks[i].id != blocks[j].id
  }

  ghost predicate IsCached(rendered: Cache, e: Element) {
    exists id :: id in rendered && rendered[id].element == e
  }

  /** Every child is a cached element, and no element is cached twice. */
  ghost predicate ChildrenCached(children: seq<Element>, rendered: Cache) {
    && Distinct(children)
    && (forall e :: e in children ==> IsCached(rendered, e))
    && forall a, b :: a in rendered && b in rendered && rendered[a].element == rendered[b].element ==> a == b
  }

  /** The children are exactly the cached elements, except that one may still be detached. */
  ghost predicate InStepBut(children: seq<Element>, rendered: Cache, pending: Element) {
    && ChildrenCached(children, rendered)
    && forall id :: id in rendered ==> rendered[id].element in children || rendered[id].element == pending
  }

  /** The children are exactly the cached elements, each cached once. */
  ghost predicate InStep(children: seq<Element>, rendered: Cache) {
    && ChildrenCached(children, rendered)
    && forall id :: id in rendered ==> rendered[id].element in children
  }

  /** The first k children show the first k blocks. */
  ghost predicate Shown(children: seq<Element>, rendered: Cache, blocks: seq<Block>, k: nat) {
    && k <= |blocks| && k <= |children|
    && forall i :: 0 <= i < k ==>
         blocks[i].id in rendered && rendered[blocks[i].id] == Rendered(children[i], blocks[i].signature)
  }

  // ----- the child list -----

  function Without(children: seq<Element>, e: Element): seq<Element> {
    var i := IndexOf(children, e);
    if i < 0 then children else children[..i] + children[i + 1..]
  }

  lemma WithoutElements(children: seq<Element>, e: Element)
    requires Distinct(children)
    ensures Distinct(Without(children, e))
    ensures forall x :: x in Without(children, e) <==> x in children && x != e
  {
    var i := IndexOf(children, e);
    var w := Without(children, e);
    if i >= 0 {
      forall x | x in children && x != e
        ensures x in w
      {
        var k :| 0 <= k < |children| && children[k] == x;
        if k < i { assert w[k] == x; } else { assert w[k - 1] == x; }
      }
    }
  }

  lemma WithoutPrefix(children: seq<Element>, e: Element, k: nat)
    requires k <= |children| && e !in children[..k]
    ensures k <= |Without(children, e)| && Without(children, e)[..k] == children[..k]
  {
    var i := IndexOf(children, e);
    forall j | 0 <= j < k
      ensures children[j] != e
    {
      assert children[..k][j] == children[j];
    }
  }

  /** insertBefore: the element leaves its old place, if it has one, and stands at the position. */
  function Placed(children: seq<Element>, e: Element, at: nat): seq<Element>
    requires at <= |children|
  {
    children[..at] + [e] + Without(children[at..], e)
  }

  lemma PlacedDistinct(children: seq<Element>, e: Element, at: nat)
    requires Distinct(children) && at <= |children| && e !in children[..at]
    ensures Distinct(Placed(children, e, at))
  {
    var tail := children[at..];
    WithoutElements(tail, e);
    var w := Without(tail, e);
    hide Without;
    var head := children[..at];
    assert forall i, j :: 0 <= i < |head| && 0 <= j < |tail| ==> head[i] != tail[j];
    forall i, j | 0 <= i < |head| && 0 <= j < |w|
      ensures head[i] != w[j]
    {
      assert w[j] in w;
      var k :| 0 <= k < |tail| && tail[k] == w[j];
    }
    assert forall j :: 0 <= j < |w| ==> w[j] in w;
    assert forall i :: 0 <= i < |head| ==> head[i] in head;
    JoinDistinct(head, e, w);
  }

  lemma JoinDistinct(head: seq<Element>, e: Element, tail: seq<Element>)
    requires Distinct(head) && Distinct(tail) && e !in head && e !in tail
    requires forall i, j :: 0 <= i < |head| && 0 <= j < |tail| ==> head[i] != tail[j]
    ensures Distinct(head + [e] + tail)
  {
  }

  lemma PlacedElements(children: seq<Element>, e: Element, at: nat, x: Element)
    requires Distinct(children) && at <= |children|
    ensures x in Placed(children, e, at) <==> x in children || x == e
  {
    var tail := children[at..];
    assert children == children[..at] + tail;
    WithoutElements(tail, e);
    hide Without;
  }

  // ----- what each change keeps -----

  lemma ReplacedElements(children: seq<Element>, place: nat, e: Element, x: Element)
    requires Distinct(children) && place < |children| && e !in children
    ensures x in children[place := e] <==> (x in children && x != children[place]) || x == e
  {
    var c := children[place := e];
    assert c[place] == e;
    if x in children && x != children[place] {
      var k :| 0 <= k < |children| && children[k] == x;
      assert c[k] == x;
    }
  }

  lemma UpdatedCache(rendered: Cache, id: BlockId, e: Element, signature: string, x: Element)
    requires IsCached(rendered, x) && (id in rendered ==> rendered[id].element != x)
    ensures IsCached(rendered[id := Rendered(e, signature)], x)
  {
    var other :| other in rendered && rendered[other].element == x;
    assert rendered[id := Rendered(e, signature)][other].element == x;
  }

  lemma ReplacedDistinct(children: seq<Element>, place: nat, e: Element)
    requires Distinct(children) && place < |children| && e !in children
    ensures Distinct(children[place := e])
  {
  }

  lemma InjectiveUpdate(rendered: Cache, id: BlockId, e: Element, signature: string)
    requires forall a, b :: a in rendered && b in rendered && rendered[a].element == rendered[b].element ==> a == b
    requires forall a :: a in rendered ==> rendered[a].element != e
    ensures var r := rendered[id := Rendered(e, signature)];
            forall a, b :: a in r && b in r && r[a].element == r[b].element ==> a == b
  {
  }

  /** Each cached element other than the replaced one is still a child. */
  lemma ReplacedAttached(children: seq<Element>, rendered: Cache, id: BlockId, place: nat, e: Element, other: BlockId)
    requires InStep(children, rendered) && id in rendered && e !in children && other in rendered && other != id
    requires place < |children| && children[place] == rendered[id].element
    ensures rendered[other].element in children[place := e]
  {
    ReplacedElements(children, place, e, rendered[other].element);
  }

  lemma ReplacedKeeps(children: seq<Element>, rendered: Cache, id: BlockId, e: Element, signature: string)
    requires InStep(children, rendered) && id in rendered && e !in children
    ensures var place := IndexOf(children, rendered[id].element);
            && 0 <= place < |children|
            && InStepBut(children[place := e], rendered[id := Rendered(e, signature)], e)
  {
    var place := IndexOf(children, rendered[id].element);
    hide IndexOf;
    ReplacedAt(children, rendered, id, place, e, signature);
  }

  lemma ReplacedAt(children: seq<Element>, rendered: Cache, id: BlockId, place: nat, e: Element, signature: string)
    requires InStep(children, rendered) && id in rendered && e !in children
    requires place < |children| && children[place] == rendered[id].element
    ensures InStepBut(children[place := e], rendered[id := Rendered(e, signature)], e)
  {
    hide Distinct;
    hide IsCached;
    var c, r := children[place := e], rendered[id := Rendered(e, signature)];
    ReplacedDistinct(children, place, e);
    InjectiveUpdate(rendered, id, e, signature);
    forall x | x in c
      ensures IsCached(r, x)
    {
      ReplacedCached(children, rendered, id, place, e, signature, x);
    }
    forall other | other in rendered && other != id
      ensures rendered[other].element in c
    {
      ReplacedAttached(children, rendered, id, place, e, other);
    }
  }

  lemma ReplacedCached(children: seq<Element>, rendered: Cache, id: BlockId, place: nat, e: Element, signature: string, x: Element)
    requires ChildrenCached(children, rendered) && id in rendered && e !in children
    requires place < |children| && children[place] == rendered[id].element && x in children[place := e]
    ensures IsCached(rendered[id := Rendered(e, signature)], x)
  {
    ReplacedElements(children, place, e, x);
    if x == e {
      assert rendered[id := Rendered(e, signature)][id].element == x;
    } else {
      UpdatedCache(rendered, id, e, signature, x);
    }
  }

  lemma AddedKeeps(children: seq<Element>, rendered: Cache, id: BlockId, e: Element, signature: string)
    requires InStep(children, rendered) && id !in rendered && e !in children
    ensures InStepBut(children, rendered[id := Rendered(e, signature)], e)
  {
    var r := rendered[id := Rendered(e, signature)];
    forall x | x in children
      ensures IsCached(r, x)
    {
      assert IsCached(rendered, x);
      var other :| other in rendered && rendered[other].element == x;
      assert r[other].element == x;
    }
  }

  lemma PlacedInStep(children: seq<Element>, rendered: Cache, e: Element, k: nat)
    requires k <= |children| && e !in children[..k] && IsCached(rendered, e) && InStepBut(children, rendered, e)
    ensures InStep(Placed(children, e, k), rendered)
  {
    PlacedDistinct(children, e, k);
    forall x
      ensures x in Placed(children, e, k) <==> x in children || x == e
    {
      PlacedElements(children, e, k, x);
    }
    hide Placed;
    hide IsCached;
    hide Distinct;
  }

  lemma PlacedPrefix(children: seq<Element>, e: Element, k: nat)
    requires k <= |children|
    ensures var c := Placed(children, e, k);
            k < |c| && c[k] == e && c[..k] == children[..k] && forall i :: 0 <= i < k ==> c[i] == children[i]
  {
    hide Without;
  }

  /** Placing the current block's element attaches it and completes the first k + 1 children. */
  lemma PlacedKeeps(children: seq<Element>, rendered: Cache, blocks: seq<Block>, k: nat)
    requires k < |blocks| && DistinctIds(blocks) && Shown(children, rendered, blocks, k)
    requires blocks[k].id in rendered && rendered[blocks[k].id].signature == blocks[k].signature
    requires InStepBut(children, rendered, rendered[blocks[k].id].element)
    ensures var c := Placed(children, rendered[blocks[k].id].element, k);
            InStep(c, rendered) && Shown(c, rendered, blocks, k + 1) && c[..k] == children[..k]
  {
    hide Placed;
    var e := rendered[blocks[k].id].element;
    NotYetPlaced(children, rendered, blocks, k);
    assert IsCached(rendered, e);
    PlacedInStep(children, rendered, e, k);
    hide InStep;
    hide InStepBut;
    PlacedPrefix(children, e, k);
  }

  lemma NotYetPlaced(children: seq<Element>, rendered: Cache, blocks: seq<Block>, k: nat)
    requires k < |blocks| && DistinctIds(blocks) && Shown(children, rendered, blocks, k)
    requires blocks[k].id in rendered && ChildrenCached(children, rendered)
    ensures rendered[blocks[k].id].element !in children[..k]
  {
    forall i | 0 <= i < k
      ensures children[i] != rendered[blocks[k].id].element
    {
      assert rendered[blocks[i].id].element == children[i];
    }
  }

  /** Nothing moves when the element already stands at its position. */
  lemma AlreadyPlaced(children: seq<Element>, e: Element, at: nat)
    requires at < |children| && children[at] == e
    ensures Placed(children, e, at) == children
  {
    var tail := children[at..];
    assert tail[0] == e;
    assert IndexOf(tail, e) == 0;
    assert Without(tail, e) == tail[1..];
    assert children == children[..at] + [e] + tail[1..];
  }

  lemma RemovedKeeps(children: seq<Element>, rendered: Cache, id: BlockId)
    requires InStep(children, rendered) && id in rendered
    ensures InStep(Without(children, rendered[id].element), rendered - {id})
  {
    var e := rendered[id].element;
    WithoutElements(children, e);
    hide Without;
    var c, r := Without(children, e), rendered - {id};
    forall x | x in c
      ensures IsCached(r, x)
    {
      assert IsCached(rendered, x);
      var other :| other in rendered && rendered[other].element == x;
      assert other != id;
      assert other in r && r[other].element == x;
    }
  }

  lemma ShownStays(children: seq<Element>, rendered: Cache, blocks: seq<Block>, id: BlockId)
    requires InStep(children, rendered) && Shown(children, rendered, blocks, |blocks|)
    requires id in rendered && forall b :: b in blocks ==> b.id != id
    ensures var c := Without(children, rendered[id].element);
            Shown(c, rendered - {id}, blocks, |blocks|) && c[..|blocks|] == children[..|blocks|]
  {
    var e := rendered[id].element;
    forall i | 0 <= i < |blocks|
      ensures children[i] != e && blocks[i].id != id
    {
      assert blocks[i] in blocks;
      assert rendered[blocks[i].id].element == children[i];
    }
    WithoutPrefix(children, e, |blocks|);
    hide Without;
    var c := Without(children, e);
    assert forall i :: 0 <= i < |blocks| ==> c[i] == c[..|blocks|][i] == children[i];
  }

  /** With no other element cached, the children are the shown ones and nothing else. */
  lemma NothingElse(children: seq<Element>, rendered: Cache, blocks: seq<Block>)
    requires InStep(children, rendered) && Shown(children, rendered, blocks, |blocks|)
    requires forall id :: id in rendered ==> exists b :: b in blocks && b.id == id
    ensures |children| == |blocks|
  {
    if children != [] {
      var last := |children| - 1;
      assert IsCached(rendered, children[last]);
      var id :| id in rendered && rendered[id].element == children[last];
      var b :| b in blocks && b.id == id;
      var i :| 0 <= i < |blocks| && blocks[i] == b;
      assert children[i] == children[last];
    }
  }

  predicate Kept(before: Cache, block: Block) {
    block.id in before && before[block.id].signature == block.signature
  }

  class ContentView {
    var children: seq<Element>
    var rendered: Cache

    ghost predicate Valid()
      reads this
    {
      InStep(children, rendered)
    }

    constructor ()
      ensures Valid() && children == [] && rendered == map[]
    {
      children, rendered := [], map[];
    }

    /** The element for one block, kept if its signature is unchanged and otherwise rendered anew
        in the place of the old one, put at the block's position. */
    method Show(blocks: seq<Block>, k: nat)
      requires Valid() && DistinctIds(blocks) && k < |blocks| && Shown(children, rendered, blocks, k)
      modifies this
      ensures Valid() && Shown(children, rendered, blocks, k + 1) && children[..k] == old(children[..k])
      ensures if blocks[k].id in old(rendered) && old(rendered)[blocks[k].id].signature == blocks[k].signature
              then rendered == old(rendered)
              else fresh(children[k]) && rendered == old(rendered)[blocks[k].id := rendered[blocks[k].id]]
    {
      hide Distinct;
      hide IsCached;
      hide Placed;
      hide IndexOf;
      var block := blocks[k];
      ghost var before := children;
      if !Kept(rendered, block) {
        var element := new Element();
        assert element !in children;
        if block.id in rendered {
          var place := IndexOf(children, rendered[block.id].element);
          ReplacedKeeps(children, rendered, block.id, element, block.signature);
          NotYetPlaced(children, rendered, blocks, k);
          ghost var stale := rendered[block.id].element;
          assert forall i :: 0 <= i < k ==> children[..k][i] == children[i] != stale;
          children := children[place := element];
        } else {
          AddedKeeps(children, rendered, block.id, element, block.signature);
        }
        rendered := rendered[block.id := Rendered(element, block.signature)];
      }
      assert children[..k] == before[..k];
      assert forall i :: 0 <= i < k ==> children[i] == children[..k][i] == before[i];
      PlacedKeeps(children, rendered, blocks, k);
      var shown := rendered[block.id].element;
      if k >= |children| || children[k] != shown {
        children := Placed(children, shown, k);
      } else {
        AlreadyPlaced(children, shown, k);
      }
    }

    /** Rebuilding by reconciliation: afterwards the children are exactly the new blocks'
        elements in order, the cache holds exactly the new blocks, and a block whose id and
        signature were cached keeps its element. */
    method Reconcile(blocks: seq<Block>)
      requires Valid() && DistinctIds(blocks)
      modifies this
      ensures Valid()
      ensures |children| == |blocks|
      ensures forall k :: 0 <= k < |blocks| ==>
                blocks[k].id in rendered && rendered[blocks[k].id] == Rendered(children[k], blocks[k].signature)
      ensures rendered.Keys == set b | b in blocks :: b.id
      ensures forall k :: 0 <= k < |blocks| ==>
                if Kept(old(rendered), blocks[k]) then children[k] == old(rendered)[blocks[k].id].element
                else fresh(children[k])
    {
      hide InStep;
      hide Distinct;
      var position := 0;
      while position < |blocks|
        invariant 0 <= position <= |blocks| && Valid() && Shown(children, rendered, blocks, position)
        invariant forall k :: position <= k < |blocks| ==>
                    (blocks[k].id in rendered <==> blocks[k].id in old(rendered))
                    && (blocks[k].id in rendered ==> rendered[blocks[k].id] == old(rendered)[blocks[k].id])
        invariant forall k :: 0 <= k < position ==>
                    if Kept(old(rendered), blocks[k]) then children[k] == old(rendered)[blocks[k].id].element
                    else fresh(children[k])
      {
        ghost var placed := children[..position];
        Show(blocks, position);
        assert forall k :: 0 <= k < position ==> children[k] == children[..position][k] == placed[k];
        position := position + 1;
      }
      ghost var placed := children[..|blocks|];
      RemoveInactive(blocks);
      assert forall k :: 0 <= k < |blocks| ==> children[k] == children[..|blocks|][k] == placed[k];
    }

    /** Drops the cached elements of blocks that are no longer there. */
    method RemoveInactive(blocks: seq<Block>)
      requires Valid() && Shown(children, rendered, blocks, |blocks|)
      modifies this
      ensures Valid() && Shown(children, rendered, blocks, |blocks|) && |children| == |blocks|
      ensures children[..|blocks|] == old(children)[..|blocks|]
      ensures rendered.Keys == set b | b in blocks :: b.id
    {
      hide InStep;
      hide Distinct;
      hide Without;
      var active := set b | b in blocks :: b.id;
      var left := rendered.Keys - active;
      while left != {}
        invariant Valid() && Shown(children, rendered, blocks, |blocks|) && left == rendered.Keys - active
        invariant children[..|blocks|] == old(children)[..|blocks|]
        decreases left
      {
        var id :| id in left;
        RemovedKeeps(children, rendered, id);
        ShownStays(children, rendered, blocks, id);
        children := Without(children, rendered[id].element);
        rendered := rendered - {id};
        left := left - {id};
      }
      forall id | id in rendered
        ensures id in active
      {
        assert id !in left;
      }
      NothingElse(children, rendered, blocks);
      assert forall b :: b in blocks ==> b.id in rendered;
    }
  }
}
