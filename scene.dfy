/**
 * The scene: an arena of game objects indexed by stable ids. Each object keeps
 * a link to its parent and the ordered list of its children, as the engine's
 * transform hierarchy does; `Linked` says the two agree.
 */
module SceneGraph {
  import opened Wrappers
  import opened Shapes

  type Id = nat

  datatype Vec2 = Vec2(x: real, y: real)
  datatype Vec3 = Vec3(x: real, y: real, z: real)

  /** What the object is, with the state of the component it carries. */
  datatype Kind =
    | Plain
      /** The empty parent object of one barrier's pieces. */
    | PieceContainer
      /** A barrier with the `Barrier` component: its `Type`, `slotIndex` and `resident`. */
    | BarrierBody(barrierType: Shape, slotIndex: int, resident: Option<Id>)
    | Piece(piece: PieceKind)
      /** A player object: its shape, whether it has not yet touched a barrier, and its movement intent. */
    | PlayerBody(shape: Shape, newPlayer: bool, move: Vec2)

  /** A game object. `enabled` is the enabled flag of its script component. */
  datatype Entity = Entity(
    kind: Kind,
    tag: string,
    name: string,
    enabled: bool,
    parent: Option<Id>,
    children: seq<Id>,
    localPosition: Vec3,
    localScale: Vec3,
    velocity: Vec2)

  type World = map<Id, Entity>

  predicate IsPlayer(w: World, id: Id)
  {
    id in w && w[id].kind.PlayerBody?
  }

  /**
   * Parent links and child lists agree: every listed child exists and names
   * its lister as parent, and every parent exists, is another object, and lists the child.
   */
  ghost predicate Linked(w: World)
  {
    ChildrenKnown(w) && ParentsKnown(w)
  }

  ghost predicate ChildrenKnown(w: World)
  {
    forall a, b :: a in w && b in w[a].children ==> b in w && w[b].parent == Some(a)
  }

  ghost predicate ParentsKnown(w: World)
  {
    forall b :: b in w && w[b].parent.Some? ==> ParentLists(w, b, w[b].parent.value)
  }

  /** `q` is an object other than `b` that lists `b` among its children. */
  ghost predicate ParentLists(w: World, b: Id, q: Id)
  {
    q in w && q != b && b in w[q].children
  }

  /** A proper subset of a finite set is smaller. */
  lemma ProperSubsetSmaller(a: set<Id>, b: set<Id>)
    requires a < b
    ensures |a| < |b|
  {
    assert b - a != {} by {
      assert b != a;
    }
    var x :| x in b - a;
    SubsetNoLarger(a, b - {x});
  }

  lemma {:induction false} SubsetNoLarger(a: set<Id>, b: set<Id>)
    requires a <= b
    ensures |a| <= |b|
    decreases |a|
  {
    if a != {} {
      var y :| y in a;
      SubsetNoLarger(a - {y}, b - {y});
    }
  }

  /** The elements of `s` not in `gone`, in their order. */
  function FilterOut(s: seq<Id>, gone: set<Id>): (r: seq<Id>)
    ensures forall y :: y in r <==> y in s && y !in gone
    ensures |r| <= |s|
  {
    if s == [] then []
    else if s[0] in gone then FilterOut(s[1..], gone)
    else [s[0]] + FilterOut(s[1..], gone)
  }

  /** `w` with a new object `e` under id `id`, appended last to its parent's children. */
  function Added(w: World, id: Id, e: Entity): World
    requires id !in w
    requires e.parent.Some? ==> e.parent.value in w
  {
    var w1 := if e.parent.Some? then w[e.parent.value := w[e.parent.value].(children := w[e.parent.value].children + [id])] else w;
    w1[id := e]
  }

  /** `SetParent(c, p)`: `c` leaves its old parent's children and becomes the last child of `p`. */
  function Reparented(w: World, c: Id, p: Id): World
    requires c in w && p in w && c != p
  {
    var q := w[c].parent;
    var w1 := if q.Some? && q.value in w then w[q.value := w[q.value].(children := FilterOut(w[q.value].children, {c}))] else w;
    var w2 := w1[p := w1[p].(children := w1[p].children + [c])];
    w2[c := w2[c].(parent := Some(p))]
  }

  /** `DetachChildren(p)`: every child of `p` loses its parent; `p` has no children left. */
  function Detached(w: World, p: Id): World
    requires p in w
  {
    map x | x in w :: if x == p then w[x].(children := [])
                      else if w[x].parent == Some(p) then w[x].(parent := None)
                      else w[x]
  }

  /** The objects whose parent lies in `s`. */
  function ChildrenOf(w: World, s: set<Id>): set<Id>
  {
    set c | c in w && w[c].parent.Some? && w[c].parent.value in s
  }

  /** No object outside `t` has its parent inside `t`. */
  ghost predicate Closed(w: World, t: set<Id>)
  {
    forall c :: c in w && w[c].parent.Some? && w[c].parent.value in t ==> c in t
  }

  /** The objects of `s` with all their descendants. */
  function Closure(w: World, s: set<Id>): (r: set<Id>)
    requires s <= w.Keys
    ensures s <= r <= w.Keys
    ensures Closed(w, r)
    decreases |w.Keys - s|
  {
    var next := s + ChildrenOf(w, s);
    if next == s then s
    else
      ProperSubsetSmaller(w.Keys - next, w.Keys - s);
      Closure(w, next)
  }

  /** Every set that holds `s` and is closed under children holds all of `s`'s descendants. */
  lemma {:induction false} ClosureLeast(w: World, s: set<Id>, t: set<Id>)
    requires s <= w.Keys && s <= t && Closed(w, t)
    ensures Closure(w, s) <= t
    decreases |w.Keys - s|
  {
    var next := s + ChildrenOf(w, s);
    if next != s {
      ProperSubsetSmaller(w.Keys - next, w.Keys - s);
      ClosureLeast(w, next, t);
    }
  }

  /** An object with all its descendants: what `Destroy` removes. */
  function Subtree(w: World, root: Id): (r: set<Id>)
    ensures r <= w.Keys && Closed(w, r)
    ensures root in w <==> root in r
  {
    if root in w then Closure(w, {root}) else {}
  }

  /** `Destroy(root)`: the object and its descendants disappear, and from every child list. */
  function Removed(w: World, root: Id): World
  {
    var gone := Subtree(w, root);
    map x | x in w && x !in gone :: w[x].(children := FilterOut(w[x].children, gone))
  }

  lemma AddedLinked(w: World, id: Id, e: Entity)
    requires Linked(w) && id !in w
    requires e.parent.Some? ==> e.parent.value in w
    requires e.children == []
    ensures Linked(Added(w, id, e))
  {
    var w' := Added(w, id, e);
    forall a, b | a in w' && b in w'[a].children
      ensures b in w' && w'[b].parent == Some(a)
    {
      if a != id && !(e.parent == Some(a) && b == id) {
        assert b in w[a].children;
      }
    }
  }

  lemma {:induction false} ReparentedLinked(w: World, c: Id, p: Id)
    requires Linked(w) && c in w && p in w && c != p
    ensures Linked(Reparented(w, c, p))
  {
    var w' := Reparented(w, c, p);
    assert w'.Keys == w.Keys;
    assert w'[c].parent == Some(p) && c in w'[p].children;
    forall x | x in w && x != c
      ensures w'[x].parent == w[x].parent
      ensures forall y :: y in w'[x].children <==> (y in w[x].children && y != c) || (x == p && y == c)
    {
    }
    assert ChildrenKnown(w') by {
      forall a, b | a in w' && b in w'[a].children
        ensures b in w' && w'[b].parent == Some(a)
      {
        if b != c {
          assert b in w[a].children;
        }
      }
    }
    assert ParentsKnown(w') by {
      forall b | b in w' && w'[b].parent.Some?
        ensures ParentLists(w', b, w'[b].parent.value)
      {
        if b != c {
          var q := w[b].parent.value;
          assert ParentLists(w, b, q);
        }
      }
    }
  }

  lemma {:induction false} DetachedLinked(w: World, p: Id)
    requires Linked(w) && p in w
    ensures Linked(Detached(w, p))
  {
    var w' := Detached(w, p);
    assert ChildrenKnown(w') by {
      forall a, b | a in w' && b in w'[a].children
        ensures b in w' && w'[b].parent == Some(a)
      {
        assert a != p && w'[a].children == w[a].children;
        assert b in w && w[b].parent == Some(a);
      }
    }
    assert ParentsKnown(w') by {
      forall b | b in w' && w'[b].parent.Some?
        ensures ParentLists(w', b, w'[b].parent.value)
      {
        var q := w'[b].parent.value;
        assert w[b].parent == Some(q) && q != p;
        assert ParentLists(w, b, q);
      }
    }
  }

  lemma {:induction false} RemovedLinked(w: World, root: Id)
    requires Linked(w)
    ensures Linked(Removed(w, root))
  {
    var gone := Subtree(w, root);
    var w' := Removed(w, root);
    assert ChildrenKnown(w') by {
      forall a, b | a in w' && b in w'[a].children
        ensures b in w' && w'[b].parent == Some(a)
      {
        assert b in w[a].children && b !in gone;
      }
    }
    assert ParentsKnown(w') by {
      forall b | b in w' && w'[b].parent.Some?
        ensures ParentLists(w', b, w'[b].parent.value)
      {
        var q := w[b].parent.value;
        assert ParentLists(w, b, q);
        assert q !in gone;
      }
    }
  }

  /** Writing fields outside the hierarchy keeps the links. */
  lemma StoreLinked(w: World, id: Id, e: Entity)
    requires Linked(w) && id in w
    requires e.parent == w[id].parent && e.children == w[id].children
    ensures Linked(w[id := e])
  {
    var w' := w[id := e];
    assert ChildrenKnown(w') by {
      forall a, b | a in w' && b in w'[a].children
        ensures b in w' && w'[b].parent == Some(a)
      {
        assert b in w[a].children;
      }
    }
    assert ParentsKnown(w') by {
      forall b | b in w' && w'[b].parent.Some?
        ensures ParentLists(w', b, w'[b].parent.value)
      {
        assert ParentLists(w, b, w[b].parent.value);
      }
    }
  }

  /** Adding an object changes only its parent's child list. */
  lemma AddedFacts(w: World, id: Id, e: Entity)
    requires id !in w
    requires e.parent.Some? ==> e.parent.value in w
    ensures var r := Added(w, id, e);
      && r.Keys == w.Keys + {id} && r[id] == e
      && (e.parent.Some? ==> r[e.parent.value] == w[e.parent.value].(children := w[e.parent.value].children + [id]))
      && (forall x :: x in w && Some(x) != e.parent ==> r[x] == w[x])
  {
  }

  /** Detaching changes only parent links to `p` and `p`'s own child list. */
  lemma DetachedFacts(w: World, p: Id)
    requires p in w
    ensures var r := Detached(w, p);
      && r.Keys == w.Keys && r[p].children == []
      && (forall x :: x in w ==> r[x].kind == w[x].kind && r[x].enabled == w[x].enabled && r[x].name == w[x].name)
      && (forall x :: x in w && x != p ==> r[x].children == w[x].children)
      && (forall x :: x in w && x != p && w[x].parent == Some(p) ==> r[x].parent == None)
      && (forall x :: x in w && w[x].parent != Some(p) ==> r[x].parent == w[x].parent)
  {
  }

  /** Reparenting changes only the moved object's parent and the two child lists involved. */
  lemma ReparentedFacts(w: World, c: Id, p: Id)
    requires c in w && p in w && c != p
    ensures var r := Reparented(w, c, p);
      && r.Keys == w.Keys && r[c].parent == Some(p)
      && (w[p].children == [] ==> r[p].children == [c])
      && (forall x :: x in w ==> r[x].kind == w[x].kind && r[x].enabled == w[x].enabled && r[x].name == w[x].name)
      && (forall x :: x in w && x != c ==> r[x].parent == w[x].parent)
  {
    assert FilterOut([], {c}) == [];
  }

  /** Exactly the subtree of `root` disappears; every other object keeps its fields, and loses only removed children. */
  lemma RemovedKeeps(w: World, root: Id, x: Id)
    ensures x in Removed(w, root) <==> x in w && x !in Subtree(w, root)
    ensures x in Removed(w, root) ==>
      Removed(w, root)[x] == w[x].(children := FilterOut(w[x].children, Subtree(w, root)))
  {
  }

  /**
   * Removing objects, while the survivors keep their parents, can only shrink
   * the subtree of an object that survives.
   */
  lemma {:induction false} SubtreeShrinks(w: World, w': World, y: Id)
    requires w'.Keys <= w.Keys
    requires forall x :: x in w' ==> w'[x].parent == w[x].parent
    ensures Subtree(w', y) <= Subtree(w, y)
  {
    if y in w' {
      var t := Subtree(w, y) * w'.Keys;
      assert Closed(w', t) by {
        forall c | c in w' && w'[c].parent.Some? && w'[c].parent.value in t
          ensures c in t
        {
          assert c in w && w[c].parent == w'[c].parent;
        }
      }
      ClosureLeast(w', {y}, t);
    }
  }

  class Scene {
    var entities: World
    var nextId: Id

    ghost predicate Valid()
      reads this
    {
      Linked(entities) && forall id :: id in entities ==> id < nextId
    }

    constructor ()
      ensures Valid() && entities == map[]
    {
      entities := map[];
      nextId := 0;
    }

    /** Creates an object from a prefab, as the last child of its parent when it has one. */
    method Instantiate(e: Entity) returns (id: Id)
      requires Valid()
      requires e.children == []
      requires e.parent.Some? ==> e.parent.value in entities
      modifies this
      ensures Valid()
      ensures id !in old(entities)
      ensures entities == Added(old(entities), id, e)
    {
      id := nextId;
      AddedLinked(entities, id, e);
      entities := Added(entities, id, e);
      nextId := nextId + 1;
    }

    /** Writes the fields of an object that do not belong to the hierarchy. */
    method Store(id: Id, e: Entity)
      requires Valid() && id in entities
      requires e.parent == entities[id].parent && e.children == entities[id].children
      modifies this
      ensures Valid()
      ensures entities == old(entities)[id := e]
    {
      StoreLinked(entities, id, e);
      entities := entities[id := e];
    }

    method SetParent(c: Id, p: Id)
      requires Valid() && c in entities && p in entities && c != p
      modifies this
      ensures Valid()
      ensures entities == Reparented(old(entities), c, p)
    {
      ReparentedLinked(entities, c, p);
      entities := Reparented(entities, c, p);
    }

    method DetachChildren(p: Id)
      requires Valid() && p in entities
      modifies this
      ensures Valid()
      ensures entities == Detached(old(entities), p)
    {
      DetachedLinked(entities, p);
      entities := Detached(entities, p);
    }

    /** Destroys an object and its descendants; destroying an object that is gone does nothing. */
    method Destroy(root: Id)
      requires Valid()
      modifies this
      ensures Valid()
      ensures entities == Removed(old(entities), root)
    {
      RemovedLinked(entities, root);
      entities := Removed(entities, root);
    }
  }
}
