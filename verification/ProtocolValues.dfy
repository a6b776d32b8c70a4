/** Which in-memory values may become messages: a search through a graph of objects that may be shared or cyclic. */
module ProtocolValues {
  import opened Basics
  import opened Cbor

  /** A value is missing, a leaf (null, a boolean, a number or a string), something else that is no object, or an
      object. */
  datatype Item = Missing | Leaf(leaf: Value) | Foreign | Object(id: nat)

  datatype Property = Property(key: string, item: Item)

  /** An array, with holes; an object with the default prototype, by its own enumerable properties; or any other. */
  datatype Node = Array(items: seq<Option<Item>>) | Plain(properties: seq<Property>) | Exotic

  type Graph = map<nat, Node>

  predicate Simple(v: Value) {
    v.Null? || v.Bool? || v.Integer? || v.Float? || v.Text?
  }

  predicate Known(g: Graph, v: Item) {
    (v.Object? ==> v.id in g) && (v.Leaf? ==> Simple(v.leaf))
  }

  predicate OwnKeys(properties: seq<Property>) {
    forall i, j | 0 <= i < j < |properties| :: properties[i].key != properties[j].key
  }

  predicate Closed(g: Graph) {
    forall id | id in g ::
      match g[id]
      case Array(items) => forall i | 0 <= i < |items| && items[i].Some? :: Known(g, items[i].value)
      case Plain(properties) => OwnKeys(properties) && forall i | 0 <= i < |properties| :: Known(g, properties[i].item)
      case Exotic => true
  }

  /** The search, with the objects it is inside of. */
  ghost predicate Accepts(g: Graph, v: Item, optional: bool, ancestors: set<nat>)
    requires Closed(g) && Known(g, v)
    decreases g.Keys - ancestors
  {
    match v
    case Missing => optional
    case Leaf(_) => true
    case Foreign => false
    case Object(id) =>
      id !in ancestors &&
      match g[id]
      case Array(items) =>
        forall i | 0 <= i < |items| && items[i].Some? :: Accepts(g, items[i].value, false, ancestors + {id})
      case Plain(properties) =>
        forall i | 0 <= i < |properties| :: Accepts(g, properties[i].item, true, ancestors + {id})
      case Exotic => false
  }

  class ObjectSet {
    var ids: set<nat>

    constructor ()
      ensures ids == {}
    {
      ids := {};
    }
  }

  /** The search as it runs: one set of ancestors is added to and removed from. It ends on every finite graph. */
  method IsProtocolValue(g: Graph, v: Item, optionalProperty: bool, ancestors: ObjectSet) returns (ok: bool)
    requires Closed(g) && Known(g, v)
    modifies ancestors
    ensures ancestors.ids == old(ancestors.ids)
    ensures ok == Accepts(g, v, optionalProperty, old(ancestors.ids))
    decreases g.Keys - ancestors.ids
  {
    if v.Missing? {
      return optionalProperty;
    }
    if v.Leaf? {
      return true;
    }
    if !v.Object? || v.id in ancestors.ids {
      return false;
    }
    ancestors.ids := ancestors.ids + {v.id};
    ok := true;
    match g[v.id] {
      case Array(items) =>
        for i := 0 to |items|
          invariant ancestors.ids == old(ancestors.ids) + {v.id} && ok
          invariant forall j | 0 <= j < i && items[j].Some? :: Accepts(g, items[j].value, false, ancestors.ids)
        {
          if items[i].Some? {
            ok := IsProtocolValue(g, items[i].value, false, ancestors);
            if !ok {
              break;
            }
          }
        }
      case Plain(properties) =>
        for i := 0 to |properties|
          invariant ancestors.ids == old(ancestors.ids) + {v.id} && ok
          invariant forall j | 0 <= j < i :: Accepts(g, properties[j].item, true, ancestors.ids)
        {
          ok := IsProtocolValue(g, properties[i].item, true, ancestors);
          if !ok {
            break;
          }
        }
      case Exotic => ok := false;
    }
    ancestors.ids := ancestors.ids - {v.id};
  }

  // ---- What the search decides ----

  predicate Edge(g: Graph, a: nat, b: nat)
    requires a in g
  {
    match g[a]
    case Array(items) => exists i :: 0 <= i < |items| && items[i] == Some(Object(b))
    case Plain(properties) => exists i :: 0 <= i < |properties| && properties[i].item == Object(b)
    case Exotic => false
  }

  /** An object with allowed leaves: an array or a plain object, with undefined only as a property. */
  predicate Fine(g: Graph, id: nat)
    requires id in g
  {
    match g[id]
    case Array(items) => forall i | 0 <= i < |items| && items[i].Some? :: items[i].value.Leaf? || items[i].value.Object?
    case Plain(properties) => forall i | 0 <= i < |properties| :: !properties[i].item.Foreign?
    case Exotic => false
  }

  /** A way through the graph from one object into its parts. */
  ghost predicate Path(g: Graph, p: seq<nat>) {
    p != [] && (forall i | 0 <= i < |p| :: p[i] in g) && forall i | 0 <= i < |p| - 1 :: Edge(g, p[i], p[i + 1])
  }

  predicate NoRepeat(p: seq<nat>) {
    forall i, j | 0 <= i < j < |p| :: p[i] != p[j]
  }

  lemma {:induction false} AcceptedPathsAreClear(g: Graph, id: nat, optional: bool, ancestors: set<nat>, p: seq<nat>)
    requires Closed(g) && id in g && Accepts(g, Object(id), optional, ancestors)
    requires Path(g, p) && p[0] == id
    ensures NoRepeat(p) && forall i | 0 <= i < |p| :: p[i] !in ancestors && Fine(g, p[i])
    decreases |p|
  {
    if |p| > 1 {
      assert Edge(g, id, p[1]);
      var rest := p[1..];
      assert forall i | 0 <= i < |rest| - 1 :: Edge(g, rest[i], rest[i + 1]) by {
        assert forall i | 0 <= i < |rest| :: rest[i] == p[i + 1];
      }
      AcceptedPathsAreClear(g, p[1], g[id].Plain?, ancestors + {id}, rest);
      assert forall i | 0 < i < |p| :: p[i] == rest[i - 1];
    }
  }

  /** Why a search fails: a way to an object that it is inside of, or that is not fine. */
  ghost predicate Bad(g: Graph, p: seq<nat>, ancestors: set<nat>)
    requires Path(g, p)
  {
    var last := p[|p| - 1];
    last in ancestors || last in p[..|p| - 1] || !Fine(g, last)
  }

  lemma {:induction false} RejectionHasAPath(g: Graph, id: nat, optional: bool, ancestors: set<nat>)
    returns (p: seq<nat>)
    requires Closed(g) && id in g && !Accepts(g, Object(id), optional, ancestors)
    ensures Path(g, p) && p[0] == id && Bad(g, p, ancestors)
    decreases g.Keys - ancestors
  {
    p := [id];
    if id !in ancestors && Fine(g, id) {
      var c := RejectedPart(g, id, ancestors);
      var rest := RejectionHasAPath(g, c, g[id].Plain?, ancestors + {id});
      p := [id] + rest;
      assert forall i | 0 < i < |p| :: p[i] == rest[i - 1];
      assert Path(g, p);
      assert p[..|p| - 1] == [id] + rest[..|rest| - 1];
    }
  }

  lemma RejectedPart(g: Graph, id: nat, ancestors: set<nat>) returns (c: nat)
    requires Closed(g) && id in g && id !in ancestors && Fine(g, id)
    requires !Accepts(g, Object(id), false, ancestors) || !Accepts(g, Object(id), true, ancestors)
    ensures c in g && Edge(g, id, c) && !Accepts(g, Object(c), g[id].Plain?, ancestors + {id})
  {
    match g[id]
    case Array(items) =>
      var i :| 0 <= i < |items| && items[i].Some? && !Accepts(g, items[i].value, false, ancestors + {id});
      c := items[i].value.id;
    case Plain(properties) =>
      var i :| 0 <= i < |properties| && !Accepts(g, properties[i].item, true, ancestors + {id});
      c := properties[i].item.id;
  }

  /** An object is accepted exactly when no way from it into its parts meets an object twice, and every object on such a
      way is an array or a plain object with allowed leaves, where undefined occurs only as a property. Sharing does not
      matter. */
  lemma AcceptedIffAcyclicAndFine(g: Graph, id: nat, optional: bool)
    requires Closed(g) && id in g
    ensures Accepts(g, Object(id), optional, {}) <==>
      forall p | Path(g, p) && p[0] == id :: NoRepeat(p) && Fine(g, p[|p| - 1])
  {
    if Accepts(g, Object(id), optional, {}) {
      forall p | Path(g, p) && p[0] == id
        ensures NoRepeat(p) && Fine(g, p[|p| - 1])
      {
        AcceptedPathsAreClear(g, id, optional, {}, p);
      }
    } else {
      var p := RejectionHasAPath(g, id, optional, {});
      assert !(NoRepeat(p) && Fine(g, p[|p| - 1]));
    }
  }

  // ---- Objects as trees ----

  /** A tree of the values that messages are made of: no byte strings, and undefined only as a property. */
  predicate ProtocolTree(v: Value, optionalProperty: bool)
    decreases v
  {
    match v
    case Undefined => optionalProperty
    case List(items) => forall i | 0 <= i < |items| :: ProtocolTree(items[i], false)
    case Map(entries) => DistinctKeys(entries) && forall i | 0 <= i < |entries| :: ProtocolTree(entries[i].value, true)
    case Bytes(_) => false
    case Unsupported => false
    case _ => true
  }

  /** The tree that an object stands for. A hole, a cycle, or anything that no tree stands for becomes an unsupported
      value. */
  function Unfold(g: Graph, v: Item, ancestors: set<nat>): Value
    requires Closed(g) && Known(g, v)
    decreases g.Keys - ancestors
  {
    match v
    case Missing => Undefined
    case Leaf(leaf) => leaf
    case Foreign => Unsupported
    case Object(id) =>
      if id in ancestors then Unsupported
      else
        match g[id]
        case Array(items) =>
          List(seq(|items|, i requires 0 <= i < |items| =>
            if items[i].None? then Unsupported else Unfold(g, items[i].value, ancestors + {id})))
        case Plain(properties) =>
          Map(seq(|properties|, i requires 0 <= i < |properties| =>
            Entry(properties[i].key, Unfold(g, properties[i].item, ancestors + {id}))))
        case Exotic => Unsupported
  }

  /** No array that the search looks into has a hole. */
  ghost predicate Unbroken(g: Graph, v: Item, ancestors: set<nat>)
    requires Closed(g) && Known(g, v)
    decreases g.Keys - ancestors
  {
    v.Object? && v.id !in ancestors ==>
      match g[v.id]
      case Array(items) =>
        forall i | 0 <= i < |items| :: items[i].Some? && Unbroken(g, items[i].value, ancestors + {v.id})
      case Plain(properties) => forall i | 0 <= i < |properties| :: Unbroken(g, properties[i].item, ancestors + {v.id})
      case Exotic => true
  }

  /** The search accepts an object without holes exactly when the tree that the object stands for is one of protocol
      values. */
  lemma {:induction false} AcceptedIffTree(g: Graph, v: Item, optional: bool, ancestors: set<nat>)
    requires Closed(g) && Known(g, v)
    ensures ProtocolTree(Unfold(g, v, ancestors), optional) <==>
      Accepts(g, v, optional, ancestors) && Unbroken(g, v, ancestors)
    decreases g.Keys - ancestors
  {
    if v.Object? && v.id !in ancestors {
      match g[v.id]
      case Array(items) => ArrayIffTree(g, v.id, optional, ancestors);
      case Plain(properties) => PlainIffTree(g, v.id, optional, ancestors);
      case Exotic =>
    }
  }

  lemma {:induction false} ArrayIffTree(g: Graph, id: nat, optional: bool, ancestors: set<nat>)
    requires Closed(g) && id in g && id !in ancestors && g[id].Array?
    ensures ProtocolTree(Unfold(g, Object(id), ancestors), optional) <==>
      Accepts(g, Object(id), optional, ancestors) && Unbroken(g, Object(id), ancestors)
    decreases g.Keys - ancestors, 0
  {
    var items, tree := g[id].items, Unfold(g, Object(id), ancestors);
    forall i | 0 <= i < |items|
      ensures ProtocolTree(tree.items[i], false) <==>
        items[i].Some? && Accepts(g, items[i].value, false, ancestors + {id}) &&
          Unbroken(g, items[i].value, ancestors + {id})
    {
      if items[i].Some? {
        AcceptedIffTree(g, items[i].value, false, ancestors + {id});
      }
    }
  }

  lemma {:induction false} PlainIffTree(g: Graph, id: nat, optional: bool, ancestors: set<nat>)
    requires Closed(g) && id in g && id !in ancestors && g[id].Plain?
    ensures ProtocolTree(Unfold(g, Object(id), ancestors), optional) <==>
      Accepts(g, Object(id), optional, ancestors) && Unbroken(g, Object(id), ancestors)
    decreases g.Keys - ancestors, 0
  {
    var properties, tree := g[id].properties, Unfold(g, Object(id), ancestors);
    assert DistinctKeys(tree.entries);
    forall i | 0 <= i < |properties|
      ensures ProtocolTree(tree.entries[i].value, true) <==>
        Accepts(g, properties[i].item, true, ancestors + {id}) && Unbroken(g, properties[i].item, ancestors + {id})
    {
      AcceptedIffTree(g, properties[i].item, true, ancestors + {id});
    }
  }
}
