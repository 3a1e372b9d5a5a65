/**
 * What sanitizing keeps, on every graph that unfolds to a finite shape: each allowed field of each object down to eight
 * levels whose value can be kept, in order, and nothing else. The `seen` set plays no part in it.
 */
module AuditOutcomes {
  import opened Wrappers
  import opened AuditSanitizer

  /** A finite input: scalars, values no JSON can hold, arrays and plain objects. */
  datatype Shape = Leaf(value: Json) | Dropped | List(items: seq<Shape>) | Plain(fields: seq<ShapeField>)
  datatype ShapeField = ShapeField(key: string, value: Shape)

  predicate IsScalar(r: Ref, v: Json) {
    match v
    case JNull => r.NullRef?
    case JBool(b) => r == BoolRef(b)
    case JText(text) => r == TextRef(text)
    case JNumber(token) => r == NumberRef(token)
    case _ => false
  }

  /** The graph at `r` unfolds to the shape; anything but a scalar, an array or a plain object counts as dropped. */
  ghost predicate Depicts(g: Graph, r: Ref, s: Shape)
    decreases s
  {
    match s
    case Leaf(v) => IsScalar(r, v)
    case Dropped => r.DroppedRef? || (r.NodeRef? && !IsArray(g, r) && !IsPlainObject(g, r))
    case List(items) =>
      IsArray(g, r) && |g[r.id].items| == |items| && forall i :: 0 <= i < |items| ==> Depicts(g, g[r.id].items[i], items[i])
    case Plain(fields) =>
      IsPlainObject(g, r) && |g[r.id].properties| == |fields|
      && forall i :: 0 <= i < |fields| ==>
           g[r.id].properties[i].key == fields[i].key && Depicts(g, g[r.id].properties[i].value, fields[i].value)
  }

  // ---------------------------------------------------------------- pruning, on the shape alone

  /** What is left of a value with `levels` levels of containers to go. */
  function Pruned(allow: string -> bool, s: Shape, levels: nat): Option<Json>
    decreases s, 1, 0
  {
    match s
    case Leaf(v) => Some(v)
    case Dropped => None
    case List(items) => if levels == 0 then None else Some(JArray(PrunedItems(allow, s, |items|, levels - 1)))
    case Plain(fields) => if levels == 0 then None else Some(JObject(PrunedFields(allow, s, |fields|, levels - 1)))
  }

  function PrunedItems(allow: string -> bool, s: Shape, n: nat, levels: nat): seq<Json>
    requires s.List? && n <= |s.items|
    decreases s, 0, n
  {
    if n == 0 then []
    else
      var value := Pruned(allow, s.items[n - 1], levels);
      PrunedItems(allow, s, n - 1, levels) + (if value.Some? then [value.value] else [])
  }

  function PrunedFields(allow: string -> bool, s: Shape, n: nat, levels: nat): seq<Field>
    requires s.Plain? && n <= |s.fields|
    decreases s, 0, n
  {
    if n == 0 then []
    else
      var value := Pruned(allow, s.fields[n - 1].value, levels);
      PrunedFields(allow, s, n - 1, levels)
      + (if allow(s.fields[n - 1].key) && value.Some? then [Field(s.fields[n - 1].key, value.value)] else [])
  }

  /** A value is kept exactly if it is a scalar, or an array or plain object that is not too deep. */
  lemma KeptIff(allow: string -> bool, s: Shape, levels: nat)
    ensures Pruned(allow, s, levels).Some? <==> s.Leaf? || (levels > 0 && (s.List? || s.Plain?))
  {
  }

  lemma {:induction false} FieldsKept(allow: string -> bool, s: Shape, n: nat, levels: nat, f: Field)
    requires s.Plain? && n <= |s.fields|
    ensures f in PrunedFields(allow, s, n, levels)
       <==> exists i :: 0 <= i < n && allow(s.fields[i].key) && s.fields[i].key == f.key && Pruned(allow, s.fields[i].value, levels) == Some(f.value)
    decreases n
  {
    if n > 0 { FieldsKept(allow, s, n - 1, levels, f); }
  }

  /** An object keeps exactly its allowed fields with a value that can be kept: a disallowed neighbour takes nothing with it. */
  lemma ObjectKeeps(allow: string -> bool, s: Shape, levels: nat, f: Field)
    requires s.Plain? && levels > 0
    ensures Pruned(allow, s, levels).Some? && Pruned(allow, s, levels).value.JObject?
    ensures f in Pruned(allow, s, levels).value.fields
       <==> exists i :: 0 <= i < |s.fields| && allow(s.fields[i].key) && s.fields[i].key == f.key
              && Pruned(allow, s.fields[i].value, levels - 1) == Some(f.value)
  {
    FieldsKept(allow, s, |s.fields|, levels - 1, f);
  }

  // ---------------------------------------------------------------- sanitizing is pruning

  lemma {:induction false} DepictsOne(g: Graph, r: Ref, s: Shape, u: Shape)
    requires Depicts(g, r, s) && Depicts(g, r, u)
    ensures s == u
    decreases s
  {
    match s
    case List(items) =>
      forall i | 0 <= i < |items| ensures items[i] == u.items[i] {
        DepictsOne(g, g[r.id].items[i], items[i], u.items[i]);
      }
      assert items == u.items;
    case Plain(fields) =>
      forall i | 0 <= i < |fields| ensures fields[i] == u.fields[i] {
        DepictsOne(g, g[r.id].properties[i].value, fields[i].value, u.fields[i].value);
      }
      assert fields == u.fields;
    case _ =>
  }

  /** Every node on the way down stands for a shape that properly contains the current one. */
  ghost predicate Above(g: Graph, seen: set<nat>, s: Shape) {
    forall id :: id in seen ==> exists u :: Depicts(g, NodeRef(id), u) && s < u
  }

  lemma NotSeenAbove(g: Graph, id: nat, seen: set<nat>, s: Shape)
    requires Depicts(g, NodeRef(id), s) && Above(g, seen, s)
    ensures id !in seen
  {
    if id in seen {
      var u :| Depicts(g, NodeRef(id), u) && s < u;
      DepictsOne(g, NodeRef(id), s, u);
    }
  }

  lemma AboveExtends(g: Graph, seen: set<nat>, id: nat, s: Shape, child: Shape)
    requires Above(g, seen, s) && Depicts(g, NodeRef(id), s) && child < s
    ensures Above(g, seen + {id}, child) && Above(g, seen, child)
  {
    forall other | other in seen + {id} ensures exists u :: Depicts(g, NodeRef(other), u) && child < u {
      if other in seen {
        var u :| Depicts(g, NodeRef(other), u) && s < u;
        assert child < u;
      }
    }
  }

  lemma {:induction false} ValueIsPruned(allow: string -> bool, g: Graph, r: Ref, s: Shape, depth: nat, seen: set<nat>)
    requires Depicts(g, r, s) && Above(g, seen, s)
    ensures SanitizedValue(allow, g, r, depth, seen) == Pruned(allow, s, Room(depth))
    decreases s, 1, 0
  {
    if depth < MAX_DEPTH {
      if s.List? {
        ItemsArePruned(allow, g, r, s, |s.items|, depth, seen);
        assert g[r.id].items[..|s.items|] == g[r.id].items;
      } else if s.Plain? {
        NotSeenAbove(g, r.id, seen, s);
        FieldsArePruned(allow, g, r, s, |s.fields|, depth, seen);
        assert g[r.id].properties[..|s.fields|] == g[r.id].properties;
      }
    }
  }

  lemma NextItemIsPruned(allow: string -> bool, g: Graph, items: seq<Ref>, s: Shape, n: nat, depth: nat, seen: set<nat>)
    requires depth < MAX_DEPTH && s.List? && 0 < n <= |s.items| && n <= |items|
    requires SanitizedItems(allow, g, items[..n - 1], depth, seen) == PrunedItems(allow, s, n - 1, Room(depth) - 1)
    requires SanitizedValue(allow, g, items[n - 1], depth + 1, seen) == Pruned(allow, s.items[n - 1], Room(depth) - 1)
    ensures SanitizedItems(allow, g, items[..n], depth, seen) == PrunedItems(allow, s, n, Room(depth) - 1)
  {
    assert items[..n][..n - 1] == items[..n - 1];
  }

  lemma {:induction false} ItemsArePruned(allow: string -> bool, g: Graph, r: Ref, s: Shape, n: nat, depth: nat, seen: set<nat>)
    requires s.List? && n <= |s.items| && Depicts(g, r, s) && Above(g, seen, s) && depth < MAX_DEPTH
    ensures SanitizedItems(allow, g, g[r.id].items[..n], depth, seen) == PrunedItems(allow, s, n, Room(depth) - 1)
    decreases s, 0, n
  {
    if n > 0 {
      ItemsArePruned(allow, g, r, s, n - 1, depth, seen);
      AboveExtends(g, seen, r.id, s, s.items[n - 1]);
      ValueIsPruned(allow, g, g[r.id].items[n - 1], s.items[n - 1], depth + 1, seen);
      NextItemIsPruned(allow, g, g[r.id].items, s, n, depth, seen);
    }
  }

  /** One more property, one more pruned field. */
  lemma NextFieldIsPruned(allow: string -> bool, g: Graph, properties: seq<Property>, s: Shape, n: nat, depth: nat, seen: set<nat>)
    requires depth < MAX_DEPTH && s.Plain? && 0 < n <= |s.fields| && n <= |properties|
    requires properties[n - 1].key == s.fields[n - 1].key
    requires SanitizedFields(allow, g, properties[..n - 1], depth, seen) == PrunedFields(allow, s, n - 1, Room(depth) - 1)
    requires SanitizedValue(allow, g, properties[n - 1].value, depth + 1, seen) == Pruned(allow, s.fields[n - 1].value, Room(depth) - 1)
    ensures SanitizedFields(allow, g, properties[..n], depth, seen) == PrunedFields(allow, s, n, Room(depth) - 1)
  {
    assert properties[..n][..n - 1] == properties[..n - 1];
  }

  lemma {:induction false} FieldsArePruned(allow: string -> bool, g: Graph, r: Ref, s: Shape, n: nat, depth: nat, seen: set<nat>)
    requires s.Plain? && n <= |s.fields| && Depicts(g, r, s) && Above(g, seen, s) && depth < MAX_DEPTH
    ensures SanitizedFields(allow, g, g[r.id].properties[..n], depth, seen + {r.id}) == PrunedFields(allow, s, n, Room(depth) - 1)
    decreases s, 0, n
  {
    if n > 0 {
      FieldsArePruned(allow, g, r, s, n - 1, depth, seen);
      assert s.fields[n - 1].value < s;
      AboveExtends(g, seen, r.id, s, s.fields[n - 1].value);
      ValueIsPruned(allow, g, g[r.id].properties[n - 1].value, s.fields[n - 1].value, depth + 1, seen + {r.id});
      NextFieldIsPruned(allow, g, g[r.id].properties, s, n, depth, seen + {r.id});
    }
  }

  /** Sanitizing an object that unfolds to a finite shape prunes that shape to eight levels. */
  lemma SanitizingPrunes(g: Graph, r: Ref, s: Shape)
    requires Depicts(g, r, s)
    ensures Sanitized(g, r) == if s.Plain? then Pruned(AuditKeys(), s, 8) else None
  {
    if s.Plain? {
      ValueIsPruned(AuditKeys(), g, r, s, 0, {});
    }
  }

  /** So a scalar under an allowed key of the metadata is always kept, whatever stands beside it. */
  lemma AllowedScalarIsKept(g: Graph, r: Ref, s: Shape, i: nat)
    requires Depicts(g, r, s) && s.Plain? && i < |s.fields| && Allowed(s.fields[i].key) && s.fields[i].value.Leaf?
    ensures Sanitized(g, r).Some? && Sanitized(g, r).value.JObject?
    ensures Field(s.fields[i].key, s.fields[i].value.value) in Sanitized(g, r).value.fields
  {
    SanitizingPrunes(g, r, s);
    ObjectKeeps(AuditKeys(), s, 8, Field(s.fields[i].key, s.fields[i].value.value));
  }
}
