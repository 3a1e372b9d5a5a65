/**
 * The audit metadata sanitizer, over an arbitrary object graph: shared nodes and cycles included.
 * The functions are the specification; the methods are the source's loops with their one mutable `seen` set.
 */
module AuditSanitizer {
  import opened Wrappers

  const MAX_DEPTH := 8

  const SAFE_KEYS: set<string> := {
    "status", "previousStatus", "nextStatus", "isActive", "active", "currency", "amount", "amountMru",
    "reasonCode", "reference", "branchId", "routeId", "tripId", "bookingId", "paymentId", "ticketId",
    "maintenanceId", "commissionId", "eventType", "changeType", "result", "changes", "fields"}

  const SENSITIVE_PARTS: seq<string> := [
    "password", "token", "auth", "cookie", "webhook", "idempotency", "qr", "card", "cvv", "document", "phone",
    "passenger", "useragent", "device", "operatingsystem", "browser", "ipaddress"]

  // ---------------------------------------------------------------- object graphs and JSON trees

  /** What a variable can hold: a scalar, something the sanitizer drops, or a reference to a node. */
  datatype Ref = NullRef | BoolRef(b: bool) | TextRef(text: string) | NumberRef(token: string) | DroppedRef | NodeRef(id: nat)
  datatype Property = Property(key: string, value: Ref)

  /** `isPlain` is false for class instances, dates and the like. */
  datatype Node = ObjectNode(isPlain: bool, properties: seq<Property>) | ArrayNode(items: seq<Ref>)

  type Graph = map<nat, Node>

  datatype Json = JNull | JBool(b: bool) | JText(text: string) | JNumber(token: string) | JArray(items: seq<Json>) | JObject(fields: seq<Field>)
  datatype Field = Field(key: string, value: Json)

  predicate IsPlainObject(g: Graph, r: Ref) {
    r.NodeRef? && r.id in g && g[r.id].ObjectNode? && g[r.id].isPlain
  }

  predicate IsArray(g: Graph, r: Ref) {
    r.NodeRef? && r.id in g && g[r.id].ArrayNode?
  }

  // ---------------------------------------------------------------- keys

  function Normalized(key: string): string {
    if key == "" then ""
    else
      var c := key[0];
      (if 'a' <= c <= 'z' || '0' <= c <= '9' then [c]
       else if 'A' <= c <= 'Z' then [(c as int + 32) as char]
       else []) + Normalized(key[1..])
  }

  predicate Includes(s: string, part: string) {
    exists i :: 0 <= i <= |s| && part <= s[i..]
  }

  predicate IsSensitive(key: string) {
    var n := Normalized(key);
    || (exists k :: 0 <= k < |SENSITIVE_PARTS| && Includes(n, SENSITIVE_PARTS[k]))
    || n == "ip"
    || (Includes(n, "provider") && Includes(n, "secret"))
  }

  predicate Allowed(key: string) {
    key in SAFE_KEYS && !IsSensitive(key)
  }

  /** The one key filter the audit module uses; what follows holds for any. */
  function AuditKeys(): string -> bool {
    (key: string) => Allowed(key)
  }

  // ---------------------------------------------------------------- specification

  function Room(depth: nat): nat {
    if depth >= MAX_DEPTH then 0 else MAX_DEPTH - depth
  }

  function SanitizedObject(allow: string -> bool, g: Graph, id: nat, depth: nat, seen: set<nat>): seq<Field>
    decreases Room(depth), 2, 0
  {
    if depth >= MAX_DEPTH || id in seen || id !in g || !g[id].ObjectNode? then []
    else SanitizedFields(allow, g, g[id].properties, depth, seen + {id})
  }

  function SanitizedFields(allow: string -> bool, g: Graph, properties: seq<Property>, depth: nat, seen: set<nat>): seq<Field>
    requires depth < MAX_DEPTH
    decreases Room(depth), 1, |properties|
  {
    if properties == [] then []
    else
      var n := |properties| - 1;
      var value := SanitizedValue(allow, g, properties[n].value, depth + 1, seen);
      SanitizedFields(allow, g, properties[..n], depth, seen)
      + (if allow(properties[n].key) && value.Some? then [Field(properties[n].key, value.value)] else [])
  }

  function SanitizedItems(allow: string -> bool, g: Graph, items: seq<Ref>, depth: nat, seen: set<nat>): seq<Json>
    requires depth < MAX_DEPTH
    decreases Room(depth), 1, |items|
  {
    if items == [] then []
    else
      var n := |items| - 1;
      var value := SanitizedValue(allow, g, items[n], depth + 1, seen);
      SanitizedItems(allow, g, items[..n], depth, seen) + (if value.Some? then [value.value] else [])
  }

  function SanitizedValue(allow: string -> bool, g: Graph, r: Ref, depth: nat, seen: set<nat>): Option<Json>
    decreases Room(depth), 3, 0
  {
    match r
    case NullRef => Some(JNull)
    case BoolRef(b) => Some(JBool(b))
    case TextRef(text) => Some(JText(text))
    case NumberRef(token) => Some(JNumber(token))
    case DroppedRef => None
    case NodeRef(id) =>
      if depth >= MAX_DEPTH then None
      else if IsArray(g, r) then Some(JArray(SanitizedItems(allow, g, g[id].items, depth, seen)))
      else if IsPlainObject(g, r) then Some(JObject(SanitizedObject(allow, g, id, depth, seen)))
      else None
  }

  /** sanitizeAuditMetadata: only a plain object is accepted at the root. */
  function Sanitized(g: Graph, r: Ref): Option<Json> {
    if IsPlainObject(g, r) then Some(JObject(SanitizedObject(AuditKeys(), g, r.id, 0, {}))) else None
  }

  // ---------------------------------------------------------------- the source's loops

  /** The WeakSet one sanitization threads through all its calls. */
  class SeenSet {
    var members: set<nat>

    constructor ()
      ensures members == {}
    {
      members := {};
    }
  }

  method SanitizeObject(allow: string -> bool, g: Graph, id: nat, depth: nat, seen: SeenSet) returns (fields: seq<Field>)
    requires id in g && g[id].ObjectNode?
    modifies seen
    ensures fields == SanitizedObject(allow, g, id, depth, old(seen.members))
    ensures seen.members == old(seen.members)
    decreases Room(depth), 2
  {
    if depth >= MAX_DEPTH || id in seen.members {
      return [];
    }
    ghost var before := seen.members;
    seen.members := seen.members + {id};
    fields := [];
    var properties := g[id].properties;
    for i := 0 to |properties|
      invariant seen.members == before + {id}
      invariant fields == SanitizedFields(allow, g, properties[..i], depth, before + {id})
    {
      assert properties[..i + 1][..i] == properties[..i];
      if allow(properties[i].key) {
        var value := SanitizeValue(allow, g, properties[i].value, depth + 1, seen);
        if value.Some? {
          fields := fields + [Field(properties[i].key, value.value)];
        }
      }
    }
    assert properties[..|properties|] == properties;
    seen.members := seen.members - {id};
  }

  method SanitizeValue(allow: string -> bool, g: Graph, r: Ref, depth: nat, seen: SeenSet) returns (value: Option<Json>)
    modifies seen
    ensures value == SanitizedValue(allow, g, r, depth, old(seen.members))
    ensures seen.members == old(seen.members)
    decreases Room(depth), 3
  {
    match r {
      case NullRef => return Some(JNull);
      case BoolRef(b) => return Some(JBool(b));
      case TextRef(text) => return Some(JText(text));
      case NumberRef(token) => return Some(JNumber(token));
      case DroppedRef => return None;
      case NodeRef(id) =>
        if depth >= MAX_DEPTH {
          return None;
        }
        if IsArray(g, r) {
          var items: seq<Json> := [];
          for i := 0 to |g[id].items|
            invariant seen.members == old(seen.members)
            invariant items == SanitizedItems(allow, g, g[id].items[..i], depth, old(seen.members))
          {
            assert g[id].items[..i + 1][..i] == g[id].items[..i];
            var item := SanitizeValue(allow, g, g[id].items[i], depth + 1, seen);
            if item.Some? {
              items := items + [item.value];
            }
          }
          assert g[id].items[..|g[id].items|] == g[id].items;
          return Some(JArray(items));
        }
        if !IsPlainObject(g, r) {
          return None;
        }
        var fields := SanitizeObject(allow, g, id, depth, seen);
        return Some(JObject(fields));
    }
  }

  method SanitizeAuditMetadata(g: Graph, r: Ref) returns (value: Option<Json>)
    ensures value == Sanitized(g, r)
  {
    if !IsPlainObject(g, r) {
      return None;
    }
    var seen := new SeenSet();
    var fields := SanitizeObject(AuditKeys(), g, r.id, 0, seen);
    value := Some(JObject(fields));
  }

  // ---------------------------------------------------------------- clean trees

  /** Only allowed keys at every level, and containers nested at most `levels` deep. */
  ghost predicate Clean(allow: string -> bool, t: Json, levels: nat)
    decreases t
  {
    match t
    case JArray(items) => levels > 0 && forall i :: 0 <= i < |items| ==> Clean(allow, items[i], levels - 1)
    case JObject(fields) =>
      levels > 0 && forall i :: 0 <= i < |fields| ==> allow(fields[i].key) && Clean(allow, fields[i].value, levels - 1)
    case _ => true
  }

  ghost predicate ItemsClean(allow: string -> bool, items: seq<Json>, levels: nat) {
    forall i :: 0 <= i < |items| ==> Clean(allow, items[i], levels)
  }

  ghost predicate FieldsClean(allow: string -> bool, fields: seq<Field>, levels: nat) {
    forall i :: 0 <= i < |fields| ==> allow(fields[i].key) && Clean(allow, fields[i].value, levels)
  }

  lemma {:induction false} ValueIsClean(allow: string -> bool, g: Graph, r: Ref, depth: nat, seen: set<nat>)
    ensures SanitizedValue(allow, g, r, depth, seen).Some? ==> Clean(allow, SanitizedValue(allow, g, r, depth, seen).value, Room(depth))
    decreases Room(depth), 3, 0
  {
    if depth < MAX_DEPTH {
      if IsArray(g, r) {
        ItemsAreClean(allow, g, g[r.id].items, depth, seen);
      } else if IsPlainObject(g, r) && r.id !in seen {
        FieldsAreClean(allow, g, g[r.id].properties, depth, seen + {r.id});
      }
    }
  }

  lemma {:induction false} ItemsAreClean(allow: string -> bool, g: Graph, items: seq<Ref>, depth: nat, seen: set<nat>)
    requires depth < MAX_DEPTH
    ensures ItemsClean(allow, SanitizedItems(allow, g, items, depth, seen), Room(depth) - 1)
    decreases Room(depth), 1, |items|
  {
    if items != [] {
      ItemsAreClean(allow, g, items[..|items| - 1], depth, seen);
      ValueIsClean(allow, g, items[|items| - 1], depth + 1, seen);
    }
  }

  lemma {:induction false} FieldsAreClean(allow: string -> bool, g: Graph, properties: seq<Property>, depth: nat, seen: set<nat>)
    requires depth < MAX_DEPTH
    ensures FieldsClean(allow, SanitizedFields(allow, g, properties, depth, seen), Room(depth) - 1)
    decreases Room(depth), 1, |properties|
  {
    if properties != [] {
      FieldsAreClean(allow, g, properties[..|properties| - 1], depth, seen);
      ValueIsClean(allow, g, properties[|properties| - 1].value, depth + 1, seen);
    }
  }

  /** On every graph, cycles included, the output has only allowed keys at every level and at most eight levels. */
  lemma OutputIsClean(g: Graph, r: Ref)
    ensures Sanitized(g, r).Some? <==> IsPlainObject(g, r)
    ensures Sanitized(g, r).Some? ==> Sanitized(g, r).value.JObject? && Clean(AuditKeys(), Sanitized(g, r).value, MAX_DEPTH)
  {
    if IsPlainObject(g, r) {
      FieldsAreClean(AuditKeys(), g, g[r.id].properties, 0, {} + {r.id});
    }
  }

  // ---------------------------------------------------------------- reading back

  /** The part of the graph at `r` is the tree: what JSON.parse builds for it, or any graph that shares equal parts. */
  ghost predicate Represents(g: Graph, r: Ref, t: Json)
    decreases t
  {
    match t
    case JNull => r.NullRef?
    case JBool(b) => r == BoolRef(b)
    case JText(text) => r == TextRef(text)
    case JNumber(token) => r == NumberRef(token)
    case JArray(items) =>
      IsArray(g, r) && |g[r.id].items| == |items| && forall i :: 0 <= i < |items| ==> Represents(g, g[r.id].items[i], items[i])
    case JObject(fields) =>
      IsPlainObject(g, r) && |g[r.id].properties| == |fields|
      && forall i :: 0 <= i < |fields| ==>
           g[r.id].properties[i].key == fields[i].key && Represents(g, g[r.id].properties[i].value, fields[i].value)
  }

  /** A reference represents one tree at most. */
  lemma {:induction false} RepresentsOne(g: Graph, r: Ref, t: Json, u: Json)
    requires Represents(g, r, t) && Represents(g, r, u)
    ensures t == u
    decreases t
  {
    match t
    case JArray(items) =>
      forall i | 0 <= i < |items| ensures items[i] == u.items[i] {
        RepresentsOne(g, g[r.id].items[i], items[i], u.items[i]);
      }
      assert items == u.items;
    case JObject(fields) =>
      forall i | 0 <= i < |fields| ensures fields[i] == u.fields[i] {
        RepresentsOne(g, g[r.id].properties[i].value, fields[i].value, u.fields[i].value);
      }
      assert fields == u.fields;
    case _ =>
  }

  /** Every node on the path from the root represents a tree that properly contains the current one. */
  ghost predicate PathAbove(g: Graph, seen: set<nat>, t: Json) {
    forall id :: id in seen ==> exists u :: Represents(g, NodeRef(id), u) && t < u
  }

  /** On a graph that represents a finite tree the `seen` set never fires. */
  lemma NeverSeen(g: Graph, id: nat, seen: set<nat>, t: Json)
    requires Represents(g, NodeRef(id), t) && PathAbove(g, seen, t)
    ensures id !in seen
  {
    if id in seen {
      var u :| Represents(g, NodeRef(id), u) && t < u;
      RepresentsOne(g, NodeRef(id), t, u);
    }
  }

  lemma PathExtends(g: Graph, seen: set<nat>, id: nat, t: Json, child: Json)
    requires PathAbove(g, seen, t) && Represents(g, NodeRef(id), t) && child < t
    ensures PathAbove(g, seen + {id}, child) && PathAbove(g, seen, child)
  {
    forall other | other in seen + {id} ensures exists u :: Represents(g, NodeRef(other), u) && child < u {
      if other in seen {
        var u :| Represents(g, NodeRef(other), u) && t < u;
        assert child < u;
      }
    }
  }

  lemma {:induction false} CleanIsKept(allow: string -> bool, g: Graph, r: Ref, t: Json, depth: nat, seen: set<nat>)
    requires Represents(g, r, t) && Clean(allow, t, Room(depth)) && PathAbove(g, seen, t)
    ensures SanitizedValue(allow, g, r, depth, seen) == Some(t)
    decreases t, 1, 0
  {
    match t
    case JArray(items) => CleanItemsAreKept(allow, g, r, t, |items|, depth, seen);
      assert g[r.id].items[..|items|] == g[r.id].items && items[..|items|] == items;
    case JObject(fields) =>
      NeverSeen(g, r.id, seen, t);
      CleanFieldsAreKept(allow, g, r, t, |fields|, depth, seen);
      assert g[r.id].properties[..|fields|] == g[r.id].properties && fields[..|fields|] == fields;
    case _ =>
  }

  lemma {:induction false} CleanItemsAreKept(allow: string -> bool, g: Graph, r: Ref, t: Json, n: nat, depth: nat, seen: set<nat>)
    requires Represents(g, r, t) && Clean(allow, t, Room(depth)) && PathAbove(g, seen, t) && depth < MAX_DEPTH
    requires t.JArray? && n <= |t.items|
    ensures SanitizedItems(allow, g, g[r.id].items[..n], depth, seen) == t.items[..n]
    decreases t, 0, n
  {
    if n > 0 {
      CleanItemsAreKept(allow, g, r, t, n - 1, depth, seen);
      PathExtends(g, seen, r.id, t, t.items[n - 1]);
      CleanIsKept(allow, g, g[r.id].items[n - 1], t.items[n - 1], depth + 1, seen);
      assert g[r.id].items[..n][..n - 1] == g[r.id].items[..n - 1];
    }
  }

  lemma OneMoreProperty(allow: string -> bool, g: Graph, properties: seq<Property>, n: nat, fields: seq<Field>, depth: nat, seen: set<nat>)
    requires depth < MAX_DEPTH && 0 < n <= |properties| && n <= |fields|
    requires SanitizedFields(allow, g, properties[..n - 1], depth, seen) == fields[..n - 1]
    requires properties[n - 1].key == fields[n - 1].key && allow(fields[n - 1].key)
    requires SanitizedValue(allow, g, properties[n - 1].value, depth + 1, seen) == Some(fields[n - 1].value)
    ensures SanitizedFields(allow, g, properties[..n], depth, seen) == fields[..n]
  {
    assert properties[..n][..n - 1] == properties[..n - 1] && properties[..n][n - 1] == properties[n - 1];
    assert fields[..n] == fields[..n - 1] + [fields[n - 1]];
  }

  lemma {:induction false} CleanFieldsAreKept(allow: string -> bool, g: Graph, r: Ref, t: Json, n: nat, depth: nat, seen: set<nat>)
    requires Represents(g, r, t) && Clean(allow, t, Room(depth)) && PathAbove(g, seen, t) && depth < MAX_DEPTH
    requires t.JObject? && n <= |t.fields|
    ensures SanitizedFields(allow, g, g[r.id].properties[..n], depth, seen + {r.id}) == t.fields[..n]
    decreases t, 0, n
  {
    if n > 0 {
      CleanFieldsAreKept(allow, g, r, t, n - 1, depth, seen);
      var f := t.fields[n - 1];
      assert f.value < t;
      PathExtends(g, seen, r.id, t, f.value);
      CleanIsKept(allow, g, g[r.id].properties[n - 1].value, f.value, depth + 1, seen + {r.id});
      OneMoreProperty(allow, g, g[r.id].properties, n, t.fields, depth, seen + {r.id});
    }
  }

  /**
   * The trees sanitizing leaves as they are, in whatever graph they are read back into, are exactly the clean objects.
   */
  lemma FixedIffClean(g: Graph, r: Ref, t: Json)
    requires Represents(g, r, t)
    ensures Sanitized(g, r) == Some(t) <==> t.JObject? && Clean(AuditKeys(), t, MAX_DEPTH)
  {
    if t.JObject? && Clean(AuditKeys(), t, MAX_DEPTH) {
      CleanIsKept(AuditKeys(), g, r, t, 0, {});
    }
    OutputIsClean(g, r);
  }

  // ---------------------------------------------------------------- the round trip through a jsonb column

  ghost predicate Permutation(order: seq<nat>, n: nat) {
    && |order| == n
    && (forall j :: 0 <= j < n ==> order[j] < n)
    && (forall i, j :: 0 <= i < j < n ==> order[i] != order[j])
  }

  /** The same tree with the fields of its objects, at every level, in any other order. */
  ghost predicate Reordered(t: Json, u: Json)
    decreases t, 1
  {
    match t
    case JArray(items) => u.JArray? && |u.items| == |items| && forall i :: 0 <= i < |items| ==> Reordered(items[i], u.items[i])
    case JObject(fields) =>
      u.JObject? && |u.fields| == |fields| && exists order :: Permutation(order, |fields|) && FieldsReordered(t, u.fields, order)
    case _ => u == t
  }

  ghost predicate FieldsReordered(t: Json, fields: seq<Field>, order: seq<nat>)
    requires t.JObject? && |fields| == |t.fields| && Permutation(order, |fields|)
    decreases t, 0
  {
    forall j :: 0 <= j < |fields| ==>
      fields[j].key == t.fields[order[j]].key && Reordered(t.fields[order[j]].value, fields[j].value)
  }

  /** The order in which it was written is one of them. */
  lemma {:induction false} ReorderedToItself(t: Json)
    ensures Reordered(t, t)
    decreases t
  {
    match t
    case JArray(items) =>
      forall i | 0 <= i < |items| ensures Reordered(items[i], items[i]) { ReorderedToItself(items[i]); }
    case JObject(fields) =>
      var order: seq<nat> := seq(|fields|, j requires 0 <= j < |fields| => j);
      forall i | 0 <= i < |fields| ensures Reordered(fields[i].value, fields[i].value) {
        ReorderedToItself(fields[i].value);
      }
      assert Permutation(order, |fields|) && FieldsReordered(t, fields, order);
    case _ =>
  }

  lemma {:induction false} ReorderedIsClean(allow: string -> bool, t: Json, u: Json, room: nat)
    requires Clean(allow, t, room) && Reordered(t, u)
    ensures Clean(allow, u, room)
    decreases t
  {
    if t.JArray? {
      forall i | 0 <= i < |u.items| ensures Clean(allow, u.items[i], room - 1) {
        ReorderedIsClean(allow, t.items[i], u.items[i], room - 1);
      }
    } else if t.JObject? {
      var order :| Permutation(order, |t.fields|) && FieldsReordered(t, u.fields, order);
      forall j | 0 <= j < |u.fields| ensures allow(u.fields[j].key) && Clean(allow, u.fields[j].value, room - 1) {
        ReorderedIsClean(allow, t.fields[order[j]].value, u.fields[j].value, room - 1);
      }
    }
  }

  /** Sanitizing on read returns what was stored, in whatever key order the column gives it back. */
  lemma SanitizingTwiceIsOnce(g: Graph, r: Ref, stored: Graph, root: Ref, u: Json)
    requires Sanitized(g, r).Some? && Reordered(Sanitized(g, r).value, u) && Represents(stored, root, u)
    ensures Sanitized(stored, root) == Some(u)
  {
    OutputIsClean(g, r);
    ReorderedIsClean(AuditKeys(), Sanitized(g, r).value, u, MAX_DEPTH);
    FixedIffClean(stored, root, u);
  }
}
