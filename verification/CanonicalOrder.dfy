/**
 * Which values canonicalJson prints canonically under a given comparator: exactly those in which no object has two
 * different defined keys that the comparator calls equal.
 */
module CanonicalOrder {
  import opened Wrappers
  import opened CanonicalJson

  // ---------------------------------------------------------------- comparators and the sort

  predicate NotAfter(a: Text, b: Text, compare: Comparator) {
    compare(a, b) <= 0
  }

  /** A comparator sort can use: total and transitive. */
  ghost predicate Consistent(compare: Comparator) {
    && (forall a, b :: NotAfter(a, b, compare) || NotAfter(b, a, compare))
    && (forall a, b, c :: NotAfter(a, b, compare) && NotAfter(b, c, compare) ==> NotAfter(a, c, compare))
  }

  /** The comparator calls the two keys equal, as localeCompare does for canonically equivalent strings. */
  predicate Ties(a: Text, b: Text, compare: Comparator) {
    NotAfter(a, b, compare) && NotAfter(b, a, compare)
  }

  ghost predicate Sorted(fields: seq<Field>, compare: Comparator) {
    forall i, j :: 0 <= i < j < |fields| ==> NotAfter(fields[i].key, fields[j].key, compare)
  }

  /** Nothing in the list comes after the key. */
  ghost predicate AllNotAfter(fields: seq<Field>, key: Text, compare: Comparator) {
    forall i :: 0 <= i < |fields| ==> NotAfter(fields[i].key, key, compare)
  }

  lemma AppendSorts(sorted: seq<Field>, f: Field, compare: Comparator)
    requires Sorted(sorted, compare) && AllNotAfter(sorted, f.key, compare)
    ensures Sorted(sorted + [f], compare)
  {
  }

  lemma LastIsLatest(sorted: seq<Field>, key: Text, compare: Comparator)
    requires Consistent(compare) && Sorted(sorted, compare) && sorted != []
    requires NotAfter(sorted[|sorted| - 1].key, key, compare)
    ensures AllNotAfter(sorted, key, compare)
  {
  }

  lemma {:induction false} InsertStaysBefore(sorted: seq<Field>, f: Field, compare: Comparator, key: Text)
    requires AllNotAfter(sorted, key, compare) && NotAfter(f.key, key, compare)
    ensures AllNotAfter(Insert(sorted, f, compare), key, compare)
  {
    if sorted != [] {
      InsertStaysBefore(sorted[..|sorted| - 1], f, compare, key);
    }
  }

  lemma {:induction false} InsertSorts(sorted: seq<Field>, f: Field, compare: Comparator)
    requires Consistent(compare) && Sorted(sorted, compare)
    ensures Sorted(Insert(sorted, f, compare), compare)
  {
    if sorted != [] {
      var n := |sorted| - 1;
      if NotAfter(sorted[n].key, f.key, compare) {
        LastIsLatest(sorted, f.key, compare);
        AppendSorts(sorted, f, compare);
      } else {
        InsertSorts(sorted[..n], f, compare);
        InsertStaysBefore(sorted[..n], f, compare, sorted[n].key);
        AppendSorts(Insert(sorted[..n], f, compare), sorted[n], compare);
      }
    }
  }

  lemma {:induction false} SortSorts(fields: seq<Field>, compare: Comparator)
    requires Consistent(compare)
    ensures Sorted(Sort(fields, compare), compare)
  {
    if fields != [] {
      var n := |fields| - 1;
      SortSorts(fields[..n], compare);
      InsertSorts(Sort(fields[..n], compare), fields[n], compare);
    }
  }

  ghost predicate EntriesSorted(entries: seq<Entry>, compare: Comparator) {
    forall i, j :: 0 <= i < j < |entries| ==> NotAfter(entries[i].key, entries[j].key, compare)
  }

  lemma HeadIsMember(s: seq<Entry>)
    requires s != []
    ensures s[0] in s
  {
  }

  // ---------------------------------------------------------------- the condition, on the value

  ghost predicate FieldsApart(fields: seq<Field>, compare: Comparator) {
    forall i, j :: 0 <= i < j < |fields| ==> !Ties(fields[i].key, fields[j].key, compare)
  }

  /** No object inside the value has two defined keys that tie. */
  ghost predicate Apart(v: Value, compare: Comparator)
    decreases v
  {
    match v
    case Arr(items) => forall i :: 0 <= i < |items| ==> Apart(items[i], compare)
    case Obj(_) =>
      && FieldsApart(DefinedOf(v), compare)
      && forall i :: 0 <= i < |DefinedOf(v)| ==> Apart(DefinedOf(v)[i].value, compare)
    case _ => true
  }

  ghost predicate EntriesApart(entries: seq<Entry>, compare: Comparator) {
    forall i, j :: 0 <= i < j < |entries| ==> !Ties(entries[i].key, entries[j].key, compare)
  }

  // ---------------------------------------------------------------- apart values print equally

  /** Two sorted lists of the same entries are the same list, if no two of those entries tie. */
  lemma {:induction false} SortedOnce(s: seq<Entry>, t: seq<Entry>, compare: Comparator)
    requires EntriesApart(s, compare)
    requires EntriesSorted(s, compare) && EntriesSorted(t, compare) && EntriesDistinct(s) && EntriesDistinct(t)
    requires forall e :: e in s <==> e in t
    ensures s == t
  {
    if s == [] {
      if t != [] { HeadIsMember(t); }
    } else {
      assert s[0] in t;
      var j :| 0 <= j < |t| && t[j] == s[0];
      assert t[0] in s;
      var i :| 0 <= i < |s| && s[i] == t[0];
      assert NotAfter(s[0].key, s[i].key, compare) || i == 0;
      assert NotAfter(t[0].key, t[j].key, compare) || j == 0;
      assert s[0] == t[0];
      TailMembers(s);
      TailMembers(t);
      SortedOnce(s[1..], t[1..], compare);
      assert s == [s[0]] + s[1..] && t == [t[0]] + t[1..];
    }
  }

  lemma TailMembers(s: seq<Entry>)
    requires s != [] && EntriesDistinct(s)
    ensures forall e :: e in s[1..] <==> e in s && e != s[0]
  {
    forall e | e in s && e != s[0] ensures e in s[1..] {
      var i :| 0 <= i < |s| && s[i] == e;
      assert s[1..][i - 1] == e;
    }
  }

  /** The printed order of an object's fields, as meanings. */
  lemma EntriesMean(v: Value, compare: Comparator)
    requires v.Obj? && WellFormed(v)
    ensures var r := MeaningOfFields(Entries(v, compare), v);
      && EntriesDistinct(r)
      && (Consistent(compare) ==> EntriesSorted(r, compare))
      && Meaning(v) == JObj(ToMap(r))
  {
    DefinedKeepsDistinct(v.fields);
    PermutedKeysDistinct(DefinedOf(v), Entries(v, compare));
    OrderDoesNotMatter(v, compare);
    MeaningOfFieldsAt(Entries(v, compare), v);
    if Consistent(compare) {
      SortSorts(DefinedOf(v), compare);
    }
  }

  lemma SameMapSameMembers(s: seq<Entry>, t: seq<Entry>)
    requires EntriesDistinct(s) && EntriesDistinct(t) && ToMap(s) == ToMap(t)
    ensures forall e :: e in s <==> e in t
  {
    ToMapExact(s);
    ToMapExact(t);
    forall e | e in s ensures e in t {
      assert e == Entry(e.key, ToMap(t)[e.key]);
    }
    forall e | e in t ensures e in s {
      assert e == Entry(e.key, ToMap(s)[e.key]);
    }
  }

  /** Fields drawn from fields that do not tie do not tie either. */
  lemma DrawnFieldsApart(fields: seq<Field>, drawn: seq<Field>, compare: Comparator)
    requires FieldsApart(fields, compare) && KeysDistinct(drawn) && forall f :: f in drawn ==> f in fields
    ensures FieldsApart(drawn, compare)
  {
    forall i, j | 0 <= i < j < |drawn| ensures !Ties(drawn[i].key, drawn[j].key, compare) {
      assert drawn[i] in fields && drawn[j] in fields;
      var a :| 0 <= a < |fields| && fields[a] == drawn[i];
      var b :| 0 <= b < |fields| && fields[b] == drawn[j];
      assert a != b;
    }
  }

  /** The printed entries of an apart object do not tie. */
  lemma EntriesAreApart(v: Value, compare: Comparator)
    requires v.Obj? && WellFormed(v) && FieldsApart(DefinedOf(v), compare)
    ensures EntriesApart(MeaningOfFields(Entries(v, compare), v), compare)
  {
    DefinedKeepsDistinct(v.fields);
    PermutedKeysDistinct(DefinedOf(v), Entries(v, compare));
    SortKeepsFields(DefinedOf(v), compare);
    DrawnFieldsApart(DefinedOf(v), Entries(v, compare), compare);
    MeaningOfFieldsAt(Entries(v, compare), v);
  }

  lemma EntryValuesAreApart(v: Value, compare: Comparator)
    requires v.Obj? && forall i :: 0 <= i < |DefinedOf(v)| ==> Apart(DefinedOf(v)[i].value, compare)
    ensures forall i :: 0 <= i < |Entries(v, compare)| ==> Apart(Entries(v, compare)[i].value, compare)
  {
    var defined, entries := DefinedOf(v), Entries(v, compare);
    SortKeepsFields(defined, compare);
    forall i | 0 <= i < |entries| ensures Apart(entries[i].value, compare) {
      assert entries[i] in defined;
      var a :| 0 <= a < |defined| && defined[a] == entries[i];
    }
  }

  /** An apart value prints like every value that means the same. */
  lemma {:induction false} EqualValuesPrintEqually(v: Value, w: Value, compare: Comparator)
    requires Consistent(compare) && Apart(v, compare)
    requires WellFormed(v) && WellFormed(w) && Meaning(v) == Meaning(w)
    ensures Print(v, compare) == Print(w, compare)
    decreases v, 1
  {
    match v
    case Arr(items) => ItemsPrintEqually(items, v, w.items, w, compare);
    case Obj(fields) =>
      EntriesMean(v, compare);
      EntriesMean(w, compare);
      EntriesAreApart(v, compare);
      EntryValuesAreApart(v, compare);
      SameMapSameMembers(MeaningOfFields(Entries(v, compare), v), MeaningOfFields(Entries(w, compare), w));
      SortedOnce(MeaningOfFields(Entries(v, compare), v), MeaningOfFields(Entries(w, compare), w), compare);
      EntriesAreWellFormed(v, compare);
      EntriesAreWellFormed(w, compare);
      FieldsPrintEqually(Entries(v, compare), v, Entries(w, compare), w, compare);
    case _ =>
  }

  lemma {:induction false} ItemsPrintEqually(s: seq<Value>, v: Value, t: seq<Value>, w: Value, compare: Comparator)
    requires Consistent(compare)
    requires forall i :: 0 <= i < |s| ==> s[i] < v && WellFormed(s[i]) && Apart(s[i], compare)
    requires forall i :: 0 <= i < |t| ==> t[i] < w && WellFormed(t[i])
    requires MeaningOfItems(s, v) == MeaningOfItems(t, w)
    ensures PrintItems(s, compare, v) == PrintItems(t, compare, w)
    decreases v, 0, |s|
  {
    assert |s| == |t|;
    if s != [] {
      assert MeaningOfItems(s, v)[0] == MeaningOfItems(t, w)[0];
      assert MeaningOfItems(s, v)[1..] == MeaningOfItems(s[1..], v) && MeaningOfItems(t, w)[1..] == MeaningOfItems(t[1..], w);
      EqualValuesPrintEqually(s[0], t[0], compare);
      ItemsPrintEqually(s[1..], v, t[1..], w, compare);
    }
  }

  /** Lists of the same meaning: the same key and meaning in front, the same meaning behind. */
  lemma SameFieldMeanings(s: seq<Field>, v: Value, t: seq<Field>, w: Value)
    requires forall i :: 0 <= i < |s| ==> s[i].value < v
    requires forall i :: 0 <= i < |t| ==> t[i].value < w
    requires MeaningOfFields(s, v) == MeaningOfFields(t, w)
    ensures |s| == |t|
    ensures s != [] ==>
      && s[0].key == t[0].key && Meaning(s[0].value) == Meaning(t[0].value)
      && MeaningOfFields(s[1..], v) == MeaningOfFields(t[1..], w)
  {
    assert |s| == |MeaningOfFields(s, v)| && |t| == |MeaningOfFields(t, w)|;
    if s != [] {
      assert MeaningOfFields(s, v)[0] == MeaningOfFields(t, w)[0];
      assert MeaningOfFields(s, v)[1..] == MeaningOfFields(s[1..], v) && MeaningOfFields(t, w)[1..] == MeaningOfFields(t[1..], w);
    }
  }

  lemma {:induction false} FieldsPrintEqually(s: seq<Field>, v: Value, t: seq<Field>, w: Value, compare: Comparator)
    requires Consistent(compare)
    requires forall i :: 0 <= i < |s| ==> s[i].value < v && WellFormed(s[i].value) && Apart(s[i].value, compare)
    requires forall i :: 0 <= i < |t| ==> t[i].value < w && WellFormed(t[i].value)
    requires MeaningOfFields(s, v) == MeaningOfFields(t, w)
    ensures PrintFields(s, compare, v) == PrintFields(t, compare, w)
    decreases v, 0, |s|
  {
    SameFieldMeanings(s, v, t, w);
    if s != [] {
      EqualValuesPrintEqually(s[0].value, t[0].value, compare);
      FieldsPrintEqually(s[1..], v, t[1..], w, compare);
    }
  }

  // ---------------------------------------------------------------- the sort is stable

  lemma {:induction false} InsertKeepsField(sorted: seq<Field>, f: Field, compare: Comparator, p: nat) returns (x: nat)
    requires p < |sorted|
    ensures x < |Insert(sorted, f, compare)| && Insert(sorted, f, compare)[x] == sorted[p]
  {
    var n := |sorted| - 1;
    if compare(sorted[n].key, f.key) <= 0 {
      x := p;
    } else if p < n {
      x := InsertKeepsField(sorted[..n], f, compare, p);
    } else {
      x := |Insert(sorted[..n], f, compare)|;
    }
  }

  lemma {:induction false} InsertKeepsOrder(sorted: seq<Field>, f: Field, compare: Comparator, p: nat, q: nat)
    returns (x: nat, y: nat)
    requires p < q < |sorted|
    ensures x < y < |Insert(sorted, f, compare)|
    ensures Insert(sorted, f, compare)[x] == sorted[p] && Insert(sorted, f, compare)[y] == sorted[q]
  {
    var n := |sorted| - 1;
    if compare(sorted[n].key, f.key) <= 0 {
      x, y := p, q;
    } else if q < n {
      x, y := InsertKeepsOrder(sorted[..n], f, compare, p, q);
    } else {
      x := InsertKeepsField(sorted[..n], f, compare, p);
      y := |Insert(sorted[..n], f, compare)|;
    }
  }

  /** A field is inserted after every field that is not after it: ties keep their order. */
  lemma {:induction false} InsertGoesAfter(sorted: seq<Field>, f: Field, compare: Comparator, p: nat) returns (x: nat, y: nat)
    requires p < |sorted| && NotAfter(sorted[p].key, f.key, compare)
    ensures x < y < |Insert(sorted, f, compare)|
    ensures Insert(sorted, f, compare)[x] == sorted[p] && Insert(sorted, f, compare)[y] == f
  {
    var n := |sorted| - 1;
    if compare(sorted[n].key, f.key) <= 0 {
      x, y := p, |sorted|;
    } else {
      x, y := InsertGoesAfter(sorted[..n], f, compare, p);
    }
  }

  lemma {:induction false} SortKeepsField(fields: seq<Field>, compare: Comparator, i: nat) returns (x: nat)
    requires i < |fields|
    ensures x < |Sort(fields, compare)| && Sort(fields, compare)[x] == fields[i]
  {
    SortKeepsFields(fields, compare);
    assert fields[i] in Sort(fields, compare);
    x :| 0 <= x < |Sort(fields, compare)| && Sort(fields, compare)[x] == fields[i];
  }

  lemma SortAppend(front: seq<Field>, last: Field, compare: Comparator)
    ensures Sort(front + [last], compare) == Insert(Sort(front, compare), last, compare)
  {
    assert (front + [last])[..|front|] == front;
  }

  lemma SortedLast(front: seq<Field>, last: Field, compare: Comparator, i: nat) returns (x: nat, y: nat)
    requires i < |front| && NotAfter(front[i].key, last.key, compare)
    ensures x < y < |Sort(front + [last], compare)|
    ensures Sort(front + [last], compare)[x] == front[i] && Sort(front + [last], compare)[y] == last
  {
    var p := SortKeepsField(front, compare, i);
    x, y := InsertGoesAfter(Sort(front, compare), last, compare, p);
    SortAppend(front, last, compare);
  }

  lemma SortedMore(front: seq<Field>, last: Field, compare: Comparator, p: nat, q: nat) returns (x: nat, y: nat)
    requires p < q < |Sort(front, compare)|
    ensures x < y < |Sort(front + [last], compare)|
    ensures Sort(front + [last], compare)[x] == Sort(front, compare)[p]
    ensures Sort(front + [last], compare)[y] == Sort(front, compare)[q]
  {
    x, y := InsertKeepsOrder(Sort(front, compare), last, compare, p, q);
    SortAppend(front, last, compare);
  }

  lemma {:induction false} SortKeepsOrder(fields: seq<Field>, compare: Comparator, i: nat, j: nat) returns (x: nat, y: nat)
    requires i < j < |fields| && NotAfter(fields[i].key, fields[j].key, compare)
    ensures x < y < |Sort(fields, compare)|
    ensures Sort(fields, compare)[x] == fields[i] && Sort(fields, compare)[y] == fields[j]
    decreases |fields|
  {
    var front, last := fields[..|fields| - 1], fields[|fields| - 1];
    assert fields == front + [last];
    if j < |front| {
      var p, q := SortKeepsOrder(front, compare, i, j);
      x, y := SortedMore(front, last, compare, p, q);
    } else {
      x, y := SortedLast(front, last, compare, i);
    }
  }

  // ---------------------------------------------------------------- tied fields: exchange them

  function Swapped(fields: seq<Field>, i: nat, j: nat): (r: seq<Field>)
    requires i < j < |fields|
    ensures |r| == |fields|
  {
    fields[i := fields[j]][j := fields[i]]
  }

  lemma SwapKeepsFields(fields: seq<Field>, i: nat, j: nat)
    requires i < j < |fields| && KeysDistinct(fields)
    ensures KeysDistinct(Swapped(fields, i, j)) && forall f :: f in Swapped(fields, i, j) <==> f in fields
  {
    var swapped := Swapped(fields, i, j);
    assert forall k :: 0 <= k < |fields| ==> swapped[k] == fields[if k == i then j else if k == j then i else k];
    forall f ensures f in swapped <==> f in fields {
      if f in fields {
        var k :| 0 <= k < |fields| && fields[k] == f;
        assert swapped[if k == i then j else if k == j then i else k] == f;
      }
    }
    forall a, b | 0 <= a < b < |swapped| ensures swapped[a].key != swapped[b].key {
      assert swapped[a] == fields[if a == i then j else if a == j then i else a];
      assert swapped[b] == fields[if b == i then j else if b == j then i else b];
    }
  }

  lemma {:induction false} AllDefined(fields: seq<Field>)
    requires forall i :: 0 <= i < |fields| ==> !fields[i].value.Undefined?
    ensures Defined(fields) == fields
  {
    if fields != [] {
      AllDefined(fields[1..]);
    }
  }

  lemma DefinedAreWellFormed(v: Value)
    requires v.Obj? && WellFormed(v)
    ensures KeysDistinct(DefinedOf(v))
    ensures forall i :: 0 <= i < |DefinedOf(v)| ==> WellFormed(DefinedOf(v)[i].value) && !DefinedOf(v)[i].value.Undefined?
  {
    DefinedKeepsDistinct(v.fields);
    forall i | 0 <= i < |DefinedOf(v)| ensures WellFormed(DefinedOf(v)[i].value) && !DefinedOf(v)[i].value.Undefined? {
      assert DefinedOf(v)[i] in v.fields;
      assert DefinedOf(v)[i] in Defined(v.fields);
      var k :| 0 <= k < |v.fields| && v.fields[k] == DefinedOf(v)[i];
    }
  }

  /** An object of defined fields means what its fields mean. */
  lemma ObjectMeaning(w: Value)
    requires w.Obj? && forall i :: 0 <= i < |w.fields| ==> !w.fields[i].value.Undefined?
    ensures DefinedOf(w) == w.fields
    ensures forall i :: 0 <= i < |w.fields| ==> w.fields[i].value < w
    ensures Meaning(w) == JObj(ToMap(MeaningOfFields(w.fields, w)))
  {
    AllDefined(w.fields);
  }

  lemma MapIgnoresOrder(s: seq<Field>, v: Value, t: seq<Field>, w: Value)
    requires forall i :: 0 <= i < |s| ==> s[i].value < v
    requires forall i :: 0 <= i < |t| ==> t[i].value < w
    requires KeysDistinct(s) && KeysDistinct(t) && forall f :: f in s <==> f in t
    ensures ToMap(MeaningOfFields(s, v)) == ToMap(MeaningOfFields(t, w))
  {
    var ms, mt := MeaningOfFields(s, v), MeaningOfFields(t, w);
    MeaningOfFieldsAt(s, v);
    MeaningOfFieldsAt(t, w);
    forall e ensures e in ms <==> e in mt {
      if e in ms {
        var i :| 0 <= i < |ms| && ms[i] == e;
        assert s[i] in t;
        var j :| 0 <= j < |t| && t[j] == s[i];
        assert mt[j] == e;
      }
      if e in mt {
        var i :| 0 <= i < |mt| && mt[i] == e;
        assert t[i] in s;
        var j :| 0 <= j < |s| && s[j] == t[i];
        assert ms[j] == e;
      }
    }
    SameEntriesSameMap(ms, mt);
  }

  /** Field `a` stands somewhere before field `b`. */
  ghost predicate Before(s: seq<Field>, a: Field, b: Field) {
    exists p, q :: 0 <= p < q < |s| && s[p] == a && s[q] == b
  }

  /** Opposite orders cannot be the same list of entries. */
  lemma OppositeOrders(s: seq<Field>, v: Value, t: seq<Field>, w: Value, a: Field, b: Field)
    requires forall i :: 0 <= i < |s| ==> s[i].value < v
    requires forall i :: 0 <= i < |t| ==> t[i].value < w
    requires KeysDistinct(s) && Before(s, a, b) && Before(t, b, a)
    ensures MeaningOfFields(s, v) != MeaningOfFields(t, w)
  {
    if MeaningOfFields(s, v) == MeaningOfFields(t, w) {
      SameKeys(s, v, t, w);
      SameKeysSameOrder(s, t, a, b);
    }
  }

  lemma SameKeysSameOrder(s: seq<Field>, t: seq<Field>, a: Field, b: Field)
    requires KeysDistinct(s) && Before(s, a, b)
    requires |s| == |t| && forall i :: 0 <= i < |s| ==> s[i].key == t[i].key
    ensures !Before(t, b, a)
  {
    var p, q :| 0 <= p < q < |s| && s[p] == a && s[q] == b;
    forall x, y | 0 <= x < y < |t| ensures t[x] != b || t[y] != a {
      assert s[x].key == b.key ==> x == q;
      assert s[y].key == a.key ==> y == p;
    }
  }

  lemma SameKeys(s: seq<Field>, v: Value, t: seq<Field>, w: Value)
    requires forall i :: 0 <= i < |s| ==> s[i].value < v
    requires forall i :: 0 <= i < |t| ==> t[i].value < w
    requires MeaningOfFields(s, v) == MeaningOfFields(t, w)
    ensures |s| == |t| && forall i :: 0 <= i < |s| ==> s[i].key == t[i].key
  {
    MeaningOfFieldsAt(s, v);
    MeaningOfFieldsAt(t, w);
    assert |MeaningOfFields(s, v)| == |MeaningOfFields(t, w)|;
    forall i | 0 <= i < |s| ensures s[i].key == t[i].key {
      assert MeaningOfFields(s, v)[i] == MeaningOfFields(t, w)[i];
    }
  }

  /** What the text of a non-empty object holds: its entries in printed order. */
  lemma ObjectTextsDecode(v: Value, compare: Comparator)
    requires v.Obj? && WellFormed(v) && Entries(v, compare) != []
    ensures ParseFields(PrintFields(Entries(v, compare), compare, v) + ([RIGHT_BRACE] + []))
         == Some(Parsed(MeaningOfFields(Entries(v, compare), v), []))
  {
    EntriesAreWellFormed(v, compare);
    FieldsDecode(Entries(v, compare), compare, v, []);
  }

  /** Two objects whose entries print in different orders have different texts. */
  lemma OrderShows(v: Value, w: Value, compare: Comparator)
    requires v.Obj? && w.Obj? && WellFormed(v) && WellFormed(w) && Entries(v, compare) != [] && Entries(w, compare) != []
    requires MeaningOfFields(Entries(v, compare), v) != MeaningOfFields(Entries(w, compare), w)
    ensures Print(v, compare) != Print(w, compare)
  {
    ObjectTextsDecode(v, compare);
    ObjectTextsDecode(w, compare);
    var x, y := PrintFields(Entries(v, compare), compare, v), PrintFields(Entries(w, compare), compare, w);
    if Print(v, compare) == Print(w, compare) {
      InsideEqual(LEFT_BRACE, x, y, RIGHT_BRACE);
    }
  }

  lemma InsideEqual(open: CodeUnit, x: Text, y: Text, close: CodeUnit)
    requires [open] + x + [close] == [open] + y + [close]
    ensures x == y
  {
    assert ([open] + x + [close])[1..|x| + 1] == x;
    assert ([open] + y + [close])[1..|y| + 1] == y;
  }

  function Exchanged(v: Value, i: nat, j: nat): Value
    requires v.Obj? && i < j < |DefinedOf(v)|
  {
    Obj(Swapped(DefinedOf(v), i, j))
  }

  lemma ExchangedMeansTheSame(v: Value, i: nat, j: nat)
    requires v.Obj? && WellFormed(v) && i < j < |DefinedOf(v)|
    ensures WellFormed(Exchanged(v, i, j)) && DefinedOf(Exchanged(v, i, j)) == Swapped(DefinedOf(v), i, j)
    ensures Meaning(Exchanged(v, i, j)) == Meaning(v)
  {
    var w, fields := Exchanged(v, i, j), DefinedOf(v);
    DefinedAreWellFormed(v);
    SwapKeepsFields(fields, i, j);
    forall k | 0 <= k < |w.fields| ensures WellFormed(w.fields[k].value) && !w.fields[k].value.Undefined? {
      assert w.fields[k] == fields[if k == i then j else if k == j then i else k];
    }
    ObjectMeaning(w);
    MapIgnoresOrder(w.fields, w, fields, v);
  }

  /** Printing keeps the order of two defined fields that are not out of order. */
  lemma EntriesKeepOrder(v: Value, compare: Comparator, i: nat, j: nat)
    requires v.Obj? && i < j < |DefinedOf(v)| && NotAfter(DefinedOf(v)[i].key, DefinedOf(v)[j].key, compare)
    ensures Before(Entries(v, compare), DefinedOf(v)[i], DefinedOf(v)[j])
  {
    var x, y := SortKeepsOrder(DefinedOf(v), compare, i, j);
  }

  lemma EntriesDistinctKeys(v: Value, compare: Comparator)
    requires v.Obj? && WellFormed(v)
    ensures KeysDistinct(Entries(v, compare)) && |Entries(v, compare)| == |DefinedOf(v)|
    ensures forall f :: f in Entries(v, compare) <==> f in DefinedOf(v)
  {
    DefinedKeepsDistinct(v.fields);
    PermutedKeysDistinct(DefinedOf(v), Entries(v, compare));
    SortKeepsFields(DefinedOf(v), compare);
  }

  lemma OrdersShow(v: Value, w: Value, compare: Comparator, a: Field, b: Field)
    requires v.Obj? && w.Obj? && WellFormed(v) && WellFormed(w)
    requires Before(Entries(v, compare), a, b) && Before(Entries(w, compare), b, a)
    ensures Print(w, compare) != Print(v, compare)
  {
    EntriesDistinctKeys(v, compare);
    OppositeOrders(Entries(v, compare), v, Entries(w, compare), w, a, b);
    OrderShows(v, w, compare);
  }

  lemma ExchangedFields(v: Value, i: nat, j: nat)
    requires v.Obj? && i < j < |DefinedOf(v)| && DefinedOf(Exchanged(v, i, j)) == Swapped(DefinedOf(v), i, j)
    ensures DefinedOf(Exchanged(v, i, j))[i] == DefinedOf(v)[j] && DefinedOf(Exchanged(v, i, j))[j] == DefinedOf(v)[i]
  {
  }

  /** Exchanging two tied fields leaves the meaning and changes the text, because the sort keeps each object's own order. */
  lemma TiedFieldsSplit(v: Value, compare: Comparator, i: nat, j: nat)
    requires v.Obj? && WellFormed(v) && i < j < |DefinedOf(v)|
    requires Ties(DefinedOf(v)[i].key, DefinedOf(v)[j].key, compare)
    ensures WellFormed(Exchanged(v, i, j)) && Meaning(Exchanged(v, i, j)) == Meaning(v)
    ensures Print(Exchanged(v, i, j), compare) != Print(v, compare)
  {
    var w, a, b := Exchanged(v, i, j), DefinedOf(v)[i], DefinedOf(v)[j];
    ExchangedMeansTheSame(v, i, j);
    ExchangedFields(v, i, j);
    EntriesKeepOrder(v, compare, i, j);
    EntriesKeepOrder(w, compare, i, j);
    OrdersShow(v, w, compare, a, b);
  }

  function TwoFields(a: Text, b: Text): Value {
    Obj([Field(a, Null), Field(b, Null)])
  }

  lemma DefinedPair(x: Field, y: Field)
    requires !x.value.Undefined? && !y.value.Undefined?
    ensures Defined([x, y]) == [x, y]
  {
    assert [x, y][1..] == [y] && [y][1..] == [];
    assert Defined([y]) == [y];
  }

  /** For instance, two objects over any two different keys that tie, such as two encodings of one accented letter. */
  lemma TiesSplitEqualObjects(a: Text, b: Text, compare: Comparator)
    requires a != b && Ties(a, b, compare)
    ensures WellFormed(TwoFields(a, b)) && WellFormed(TwoFields(b, a))
    ensures Meaning(TwoFields(a, b)) == Meaning(TwoFields(b, a))
    ensures Print(TwoFields(a, b), compare) != Print(TwoFields(b, a), compare)
  {
    var v := TwoFields(a, b);
    DefinedPair(Field(a, Null), Field(b, Null));
    assert DefinedOf(v) == [Field(a, Null), Field(b, Null)];
    assert Swapped(DefinedOf(v), 0, 1) == [Field(b, Null), Field(a, Null)];
    TiedFieldsSplit(v, compare, 0, 1);
  }

  // ---------------------------------------------------------------- a tie further inside: replace one part

  lemma CancelLeft(a: Text, x: Text, y: Text)
    requires a + x == a + y
    ensures x == y
  {
    assert (a + x)[|a|..] == x && (a + y)[|a|..] == y;
  }

  lemma CancelRight(x: Text, y: Text, b: Text)
    requires x + b == y + b
    ensures x == y
  {
    assert |x| == |y|;
    assert (x + b)[..|x|] == x && (y + b)[..|y|] == y;
  }

  lemma {:induction false} ItemsIgnoreBound(items: seq<Value>, compare: Comparator, v: Value, w: Value)
    requires forall i :: 0 <= i < |items| ==> items[i] < v && items[i] < w
    ensures PrintItems(items, compare, v) == PrintItems(items, compare, w)
    ensures MeaningOfItems(items, v) == MeaningOfItems(items, w)
  {
    if items != [] { ItemsIgnoreBound(items[1..], compare, v, w); }
  }

  lemma {:induction false} FieldsIgnoreBound(fields: seq<Field>, compare: Comparator, v: Value, w: Value)
    requires forall i :: 0 <= i < |fields| ==> fields[i].value < v && fields[i].value < w
    ensures PrintFields(fields, compare, v) == PrintFields(fields, compare, w)
  {
    if fields != [] { FieldsIgnoreBound(fields[1..], compare, v, w); }
  }

  lemma HeadShows(head: Text, other: Text, rest: Text)
    requires other + [COMMA] + rest == head + [COMMA] + rest
    ensures other == head
  {
    Associate(other, [COMMA], rest);
    Associate(head, [COMMA], rest);
    CancelRight(other, head, [COMMA] + rest);
  }

  lemma FirstItemShows(items: seq<Value>, other: seq<Value>, compare: Comparator, v: Value, w: Value)
    requires |items| == |other| > 0 && other[1..] == items[1..]
    requires Print(other[0], compare) != Print(items[0], compare)
    requires forall k :: 0 <= k < |items| ==> items[k] < v && other[k] < w
    ensures PrintItems(other, compare, w) != PrintItems(items, compare, v)
  {
    if |items| > 1 && PrintItems(other, compare, w) == PrintItems(items, compare, v) {
      ItemsIgnoreBound(items[1..], compare, v, w);
      HeadShows(Print(items[0], compare), Print(other[0], compare), PrintItems(items[1..], compare, v));
    }
  }

  lemma LaterItemShows(items: seq<Value>, other: seq<Value>, compare: Comparator, v: Value, w: Value)
    requires |items| == |other| > 1 && other[0] == items[0]
    requires forall k :: 0 <= k < |items| ==> items[k] < v && other[k] < w
    requires PrintItems(other[1..], compare, w) != PrintItems(items[1..], compare, v)
    ensures PrintItems(other, compare, w) != PrintItems(items, compare, v)
  {
    if PrintItems(other, compare, w) == PrintItems(items, compare, v) {
      CancelLeft(Print(items[0], compare) + [COMMA], PrintItems(other[1..], compare, w), PrintItems(items[1..], compare, v));
    }
  }

  /** One item replaced by one with another text changes the text. */
  lemma {:induction false} ItemShows(items: seq<Value>, other: seq<Value>, i: nat, compare: Comparator, v: Value, w: Value)
    requires i < |items| == |other| && other == items[i := other[i]]
    requires Print(other[i], compare) != Print(items[i], compare)
    requires forall k :: 0 <= k < |items| ==> items[k] < v && other[k] < w
    ensures PrintItems(other, compare, w) != PrintItems(items, compare, v)
  {
    if i == 0 {
      FirstItemShows(items, other, compare, v, w);
    } else {
      assert other[1..] == items[1..][i - 1 := other[i]];
      ItemShows(items[1..], other[1..], i - 1, compare, v, w);
      LaterItemShows(items, other, compare, v, w);
    }
  }

  lemma {:induction false} SameItemMeanings(items: seq<Value>, other: seq<Value>, v: Value, w: Value)
    requires |items| == |other|
    requires forall k :: 0 <= k < |items| ==> items[k] < v && other[k] < w && Meaning(items[k]) == Meaning(other[k])
    ensures MeaningOfItems(other, w) == MeaningOfItems(items, v)
  {
    if items != [] {
      SameItemMeanings(items[1..], other[1..], v, w);
    }
  }

  lemma ItemTwin(v: Value, i: nat, x: Value, compare: Comparator)
    requires v.Arr? && WellFormed(v) && i < |v.items|
    requires WellFormed(x) && Meaning(x) == Meaning(v.items[i]) && Print(x, compare) != Print(v.items[i], compare)
    ensures var w := Arr(v.items[i := x]);
      WellFormed(w) && Meaning(w) == Meaning(v) && Print(w, compare) != Print(v, compare)
  {
    var items, other := v.items, v.items[i := x];
    SameItemMeanings(items, other, v, Arr(other));
    ItemShows(items, other, i, compare, v, Arr(other));
    if Print(Arr(other), compare) == Print(v, compare) {
      InsideEqual(LEFT_BRACKET, PrintItems(other, compare, Arr(other)), PrintItems(items, compare, v), RIGHT_BRACKET);
    }
  }

  function Replace(f: Field, key: Text, x: Value): Field {
    if f.key == key then Field(key, x) else f
  }

  function Replaced(fields: seq<Field>, key: Text, x: Value): (r: seq<Field>)
    ensures |r| == |fields| && forall i :: 0 <= i < |fields| ==> r[i] == Replace(fields[i], key, x)
  {
    seq(|fields|, i requires 0 <= i < |fields| => Replace(fields[i], key, x))
  }

  lemma ReplacedTail(fields: seq<Field>, key: Text, x: Value)
    requires fields != []
    ensures Replaced(fields, key, x)[1..] == Replaced(fields[1..], key, x)
  {
    var a, b := Replaced(fields, key, x)[1..], Replaced(fields[1..], key, x);
    forall i | 0 <= i < |b| ensures a[i] == b[i] {
      assert a[i] == Replace(fields[i + 1], key, x);
    }
  }

  lemma NothingReplaced(fields: seq<Field>, key: Text, x: Value)
    requires forall i :: 0 <= i < |fields| ==> fields[i].key != key
    ensures Replaced(fields, key, x) == fields
  {
  }

  lemma ReplacedPrefix(fields: seq<Field>, n: nat, key: Text, x: Value)
    requires n <= |fields|
    ensures Replaced(fields, key, x)[..n] == Replaced(fields[..n], key, x)
  {
  }

  lemma ReplacedAppend(fields: seq<Field>, f: Field, key: Text, x: Value)
    ensures Replaced(fields + [f], key, x) == Replaced(fields, key, x) + [Replace(f, key, x)]
  {
  }

  lemma InsertBeforeLast(sorted: seq<Field>, last: Field, f: Field, compare: Comparator)
    requires compare(last.key, f.key) > 0
    ensures Insert(sorted + [last], f, compare) == Insert(sorted, f, compare) + [last]
  {
    assert (sorted + [last])[..|sorted|] == sorted;
  }

  lemma InsertAtEnd(sorted: seq<Field>, last: Field, f: Field, compare: Comparator)
    requires compare(last.key, f.key) <= 0
    ensures Insert(sorted + [last], f, compare) == sorted + [last] + [f]
  {
  }

  lemma InsertReplacedAtEnd(front: seq<Field>, last: Field, f: Field, compare: Comparator, key: Text, x: Value)
    requires compare(last.key, f.key) <= 0
    ensures Insert(Replaced(front + [last], key, x), Replace(f, key, x), compare)
         == Replaced(Insert(front + [last], f, compare), key, x)
  {
    ReplacedAppend(front, last, key, x);
    InsertAtEnd(front, last, f, compare);
    InsertAtEnd(Replaced(front, key, x), Replace(last, key, x), Replace(f, key, x), compare);
    ReplacedAppend(front + [last], f, key, x);
  }

  lemma InsertReplacedBefore(front: seq<Field>, last: Field, f: Field, compare: Comparator, key: Text, x: Value)
    requires compare(last.key, f.key) > 0
    requires Insert(Replaced(front, key, x), Replace(f, key, x), compare) == Replaced(Insert(front, f, compare), key, x)
    ensures Insert(Replaced(front + [last], key, x), Replace(f, key, x), compare)
         == Replaced(Insert(front + [last], f, compare), key, x)
  {
    ReplacedAppend(front, last, key, x);
    InsertBeforeLast(front, last, f, compare);
    InsertBeforeLast(Replaced(front, key, x), Replace(last, key, x), Replace(f, key, x), compare);
    ReplacedAppend(Insert(front, f, compare), last, key, x);
  }

  lemma {:induction false} InsertReplaced(sorted: seq<Field>, f: Field, compare: Comparator, key: Text, x: Value)
    ensures Insert(Replaced(sorted, key, x), Replace(f, key, x), compare) == Replaced(Insert(sorted, f, compare), key, x)
    decreases |sorted|
  {
    if sorted == [] {
      assert Replaced([f], key, x) == [Replace(f, key, x)];
    } else {
      var front, last := sorted[..|sorted| - 1], sorted[|sorted| - 1];
      assert sorted == front + [last];
      if compare(last.key, f.key) <= 0 {
        InsertReplacedAtEnd(front, last, f, compare, key, x);
      } else {
        InsertReplaced(front, f, compare, key, x);
        InsertReplacedBefore(front, last, f, compare, key, x);
      }
    }
  }

  /** Sorting looks at the keys alone. */
  lemma {:induction false} SortReplaced(fields: seq<Field>, compare: Comparator, key: Text, x: Value)
    ensures Sort(Replaced(fields, key, x), compare) == Replaced(Sort(fields, compare), key, x)
  {
    if fields != [] {
      var n := |fields| - 1;
      ReplacedPrefix(fields, n, key, x);
      SortReplaced(fields[..n], compare, key, x);
      InsertReplaced(Sort(fields[..n], compare), fields[n], compare, key, x);
    }
  }

  lemma FirstFieldShows(fields: seq<Field>, other: seq<Field>, compare: Comparator, v: Value, w: Value)
    requires |fields| == |other| > 0 && fields[1..] == other[1..] && fields[0].key == other[0].key
    requires Print(other[0].value, compare) != Print(fields[0].value, compare)
    requires forall k :: 0 <= k < |fields| ==> fields[k].value < v && other[k].value < w
    ensures PrintFields(other, compare, w) != PrintFields(fields, compare, v)
  {
    FieldsIgnoreBound(fields[1..], compare, v, w);
    if PrintFields(other, compare, w) == PrintFields(fields, compare, v) {
      SameHead(fields, other, compare, v, w);
      CancelLeft(Quote(fields[0].key) + [COLON], Print(other[0].value, compare), Print(fields[0].value, compare));
    }
  }

  lemma LaterFieldShows(fields: seq<Field>, other: seq<Field>, compare: Comparator, v: Value, w: Value)
    requires |fields| == |other| > 1 && other[0] == fields[0]
    requires forall k :: 0 <= k < |fields| ==> fields[k].value < v && other[k].value < w
    requires PrintFields(other[1..], compare, w) != PrintFields(fields[1..], compare, v)
    ensures PrintFields(other, compare, w) != PrintFields(fields, compare, v)
  {
    if PrintFields(other, compare, w) == PrintFields(fields, compare, v) {
      assert PrintField(other[0], compare, w) == PrintField(fields[0], compare, v);
      CancelLeft(PrintField(fields[0], compare, v) + [COMMA], PrintFields(other[1..], compare, w), PrintFields(fields[1..], compare, v));
    }
  }

  /** Replacing the value under one key by one with another text changes the text of the fields. */
  lemma {:induction false} FieldShows(fields: seq<Field>, other: seq<Field>, i: nat, x: Value, compare: Comparator, v: Value, w: Value)
    requires i < |fields| && KeysDistinct(fields) && Print(x, compare) != Print(fields[i].value, compare)
    requires other == Replaced(fields, fields[i].key, x)
    requires forall k :: 0 <= k < |fields| ==> fields[k].value < v && other[k].value < w
    ensures PrintFields(other, compare, w) != PrintFields(fields, compare, v)
  {
    var key := fields[i].key;
    ReplacedTail(fields, key, x);
    if i == 0 {
      NothingReplaced(fields[1..], key, x);
      FirstFieldShows(fields, other, compare, v, w);
    } else {
      FieldShows(fields[1..], other[1..], i - 1, x, compare, v, w);
      LaterFieldShows(fields, other, compare, v, w);
    }
  }

  lemma SameHead(fields: seq<Field>, other: seq<Field>, compare: Comparator, v: Value, w: Value)
    requires |fields| == |other| > 0 && fields[1..] == other[1..]
    requires forall k :: 0 <= k < |fields| ==> fields[k].value < v && other[k].value < w
    requires PrintFields(other[1..], compare, w) == PrintFields(fields[1..], compare, v)
    requires PrintFields(other, compare, w) == PrintFields(fields, compare, v)
    ensures PrintField(other[0], compare, w) == PrintField(fields[0], compare, v)
  {
    if |fields| > 1 {
      HeadShows(PrintField(fields[0], compare, v), PrintField(other[0], compare, w), PrintFields(fields[1..], compare, v));
    }
  }

  function WithPart(v: Value, i: nat, x: Value): Value
    requires v.Obj? && i < |DefinedOf(v)|
  {
    Obj(Replaced(DefinedOf(v), DefinedOf(v)[i].key, x))
  }

  /** The replaced fields: all defined and well-formed, with the same keys. */
  lemma ReplacedAreWellFormed(fields: seq<Field>, i: nat, x: Value)
    requires i < |fields| && KeysDistinct(fields) && WellFormed(x) && !x.Undefined?
    requires forall k :: 0 <= k < |fields| ==> WellFormed(fields[k].value) && !fields[k].value.Undefined?
    ensures var other := Replaced(fields, fields[i].key, x);
      && KeysDistinct(other)
      && (forall k :: 0 <= k < |other| ==> WellFormed(other[k].value) && !other[k].value.Undefined?)
      && (forall k :: 0 <= k < |other| ==> other[k].key == fields[k].key && (k != i ==> other[k] == fields[k]))
      && other[i].value == x
  {
  }

  lemma SameMeanings(s: seq<Field>, v: Value, t: seq<Field>, w: Value)
    requires |s| == |t|
    requires forall k :: 0 <= k < |s| ==> s[k].value < v && t[k].value < w
    requires forall k :: 0 <= k < |s| ==> s[k].key == t[k].key && Meaning(s[k].value) == Meaning(t[k].value)
    ensures MeaningOfFields(s, v) == MeaningOfFields(t, w)
  {
    MeaningOfFieldsAt(s, v);
    MeaningOfFieldsAt(t, w);
  }

  lemma PartMeansTheSame(v: Value, i: nat, x: Value)
    requires v.Obj? && WellFormed(v) && i < |DefinedOf(v)|
    requires WellFormed(x) && !x.Undefined? && Meaning(x) == Meaning(DefinedOf(v)[i].value)
    ensures var w := WithPart(v, i, x);
      && WellFormed(w) && Meaning(w) == Meaning(v)
      && DefinedOf(w) == Replaced(DefinedOf(v), DefinedOf(v)[i].key, x)
  {
    var w, fields := WithPart(v, i, x), DefinedOf(v);
    DefinedAreWellFormed(v);
    ReplacedAreWellFormed(fields, i, x);
    ObjectMeaning(w);
    SameMeanings(fields, v, w.fields, w);
  }

  lemma EntriesReplaced(v: Value, i: nat, x: Value, compare: Comparator)
    requires v.Obj? && i < |DefinedOf(v)|
    requires DefinedOf(WithPart(v, i, x)) == Replaced(DefinedOf(v), DefinedOf(v)[i].key, x)
    ensures Entries(WithPart(v, i, x), compare) == Replaced(Entries(v, compare), DefinedOf(v)[i].key, x)
  {
    SortReplaced(DefinedOf(v), compare, DefinedOf(v)[i].key, x);
  }

  /** Where the sort puts a defined field. */
  lemma EntryIndex(v: Value, compare: Comparator, i: nat) returns (k: nat)
    requires v.Obj? && WellFormed(v) && i < |DefinedOf(v)|
    ensures k < |Entries(v, compare)| && Entries(v, compare)[k] == DefinedOf(v)[i] && KeysDistinct(Entries(v, compare))
  {
    EntriesDistinctKeys(v, compare);
    assert DefinedOf(v)[i] in Entries(v, compare);
    k :| 0 <= k < |Entries(v, compare)| && Entries(v, compare)[k] == DefinedOf(v)[i];
  }

  lemma DifferentFieldsShow(v: Value, w: Value, compare: Comparator)
    requires v.Obj? && w.Obj?
    requires PrintFields(Entries(w, compare), compare, w) != PrintFields(Entries(v, compare), compare, v)
    ensures Print(w, compare) != Print(v, compare)
  {
    if Print(w, compare) == Print(v, compare) {
      InsideEqual(LEFT_BRACE, PrintFields(Entries(w, compare), compare, w), PrintFields(Entries(v, compare), compare, v), RIGHT_BRACE);
    }
  }

  lemma PartShows(v: Value, compare: Comparator, i: nat, x: Value)
    requires v.Obj? && WellFormed(v) && i < |DefinedOf(v)|
    requires WellFormed(x) && !x.Undefined? && Meaning(x) == Meaning(DefinedOf(v)[i].value)
    requires Print(x, compare) != Print(DefinedOf(v)[i].value, compare)
    ensures Print(WithPart(v, i, x), compare) != Print(v, compare)
  {
    var w := WithPart(v, i, x);
    PartMeansTheSame(v, i, x);
    EntriesReplaced(v, i, x, compare);
    var k := EntryIndex(v, compare, i);
    FieldShows(Entries(v, compare), Entries(w, compare), k, x, compare, v, w);
    DifferentFieldsShow(v, w, compare);
  }

  /** A value that is not apart has a twin: the same meaning, another text. */
  lemma {:induction false} NotApartHasTwin(v: Value, compare: Comparator) returns (w: Value)
    requires WellFormed(v) && !Apart(v, compare)
    ensures WellFormed(w) && Meaning(w) == Meaning(v) && Print(w, compare) != Print(v, compare)
    decreases v
  {
    if v.Arr? {
      var i :| 0 <= i < |v.items| && !Apart(v.items[i], compare);
      var x := NotApartHasTwin(v.items[i], compare);
      w := Arr(v.items[i := x]);
      ItemTwin(v, i, x, compare);
    } else if !FieldsApart(DefinedOf(v), compare) {
      var i, j :| 0 <= i < j < |DefinedOf(v)| && Ties(DefinedOf(v)[i].key, DefinedOf(v)[j].key, compare);
      w := Exchanged(v, i, j);
      TiedFieldsSplit(v, compare, i, j);
    } else {
      DefinedAreWellFormed(v);
      var i :| 0 <= i < |DefinedOf(v)| && !Apart(DefinedOf(v)[i].value, compare);
      var x := NotApartHasTwin(DefinedOf(v)[i].value, compare);
      w := WithPart(v, i, x);
      PartMeansTheSame(v, i, x);
      PartShows(v, compare, i, x);
    }
  }

  // ---------------------------------------------------------------- exactly when

  /** A value prints like every value that means the same if and only if no object inside it has two keys that tie. */
  lemma CanonicalIffApart(v: Value, compare: Comparator)
    requires Consistent(compare) && WellFormed(v)
    ensures (forall w :: WellFormed(w) && Meaning(w) == Meaning(v) ==> Print(w, compare) == Print(v, compare)) <==> Apart(v, compare)
  {
    if Apart(v, compare) {
      forall w | WellFormed(w) && Meaning(w) == Meaning(v) ensures Print(w, compare) == Print(v, compare) {
        EqualValuesPrintEqually(v, w, compare);
      }
    } else {
      var w := NotApartHasTwin(v, compare);
    }
  }

  /** Equal fingerprints always mean equal values; and for an apart value only those. The hash is taken as injective. */
  lemma FingerprintsIdentifyRequests(v: Value, w: Value, compare: Comparator, hash: Text -> Text)
    requires forall s, t :: hash(s) == hash(t) ==> s == t
    requires WellFormed(v) && WellFormed(w)
    ensures hash(Print(v, compare)) == hash(Print(w, compare)) ==> Meaning(v) == Meaning(w)
    ensures Consistent(compare) && Apart(v, compare) ==>
      (hash(Print(v, compare)) == hash(Print(w, compare)) <==> Meaning(v) == Meaning(w))
  {
    if Print(v, compare) == Print(w, compare) {
      EqualTextsMeanEqualValues(v, w, compare, compare);
    }
    if Consistent(compare) && Apart(v, compare) && Meaning(v) == Meaning(w) {
      EqualValuesPrintEqually(v, w, compare);
    }
  }

  // ---------------------------------------------------------------- a sufficient condition: known keys

  /** Every key at every level is one of the given ones. */
  ghost predicate KeysWithin(v: Value, keys: set<Text>)
    decreases v
  {
    match v
    case Arr(items) => forall i :: 0 <= i < |items| ==> KeysWithin(items[i], keys)
    case Obj(fields) => forall i :: 0 <= i < |fields| ==> fields[i].key in keys && KeysWithin(fields[i].value, keys)
    case _ => true
  }

  ghost predicate Separates(compare: Comparator, keys: set<Text>) {
    forall a, b :: a in keys && b in keys && Ties(a, b, compare) ==> a == b
  }

  /** A comparator that tells the given keys apart makes every value over those keys apart. */
  lemma {:induction false} SeparatedIsApart(v: Value, keys: set<Text>, compare: Comparator)
    requires WellFormed(v) && KeysWithin(v, keys) && Separates(compare, keys)
    ensures Apart(v, compare)
    decreases v
  {
    if v.Arr? {
      forall i | 0 <= i < |v.items| ensures Apart(v.items[i], compare) {
        SeparatedIsApart(v.items[i], keys, compare);
      }
    } else if v.Obj? {
      var fields := DefinedOf(v);
      DefinedAreWellFormed(v);
      forall i | 0 <= i < |fields| ensures fields[i].key in keys && KeysWithin(fields[i].value, keys) {
        var k :| 0 <= k < |v.fields| && v.fields[k] == fields[i];
      }
      forall i | 0 <= i < |fields| ensures Apart(fields[i].value, compare) {
        SeparatedIsApart(fields[i].value, keys, compare);
      }
    }
  }
}
