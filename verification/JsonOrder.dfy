/** The order of a canonical form, told by the kinds of the values: a canonical form is the one value, among those
    equivalent to it, whose object keys ascend and whose sortable arrays ascend kind by kind.  `schema_fixtures.rs` */
module JsonOrder {
  import opened Common
  import opened Sorting
  import opened JsonText
  import opened JsonCanonical

  // ------------------------------------------------------------ the order

  ghost predicate Holds(v: Value, key: string, text: string) { v.Object? && Entry(key, String(text)) in v.entries }

  ghost predicate IsReference(v: Value) { exists text :: Holds(v, "$ref", text) }

  /** The kinds of sortable values, in the order they come in. */
  ghost function Kind(v: Value): nat
  {
    match v
    case Bool(_) => 0
    case Number(_) => 1
    case Null => 2
    case String(_) => 4
    case _ => if IsReference(v) then 3 else 5
  }

  /** The order of sortable values: by kind, then by what values of that kind are about, then by their text. */
  ghost predicate Before(a: Value, b: Value)
  {
    if Kind(a) != Kind(b) then Kind(a) < Kind(b)
    else match (a, b)
      case (Bool(p), Bool(q)) => p ==> q
      case (Number(m), Number(n)) => TextLeq(m, n)
      case (String(s), String(t)) => TextLeq(s, t)
      case (Object(_), Object(_)) => ObjectBefore(a, b, if IsReference(a) then "$ref" else "title")
      case _ => true
  }

  ghost predicate ObjectBefore(a: Value, b: Value, key: string)
  {
    forall s, t :: Holds(a, key, s) && Holds(b, key, t) ==>
      if s == t then TextLeq(Print(a), Print(b)) else TextLeq(s, t)
  }

  /** Keys strictly ascend in every object and sortable arrays ascend, at every depth. */
  ghost predicate Ordered(v: Value)
  {
    match v
    case Array(items) =>
      && (forall i :: 0 <= i < |items| ==> Ordered(items[i]))
      && (AllSortable(items) ==> forall i, j :: 0 <= i < j < |items| ==> Before(items[i], items[j]))
    case Object(es) =>
      && (forall i :: 0 <= i < |es| ==> Ordered(es[i].value))
      && (forall i, j :: 0 <= i < j < |es| ==> es[i].key != es[j].key && TextLeq(es[i].key, es[j].key))
    case _ => true
  }

  // ------------------------------------------------------ sort keys compared

  lemma {:induction false} PrefixCancels(p: string, a: string, b: string)
    ensures TextLeq(p + a, p + b) <==> TextLeq(a, b)
  {
    if p == "" {
      assert p + a == a && p + b == b;
    } else {
      assert (p + a)[1..] == p[1..] + a && (p + b)[1..] == p[1..] + b;
      PrefixCancels(p[1..], a, b);
    }
  }

  lemma SuffixesDiffer(p: string, a: string, b: string)
    ensures p + a == p + b <==> a == b
  {
    assert (p + a)[|p|..] == a && (p + b)[|p|..] == b;
  }

  lemma SecondLetterDecides(a: string, b: string)
    requires |a| >= 2 && |b| >= 2 && a[0] == b[0] && a[1] != b[1]
    ensures TextLeq(a, b) <==> a[1] < b[1]
  {
    assert a[1..][0] == a[1] && b[1..][0] == b[1];
  }

  /** The key of a sortable value: a tag for its kind, and what it is about. */
  ghost function Tag(v: Value): string
  {
    match Kind(v)
    case 0 => "b:"
    case 1 => "n:"
    case 2 => "null"
    case 3 => "ref:"
    case 4 => "s:"
    case _ => "title:"
  }

  lemma ObjectKey(v: Value, key: string, text: string)
    requires WellFormed(v) && v.Object? && key == (if IsReference(v) then "$ref" else "title") && Holds(v, key, text)
    ensures Keyed(v) && KeyText(v) == Tag(v) + text
    ensures forall other :: Holds(v, key, other) ==> other == text
  {
    hide Get;
    GetIsMembership(v.entries, key, String(text));
    forall other | Holds(v, key, other) ensures other == text { GetIsMembership(v.entries, key, String(other)); }
    var reference := Get(v.entries, "$ref");
    if reference.Some? && reference.value.String? {
      GetIsMembership(v.entries, "$ref", reference.value);
      assert Holds(v, "$ref", reference.value.text);
    }
  }

  lemma Subject(v: Value) returns (text: string)
    requires WellFormed(v) && v.Object? && Sortable(v)
    ensures Holds(v, if IsReference(v) then "$ref" else "title", text)
  {
    var e :| e in v.entries && (e.key == "$ref" || e.key == "title") && e.value.String?;
    assert Entry(e.key, String(e.value.text)) == e;
    if IsReference(v) {
      text :| Holds(v, "$ref", text);
    } else {
      text := e.value.text;
      assert !Holds(v, "$ref", text);
    }
  }

  lemma KeyStart(v: Value)
    requires WellFormed(v) && Sortable(v)
    ensures Keyed(v) && Tag(v) <= KeyText(v)
  {
    if v.Object? {
      var text := Subject(v);
      ObjectKey(v, if IsReference(v) then "$ref" else "title", text);
    }
  }

  lemma KindsCompare(a: Value, b: Value)
    requires WellFormed(a) && WellFormed(b) && Sortable(a) && Sortable(b) && Kind(a) != Kind(b)
    ensures KeyText(a) != KeyText(b)
    ensures TextLeq(KeyText(a), KeyText(b)) <==> Kind(a) < Kind(b)
  {
    KeyStart(a);
    KeyStart(b);
    var s, t := KeyText(a), KeyText(b);
    assert s[0] == Tag(a)[0] && s[1] == Tag(a)[1] && t[0] == Tag(b)[0] && t[1] == Tag(b)[1];
    hide KeyText, WellFormed, Sortable, Keyed;
    if s[0] == t[0] { SecondLetterDecides(s, t); }
  }

  lemma ObjectsCompare(a: Value, b: Value)
    requires WellFormed(a) && WellFormed(b) && Sortable(a) && Sortable(b)
    requires a.Object? && b.Object? && Kind(a) == Kind(b)
    ensures ItemLeq(a, b) <==> Before(a, b)
  {
    var key := if IsReference(a) then "$ref" else "title";
    var s := Subject(a);
    var t := Subject(b);
    ObjectKey(a, key, s);
    ObjectKey(b, key, t);
    PrefixCancels(Tag(a), s, t);
    SuffixesDiffer(Tag(a), s, t);
    hide KeyText, Print, TextLeq, Holds, IsReference, Tag, WellFormed, Sortable, Keyed;
    assert ObjectBefore(a, b, key) <==> if s == t then TextLeq(Print(a), Print(b)) else TextLeq(s, t);
  }

  lemma ScalarsCompare(a: Value, b: Value)
    requires WellFormed(a) && WellFormed(b) && Sortable(a) && Sortable(b)
    requires !a.Object? && !b.Object? && Kind(a) == Kind(b)
    ensures ItemLeq(a, b) <==> Before(a, b)
  {
    match a
    case Number(m) =>
      PrefixCancels("n:", m, b.digits);
      SuffixesDiffer("n:", m, b.digits);
      Reflexive(m);
    case String(s) =>
      PrefixCancels("s:", s, b.text);
      SuffixesDiffer("s:", s, b.text);
      Reflexive(s);
      Reflexive(Print(a));
    case Bool(p) =>
      PrefixCancels("b:", if p then "true" else "false", if b.flag then "true" else "false");
      assert "b:" + "true" == "b:true" && "b:" + "false" == "b:false";
      Reflexive(Print(a));
    case _ =>
      Reflexive("null");
  }

  lemma Reflexive(s: string)
    ensures TextLeq(s, s)
  {
    TextTotal(s, s);
  }

  /** The comparison by sort key and text is the order by kinds. */
  lemma ComparisonIsTheOrder(a: Value, b: Value)
    requires WellFormed(a) && WellFormed(b) && Sortable(a) && Sortable(b)
    ensures ItemLeq(a, b) <==> Before(a, b)
  {
    hide WellFormed, KeyText, TextLeq, Print;
    if Kind(a) != Kind(b) {
      KindsCompare(a, b);
    } else if a.Object? {
      ObjectsCompare(a, b);
    } else {
      ScalarsCompare(a, b);
    }
  }

  // --------------------------------------------------------- main results

  lemma SortedItemsAscend(items: seq<Value>)
    requires AllWellFormed(items) && AllKeyed(items)
    ensures var sorted := SortBy(items, ItemLeq); forall i, j :: 0 <= i < j < |sorted| ==> Before(sorted[i], sorted[j])
  {
    hide WellFormed, Sortable, ItemLeq, Before, Keyed;
    var sorted := SortBy(items, ItemLeq);
    ItemLeqRanks();
    SortSorts(items, ItemLeq);
    SortKeeps(items, ItemLeq);
    SameBagSameMembers(items, sorted);
    AllKeyedIsAllSortable(items);
    forall i, j | 0 <= i < j < |sorted| ensures Before(sorted[i], sorted[j]) {
      assert sorted[i] in items && sorted[j] in items;
      ComparisonIsTheOrder(sorted[i], sorted[j]);
    }
  }

  lemma SortedEntriesAscend(es: seq<Entry>)
    requires DistinctKeys(es)
    ensures var sorted := SortBy(es, EntryLeq);
      forall i, j :: 0 <= i < j < |sorted| ==> sorted[i].key != sorted[j].key && TextLeq(sorted[i].key, sorted[j].key)
  {
    hide TextLeq;
    var sorted := SortBy(es, EntryLeq);
    EntryLeqRanks();
    SortSorts(es, EntryLeq);
    SortKeeps(es, EntryLeq);
    DistinctKeysOfPermutation(es, sorted);
    assert Sorted(sorted, EntryLeq);
    forall i, j | 0 <= i < j < |sorted| ensures TextLeq(sorted[i].key, sorted[j].key) {
      assert EntryLeq(sorted[i], sorted[j]);
    }
  }

  lemma {:induction false} ItemsOrdered(items: seq<Value>)
    requires AllWellFormed(items) && forall x :: x in items ==> Ordered(Canonical(x))
    ensures Ordered(Canonical(Array(items)))
  {
    hide Ordered, Canonical, WellFormed, Before, Sortable, ItemLeq;
    var a := CanonicalItems(items);
    var sorted := SortBy(a, ItemLeq);
    ItemsWellFormed(items);
    SortKeeps(a, ItemLeq);
    SameBagSameMembers(a, sorted);
    AllKeyedIsAllSortable(a);
    forall x | x in a ensures Ordered(x) {
      var i :| 0 <= i < |a| && a[i] == x;
      ItemAt(items, i);
      assert items[i] in items;
    }
    if AllKeyed(a) { SortedItemsAscend(a); }
    OrderedArray(if AllKeyed(a) then sorted else a);
    CanonicalOfArray(items);
  }

  lemma OrderedArray(items: seq<Value>)
    requires forall x :: x in items ==> Ordered(x)
    requires AllSortable(items) ==> forall i, j :: 0 <= i < j < |items| ==> Before(items[i], items[j])
    ensures Ordered(Array(items))
  {
    hide Before, AllSortable;
  }

  lemma CanonicalOfArray(items: seq<Value>)
    ensures var a := CanonicalItems(items);
      Canonical(Array(items)) == Array(if AllKeyed(a) then SortBy(a, ItemLeq) else a)
  {
  }

  lemma {:induction false} EntriesOrdered(es: seq<Entry>)
    requires DistinctKeys(es) && forall e :: e in es ==> Ordered(Canonical(e.value))
    ensures Ordered(Canonical(Object(es)))
  {
    hide Ordered, Canonical, EntryLeq;
    var a := CanonicalEntries(es);
    var sorted := SortBy(a, EntryLeq);
    GetOfCanonical(es, "");
    SortKeeps(a, EntryLeq);
    SameBagSameMembers(a, sorted);
    forall e | e in sorted ensures Ordered(e.value) {
      var i :| 0 <= i < |a| && a[i] == e;
      EntryAt(es, i);
      assert es[i] in es;
    }
    SortedEntriesAscend(a);
    OrderedObject(sorted);
    CanonicalOfObject(es);
  }

  lemma OrderedObject(es: seq<Entry>)
    requires forall e :: e in es ==> Ordered(e.value)
    requires forall i, j :: 0 <= i < j < |es| ==> es[i].key != es[j].key && TextLeq(es[i].key, es[j].key)
    ensures Ordered(Object(es))
  {
    hide TextLeq;
  }

  lemma CanonicalOfObject(es: seq<Entry>)
    ensures Canonical(Object(es)) == Object(SortBy(CanonicalEntries(es), EntryLeq))
  {
  }

  lemma {:induction false} CanonicalIsOrdered(v: Value)
    requires WellFormed(v)
    ensures Ordered(Canonical(v))
  {
    hide Before, TextLeq, SortBy, CanonicalItems, CanonicalEntries;
    match v
    case Array(items) =>
      forall x | x in items ensures Ordered(Canonical(x)) { CanonicalIsOrdered(x); }
      ItemsOrdered(items);
    case Object(es) =>
      forall e | e in es ensures Ordered(Canonical(e.value)) { CanonicalIsOrdered(e.value); }
      EntriesOrdered(es);
    case _ =>
  }

  /** What is in order already is left as it is. */
  lemma {:induction false} OrderedIsCanonical(v: Value)
    requires WellFormed(v) && Ordered(v)
    ensures Canonical(v) == v
  {
    hide Before, TextLeq, SortBy, CanonicalItems, CanonicalEntries, Sortable, AllKeyed;
    match v
    case Array(items) =>
      forall x | x in items ensures Canonical(x) == x { OrderedIsCanonical(x); }
      FixedItems(items);
      AllKeyedIsAllSortable(items);
      if AllKeyed(items) { AscendingStays(items); }
    case Object(es) =>
      forall e | e in es ensures Canonical(e.value) == e.value { OrderedIsCanonical(e.value); }
      FixedEntries(es);
      AscendingEntriesStay(es);
    case _ =>
  }

  lemma AscendingStays(items: seq<Value>)
    requires AllWellFormed(items) && AllSortable(items)
    requires forall i, j :: 0 <= i < j < |items| ==> Before(items[i], items[j])
    ensures SortBy(items, ItemLeq) == items
  {
    hide WellFormed, Sortable, ItemLeq, Before;
    forall i, j | 0 <= i < j < |items| ensures ItemLeq(items[i], items[j]) {
      ComparisonIsTheOrder(items[i], items[j]);
    }
    ItemLeqRanks();
    SortSorts(items, ItemLeq);
    SortKeeps(items, ItemLeq);
    forall u, v | u in items && v in items && ItemLeq(u, v) && ItemLeq(v, u) ensures u == v {
      ItemLeqAntisymmetric(u, v);
    }
    SortedIsUnique(items, SortBy(items, ItemLeq), ItemLeq);
  }

  lemma AscendingEntriesStay(es: seq<Entry>)
    requires forall i, j :: 0 <= i < j < |es| ==> es[i].key != es[j].key && TextLeq(es[i].key, es[j].key)
    ensures SortBy(es, EntryLeq) == es
  {
    hide TextLeq;
    EntryLeqRanks();
    SortSorts(es, EntryLeq);
    SortKeeps(es, EntryLeq);
    forall u, v | u in es && v in es && EntryLeq(u, v) && EntryLeq(v, u) ensures u == v {
      TextAntisymmetric(u.key, v.key);
    }
    SortedIsUnique(es, SortBy(es, EntryLeq), EntryLeq);
  }

  /** The canonical form of a value is the one value in order that is equivalent to it. */
  lemma CanonicalIsTheOrderedOne(v: Value, w: Value)
    requires WellFormed(v) && WellFormed(w)
    ensures w == Canonical(v) <==> Equivalent(v, w) && Ordered(w)
  {
    hide Ordered, Equivalent, Canonical, WellFormed;
    CanonicalIsOrdered(v);
    CanonicalIsEquivalent(v);
    if Equivalent(v, w) && Ordered(w) {
      CanonicalDecidesEquivalence(v, w);
      OrderedIsCanonical(w);
    }
  }
}
