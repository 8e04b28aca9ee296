/** Canonicalisation of schema JSON: two values get the same canonical form exactly
    when one becomes the other by reordering object entries and reordering, at any
    depth, arrays whose every element has a sort key.  `schema_fixtures.rs` */
module JsonCanonical {
  import opened Common
  import opened Sorting
  import opened JsonText

  // ------------------------------------------------------------ sort keys

  function Get(es: seq<Entry>, key: string): Option<Value>
  {
    if es == [] then None else if es[0].key == key then Some(es[0].value) else Get(es[1..], key)
  }

  function SchemaArrayItemSortKey(item: Value): Option<string>
  {
    match item
    case Null => Some("null")
    case Bool(flag) => Some(if flag then "b:true" else "b:false")
    case Number(digits) => Some("n:" + digits)
    case String(text) => Some("s:" + text)
    case Object(es) =>
      var reference, title := Get(es, "$ref"), Get(es, "title");
      if reference.Some? && reference.value.String? then Some("ref:" + reference.value.text)
      else if title.Some? && title.value.String? then Some("title:" + title.value.text)
      else None
    case Array(_) => None
  }

  predicate Keyed(v: Value) { SchemaArrayItemSortKey(v).Some? }

  predicate AllKeyed(items: seq<Value>) { forall i :: 0 <= i < |items| ==> Keyed(items[i]) }

  function KeyText(v: Value): string { if Keyed(v) then SchemaArrayItemSortKey(v).value else "" }

  /** By sort key, ties broken by the printed text. */
  predicate ItemLeq(a: Value, b: Value)
  {
    if KeyText(a) == KeyText(b) then TextLeq(Print(a), Print(b)) else TextLeq(KeyText(a), KeyText(b))
  }

  predicate EntryLeq(a: Entry, b: Entry) { TextLeq(a.key, b.key) }

  // ------------------------------------------------------- canonical form

  function Canonical(v: Value): Value
    decreases v, 1
  {
    match v
    case Array(items) =>
      var canonical := CanonicalItems(items);
      if AllKeyed(canonical) then Array(SortBy(canonical, ItemLeq)) else Array(canonical)
    case Object(es) => Object(SortBy(CanonicalEntries(es), EntryLeq))
    case _ => v
  }

  function CanonicalItems(items: seq<Value>): (r: seq<Value>)
    ensures |r| == |items|
    decreases items, 0
  {
    if items == [] then [] else [Canonical(items[0])] + CanonicalItems(items[1..])
  }

  function CanonicalEntries(es: seq<Entry>): (r: seq<Entry>)
    ensures |r| == |es|
    ensures forall i :: 0 <= i < |es| ==> r[i].key == es[i].key
    decreases es, 0
  {
    if es == [] then [] else [Entry(es[0].key, Canonical(es[0].value))] + CanonicalEntries(es[1..])
  }

  // ----------------------------------------------------------- equivalence

  function Remove<T>(xs: seq<T>, j: nat): seq<T>
    requires j < |xs|
  {
    xs[..j] + xs[j + 1..]
  }

  /** The shapes whose order in an array carries no meaning: scalars, and objects with a string `$ref` or `title`. */
  ghost predicate Sortable(v: Value)
  {
    match v
    case Array(_) => false
    case Object(es) => exists e :: e in es && (e.key == "$ref" || e.key == "title") && e.value.String?
    case _ => true
  }

  ghost predicate AllSortable(items: seq<Value>) { forall i :: 0 <= i < |items| ==> Sortable(items[i]) }

  /** Equal up to the order of object entries and of arrays of sortable values, at any depth. */
  ghost predicate Equivalent(v: Value, w: Value)
    decreases v, 1
  {
    match v
    case Array(items) =>
      w.Array? && if AllSortable(items) then SameBag(items, w.items) else SameList(items, w.items)
    case Object(es) => w.Object? && SameEntries(es, w.entries)
    case _ => v == w
  }

  /** The elements can be paired off, each with an equivalent one. */
  ghost predicate SameBag(a: seq<Value>, b: seq<Value>)
    decreases a, 0
  {
    if a == [] then b == [] else exists j :: 0 <= j < |b| && Equivalent(a[0], b[j]) && SameBag(a[1..], Remove(b, j))
  }

  ghost predicate SameList(a: seq<Value>, b: seq<Value>)
    decreases a, 0
  {
    |a| == |b| && forall i :: 0 <= i < |a| ==> Equivalent(a[i], b[i])
  }

  ghost predicate SameEntries(a: seq<Entry>, b: seq<Entry>)
    decreases a, 0
  {
    if a == [] then b == []
    else
      exists j ::
        && 0 <= j < |b| && a[0].key == b[j].key && Equivalent(a[0].value, b[j].value)
        && SameEntries(a[1..], Remove(b, j))
  }

  // ----------------------------------------------------------- the orders

  lemma ItemLeqRanks()
    ensures Ranks(ItemLeq)
  {
    forall x, y ensures ItemLeq(x, y) || ItemLeq(y, x) {
      TextTotal(Print(x), Print(y));
      TextTotal(KeyText(x), KeyText(y));
    }
    forall x, y, z | ItemLeq(x, y) && ItemLeq(y, z) ensures ItemLeq(x, z) { ItemLeqTransitive(x, y, z); }
  }

  lemma ItemLeqTransitive(x: Value, y: Value, z: Value)
    requires ItemLeq(x, y) && ItemLeq(y, z)
    ensures ItemLeq(x, z)
  {
    hide TextLeq, KeyText, Print;
    if KeyText(x) == KeyText(y) == KeyText(z) {
      TextTransitive(Print(x), Print(y), Print(z));
    } else if KeyText(x) != KeyText(y) && KeyText(y) != KeyText(z) {
      TextTransitive(KeyText(x), KeyText(y), KeyText(z));
      if KeyText(x) == KeyText(z) { TextAntisymmetric(KeyText(x), KeyText(y)); }
    }
  }

  lemma ItemLeqAntisymmetric(x: Value, y: Value)
    requires WellFormed(x) && WellFormed(y) && ItemLeq(x, y) && ItemLeq(y, x)
    ensures x == y
  {
    hide TextLeq, KeyText, Print;
    if KeyText(x) == KeyText(y) {
      TextAntisymmetric(Print(x), Print(y));
      PrintIsInjective(x, y);
    } else {
      TextAntisymmetric(KeyText(x), KeyText(y));
    }
  }

  lemma EntryLeqRanks()
    ensures Ranks(EntryLeq)
  {
    forall x: Entry, y: Entry ensures EntryLeq(x, y) || EntryLeq(y, x) { TextTotal(x.key, y.key); }
    forall x: Entry, y: Entry, z: Entry | EntryLeq(x, y) && EntryLeq(y, z) ensures EntryLeq(x, z) {
      TextTransitive(x.key, y.key, z.key);
    }
  }

  // ------------------------------------------- what canonicalising keeps

  lemma {:induction false} ItemAt(items: seq<Value>, i: nat)
    requires i < |items|
    ensures CanonicalItems(items)[i] == Canonical(items[i])
  {
    hide Canonical;
    if i > 0 { ItemAt(items[1..], i - 1); }
  }

  lemma {:induction false} EntryAt(es: seq<Entry>, i: nat)
    requires i < |es|
    ensures CanonicalEntries(es)[i] == Entry(es[i].key, Canonical(es[i].value))
  {
    hide Canonical;
    if i > 0 { EntryAt(es[1..], i - 1); }
  }

  /** With distinct keys, looking up a key finds the one entry that has it. */
  lemma {:induction false} GetFinds(es: seq<Entry>, i: nat)
    requires DistinctKeys(es) && i < |es|
    ensures Get(es, es[i].key) == Some(es[i].value)
  {
    if i > 0 { GetFinds(es[1..], i - 1); }
  }

  lemma {:induction false} GetMisses(es: seq<Entry>, key: string)
    requires forall i :: 0 <= i < |es| ==> es[i].key != key
    ensures Get(es, key).None?
  {
    if es != [] { GetMisses(es[1..], key); }
  }

  lemma GetOfPermutation(es: seq<Entry>, fs: seq<Entry>, key: string)
    requires DistinctKeys(es) && DistinctKeys(fs) && multiset(es) == multiset(fs)
    ensures Get(es, key) == Get(fs, key)
  {
    SameBagSameMembers(es, fs);
    if i :| 0 <= i < |es| && es[i].key == key {
      GetFinds(es, i);
      assert es[i] in es;
      var j :| 0 <= j < |fs| && fs[j] == es[i];
      GetFinds(fs, j);
    } else {
      forall j | 0 <= j < |fs| ensures fs[j].key != key { assert fs[j] in fs; }
      GetMisses(es, key);
      GetMisses(fs, key);
    }
  }

  lemma GetOfCanonical(es: seq<Entry>, key: string)
    requires DistinctKeys(es)
    ensures DistinctKeys(CanonicalEntries(es))
    ensures Get(CanonicalEntries(es), key) == match Get(es, key) case Some(v) => Some(Canonical(v)) case None => None
  {
    hide Canonical;
    if i :| 0 <= i < |es| && es[i].key == key {
      GetFinds(es, i);
      EntryAt(es, i);
      GetFinds(CanonicalEntries(es), i);
    } else {
      GetMisses(es, key);
      GetMisses(CanonicalEntries(es), key);
    }
  }

  lemma GetIsMembership(es: seq<Entry>, key: string, v: Value)
    requires DistinctKeys(es)
    ensures Get(es, key) == Some(v) <==> Entry(key, v) in es
  {
    if i :| 0 <= i < |es| && es[i].key == key {
      GetFinds(es, i);
    } else {
      GetMisses(es, key);
    }
  }

  /** A value has a sort key exactly when it is of a sortable shape. */
  lemma KeyedIsSortable(v: Value)
    requires WellFormed(v)
    ensures Keyed(v) <==> Sortable(v)
  {
    hide Get;
    if v.Object? {
      forall e | e in v.entries ensures Get(v.entries, e.key) == Some(e.value) {
        GetIsMembership(v.entries, e.key, e.value);
        assert Entry(e.key, e.value) == e;
      }
      forall key: string | Get(v.entries, key).Some? ensures Entry(key, Get(v.entries, key).value) in v.entries {
        GetIsMembership(v.entries, key, Get(v.entries, key).value);
      }
    }
  }

  lemma AllKeyedIsAllSortable(items: seq<Value>)
    requires forall i :: 0 <= i < |items| ==> WellFormed(items[i])
    ensures AllKeyed(items) <==> AllSortable(items)
  {
    hide Keyed, Sortable, WellFormed;
    forall i | 0 <= i < |items| ensures Keyed(items[i]) <==> Sortable(items[i]) { KeyedIsSortable(items[i]); }
  }

  /** Distinct keys survive reordering. */
  lemma DistinctKeysOfPermutation(es: seq<Entry>, fs: seq<Entry>)
    requires DistinctKeys(es) && multiset(es) == multiset(fs)
    ensures DistinctKeys(fs)
  {
    SameBagSameMembers(es, fs);
    forall i, j | 0 <= i < j < |fs| ensures fs[i].key != fs[j].key {
      assert fs[i] in fs && fs[j] in fs;
      if fs[i] == fs[j] { TwiceInBag(fs, es, i, j); }
    }
  }

  lemma {:induction false} OnceInBag(es: seq<Entry>, e: Entry)
    requires DistinctKeys(es)
    ensures multiset(es)[e] <= 1
    ensures (forall i :: 0 <= i < |es| ==> es[i] != e) ==> multiset(es)[e] == 0
  {
    if es != [] {
      assert es == [es[0]] + es[1..];
      OnceInBag(es[1..], e);
    }
  }

  lemma TwiceInBag(fs: seq<Entry>, es: seq<Entry>, i: nat, j: nat)
    requires i < j < |fs| && fs[i] == fs[j] && multiset(fs) == multiset(es)
    ensures !DistinctKeys(es)
  {
    assert fs == fs[..j] + [fs[i]] + fs[j + 1..] && fs[i] in fs[..j];
    assert multiset(fs)[fs[i]] >= 2;
    if DistinctKeys(es) { OnceInBag(es, fs[i]); }
  }

  /** Canonicalising keeps a value well formed and keeps its sort key. */
  lemma {:induction false} CanonicalKeeps(v: Value)
    requires WellFormed(v)
    ensures WellFormed(Canonical(v))
    ensures SchemaArrayItemSortKey(Canonical(v)) == SchemaArrayItemSortKey(v)
    decreases v
  {
    match v
    case Array(items) =>
      var canonical := CanonicalItems(items);
      forall i | 0 <= i < |items| ensures WellFormed(canonical[i]) {
        ItemAt(items, i);
        CanonicalKeeps(items[i]);
      }
      SortKeeps(canonical, ItemLeq);
      SameBagSameMembers(canonical, SortBy(canonical, ItemLeq));
      forall i | 0 <= i < |items| ensures WellFormed(SortBy(canonical, ItemLeq)[i]) {
        assert SortBy(canonical, ItemLeq)[i] in SortBy(canonical, ItemLeq);
      }
    case Object(es) =>
      forall i | 0 <= i < |es| ensures WellFormed(Canonical(es[i].value)) { CanonicalKeeps(es[i].value); }
      ObjectKeeps(es);
    case _ =>
  }

  lemma ObjectKeeps(es: seq<Entry>)
    requires DistinctKeys(es) && forall i :: 0 <= i < |es| ==> WellFormed(Canonical(es[i].value))
    ensures WellFormed(Canonical(Object(es)))
    ensures SchemaArrayItemSortKey(Canonical(Object(es))) == SchemaArrayItemSortKey(Object(es))
  {
    hide SortBy, CanonicalEntries, CanonicalItems, Get, DistinctKeys;
    var canonical := CanonicalEntries(es);
    var sorted := SortBy(canonical, EntryLeq);
    SortKeeps(canonical, EntryLeq);
    GetOfCanonical(es, "$ref");
    GetOfCanonical(es, "title");
    DistinctKeysOfPermutation(canonical, sorted);
    GetOfPermutation(canonical, sorted, "$ref");
    GetOfPermutation(canonical, sorted, "title");
    SameBagSameMembers(canonical, sorted);
    forall i | 0 <= i < |sorted| ensures WellFormed(sorted[i].value) {
      assert sorted[i] in sorted;
      var j :| 0 <= j < |canonical| && canonical[j] == sorted[i];
      EntryAt(es, j);
    }
  }

  lemma AllKeyedKept(items: seq<Value>)
    requires forall i :: 0 <= i < |items| ==> WellFormed(items[i])
    ensures AllKeyed(CanonicalItems(items)) <==> AllKeyed(items)
  {
    hide Canonical, SchemaArrayItemSortKey;
    forall i | 0 <= i < |items| ensures Keyed(CanonicalItems(items)[i]) <==> Keyed(items[i]) {
      ItemAt(items, i);
      CanonicalKeeps(items[i]);
    }
  }

  // ------------------------------------------------------ bags and removal

  lemma {:induction false} CanonicalItemsAppend(a: seq<Value>, b: seq<Value>)
    ensures CanonicalItems(a + b) == CanonicalItems(a) + CanonicalItems(b)
  {
    hide Canonical;
    if a == [] {
      assert a + b == b;
    } else {
      assert (a + b)[1..] == a[1..] + b;
      CanonicalItemsAppend(a[1..], b);
    }
  }

  lemma {:induction false} CanonicalEntriesAppend(a: seq<Entry>, b: seq<Entry>)
    ensures CanonicalEntries(a + b) == CanonicalEntries(a) + CanonicalEntries(b)
  {
    hide Canonical;
    if a == [] {
      assert a + b == b;
    } else {
      assert (a + b)[1..] == a[1..] + b;
      CanonicalEntriesAppend(a[1..], b);
    }
  }

  lemma BagWithout<T>(xs: seq<T>, j: nat)
    requires j < |xs|
    ensures multiset(xs) == multiset(Remove(xs, j)) + multiset{xs[j]}
  {
    assert xs == xs[..j] + [xs[j]] + xs[j + 1..];
  }

  lemma RemoveCons<T>(xs: seq<T>, j: nat)
    requires 0 < j < |xs|
    ensures Remove(xs, j) == [xs[0]] + Remove(xs[1..], j - 1)
  {
    assert xs[1..][..j - 1] == xs[1..j] && xs[1..][j..] == xs[j + 1..] && xs[..j] == [xs[0]] + xs[1..j];
  }

  /** Taking matching elements out of two equal bags leaves equal bags. */
  lemma BagRest<T>(xs: seq<T>, ys: seq<T>, j: nat)
    requires multiset(xs) == multiset(ys) && xs != [] && j < |ys| && ys[j] == xs[0]
    ensures multiset(xs[1..]) == multiset(Remove(ys, j))
  {
    TailBag(xs);
    BagWithout(ys, j);
  }

  lemma FindFirst<T>(xs: seq<T>, ys: seq<T>) returns (j: nat)
    requires multiset(xs) == multiset(ys) && xs != []
    ensures j < |ys| && ys[j] == xs[0]
  {
    assert xs[0] in multiset(ys);
    j :| 0 <= j < |ys| && ys[j] == xs[0];
  }

  lemma CanonicalItemsTail(items: seq<Value>)
    requires items != []
    ensures CanonicalItems(items)[1..] == CanonicalItems(items[1..]) && CanonicalItems(items)[0] == Canonical(items[0])
  {
    hide Canonical;
  }

  lemma CanonicalEntriesTail(es: seq<Entry>)
    requires es != []
    ensures CanonicalEntries(es)[1..] == CanonicalEntries(es[1..])
    ensures CanonicalEntries(es)[0] == Entry(es[0].key, Canonical(es[0].value))
  {
    hide Canonical;
  }

  lemma {:induction false} CanonicalItemsRemove(items: seq<Value>, j: nat)
    requires j < |items|
    ensures CanonicalItems(Remove(items, j)) == Remove(CanonicalItems(items), j)
  {
    hide Canonical;
    CanonicalItemsTail(items);
    if j == 0 {
      assert Remove(items, 0) == items[1..] && Remove(CanonicalItems(items), 0) == CanonicalItems(items)[1..];
    } else {
      RemoveCons(items, j);
      RemoveCons(CanonicalItems(items), j);
      CanonicalItemsRemove(items[1..], j - 1);
      CanonicalItemsTail(Remove(items, j));
      assert Remove(items, j)[1..] == Remove(items[1..], j - 1);
    }
  }

  lemma {:induction false} CanonicalEntriesRemove(es: seq<Entry>, j: nat)
    requires j < |es|
    ensures CanonicalEntries(Remove(es, j)) == Remove(CanonicalEntries(es), j)
  {
    hide Canonical;
    CanonicalEntriesTail(es);
    if j == 0 {
      assert Remove(es, 0) == es[1..] && Remove(CanonicalEntries(es), 0) == CanonicalEntries(es)[1..];
    } else {
      RemoveCons(es, j);
      RemoveCons(CanonicalEntries(es), j);
      CanonicalEntriesRemove(es[1..], j - 1);
      CanonicalEntriesTail(Remove(es, j));
      assert Remove(es, j)[1..] == Remove(es[1..], j - 1);
    }
  }

  // --------------------------------------- equivalent values, same form

  ghost predicate AllWellFormed(items: seq<Value>) { forall i :: 0 <= i < |items| ==> WellFormed(items[i]) }

  ghost predicate AllValuesWellFormed(es: seq<Entry>) { forall i :: 0 <= i < |es| ==> WellFormed(es[i].value) }

  lemma {:induction false} SameBagSameForms(a: seq<Value>, b: seq<Value>)
    requires AllWellFormed(a) && AllWellFormed(b) && SameBag(a, b)
    ensures multiset(CanonicalItems(a)) == multiset(CanonicalItems(b))
    decreases a, 0
  {
    hide Canonical, Equivalent, WellFormed;
    if a != [] {
      var j :| 0 <= j < |b| && Equivalent(a[0], b[j]) && SameBag(a[1..], Remove(b, j));
      EquivalentSameForm(a[0], b[j]);
      SameBagSameForms(a[1..], Remove(b, j));
      CanonicalItemsRemove(b, j);
      ItemAt(b, j);
      BagWithout(CanonicalItems(b), j);
    }
  }

  lemma {:induction false} SameListSameForms(a: seq<Value>, b: seq<Value>)
    requires AllWellFormed(a) && AllWellFormed(b) && SameList(a, b)
    ensures CanonicalItems(a) == CanonicalItems(b)
    decreases a, 0
  {
    hide Canonical, Equivalent, WellFormed;
    forall i | 0 <= i < |a| ensures CanonicalItems(a)[i] == CanonicalItems(b)[i] {
      EquivalentSameForm(a[i], b[i]);
      ItemAt(a, i);
      ItemAt(b, i);
    }
  }

  lemma {:induction false} SameEntriesSameForms(a: seq<Entry>, b: seq<Entry>)
    requires AllValuesWellFormed(a) && AllValuesWellFormed(b) && SameEntries(a, b)
    ensures multiset(CanonicalEntries(a)) == multiset(CanonicalEntries(b))
    decreases a, 0
  {
    hide Canonical, Equivalent, WellFormed;
    if a != [] {
      var j :| 0 <= j < |b| && a[0].key == b[j].key && Equivalent(a[0].value, b[j].value)
          && SameEntries(a[1..], Remove(b, j));
      EquivalentSameForm(a[0].value, b[j].value);
      SameEntriesSameForms(a[1..], Remove(b, j));
      CanonicalEntriesRemove(b, j);
      EntryAt(b, j);
      BagWithout(CanonicalEntries(b), j);
    }
  }

  /** Sorting forgets the order its input came in. */
  lemma SortItemsForgets(a: seq<Value>, b: seq<Value>)
    requires AllWellFormed(a) && multiset(a) == multiset(b)
    ensures SortBy(a, ItemLeq) == SortBy(b, ItemLeq)
  {
    hide WellFormed, ItemLeq;
    var x, y := SortBy(a, ItemLeq), SortBy(b, ItemLeq);
    ItemLeqRanks();
    SortKeeps(a, ItemLeq);
    SortKeeps(b, ItemLeq);
    SortSorts(a, ItemLeq);
    SortSorts(b, ItemLeq);
    SameBagSameMembers(a, x);
    forall u, v | u in x && v in x && ItemLeq(u, v) && ItemLeq(v, u) ensures u == v { ItemLeqAntisymmetric(u, v); }
    SortedIsUnique(x, y, ItemLeq);
  }

  lemma SortEntriesForgets(a: seq<Entry>, b: seq<Entry>)
    requires DistinctKeys(a) && multiset(a) == multiset(b)
    ensures SortBy(a, EntryLeq) == SortBy(b, EntryLeq)
  {
    var x, y := SortBy(a, EntryLeq), SortBy(b, EntryLeq);
    EntryLeqRanks();
    SortKeeps(a, EntryLeq);
    SortKeeps(b, EntryLeq);
    SortSorts(a, EntryLeq);
    SortSorts(b, EntryLeq);
    SameBagSameMembers(a, x);
    forall u, v | u in x && v in x && EntryLeq(u, v) && EntryLeq(v, u) ensures u == v {
      TextAntisymmetric(u.key, v.key);
      var i :| 0 <= i < |a| && a[i] == u;
      var j :| 0 <= j < |a| && a[j] == v;
    }
    SortedIsUnique(x, y, EntryLeq);
  }

  lemma BagsKeyAlike(a: seq<Value>, b: seq<Value>)
    requires multiset(a) == multiset(b)
    ensures AllKeyed(a) <==> AllKeyed(b)
  {
    hide Keyed;
    SameBagSameMembers(a, b);
    assert AllKeyed(a) <==> forall x :: x in a ==> Keyed(x);
    assert AllKeyed(b) <==> forall x :: x in b ==> Keyed(x);
  }

  lemma ItemsWellFormed(items: seq<Value>)
    requires AllWellFormed(items)
    ensures AllWellFormed(CanonicalItems(items))
  {
    hide Canonical, WellFormed;
    forall i | 0 <= i < |items| ensures WellFormed(CanonicalItems(items)[i]) {
      ItemAt(items, i);
      CanonicalKeeps(items[i]);
    }
  }

  lemma {:induction false} EquivalentSameForm(v: Value, w: Value)
    requires WellFormed(v) && WellFormed(w) && Equivalent(v, w)
    ensures Canonical(v) == Canonical(w)
    decreases v, 1
  {
    hide SortBy, CanonicalItems, CanonicalEntries, SameEntries, SameBag, SameList, AllKeyed, AllSortable;
    match v
    case Array(items) =>
      AllKeyedIsAllSortable(items);
      AllKeyedKept(items);
      AllKeyedKept(w.items);
      ItemsWellFormed(items);
      if AllKeyed(items) {
        SameBagSameForms(items, w.items);
        BagsKeyAlike(CanonicalItems(items), CanonicalItems(w.items));
        SortItemsForgets(CanonicalItems(items), CanonicalItems(w.items));
      } else {
        SameListSameForms(items, w.items);
      }
    case Object(es) =>
      SameEntriesSameForms(es, w.entries);
      GetOfCanonical(es, "");
      SortEntriesForgets(CanonicalEntries(es), CanonicalEntries(w.entries));
    case _ =>
  }

  // --------------------------------------- same form, equivalent values

  lemma {:induction false} SameFormsSameBag(a: seq<Value>, b: seq<Value>)
    requires AllWellFormed(a) && AllWellFormed(b) && multiset(CanonicalItems(a)) == multiset(CanonicalItems(b))
    ensures SameBag(a, b)
    decreases a, 0
  {
    hide Canonical, Equivalent, WellFormed, CanonicalItems;
    assert |multiset(CanonicalItems(a))| == |multiset(CanonicalItems(b))|;
    if a != [] {
      CanonicalItemsTail(a);
      var j := FindFirst(CanonicalItems(a), CanonicalItems(b));
      ItemAt(b, j);
      SameFormEquivalent(a[0], b[j]);
      CanonicalItemsRemove(b, j);
      BagRest(CanonicalItems(a), CanonicalItems(b), j);
      SameFormsSameBag(a[1..], Remove(b, j));
    }
  }

  lemma {:induction false} SameFormsSameEntries(a: seq<Entry>, b: seq<Entry>)
    requires AllValuesWellFormed(a) && AllValuesWellFormed(b)
        && multiset(CanonicalEntries(a)) == multiset(CanonicalEntries(b))
    ensures SameEntries(a, b)
    decreases a, 0
  {
    hide Canonical, Equivalent, WellFormed, CanonicalEntries;
    assert |multiset(CanonicalEntries(a))| == |multiset(CanonicalEntries(b))|;
    if a != [] {
      CanonicalEntriesTail(a);
      var j := FindFirst(CanonicalEntries(a), CanonicalEntries(b));
      EntryAt(b, j);
      SameFormEquivalent(a[0].value, b[j].value);
      CanonicalEntriesRemove(b, j);
      BagRest(CanonicalEntries(a), CanonicalEntries(b), j);
      SameFormsSameEntries(a[1..], Remove(b, j));
    }
  }

  lemma {:induction false} SameFormsSameList(a: seq<Value>, b: seq<Value>)
    requires AllWellFormed(a) && AllWellFormed(b) && CanonicalItems(a) == CanonicalItems(b)
    ensures SameList(a, b)
    decreases a, 0
  {
    hide Canonical, Equivalent, WellFormed;
    forall i | 0 <= i < |a| ensures Equivalent(a[i], b[i]) {
      ItemAt(a, i);
      ItemAt(b, i);
      SameFormEquivalent(a[i], b[i]);
    }
  }

  lemma {:induction false} SameFormEquivalent(v: Value, w: Value)
    requires WellFormed(v) && WellFormed(w) && Canonical(v) == Canonical(w)
    ensures Equivalent(v, w)
    decreases v, 1
  {
    hide SortBy, CanonicalItems, CanonicalEntries, SameEntries, SameBag, SameList, AllKeyed, AllSortable;
    match v
    case Array(items) =>
      var a, b := CanonicalItems(items), CanonicalItems(w.items);
      AllKeyedIsAllSortable(items);
      AllKeyedKept(items);
      AllKeyedKept(w.items);
      SortKeeps(a, ItemLeq);
      SortKeeps(b, ItemLeq);
      BagsKeyAlike(a, SortBy(a, ItemLeq));
      BagsKeyAlike(b, SortBy(b, ItemLeq));
      if AllKeyed(items) {
        SameFormsSameBag(items, w.items);
      } else {
        SameFormsSameList(items, w.items);
      }
    case Object(es) =>
      SortKeeps(CanonicalEntries(es), EntryLeq);
      SortKeeps(CanonicalEntries(w.entries), EntryLeq);
      SameFormsSameEntries(es, w.entries);
    case _ =>
  }

  // ---------------------------------------------------------- main results

  /** Canonicalisation decides the equivalence. */
  lemma CanonicalDecidesEquivalence(v: Value, w: Value)
    requires WellFormed(v) && WellFormed(w)
    ensures Canonical(v) == Canonical(w) <==> Equivalent(v, w)
  {
    if Equivalent(v, w) { EquivalentSameForm(v, w); }
    if Canonical(v) == Canonical(w) { SameFormEquivalent(v, w); }
  }

  /** A canonical form is equivalent to its value and is its own canonical form. */
  lemma {:induction false} CanonicalIsEquivalent(v: Value)
    requires WellFormed(v)
    ensures Equivalent(v, Canonical(v)) && Canonical(Canonical(v)) == Canonical(v)
  {
    CanonicalKeeps(v);
    CanonicalIdempotent(v);
    CanonicalDecidesEquivalence(v, Canonical(v));
  }

  /** An array already in canonical order is left alone. */
  lemma SortOfSorted(items: seq<Value>)
    requires AllWellFormed(items)
    ensures SortBy(SortBy(items, ItemLeq), ItemLeq) == SortBy(items, ItemLeq)
  {
    SortKeeps(items, ItemLeq);
    SortItemsForgets(items, SortBy(items, ItemLeq));
  }

  lemma FixedItems(items: seq<Value>)
    requires forall x :: x in items ==> Canonical(x) == x
    ensures CanonicalItems(items) == items
  {
    hide Canonical;
    forall i | 0 <= i < |items| ensures CanonicalItems(items)[i] == items[i] {
      ItemAt(items, i);
      assert items[i] in items;
    }
  }

  lemma FixedEntries(es: seq<Entry>)
    requires forall e :: e in es ==> Canonical(e.value) == e.value
    ensures CanonicalEntries(es) == es
  {
    hide Canonical;
    forall i | 0 <= i < |es| ensures CanonicalEntries(es)[i] == es[i] {
      EntryAt(es, i);
      assert es[i] in es;
    }
  }

  lemma {:induction false} CanonicalIdempotent(v: Value)
    requires WellFormed(v)
    ensures Canonical(Canonical(v)) == Canonical(v)
    decreases v
  {
    hide SortBy, CanonicalItems, CanonicalEntries, AllKeyed;
    match v
    case Array(items) =>
      var a := CanonicalItems(items);
      var sorted := SortBy(a, ItemLeq);
      ItemsWellFormed(items);
      SortKeeps(a, ItemLeq);
      SameBagSameMembers(a, sorted);
      BagsKeyAlike(a, sorted);
      SortOfSorted(a);
      forall x | x in a ensures Canonical(x) == x {
        var i :| 0 <= i < |a| && a[i] == x;
        ItemAt(items, i);
        CanonicalIdempotent(items[i]);
      }
      FixedItems(a);
      FixedItems(sorted);
    case Object(es) =>
      var a := CanonicalEntries(es);
      var sorted := SortBy(a, EntryLeq);
      GetOfCanonical(es, "");
      SortKeeps(a, EntryLeq);
      SameBagSameMembers(a, sorted);
      SortEntriesForgets(a, sorted);
      forall e | e in a ensures Canonical(e.value) == e.value {
        var i :| 0 <= i < |a| && a[i] == e;
        EntryAt(es, i);
        CanonicalIdempotent(es[i].value);
      }
      FixedEntries(sorted);
    case _ =>
  }

  // ------------------------------------------------------ the source's form

  lemma {:induction false} InsertCommutes(e: Entry, es: seq<Entry>)
    ensures CanonicalEntries(Insert(e, es, EntryLeq))
         == Insert(Entry(e.key, Canonical(e.value)), CanonicalEntries(es), EntryLeq)
  {
    hide Canonical, TextLeq;
    if es == [] || EntryLeq(e, es[0]) {
      assert ([e] + es)[1..] == es;
    } else {
      InsertCommutes(e, es[1..]);
      assert ([es[0]] + Insert(e, es[1..], EntryLeq))[1..] == Insert(e, es[1..], EntryLeq);
      assert CanonicalEntries(es)[1..] == CanonicalEntries(es[1..]);
    }
  }

  /** Entries are sorted by keys that canonicalising does not touch, so either may come first. */
  lemma {:induction false} SortCommutes(es: seq<Entry>)
    ensures CanonicalEntries(SortBy(es, EntryLeq)) == SortBy(CanonicalEntries(es), EntryLeq)
  {
    hide Canonical, TextLeq;
    if es != [] {
      SortCommutes(es[1..]);
      InsertCommutes(es[0], SortBy(es[1..], EntryLeq));
      assert CanonicalEntries(es)[1..] == CanonicalEntries(es[1..]);
    }
  }

  /** The canonicaliser as written: it collects canonical children into vectors, gives up sorting at
      the first child without a key, and sorts object entries before visiting them. */
  method CanonicalizeJson(value: Value) returns (canonical: Value)
    ensures canonical == Canonical(value)
    decreases value, 1
  {
    hide SortBy, CanonicalItems, CanonicalEntries, SchemaArrayItemSortKey;
    match value
    case Array(source) =>
      var items := CanonicalizeItems(source);
      for i := 0 to |items|
        invariant AllKeyed(items[..i])
      {
        if SchemaArrayItemSortKey(items[i]).None? {
          assert !Keyed(items[i]);
          return Array(items);
        }
      }
      assert items[..|items|] == items;
      canonical := Array(SortBy(items, ItemLeq));
    case Object(es) =>
      var entries := SortBy(es, EntryLeq);
      SortKeeps(es, EntryLeq);
      SameBagSameMembers(es, entries);
      SortCommutes(es);
      var sorted: seq<Entry> := [];
      NoEntries();
      for i := 0 to |entries|
        invariant sorted == CanonicalEntries(entries[..i])
      {
        assert entries[i] in es;
        var child := CanonicalizeJson(entries[i].value);
        CanonicalEntriesSnoc(entries, i);
        sorted := sorted + [Entry(entries[i].key, child)];
      }
      assert entries[..|entries|] == entries;
      canonical := Object(sorted);
    case _ => canonical := value;
  }

  method CanonicalizeItems(source: seq<Value>) returns (items: seq<Value>)
    ensures items == CanonicalItems(source)
    decreases source, 0
  {
    hide Canonical;
    items := [];
    for i := 0 to |source|
      invariant items == CanonicalItems(source[..i])
    {
      var item := CanonicalizeJson(source[i]);
      assert source[..i + 1] == source[..i] + [source[i]];
      CanonicalItemsAppend(source[..i], [source[i]]);
      items := items + [item];
    }
    assert source[..|source|] == source;
  }

  lemma NoEntries()
    ensures CanonicalEntries([]) == []
  {
  }

  lemma CanonicalEntriesSnoc(es: seq<Entry>, i: nat)
    requires i < |es|
    ensures CanonicalEntries(es[..i + 1]) == CanonicalEntries(es[..i]) + [Entry(es[i].key, Canonical(es[i].value))]
  {
    hide Canonical;
    assert es[..i + 1] == es[..i] + [es[i]];
    CanonicalEntriesAppend(es[..i], [es[i]]);
  }
}
