/** OrderCreate.fingerprint: the canonical text that is hashed into the request hash. */
module Fingerprint {
  import opened Texts
  import opened Json
  import opened Models

  function SortKey(item: Item): string { UuidText(item.product) }

  /** sorted(..., key=...) is stable, so an equal key stays in front of those that came later. */
  function InsertItem(item: Item, sorted: seq<Item>): seq<Item> {
    if sorted == [] || !TextLess(SortKey(sorted[0]), SortKey(item)) then [item] + sorted
    else [sorted[0]] + InsertItem(item, sorted[1..])
  }

  function SortItems(items: seq<Item>): seq<Item> {
    if items == [] then [] else InsertItem(items[0], SortItems(items[1..]))
  }

  function ItemJson(item: Item): Json {
    Obj([Field("product_id", Str(UuidText(item.product))), Field("quantity", Int(item.quantity))])
  }

  function ItemsJson(items: seq<Item>): (js: seq<Json>)
    ensures |js| == |items|
  {
    if items == [] then [] else [ItemJson(items[0])] + ItemsJson(items[1..])
  }

  function CanonicalJson(customer: Uuid, items: seq<Item>): Json {
    Obj([Field("customer_id", Str(UuidText(customer))), Field("items", Arr(ItemsJson(SortItems(items))))])
  }

  /** The text before hashing. */
  function CanonicalText(customer: Uuid, items: seq<Item>): string {
    Print(CanonicalJson(customer, items))
  }

  ghost predicate Injective(digest: string -> string) {
    forall a, b :: digest(a) == digest(b) ==> a == b
  }

  function FingerprintOf(customer: Uuid, items: seq<Item>, digest: string -> string): string {
    digest(CanonicalText(customer, items))
  }

  /* ---- sorting distinct keys is canonical ---- */

  predicate StrictlySorted(items: seq<Item>) {
    forall i, j :: 0 <= i < j < |items| ==> TextLess(SortKey(items[i]), SortKey(items[j]))
  }

  lemma {:induction false} InsertKeepsItems(item: Item, sorted: seq<Item>)
    ensures multiset(InsertItem(item, sorted)) == multiset(sorted) + multiset{item}
  {
    if sorted != [] && TextLess(SortKey(sorted[0]), SortKey(item)) {
      InsertKeepsItems(item, sorted[1..]);
      assert sorted == [sorted[0]] + sorted[1..];
    }
  }

  lemma {:induction false} SortKeepsItems(items: seq<Item>)
    ensures multiset(SortItems(items)) == multiset(items)
  {
    if items != [] {
      SortKeepsItems(items[1..]);
      InsertKeepsItems(items[0], SortItems(items[1..]));
      assert items == [items[0]] + items[1..];
    }
  }

  lemma {:induction false} InsertSorts(item: Item, sorted: seq<Item>)
    requires StrictlySorted(sorted)
    requires forall i :: 0 <= i < |sorted| ==> sorted[i].product != item.product
    ensures StrictlySorted(InsertItem(item, sorted))
  {
    if sorted != [] {
      var head := sorted[0];
      UuidTextInjective(head.product, item.product);
      TextLessTotal(SortKey(head), SortKey(item));
      if TextLess(SortKey(head), SortKey(item)) {
        var rest := sorted[1..];
        assert forall i :: 0 <= i < |rest| ==> rest[i] == sorted[i + 1];
        InsertSorts(item, rest);
        var r := InsertItem(item, rest);
        InsertKeepsItems(item, rest);
        forall i | 0 <= i < |r|
          ensures TextLess(SortKey(head), SortKey(r[i]))
        {
          assert r[i] in multiset(r);
          assert r[i] == item || r[i] in rest;
        }
      } else {
        forall i | 0 <= i < |sorted|
          ensures TextLess(SortKey(item), SortKey(sorted[i]))
        {
          if i > 0 {
            TextLessTransitive(SortKey(item), SortKey(head), SortKey(sorted[i]));
          }
        }
      }
    }
  }

  lemma {:induction false} SortSorts(items: seq<Item>)
    requires Distinct(items)
    ensures StrictlySorted(SortItems(items))
  {
    if items != [] {
      var rest := items[1..];
      assert forall i :: 0 <= i < |rest| ==> rest[i] == items[i + 1];
      SortSorts(rest);
      SortKeepsItems(rest);
      var sorted := SortItems(rest);
      forall i | 0 <= i < |sorted|
        ensures sorted[i].product != items[0].product
      {
        assert sorted[i] in multiset(sorted);
        assert sorted[i] in rest;
      }
      InsertSorts(items[0], sorted);
    }
  }

  lemma SmallestFirst(a: seq<Item>, b: seq<Item>)
    requires StrictlySorted(a) && StrictlySorted(b)
    requires multiset(a) == multiset(b) && a != []
    ensures b != [] && a[0] == b[0]
  {
    assert |b| == |multiset(b)| == |multiset(a)| == |a|;
    assert a[0] in multiset(b) && b[0] in multiset(a);
    var i :| 0 <= i < |b| && b[i] == a[0];
    var j :| 0 <= j < |a| && a[j] == b[0];
    if i > 0 && j > 0 {
      TextLessTotal(SortKey(b[0]), SortKey(a[0]));
      assert false;
    }
  }

  lemma {:induction false} SortedIsUnique(a: seq<Item>, b: seq<Item>)
    requires StrictlySorted(a) && StrictlySorted(b)
    requires multiset(a) == multiset(b)
    ensures a == b
  {
    if a == [] {
      assert |b| == |multiset(b)| == 0;
    } else {
      SmallestFirst(a, b);
      assert a == [a[0]] + a[1..] && b == [b[0]] + b[1..];
      assert multiset(a[1..]) == multiset(a) - multiset{a[0]};
      assert multiset(b[1..]) == multiset(b) - multiset{b[0]};
      SortedIsUnique(a[1..], b[1..]);
    }
  }

  /* ---- the text determines the order ---- */

  /** Distinct items sort to the same list exactly when they are permutations of each other. */
  lemma SortIsCanonical(a: seq<Item>, b: seq<Item>)
    requires Distinct(a) && Distinct(b)
    ensures SortItems(a) == SortItems(b) <==> multiset(a) == multiset(b)
  {
    SortKeepsItems(a);
    SortKeepsItems(b);
    if multiset(a) == multiset(b) {
      SortSorts(a);
      SortSorts(b);
      SortedIsUnique(SortItems(a), SortItems(b));
    }
  }

  lemma {:induction false} ItemsJsonInjective(a: seq<Item>, b: seq<Item>)
    requires ItemsJson(a) == ItemsJson(b)
    ensures a == b
  {
    assert |a| == |b|;
    if a != [] {
      assert ItemsJson(a)[0] == ItemJson(a[0]) && ItemsJson(b)[0] == ItemJson(b[0]);
      assert ItemJson(a[0]).fields[0].value == ItemJson(b[0]).fields[0].value;
      assert ItemJson(a[0]).fields[1].value == ItemJson(b[0]).fields[1].value;
      UuidTextInjective(a[0].product, b[0].product);
      assert ItemsJson(a)[1..] == ItemsJson(a[1..]) && ItemsJson(b)[1..] == ItemsJson(b[1..]);
      ItemsJsonInjective(a[1..], b[1..]);
      assert a == [a[0]] + a[1..] && b == [b[0]] + b[1..];
    }
  }

  lemma PrintInjective(a: Json, b: Json)
    requires Print(a) == Print(b)
    ensures a == b
  {
    ParsePrint(a);
    ParsePrint(b);
  }

  /** Two valid orders share their canonical text exactly when they have the same customer and the same items in any order. */
  lemma CanonicalTextIsCanonical(customer1: Uuid, items1: seq<Item>, customer2: Uuid, items2: seq<Item>)
    requires Distinct(items1) && Distinct(items2)
    ensures CanonicalText(customer1, items1) == CanonicalText(customer2, items2)
       <==> customer1 == customer2 && multiset(items1) == multiset(items2)
  {
    var sorted1, sorted2 := SortItems(items1), SortItems(items2);
    SortKeepsItems(items1);
    SortKeepsItems(items2);
    if CanonicalText(customer1, items1) == CanonicalText(customer2, items2) {
      var a, b := CanonicalJson(customer1, items1), CanonicalJson(customer2, items2);
      PrintInjective(a, b);
      assert a.fields[0].value == b.fields[0].value && a.fields[1].value == b.fields[1].value;
      UuidTextInjective(customer1, customer2);
      ItemsJsonInjective(sorted1, sorted2);
    }
    if customer1 == customer2 && multiset(items1) == multiset(items2) {
      SortSorts(items1);
      SortSorts(items2);
      SortedIsUnique(sorted1, sorted2);
    }
  }

  /** With a digest that has no collisions the same holds of the stored request hash. */
  lemma FingerprintIsCanonical(
    customer1: Uuid, items1: seq<Item>, customer2: Uuid, items2: seq<Item>, digest: string -> string)
    requires Distinct(items1) && Distinct(items2) && Injective(digest)
    ensures FingerprintOf(customer1, items1, digest) == FingerprintOf(customer2, items2, digest)
       <==> customer1 == customer2 && multiset(items1) == multiset(items2)
  {
    CanonicalTextIsCanonical(customer1, items1, customer2, items2);
  }
}
