/**
 * A target's preprocessor definitions: a Python dict from name to an optional
 * value, which remembers the order in which names were first set.
 */
module Definitions {
  import opened Wrappers
  import opened SeqUtil

  /** A definitions dict: the keys in insertion order and the current values. */
  datatype Defs = Defs(order: seq<string>, values: map<string, Option<string>>) {

    /** The dict's own invariant: the order lists each key exactly once. */
    ghost predicate Valid() {
      NoDup(order) && forall k :: k in order <==> k in values
    }

    /** dict.items(), in insertion order. */
    function Items(): (r: seq<(string, Option<string>)>)
      ensures |r| == |order|
      ensures forall i | 0 <= i < |r| :: r[i].0 == order[i]
      ensures Valid() ==> forall i | 0 <= i < |r| :: r[i].1 == values[order[i]]
    {
      seq(|order|, i requires 0 <= i < |order| => (order[i], if order[i] in values then values[order[i]] else None))
    }
  }

  const Empty := Defs([], map[])

  /** `d[key] = value`: an existing key keeps its place, a new key goes last. */
  function SetDef(d: Defs, key: string, value: Option<string>): (r: Defs)
    ensures r.values == d.values[key := value]
    ensures key in d.values ==> r.order == d.order
    ensures key !in d.values ==> r.order == d.order + [key]
    ensures d.Valid() ==> r.Valid()
  {
    if key in d.values then Defs(d.order, d.values[key := value])
    else Defs(d.order + [key], d.values[key := value])
  }

  /** Setting the same key to the same value again changes nothing. */
  lemma SetDefTwice(d: Defs, key: string, value: Option<string>)
    ensures SetDef(SetDef(d, key, value), key, value) == SetDef(d, key, value)
  {
    assert SetDef(d, key, value).values[key := value] == SetDef(d, key, value).values;
  }

  /** `for k, v in items: d[k] = v`. */
  function SetDefs(d: Defs, items: seq<(string, Option<string>)>): Defs
    decreases |items|
  {
    if |items| == 0 then d
    else
      var last := items[|items| - 1];
      SetDef(SetDefs(d, items[..|items| - 1]), last.0, last.1)
  }

  /** The dict built from items alone: the last value given to each key. */
  function ItemsMap(items: seq<(string, Option<string>)>): (m: map<string, Option<string>>)
    ensures forall k :: k in m <==> exists i | 0 <= i < |items| :: items[i].0 == k
    decreases |items|
  {
    if |items| == 0 then map[]
    else
      var last := items[|items| - 1];
      var m := ItemsMap(items[..|items| - 1])[last.0 := last.1];
      assert forall k | k in m :: exists i | 0 <= i < |items| :: items[i].0 == k by {
        forall k | k in m
          ensures exists i | 0 <= i < |items| :: items[i].0 == k
        {
          if k != last.0 {
            var i :| 0 <= i < |items| - 1 && items[..|items| - 1][i].0 == k;
            assert items[i].0 == k;
          }
        }
      }
      m
  }

  /** Applying items overrides the dict's values with the items' final values. */
  lemma {:induction false} SetDefsValues(d: Defs, items: seq<(string, Option<string>)>)
    ensures SetDefs(d, items).values == d.values + ItemsMap(items)
    decreases |items|
  {
    if |items| > 0 {
      SetDefsValues(d, items[..|items| - 1]);
    }
  }

  /** Applying items whose keys are all present already keeps the insertion order. */
  lemma {:induction false} SetDefsOrderPresent(d: Defs, items: seq<(string, Option<string>)>)
    requires forall i | 0 <= i < |items| :: items[i].0 in d.values
    ensures SetDefs(d, items).order == d.order
    decreases |items|
  {
    if |items| > 0 {
      var prefix := items[..|items| - 1];
      SetDefsOrderPresent(d, prefix);
      SetDefsValues(d, prefix);
    }
  }

  /** Applying the same items a second time changes nothing. */
  lemma SetDefsIdempotent(d: Defs, items: seq<(string, Option<string>)>)
    ensures SetDefs(SetDefs(d, items), items) == SetDefs(d, items)
  {
    var once := SetDefs(d, items);
    SetDefsValues(d, items);
    SetDefsValues(once, items);
    forall i | 0 <= i < |items|
      ensures items[i].0 in once.values
    {
      assert items[i].0 in ItemsMap(items);
    }
    SetDefsOrderPresent(once, items);
    assert once.values + ItemsMap(items) == once.values;
  }

  /** A dict's own items, applied to it, leave it as it is. */
  lemma SetDefsOwnItems(d: Defs)
    requires d.Valid()
    ensures SetDefs(d, d.Items()) == d
  {
    var items := d.Items();
    SetDefsValues(d, items);
    OwnItemsPresent(d);
    SetDefsOrderPresent(d, items);
    OwnItemsAgree(d);
    OverrideAgreeing(d.values, ItemsMap(items));
  }

  lemma OwnItemsPresent(d: Defs)
    requires d.Valid()
    ensures forall i | 0 <= i < |d.Items()| :: d.Items()[i].0 in d.values
  {
    var items := d.Items();
    forall i | 0 <= i < |items|
      ensures items[i].0 in d.values
    {
      assert items[i].0 == d.order[i];
    }
  }

  lemma OwnItemsAgree(d: Defs)
    requires d.Valid()
    ensures forall k | k in ItemsMap(d.Items()) :: k in d.values && ItemsMap(d.Items())[k] == d.values[k]
  {
    ItemsMapOfItems(d, |d.order|);
    TakeWhole(d.Items(), |d.order|);
  }

  /** Overriding a map by entries it already has changes nothing. */
  lemma OverrideAgreeing<K, V>(m: map<K, V>, n: map<K, V>)
    requires forall k | k in n :: k in m && n[k] == m[k]
    ensures m + n == m
  {
  }

  lemma {:induction false} ItemsMapOfItems(d: Defs, n: nat)
    requires d.Valid()
    requires n <= |d.order|
    ensures forall k | k in ItemsMap(d.Items()[..n]) :: k in d.values && ItemsMap(d.Items()[..n])[k] == d.values[k]
    decreases n
  {
    var items := d.Items();
    if n > 0 {
      ItemsMapOfItems(d, n - 1);
      assert items[..n][..n - 1] == items[..n - 1];
    } else {
      assert items[..n] == [];
    }
  }
}
