/** The order in which waiting work is started: one item of every recipe in turn. */
module RecipeOrder {
  import opened Wrappers

  datatype Item = Item(id: nat, recipe: Option<string>)

  /** Items without a recipe share the queue of the empty name. */
  function RecipeKey(item: Item): string {
    if item.recipe.None? then "" else item.recipe.value
  }

  /** The items of one recipe, in their order. */
  function OfRecipe(items: seq<Item>, key: string): seq<Item> {
    if items == [] then []
    else if RecipeKey(items[0]) == key then [items[0]] + OfRecipe(items[1..], key)
    else OfRecipe(items[1..], key)
  }

  function Count(items: seq<Item>, key: string): nat {
    |OfRecipe(items, key)|
  }

  lemma {:induction false} OfRecipeSnoc(items: seq<Item>, item: Item, key: string)
    ensures OfRecipe(items + [item], key) == OfRecipe(items, key) + if RecipeKey(item) == key then [item] else []
  {
    if items != [] {
      assert (items + [item])[1..] == items[1..] + [item];
      OfRecipeSnoc(items[1..], item, key);
    } else {
      assert items + [item] == [item];
    }
  }

  /** In every prefix no recipe is more than one item ahead of a recipe that still has items to come. */
  ghost predicate Fair(mixed: seq<Item>, items: seq<Item>) {
    forall n, r, s :: 0 <= n <= |mixed| && Count(mixed[..n], s) < Count(items, s) ==>
      Count(mixed[..n], r) <= Count(mixed[..n], s) + 1
  }

  /** The same items, each recipe's in its own order. */
  ghost predicate SameByRecipe(mixed: seq<Item>, items: seq<Item>) {
    forall key :: OfRecipe(mixed, key) == OfRecipe(items, key)
  }

  lemma {:induction false} CountedInItsRecipe(items: seq<Item>, x: Item)
    ensures multiset(items)[x] == multiset(OfRecipe(items, RecipeKey(x)))[x]
  {
    if items != [] {
      CountedInItsRecipe(items[1..], x);
      assert items == [items[0]] + items[1..];
    }
  }

  /** Lists that agree recipe by recipe hold the same items. */
  lemma SameItems(mixed: seq<Item>, items: seq<Item>)
    requires SameByRecipe(mixed, items)
    ensures multiset(mixed) == multiset(items)
  {
    forall x ensures multiset(mixed)[x] == multiset(items)[x] {
      CountedInItsRecipe(mixed, x);
      CountedInItsRecipe(items, x);
      assert OfRecipe(mixed, RecipeKey(x)) == OfRecipe(items, RecipeKey(x));
    }
  }

  // ----- grouping

  /** One non-empty queue for every recipe that occurs, in the order of first occurrence. */
  ghost predicate Grouped(items: seq<Item>, keys: seq<string>, queues: seq<seq<Item>>) {
    && |keys| == |queues|
    && (forall i, j :: 0 <= i < j < |keys| ==> keys[i] != keys[j])
    && (forall i :: 0 <= i < |keys| ==> queues[i] == OfRecipe(items, keys[i]))
    && (forall key :: key !in keys ==> OfRecipe(items, key) == [])
  }

  method GroupByRecipe(items: seq<Item>) returns (keys: seq<string>, queues: seq<seq<Item>>)
    ensures Grouped(items, keys, queues)
  {
    keys, queues := [], [];
    for n := 0 to |items|
      invariant Grouped(items[..n], keys, queues)
    {
      var item := items[n];
      var key := RecipeKey(item);
      assert items[..n + 1] == items[..n] + [item];
      forall k ensures OfRecipe(items[..n + 1], k) == OfRecipe(items[..n], k) + if key == k then [item] else [] {
        OfRecipeSnoc(items[..n], item, k);
      }
      var at := FindKey(keys, key);
      if at < |keys| {
        queues := queues[at := queues[at] + [item]];
      } else {
        keys, queues := keys + [key], queues + [[item]];
      }
    }
    assert items[..|items|] == items;
  }

  method FindKey(keys: seq<string>, key: string) returns (at: nat)
    ensures at <= |keys| && (at < |keys| ==> keys[at] == key) && (at == |keys| ==> key !in keys)
  {
    at := 0;
    while at < |keys|
      invariant at <= |keys| && key !in keys[..at]
    {
      if keys[at] == key { return; }
      at := at + 1;
    }
  }

  // ----- taking turns

  function Min(a: nat, b: nat): nat {
    if a < b then a else b
  }

  /** How many items queue `i` has given after `round` full rounds and the turns of the first `turn` queues. */
  function Given(size: nat, round: nat, turn: nat, i: nat): nat {
    Min(size, if i < turn then round + 1 else round)
  }

  ghost predicate InTurn(mixed: seq<Item>, keys: seq<string>, groups: seq<seq<Item>>, queues: seq<seq<Item>>,
                   round: nat, turn: nat)
  {
    && |queues| == |groups| == |keys|
    && (forall i :: 0 <= i < |keys| ==>
          var given := Given(|groups[i]|, round, turn, i);
          OfRecipe(mixed, keys[i]) == groups[i][..given] && queues[i] == groups[i][given..])
    && (forall key :: key !in keys ==> OfRecipe(mixed, key) == [])
  }

  /** In turn, every recipe that still has items has had at least the full rounds, and none has had more than one more. */
  lemma InTurnIsFair(mixed: seq<Item>, items: seq<Item>, keys: seq<string>, groups: seq<seq<Item>>,
                     queues: seq<seq<Item>>, round: nat, turn: nat)
    requires Grouped(items, keys, groups) && InTurn(mixed, keys, groups, queues, round, turn)
    ensures forall r, s :: Count(mixed, s) < Count(items, s) ==> Count(mixed, r) <= Count(mixed, s) + 1
  {
  }

  lemma FairSnoc(mixed: seq<Item>, item: Item, items: seq<Item>)
    requires Fair(mixed, items)
    requires forall r, s :: Count(mixed + [item], s) < Count(items, s) ==>
               Count(mixed + [item], r) <= Count(mixed + [item], s) + 1
    ensures Fair(mixed + [item], items)
  {
    hide Count;
    var longer := mixed + [item];
    forall n, r, s | 0 <= n <= |longer| && Count(longer[..n], s) < Count(items, s)
      ensures Count(longer[..n], r) <= Count(longer[..n], s) + 1
    {
      if n == |longer| {
        assert longer[..n] == longer;
      } else {
        assert longer[..n] == mixed[..n];
      }
    }
  }

  /** Queue `turn` gives its next item, or has none. */
  lemma TakeTurn(mixed: seq<Item>, keys: seq<string>, groups: seq<seq<Item>>, queues: seq<seq<Item>>,
                 items: seq<Item>, round: nat, turn: nat)
    requires Grouped(items, keys, groups) && InTurn(mixed, keys, groups, queues, round, turn) && turn < |keys|
    ensures queues[turn] == [] ==> InTurn(mixed, keys, groups, queues, round, turn + 1)
    ensures queues[turn] != [] ==>
              InTurn(mixed + [queues[turn][0]], keys, groups, queues[turn := queues[turn][1..]], round, turn + 1)
  {
    hide OfRecipe, RecipeKey;
    var given := Given(|groups[turn]|, round, turn, turn);
    if queues[turn] != [] {
      var item := queues[turn][0];
      assert item == groups[turn][given];
      OfRecipeKeys(items, keys[turn], given);
      forall key ensures OfRecipe(mixed + [item], key) == OfRecipe(mixed, key) + if RecipeKey(item) == key then [item] else [] {
        OfRecipeSnoc(mixed, item, key);
      }
      assert groups[turn][..given + 1] == groups[turn][..given] + [item];
      assert groups[turn][given..][1..] == groups[turn][given + 1..];
    }
  }

  lemma {:induction false} OfRecipeKeys(items: seq<Item>, key: string, i: nat)
    requires i < Count(items, key)
    ensures RecipeKey(OfRecipe(items, key)[i]) == key
  {
    if RecipeKey(items[0]) == key {
      if i > 0 { OfRecipeKeys(items[1..], key, i - 1); }
    } else {
      OfRecipeKeys(items[1..], key, i);
    }
  }

  /** A round ends with the turn of the last queue. */
  lemma NextRound(mixed: seq<Item>, keys: seq<string>, groups: seq<seq<Item>>, queues: seq<seq<Item>>, round: nat)
    requires InTurn(mixed, keys, groups, queues, round, |keys|)
    ensures InTurn(mixed, keys, groups, queues, round + 1, 0)
  {
  }

  lemma AllGiven(mixed: seq<Item>, items: seq<Item>, keys: seq<string>, groups: seq<seq<Item>>,
                 queues: seq<seq<Item>>, round: nat, turn: nat)
    requires Grouped(items, keys, groups) && InTurn(mixed, keys, groups, queues, round, turn)
    requires forall i :: 0 <= i < |queues| ==> queues[i] == []
    ensures SameByRecipe(mixed, items)
  {
  }

  function Waiting(queues: seq<seq<Item>>): nat {
    if queues == [] then 0 else |queues[0]| + Waiting(queues[1..])
  }

  lemma {:induction false} WaitingAfter(queues: seq<seq<Item>>, i: nat, queue: seq<Item>)
    requires i < |queues|
    ensures Waiting(queues[i := queue]) + |queues[i]| == Waiting(queues) + |queue|
  {
    if i > 0 {
      assert queues[i := queue][1..] == queues[1..][i - 1 := queue];
      WaitingAfter(queues[1..], i - 1, queue);
    } else {
      assert queues[0 := queue][1..] == queues[1..];
    }
  }

  /** Every recipe gives one item a round until none has any: a fair permutation that keeps each recipe's order. */
  method InterleaveByRecipe(items: seq<Item>) returns (mixed: seq<Item>)
    ensures multiset(mixed) == multiset(items)
    ensures SameByRecipe(mixed, items)
    ensures Fair(mixed, items)
  {
    hide Fair, InTurn, Grouped, SameByRecipe, Waiting;
    var keys, groups := GroupByRecipe(items);
    var queues := groups;
    mixed := [];
    ghost var round: nat := 0;
    StartsInTurn(items, keys, groups);
    var added := true;
    while added
      invariant |queues| == |keys| && Grouped(items, keys, groups)
      invariant InTurn(mixed, keys, groups, queues, round, 0) && Fair(mixed, items)
      invariant !added ==> forall i :: 0 <= i < |queues| ==> queues[i] == []
      decreases Waiting(queues), added
    {
      added := false;
      ghost var before := Waiting(queues);
      for turn := 0 to |queues|
        invariant |queues| == |keys| && Grouped(items, keys, groups)
        invariant InTurn(mixed, keys, groups, queues, round, turn) && Fair(mixed, items)
        invariant Waiting(queues) <= before && (added ==> Waiting(queues) < before)
        invariant !added ==> forall i :: 0 <= i < turn ==> queues[i] == []
      {
        TakeTurn(mixed, keys, groups, queues, items, round, turn);
        if queues[turn] != [] {
          var next := queues[turn][0];
          WaitingAfter(queues, turn, queues[turn][1..]);
          queues := queues[turn := queues[turn][1..]];
          InTurnIsFair(mixed + [next], items, keys, groups, queues, round, turn + 1);
          FairSnoc(mixed, next, items);
          mixed := mixed + [next];
          added := true;
        }
      }
      NextRound(mixed, keys, groups, queues, round);
      round := round + 1;
    }
    AllGiven(mixed, items, keys, groups, queues, round, 0);
    SameItems(mixed, items);
  }

  lemma StartsInTurn(items: seq<Item>, keys: seq<string>, groups: seq<seq<Item>>)
    requires Grouped(items, keys, groups)
    ensures |groups| == |keys| && InTurn([], keys, groups, groups, 0, 0) && Fair([], items)
  {
  }
}
