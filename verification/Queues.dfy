/** The queue of deferred calls: a growable array, drained by one wake-up event. */
module Queues {
  import opened Concatenation

  /** A queued call, named by its object, and the calls that running it queues. */
  datatype Item = Item(target: nat, pushes: seq<Item>)

  function Objects(items: seq<Item>): multiset<nat> {
    if items == [] then multiset{} else multiset{items[0].target} + Objects(items[1..])
  }

  lemma {:induction false} ObjectsSnoc(items: seq<Item>, x: Item)
    ensures Objects(items + [x]) == Objects(items) + multiset{x.target}
  {
    if items != [] {
      assert (items + [x])[1..] == items[1..] + [x];
      ObjectsSnoc(items[1..], x);
    }
  }

  // ---- The order of the calls -----------------------------------------------------------------

  /** How many calls some items stand for. */
  function Total(items: seq<Item>): nat
    decreases items
  {
    if items == [] then 0 else 1 + Total(items[0].pushes) + Total(items[1..])
  }

  lemma {:induction false} TotalConcat(a: seq<Item>, b: seq<Item>)
    ensures Total(a + b) == Total(a) + Total(b)
    decreases a
  {
    if a == [] {
      assert a + b == b;
    } else {
      assert (a + b)[1..] == a[1..] + b;
      TotalConcat(a[1..], b);
    }
  }

  /** The calls in the order in which a queue runs them. */
  function Fifo(items: seq<Item>): seq<Item>
    decreases Total(items)
  {
    if items == [] then []
    else
      TotalConcat(items[1..], items[0].pushes);
      [items[0]] + Fifo(items[1..] + items[0].pushes)
  }

  /** All calls that some items stand for, in no order: each item and, by recursion, what it queues. */
  function Calls(items: seq<Item>): multiset<Item>
    decreases items
  {
    if items == [] then multiset{} else multiset{items[0]} + Calls(items[0].pushes) + Calls(items[1..])
  }

  lemma {:induction false} CallsConcat(a: seq<Item>, b: seq<Item>)
    ensures Calls(a + b) == Calls(a) + Calls(b)
    decreases a
  {
    if a == [] {
      assert a + b == b;
    } else {
      assert (a + b)[1..] == a[1..] + b;
      CallsConcat(a[1..], b);
    }
  }

  /** Every call happens exactly once. */
  lemma {:induction false} FifoRunsAllOnce(items: seq<Item>)
    ensures multiset(Fifo(items)) == Calls(items)
    decreases Total(items)
  {
    if items != [] {
      TotalConcat(items[1..], items[0].pushes);
      FifoRunsAllOnce(items[1..] + items[0].pushes);
      CallsConcat(items[1..], items[0].pushes);
    }
  }

  /** What the calls of `items` queue, in order. */
  function Children(items: seq<Item>): seq<Item> {
    if items == [] then [] else items[0].pushes + Children(items[1..])
  }

  /** The order is that of the pushes: first what is queued, then what the calls queue, in their order. */
  lemma {:induction false} FifoIsPushOrder(items: seq<Item>)
    ensures Fifo(items) == items + Children(Fifo(items))
    decreases Total(items)
  {
    if items != [] {
      TotalConcat(items[1..], items[0].pushes);
      var next := items[1..] + items[0].pushes;
      FifoIsPushOrder(next);
      var order := Fifo(next);
      ChildrenFront(items[0], order);
      assert Fifo(items) == [items[0]] + order;
      hide Fifo, Children;
      assert items == [items[0]] + items[1..];
      Assoc(items[1..], items[0].pushes, Children(order));
      Assoc([items[0]], items[1..], items[0].pushes + Children(order));
    }
  }

  lemma ChildrenFront(x: Item, items: seq<Item>)
    ensures Children([x] + items) == x.pushes + Children(items)
  {
    assert ([x] + items)[1..] == items;
  }

  // ---- The queue ------------------------------------------------------------------------------

  const FIRST_SIZE := 16

  class Queue {
    var slots: array<Item>
    var length: nat
    /** The wake-up event is scheduled. */
    var delayed: bool
    /** The references that the queue holds. */
    ghost var held: multiset<nat>
    /** The calls made, in order. */
    ghost var ran: seq<Item>
    /** All items ever pushed, in order, but for those that were cleaned away. */
    ghost var pushed: seq<Item>

    constructor ()
      ensures Valid() && Items() == [] && ran == [] && pushed == [] && !delayed && fresh(slots)
    {
      slots := new Item[0];
      length, delayed, held, ran, pushed := 0, false, multiset{}, [], [];
    }

    ghost function Items(): (items: seq<Item>)
      reads this`slots, this`length, slots
      requires length <= slots.Length
    {
      slots[..length]
    }

    /** While a drain stands before slot `i`: one reference for every item that is still to run, and
        what was pushed is what ran, followed by what is still to run. */
    ghost predicate Draining(i: nat)
      reads this`slots, this`length, this`held, this`ran, this`pushed, slots
    {
      && i <= length <= slots.Length && (length == 0 ==> slots.Length == 0) && held == Objects(Items()[i..])
      && pushed == ran + Items()[i..]
    }

    /** Between drains: whatever is queued has its wake-up. */
    ghost predicate Valid()
      reads this, slots
    {
      Draining(0) && (length > 0 ==> delayed)
    }

    /** ion_deferred_queue_push; `i` is where a drain stands, if one is running. */
    method Push(item: Item, ghost i: nat)
      requires Draining(i)
      modifies this, slots
      ensures Draining(i) && Items() == old(Items()) + [item] && delayed && ran == old(ran)
              && pushed == old(pushed) + [item]
      ensures length <= slots.Length && held == old(held) + multiset{item.target}
      ensures slots == old(slots) || fresh(slots)
      ensures slots.Length == var n := old(slots.Length);
                              if n == 0 then FIRST_SIZE else if n == old(length) then 2 * n else n
    {
      ghost var was := Items();
      assert i <= length <= slots.Length && held == Objects(was[i..]) && pushed == ran + was[i..];
      hide Objects, Draining;
      MakeRoom();
      held, pushed := held + multiset{item.target}, pushed + [item];
      length := length + 1;
      slots[length - 1] := item;
      assert slots[..length - 1] == was;
      Stored(was, item, i);
      if !delayed { delayed := true; }
    }

    lemma Stored(was: seq<Item>, item: Item, i: nat)
      requires i < length <= slots.Length && slots[..length - 1] == was && slots[length - 1] == item
      requires held == Objects(was[i..]) + multiset{item.target} && pushed == ran + was[i..] + [item]
      ensures Items() == was + [item] && Draining(i)
    {
      assert (was + [item])[i..] == was[i..] + [item];
      ObjectsSnoc(was[i..], item);
    }

    /** The first array has 16 slots; a full one is doubled. */
    method MakeRoom()
      requires length <= slots.Length
      modifies this`slots
      ensures length < slots.Length && Items() == old(Items()) && (slots == old(slots) || fresh(slots))
      ensures slots.Length == var n := old(slots.Length);
                              if n == 0 then FIRST_SIZE else if n == length then 2 * n else n
    {
      if slots.Length == 0 { slots := new Item[FIRST_SIZE]; }
      if slots.Length == length { Double(); }
    }

    /** erealloc to twice the size. */
    method Double()
      requires length == slots.Length > 0
      modifies this`slots
      ensures fresh(slots) && slots.Length == 2 * length && Items() == old(Items())
    {
      var bigger := new Item[2 * length];
      forall j | 0 <= j < length { bigger[j] := slots[j]; }
      slots := bigger;
    }

    /** ion_deferred_dequeue: runs the items, and the items that they queue meanwhile. */
    method Drain()
      requires Draining(0)
      modifies this, slots
      ensures Valid() && Items() == [] && slots.Length == 0 && held == multiset{} && ran == pushed
      ensures ran == old(ran) + Fifo(old(Items()))
      ensures old(delayed) ==> delayed
    {
      assert Items()[0..] == Items();
      if length > 0 {
        ghost var all := Fifo(Items());
        var i := 0;
        while i < length
          invariant Draining(i) && (slots == old(slots) || fresh(slots)) && (old(delayed) ==> delayed)
          invariant length <= slots.Length && ran + Fifo(Items()[i..]) == old(ran) + all
          decreases Total(Items()[i..])
        {
          hide Draining, Fifo, Total;
          DrainStep(ran, Items(), i);
          RunItem(slots[i], i);
          i := i + 1;
        }
        assert Items()[i..] == [];
        slots, length := new Item[0], 0;
      }
    }

    /** One call: its object is released, and what it queues goes behind the items that wait. */
    method RunItem(item: Item, ghost i: nat)
      requires Draining(i) && i < length <= slots.Length && slots[i] == item
      modifies this, slots
      ensures Draining(i + 1) && (slots == old(slots) || fresh(slots)) && (old(delayed) ==> delayed)
      ensures length <= slots.Length && Items() == old(Items()) + item.pushes && ran == old(ran) + [item]
    {
      hide Draining, Objects;
      Release(item, i, true);
      assert Items() + item.pushes[..0] == Items();
      for k := 0 to |item.pushes|
        invariant Draining(i + 1) && (slots == old(slots) || fresh(slots)) && (old(delayed) ==> delayed)
        invariant length <= slots.Length && Items() == old(Items()) + item.pushes[..k] && ran == old(ran) + [item]
      {
        assert item.pushes[..k + 1] == item.pushes[..k] + [item.pushes[k]];
        Push(item.pushes[k], i + 1);
      }
      assert item.pushes[..|item.pushes|] == item.pushes;
    }

    /** zend_object_release on the object of item `i`, which was called or is thrown away. */
    ghost method Release(item: Item, i: nat, called: bool)
      requires Draining(i) && i < length && slots[i] == item
      modifies this`held, this`ran, this`pushed
      ensures Draining(i + 1) && Items() == old(Items())
      ensures ran == if called then old(ran) + [item] else old(ran)
      ensures pushed == if called then old(pushed) else ran + Items()[i + 1..]
    {
      ReleaseStep(ran, Items(), i);
      hide Objects;
      held := held - multiset{item.target};
      if called { ran := ran + [item]; } else { pushed := ran + Items()[i + 1..]; }
    }

    /** The wake-up event: a push by a running item schedules the next one. */
    method Wake()
      requires Valid() && delayed
      modifies this, slots
      ensures Valid() && Items() == [] && held == multiset{} && ran == pushed && ran == old(ran) + Fifo(old(Items()))
    {
      delayed := false;
      Drain();
    }

    /** ion_deferred_clean: the items are released without being run. */
    method Clean()
      requires Valid()
      modifies this
      ensures Valid() && Items() == [] && held == multiset{} && ran == old(ran) && delayed == old(delayed)
    {
      if length > 0 {
        ghost var items := Items();
        assert items[0..] == items;
        for i := 0 to length
          invariant length == old(length) && slots == old(slots) && ran == old(ran) && delayed == old(delayed)
          invariant Items() == items && Draining(i)
        {
          Release(slots[i], i, false);
        }
        slots, length := new Item[0], 0;
      }
    }
  }

  lemma ReleaseStep(ran: seq<Item>, items: seq<Item>, i: nat)
    requires i < |items|
    ensures Objects(items[i..]) - multiset{items[i].target} == Objects(items[i + 1..])
    ensures ran + items[i..] == ran + [items[i]] + items[i + 1..]
  {
    assert items[i..][1..] == items[i + 1..];
  }

  lemma DrainStep(ran: seq<Item>, items: seq<Item>, i: nat)
    requires i < |items|
    ensures var rest := (items + items[i].pushes)[i + 1..];
            ran + [items[i]] + Fifo(rest) == ran + Fifo(items[i..]) && Total(rest) < Total(items[i..])
  {
    var rest := items[i..];
    assert (items + items[i].pushes)[i + 1..] == rest[1..] + items[i].pushes;
    TotalConcat(rest[1..], rest[0].pushes);
    Assoc(ran, [rest[0]], Fifo(rest[1..] + rest[0].pushes));
  }
}
