/** The list structures a scheduler works on: every list, the container pointer and value of every
    list item, the task priorities, and the two forms of the highest-ready-priority record. */
module Stores {
  import opened XLists

  /** One more than the largest portTickType value. */
  const W: nat := 0x1_0000_0000

  type Task = nat

  datatype ListId =
    | Ready(level: nat) | Delayed1 | Delayed2 | PendingReady | Suspended | Termination
    | Event(queue: nat)

  /** A task's generic (state) list item or its event list item. */
  datatype Item = Gen(task: Task) | Ev(task: Task)

  type Chain = l: XList<Item> | l.cursor <= |l.items| witness XList([], 0)

  /** `top` is uxTopReadyPriority of the generic selection and `bits` the set of bits set in it
      under the port optimised selection. */
  datatype Store = Store(lists: map<ListId, Chain>, container: map<Item, ListId>, value: map<Item, nat>,
                         priority: map<Task, nat>, top: nat, bits: set<nat>)

  function ListOf(s: Store, id: ListId): Chain {
    if id in s.lists then s.lists[id] else XList([], 0)
  }

  function Items(s: Store, id: ListId): seq<Item> { ListOf(s, id).items }

  function Val(s: Store, i: Item): nat { if i in s.value then s.value[i] else 0 }

  function Prio(s: Store, t: Task): nat { if t in s.priority then s.priority[t] else 0 }

  predicate In(s: Store, i: Item, id: ListId) { i in s.container && s.container[i] == id }

  /** The list a task's generic item is on, which is the task's state. */
  function Home(s: Store, t: Task): ListId {
    if Gen(t) in s.container then s.container[Gen(t)] else Termination
  }

  // ----- The list primitives on a store

  function Remove(s: Store, i: Item): (r: Store) {
    if i !in s.container || i !in Items(s, s.container[i]) then s
    else
      var id := s.container[i];
      s.(lists := s.lists[id := RemoveAt(ListOf(s, id), IndexOf(Items(s, id), i))],
         container := s.container - {i})
  }

  function Append(s: Store, id: ListId, i: Item): (r: Store) {
    s.(lists := s.lists[id := InsertEnd(ListOf(s, id), i)], container := s.container[i := id])
  }

  function ValuesOf(s: Store, items: seq<Item>): (vs: seq<nat>)
    ensures |vs| == |items| && forall k :: 0 <= k < |items| ==> vs[k] == Val(s, items[k])
  {
    seq(|items|, k requires 0 <= k < |items| => Val(s, items[k]))
  }

  function InsertPosition(s: Store, id: ListId, i: Item): (k: nat)
    ensures k <= |Items(s, id)|
  {
    if Val(s, i) == W - 1 then |Items(s, id)| else SortedPosition(ValuesOf(s, Items(s, id)), Val(s, i))
  }

  function Insert(s: Store, id: ListId, i: Item): (r: Store) {
    s.(lists := s.lists[id := InsertAt(ListOf(s, id), InsertPosition(s, id, i), i)],
       container := s.container[i := id])
  }

  // ----- Structural soundness

  /** Containers and lists agree, so an item is on at most one list and on it at most once. */
  ghost predicate Integrity(s: Store) {
    && (forall id {:trigger Items(s, id)} :: NoDup(Items(s, id)))
    && (forall id, i :: i in Items(s, id) <==> In(s, i, id))
  }

  predicate Parked(id: ListId) { id.Delayed1? || id.Delayed2? || id.Suspended? }

  /** Where the items of task t may be. */
  ghost predicate PlacedTask(s: Store, t: Task) {
    && Gen(t) in s.container
    && var g := Home(s, t);
       && (g == Ready(Prio(s, t)) || Parked(g) || g.Termination?)
       && (Ev(t) in s.container ==>
             Parked(g) && (s.container[Ev(t)].PendingReady? || s.container[Ev(t)].Event?))
  }

  ghost predicate Placed(s: Store) {
    && (forall t {:trigger PlacedTask(s, t)} :: t in s.priority ==> PlacedTask(s, t))
    && (forall i :: i in s.container ==> i.task in s.priority)
  }

  ghost predicate ReadyRecorded(s: Store) {
    && (forall p: nat {:trigger Ready(p)} :: p in s.bits <==> Items(s, Ready(p)) != [])
    && (forall p: nat {:trigger Ready(p)} :: Items(s, Ready(p)) != [] ==> p <= s.top)
  }

  ghost predicate Sound(s: Store) {
    Integrity(s) && Placed(s) && ReadyRecorded(s)
  }

  /** What soundness says about one task. */
  lemma TaskFacts(s: Store, t: Task)
    requires Sound(s) && t in s.priority
    ensures PlacedTask(s, t) && Gen(t) in Items(s, Home(s, t)) && In(s, Gen(t), Home(s, t))
  {
    assert PlacedTask(s, t);
    assert In(s, Gen(t), Home(s, t));
  }

  /** What soundness says about one entry of a delayed or suspended list. */
  lemma EntryFacts(s: Store, id: ListId, i: Item)
    requires Sound(s) && Parked(id) && i in Items(s, id)
    ensures i == Gen(i.task) && i.task in s.priority && Home(s, i.task) == id
  {
    assert In(s, i, id);
    assert PlacedTask(s, i.task);
  }

  ghost predicate ListSorted(s: Store, id: ListId) {
    Sorted(ValuesOf(s, Items(s, id)))
  }

  lemma SortedAlike(s: Store, r: Store, id: ListId)
    requires Items(r, id) == Items(s, id) && r.value == s.value && ListSorted(s, id)
    ensures ListSorted(r, id)
  {
    assert ValuesOf(r, Items(r, id)) == ValuesOf(s, Items(s, id));
  }

  lemma RemoveKeepsSorted(s: Store, r: Store, id: ListId, k: nat)
    requires k < |Items(s, id)| && Items(r, id) == Cut(Items(s, id), k) && r.value == s.value
    ensures ListSorted(s, id) ==> ListSorted(r, id)
  {
    assert ValuesOf(r, Items(r, id)) == Cut(ValuesOf(s, Items(s, id)), k);
  }

  lemma RemoveFacts(s: Store, i: Item)
    requires Integrity(s) && i in s.container
    ensures var r := Remove(s, i);
            && Integrity(r) && r.container == s.container - {i}
            && r.value == s.value && r.priority == s.priority && r.top == s.top && r.bits == s.bits
            && (forall id :: id != s.container[i] ==> ListOf(r, id) == ListOf(s, id))
            && |Items(r, s.container[i])| == |Items(s, s.container[i])| - 1
            && (ListSorted(s, s.container[i]) ==> ListSorted(r, s.container[i]))
  {
    var id := s.container[i];
    assert i in Items(s, id);
    var k := IndexOf(Items(s, id), i);
    var r := Remove(s, i);
    CutFacts(Items(s, id), k);
    assert Items(r, id) == Cut(Items(s, id), k);
    RemoveKeepsSorted(s, r, id, k);
    hide Sorted;
    assert forall id' :: id' != id ==> Items(r, id') == Items(s, id');
  }

  /** Adding an unlisted item to one list, at whatever position. */
  lemma JoinIntegrity(s: Store, id: ListId, l: Chain, i: Item)
    requires Integrity(s) && i !in s.container && NoDup(l.items)
    requires forall j :: j in l.items <==> j == i || j in Items(s, id)
    ensures var r := s.(lists := s.lists[id := l], container := s.container[i := id]);
            Integrity(r) && forall id' :: id' != id ==> ListOf(r, id') == ListOf(s, id')
  {
    var r := s.(lists := s.lists[id := l], container := s.container[i := id]);
    assert Items(r, id) == l.items;
    assert forall id' :: id' != id ==> Items(r, id') == Items(s, id');
  }

  lemma AppendFacts(s: Store, id: ListId, i: Item)
    requires Integrity(s) && i !in s.container
    ensures var r := Append(s, id, i);
            && Integrity(r) && Items(r, id) != []
            && (forall id' :: id' != id ==> ListOf(r, id') == ListOf(s, id'))
            && |Items(r, id)| == |Items(s, id)| + 1
  {
    assert i !in Items(s, id);
    SplicedFacts(Items(s, id), ListOf(s, id).cursor, i);
    JoinIntegrity(s, id, InsertEnd(ListOf(s, id), i), i);
  }

  lemma InsertFacts(s: Store, id: ListId, i: Item)
    requires Integrity(s) && i !in s.container
    ensures var r := Insert(s, id, i);
            && Integrity(r) && r.container == s.container[i := id]
            && r.value == s.value && r.priority == s.priority && r.top == s.top && r.bits == s.bits
            && (forall id' :: id' != id ==> ListOf(r, id') == ListOf(s, id'))
            && |Items(r, id)| == |Items(s, id)| + 1
            && (forall j :: j in Items(r, id) <==> j == i || j in Items(s, id))
  {
    assert i !in Items(s, id);
    SplicedFacts(Items(s, id), InsertPosition(s, id, i), i);
    JoinIntegrity(s, id, InsertAt(ListOf(s, id), InsertPosition(s, id, i), i), i);
  }

  lemma InsertSorted(s: Store, id: ListId, i: Item)
    requires ListSorted(s, id) && (forall j :: j in Items(s, id) ==> Val(s, j) < W)
    ensures ListSorted(Insert(s, id, i), id)
  {
    hide Sorted, SortedPosition, Spliced;
    var vs := ValuesOf(s, Items(s, id));
    InsertedValues(s, id, i);
    InsertionKeepsSorted(vs, Val(s, i));
  }

  lemma InsertedValues(s: Store, id: ListId, i: Item)
    requires forall j :: j in Items(s, id) ==> Val(s, j) < W
    ensures var r, vs := Insert(s, id, i), ValuesOf(s, Items(s, id));
            ValuesOf(r, Items(r, id)) == Spliced(vs, SortedPosition(vs, Val(s, i)), Val(s, i))
  {
    hide SortedPosition, ValuesOf, Spliced;
    var items, vs, r := Items(s, id), ValuesOf(s, Items(s, id)), Insert(s, id, i);
    var k := SortedPosition(vs, Val(s, i));
    assert k < |items| ==> items[k] in items;
    assert Items(r, id) == Spliced(items, k, i);
    SplicedValues(s, r, items, k, i);
  }

  lemma SplicedValues(s: Store, r: Store, items: seq<Item>, k: nat, i: Item)
    requires k <= |items| && r.value == s.value
    ensures ValuesOf(r, Spliced(items, k, i)) == Spliced(ValuesOf(s, items), k, Val(s, i))
  {
    var xs, ys := Spliced(items, k, i), Spliced(ValuesOf(s, items), k, Val(s, i));
    forall n | 0 <= n < |xs| ensures Val(r, xs[n]) == ys[n] {
      assert xs[n] == if n < k then items[n] else if n == k then i else items[n - 1];
    }
  }
}
