/** How a batch is divided into files: a user's batch never is, a rewrite is split by shard and by
    size. */
module Sharding {
  import opened Basics
  import opened Records

  type Batch = map<nat, Option<Bytes>>

  datatype Item = Item(id: nat, data: Option<Bytes>)

  datatype Shard = Shard(size: nat, objects: Batch)

  /** The last item for each object. */
  function Collect(items: seq<Item>): (b: Batch)
    ensures items != [] ==> items[|items| - 1].id in b
    ensures forall i :: 0 <= i < |items| ==> items[i].id in b
  {
    if items == [] then map[] else
    var last := items[|items| - 1];
    Collect(items[..|items| - 1])[last.id := last.data]
  }

  ghost predicate Unique(items: seq<Item>) {
    forall i, j :: 0 <= i < j < |items| ==> items[i].id != items[j].id
  }

  /** Position `i` is the last that mentions object `id`. */
  predicate IsLastItem(items: seq<Item>, id: nat, i: nat) {
    i < |items| && items[i].id == id && forall j :: i < j < |items| ==> items[j].id != id
  }

  /** Each object of the batch has the data of the last item that mentions it. */
  lemma {:induction false} CollectIsLast(items: seq<Item>, id: nat)
    ensures id in Collect(items) <==> exists i: nat :: IsLastItem(items, id, i)
    ensures forall i: nat :: IsLastItem(items, id, i) ==> id in Collect(items) && Collect(items)[id] == items[i].data
  {
    if items != [] {
      var n := |items| - 1;
      var front := items[..n];
      CollectIsLast(front, id);
      if items[n].id == id {
        assert IsLastItem(items, id, n);
      } else {
        forall i: nat ensures IsLastItem(items, id, i) <==> IsLastItem(front, id, i) {}
        if id in Collect(front) {
          var i: nat :| IsLastItem(front, id, i);
          assert IsLastItem(items, id, i);
        }
      }
    }
  }

  // ---------------------------------------------------------------- sizes

  function Plain(data: Bytes): Bytes { data }

  function SizeOf(data: Option<Bytes>): nat { if data.Some? then |data.value| + HEADER_LEN else 0 }

  /** Bytes that the records of a batch take, uncompressed. */
  ghost function Total(b: Batch): nat { Space(Plain, b) }

  lemma TotalInsert(b: Batch, id: nat, data: Option<Bytes>)
    ensures id !in b ==> Total(b[id := data]) == Total(b) + SizeOf(data)
    ensures id in b ==> Total(b[id := data]) == Total(b) - SizeOf(b[id]) + SizeOf(data)
  {
    hide Space;
    SpaceInsert(Plain, b, id, data);
  }

  /** The size of a group, object by object: a tombstone counts nothing, anything else its bytes and a
      header of 20. */
  lemma TotalIs(b: Batch, id: nat, v: Bytes)
    requires id !in b
    ensures Total(map[]) == 0
    ensures Total(b[id := None]) == Total(b)
    ensures Total(b[id := Some(v)]) == Total(b) + 20 + |v|
  {
    hide Total;
    TotalInsert(b, id, None);
    TotalInsert(b, id, Some(v));
    EmptyTotal();
  }

  // ---------------------------------------------------------------- placing objects

  datatype Place = InShard(s: nat) | InGroup(i: nat)

  predicate Exists(shards: map<nat, Shard>, groups: seq<Batch>, p: Place) {
    match p
    case InShard(s) => s in shards
    case InGroup(i) => i < |groups|
  }

  function Objects(shards: map<nat, Shard>, groups: seq<Batch>, p: Place): Batch
    requires Exists(shards, groups, p)
  {
    match p
    case InShard(s) => shards[s].objects
    case InGroup(i) => groups[i]
  }

  predicate At(shards: map<nat, Shard>, groups: seq<Batch>, id: nat, p: Place) {
    Exists(shards, groups, p) && id in Objects(shards, groups, p)
  }

  /** Every object of `all` lies in exactly one of the shards or finished groups, none of which is
      empty or holds anything else. */
  ghost predicate Placed(shards: map<nat, Shard>, groups: seq<Batch>, all: Batch) {
    && (forall p :: Exists(shards, groups, p) ==> Objects(shards, groups, p) != map[])
    && (forall id, p :: At(shards, groups, id, p) ==> id in all && Objects(shards, groups, p)[id] == all[id])
    && (forall id :: id in all ==> exists p :: At(shards, groups, id, p))
    && (forall id, p, q :: At(shards, groups, id, p) && At(shards, groups, id, q) ==> p == q)
  }

  /** The groups are a partition of the batch. */
  ghost predicate Divides(groups: seq<Batch>, all: Batch) {
    && (forall i :: 0 <= i < |groups| ==> groups[i] != map[])
    && (forall i, id :: 0 <= i < |groups| && id in groups[i] ==> id in all && groups[i][id] == all[id])
    && (forall id :: id in all ==> exists i :: 0 <= i < |groups| && id in groups[i])
    && (forall i, j, id :: 0 <= i < |groups| && 0 <= j < |groups| && id in groups[i] && id in groups[j] ==> i == j)
  }

  /** Without one of its objects the group is no larger than the target: it was not closed late. */
  ghost predicate Bounded(g: Batch, target: nat) {
    exists id :: id in g && Total(g - {id}) <= target
  }

  /** The partition of an object: deletions go to the first one. */
  function PartOf(partition: (nat, nat) -> nat, id: nat, data: Option<Bytes>): nat {
    if data.Some? then partition(id, |data.value|) else 0
  }

  predicate Belong(partition: (nat, nat) -> nat, g: Batch, s: nat) {
    forall id :: id in g ==> PartOf(partition, id, g[id]) == s
  }

  /** All objects of the group belong to one partition. */
  predicate Together(partition: (nat, nat) -> nat, g: Batch) {
    forall a, b :: a in g && b in g ==> PartOf(partition, a, g[a]) == PartOf(partition, b, g[b])
  }

  /** No partition has objects in both groups. */
  predicate Apart(partition: (nat, nat) -> nat, g: Batch, h: Batch) {
    forall a, b :: a in g && b in h ==> PartOf(partition, a, g[a]) != PartOf(partition, b, h[b])
  }

  /** The first `n` groups, those left open, are of different partitions, and the others were full. */
  ghost predicate Arranged(groups: seq<Batch>, n: nat, target: nat, partition: (nat, nat) -> nat) {
    && n <= |groups|
    && (forall i, j :: 0 <= i < j < n ==> Apart(partition, groups[i], groups[j]))
    && (forall i :: n <= i < |groups| ==> target < Total(groups[i]))
  }

  /** How a rewrite may divide its batch: into groups of one partition each, closed as soon as they are
      over the target size and not before. */
  ghost predicate Shards(groups: seq<Batch>, all: Batch, target: nat, partition: (nat, nat) -> nat) {
    && Divides(groups, all)
    && (forall g :: g in groups ==> Bounded(g, target) && Together(partition, g))
    && exists n :: Arranged(groups, n, target, partition)
  }

  lemma PlaceInto(shards: map<nat, Shard>, groups: seq<Batch>, all: Batch, s: nat, shard: Shard, id: nat,
                  data: Option<Bytes>)
    requires Placed(shards, groups, all) && id !in all
    requires shard.objects == (if s in shards then shards[s].objects else map[])[id := data]
    ensures Placed(shards[s := shard], groups, all[id := data])
  {
    var shards', all' := shards[s := shard], all[id := data];
    hide Exists, Objects;
    forall p ensures
      && (Exists(shards', groups, p) <==> Exists(shards, groups, p) || p == InShard(s))
      && (p == InShard(s) ==> Objects(shards', groups, p) == shard.objects)
      && (p != InShard(s) && Exists(shards, groups, p) ==> Objects(shards', groups, p) == Objects(shards, groups, p))
      && (p == InShard(s) && Exists(shards, groups, p) ==> Objects(shards, groups, p)[id := data] == shard.objects)
      && (p == InShard(s) && !Exists(shards, groups, p) ==> shard.objects == map[id := data])
    {
      Grown(shards, groups, s, shard, id, data, p);
    }
    assert id in shard.objects;
    forall o, p | At(shards', groups, o, p) ensures At(shards, groups, o, p) || (o == id && p == InShard(s)) {}
    assert At(shards', groups, id, InShard(s));
    forall o | o in all' && o != id ensures exists p :: At(shards', groups, o, p) {
      var p :| At(shards, groups, o, p);
      assert At(shards', groups, o, p);
    }
  }

  lemma Grown(shards: map<nat, Shard>, groups: seq<Batch>, s: nat, shard: Shard, id: nat, data: Option<Bytes>, p: Place)
    requires shard.objects == (if s in shards then shards[s].objects else map[])[id := data]
    ensures var shards' := shards[s := shard];
      && (Exists(shards', groups, p) <==> Exists(shards, groups, p) || p == InShard(s))
      && (p == InShard(s) ==> Objects(shards', groups, p) == shard.objects)
      && (p != InShard(s) && Exists(shards, groups, p) ==> Objects(shards', groups, p) == Objects(shards, groups, p))
      && (p == InShard(s) && Exists(shards, groups, p) ==> Objects(shards, groups, p)[id := data] == shard.objects)
      && (p == InShard(s) && !Exists(shards, groups, p) ==> shard.objects == map[id := data])
  {
  }

  /** Where a place was before shard `s` became group number `p`. */
  function Before(place: Place, s: nat, p: nat): Place {
    match place
    case InShard(_) => place
    case InGroup(i) => if i < p then place else if i == p then InShard(s) else InGroup(i - 1)
  }

  function After(place: Place, s: nat, p: nat): Place {
    match place
    case InShard(t) => if t == s then InGroup(p) else place
    case InGroup(i) => if i < p then place else InGroup(i + 1)
  }

  lemma Closed(shards: map<nat, Shard>, groups: seq<Batch>, s: nat, p: nat, place: Place)
    requires s in shards && p <= |groups|
    ensures var shards', groups' := shards - {s}, groups[..p] + [shards[s].objects] + groups[p..];
      && (Exists(shards', groups', place) ==>
            Exists(shards, groups, Before(place, s, p))
              && Objects(shards', groups', place) == Objects(shards, groups, Before(place, s, p))
            && After(Before(place, s, p), s, p) == place)
      && (Exists(shards, groups, place) ==>
            Exists(shards', groups', After(place, s, p))
              && Objects(shards', groups', After(place, s, p)) == Objects(shards, groups, place))
  {
  }

  lemma CloseShard(shards: map<nat, Shard>, groups: seq<Batch>, all: Batch, s: nat, p: nat)
    requires Placed(shards, groups, all) && s in shards && p <= |groups|
    ensures Placed(shards - {s}, groups[..p] + [shards[s].objects] + groups[p..], all)
  {
    var shards', groups' := shards - {s}, groups[..p] + [shards[s].objects] + groups[p..];
    hide Exists, Objects;
    forall place ensures Exists(shards', groups', place) ==>
      Exists(shards, groups, Before(place, s, p))
        && Objects(shards', groups', place) == Objects(shards, groups, Before(place, s, p))
    {
      Closed(shards, groups, s, p, place);
    }
    forall o, place, place' | At(shards', groups', o, place) && At(shards', groups', o, place')
      ensures place == place'
    {
      Closed(shards, groups, s, p, place);
      Closed(shards, groups, s, p, place');
      assert At(shards, groups, o, Before(place, s, p)) && At(shards, groups, o, Before(place', s, p));
    }
    forall o | o in all ensures exists place :: At(shards', groups', o, place) {
      var place :| At(shards, groups, o, place);
      Closed(shards, groups, s, p, place);
      assert At(shards', groups', o, After(place, s, p));
    }
    forall o, place | At(shards', groups', o, place) ensures o in all && Objects(shards', groups', place)[o] == all[o] {
      assert At(shards, groups, o, Before(place, s, p));
    }
  }

  lemma PlacedDivides(groups: seq<Batch>, all: Batch)
    requires Placed(map[], groups, all)
    ensures Divides(groups, all)
  {
    forall i | 0 <= i < |groups| ensures groups[i] != map[] { assert Exists(map[], groups, InGroup(i)); }
    forall i, id | 0 <= i < |groups| && id in groups[i] ensures id in all && groups[i][id] == all[id] {
      assert At(map[], groups, id, InGroup(i));
    }
    forall id | id in all ensures exists i :: 0 <= i < |groups| && id in groups[i] {
      var p :| At(map[], groups, id, p);
      assert id in groups[p.i];
    }
    forall i, j, id | 0 <= i < |groups| && 0 <= j < |groups| && id in groups[i] && id in groups[j] ensures i == j {
      assert At(map[], groups, id, InGroup(i)) && At(map[], groups, id, InGroup(j));
    }
  }

  // ---------------------------------------------------------------- the loop

  /** The counted size never falls below the true one, so subtracting a replaced object's length
      cannot underflow. */
  ghost predicate Counted(shards: map<nat, Shard>) {
    forall s :: s in shards ==> Total(shards[s].objects) <= shards[s].size
  }

  /** What the loop keeps for a user's batch: everything in one shard. */
  ghost predicate Whole(shards: map<nat, Shard>, groups: seq<Batch>, items: seq<Item>) {
    && groups == []
    && (items == [] ==> shards == map[])
    && (items != [] ==> shards.Keys == {0} && shards[0].objects == Collect(items))
  }

  /** What it keeps for a rewrite: a partition into groups of exactly known, bounded size. */
  ghost predicate Split(shards: map<nat, Shard>, groups: seq<Batch>, items: seq<Item>, target: nat,
                        partition: (nat, nat) -> nat) {
    && Placed(shards, groups, Collect(items))
    && (forall s :: s in shards ==> shards[s].size == Total(shards[s].objects) && Bounded(shards[s].objects, target))
    && (forall s :: s in shards ==> Belong(partition, shards[s].objects, s))
    && (forall g :: g in groups ==> Bounded(g, target) && Together(partition, g))
  }

  ghost predicate Full(groups: seq<Batch>, target: nat) {
    forall i :: 0 <= i < |groups| ==> target < Total(groups[i])
  }

  lemma SplitClose(shards: map<nat, Shard>, groups: seq<Batch>, items: seq<Item>, target: nat,
                   partition: (nat, nat) -> nat, s: nat)
    requires Split(shards, groups, items, target, partition) && s in shards
    ensures Split(shards - {s}, groups + [shards[s].objects], items, target, partition)
    ensures Full(groups, target) && target < shards[s].size ==> Full(groups + [shards[s].objects], target)
  {
    hide Bounded, Placed, Collect, Total;
    CloseShard(shards, groups, Collect(items), s, |groups|);
    assert groups[..|groups|] + [shards[s].objects] + groups[|groups|..] == groups + [shards[s].objects];
  }

  lemma SplitPlace(shards: map<nat, Shard>, groups: seq<Batch>, items: seq<Item>, target: nat,
                   partition: (nat, nat) -> nat, s: nat,
                   shard: Shard, item: Item)
    requires Split(shards, groups, items, target, partition) && item.id !in Collect(items)
    requires var was := if s in shards then shards[s] else Shard(0, map[]);
      was.size <= target && shard == Shard(was.size + SizeOf(item.data), was.objects[item.id := item.data])
    requires PartOf(partition, item.id, item.data) == s
    ensures Split(shards[s := shard], groups, items + [item], target, partition)
  {
    hide Placed, Total, Bounded, Belong, Together, Collect;
    var was := if s in shards then shards[s] else Shard(0, map[]);
    ItemAdded(items, item);
    PlaceInto(shards, groups, Collect(items), s, shard, item.id, item.data);
    Elsewhere(shards, groups, Collect(items), s, item.id);
    TotalInsert(was.objects, item.id, item.data);
    EmptyTotal();
    assert Bounded(shard.objects, target) by { LastAdded(was.objects, item, target); }
    assert Belong(partition, shard.objects, s) by { StillBelong(partition, was.objects, s, item); }
  }

  lemma ItemAdded(items: seq<Item>, item: Item)
    ensures Collect(items + [item]) == Collect(items)[item.id := item.data]
  {
    assert (items + [item])[..|items|] == items;
  }

  lemma LastAdded(objects: Batch, item: Item, target: nat)
    requires item.id !in objects && Total(objects) <= target
    ensures Bounded(objects[item.id := item.data], target)
  {
    hide Total;
    assert objects[item.id := item.data] - {item.id} == objects;
  }

  lemma StillBelong(partition: (nat, nat) -> nat, objects: Batch, s: nat, item: Item)
    requires (objects == map[] || Belong(partition, objects, s)) && PartOf(partition, item.id, item.data) == s
    ensures Belong(partition, objects[item.id := item.data], s)
  {
  }

  lemma Elsewhere(shards: map<nat, Shard>, groups: seq<Batch>, all: Batch, s: nat, id: nat)
    requires Placed(shards, groups, all) && id !in all
    ensures s in shards ==> id !in shards[s].objects
  {
    if s in shards && id in shards[s].objects {
      assert At(shards, groups, id, InShard(s));
      assert false;
    }
  }

  lemma NewId(items: seq<Item>, item: Item)
    requires Unique(items + [item])
    ensures item.id !in Collect(items)
  {
    var all := items + [item];
    assert forall i :: 0 <= i < |items| ==> all[i] == items[i] && items[i].id != all[|items|].id;
    CollectIds(items, item.id);
  }

  lemma {:induction false} CollectIds(items: seq<Item>, id: nat)
    ensures id in Collect(items) <==> exists i :: 0 <= i < |items| && items[i].id == id
  {
    if items != [] {
      var n := |items| - 1;
      CollectIds(items[..n], id);
      if id in Collect(items[..n]) {
        var i :| 0 <= i < n && items[..n][i].id == id;
        assert items[i].id == id;
      } else if id == items[n].id {
        assert 0 <= n < |items| && items[n].id == id;
      }
    }
  }

  /** `shard_batch`: a user's batch, whatever it repeats, becomes one group with the last value of
      each object; a rewrite's batch becomes a partition into groups near the target size, each of
      objects that the configured function puts together; tombstones go with partition 0. The groups left
      open come first, one of each partition, and the others are over the target size. */
  method ShardBatch(generation: nat, items: seq<Item>, target: nat, partition: (nat, nat) -> nat)
    returns (groups: seq<Batch>, ghost open: nat)
    ensures generation == 0 ==> groups == if items == [] then [] else [Collect(items)]
    ensures generation > 0 && Unique(items) ==> Shards(groups, Collect(items), target, partition)
    ensures generation > 0 && Unique(items) ==> forall g: Batch, a: nat, b: nat ::
      g in groups && a in g && b in g && g[a].Some? && g[b].Some? ==>
        partition(a, |g[a].value|) == partition(b, |g[b].value|)
    ensures generation > 0 && Unique(items) ==> forall g: Batch, a: nat, b: nat ::
      g in groups && a in g && b in g && g[a].None? && g[b].Some? ==> partition(b, |g[b].value|) == 0
    ensures generation > 0 && Unique(items) ==> forall g: Batch :: g in groups ==>
      exists id :: id in g && Total(g - {id}) <= target
    ensures generation > 0 && Unique(items) ==>
      open <= |groups| && forall i :: open <= i < |groups| ==> target < Total(groups[i])
    ensures generation > 0 && Unique(items) ==> forall i, j, a, b ::
      0 <= i < j < open <= |groups| && a in groups[i] && b in groups[j] ==>
        (if groups[i][a].Some? then partition(a, |groups[i][a].value|) else 0)
        != if groups[j][b].Some? then partition(b, |groups[j][b].value|) else 0
  {
    hide Placed, Total, Collect, Bounded, Together, Belong, Shards;
    var shards: map<nat, Shard>, fragmented: seq<Batch> := map[], [];
    assert Split(shards, fragmented, [], target, partition) by { EmptySplit(target, partition); }
    for i := 0 to |items|
      invariant Counted(shards)
      invariant generation == 0 ==> Whole(shards, fragmented, items[..i])
      invariant generation > 0 && Unique(items) ==> Split(shards, fragmented, items[..i], target, partition)
      invariant generation > 0 && Unique(items) ==> Full(fragmented, target)
    {
      assert items[..i + 1] == items[..i] + [items[i]];
      var Item(id, data) := items[i];
      var shardId := if data.None? || generation == 0 then 0 else partition(id, |data.value|);
      var shard := if shardId in shards then shards[shardId] else Shard(0, map[]);
      if generation > 0 && shard.size > target {
        if Unique(items) { SplitClose(shards, fragmented, items[..i], target, partition, shardId); }
        fragmented := fragmented + [shard.objects];
        shards := shards - {shardId};
        shard := Shard(0, map[]);
      }
      assert Total(shard.objects) <= shard.size by { EmptyTotal(); }
      TotalInsert(shard.objects, id, data);
      var size := shard.size + SizeOf(data);
      if id in shard.objects && shard.objects[id].Some? {
        size := size - |shard.objects[id].value|;
      }
      if generation > 0 && Unique(items) {
        UniquePrefix(items, i);
        NewId(items[..i], items[i]);
        Elsewhere(shards, fragmented, Collect(items[..i]), shardId, id);
        SplitPlace(shards, fragmented, items[..i], target, partition, shardId, Shard(size, shard.objects[id := data]),
          items[i]);
      }
      CollectNext(items, i);
      shards := shards[shardId := Shard(size, shard.objects[id := data])];
    }
    assert items[..|items|] == items;
    groups, open := Assemble(shards, fragmented, generation, items, target, partition);
  }

  lemma WithinTarget(g: Batch, target: nat)
    requires Bounded(g, target)
    ensures exists id :: id in g && Total(g - {id}) <= target
  {
  }

  /** What the division is in terms of the partition function. */
  lemma InPartitions(groups: seq<Batch>, all: Batch, target: nat, partition: (nat, nat) -> nat) returns (n: nat)
    requires Shards(groups, all, target, partition)
    ensures forall g: Batch, a: nat, b: nat :: g in groups && a in g && b in g && g[a].Some? && g[b].Some? ==>
      partition(a, |g[a].value|) == partition(b, |g[b].value|)
    ensures forall g: Batch, a: nat, b: nat :: g in groups && a in g && b in g && g[a].None? && g[b].Some? ==>
      partition(b, |g[b].value|) == 0
    ensures forall g: Batch :: g in groups ==> exists id :: id in g && Total(g - {id}) <= target
    ensures n <= |groups| && forall i :: n <= i < |groups| ==> target < Total(groups[i])
    ensures forall i, j, a, b :: 0 <= i < j < n && a in groups[i] && b in groups[j] ==>
      (if groups[i][a].Some? then partition(a, |groups[i][a].value|) else 0)
      != if groups[j][b].Some? then partition(b, |groups[j][b].value|) else 0
  {
    hide Total, Bounded, Divides;
    n :| Arranged(groups, n, target, partition);
    forall g: Batch | g in groups ensures exists id :: id in g && Total(g - {id}) <= target {
      WithinTarget(g, target);
    }
    forall g: Batch, a: nat, b: nat | g in groups && a in g && b in g
      ensures PartOf(partition, a, g[a]) == PartOf(partition, b, g[b])
    {
      assert Together(partition, g);
    }
    forall i, j, a, b | 0 <= i < j < n && a in groups[i] && b in groups[j]
      ensures PartOf(partition, a, groups[i][a]) != PartOf(partition, b, groups[j][b])
    {
      assert Apart(partition, groups[i], groups[j]);
    }
  }

  lemma EmptyTotal()
    ensures Total(map[]) == 0
  {
  }

  lemma EmptySplit(target: nat, partition: (nat, nat) -> nat)
    ensures Split(map[], [], [], target, partition)
  {
  }

  lemma UniquePrefix(items: seq<Item>, i: nat)
    requires Unique(items) && i < |items|
    ensures Unique(items[..i] + [items[i]])
  {
    assert items[..i] + [items[i]] == items[..i + 1];
  }

  lemma CollectNext(items: seq<Item>, i: nat)
    requires i < |items|
    ensures Collect(items[..i + 1]) == Collect(items[..i])[items[i].id := items[i].data]
    ensures i == 0 ==> Collect(items[..i]) == map[]
  {
    assert items[..i + 1][..i] == items[..i];
  }

  /** The groups in `open` are those of the shards `keys`, which are no longer in `rest`. */
  ghost predicate Taken(open: seq<Batch>, keys: seq<nat>, rest: map<nat, Shard>, partition: (nat, nat) -> nat) {
    && |keys| == |open|
    && (forall i :: 0 <= i < |open| ==> keys[i] !in rest && Belong(partition, open[i], keys[i]))
    && (forall i, j :: 0 <= i < j < |keys| ==> keys[i] != keys[j])
  }

  lemma TakenNext(open: seq<Batch>, keys: seq<nat>, rest: map<nat, Shard>, partition: (nat, nat) -> nat, s: nat)
    requires Taken(open, keys, rest, partition) && s in rest && Belong(partition, rest[s].objects, s)
    ensures Taken(open + [rest[s].objects], keys + [s], rest - {s}, partition)
  {
    hide Belong;
  }

  lemma TakenArranged(open: seq<Batch>, keys: seq<nat>, partition: (nat, nat) -> nat, full: seq<Batch>, target: nat)
    requires Taken(open, keys, map[], partition) && Full(full, target)
    ensures Arranged(open + full, |open|, target, partition)
  {
    hide Total;
    forall i, j | 0 <= i < j < |open| ensures Apart(partition, open[i], open[j]) {
      assert Belong(partition, open[i], keys[i]) && Belong(partition, open[j], keys[j]);
    }
  }

  /** The groups still open are written first, in the unspecified order of the map. */
  method Assemble(shards: map<nat, Shard>, fragmented: seq<Batch>, ghost generation: nat, ghost items: seq<Item>,
                  ghost target: nat, ghost partition: (nat, nat) -> nat)
    returns (groups: seq<Batch>, ghost open: nat)
    requires generation == 0 ==> Whole(shards, fragmented, items)
    requires generation > 0 && Unique(items) ==>
      Split(shards, fragmented, items, target, partition) && Full(fragmented, target)
    ensures generation == 0 ==> groups == if items == [] then [] else [Collect(items)]
    ensures generation > 0 && Unique(items) ==> Shards(groups, Collect(items), target, partition)
    ensures generation > 0 && Unique(items) ==> forall g: Batch, a: nat, b: nat ::
      g in groups && a in g && b in g && g[a].Some? && g[b].Some? ==>
        partition(a, |g[a].value|) == partition(b, |g[b].value|)
    ensures generation > 0 && Unique(items) ==> forall g: Batch, a: nat, b: nat ::
      g in groups && a in g && b in g && g[a].None? && g[b].Some? ==> partition(b, |g[b].value|) == 0
    ensures generation > 0 && Unique(items) ==> forall g: Batch :: g in groups ==>
      exists id :: id in g && Total(g - {id}) <= target
    ensures generation > 0 && Unique(items) ==>
      open <= |groups| && forall i :: open <= i < |groups| ==> target < Total(groups[i])
    ensures generation > 0 && Unique(items) ==> forall i, j, a, b ::
      0 <= i < j < open <= |groups| && a in groups[i] && b in groups[j] ==>
        (if groups[i][a].Some? then partition(a, |groups[i][a].value|) else 0)
        != if groups[j][b].Some? then partition(b, |groups[j][b].value|) else 0
  {
    hide Placed, Total, Collect, Bounded, Divides, Together, Belong, Full, Taken, Arranged, PartOf;
    open := 0;
    var rest, first := shards, [];
    ghost var keys: seq<nat> := [];
    assert first + fragmented == fragmented;
    assert Taken(first, keys, rest, partition) by { TakenNone(rest, partition); }
    while rest != map[]
      invariant generation == 0 ==> rest.Keys <= {0}
      invariant generation == 0 ==>
        first == (if items == [] || rest != map[] then [] else [Collect(items)]) && fragmented == []
          && (rest != map[] ==> items != [] && rest[0].objects == Collect(items))
      invariant generation > 0 && Unique(items) ==> Split(rest, first + fragmented, items, target, partition)
      invariant generation > 0 && Unique(items) ==> Taken(first, keys, rest, partition)
      decreases rest.Keys
    {
      assert rest.Keys != {};
      var s :| s in rest;
      if generation > 0 && Unique(items) {
        SplitTake(rest, first, fragmented, items, target, partition, s);
        TakenNext(first, keys, rest, partition, s);
      }
      first := first + [rest[s].objects];
      keys := keys + [s];
      rest := rest - {s};
    }
    groups := first + fragmented;
    if generation > 0 && Unique(items) {
      PlacedDivides(groups, Collect(items));
      TakenArranged(first, keys, partition, fragmented, target);
      open := InPartitions(groups, Collect(items), target, partition);
    }
  }

  lemma TakenNone(rest: map<nat, Shard>, partition: (nat, nat) -> nat)
    ensures Taken([], [], rest, partition)
  {
  }

  lemma SplitTake(rest: map<nat, Shard>, open: seq<Batch>, fragmented: seq<Batch>, items: seq<Item>, target: nat,
                  partition: (nat, nat) -> nat, s: nat)
    requires Split(rest, open + fragmented, items, target, partition) && s in rest
    ensures Split(rest - {s}, open + [rest[s].objects] + fragmented, items, target, partition)
  {
    hide Bounded, Placed, Collect, Total;
    var groups := open + fragmented;
    CloseShard(rest, groups, Collect(items), s, |open|);
    assert groups[..|open|] == open && groups[|open|..] == fragmented;
  }
}
