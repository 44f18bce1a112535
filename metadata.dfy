/**
 * Method-level metadata and its merge over a class's prototype chain
 * (src/decorator/metadata.util.ts).
 *
 * A prototype chain is an explicit finite list of prototypes, nearest first;
 * the end of the list is `null`. Own metadata for one metadata key is a map
 * from class name to that class's own record (method name to entry).
 */
module Metadata {
  import opened Wrappers

  /** A prototype on the chain: a class's prototype, or one of the two built-in roots. */
  datatype Proto = ClassProto(name: string) | ObjectPrototype | FunctionPrototype

  /** Own metadata stored under one key: class name to method-name record. */
  type OwnStore<V> = map<string, map<string, V>>

  /** `Reflect.getOwnMetadata(key, p)`: absent for the built-in roots and undecorated classes. */
  function OwnAt<V>(store: OwnStore<V>, p: Proto): Option<map<string, V>>
  {
    if p.ClassProto? && p.name in store then Some(store[p.name]) else None
  }

  /** What a level adds to the merge: its own record, or nothing. */
  function Contribution<V>(store: OwnStore<V>, p: Proto): map<string, V>
  {
    match OwnAt(store, p)
    case Some(m) => m
    case None => map[]
  }

  /** How many levels the walk visits: it stops at `null` (the end of the list),
      `Object.prototype` or `Function.prototype`. */
  function Visited(chain: seq<Proto>): (n: nat)
    ensures n <= |chain|
    ensures forall i :: 0 <= i < n ==> chain[i].ClassProto?
    ensures n < |chain| ==> !chain[n].ClassProto?
  {
    if chain == [] || !chain[0].ClassProto? then 0 else 1 + Visited(chain[1..])
  }

  /** `Object.assign` of the first `n` levels' contributions into `{}`, nearest first. */
  function MergeLevels<V>(store: OwnStore<V>, chain: seq<Proto>, n: nat): map<string, V>
    requires n <= |chain|
  {
    if n == 0 then map[] else MergeLevels(store, chain, n - 1) + Contribution(store, chain[n - 1])
  }

  /** The merged metadata of a prototype chain. */
  function Collected<V>(store: OwnStore<V>, chain: seq<Proto>): map<string, V>
  {
    MergeLevels(store, chain, Visited(chain))
  }

  /** The walk of `collectMetadataFromPrototypeChain`: a fresh result merged level by level. */
  method CollectMetadataFromPrototypeChain<V>(store: OwnStore<V>, chain: seq<Proto>) returns (result: map<string, V>)
    ensures result == Collected(store, chain)
  {
    result := map[];
    var i := 0;
    while i < |chain| && chain[i].ClassProto?
      invariant i <= |chain|
      invariant forall j :: 0 <= j < i ==> chain[j].ClassProto?
      invariant result == MergeLevels(store, chain, i)
    {
      var metadata := OwnAt(store, chain[i]);
      if metadata.Some? {
        result := result + metadata.value;
      }
      i := i + 1;
    }
  }

  /** Level `i` of the visited part has an own record holding key `k`. */
  predicate DefinesAt<V>(store: OwnStore<V>, chain: seq<Proto>, i: nat, k: string)
    requires i < |chain|
  {
    k in Contribution(store, chain[i])
  }

  /** The merged keys are exactly the union of the own keys of the first `n` levels. */
  lemma {:induction false} MergeLevelsKeys<V>(store: OwnStore<V>, chain: seq<Proto>, n: nat, k: string)
    requires n <= |chain|
    ensures k in MergeLevels(store, chain, n) <==> exists i :: 0 <= i < n && DefinesAt(store, chain, i, k)
  {
    if n > 0 {
      MergeLevelsKeys(store, chain, n - 1, k);
      if DefinesAt(store, chain, n - 1, k) {
        assert k in MergeLevels(store, chain, n);
      }
    }
  }

  /** The result's keys are the union of the own-metadata keys of the visited levels. */
  lemma CollectedKeys<V>(store: OwnStore<V>, chain: seq<Proto>, k: string)
    ensures k in Collected(store, chain) <==> exists i :: 0 <= i < Visited(chain) && DefinesAt(store, chain, i, k)
  {
    MergeLevelsKeys(store, chain, Visited(chain), k);
  }

  /** A key defined at level `j` and at no farther visited level takes level `j`'s value:
      the farthest level wins. */
  lemma {:induction false} MergeLevelsFarthestWins<V>(store: OwnStore<V>, chain: seq<Proto>, n: nat, j: nat, k: string)
    requires j < n <= |chain|
    requires DefinesAt(store, chain, j, k)
    requires forall i :: j < i < n ==> !DefinesAt(store, chain, i, k)
    ensures k in MergeLevels(store, chain, n)
    ensures MergeLevels(store, chain, n)[k] == Contribution(store, chain[j])[k]
  {
    if n - 1 == j {
    } else {
      assert !DefinesAt(store, chain, n - 1, k);
      MergeLevelsFarthestWins(store, chain, n - 1, j, k);
    }
  }

  lemma CollectedFarthestWins<V>(store: OwnStore<V>, chain: seq<Proto>, j: nat, k: string)
    requires j < Visited(chain)
    requires DefinesAt(store, chain, j, k)
    requires forall i :: j < i < Visited(chain) ==> !DefinesAt(store, chain, i, k)
    ensures k in Collected(store, chain)
    ensures Collected(store, chain)[k] == Contribution(store, chain[j])[k]
  {
    MergeLevelsFarthestWins(store, chain, Visited(chain), j, k);
  }

  /** With no own metadata on any visited level, the result is `{}`. */
  lemma {:induction false} CollectedEmpty<V>(store: OwnStore<V>, chain: seq<Proto>)
    requires forall i :: 0 <= i < Visited(chain) ==> OwnAt(store, chain[i]).None?
    ensures Collected(store, chain) == map[]
  {
    var n := Visited(chain);
    forall k
      ensures k !in Collected(store, chain)
    {
      MergeLevelsKeys(store, chain, n, k);
    }
  }

  /** Levels past the first built-in root are never read. */
  lemma {:induction false} CollectedStopsAtRoot<V>(store: OwnStore<V>, chain: seq<Proto>, rest: seq<Proto>, i: nat)
    requires i < |chain| && !chain[i].ClassProto?
    ensures Collected(store, chain) == Collected(store, chain[..i + 1] + rest)
  {
    var c2 := chain[..i + 1] + rest;
    assert Visited(chain) <= i;
    assert c2[i] == chain[i];
    assert Visited(c2) <= i;
    assert forall j :: 0 <= j <= i ==> c2[j] == chain[j];
    assert c2[Visited(chain)] == chain[Visited(chain)];
    assert c2[Visited(c2)] == chain[Visited(c2)];
    MergeLevelsAgree(store, chain, c2, Visited(chain));
  }

  /** Merging depends only on the merged levels. */
  lemma {:induction false} MergeLevelsAgree<V>(store: OwnStore<V>, c1: seq<Proto>, c2: seq<Proto>, n: nat)
    requires n <= |c1| && n <= |c2|
    requires forall j :: 0 <= j < n ==> c1[j] == c2[j]
    ensures MergeLevels(store, c1, n) == MergeLevels(store, c2, n)
  {
    if n > 0 {
      MergeLevelsAgree(store, c1, c2, n - 1);
    }
  }

  /**
   * The own metadata stored under one metadata key. A method decorator reads
   * the class's record (or `{}`), sets one entry and stores it back.
   */
  class MetadataRegistry<V> {
    var own: OwnStore<V>

    constructor ()
      ensures own == map[]
    {
      own := map[];
    }

    /** The class's own record, or `{}`. */
    function OwnRecord(cls: string): (r: map<string, V>)
      reads this
      ensures cls in own ==> r == own[cls]
      ensures cls !in own ==> r == map[]
    {
      if cls in own then own[cls] else map[]
    }

    /** `record[propertyKey] = value; Reflect.defineMetadata(key, record, target)`. */
    method Define(cls: string, propertyKey: string, value: V)
      modifies this
      ensures own == old(own)[cls := old(OwnRecord(cls))[propertyKey := value]]
    {
      var record := OwnRecord(cls);
      record := record[propertyKey := value];
      own := own[cls := record];
    }

    /** `collectMetadataFromPrototypeChain(target, key)` over this registry. */
    method Collect(chain: seq<Proto>) returns (result: map<string, V>)
      ensures result == Collected(own, chain)
    {
      result := CollectMetadataFromPrototypeChain(own, chain);
    }
  }
}
