/**
 * The sequence allocator: the "counters" table and the two operations the
 * session manager performs on it, `ensure_counter` (an upsert with
 * `$setOnInsert: {seq: 0}`) and `get_next_id` (a `find_one_and_update` with
 * `$inc: {seq: 1}` that returns the document after the update).
 */
module Allocator {
  import opened Bson

  /** The counters table: the counter's `_id` (a collection name) to its `seq`. */
  type Counters = map<string, int>

  /** The state of the table after `ensure_counter` for the counter `name`. */
  function EnsureCounter(c: Counters, name: string): Counters {
    if name in c then c else c[name := 0]
  }

  /** A successful `get_next_id`: the table after the increment and the value returned. */
  datatype Allocation = Allocation(counters: Counters, id: int)

  /**
   * `get_next_id` for the counter `name`. When no counter document matches,
   * `find_one_and_update` returns None and subscripting it fails: None here.
   */
  function NextId(c: Counters, name: string): Option<Allocation> {
    if name in c then
      var v := c[name] + 1;
      Some(Allocation(c[name := v], v))
    else
      None
  }

  /** `ensure_counter` creates the counter with seq 0 only when it is absent and never resets one. */
  lemma EnsureCounterInsertsIfAbsent(c: Counters, name: string)
    ensures name in EnsureCounter(c, name)
    ensures name !in c ==> EnsureCounter(c, name) == c[name := 0]
    ensures name in c ==> EnsureCounter(c, name) == c
    ensures EnsureCounter(c, name).Keys == c.Keys + {name}
  {
  }

  /** Calling `ensure_counter` again changes nothing. */
  lemma EnsureCounterIdempotent(c: Counters, name: string)
    ensures EnsureCounter(EnsureCounter(c, name), name) == EnsureCounter(c, name)
  {
  }

  /**
   * `get_next_id` succeeds exactly when the counter exists; it raises that
   * counter by exactly one, returns the new value and leaves every other
   * counter as it was.
   */
  lemma NextIdIncrements(c: Counters, name: string)
    ensures NextId(c, name).Some? <==> name in c
    ensures name in c ==>
      var a := NextId(c, name).value;
      a.id == c[name] + 1 && a.counters.Keys == c.Keys && a.counters[name] == a.id
      && forall k :: k in c && k != name ==> a.counters[k] == c[k]
  {
  }

  /** `k` successive `get_next_id` calls: the final table and the values returned, in order. */
  function AllocateMany(c: Counters, name: string, k: nat): Option<(Counters, seq<int>)>
    decreases k
  {
    if k == 0 then Some((c, []))
    else
      match NextId(c, name)
      case None => None
      case Some(a) =>
        match AllocateMany(a.counters, name, k - 1)
        case None => None
        case Some(rest) => Some((rest.0, [a.id] + rest.1))
  }

  /** The values returned by `k` calls starting from seq `s` are s+1, ..., s+k, and seq ends at s+k. */
  lemma {:induction false} AllocateManyIds(c: Counters, name: string, k: nat)
    requires name in c
    ensures AllocateMany(c, name, k).Some?
    ensures var (c', ids) := AllocateMany(c, name, k).value;
      |ids| == k
      && (forall i :: 0 <= i < k ==> ids[i] == c[name] + i + 1)
      && c' == c[name := c[name] + k]
    decreases k
  {
    if k > 0 {
      var a := NextId(c, name).value;
      AllocateManyIds(a.counters, name, k - 1);
      var (c', ids) := AllocateMany(c, name, k).value;
      var rest := AllocateMany(a.counters, name, k - 1).value;
      assert ids == [a.id] + rest.1;
      forall i | 0 <= i < k ensures ids[i] == c[name] + i + 1 {
        if i > 0 {
          assert ids[i] == rest.1[i - 1];
        }
      }
    }
  }

  /** Without a counter document the first call already fails. */
  lemma AllocateManyNeedsCounter(c: Counters, name: string, k: nat)
    requires name !in c && k > 0
    ensures AllocateMany(c, name, k).None?
  {
  }

  predicate StrictlyIncreasing(ids: seq<int>) {
    forall i, j :: 0 <= i < j < |ids| ==> ids[i] < ids[j]
  }

  /**
   * After `ensure_counter` on a table without the counter, `k` successive
   * `get_next_id` calls return 1, 2, ..., k: strictly increasing, so no value
   * is handed out twice.
   */
  lemma {:induction false} FreshCounterAllocatesOneToK(c: Counters, name: string, k: nat)
    requires name !in c
    ensures AllocateMany(EnsureCounter(c, name), name, k).Some?
    ensures var ids := AllocateMany(EnsureCounter(c, name), name, k).value.1;
      |ids| == k && (forall i :: 0 <= i < k ==> ids[i] == i + 1) && StrictlyIncreasing(ids)
  {
    AllocateManyIds(EnsureCounter(c, name), name, k);
  }

  /** From any existing counter value the returned values strictly increase and all exceed that value. */
  lemma {:induction false} AllocatedIdsIncrease(c: Counters, name: string, k: nat)
    requires name in c
    ensures AllocateMany(c, name, k).Some?
    ensures var ids := AllocateMany(c, name, k).value.1;
      StrictlyIncreasing(ids) && forall i :: 0 <= i < |ids| ==> ids[i] > c[name]
  {
    AllocateManyIds(c, name, k);
  }
}
