/** The portal's notification queue: numbered toasts, each with a removal timer armed
    when it is added. Armed timers are modelled as a multiset of the ids they will remove. */
module Toasts {
  import opened Seqs

  datatype Severity = Success | Error | Warning

  datatype Toast = Toast(id: nat, message: string, severity: Severity)

  /** How long a toast lives before its timer removes it, in milliseconds. */
  const TOAST_TTL_MS: nat := 3000

  datatype ToastStore = ToastStore(items: seq<Toast>, nextId: nat, pending: multiset<nat>)

  /** Ids strictly increase along the list. */
  ghost predicate IdsIncreasing(items: seq<Toast>) {
    forall i, j :: 0 <= i < j < |items| ==> items[i].id < items[j].id
  }

  /** Every id in use, on screen or in an armed timer, was issued before `nextId`. */
  ghost predicate Valid(s: ToastStore) {
    && IdsIncreasing(s.items)
    && (forall t :: t in s.items ==> t.id < s.nextId)
    && (forall id :: id in s.pending ==> id < s.nextId)
  }

  function Init(): (s: ToastStore)
    ensures s.items == [] && s.nextId == 0 && s.pending == multiset{}
    ensures Valid(s)
  {
    ToastStore([], 0, multiset{})
  }

  /** `add(message, type)`: the new toast takes the next id, goes to the end of the list,
      and a timer is armed to remove exactly that id after `TOAST_TTL_MS`. */
  function Add(s: ToastStore, message: string, severity: Severity := Success): (r: ToastStore)
    ensures r.nextId == s.nextId + 1
    ensures |r.items| == |s.items| + 1 && r.items[..|s.items|] == s.items
    ensures r.items[|s.items|] == Toast(s.nextId, message, severity)
    ensures r.pending == s.pending + multiset{s.nextId}
    ensures Valid(s) ==> Valid(r)
  {
    ToastStore(s.items + [Toast(s.nextId, message, severity)], s.nextId + 1, s.pending + multiset{s.nextId})
  }

  /** The filter `remove(id)` applies. */
  function KeepOthers(id: nat): Toast -> bool {
    (t: Toast) => t.id != id
  }

  /** `remove(id)`: drop the toasts with that id; `nextId` and armed timers are untouched. */
  function Remove(s: ToastStore, id: nat): (r: ToastStore)
    ensures r.nextId == s.nextId && r.pending == s.pending
    ensures forall t :: t in r.items <==> t in s.items && t.id != id
    ensures (forall t :: t in s.items ==> t.id != id) ==> r == s
    ensures Valid(s) ==> Valid(r)
  {
    FilterKeepsIdsIncreasing(s.items, id);
    FilterKeepingAll(s.items, KeepOthers(id));
    s.(items := Filter(s.items, KeepOthers(id)))
  }

  /** The armed timer for `id` fires: it removes `id` and is disarmed. */
  function Fire(s: ToastStore, id: nat): (r: ToastStore)
    requires id in s.pending
    ensures r.items == Remove(s, id).items && r.nextId == s.nextId
    ensures r.pending == s.pending - multiset{id}
    ensures Valid(s) ==> Valid(r)
  {
    Remove(s, id).(pending := s.pending - multiset{id})
  }

  lemma {:induction false} FilterKeepsIdsIncreasing(items: seq<Toast>, id: nat)
    ensures IdsIncreasing(items) ==> IdsIncreasing(Filter(items, KeepOthers(id)))
    decreases |items|
  {
    if |items| > 0 && IdsIncreasing(items) {
      FilterKeepsIdsIncreasing(items[1..], id);
      var rest := Filter(items[1..], KeepOthers(id));
      forall t | t in rest
        ensures items[0].id < t.id
      {
        var k :| 0 <= k < |items[1..]| && items[1..][k] == t;
        assert items[k + 1] == t;
      }
    }
  }

  lemma {:induction false} FilterKeepingAll<T(!new)>(xs: seq<T>, keep: T -> bool)
    ensures (forall x :: x in xs ==> keep(x)) ==> Filter(xs, keep) == xs
    decreases |xs|
  {
    if |xs| > 0 && forall x :: x in xs ==> keep(x) {
      assert xs[0] in xs;
      assert forall x :: x in xs[1..] ==> x in xs;
      FilterKeepingAll(xs[1..], keep);
      assert [xs[0]] + xs[1..] == xs;
    }
  }

  /** Removing a toast twice, as a dismissal followed by its late timer does, is removing it once. */
  lemma RemoveIdempotent(s: ToastStore, id: nat)
    ensures Remove(Remove(s, id), id) == Remove(s, id)
  {
  }

  /** A timer that fires after its toast was dismissed removes nothing, and in particular
      no newer toast. */
  lemma LateTimerHarmless(s: ToastStore, id: nat)
    requires id in s.pending
    requires forall t :: t in s.items ==> t.id != id
    ensures Fire(s, id).items == s.items
  {
  }

  /** Removing the toast just added gives back the list before the add. */
  lemma RemoveUndoesAdd(s: ToastStore, message: string, severity: Severity)
    requires Valid(s)
    ensures Remove(Add(s, message, severity), s.nextId).items == s.items
  {
    var a := Add(s, message, severity);
    FilterDistributes(s.items, [Toast(s.nextId, message, severity)], KeepOthers(s.nextId));
    FilterKeepingAll(s.items, KeepOthers(s.nextId));
  }

  /** A user action or timer callback on the queue. */
  datatype Op = AddOp(message: string, severity: Severity) | RemoveOp(id: nat) | FireOp(id: nat)

  function Apply(s: ToastStore, op: Op): ToastStore {
    match op
    case AddOp(message, severity) => Add(s, message, severity)
    case RemoveOp(id) => Remove(s, id)
    case FireOp(id) => if id in s.pending then Fire(s, id) else s
  }

  function Run(s: ToastStore, ops: seq<Op>): ToastStore
    decreases |ops|
  {
    if |ops| == 0 then s else Run(Apply(s, ops[0]), ops[1..])
  }

  /** The ids the `add`s among `ops` hand out, in order. */
  function IssuedIds(s: ToastStore, ops: seq<Op>): seq<nat>
    decreases |ops|
  {
    if |ops| == 0 then []
    else (if ops[0].AddOp? then [s.nextId] else []) + IssuedIds(Apply(s, ops[0]), ops[1..])
  }

  /** Across any interleaving of adds, removals and timer firings, the ids handed out
      strictly increase, all lie between the starting and final `nextId`, and the queue
      stays valid: no id is ever reused. */
  lemma {:induction false} IdsNeverReused(s: ToastStore, ops: seq<Op>)
    requires Valid(s)
    ensures Valid(Run(s, ops))
    ensures s.nextId <= Run(s, ops).nextId
    ensures forall i :: 0 <= i < |IssuedIds(s, ops)| ==>
              s.nextId <= IssuedIds(s, ops)[i] < Run(s, ops).nextId
    ensures forall i, j :: 0 <= i < j < |IssuedIds(s, ops)| ==> IssuedIds(s, ops)[i] < IssuedIds(s, ops)[j]
    decreases |ops|
  {
    if |ops| > 0 {
      var next := Apply(s, ops[0]);
      IdsNeverReused(next, ops[1..]);
      assert s.nextId <= next.nextId;
      if ops[0].AddOp? {
        assert next.nextId == s.nextId + 1;
      }
    }
  }
}
