/** One-shot futures (`CompletableFuture`): every future the API hands out is a
    slot in one table, and a slot can be completed at most once. */
module Futures {

  /** How a future was completed: normally with a value, or exceptionally with
      the message of the exception. */
  datatype Completion<O> = Value(value: O) | Error(message: string)

  datatype FutureState<O> = Pending | Completed(completion: Completion<O>)

  /** A future is named by its slot in the table of all futures created so far. */
  type FutureId = nat

  /** The effect of `complete`/`completeExceptionally` on one future: a pending
      future takes the completion, an already completed one keeps its own. */
  function Settle<O>(s: FutureState<O>, c: Completion<O>): (r: FutureState<O>)
    ensures r.Completed?
    ensures s.Completed? ==> r == s
    ensures s.Pending? ==> r.completion == c
  {
    if s.Pending? then Completed(c) else s
  }

  /** The futures named in a handler list, as a set. */
  ghost function Ids(fs: seq<FutureId>): set<FutureId>
  {
    set f | f in fs
  }

  /** The table after every future whose id is in `ids` was completed with `c`. */
  ghost function SettleAll<O>(slots: seq<FutureState<O>>, ids: set<FutureId>, c: Completion<O>): (r: seq<FutureState<O>>)
  {
    seq(|slots|, i requires 0 <= i < |slots| => if i in ids then Settle(slots[i], c) else slots[i])
  }

  /** Completing one more future extends the set of completed ids by one. */
  lemma SettleAllExtend<O>(slots: seq<FutureState<O>>, ids: set<FutureId>, c: Completion<O>, f: FutureId)
    requires f < |slots|
    ensures var s := SettleAll(slots, ids, c);
            s[f := Settle(s[f], c)] == SettleAll(slots, ids + {f}, c)
  {
    var s := SettleAll(slots, ids, c);
    var t := SettleAll(slots, ids + {f}, c);
    assert |s[f := Settle(s[f], c)]| == |t|;
    forall i | 0 <= i < |t| ensures s[f := Settle(s[f], c)][i] == t[i] {
    }
  }

  /** Completing with the same value in two rounds is completing the union once:
      a second completion of the same future changes nothing. */
  lemma SettleAllUnion<O>(slots: seq<FutureState<O>>, a: set<FutureId>, b: set<FutureId>, c: Completion<O>)
    ensures SettleAll(SettleAll(slots, a, c), b, c) == SettleAll(slots, a + b, c)
  {
    var s := SettleAll(SettleAll(slots, a, c), b, c);
    var t := SettleAll(slots, a + b, c);
    assert |s| == |t|;
    forall i | 0 <= i < |t| ensures s[i] == t[i] {
    }
  }

  /** The futures handed out so far, each in its current state. */
  class FutureTable<O> {
    var slots: seq<FutureState<O>>

    constructor ()
      ensures slots == []
    {
      slots := [];
    }

    /** `new CompletableFuture<>()`: a pending future distinct from every earlier one. */
    method Create() returns (f: FutureId)
      modifies this
      ensures f == |old(slots)|
      ensures slots == old(slots) + [Pending]
    {
      f := |slots|;
      slots := slots + [Pending];
    }

    /** `complete(v)` (with `Value(v)`) or `completeExceptionally(e)` (with
        `Error(msg)`); `changed` is the boolean those methods return. */
    method Complete(f: FutureId, c: Completion<O>) returns (changed: bool)
      requires f < |slots|
      modifies this
      ensures slots == old(slots)[f := Settle(old(slots)[f], c)]
      ensures changed <==> old(slots)[f].Pending?
    {
      changed := slots[f].Pending?;
      slots := slots[f := Settle(slots[f], c)];
    }
  }
}
