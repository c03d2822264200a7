/**
 * The per-task event bus of loader.js (`on`, `one`, `emit`): what a callback is,
 * and which registrations an emission keeps.
 */
module EventBus {

  /**
   * The closures the scheduler registers, as a closed set of actions. Each names the
   * task it captured; the emitting task (`this` inside the callback) is supplied when
   * it runs. `UserCallback` stands for a caller's own callback, opaque to the scheduler.
   */
  datatype Action =
    | RemoveDependence(dependent: nat)   // `_self.removeDependence(this)`
    | RemoveBranch(host: nat)            // `_host.removeBranch(this)`
    | Terminate(host: nat)               // `_host.terminate()`
    | UserCallback(id: nat)

  /** `[callback, 0]` from `on` is persistent, `[callback, 1]` from `one` is fire-once. */
  datatype Entry = Entry(action: Action, once: bool)

  type Events = map<string, seq<Entry>>

  /** `this.events[event]`, with a missing list read as empty. */
  function Listeners(events: Events, e: string): seq<Entry> {
    if e in events then events[e] else []
  }

  /**
   * The list `emit` rebuilds from a snapshot `batch`: the loop pushes back every entry
   * that is not fire-once, in order.
   */
  function Persistent(batch: seq<Entry>): seq<Entry>
  {
    if batch == [] then []
    else Persistent(batch[..|batch| - 1]) + (if batch[|batch| - 1].once then [] else [batch[|batch| - 1]])
  }

  /** An entry survives an emission exactly when it was in the batch and is persistent. */
  lemma {:induction false} PersistentMembers(batch: seq<Entry>, x: Entry)
    ensures x in Persistent(batch) <==> x in batch && !x.once
  {
    if batch != [] {
      var init := batch[..|batch| - 1];
      assert batch == init + [batch[|batch| - 1]];
      PersistentMembers(init, x);
    }
  }

  /** The rebuilt list is never longer than the batch, and as long exactly when no entry is fire-once. */
  lemma {:induction false} PersistentLength(batch: seq<Entry>)
    ensures |Persistent(batch)| <= |batch|
    ensures |Persistent(batch)| == |batch| <==> forall i :: 0 <= i < |batch| ==> !batch[i].once
  {
    if batch != [] {
      var init := batch[..|batch| - 1];
      PersistentLength(init);
      assert forall i :: 0 <= i < |init| ==> init[i] == batch[i];
    }
  }

  /** Persistent entries fire on every emission; a list of them is kept whole. */
  lemma {:induction false} PersistentIdempotent(batch: seq<Entry>)
    ensures Persistent(Persistent(batch)) == Persistent(batch)
  {
    if batch != [] {
      var init := batch[..|batch| - 1];
      var last := batch[|batch| - 1];
      PersistentIdempotent(init);
      if last.once {
        assert Persistent(batch) == Persistent(init) + [];
        assert Persistent(init) + [] == Persistent(init);
      } else {
        var p := Persistent(init) + [last];
        assert Persistent(batch) == p;
        assert p[..|p| - 1] == Persistent(init);
        assert p[|p| - 1] == last;
      }
    }
  }

  /**
   * A fire-once entry fires at most once: it is gone after the emission that ran it,
   * so a second emission of the same event does not run it again.
   */
  lemma OnceFiresAtMostOnce(batch: seq<Entry>, x: Entry)
    requires x in batch && x.once
    ensures x !in Persistent(batch)
  {
    PersistentMembers(batch, x);
  }
}
