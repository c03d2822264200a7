/**
 * The task status table `_status`, the name lookup behind `Task.prototype.is`,
 * and the guards of `checkfor` as one function on a single task's state.
 */
module TaskState {
  import opened Wrappers

  /** `_status`: SLEEPING .. SUCCEEDED are 0 .. 5, FAILED is 400. */
  datatype State = Sleeping | Waiting | Ready | Loading | Loaded | Succeeded | Failed

  function Code(s: State): nat {
    match s
    case Sleeping => 0
    case Waiting => 1
    case Ready => 2
    case Loading => 3
    case Loaded => 4
    case Succeeded => 5
    case Failed => 400
  }

  /** The argument of `checkfor` (and of an agent's `emit`): the state a task is asked to enter. */
  datatype Trigger =
    | ToWaiting      // 'waiting'
    | ToReady        // 'ready'
    | ToLoading      // 'loading'
    | ToLoaded       // 'load'
    | ToSucceeded    // 'success'
    | ToFailed       // 'error'
    | Unrecognised   // any other string: the switch has no case for it

  /**
   * The state `checkfor(c)` moves a task to, before any of the follow-up work
   * (re-checks, `exec`, starting branches, emitting) that the transition triggers;
   * `s` itself when the guard does not hold.
   */
  function Advance(s: State, c: Trigger, dependence: int, branchCount: nat): State {
    match c
    case ToWaiting => if s == Sleeping then Waiting else s
    case ToReady => if s == Waiting && dependence <= 0 then Ready else s
    case ToLoading => if s == Ready then Loading else s
    case ToLoaded => if s == Loading then Loaded else s
    case ToSucceeded => if s == Loaded && branchCount == 0 then Succeeded else s
    case ToFailed => if s != Failed then Failed else s
    case Unrecognised => s
  }

  /** The state each forward trigger requires, and the one it enters. */
  function Source(c: Trigger): State
    requires c != ToFailed && c != Unrecognised
  {
    match c
    case ToWaiting => Sleeping
    case ToReady => Waiting
    case ToLoading => Ready
    case ToLoaded => Loading
    case ToSucceeded => Loaded
  }

  function Target(c: Trigger): State
    requires c != Unrecognised
  {
    match c
    case ToWaiting => Waiting
    case ToReady => Ready
    case ToLoading => Loading
    case ToLoaded => Loaded
    case ToSucceeded => Succeeded
    case ToFailed => Failed
  }

  /**
   * One call of `checkfor` either changes nothing, or takes exactly one step of
   * SLEEPING -> WAITING -> READY -> LOADING -> LOADED -> SUCCEEDED from the exact
   * predecessor state (READY also needing `dependence <= 0`, SUCCEEDED an empty
   * branch list), or enters FAILED from any other state.
   */
  lemma AdvanceSteps(s: State, c: Trigger, dependence: int, branchCount: nat)
    ensures var s' := Advance(s, c, dependence, branchCount);
      || s' == s
      || (c != ToFailed && c != Unrecognised && s == Source(c) && s' == Target(c)
          && (c == ToReady ==> dependence <= 0)
          && (c == ToSucceeded ==> branchCount == 0))
      || (c == ToFailed && s != Failed && s' == Failed)
    ensures var s' := Advance(s, c, dependence, branchCount);
      s' != s <==>
        (c == ToFailed && s != Failed)
        || (c != ToFailed && c != Unrecognised && s == Source(c)
            && (c == ToReady ==> dependence <= 0)
            && (c == ToSucceeded ==> branchCount == 0))
  {
  }

  /** Codes only grow along a transition. */
  lemma AdvanceMonotone(s: State, c: Trigger, dependence: int, branchCount: nat)
    ensures Code(s) <= Code(Advance(s, c, dependence, branchCount))
  {
  }

  /** The states a sequence of `checkfor` calls passes through ends in, given fixed counters. */
  function Replay(s: State, cs: seq<Trigger>, dependence: int, branchCount: nat): State
    decreases cs
  {
    if cs == [] then s else Replay(Advance(s, cs[0], dependence, branchCount), cs[1..], dependence, branchCount)
  }

  /** FAILED is sticky: no sequence of triggers leaves it. */
  lemma {:induction false} FailedIsSticky(cs: seq<Trigger>, dependence: int, branchCount: nat)
    ensures Replay(Failed, cs, dependence, branchCount) == Failed
  {
    if cs != [] {
      FailedIsSticky(cs[1..], dependence, branchCount);
    }
  }

  /** Along any sequence of triggers the state code never goes down. */
  lemma {:induction false} ReplayMonotone(s: State, cs: seq<Trigger>, dependence: int, branchCount: nat)
    ensures Code(s) <= Code(Replay(s, cs, dependence, branchCount))
    decreases cs
  {
    if cs != [] {
      ReplayMonotone(Advance(s, cs[0], dependence, branchCount), cs[1..], dependence, branchCount);
    }
  }

  /**
   * A task cannot succeed without having loaded: from any state below LOADED,
   * reaching SUCCEEDED takes a sequence that passes LOADING's 'load' trigger.
   */
  lemma {:induction false} SucceedOnlyAfterLoad(s: State, cs: seq<Trigger>, dependence: int, branchCount: nat)
    requires Code(s) < Code(Loaded)
    requires ToLoaded !in cs
    ensures Replay(s, cs, dependence, branchCount) != Succeeded
    decreases cs
  {
    if cs != [] {
      var s1 := Advance(s, cs[0], dependence, branchCount);
      if s1 == Failed {
        FailedIsSticky(cs[1..], dependence, branchCount);
      } else {
        SucceedOnlyAfterLoad(s1, cs[1..], dependence, branchCount);
      }
    }
  }

  // ---- `Task.prototype.is(name)`: `this.state === _status[name.trim().toUpperCase()]` ----

  /**
   * `_status[name.trim().toUpperCase()]` for the state names the scheduler passes
   * (all lower-case, without blanks); `None` stands for JavaScript's `undefined`.
   */
  function StatusCode(name: string): Option<nat> {
    if name == "sleeping" then Some(0)
    else if name == "waiting" then Some(1)
    else if name == "ready" then Some(2)
    else if name == "loading" then Some(3)
    else if name == "loaded" then Some(4)
    else if name == "succeeded" then Some(5)
    else if name == "failed" then Some(400)
    else None
  }

  predicate Is(s: State, name: string) {
    StatusCode(name) == Some(Code(s))
  }

  /** The state names select exactly their own state. */
  lemma IsByName(s: State)
    ensures Is(s, "sleeping") <==> s == Sleeping
    ensures Is(s, "waiting") <==> s == Waiting
    ensures Is(s, "ready") <==> s == Ready
    ensures Is(s, "loading") <==> s == Loading
    ensures Is(s, "loaded") <==> s == Loaded
    ensures Is(s, "succeeded") <==> s == Succeeded
    ensures Is(s, "failed") <==> s == Failed
  {
  }

  /**
   * `is('error')` looks up `_status.ERROR`, which does not exist, so it is false in
   * every state; `onSuccess` therefore never skips registration, even on a FAILED task.
   */
  lemma IsErrorNeverHolds(s: State)
    ensures !Is(s, "error")
  {
  }
}
