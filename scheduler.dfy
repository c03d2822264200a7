/**
 * The task scheduler of loader.js: the task table with its registry, the loader
 * registry, and the `Task` methods, whose callbacks re-enter the scheduler.
 *
 * A `Task` object is a record in the table `tasks`, keyed by its uid; the methods of
 * `Task.prototype` are methods of `Runtime` taking that uid. A uid absent from the
 * table plays the part of `null` (uids start at 1, so 0 is never a task).
 */
module Scheduler {
  import opened Wrappers
  import opened TaskState
  import opened EventBus
  import opened Specifiers
  import Registry
  import opened Loaders

  datatype Task = Task(
    uid: nat,
    src: Source,
    kind: string,           // `type`: the name of the loader that runs the task
    state: State,
    dependence: int,        // dependencies not yet succeeded
    branches: seq<nat>,     // child tasks, with repetitions, in attachment order
    events: Events)

  /**
   * What the environment does when a task's loader runs: whether a 'function' task's
   * body throws, and the `emit` calls a plugin's `load` makes on the agent before it
   * returns (its later `emit` calls are top-level `Checkfor` calls of their own).
   */
  datatype Reaction = Reaction(bodyThrows: bool, agentEvents: seq<Trigger>)

  type Env = nat -> Reaction

  // ---- index helpers for `branches.indexOf` / `branches.splice(index, 1)` ----

  function IndexOf(s: seq<nat>, x: nat): (i: int)
    ensures -1 <= i < |s|
    ensures i >= 0 ==> s[i] == x && x !in s[..i]
    ensures i < 0 ==> x !in s
  {
    if s == [] then -1
    else if s[0] == x then 0
    else var j := IndexOf(s[1..], x); if j < 0 then -1 else j + 1
  }

  /** The branch list after `removeBranch(x)`: its first occurrence of `x` is taken out, the rest kept in order. */
  function RemoveFirst(s: seq<nat>, x: nat): seq<nat> {
    var i := IndexOf(s, x);
    if i < 0 then s else s[..i] + s[i + 1..]
  }

  /**
   * `splice(indexOf(x), 1)` takes out exactly the first occurrence of `x`: putting `x`
   * back at that position gives the old list, and the rest keeps its order.
   */
  lemma RemoveFirstCounts(s: seq<nat>, x: nat)
    ensures x in s ==> |RemoveFirst(s, x)| == |s| - 1 && multiset(RemoveFirst(s, x)) == multiset(s) - multiset{x}
    ensures x in s ==>
      var i := IndexOf(s, x);
      0 <= i && x !in s[..i] && s == RemoveFirst(s, x)[..i] + [x] + RemoveFirst(s, x)[i..]
    ensures x !in s ==> RemoveFirst(s, x) == s
  {
    var i := IndexOf(s, x);
    if i >= 0 {
      var front, back := s[..i], s[i + 1..];
      assert s == front + [x] + back;
      assert RemoveFirst(s, x) == front + back;
      SpliceParts(front, back, x);
    }
  }

  /** Splicing `x` out from between `front` and `back`. */
  lemma SpliceParts(front: seq<nat>, back: seq<nat>, x: nat)
    ensures var r := front + back;
      && |r| == |front + [x] + back| - 1 && multiset(r) == multiset(front + [x] + back) - multiset{x}
      && r[..|front|] == front && r[|front|..] == back
  {
    var r := front + back;
    assert multiset(front + [x] + back) == multiset(front) + multiset{x} + multiset(back);
    assert multiset(r) == multiset(front) + multiset(back);
  }

  // ---- how the table may change during a cascade of transitions ----

  /** The same tasks, with their identity kept and no state code going down. */
  ghost predicate Grows(m0: map<nat, Task>, m1: map<nat, Task>) {
    && m1.Keys == m0.Keys
    && forall v :: v in m0 ==>
         && m1[v].uid == m0[v].uid && m1[v].src == m0[v].src && m1[v].kind == m0[v].kind
         && Code(m0[v].state) <= Code(m1[v].state)
  }

  /** Event `e` of a task may have been emitted between `a` and `b`: it entered SUCCEEDED, or FAILED. */
  ghost predicate MayFire(a: Task, b: Task, e: string) {
    || (e == "success" && Code(a.state) < Code(Succeeded) <= Code(b.state))
    || (e == "error" && a.state != Failed && b.state == Failed)
  }

  ghost predicate ListenersKept(a: Task, b: Task, e: string) {
    Listeners(b.events, e) == Listeners(a.events, e) || MayFire(a, b, e)
  }

  ghost predicate Shrinks(m0: map<nat, Task>, m1: map<nat, Task>)
    requires m1.Keys == m0.Keys
  {
    forall v :: v in m0 ==> m1[v].dependence <= m0[v].dependence && |m1[v].branches| <= |m0[v].branches|
  }

  /**
   * What a cascade of `checkfor` calls and callbacks does to the table: states only
   * advance, counters and branch lists only shrink, and a listener list changes only
   * for an event the task has just reached (its own emission rebuilds it).
   */
  ghost predicate Evolves(m0: map<nat, Task>, m1: map<nat, Task>) {
    && Grows(m0, m1)
    && Shrinks(m0, m1)
    && forall v, e :: v in m0 ==> ListenersKept(m0[v], m1[v], e)
  }

  /** As `Evolves`, except that the list of event `e0` of task `u` is being rebuilt. */
  ghost predicate EvolvesBut(m0: map<nat, Task>, m1: map<nat, Task>, u: nat, e0: string) {
    && Grows(m0, m1)
    && Shrinks(m0, m1)
    && forall v, e :: v in m0 && (v != u || e != e0) ==> ListenersKept(m0[v], m1[v], e)
  }

  /** Event `e` of `t` cannot be emitted again, so no cascade touches its listener list. */
  ghost predicate Quiet(t: Task, e: string) {
    (e == "success" ==> Code(t.state) >= Code(Succeeded)) && (e == "error" ==> t.state == Failed)
  }

  lemma CodeFailed(s: State)
    ensures Code(s) >= Code(Failed) ==> s == Failed
    ensures Code(s) <= Code(Failed)
  {
  }

  lemma KeptTrans(a: Task, b: Task, c: Task, e: string)
    requires Code(a.state) <= Code(b.state) <= Code(c.state)
    requires ListenersKept(a, b, e) && ListenersKept(b, c, e)
    ensures ListenersKept(a, c, e)
  {
    CodeFailed(a.state);
    CodeFailed(b.state);
    CodeFailed(c.state);
  }

  lemma EvolvesTrans(m0: map<nat, Task>, m1: map<nat, Task>, m2: map<nat, Task>)
    requires Evolves(m0, m1) && Evolves(m1, m2)
    ensures Evolves(m0, m2)
  {
    forall v, e | v in m0 ensures ListenersKept(m0[v], m2[v], e) {
      KeptTrans(m0[v], m1[v], m2[v], e);
    }
  }

  lemma EvolvesButTrans(m0: map<nat, Task>, m1: map<nat, Task>, m2: map<nat, Task>, u: nat, e0: string)
    requires EvolvesBut(m0, m1, u, e0) && Evolves(m1, m2)
    ensures EvolvesBut(m0, m2, u, e0)
  {
    forall v, e | v in m0 && (v != u || e != e0) ensures ListenersKept(m0[v], m2[v], e) {
      KeptTrans(m0[v], m1[v], m2[v], e);
    }
  }

  /** A transition of `u` followed by the emission it causes is a cascade step as a whole. */
  lemma EmissionCompletes(m0: map<nat, Task>, m1: map<nat, Task>, m2: map<nat, Task>, u: nat, e0: string)
    requires Evolves(m0, m1) && EvolvesBut(m1, m2, u, e0)
    requires u in m0 && MayFire(m0[u], m2[u], e0)
    ensures Evolves(m0, m2)
  {
    forall v, e | v in m0 ensures ListenersKept(m0[v], m2[v], e) {
      if v != u || e != e0 {
        KeptTrans(m0[v], m1[v], m2[v], e);
      }
    }
  }

  /** A cascade leaves a quiet listener list alone. */
  lemma QuietKept(m0: map<nat, Task>, m1: map<nat, Task>, u: nat, e: string)
    requires Evolves(m0, m1) && u in m0 && Quiet(m0[u], e)
    ensures Listeners(m1[u].events, e) == Listeners(m0[u].events, e) && Quiet(m1[u], e)
  {
    assert ListenersKept(m0[u], m1[u], e);
    CodeFailed(m1[u].state);
  }

  // ---- termination of the cascade: every transition uses up one (uid, code) pair ----

  /** The state codes each task has still to pass, as (uid, code) pairs. */
  ghost function PendingOf(m: map<nat, Task>): set<(nat, nat)> {
    set v, k: nat | v in m && Code(m[v].state) < k <= Code(Failed) :: (v, k)
  }

  lemma PendingShrinks(m0: map<nat, Task>, m1: map<nat, Task>)
    requires Grows(m0, m1)
    ensures PendingOf(m1) <= PendingOf(m0)
  {
  }

  lemma PendingDrops(m0: map<nat, Task>, m1: map<nat, Task>, u: nat)
    requires Grows(m0, m1) && u in m0 && Code(m0[u].state) < Code(m1[u].state)
    ensures PendingOf(m1) < PendingOf(m0)
  {
    CodeFailed(m1[u].state);
    assert (u, Code(m1[u].state)) in PendingOf(m0) - PendingOf(m1);
  }

  /** Taking one dependency off a task is an `Evolves` step that leaves nothing more pending. */
  lemma DecrementEvolves(m: map<nat, Task>, u: nat, m1: map<nat, Task>)
    requires u in m && m1 == m[u := m[u].(dependence := m[u].dependence - 1)]
    ensures Evolves(m, m1) && PendingOf(m1) <= PendingOf(m)
  {
    UpdateEvolves(m, u, m[u].(dependence := m[u].dependence - 1));
  }

  /** Replacing one task by a record with the same identity, an equal or later state, no more dependencies or branches and the same listeners is a cascade step. */
  lemma UpdateEvolves(m: map<nat, Task>, u: nat, t: Task)
    requires u in m && t.uid == m[u].uid && t.src == m[u].src && t.kind == m[u].kind
    requires Code(m[u].state) <= Code(t.state) && t.dependence <= m[u].dependence
    requires |t.branches| <= |m[u].branches| && t.events == m[u].events
    ensures Evolves(m, m[u := t])
    ensures PendingOf(m[u := t]) <= PendingOf(m)
    ensures Code(m[u].state) < Code(t.state) ==> PendingOf(m[u := t]) < PendingOf(m)
  {
    var m1 := m[u := t];
    forall v, e | v in m ensures ListenersKept(m[v], m1[v], e) {
    }
    PendingShrinks(m, m1);
    if Code(m[u].state) < Code(t.state) {
      PendingDrops(m, m1, u);
    }
  }

  /** A cascade that keeps every listener list keeps all but one. */
  lemma EvolvesIsBut(m0: map<nat, Task>, m1: map<nat, Task>, u: nat, e0: string)
    requires Evolves(m0, m1)
    ensures EvolvesBut(m0, m1, u, e0)
  {
  }

  lemma EvolvesButRefl(m: map<nat, Task>, u: nat, e0: string)
    ensures EvolvesBut(m, m, u, e0)
  {
  }

  /** Two steps that each rebuild only the list of `e0` of `u` compose. */
  lemma EvolvesButCompose(m0: map<nat, Task>, m1: map<nat, Task>, m2: map<nat, Task>, u: nat, e0: string)
    requires EvolvesBut(m0, m1, u, e0) && EvolvesBut(m1, m2, u, e0)
    ensures EvolvesBut(m0, m2, u, e0)
  {
    forall v, e | v in m0 && (v != u || e != e0) ensures ListenersKept(m0[v], m2[v], e) {
      KeptTrans(m0[v], m1[v], m2[v], e);
    }
  }

  /** Rewriting only the list being rebuilt keeps an emission's frame. */
  lemma UpdateListenersBut(m0: map<nat, Task>, m1: map<nat, Task>, u: nat, e0: string, l: seq<Entry>)
    requires EvolvesBut(m0, m1, u, e0) && u in m1
    ensures EvolvesBut(m0, m1[u := m1[u].(events := m1[u].events[e0 := l])], u, e0)
    ensures Listeners(m1[u := m1[u].(events := m1[u].events[e0 := l])][u].events, e0) == l
  {
    var m2 := m1[u := m1[u].(events := m1[u].events[e0 := l])];
    forall v, e | v in m0 && (v != u || e != e0) ensures ListenersKept(m0[v], m2[v], e) {
      assert ListenersKept(m0[v], m1[v], e);
      if v == u {
        assert m2[u].state == m1[u].state;
        assert (e in m2[u].events) == (e in m1[u].events);
        assert e in m1[u].events ==> m2[u].events[e] == m1[u].events[e];
      }
      assert Listeners(m2[v].events, e) == Listeners(m1[v].events, e);
    }
  }

  // ---- registration and wiring when no callback sets off a transition ----

  /** The table after `on`/`one` appends `x` to the list of event `e` of task `u`. */
  function Register(m: map<nat, Task>, u: nat, e: string, x: Entry): (r: map<nat, Task>)
    requires u in m
    ensures r.Keys == m.Keys && r[u] == m[u].(events := r[u].events)
    ensures forall v :: v in m && v != u ==> r[v] == m[v]
    ensures Listeners(r[u].events, e) == Listeners(m[u].events, e) + [x]
    ensures forall f :: f != e ==> Listeners(r[u].events, f) == Listeners(m[u].events, f)
  {
    m[u := m[u].(events := m[u].events[e := Listeners(m[u].events, e) + [x]])]
  }

  /** The table after `removeBranch(b)` on host `h` when no transition follows. */
  function Unbranch(m: map<nat, Task>, h: nat, b: nat): (r: map<nat, Task>)
    requires h in m
    ensures h in r && r == m[h := m[h].(branches := r[h].branches)]
    ensures b in m[h].branches ==>
      var i := IndexOf(m[h].branches, b);
      0 <= i && |r[h].branches| == |m[h].branches| - 1 && b !in m[h].branches[..i]
      && m[h].branches == r[h].branches[..i] + [b] + r[h].branches[i..]
    ensures b !in m[h].branches ==> r == m
  {
    var s := m[h].branches;
    RemoveFirstCounts(s, b);
    m[h := m[h].(branches := RemoveFirst(s, b))]
  }

  /** What running callback `a` for the emitting task `self` does when it sets off no transition. */
  ghost predicate QuietRun(m0: map<nat, Task>, m1: map<nat, Task>, self: nat, a: Action, thrown: bool) {
    match a
    case RemoveDependence(d) =>
      d in m0 && m0[d].state != Waiting ==> m1 == m0[d := m0[d].(dependence := m0[d].dependence - 1)] && !thrown
    case RemoveBranch(h) =>
      h in m0 && m0[h].state != Loaded ==> m1 == Unbranch(m0, h, self) && !thrown
    case Terminate(h) =>
      h in m0 && m0[h].state == Failed ==> m1 == m0 && !thrown
    case UserCallback(_) =>
      m1 == m0 && !thrown
  }

  /**
   * What running callback `a` for the emitting task `self` brings about whether or not
   * it throws: a WAITING dependent on its last dependency reaches READY, a LOADED host
   * losing its last branch reaches SUCCEEDED, and a host told to terminate is FAILED.
   */
  ghost predicate Effect(m0: map<nat, Task>, m1: map<nat, Task>, self: nat, a: Action) {
    match a
    case RemoveDependence(d) =>
      d in m0 && m0[d].state == Waiting && m0[d].dependence <= 1 ==> d in m1 && Code(Ready) <= Code(m1[d].state)
    case RemoveBranch(h) =>
      h in m0 && m0[h].state == Loaded && self in m0[h].branches && RemoveFirst(m0[h].branches, self) == []
      ==> h in m1 && Code(Succeeded) <= Code(m1[h].state)
    case Terminate(h) =>
      h in m0 ==> h in m1 && m1[h].state == Failed
    case UserCallback(_) =>
      true
  }

  /** The host of every `terminate` callback among `entries` has FAILED. */
  ghost predicate HostsFailed(m: map<nat, Task>, entries: seq<Entry>) {
    forall x :: x in entries && x.action.Terminate? && x.action.host in m ==> m[x.action.host].state == Failed
  }

  /** Every task of `bs` exists and has been started: it is WAITING or further on. */
  ghost predicate Started(m: map<nat, Task>, bs: seq<nat>) {
    forall b :: b in bs ==> b in m && Code(Waiting) <= Code(m[b].state)
  }

  /** FAILED is the last state, so a failed host stays failed. */
  lemma HostsFailedGrows(m1: map<nat, Task>, m2: map<nat, Task>, entries: seq<Entry>)
    requires HostsFailed(m1, entries) && Grows(m1, m2)
    ensures HostsFailed(m2, entries)
  {
    forall x | x in entries && x.action.Terminate? && x.action.host in m2
      ensures m2[x.action.host].state == Failed
    {
      CodeFailed(m2[x.action.host].state);
    }
  }

  lemma StartedGrows(m1: map<nat, Task>, m2: map<nat, Task>, bs: seq<nat>)
    requires Started(m1, bs) && Grows(m1, m2)
    ensures Started(m2, bs)
  {
    forall b | b in bs ensures b in m2 && Code(Waiting) <= Code(m2[b].state) {
    }
  }

  /** Starting the next branch of a snapshot extends the started prefix by one. */
  lemma StartedNext(m1: map<nat, Task>, m2: map<nat, Task>, bs: seq<nat>, i: nat)
    requires i < |bs| && Started(m1, bs[..i]) && Grows(m1, m2)
    requires bs[i] in m2 && Code(Waiting) <= Code(m2[bs[i]].state)
    ensures Started(m2, bs[..i + 1])
  {
    assert bs[..i + 1] == bs[..i] + [bs[i]];
  }

  /**
   * The table after `addBranch(b)` on a host below LOADING: `b` pushed onto the host's
   * branches, then `onSuccess` (an immediate `removeBranch` when `b` has succeeded, a
   * `one('success')` otherwise) and `onError` (skipped when `b` has failed).
   */
  function Subscribed(m: map<nat, Task>, h: nat, b: nat): (r: map<nat, Task>)
    requires h in m && b in m
    ensures r.Keys == m.Keys
  {
    WatchError(WatchSuccess(m[h := m[h].(branches := m[h].branches + [b])], h, b), h, b)
  }

  /** `b.onSuccess(() => h.removeBranch(b))` when it sets off no transition. */
  function WatchSuccess(m: map<nat, Task>, h: nat, b: nat): (r: map<nat, Task>)
    requires h in m && b in m
    ensures r.Keys == m.Keys
  {
    if m[b].state == Succeeded then Unbranch(m, h, b)
    else Register(m, b, "success", Entry(Action.RemoveBranch(h), true))
  }

  /** `b.onError(() => h.terminate())`. */
  function WatchError(m: map<nat, Task>, h: nat, b: nat): (r: map<nat, Task>)
    requires b in m
    ensures r.Keys == m.Keys
  {
    if m[b].state == Failed then m
    else Register(m, b, "error", Entry(Action.Terminate(h), true))
  }

  lemma RemoveFirstAppended(s: seq<nat>, x: nat)
    requires x !in s
    ensures RemoveFirst(s + [x], x) == s
  {
    var i := IndexOf(s + [x], x);
    assert (s + [x])[|s|] == x;
    assert i == |s|;
    assert (s + [x])[..i] == s;
  }

  /**
   * What `addBranch` promises the host and the branch: the branch joins the host's list
   * unless it has already succeeded (then it is taken out again at once); the host
   * waits on its success unless it has already succeeded, and on its failure unless
   * it has already failed, so a branch that failed before being added never ends
   * its host.
   */
  lemma SubscribedWatches(m: map<nat, Task>, h: nat, b: nat)
    requires h in m && b in m && (m[b].state == Succeeded ==> b !in m[h].branches)
    ensures var r := Subscribed(m, h, b);
      && r[h].branches == (if m[b].state == Succeeded then m[h].branches else m[h].branches + [b])
      && Listeners(r[b].events, "success")
         == Listeners(m[b].events, "success") + (if m[b].state == Succeeded then [] else [Entry(Action.RemoveBranch(h), true)])
      && Listeners(r[b].events, "error")
         == Listeners(m[b].events, "error") + (if m[b].state == Failed then [] else [Entry(Action.Terminate(h), true)])
  {
    SubscribedWatchesHost(m, h, b);
    var m1 := m[h := m[h].(branches := m[h].branches + [b])];
    WatchSuccessLists(m1, h, b);
    WatchErrorLists(WatchSuccess(m1, h, b), h, b);
  }

  /** `WatchSuccess` leaves the branch's state and 'error' list, and extends its 'success' list unless it has succeeded. */
  lemma WatchSuccessLists(m: map<nat, Task>, h: nat, b: nat)
    requires h in m && b in m
    ensures var r := WatchSuccess(m, h, b);
      && r[b].state == m[b].state
      && Listeners(r[b].events, "success")
         == Listeners(m[b].events, "success") + (if m[b].state == Succeeded then [] else [Entry(Action.RemoveBranch(h), true)])
      && Listeners(r[b].events, "error") == Listeners(m[b].events, "error")
  {
  }

  /** `WatchError` leaves every branch list and the 'success' lists, and extends the branch's 'error' list unless it has failed. */
  lemma WatchErrorLists(m: map<nat, Task>, h: nat, b: nat)
    requires b in m
    ensures var r := WatchError(m, h, b);
      && Listeners(r[b].events, "success") == Listeners(m[b].events, "success")
      && Listeners(r[b].events, "error")
         == Listeners(m[b].events, "error") + (if m[b].state == Failed then [] else [Entry(Action.Terminate(h), true)])
  {
  }

  // ---- how the table may change while tasks are only built and wired ----

  /**
   * One task neither changes state nor loses a listener: identity and state kept, the
   * dependency counter not lower, every listener list only extended at its end.
   */
  ghost predicate TaskStable(a: Task, b: Task) {
    && b.uid == a.uid && b.src == a.src && b.kind == a.kind && b.state == a.state
    && a.dependence <= b.dependence
    && forall e :: Listeners(a.events, e) <= Listeners(b.events, e)
  }

  /** Every existing task is `TaskStable`; tasks may be added. */
  ghost predicate Stable(m0: map<nat, Task>, m1: map<nat, Task>) {
    m0.Keys <= m1.Keys && forall v :: v in m0 ==> TaskStable(m0[v], m1[v])
  }

  /** `Stable`, with every existing task's counter and branch list kept as well. */
  ghost predicate Untouched(m0: map<nat, Task>, m1: map<nat, Task>) {
    && Stable(m0, m1)
    && forall v :: v in m0 ==> m1[v].dependence == m0[v].dependence && m1[v].branches == m0[v].branches
  }

  lemma TaskStableTrans(a: Task, b: Task, c: Task)
    requires TaskStable(a, b) && TaskStable(b, c)
    ensures TaskStable(a, c)
  {
    forall e ensures Listeners(a.events, e) <= Listeners(c.events, e) {
      assert Listeners(a.events, e) <= Listeners(b.events, e);
      assert Listeners(b.events, e) <= Listeners(c.events, e);
    }
  }

  lemma StableTrans(m0: map<nat, Task>, m1: map<nat, Task>, m2: map<nat, Task>)
    requires Stable(m0, m1) && Stable(m1, m2)
    ensures Stable(m0, m2)
  {
    forall v | v in m0 ensures TaskStable(m0[v], m2[v]) {
      TaskStableTrans(m0[v], m1[v], m2[v]);
    }
  }

  lemma UntouchedTrans(m0: map<nat, Task>, m1: map<nat, Task>, m2: map<nat, Task>)
    requires Untouched(m0, m1) && Untouched(m1, m2)
    ensures Untouched(m0, m2)
  {
    StableTrans(m0, m1, m2);
  }

  lemma RegisterStable(m: map<nat, Task>, u: nat, e: string, x: Entry)
    requires u in m
    ensures Untouched(m, Register(m, u, e, x))
  {
    var r := Register(m, u, e, x);
    forall f ensures Listeners(m[u].events, f) <= Listeners(r[u].events, f) {
    }
    assert TaskStable(m[u], r[u]);
  }

  /** A change to one task's counter (upwards) or branch list alone keeps the table `Stable`. */
  lemma RewireStable(m: map<nat, Task>, u: nat, t: Task)
    requires u in m && t == m[u].(dependence := t.dependence, branches := t.branches)
    requires m[u].dependence <= t.dependence
    ensures Stable(m, m[u := t])
    ensures forall v :: v in m && v != u ==> m[u := t][v] == m[v]
  {
    assert TaskStable(m[u], t);
  }

  /** `Stable`, with the counters kept and only the branch list of `h` changed. */
  ghost predicate Rewired(m0: map<nat, Task>, m1: map<nat, Task>, h: nat) {
    && m1.Keys == m0.Keys && Stable(m0, m1)
    && forall v :: v in m0 ==> m1[v].dependence == m0[v].dependence && (v != h ==> m1[v].branches == m0[v].branches)
  }

  lemma RewiredTrans(m0: map<nat, Task>, m1: map<nat, Task>, m2: map<nat, Task>, h: nat)
    requires Rewired(m0, m1, h) && Rewired(m1, m2, h)
    ensures Rewired(m0, m2, h)
  {
    StableTrans(m0, m1, m2);
  }

  lemma WatchSuccessRewired(m: map<nat, Task>, h: nat, b: nat)
    requires h in m && b in m
    ensures Rewired(m, WatchSuccess(m, h, b), h)
  {
    if m[b].state == Succeeded {
      RewireStable(m, h, Unbranch(m, h, b)[h]);
    } else {
      RegisterStable(m, b, "success", Entry(Action.RemoveBranch(h), true));
    }
  }

  lemma WatchErrorRewired(m: map<nat, Task>, h: nat, b: nat)
    requires b in m
    ensures Rewired(m, WatchError(m, h, b), h)
  {
    if m[b].state != Failed {
      RegisterStable(m, b, "error", Entry(Action.Terminate(h), true));
    } else {
      StableRefl(m);
    }
  }

  lemma StableRefl(m: map<nat, Task>)
    ensures Stable(m, m)
  {
    forall v | v in m ensures TaskStable(m[v], m[v]) {
    }
  }

  lemma SubscribedStable(m: map<nat, Task>, h: nat, b: nat)
    requires h in m && b in m
    ensures Rewired(m, Subscribed(m, h, b), h)
  {
    var m1 := m[h := m[h].(branches := m[h].branches + [b])];
    RewireStable(m, h, m1[h]);
    var m2 := WatchSuccess(m1, h, b);
    WatchSuccessRewired(m1, h, b);
    RewiredTrans(m, m1, m2, h);
    WatchErrorRewired(m2, h, b);
    RewiredTrans(m, m2, WatchError(m2, h, b), h);
  }

  /** Adding a task under a fresh uid keeps the table `Untouched`. */
  lemma StableGrowth(m: map<nat, Task>, uid: nat, t: Task)
    requires uid !in m
    ensures Untouched(m, m[uid := t])
  {
    StableRefl(m);
  }

  /**
   * Failure propagation: once `addBranch` has wired `b` under a host `h` below LOADING
   * (with `b` not yet failed), any later 'error' list of `b` that still extends the one
   * it left holds `h.terminate()`, so an emission that runs that list leaves `h` FAILED.
   */
  lemma BranchFailureFailsHost(m: map<nat, Task>, h: nat, b: nat, errors: seq<Entry>, m1: map<nat, Task>)
    requires h in m && b in m && m[b].state != Failed && (m[b].state == Succeeded ==> b !in m[h].branches)
    requires Listeners(Subscribed(m, h, b)[b].events, "error") <= errors
    requires h in m1 && HostsFailed(m1, errors)
    ensures m1[h].state == Failed
  {
    SubscribedWatches(m, h, b);
    var l := Listeners(Subscribed(m, h, b)[b].events, "error");
    assert errors[|l| - 1] == l[|l| - 1] == Entry(Action.Terminate(h), true);
  }

  /** The host's branch list after `Subscribed`: `b` appended unless it has succeeded. */
  lemma SubscribedWatchesHost(m: map<nat, Task>, h: nat, b: nat)
    requires h in m && b in m && (m[b].state == Succeeded ==> b !in m[h].branches)
    ensures Subscribed(m, h, b)[h].branches
            == (if m[b].state == Succeeded then m[h].branches else m[h].branches + [b])
  {
    var m1 := m[h := m[h].(branches := m[h].branches + [b])];
    if m[b].state == Succeeded {
      RemoveFirstAppended(m[h].branches, b);
    }
    assert WatchSuccess(m1, h, b)[h].branches
           == (if m[b].state == Succeeded then m[h].branches else m[h].branches + [b]);
  }

  /** The branches `Parallel` and `Series` leave on their group task: those resolved tasks that had not succeeded. */
  ghost function Unfinished(resolved: seq<nat>, m: map<nat, Task>): seq<nat> {
    if resolved == [] then []
    else
      var last := resolved[|resolved| - 1];
      Unfinished(resolved[..|resolved| - 1], m) + (if last in m && m[last].state == Succeeded then [] else [last])
  }

  lemma {:induction false} UnfinishedMembers(resolved: seq<nat>, m: map<nat, Task>, x: nat)
    ensures x in Unfinished(resolved, m) <==> x in resolved && !(x in m && m[x].state == Succeeded)
  {
    if resolved != [] {
      var init := resolved[..|resolved| - 1];
      UnfinishedMembers(init, m, x);
      assert resolved == init + [resolved[|resolved| - 1]];
    }
  }

  /** States decide `Unfinished`, so building and wiring other tasks leaves it alone. */
  lemma {:induction false} UnfinishedStable(resolved: seq<nat>, m0: map<nat, Task>, m1: map<nat, Task>)
    requires Stable(m0, m1) && forall x :: x in resolved ==> x in m0
    ensures Unfinished(resolved, m1) == Unfinished(resolved, m0)
  {
    if resolved != [] {
      UnfinishedStable(resolved[..|resolved| - 1], m0, m1);
    }
  }

  lemma UnfinishedSnoc(resolved: seq<nat>, b: nat, m: map<nat, Task>)
    ensures Unfinished(resolved + [b], m)
            == Unfinished(resolved, m) + (if b in m && m[b].state == Succeeded then [] else [b])
  {
    assert (resolved + [b])[..|resolved|] == resolved;
  }

  /**
   * Where building group task `p` stands in table `m`: tasks from before the build
   * (`m0`) untouched, nothing changed state since the group was created (`created`),
   * the tasks resolved so far exist, and the group's branches are those of them that
   * had not succeeded.
   */
  ghost predicate GroupOk(m0: map<nat, Task>, created: map<nat, Task>, m: map<nat, Task>, p: nat, resolved: seq<nat>) {
    && p in created && Untouched(m0, m) && Stable(created, m)
    && (forall x :: x in resolved ==> x in m)
    && m[p].branches == Unfinished(resolved, m)
  }

  lemma GroupOkUntouched(m0: map<nat, Task>, created: map<nat, Task>, m1: map<nat, Task>, m2: map<nat, Task>,
                         p: nat, resolved: seq<nat>)
    requires GroupOk(m0, created, m1, p, resolved) && Untouched(m1, m2)
    ensures GroupOk(m0, created, m2, p, resolved)
  {
    UntouchedTrans(m0, m1, m2);
    StableTrans(created, m1, m2);
    UnfinishedStable(resolved, m1, m2);
  }

  lemma GroupOkPushed(m0: map<nat, Task>, created: map<nat, Task>, m: map<nat, Task>, p: nat, resolved: seq<nat>, b: nat)
    requires GroupOk(m0, created, m, p, resolved) && p !in m0
    ensures var m' := m[p := m[p].(branches := m[p].branches + [b])];
      Untouched(m0, m') && Stable(created, m') && Stable(m, m')
  {
    var m' := m[p := m[p].(branches := m[p].branches + [b])];
    RewireStable(m, p, m'[p]);
    StableTrans(created, m, m');
    StableTrans(m0, m, m');
  }

  lemma GroupOkAttach(m0: map<nat, Task>, created: map<nat, Task>, m: map<nat, Task>, p: nat, resolved: seq<nat>, b: nat)
    requires GroupOk(m0, created, m, p, resolved) && p !in m0 && b in m
    ensures GroupOk(m0, created, Subscribed(m, p, b), p, resolved + [b])
  {
    var r := Subscribed(m, p, b);
    SubscribedStable(m, p, b);
    StableTrans(created, m, r);
    StableTrans(m0, m, r);
    UnfinishedStable(resolved, m, r);
    UnfinishedMembers(resolved, m, b);
    SubscribedWatchesHost(m, p, b);
    UnfinishedSnoc(resolved, b, r);
  }

  /**
   * Each resolved task of a series after the first waits on its predecessor: when it
   * still sleeps and the predecessor has not succeeded, the predecessor's success
   * list holds the callback that takes one dependency off it.
   */
  ghost predicate Chained(resolved: seq<nat>, m: map<nat, Task>)
    requires forall x :: x in resolved ==> x in m
  {
    forall j :: 1 <= j < |resolved| && m[resolved[j]].state == Sleeping && m[resolved[j - 1]].state != Succeeded ==>
      Entry(Action.RemoveDependence(resolved[j]), true) in Listeners(m[resolved[j - 1]].events, "success")
  }

  /** Where building series task `s` stands in table `m`, as `GroupOk` with `Stable` for earlier tasks and the chain. */
  ghost predicate SeriesOk(m0: map<nat, Task>, created: map<nat, Task>, m: map<nat, Task>, s: nat, resolved: seq<nat>) {
    && s in created && Stable(m0, m) && Stable(created, m)
    && (forall x :: x in resolved ==> x in m)
    && m[s].branches == Unfinished(resolved, m)
    && Chained(resolved, m)
  }

  lemma ChainedStable(resolved: seq<nat>, m1: map<nat, Task>, m2: map<nat, Task>)
    requires (forall x :: x in resolved ==> x in m1) && Stable(m1, m2) && Chained(resolved, m1)
    ensures Chained(resolved, m2)
  {
    forall j | 1 <= j < |resolved| && m2[resolved[j]].state == Sleeping && m2[resolved[j - 1]].state != Succeeded
      ensures Entry(Action.RemoveDependence(resolved[j]), true) in Listeners(m2[resolved[j - 1]].events, "success")
    {
      var x := resolved[j - 1];
      assert TaskStable(m1[resolved[j]], m2[resolved[j]]) && TaskStable(m1[x], m2[x]);
      assert Listeners(m1[x].events, "success") <= Listeners(m2[x].events, "success");
    }
  }

  lemma SeriesOkKept(m0: map<nat, Task>, created: map<nat, Task>, m1: map<nat, Task>, m2: map<nat, Task>,
                     s: nat, resolved: seq<nat>)
    requires SeriesOk(m0, created, m1, s, resolved) && Stable(m1, m2) && m2[s].branches == m1[s].branches
    ensures SeriesOk(m0, created, m2, s, resolved)
  {
    StableTrans(m0, m1, m2);
    StableTrans(created, m1, m2);
    UnfinishedStable(resolved, m1, m2);
    ChainedStable(resolved, m1, m2);
  }

  lemma SeriesOkAttach(m0: map<nat, Task>, created: map<nat, Task>, m: map<nat, Task>, s: nat, resolved: seq<nat>, t: nat)
    requires SeriesOk(m0, created, m, s, resolved) && t in m
    requires resolved != [] && m[t].state == Sleeping && m[resolved[|resolved| - 1]].state != Succeeded ==>
      Entry(Action.RemoveDependence(t), true) in Listeners(m[resolved[|resolved| - 1]].events, "success")
    ensures SeriesOk(m0, created, Subscribed(m, s, t), s, resolved + [t])
  {
    var r := Subscribed(m, s, t);
    SubscribedStable(m, s, t);
    StableTrans(created, m, r);
    StableTrans(m0, m, r);
    UnfinishedStable(resolved, m, r);
    UnfinishedMembers(resolved, m, t);
    SubscribedWatchesHost(m, s, t);
    UnfinishedSnoc(resolved, t, r);
    var rs := resolved + [t];
    assert Chained(rs, m) by {
      forall j | 1 <= j < |rs| && m[rs[j]].state == Sleeping && m[rs[j - 1]].state != Succeeded
        ensures Entry(Action.RemoveDependence(rs[j]), true) in Listeners(m[rs[j - 1]].events, "success")
      {
        if j < |resolved| {
          assert rs[j] == resolved[j] && rs[j - 1] == resolved[j - 1];
        }
      }
    }
    ChainedStable(rs, m, r);
  }

  /** Ready to add `t` as the next branch of sleeping series `s`: `SeriesOk`, and `t` chained to the last branch. */
  ghost predicate Linkable(m0: map<nat, Task>, created: map<nat, Task>, m: map<nat, Task>, s: nat, resolved: seq<nat>, t: nat) {
    && SeriesOk(m0, created, m, s, resolved) && t in m && m[s].state == Sleeping
    && (resolved != [] && m[t].state == Sleeping && m[resolved[|resolved| - 1]].state != Succeeded ==>
          Entry(Action.RemoveDependence(t), true) in Listeners(m[resolved[|resolved| - 1]].events, "success"))
  }

  lemma LinkKeeps(m0: map<nat, Task>, created: map<nat, Task>, m: map<nat, Task>, r: map<nat, Task>, s: nat,
                   resolved: seq<nat>, t: nat, taskid: nat, index: Registry.Index)
    requires Linkable(m0, created, m, s, resolved, t) && TableOk(m, taskid, index) && r == Subscribed(m, s, t)
    ensures SeriesOk(m0, created, r, s, resolved + [t]) && TableOk(r, taskid, index) && Stable(m, r)
  {
    SeriesOkAttach(m0, created, m, s, resolved, t);
    SubscribedStable(m, s, t);
    StableTableOk(m, r, taskid, index);
  }

  /** What `addDependence` leaves: a `Stable` table with every branch list kept, and the callback registered when it waits. */
  lemma DependedStable(m: map<nat, Task>, u: nat, dep: nat)
    requires u in m && dep in m
    ensures var r := Register(m[u := m[u].(dependence := m[u].dependence + 1)], dep, "success", Entry(Action.RemoveDependence(u), true));
      && r.Keys == m.Keys && Stable(m, r) && (forall v :: v in m ==> r[v].branches == m[v].branches)
      && Entry(Action.RemoveDependence(u), true) in Listeners(r[dep].events, "success")
  {
    var m1 := m[u := m[u].(dependence := m[u].dependence + 1)];
    RewireStable(m, u, m1[u]);
    RegisterStable(m1, dep, "success", Entry(Action.RemoveDependence(u), true));
    StableTrans(m, m1, Register(m1, dep, "success", Entry(Action.RemoveDependence(u), true)));
  }

  lemma EvolvesGrows(m0: map<nat, Task>, m1: map<nat, Task>)
    requires Evolves(m0, m1)
    ensures Grows(m0, m1)
  {
  }

  lemma GrowsTrans(m0: map<nat, Task>, m1: map<nat, Task>, m2: map<nat, Task>)
    requires Grows(m0, m1) && Grows(m1, m2)
    ensures Grows(m0, m2)
  {
  }

  /** The table `addDependence(prev)` on `t` leaves keeps a series under construction as it was, with `t` chained. */
  lemma DependKeeps(m0: map<nat, Task>, created: map<nat, Task>, m: map<nat, Task>, r: map<nat, Task>,
                    s: nat, t: nat, prev: nat, resolved: seq<nat>, taskid: nat, index: Registry.Index)
    requires SeriesOk(m0, created, m, s, resolved) && TableOk(m, taskid, index) && t in m && m[s].state == Sleeping
    requires resolved != [] && prev == resolved[|resolved| - 1]
    requires m[t].state != Sleeping || m[prev].state == Succeeded ==> r == m
    requires m[t].state == Sleeping && m[prev].state != Succeeded ==>
      r == Register(m[t := m[t].(dependence := m[t].dependence + 1)], prev, "success", Entry(Action.RemoveDependence(t), true))
    ensures Linkable(m0, created, r, s, resolved, t) && TableOk(r, taskid, index) && Stable(m, r)
    ensures BranchesKept(m, r, s)
  {
    if m[t].state == Sleeping && m[prev].state != Succeeded {
      DependedStable(m, t, prev);
    } else {
      StableRefl(m);
    }
    SeriesOkKept(m0, created, m, r, s, resolved);
    StableTableOk(m, r, taskid, index);
  }

  // ---- what `findOrCreate` returned, as it stays true while the build goes on ----

  /**
   * `r` is what `findOrCreate(spec)` returned for a specifier that is not an array,
   * read in a later table `m` and index `index`: a task is itself; a group handle is its
   * task (`0` when it has none); anything else is `null` when no loader in `order`
   * claims it, else the task that `get` finds under the claim's string key, or, for any
   * other key, a new task of the claiming loader's type and source.
   */
  ghost predicate Found(items: map<string, LoaderDef>, order: seq<string>, m: map<nat, Task>, index: Registry.Index,
                        spec: Spec, r: nat) {
    match spec
    case TaskRef(uid) => r == uid
    case GroupRef(uid) => r == uid || r == 0
    case List(_) => false
    case _ =>
      match FirstClaim(items, order, spec)
      case None => r == 0
      case Some(c) =>
        && r in m
        && (c.2.StringKey? && c.2.s != "" ==> Registry.Find(index, c.2.s, c.0) == Some(r))
        && (!(c.2.StringKey? && c.2.s != "") ==> m[r].kind == c.0 && m[r].src == c.1)
  }

  /** Each of `resolved` is what `findOrCreate` returned for the (non-array) specifier at the same position. */
  ghost predicate AllFound(items: map<string, LoaderDef>, order: seq<string>, m: map<nat, Task>, index: Registry.Index,
                           specs: seq<Spec>, resolved: seq<nat>) {
    |resolved| == |specs| && forall k :: 0 <= k < |resolved| ==> Found(items, order, m, index, specs[k], resolved[k])
  }

  /**
   * `p` is the 'parallel' task `new Parallel(xs)` built: `inner` holds, position by
   * position, the tasks its flattened specifiers resolved to, all of them tasks, and
   * its branches are those of them that had not succeeded.
   */
  ghost predicate GroupsAs(items: map<string, LoaderDef>, order: seq<string>, m: map<nat, Task>, index: Registry.Index,
                           xs: seq<Spec>, p: nat, inner: seq<nat>) {
    && p in m && m[p].kind == "parallel"
    && AllFound(items, order, m, index, Flatten(xs), inner)
    && (forall x :: x in inner ==> x in m)
    && m[p].branches == Unfinished(inner, m)
  }

  /** `r` is what `findOrCreate(spec)` returned: `Found`, and for an array the parallel task grouping its members. */
  ghost predicate Resolves(items: map<string, LoaderDef>, order: seq<string>, m: map<nat, Task>, index: Registry.Index,
                           spec: Spec, r: nat) {
    match spec
    case List(xs) => exists inner :: GroupsAs(items, order, m, index, xs, r, inner)
    case _ => Found(items, order, m, index, spec, r)
  }

  /** Each of `resolved` is what `findOrCreate` returned for the specifier at the same position. */
  ghost predicate AllResolve(items: map<string, LoaderDef>, order: seq<string>, m: map<nat, Task>, index: Registry.Index,
                             specs: seq<Spec>, resolved: seq<nat>) {
    |resolved| == |specs| && forall k :: 0 <= k < |resolved| ==> Resolves(items, order, m, index, specs[k], resolved[k])
  }

  /** Every lookup of `i1` that reached a task of `m` gives the same uid in `i2`. */
  ghost predicate FindsKept(m: map<nat, Task>, i1: Registry.Index, i2: Registry.Index) {
    forall ty, k :: Registry.Find(i1, k, ty).Some? && Registry.Find(i1, k, ty).value in m
      ==> Registry.Find(i2, k, ty) == Registry.Find(i1, k, ty)
  }

  lemma FindsKeptRefl(m: map<nat, Task>, i: Registry.Index)
    ensures FindsKept(m, i, i)
  {
  }

  lemma FindsKeptTrans(m0: map<nat, Task>, m1: map<nat, Task>, i0: Registry.Index, i1: Registry.Index, i2: Registry.Index)
    requires FindsKept(m0, i0, i1) && FindsKept(m1, i1, i2) && m0.Keys <= m1.Keys
    ensures FindsKept(m0, i0, i2)
  {
  }

  /** Every task of `m0` other than `h` keeps its branch list in `m1`. */
  ghost predicate BranchesKept(m0: map<nat, Task>, m1: map<nat, Task>, h: nat) {
    forall v :: v in m0 && v != h ==> v in m1 && m1[v].branches == m0[v].branches
  }

  lemma BranchesKeptTrans(m0: map<nat, Task>, m1: map<nat, Task>, m2: map<nat, Task>, h: nat)
    requires BranchesKept(m0, m1, h) && BranchesKept(m1, m2, h)
    ensures BranchesKept(m0, m2, h)
  {
  }

  /** `addBranch` changes the branch list of its host only. */
  lemma SubscribedBranches(m: map<nat, Task>, h: nat, b: nat)
    requires h in m && b in m
    ensures BranchesKept(m, Subscribed(m, h, b), h)
  {
  }

  /** Building and wiring other tasks, and registering them, keeps what an earlier `findOrCreate` returned for a non-array specifier. */
  lemma FoundKept(items: map<string, LoaderDef>, order: seq<string>, m1: map<nat, Task>, i1: Registry.Index,
                  m2: map<nat, Task>, i2: Registry.Index, spec: Spec, r: nat)
    requires Found(items, order, m1, i1, spec, r) && Stable(m1, m2) && FindsKept(m1, i1, i2)
    ensures Found(items, order, m2, i2, spec, r)
  {
    if r in m1 {
      assert TaskStable(m1[r], m2[r]);
    }
  }

  lemma {:induction false} AllFoundKept(items: map<string, LoaderDef>, order: seq<string>, m1: map<nat, Task>, i1: Registry.Index,
                                        m2: map<nat, Task>, i2: Registry.Index, specs: seq<Spec>, resolved: seq<nat>)
    requires AllFound(items, order, m1, i1, specs, resolved) && Stable(m1, m2) && FindsKept(m1, i1, i2)
    ensures AllFound(items, order, m2, i2, specs, resolved)
  {
    forall k | 0 <= k < |resolved| ensures Found(items, order, m2, i2, specs[k], resolved[k]) {
      FoundKept(items, order, m1, i1, m2, i2, specs[k], resolved[k]);
    }
  }

  /** One more non-array specifier resolved, with the earlier ones kept. */
  lemma AllFoundSnoc(items: map<string, LoaderDef>, order: seq<string>, m1: map<nat, Task>, i1: Registry.Index,
                     m2: map<nat, Task>, i2: Registry.Index, specs: seq<Spec>, resolved: seq<nat>, i: nat, r: nat)
    requires i < |specs| && AllFound(items, order, m1, i1, specs[..i], resolved)
    requires Stable(m1, m2) && FindsKept(m1, i1, i2) && Found(items, order, m2, i2, specs[i], r)
    ensures AllFound(items, order, m2, i2, specs[..i + 1], resolved + [r])
  {
    AllFoundKept(items, order, m1, i1, m2, i2, specs[..i], resolved);
    assert specs[..i + 1] == specs[..i] + [specs[i]];
  }

  /**
   * The same for any specifier, once the tables differ only by `Stable` changes and a
   * new branch list on `h`, which is no parallel task an array resolved to.
   */
  lemma ResolvesKept(items: map<string, LoaderDef>, order: seq<string>, m1: map<nat, Task>, i1: Registry.Index,
                     m2: map<nat, Task>, i2: Registry.Index, spec: Spec, r: nat, h: nat)
    requires Resolves(items, order, m1, i1, spec, r) && Stable(m1, m2) && FindsKept(m1, i1, i2)
    requires BranchesKept(m1, m2, h) && (spec.List? ==> r != h)
    ensures Resolves(items, order, m2, i2, spec, r)
  {
    if spec.List? {
      var inner :| GroupsAs(items, order, m1, i1, spec.items, r, inner);
      AllFoundKept(items, order, m1, i1, m2, i2, Flatten(spec.items), inner);
      UnfinishedStable(inner, m1, m2);
      assert TaskStable(m1[r], m2[r]);
      assert GroupsAs(items, order, m2, i2, spec.items, r, inner);
    } else {
      FoundKept(items, order, m1, i1, m2, i2, spec, r);
    }
  }

  /**
   * Where a step of building series `s` leaves table `m2` (it was `m1`): `t`, found
   * for `spec`, is the next branch, it is still what `findOrCreate` returned, and no
   * branch list but the series' own has changed.
   */
  ghost predicate Stepped(items: map<string, LoaderDef>, order: seq<string>, m0: map<nat, Task>, created: map<nat, Task>,
                          m1: map<nat, Task>, m2: map<nat, Task>, index: Registry.Index, s: nat, resolved: seq<nat>,
                          spec: Spec, t: nat) {
    && t != 0 && SeriesOk(m0, created, m2, s, resolved + [t])
    && Resolves(items, order, m2, index, spec, t)
    && BranchesKept(m1, m2, s) && (spec.List? ==> t != s)
  }

  /** What a series step found for `spec` stays found once `t` is linked under series `s`. */
  lemma LinkedKeeps(items: map<string, LoaderDef>, order: seq<string>, m0: map<nat, Task>, created: map<nat, Task>,
                    m1: map<nat, Task>, m2: map<nat, Task>, m3: map<nat, Task>, index: Registry.Index, s: nat,
                    resolved: seq<nat>, spec: Spec, t: nat)
    requires Untouched(m1, m2) && Stable(m2, m3) && BranchesKept(m2, m3, s) && s in m1
    requires Resolves(items, order, m2, index, spec, t) && (spec.List? ==> t !in m1)
    requires t != 0 && SeriesOk(m0, created, m3, s, resolved + [t])
    ensures Stable(m1, m3) && Stepped(items, order, m0, created, m1, m3, index, s, resolved, spec, t)
  {
    FindsKeptRefl(m2, index);
    ResolvesKept(items, order, m2, index, m3, index, spec, t, s);
    StableTrans(m1, m2, m3);
  }

  /** No task that an array of `specs` resolved to is `h`. */
  ghost predicate NoGroupIs(specs: seq<Spec>, resolved: seq<nat>, h: nat)
    requires |resolved| == |specs|
  {
    forall k :: 0 <= k < |resolved| && specs[k].List? ==> resolved[k] != h
  }

  lemma {:induction false} AllResolveKept(items: map<string, LoaderDef>, order: seq<string>, m1: map<nat, Task>, i1: Registry.Index,
                        m2: map<nat, Task>, i2: Registry.Index, specs: seq<Spec>, resolved: seq<nat>, h: nat)
    requires AllResolve(items, order, m1, i1, specs, resolved) && Stable(m1, m2) && FindsKept(m1, i1, i2)
    requires BranchesKept(m1, m2, h) && NoGroupIs(specs, resolved, h)
    ensures AllResolve(items, order, m2, i2, specs, resolved)
  {
    forall k | 0 <= k < |resolved| ensures Resolves(items, order, m2, i2, specs[k], resolved[k]) {
      ResolvesKept(items, order, m1, i1, m2, i2, specs[k], resolved[k], h);
    }
  }

  /** One more specifier resolved, with the earlier ones kept. */
  lemma AllResolveSnoc(items: map<string, LoaderDef>, order: seq<string>, m1: map<nat, Task>, i1: Registry.Index,
                       m2: map<nat, Task>, i2: Registry.Index, specs: seq<Spec>, resolved: seq<nat>, i: nat, r: nat, h: nat)
    requires i < |specs| && AllResolve(items, order, m1, i1, specs[..i], resolved) && NoGroupIs(specs[..i], resolved, h)
    requires Stable(m1, m2) && FindsKept(m1, i1, i2) && BranchesKept(m1, m2, h)
    requires Resolves(items, order, m2, i2, specs[i], r) && (specs[i].List? ==> r != h)
    ensures AllResolve(items, order, m2, i2, specs[..i + 1], resolved + [r])
    ensures NoGroupIs(specs[..i + 1], resolved + [r], h)
  {
    AllResolveKept(items, order, m1, i1, m2, i2, specs[..i], resolved, h);
    assert specs[..i + 1] == specs[..i] + [specs[i]];
  }

  /** The invariant part of `Valid` about the loaders: the built-ins stay, and every queued name is a registered add-on. */
  ghost predicate LoadersOk(items: map<string, LoaderDef>, queue: seq<string>) {
    && (forall n :: n in BuiltinItems ==> n in items && items[n] == BuiltinItems[n])
    && (forall i :: 0 <= i < |queue| ==> queue[i] in items && queue[i] !in BuiltinItems)
  }

  /** The invariant part of `Valid` about the task table and the index. */
  ghost predicate TableOk(m: map<nat, Task>, taskid: nat, index: Registry.Index) {
    && taskid >= 1
    && (forall v :: v in m ==> 1 <= v < taskid && m[v].uid == v)
    && (forall ty, k :: ty in index && k in index[ty] ==> index[ty][k] in m)
  }

  lemma StableTableOk(m0: map<nat, Task>, m1: map<nat, Task>, taskid: nat, index: Registry.Index)
    requires TableOk(m0, taskid, index) && m1.Keys == m0.Keys && Stable(m0, m1)
    ensures TableOk(m1, taskid, index)
  {
  }

  lemma GrowsTableOk(m0: map<nat, Task>, m1: map<nat, Task>, taskid: nat, index: Registry.Index)
    requires TableOk(m0, taskid, index) && Grows(m0, m1)
    ensures TableOk(m1, taskid, index)
  {
  }

  /** A kind handled by one of the built-in loaders: 'series', 'parallel' or 'function'. */
  ghost predicate BuiltInKind(loaders: map<string, LoaderDef>, kind: string) {
    kind in loaders && loaders[kind] in {SeriesLoader, ParallelLoader, FunctionLoader}
  }

  /**
   * What `exec()` achieves for task `t`, which a built-in loader runs and which is
   * `now` afterwards: at least LOADED unless something threw, and SUCCEEDED (or
   * FAILED) when it had no branches, throw or not.
   */
  ghost predicate Runs(t: Task, now: Task, thrown: bool, loaders: map<string, LoaderDef>) {
    BuiltInKind(loaders, t.kind) ==>
      && (!thrown ==> Code(Loaded) <= Code(now.state))
      && (t.branches == [] ==> Code(Succeeded) <= Code(now.state))
  }

  /**
   * The mutable state of one loader instance: `_tasks._cache` (the task table),
   * `_tasks._map`, the counter `_taskid`, and `_loaders._items` / `_loaders._queue`.
   */
  class Runtime {
    var tasks: map<nat, Task>
    var index: Registry.Index
    var taskid: nat
    var items: map<string, LoaderDef>
    var queue: seq<string>

    ghost predicate Valid()
      reads this
    {
      TableOk(tasks, taskid, index) && LoadersOk(items, queue)
    }

    /** A fresh loader: no tasks, `_taskid` at 1, only the built-in loaders. */
    constructor ()
      ensures Valid()
      ensures tasks == map[] && index == map[] && taskid == 1 && items == BuiltinItems && queue == []
    {
      tasks := map[];
      index := map[];
      taskid := 1;
      items := BuiltinItems;
      queue := [];
    }

    // ---- the re-entrant cascade: checkfor, exec, emit and the callbacks ----

    /**
     * `checkfor(c)`: when the guard of `c` holds, enter its state and do what the
     * transition triggers; otherwise change nothing.
     */
    method Checkfor(u: nat, c: Trigger, env: Env) returns (thrown: bool)
      modifies this`tasks
      decreases PendingOf(tasks), 1
      ensures Evolves(old(tasks), tasks)
      ensures u !in old(tasks) ==> tasks == old(tasks) && !thrown
      ensures u in old(tasks) ==>
        var t := old(tasks)[u];
        var next := Advance(t.state, c, t.dependence, |t.branches|);
        && (next == t.state ==> tasks == old(tasks) && !thrown)
        && Code(next) <= Code(tasks[u].state)
        && FollowUp(t, c, tasks, u, thrown, items)
    {
      if u !in tasks {
        return false;
      }
      var t := tasks[u];
      if Advance(t.state, c, t.dependence, |t.branches|) == t.state {
        return false;
      }
      match c {
        case ToWaiting => thrown := EnterWaiting(u, env);
        case ToReady => thrown := EnterReady(u, env);
        case ToLoading => thrown := EnterLoading(u, env);
        case ToLoaded => thrown := EnterLoaded(u, env);
        case ToSucceeded => thrown := EnterSucceeded(u, env);
        case ToFailed => thrown := EnterFailed(u, env);
      }
    }

    /**
     * What entering a state sets off, as far as it reaches task `u` (which was `t`) and
     * the branches it starts: WAITING with no outstanding dependency goes on to READY,
     * and READY runs `exec()` (`Runs`); LOADING starts every branch attached so far,
     * and with none there is nothing to start; LOADED with no branch goes on to
     * SUCCEEDED; SUCCEEDED and FAILED emit, which rebuilds the list of that event, and
     * every `terminate` callback on the 'error' list has failed its host.
     */
    ghost predicate FollowUp(t: Task, c: Trigger, m: map<nat, Task>, u: nat, thrown: bool, loaders: map<string, LoaderDef>) {
      u in m
      && (c == ToWaiting && t.state == Sleeping && t.dependence <= 0 ==>
            Code(Ready) <= Code(m[u].state) && Runs(t, m[u], thrown, loaders))
      && (c == ToReady && t.state == Waiting && t.dependence <= 0 ==> Runs(t, m[u], thrown, loaders))
      && (c == ToLoading && t.state == Ready && !thrown ==> Started(m, t.branches))
      && (c == ToLoading && t.state == Ready && t.branches == [] ==>
            !thrown && m[u].state == Loading && m[u].branches == [])
      && (c == ToLoaded && t.state == Loading && t.branches == [] ==> Code(Succeeded) <= Code(m[u].state))
      && (c == ToSucceeded && t.state == Loaded && t.branches == [] && !thrown
          ==> Listeners(m[u].events, "success") == Persistent(Listeners(t.events, "success")))
      && (c == ToFailed && t.state != Failed && !thrown
          ==> Listeners(m[u].events, "error") == Persistent(Listeners(t.events, "error"))
              && HostsFailed(m, Listeners(t.events, "error")))
    }

    /** SLEEPING -> WAITING, then re-check READY at once. */
    method EnterWaiting(u: nat, env: Env) returns (thrown: bool)
      requires u in tasks && tasks[u].state == Sleeping
      modifies this`tasks
      decreases PendingOf(tasks), 0
      ensures Evolves(old(tasks), tasks) && Code(Waiting) <= Code(tasks[u].state)
      ensures old(tasks)[u].dependence <= 0 ==> Code(Ready) <= Code(tasks[u].state)
      ensures old(tasks)[u].dependence <= 0 ==> Runs(old(tasks)[u], tasks[u], thrown, items)
    {
      UpdateEvolves(tasks, u, tasks[u].(state := Waiting));
      tasks := tasks[u := tasks[u].(state := Waiting)];
      ghost var stepped := tasks;
      thrown := Checkfor(u, ToReady, env);
      EvolvesTrans(old(tasks), stepped, tasks);
    }

    /** WAITING with no outstanding dependency -> READY, then `exec()`. */
    method EnterReady(u: nat, env: Env) returns (thrown: bool)
      requires u in tasks && tasks[u].state == Waiting && tasks[u].dependence <= 0
      modifies this`tasks
      decreases PendingOf(tasks), 0
      ensures Evolves(old(tasks), tasks) && Code(Ready) <= Code(tasks[u].state)
      ensures Runs(old(tasks)[u], tasks[u], thrown, items)
    {
      UpdateEvolves(tasks, u, tasks[u].(state := Ready));
      tasks := tasks[u := tasks[u].(state := Ready)];
      ghost var stepped := tasks;
      thrown := Exec(u, env);
      EvolvesTrans(old(tasks), stepped, tasks);
    }

    /** READY -> LOADING, then start the branches attached so far, from a copy of the list. */
    method EnterLoading(u: nat, env: Env) returns (thrown: bool)
      requires u in tasks && tasks[u].state == Ready
      modifies this`tasks
      decreases PendingOf(tasks), 0
      ensures Evolves(old(tasks), tasks) && Code(Loading) <= Code(tasks[u].state)
      ensures !thrown ==> Started(tasks, old(tasks)[u].branches)
      ensures old(tasks)[u].branches == [] ==> !thrown && tasks == old(tasks)[u := old(tasks)[u].(state := Loading)]
    {
      var snapshot := tasks[u].branches;
      UpdateEvolves(tasks, u, tasks[u].(state := Loading));
      tasks := tasks[u := tasks[u].(state := Loading)];
      var i := 0;
      thrown := false;
      while i < |snapshot|
        invariant 0 <= i <= |snapshot|
        invariant Evolves(old(tasks), tasks)
        invariant PendingOf(tasks) < PendingOf(old(tasks))
        invariant Code(Loading) <= Code(tasks[u].state)
        invariant Started(tasks, snapshot[..i])
        invariant !thrown && (i == 0 ==> tasks == old(tasks)[u := old(tasks)[u].(state := Loading)])
      {
        ghost var before := tasks;
        thrown := Start(snapshot[i], env);
        EvolvesTrans(old(tasks), before, tasks);
        PendingShrinks(before, tasks);
        if thrown {
          return;
        }
        StartedNext(before, tasks, snapshot, i);
        i := i + 1;
      }
      assert snapshot[..i] == snapshot;
    }

    /** LOADING -> LOADED, then re-check SUCCEEDED at once. */
    method EnterLoaded(u: nat, env: Env) returns (thrown: bool)
      requires u in tasks && tasks[u].state == Loading
      modifies this`tasks
      decreases PendingOf(tasks), 0
      ensures Evolves(old(tasks), tasks) && Code(Loaded) <= Code(tasks[u].state)
      ensures old(tasks)[u].branches == [] ==> Code(Succeeded) <= Code(tasks[u].state)
    {
      UpdateEvolves(tasks, u, tasks[u].(state := Loaded));
      tasks := tasks[u := tasks[u].(state := Loaded)];
      ghost var stepped := tasks;
      thrown := Checkfor(u, ToSucceeded, env);
      EvolvesTrans(old(tasks), stepped, tasks);
    }

    /** LOADED with no branch left -> SUCCEEDED, then emit 'success'. */
    method EnterSucceeded(u: nat, env: Env) returns (thrown: bool)
      requires u in tasks && tasks[u].state == Loaded && tasks[u].branches == []
      modifies this`tasks
      decreases PendingOf(tasks), 0
      ensures Evolves(old(tasks), tasks) && Code(Succeeded) <= Code(tasks[u].state)
      ensures !thrown ==> Listeners(tasks[u].events, "success") == Persistent(Listeners(old(tasks)[u].events, "success"))
    {
      UpdateEvolves(tasks, u, tasks[u].(state := Succeeded));
      tasks := tasks[u := tasks[u].(state := Succeeded)];
      ghost var stepped := tasks;
      ghost var fired;
      thrown, fired := Emit(u, "success", env);
      EmissionCompletes(old(tasks), stepped, tasks, u, "success");
    }

    /** Any state but FAILED -> FAILED, then emit 'error'. */
    method EnterFailed(u: nat, env: Env) returns (thrown: bool)
      requires u in tasks && tasks[u].state != Failed
      modifies this`tasks
      decreases PendingOf(tasks), 0
      ensures Evolves(old(tasks), tasks) && tasks[u].state == Failed
      ensures !thrown ==> Listeners(tasks[u].events, "error") == Persistent(Listeners(old(tasks)[u].events, "error"))
      ensures !thrown ==> HostsFailed(tasks, Listeners(old(tasks)[u].events, "error"))
    {
      CodeFailed(tasks[u].state);
      UpdateEvolves(tasks, u, tasks[u].(state := Failed));
      tasks := tasks[u := tasks[u].(state := Failed)];
      ghost var stepped := tasks;
      ghost var fired;
      thrown, fired := Emit(u, "error", env);
      CodeFailed(tasks[u].state);
      EmissionCompletes(old(tasks), stepped, tasks, u, "error");
    }

    /**
     * `start()`: a SLEEPING task moves to WAITING and, with no outstanding dependency,
     * on to READY. Called on `null` (a null branch), it throws.
     */
    method Start(u: nat, env: Env) returns (thrown: bool)
      modifies this`tasks
      decreases PendingOf(tasks), 2
      ensures Evolves(old(tasks), tasks)
      ensures u !in old(tasks) ==> tasks == old(tasks) && thrown
      ensures u in old(tasks) && old(tasks)[u].state != Sleeping ==> tasks == old(tasks) && !thrown
      ensures u in old(tasks) ==> Code(Waiting) <= Code(tasks[u].state)
      ensures u in old(tasks) && old(tasks)[u].state == Sleeping && old(tasks)[u].dependence <= 0
              ==> Code(Ready) <= Code(tasks[u].state) && Runs(old(tasks)[u], tasks[u], thrown, items)
    {
      if u !in tasks {
        return true;
      }
      thrown := Checkfor(u, ToWaiting, env);
    }

    /** `terminate()`: FAILED is entered once, and once there nothing more happens. */
    method Terminate(u: nat, env: Env) returns (thrown: bool)
      modifies this`tasks
      decreases PendingOf(tasks), 2
      ensures Evolves(old(tasks), tasks)
      ensures u in old(tasks) ==> tasks[u].state == Failed
      ensures u in old(tasks) && old(tasks)[u].state == Failed ==> tasks == old(tasks) && !thrown
      ensures u in old(tasks) && old(tasks)[u].state != Failed && !thrown ==>
        && Listeners(tasks[u].events, "error") == Persistent(Listeners(old(tasks)[u].events, "error"))
        && HostsFailed(tasks, Listeners(old(tasks)[u].events, "error"))
    {
      thrown := Checkfor(u, ToFailed, env);
      if u in old(tasks) {
        CodeFailed(tasks[u].state);
      }
    }

    /** `removeDependence(task)`: one dependency fewer, then re-check READY. */
    method RemoveDependence(u: nat, dependency: nat, env: Env) returns (thrown: bool)
      modifies this`tasks
      decreases PendingOf(tasks), 2
      ensures Evolves(old(tasks), tasks)
      ensures u !in old(tasks) ==> tasks == old(tasks) && !thrown
      ensures u in old(tasks) ==>
        var t := old(tasks)[u];
        && (Advance(t.state, ToReady, t.dependence - 1, |t.branches|) == t.state
            ==> tasks == old(tasks)[u := t.(dependence := t.dependence - 1)] && !thrown)
        && (t.state == Waiting && t.dependence <= 1 ==> Code(Ready) <= Code(tasks[u].state))
    {
      if u !in tasks {
        return false;
      }
      var t := tasks[u];
      ghost var m0 := tasks;
      tasks := tasks[u := t.(dependence := t.dependence - 1)];
      ghost var stepped := tasks;
      DecrementEvolves(m0, u, stepped);
      assert stepped[u].state == t.state && stepped[u].dependence == t.dependence - 1 && stepped[u].branches == t.branches;
      thrown := Checkfor(u, ToReady, env);
      EvolvesTrans(m0, stepped, tasks);
    }

    /** `removeBranch(task)`: drop the first occurrence of the branch, if any, then re-check SUCCEEDED. */
    method RemoveBranch(u: nat, branch: nat, env: Env) returns (thrown: bool)
      modifies this`tasks
      decreases PendingOf(tasks), 2
      ensures Evolves(old(tasks), tasks)
      ensures u !in old(tasks) || branch !in old(tasks)[u].branches ==> tasks == old(tasks) && !thrown
      ensures u in old(tasks) && branch in old(tasks)[u].branches ==>
        var t := old(tasks)[u];
        var rest := RemoveFirst(t.branches, branch);
        && (t.state != Loaded || rest != [] ==> tasks == old(tasks)[u := t.(branches := rest)] && !thrown)
        && (t.state == Loaded && rest == [] ==> Code(Succeeded) <= Code(tasks[u].state))
    {
      if u !in tasks {
        return false;
      }
      var i := IndexOf(tasks[u].branches, branch);
      if i < 0 {
        return false;
      }
      var rest := tasks[u].branches[..i] + tasks[u].branches[i + 1..];
      UpdateEvolves(tasks, u, tasks[u].(branches := rest));
      tasks := tasks[u := tasks[u].(branches := rest)];
      ghost var stepped := tasks;
      thrown := Checkfor(u, ToSucceeded, env);
      EvolvesTrans(old(tasks), stepped, tasks);
    }

    /** Run one registered callback with `self` as the emitting task (`this` inside it). */
    method Run(self: nat, a: Action, env: Env) returns (thrown: bool)
      modifies this`tasks
      decreases PendingOf(tasks), 3
      ensures Evolves(old(tasks), tasks)
      ensures QuietRun(old(tasks), tasks, self, a, thrown)
      ensures Effect(old(tasks), tasks, self, a)
    {
      match a {
        case RemoveDependence(dependent) =>
          thrown := RemoveDependence(dependent, self, env);
        case RemoveBranch(host) =>
          thrown := RemoveBranch(host, self, env);
        case Terminate(host) =>
          thrown := Terminate(host, env);
        case UserCallback(_) =>
          thrown := false;
      }
    }

    /**
     * One step of `emit(e)`: run the callback of `item`, then put the entry back at the
     * end of the list being rebuilt unless it was registered with `one`.
     */
    method Fire(u: nat, e: string, item: Entry, env: Env) returns (thrown: bool)
      requires u in tasks && Quiet(tasks[u], e)
      modifies this`tasks
      decreases PendingOf(tasks), 4
      ensures EvolvesBut(old(tasks), tasks, u, e)
      ensures u in tasks && Quiet(tasks[u], e)
      ensures Listeners(tasks[u].events, e)
              == Listeners(old(tasks)[u].events, e) + (if thrown || item.once then [] else [item])
      ensures Effect(old(tasks), tasks, u, item.action)
    {
      ghost var m0 := tasks;
      thrown := Run(u, item.action, env);
      QuietKept(m0, tasks, u, e);
      EvolvesIsBut(m0, tasks, u, e);
      if !thrown && !item.once {
        var kept := Listeners(tasks[u].events, e) + [item];
        UpdateListenersBut(m0, tasks, u, e, kept);
        tasks := tasks[u := tasks[u].(events := tasks[u].events[e := kept])];
      }
    }

    /**
     * `emit(e)`: run the callbacks registered for `e` when the call starts, in order,
     * and rebuild the list with the persistent ones. A callback that throws ends the
     * emission; the entries after it are dropped.
     */
    method Emit(u: nat, e: string, env: Env) returns (thrown: bool, ghost fired: seq<Entry>)
      requires u in tasks && Quiet(tasks[u], e)
      modifies this`tasks
      decreases PendingOf(tasks), 7
      ensures EvolvesBut(old(tasks), tasks, u, e)
      ensures fired <= Listeners(old(tasks)[u].events, e)
      ensures !thrown ==> fired == Listeners(old(tasks)[u].events, e)
                          && Listeners(tasks[u].events, e) == Persistent(fired)
      ensures thrown ==> fired != [] && Listeners(tasks[u].events, e) == Persistent(fired[..|fired| - 1])
      ensures HostsFailed(tasks, fired)
    {
      EvolvesButRefl(tasks, u, e);
      if e !in tasks[u].events {
        return false, [];
      }
      var batch := tasks[u].events[e];
      UpdateListenersBut(old(tasks), tasks, u, e, []);
      tasks := tasks[u := tasks[u].(events := tasks[u].events[e := []])];
      PendingShrinks(old(tasks), tasks);
      var n;
      thrown, n := FireAll(u, e, batch, env, old(tasks));
      fired := if thrown then batch[..n + 1] else batch;
      assert thrown ==> fired[..|fired| - 1] == batch[..n];
      assert !thrown ==> batch[..n] == batch;
    }

    /** Where an emission stands after `n` callbacks of `batch` have run. */
    ghost predicate Emitting(m0: map<nat, Task>, m: map<nat, Task>, u: nat, e: string, batch: seq<Entry>, n: nat) {
      && n <= |batch| && u in m && Quiet(m[u], e)
      && EvolvesBut(m0, m, u, e) && PendingOf(m) <= PendingOf(m0)
      && Listeners(m[u].events, e) == Persistent(batch[..n])
      && HostsFailed(m, batch[..n])
    }

    /** The loop of `emit(e)` over the batch taken from the list, which was emptied beforehand. */
    method FireAll(u: nat, e: string, batch: seq<Entry>, env: Env, ghost m0: map<nat, Task>) returns (thrown: bool, n: nat)
      requires Emitting(m0, tasks, u, e, batch, 0)
      modifies this`tasks
      decreases PendingOf(m0), 6
      ensures Emitting(m0, tasks, u, e, batch, n)
      ensures !thrown ==> n == |batch|
      ensures thrown ==> n < |batch| && HostsFailed(tasks, batch[..n + 1])
    {
      thrown := false;
      n := 0;
      while n < |batch|
        invariant Emitting(m0, tasks, u, e, batch, n)
      {
        thrown := FireStep(u, e, batch, n, env, m0);
        if thrown {
          return;
        }
        n := n + 1;
      }
    }

    /** The body of that loop for the `n`-th callback. */
    method FireStep(u: nat, e: string, batch: seq<Entry>, n: nat, env: Env, ghost m0: map<nat, Task>) returns (thrown: bool)
      requires Emitting(m0, tasks, u, e, batch, n) && n < |batch|
      modifies this`tasks
      decreases PendingOf(m0), 5
      ensures Emitting(m0, tasks, u, e, batch, if thrown then n else n + 1)
      ensures HostsFailed(tasks, batch[..n + 1])
    {
      ghost var before := tasks;
      thrown := Fire(u, e, batch[n], env);
      EvolvesButCompose(m0, before, tasks, u, e);
      PendingShrinks(before, tasks);
      HostsFailedGrows(before, tasks, batch[..n]);
      assert batch[..n + 1] == batch[..n] + [batch[n]];
      assert batch[..n + 1][..n] == batch[..n];
    }

    /**
     * `exec()`: hand the task to the loader named by its type. The built-in group
     * loaders emit 'loading' then 'load'; the 'function' loader emits 'loading', runs
     * the body and emits 'load', or 'error' when the body (or the 'load' cascade)
     * throws; a plugin makes the agent calls the environment supplies. Throws when no
     * loader has that name.
     */
    method Exec(u: nat, env: Env) returns (thrown: bool)
      modifies this`tasks
      decreases PendingOf(tasks), 5
      ensures Evolves(old(tasks), tasks)
      ensures u !in old(tasks) ==> tasks == old(tasks) && !thrown
      ensures u in old(tasks) && old(tasks)[u].kind !in items ==> tasks == old(tasks) && thrown
      ensures u in old(tasks) && old(tasks)[u].state == Ready ==> Runs(old(tasks)[u], tasks[u], thrown, items)
    {
      if u !in tasks {
        return false;
      }
      var t := tasks[u];
      if t.kind !in items {
        return true;
      }
      match items[t.kind] {
        case SeriesLoader =>
          thrown := LoadGroup(u, env);
        case ParallelLoader =>
          thrown := LoadGroup(u, env);
        case FunctionLoader =>
          thrown := LoadFunction(u, env);
        case Plugin(_, _) =>
          thrown := RunAgent(u, env(u).agentEvents, env);
      }
    }

    /**
     * The `load` of the built-in 'function' loader: 'loading', then the body, then
     * 'load'; 'error' instead when the body throws or the 'load' cascade does.
     */
    method LoadFunction(u: nat, env: Env) returns (thrown: bool)
      requires u in tasks
      modifies this`tasks
      decreases PendingOf(tasks), 4
      ensures Evolves(old(tasks), tasks)
      ensures old(tasks)[u].state == Ready && !thrown ==> Code(Loaded) <= Code(tasks[u].state)
      ensures old(tasks)[u].state == Ready && !thrown && env(u).bodyThrows ==> tasks[u].state == Failed
      ensures old(tasks)[u].state == Ready && old(tasks)[u].branches == [] ==> Code(Succeeded) <= Code(tasks[u].state)
    {
      thrown := Checkfor(u, ToLoading, env);
      if thrown {
        return;
      }
      ghost var m1 := tasks;
      PendingShrinks(old(tasks), m1);
      if env(u).bodyThrows {
        thrown := Terminate(u, env);
        EvolvesTrans(old(tasks), m1, tasks);
      } else {
        thrown := Returned(u, env);
        EvolvesTrans(old(tasks), m1, tasks);
      }
    }

    /** The body returned: emit 'load', and 'error' instead when that cascade throws. */
    method Returned(u: nat, env: Env) returns (thrown: bool)
      requires u in tasks
      modifies this`tasks
      decreases PendingOf(tasks), 3
      ensures Evolves(old(tasks), tasks)
      ensures Code(Loading) <= Code(old(tasks)[u].state) && !thrown ==> Code(Loaded) <= Code(tasks[u].state)
      ensures old(tasks)[u].state == Loading && old(tasks)[u].branches == [] ==> Code(Succeeded) <= Code(tasks[u].state)
    {
      thrown := Checkfor(u, ToLoaded, env);
      if thrown {
        ghost var m2 := tasks;
        PendingShrinks(old(tasks), m2);
        thrown := Terminate(u, env);
        EvolvesTrans(old(tasks), m2, tasks);
        CodeFailed(tasks[u].state);
      }
    }

    /**
     * A plugin's `load`: the agent's `emit` calls, each forwarded to `checkfor`, until
     * one throws. An agent that reports 'error' leaves its task FAILED.
     */
    method RunAgent(u: nat, script: seq<Trigger>, env: Env) returns (thrown: bool)
      modifies this`tasks
      decreases PendingOf(tasks), 3
      ensures Evolves(old(tasks), tasks)
      ensures u !in old(tasks) ==> tasks == old(tasks) && !thrown
      ensures u in old(tasks) && !thrown && ToFailed in script ==> tasks[u].state == Failed
    {
      var i := 0;
      thrown := false;
      while i < |script|
        invariant 0 <= i <= |script|
        invariant Evolves(old(tasks), tasks) && PendingOf(tasks) <= PendingOf(old(tasks))
        invariant u !in old(tasks) ==> tasks == old(tasks)
        invariant u in old(tasks) && ToFailed in script[..i] ==> tasks[u].state == Failed
      {
        ghost var before := tasks;
        thrown := Report(u, script[i], env);
        EvolvesTrans(old(tasks), before, tasks);
        PendingShrinks(old(tasks), tasks);
        if thrown {
          return;
        }
        if u in old(tasks) {
          CodeFailed(tasks[u].state);
        }
        assert script[..i + 1] == script[..i] + [script[i]];
        i := i + 1;
      }
      assert script[..i] == script;
    }

    /** One agent `emit(c)`: the `checkfor(c)` it forwards to, of which `RunAgent` needs only this much. */
    method Report(u: nat, c: Trigger, env: Env) returns (thrown: bool)
      modifies this`tasks
      decreases PendingOf(tasks), 2
      ensures Evolves(old(tasks), tasks)
      ensures u !in old(tasks) ==> tasks == old(tasks) && !thrown
      ensures u in old(tasks) && c == ToFailed ==> tasks[u].state == Failed
    {
      thrown := Checkfor(u, c, env);
      if u in old(tasks) && c == ToFailed {
        CodeFailed(tasks[u].state);
      }
    }

    /** The `load` of the built-in 'series' and 'parallel' loaders: 'loading', then 'load'. */
    method LoadGroup(u: nat, env: Env) returns (thrown: bool)
      modifies this`tasks
      decreases PendingOf(tasks), 2
      ensures Evolves(old(tasks), tasks)
      ensures u in old(tasks) && old(tasks)[u].state == Ready && !thrown ==>
        Code(Loaded) <= Code(tasks[u].state) && Started(tasks, old(tasks)[u].branches)
      ensures u in old(tasks) && old(tasks)[u].state == Ready && old(tasks)[u].branches == [] ==>
        Code(Succeeded) <= Code(tasks[u].state)
    {
      thrown := Checkfor(u, ToLoading, env);
      if thrown {
        return;
      }
      ghost var m1 := tasks;
      PendingShrinks(old(tasks), m1);
      thrown := Checkfor(u, ToLoaded, env);
      EvolvesTrans(old(tasks), m1, tasks);
      if u in old(tasks) && old(tasks)[u].state == Ready {
        StartedGrows(m1, tasks, old(tasks)[u].branches);
      }
    }

    // ---- registration ----

    /** `on(e, cb)`: a persistent callback, appended to the list of `e`. */
    method On(u: nat, e: string, a: Action)
      requires u in tasks
      modifies this`tasks
      ensures tasks == Register(old(tasks), u, e, Entry(a, false))
    {
      tasks := Register(tasks, u, e, Entry(a, false));
    }

    /** `one(e, cb)`: a callback dropped after its first emission, appended to the list of `e`. */
    method One(u: nat, e: string, a: Action)
      requires u in tasks
      modifies this`tasks
      ensures tasks == Register(old(tasks), u, e, Entry(a, true))
    {
      tasks := Register(tasks, u, e, Entry(a, true));
    }

    /**
     * `onSuccess(cb)`: run `cb` at once on a task that has succeeded, otherwise register
     * it with `one('success')`. The second test, `is('error')`, never holds, so a
     * FAILED task still gets the callback registered.
     */
    method OnSuccess(u: nat, a: Action, env: Env) returns (thrown: bool)
      requires u in tasks
      modifies this`tasks
      ensures old(tasks)[u].state == Succeeded ==> Evolves(old(tasks), tasks) && QuietRun(old(tasks), tasks, u, a, thrown)
      ensures old(tasks)[u].state != Succeeded ==> tasks == Register(old(tasks), u, "success", Entry(a, true)) && !thrown
    {
      IsByName(tasks[u].state);
      IsErrorNeverHolds(tasks[u].state);
      thrown := false;
      if Is(tasks[u].state, "succeeded") {
        thrown := Run(u, a, env);
      } else if !Is(tasks[u].state, "error") {
        One(u, "success", a);
      }
    }

    /** `onError(cb)`: register `cb` with `one('error')` unless the task has already failed. */
    method OnError(u: nat, a: Action)
      requires u in tasks
      modifies this`tasks
      ensures old(tasks)[u].state == Failed ==> tasks == old(tasks)
      ensures old(tasks)[u].state != Failed ==> tasks == Register(old(tasks), u, "error", Entry(a, true))
    {
      IsByName(tasks[u].state);
      if !Is(tasks[u].state, "failed") {
        One(u, "error", a);
      }
    }

    // ---- wiring ----

    /**
     * `addDependence(dep)`: only while this task sleeps, count one more dependency and
     * have `dep`'s success take it back. When `dep` has already succeeded the count is
     * taken back at once and nothing is left changed.
     */
    method AddDependence(u: nat, dep: nat, env: Env)
      requires u in tasks && dep in tasks
      modifies this`tasks
      ensures old(tasks)[u].state != Sleeping ==> tasks == old(tasks)
      ensures old(tasks)[u].state == Sleeping && old(tasks)[dep].state == Succeeded ==> tasks == old(tasks)
      ensures old(tasks)[u].state == Sleeping && old(tasks)[dep].state != Succeeded ==>
        tasks == Register(old(tasks)[u := old(tasks)[u].(dependence := old(tasks)[u].dependence + 1)],
                          dep, "success", Entry(Action.RemoveDependence(u), true))
    {
      IsByName(tasks[u].state);
      if Is(tasks[u].state, "sleeping") {
        tasks := tasks[u := tasks[u].(dependence := tasks[u].dependence + 1)];
        ghost var counted := tasks;
        var ignored := OnSuccess(dep, Action.RemoveDependence(u), env);
        if old(tasks)[dep].state == Succeeded {
          assert tasks == counted[u := counted[u].(dependence := counted[u].dependence - 1)];
          assert tasks[u] == old(tasks)[u];
        }
      }
    }

    /**
     * `addBranch(b)`: nothing once the host is past LOADING. Otherwise `b` is pushed
     * onto the host's branches, its success will remove it and its failure terminate
     * the host, and it is started at once if the host is LOADING. A `b` that is null
     * is pushed and then the call throws.
     */
    method AddBranch(h: nat, b: nat, env: Env) returns (thrown: bool)
      requires h in tasks
      modifies this`tasks
      ensures Code(old(tasks)[h].state) > Code(Loading) ==> tasks == old(tasks) && !thrown
      ensures Code(old(tasks)[h].state) <= Code(Loading) && b !in old(tasks) ==>
        tasks == old(tasks)[h := old(tasks)[h].(branches := old(tasks)[h].branches + [b])] && thrown
      ensures Code(old(tasks)[h].state) < Code(Loading) && b in old(tasks) ==>
        tasks == Subscribed(old(tasks), h, b) && !thrown
      ensures old(tasks)[h].state == Loading && b in old(tasks) ==>
        Evolves(Subscribed(old(tasks), h, b), tasks) && Code(Waiting) <= Code(tasks[b].state)
    {
      thrown := false;
      if Code(tasks[h].state) > Code(Loading) {
        return;
      }
      tasks := tasks[h := tasks[h].(branches := tasks[h].branches + [b])];
      if b !in tasks {
        return true;
      }
      thrown := Watch(h, b, env);
      assert tasks == Subscribed(old(tasks), h, b);
      SubscribedStable(old(tasks), h, b);
      IsByName(tasks[h].state);
      if Is(tasks[h].state, "loading") {
        thrown := Start(b, env);
      }
    }

    /** The two subscriptions of `addBranch`: `b.onSuccess(() => h.removeBranch(b))` and `b.onError(() => h.terminate())`. */
    method Watch(h: nat, b: nat, env: Env) returns (thrown: bool)
      requires h in tasks && b in tasks && Code(tasks[h].state) <= Code(Loading) && b in tasks[h].branches
      modifies this`tasks
      ensures tasks == WatchError(WatchSuccess(old(tasks), h, b), h, b) && !thrown
    {
      thrown := OnSuccess(b, Action.RemoveBranch(h), env);
      assert tasks == WatchSuccess(old(tasks), h, b);
      OnError(b, Action.Terminate(h));
    }

    // ---- the task registry and the builders ----

    /** `new Task(src, type)`: the next uid, SLEEPING, no dependency, no branch, no listener; cached by uid. */
    method NewTask(src: Source, kind: string) returns (uid: nat)
      requires Valid()
      modifies this`tasks, this`taskid
      ensures Valid() && Untouched(old(tasks), tasks)
      ensures uid == old(taskid) && taskid == old(taskid) + 1 && uid !in old(tasks)
      ensures tasks == old(tasks)[uid := Task(uid, src, kind, Sleeping, 0, [], map[])]
    {
      uid := taskid;
      tasks := tasks[uid := Task(uid, src, kind, Sleeping, 0, [], map[])];
      taskid := taskid + 1;
      StableGrowth(old(tasks), uid, tasks[uid]);
    }

    /**
     * `findOrCreate(spec)`: a task is itself; a group object is its task; an array
     * becomes a new parallel group; anything else goes to the first loader that
     * resolves it, whose cache key finds the task already made or registers a new
     * one. `0` stands for `null`, when no loader resolves the specifier.
     */
    method FindOrCreate(spec: Spec, env: Env) returns (thrown: bool, r: nat, ghost inner: seq<nat>)
      requires Valid()
      modifies this`tasks, this`taskid, this`index
      decreases if spec.List? then 3 else 0
      ensures Valid() && Untouched(old(tasks), tasks) && old(taskid) <= taskid
      ensures FindsKept(old(tasks), old(index), index)
      ensures !thrown ==> Resolves(items, VisitOrder(queue), tasks, index, spec, r)
      ensures thrown ==> spec.List?
      ensures spec.TaskRef? ==> r == spec.uid && tasks == old(tasks) && index == old(index) && !thrown
      ensures spec.GroupRef? ==>
        r == (if spec.uid in old(tasks) then spec.uid else 0) && tasks == old(tasks) && index == old(index) && !thrown
      ensures spec.List? && !thrown ==> r !in old(tasks) && r in tasks && tasks[r].kind == "parallel"
      ensures spec.List? && !thrown ==>
        && AllFound(items, VisitOrder(queue), tasks, index, Flatten(spec.items), inner)
        && (forall x :: x in inner ==> x in tasks)
        && tasks[r].branches == Unfinished(inner, tasks)
      ensures spec.Text? || spec.Callable? || spec.Opaque? ==>
        match FirstClaim(items, VisitOrder(queue), spec)
        case None => r == 0 && tasks == old(tasks) && index == old(index) && taskid == old(taskid)
        case Some(c) =>
          && r in tasks
          && (Registry.Get(old(tasks), old(index), c.2, c.0).Some? ==>
                r == Registry.Get(old(tasks), old(index), c.2, c.0).value.uid
                && tasks == old(tasks) && index == old(index) && taskid == old(taskid))
          && (Registry.Get(old(tasks), old(index), c.2, c.0).None? ==>
                r == old(taskid) && tasks == old(tasks)[r := Task(r, c.1, c.0, Sleeping, 0, [], map[])]
                && index == Registry.PutIndex(old(index), c.2, r, c.0))
          && (c.2.StringKey? && c.2.s != "" ==> Registry.Get(tasks, index, c.2, c.0) == Some(tasks[r]))
    {
      thrown, inner := false, [];
      match spec {
        case TaskRef(uid) =>
          r := uid;
          StableRefl(tasks);
          FindsKeptRefl(tasks, index);
        case GroupRef(uid) =>
          r := if uid in tasks then uid else 0;
          StableRefl(tasks);
          FindsKeptRefl(tasks, index);
        case List(xs) =>
          thrown, r, inner := Parallel(xs, env);
          assert !thrown ==> GroupsAs(items, VisitOrder(queue), tasks, index, xs, r, inner);
        case _ =>
          var claim := EachClaim(spec);
          match claim {
            case None =>
              r := 0;
              StableRefl(tasks);
              FindsKeptRefl(tasks, index);
            case Some(c) =>
              r := Lookup(c.0, c.1, c.2);
          }
      }
    }

    /** `findOrCreate` once a loader has claimed the specifier: the registered task of that type and key, or a new one registered under it. */
    method Lookup(kind: string, src: Source, key: Registry.Key) returns (r: nat)
      requires Valid()
      modifies this`tasks, this`taskid, this`index
      ensures Valid() && Untouched(old(tasks), tasks) && old(taskid) <= taskid && r in tasks
      ensures Registry.Get(old(tasks), old(index), key, kind).Some? ==>
        r == Registry.Get(old(tasks), old(index), key, kind).value.uid
        && tasks == old(tasks) && index == old(index) && taskid == old(taskid)
      ensures Registry.Get(old(tasks), old(index), key, kind).None? ==>
        r == old(taskid) && tasks == old(tasks)[r := Task(r, src, kind, Sleeping, 0, [], map[])]
        && index == Registry.PutIndex(old(index), key, r, kind)
      ensures key.StringKey? && key.s != "" ==> Registry.Get(tasks, index, key, kind) == Some(tasks[r])
      ensures key.StringKey? && key.s != "" ==> Registry.Find(index, key.s, kind) == Some(r)
      ensures !(key.StringKey? && key.s != "") ==> tasks[r].kind == kind && tasks[r].src == src
      ensures FindsKept(old(tasks), old(index), index)
    {
      var found := Registry.Get(tasks, index, key, kind);
      if found.Some? {
        ghost var v :| v in tasks && tasks[v] == found.value;
        r := found.value.uid;
        StableRefl(tasks);
        FindsKeptRefl(tasks, index);
      } else {
        r := NewTask(src, kind);
        index := Registry.PutIndex(index, key, r, kind);
        Registry.PutThenGet(old(tasks), old(index), key, r, kind, tasks[r]);
        forall ty, k | Registry.Find(old(index), k, ty).Some? && Registry.Find(old(index), k, ty).value in old(tasks)
          ensures Registry.Find(index, k, ty) == Registry.Find(old(index), k, ty)
        {
          Registry.PutKeepsFinds(old(tasks), old(index), key, r, kind, k, ty);
        }
      }
    }

    /**
     * `_loaders.each` with `findOrCreate`'s callback: visit the loaders in `each`'s
     * order and stop at the first whose `resolve` yields a source.
     */
    method EachClaim(spec: Spec) returns (claim: Option<(string, Source, Registry.Key)>)
      requires Valid()
      ensures claim == FirstClaim(items, VisitOrder(queue), spec)
    {
      var order := VisitOrder(queue);
      var i := 0;
      while i < |order|
        invariant 0 <= i <= |order|
        invariant FirstClaim(items, order, spec) == FirstClaim(items, order[i..], spec)
      {
        assert order[i..][1..] == order[i + 1..];
        VisitOrderMembers(queue, order[i]);
        var c := Claim(items[order[i]], spec);
        if c.Some? {
          return Some((order[i], c.value.0, c.value.1));
        }
        i := i + 1;
      }
      return None;
    }

    /**
     * `new Parallel(specs)`: a fresh 'parallel' task, then every specifier of the
     * flattened input resolved in order and added as its branch.
     */
    method Parallel(specs: seq<Spec>, env: Env) returns (thrown: bool, p: nat, ghost resolved: seq<nat>)
      requires Valid()
      modifies this`tasks, this`taskid, this`index
      decreases 2
      ensures Valid() && Untouched(old(tasks), tasks) && old(taskid) <= taskid
      ensures p == old(taskid) && p in tasks && tasks[p].kind == "parallel" && tasks[p].src == NoSource
      ensures tasks[p].state == Sleeping
      ensures FindsKept(old(tasks), old(index), index)
      ensures !thrown ==> |resolved| == |Flatten(specs)| && (forall x :: x in resolved ==> x in tasks)
                          && tasks[p].branches == Unfinished(resolved, tasks)
                          && AllFound(items, VisitOrder(queue), tasks, index, Flatten(specs), resolved)
    {
      p := NewTask(NoSource, "parallel");
      ghost var created := tasks;
      StableRefl(created);
      FindsKeptRefl(old(tasks), index);
      var flat := Flatten(specs);
      FlattenIsFlat(specs);
      resolved := [];
      thrown := false;
      var i := 0;
      while i < |flat|
        invariant 0 <= i <= |flat| && |resolved| == i && old(taskid) <= taskid
        invariant Grouping(old(tasks), created, p, resolved)
        invariant FindsKept(old(tasks), old(index), index)
        invariant AllFound(items, VisitOrder(queue), tasks, index, flat[..i], resolved)
      {
        ghost var before, indexBefore := tasks, index;
        var b;
        thrown, b := ResolveBranch(p, flat[i], env, old(tasks), created, resolved);
        FindsKeptTrans(old(tasks), before, old(index), indexBefore, index);
        if thrown {
          return;
        }
        AllFoundSnoc(items, VisitOrder(queue), before, indexBefore, tasks, index, flat, resolved, i, b);
        resolved := resolved + [b];
        i := i + 1;
      }
      assert flat[..i] == flat;
    }

    /** Where building group task `p` stands, as `GroupOk` on the current table. */
    ghost predicate Grouping(m0: map<nat, Task>, created: map<nat, Task>, p: nat, resolved: seq<nat>)
      reads this
    {
      Valid() && GroupOk(m0, created, tasks, p, resolved)
    }

    /** One step of `Parallel`'s loop: `_parallel.addBranch(findOrCreate(spec))`. */
    method ResolveBranch(p: nat, spec: Spec, env: Env, ghost m0: map<nat, Task>, ghost created: map<nat, Task>,
                         ghost resolved: seq<nat>) returns (thrown: bool, b: nat)
      requires Grouping(m0, created, p, resolved) && !spec.List? && created[p].state == Sleeping && p !in m0
      modifies this`tasks, this`taskid, this`index
      decreases 1
      ensures old(taskid) <= taskid
      ensures Valid() && Untouched(m0, tasks) && Stable(created, tasks) && Stable(old(tasks), tasks)
      ensures FindsKept(old(tasks), old(index), index)
      ensures !thrown ==> Grouping(m0, created, p, resolved + [b]) && Found(items, VisitOrder(queue), tasks, index, spec, b)
    {
      ghost var before := tasks;
      ghost var inner;
      thrown, b, inner := FindOrCreate(spec, env);
      GroupOkUntouched(m0, created, before, tasks, p, resolved);
      ghost var found := tasks;
      thrown := AttachBranch(p, b, env, m0, created, resolved);
      FindsKeptRefl(found, index);
      FoundKept(items, VisitOrder(queue), found, index, tasks, index, spec, b);
      StableTrans(before, found, tasks);
    }

    /** `_group.addBranch(b)` while the group task still sleeps. */
    method AttachBranch(p: nat, b: nat, env: Env, ghost m0: map<nat, Task>, ghost created: map<nat, Task>,
                        ghost resolved: seq<nat>) returns (thrown: bool)
      requires Grouping(m0, created, p, resolved) && created[p].state == Sleeping && p !in m0
      modifies this`tasks
      ensures Valid() && Untouched(m0, tasks) && Stable(created, tasks) && Stable(old(tasks), tasks)
      ensures !thrown ==> Grouping(m0, created, p, resolved + [b])
    {
      ghost var found := tasks;
      assert Code(found[p].state) < Code(Loading);
      thrown := AddBranch(p, b, env);
      if b !in found {
        assert tasks == found[p := found[p].(branches := found[p].branches + [b])];
        GroupOkPushed(m0, created, found, p, resolved, b);
        StableTableOk(found, tasks, taskid, index);
      } else {
        assert tasks == Subscribed(found, p, b);
        GroupOkAttach(m0, created, found, p, resolved, b);
        SubscribedStable(found, p, b);
        StableTableOk(found, tasks, taskid, index);
      }
    }

    /**
     * `new Series(specs)`: a fresh 'series' task, then each specifier resolved in
     * order, made to depend on the one before it, and added as a branch. A `null`
     * result throws: at `addDependence` when there is a predecessor, at `addBranch`
     * (after the push) when there is none.
     */
    method Series(specs: seq<Spec>, env: Env) returns (thrown: bool, s: nat, ghost resolved: seq<nat>)
      requires Valid()
      modifies this`tasks, this`taskid, this`index
      ensures Valid() && Stable(old(tasks), tasks) && old(taskid) <= taskid
      ensures s == old(taskid) && s in tasks && tasks[s].kind == "series" && tasks[s].src == NoSource
      ensures tasks[s].state == Sleeping
      ensures !thrown ==> |resolved| == |specs| && (forall x :: x in resolved ==> x in tasks)
                          && tasks[s].branches == Unfinished(resolved, tasks)
                          && Chained(resolved, tasks)
                          && AllResolve(items, VisitOrder(queue), tasks, index, specs, resolved)
    {
      s := NewTask(NoSource, "series");
      ghost var created := tasks;
      StableRefl(created);
      FindsKeptRefl(tasks, index);
      resolved := [];
      thrown := false;
      var prev := 0;
      var i := 0;
      while i < |specs|
        invariant 0 <= i <= |specs| && |resolved| == i && old(taskid) <= taskid
        invariant Valid() && SeriesOk(old(tasks), created, tasks, s, resolved)
        invariant prev == (if i == 0 then 0 else resolved[i - 1])
        invariant AllResolve(items, VisitOrder(queue), tasks, index, specs[..i], resolved)
        invariant NoGroupIs(specs[..i], resolved, s)
      {
        ghost var before, indexBefore := tasks, index;
        var t;
        thrown, t := ChainStep(s, prev, specs[i], env, old(tasks), created, resolved);
        if thrown {
          return;
        }
        AllResolveSnoc(items, VisitOrder(queue), before, indexBefore, tasks, index, specs, resolved, i, t, s);
        resolved := resolved + [t];
        prev := t;
        i := i + 1;
      }      assert specs[..i] == specs;
    }

    /**
     * `findOrCreate(spec)` as a step of building series `s` needs it: the result, a new
     * task when the specifier is an array, and the series as it was.
     */
    method Resolve(spec: Spec, env: Env, s: nat, ghost m0: map<nat, Task>, ghost created: map<nat, Task>,
                   ghost resolved: seq<nat>) returns (thrown: bool, r: nat)
      requires Valid() && SeriesOk(m0, created, tasks, s, resolved)
      modifies this`tasks, this`taskid, this`index
      ensures Valid() && Untouched(old(tasks), tasks) && old(taskid) <= taskid
      ensures SeriesOk(m0, created, tasks, s, resolved)
      ensures FindsKept(old(tasks), old(index), index)
      ensures !thrown ==> Resolves(items, VisitOrder(queue), tasks, index, spec, r)
      ensures spec.List? && !thrown ==> r !in old(tasks)
    {
      ghost var inner;
      ghost var before := tasks;
      thrown, r, inner := FindOrCreate(spec, env);
      SeriesOkKept(m0, created, before, tasks, s, resolved);
    }

    /** One step of `Series`' reduce: resolve, depend on `prev` (0 when none), add as a branch. */
    method ChainStep(s: nat, prev: nat, spec: Spec, env: Env, ghost m0: map<nat, Task>, ghost created: map<nat, Task>,
                     ghost resolved: seq<nat>) returns (thrown: bool, t: nat)
      requires Valid() && SeriesOk(m0, created, tasks, s, resolved) && created[s].state == Sleeping && s !in m0
      requires prev == (if resolved == [] then 0 else resolved[|resolved| - 1]) && s in tasks
      modifies this`tasks, this`taskid, this`index
      ensures old(taskid) <= taskid && Valid() && Stable(m0, tasks) && Stable(created, tasks) && Stable(old(tasks), tasks)
      ensures FindsKept(old(tasks), old(index), index)
      ensures !thrown ==> Stepped(items, VisitOrder(queue), m0, created, old(tasks), tasks, index, s, resolved, spec, t)
    {
      ghost var before := tasks;
      thrown, t := Resolve(spec, env, s, m0, created, resolved);
      if thrown {
        return;
      }
      thrown := LinkFound(s, prev, spec, t, env, m0, created, resolved, before);
    }

    /** `LinkStep` for the task found for `spec`, which stays what `findOrCreate` returned. */
    method LinkFound(s: nat, prev: nat, spec: Spec, t: nat, env: Env, ghost m0: map<nat, Task>, ghost created: map<nat, Task>,
                     ghost resolved: seq<nat>, ghost before: map<nat, Task>) returns (thrown: bool)
      requires Valid() && SeriesOk(m0, created, tasks, s, resolved) && created[s].state == Sleeping && s !in m0
      requires prev == (if resolved == [] then 0 else resolved[|resolved| - 1])
      requires Untouched(before, tasks) && s in before
      requires Resolves(items, VisitOrder(queue), tasks, index, spec, t) && (spec.List? ==> t !in before)
      modifies this`tasks
      ensures Valid() && Stable(m0, tasks) && Stable(created, tasks) && Stable(before, tasks)
      ensures !thrown ==> Stepped(items, VisitOrder(queue), m0, created, before, tasks, index, s, resolved, spec, t)
    {
      ghost var found := tasks;
      thrown := LinkStep(s, prev, t, env, m0, created, resolved);
      if !thrown {
        LinkedKeeps(items, VisitOrder(queue), m0, created, before, found, tasks, index, s, resolved, spec, t);
      } else {
        StableTrans(before, found, tasks);
      }
    }

    /** The rest of that step once `t` is found: depend on `prev` (0 when none), then add as a branch. */
    method LinkStep(s: nat, prev: nat, t: nat, env: Env, ghost m0: map<nat, Task>, ghost created: map<nat, Task>,
                    ghost resolved: seq<nat>) returns (thrown: bool)
      requires Valid() && SeriesOk(m0, created, tasks, s, resolved) && created[s].state == Sleeping && s !in m0
      requires prev == (if resolved == [] then 0 else resolved[|resolved| - 1])
      modifies this`tasks
      ensures Valid() && Stable(m0, tasks) && Stable(created, tasks) && Stable(old(tasks), tasks)
      ensures !thrown ==> t != 0 && SeriesOk(m0, created, tasks, s, resolved + [t]) && BranchesKept(old(tasks), tasks, s)
    {
      if t !in tasks {
        if prev != 0 {
          return true;
        }
        thrown := AttachNull(s, t, env, m0, created);
        return;
      }
      ghost var before := tasks;
      if prev != 0 {
        Depend(s, t, prev, env, m0, created, resolved);
      } else {
        StableRefl(tasks);
      }
      ghost var linked := tasks;
      thrown := AttachLink(s, t, env, m0, created, resolved);
      StableTrans(before, linked, tasks);
      BranchesKeptTrans(before, linked, tasks, s);
    }

    /** `task.addDependence(prev)` inside the reduce: the chain to `t` is in place and nothing else moves. */
    method Depend(s: nat, t: nat, prev: nat, env: Env, ghost m0: map<nat, Task>, ghost created: map<nat, Task>,
                  ghost resolved: seq<nat>)
      requires Valid() && SeriesOk(m0, created, tasks, s, resolved) && t in tasks && tasks[s].state == Sleeping
      requires resolved != [] && prev == resolved[|resolved| - 1]
      modifies this`tasks
      ensures Valid() && Linkable(m0, created, tasks, s, resolved, t) && Stable(old(tasks), tasks)
      ensures BranchesKept(old(tasks), tasks, s)
    {
      ghost var found := tasks;
      AddDependence(t, prev, env);
      DependKeeps(m0, created, found, tasks, s, t, prev, resolved, taskid, index);
    }

    /** `_series.addBranch(null)`: the push happens, then the call throws. */
    method AttachNull(s: nat, t: nat, env: Env, ghost m0: map<nat, Task>, ghost created: map<nat, Task>) returns (thrown: bool)
      requires Valid() && s in tasks && s !in m0 && t !in tasks && tasks[s].state == Sleeping
      requires Stable(m0, tasks) && Stable(created, tasks)
      modifies this`tasks
      ensures thrown && Valid() && Stable(m0, tasks) && Stable(created, tasks) && Stable(old(tasks), tasks)
    {
      ghost var found := tasks;
      assert Code(found[s].state) < Code(Loading);
      thrown := AddBranch(s, t, env);
      RewireStable(found, s, tasks[s]);
      StableTrans(m0, found, tasks);
      StableTrans(created, found, tasks);
      StableTableOk(found, tasks, taskid, index);
    }

    /** `_series.addBranch(task)` for a task that exists, while the series still sleeps. */
    method AttachLink(s: nat, t: nat, env: Env, ghost m0: map<nat, Task>, ghost created: map<nat, Task>,
                      ghost resolved: seq<nat>) returns (thrown: bool)
      requires Valid() && Linkable(m0, created, tasks, s, resolved, t)
      modifies this`tasks
      ensures !thrown && Valid() && SeriesOk(m0, created, tasks, s, resolved + [t]) && Stable(old(tasks), tasks)
      ensures BranchesKept(old(tasks), tasks, s)
    {
      ghost var found := tasks;
      assert Code(found[s].state) < Code(Loading);
      thrown := AddBranch(s, t, env);
      LinkKeeps(m0, created, found, tasks, s, resolved, t, taskid, index);
      SubscribedBranches(found, s, t);
    }

    /**
     * The 'function' branch of `findHostTask`: scanning uids from the newest down, the
     * first LOADING task of type 'function' (whose body is running), or `0`.
     */
    method FindHostTask() returns (host: nat)
      requires Valid()
      ensures host != 0 ==> host in tasks && tasks[host].state == Loading && tasks[host].kind == "function"
      ensures forall v :: v in tasks && host < v && tasks[v].state == Loading ==> tasks[v].kind != "function"
    {
      var i := taskid - 1;
      while i > 0
        invariant 0 <= i < taskid
        invariant forall v :: v in tasks && i < v && tasks[v].state == Loading ==> tasks[v].kind != "function"
      {
        if i in tasks {
          IsByName(tasks[i].state);
          if Is(tasks[i].state, "loading") && tasks[i].kind == "function" {
            return i;
          }
        }
        i := i - 1;
      }
      return 0;
    }

    /**
     * `Loader.load(specs...)`: build a series of the arguments; attach it as a branch
     * of the host task whose body is running, or start it as a root. Either way the
     * series is started unless something threw.
     */
    method Load(specs: seq<Spec>, env: Env) returns (thrown: bool, s: nat, ghost host: nat, ghost built: map<nat, Task>)
      requires Valid()
      modifies this`tasks, this`taskid, this`index
      ensures Valid() && s in tasks && tasks[s].kind == "series"
      ensures s in built && built[s].kind == "series" && Stable(old(tasks), built)
      ensures !thrown ==> Code(Waiting) <= Code(tasks[s].state)
      ensures host != 0 ==>
        && host in built && built[host].state == Loading && built[host].kind == "function"
        && (forall v :: v in built && host < v && built[v].state == Loading ==> built[v].kind != "function")
        && Evolves(Subscribed(built, host, s), tasks)
      ensures host == 0 && !thrown ==>
        && (forall v :: v in built && built[v].state == Loading ==> built[v].kind != "function")
        && Evolves(built, tasks)
      ensures host == 0 && !thrown && built[s].dependence <= 0 ==>
        && Code(Loaded) <= Code(tasks[s].state)
        && (built[s].branches == [] ==> Code(Succeeded) <= Code(tasks[s].state))
    {
      ghost var resolved;
      thrown, s, resolved := Series(specs, env);
      host, built := 0, tasks;
      if thrown {
        return;
      }
      var found := FindHostTask();
      host := found;
      if found != 0 {
        thrown := AddBranch(found, s, env);
        SubscribedStable(built, found, s);
        assert Grows(built, Subscribed(built, found, s));
        EvolvesGrows(Subscribed(built, found, s), tasks);
        GrowsTrans(built, Subscribed(built, found, s), tasks);
        GrowsTableOk(built, tasks, taskid, index);
      } else {
        assert BuiltInKind(items, "series");
        thrown := Start(s, env);
        EvolvesGrows(built, tasks);
        GrowsTableOk(built, tasks, taskid, index);
      }
    }

    /**
     * `_loaders.add(loader)`: a candidate with a (trimmed, non-empty) name not yet
     * taken and both `resolve` and `load` is registered and queued; anything else is
     * ignored.
     */
    method Extend(c: Candidate)
      requires Valid()
      modifies this`items, this`queue
      ensures Valid()
      ensures Admitted(old(items), c).None? ==> items == old(items) && queue == old(queue)
      ensures Admitted(old(items), c).Some? ==>
        var n := Admitted(old(items), c).value;
        items == old(items)[n := Plugin(n, c.resolve.value)] && queue == old(queue) + [n]
    {
      var name := Admitted(items, c);
      if name.Some? {
        items := items[name.value := Plugin(name.value, c.resolve.value)];
        queue := queue + [name.value];
      }
    }
  }
}
