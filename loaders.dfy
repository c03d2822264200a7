/**
 * The loader registry `_loaders` of loader.js: the built-in 'series', 'parallel' and
 * 'function' loaders, plugins added by `add`, the visiting order of `each`, and the
 * first loader whose `resolve` claims a specifier.
 */
module Loaders {
  import opened Wrappers
  import opened Specifiers
  import Registry

  /** A task's `src`: null for group tasks, a resolved string, or the function itself. */
  datatype Source = NoSource | SourceText(s: string) | SourceFn(fn: nat)

  /**
   * What a plugin's `resolve(specifier, toUrl)` returns for the specifiers it accepts:
   * the source, and the cache key `getRealUrl` produced if it called `toUrl` ("" if it
   * did not). URL canonicalisation itself is opaque here.
   */
  datatype Resolution = Resolution(src: string, urlKey: string)

  /** An entry of `_items`. A plugin's `resolve` is a partial function from specifier to resolution. */
  datatype LoaderDef =
    | SeriesLoader
    | ParallelLoader
    | FunctionLoader
    | Plugin(name: string, resolve: map<Spec, Resolution>)

  /** What `add` is given: its `name` when it is a string, its `resolve` when it is a function, whether `load` is one. */
  datatype Candidate = Candidate(name: Option<string>, resolve: Option<map<Spec, Resolution>>, hasLoad: bool)

  const BuiltinItems: map<string, LoaderDef> :=
    map["series" := SeriesLoader, "parallel" := ParallelLoader, "function" := FunctionLoader]

  // ---- `add` ----

  predicate IsSpace(c: char) {
    c == ' ' || c == '\t' || c == '\n' || c == '\r' || c == '\U{B}' || c == '\U{C}'
  }

  /** `String.prototype.trim`, on the ASCII white-space characters. */
  function Trim(s: string): (r: string)
    ensures |r| <= |s|
    ensures r != [] ==> !IsSpace(r[0]) && !IsSpace(r[|r| - 1])
    ensures forall i :: 0 <= i < |r| ==> r[i] in s
  {
    if s != [] && IsSpace(s[0]) then Trim(s[1..])
    else if s != [] && IsSpace(s[|s| - 1]) then Trim(s[..|s| - 1])
    else s
  }

  /** `r` is the slice `s[i..j]` and everything of `s` outside it is white space. */
  predicate StrippedAt(s: string, r: string, i: int, j: int) {
    0 <= i <= j <= |s| && r == s[i..j]
    && (forall k :: 0 <= k < i ==> IsSpace(s[k])) && (forall k :: j <= k < |s| ==> IsSpace(s[k]))
  }

  lemma StrippedFront(s: string, r: string, i: int, j: int)
    requires s != [] && IsSpace(s[0]) && StrippedAt(s[1..], r, i, j)
    ensures StrippedAt(s, r, i + 1, j + 1)
  {
    var t := s[1..];
    assert t[i..j] == s[i + 1..j + 1];
    forall k | 0 <= k < i + 1 ensures IsSpace(s[k]) {
      if k > 0 { assert s[k] == t[k - 1]; }
    }
    forall k | j + 1 <= k < |s| ensures IsSpace(s[k]) {
      assert s[k] == t[k - 1];
    }
  }

  lemma StrippedBack(s: string, r: string, i: int, j: int)
    requires s != [] && IsSpace(s[|s| - 1]) && StrippedAt(s[..|s| - 1], r, i, j)
    ensures StrippedAt(s, r, i, j)
  {
    var t := s[..|s| - 1];
    assert t[i..j] == s[i..j];
    forall k | 0 <= k < i ensures IsSpace(s[k]) {
      assert s[k] == t[k];
    }
    forall k | j <= k < |s| ensures IsSpace(s[k]) {
      if k < |t| { assert s[k] == t[k]; }
    }
  }

  /** `trim` removes white space at the two ends and nothing else: the result is the slice of `s` between them. */
  lemma {:induction false} TrimStripsEnds(s: string)
    ensures exists i, j :: StrippedAt(s, Trim(s), i, j)
    decreases |s|
  {
    if s != [] && IsSpace(s[0]) {
      TrimStripsEnds(s[1..]);
      var i, j :| StrippedAt(s[1..], Trim(s[1..]), i, j);
      StrippedFront(s, Trim(s[1..]), i, j);
    } else if s != [] && IsSpace(s[|s| - 1]) {
      TrimStripsEnds(s[..|s| - 1]);
      var i, j :| StrippedAt(s[..|s| - 1], Trim(s[..|s| - 1]), i, j);
      StrippedBack(s, Trim(s[..|s| - 1]), i, j);
    } else {
      assert StrippedAt(s, Trim(s), 0, |s|);
    }
  }

  /**
   * The name under which `add` registers a candidate, or `None` when it ignores it:
   * a non-string or blank name, a name already in `_items` (the built-ins included),
   * a `resolve` or a `load` that is not a function.
   */
  function Admitted(items: map<string, LoaderDef>, c: Candidate): (r: Option<string>)
    ensures r.Some? ==> c.name.Some? && r.value == Trim(c.name.value)
    ensures r.Some? ==> r.value != [] && r.value !in items && !IsSpace(r.value[0]) && !IsSpace(r.value[|r.value| - 1])
    ensures c.name.None? || c.resolve.None? || !c.hasLoad ==> r.None?
    ensures c.name.Some? && (Trim(c.name.value) == [] || Trim(c.name.value) in items) ==> r.None?
  {
    if c.name.Some? && Trim(c.name.value) != [] && Trim(c.name.value) !in items && c.resolve.Some? && c.hasLoad
    then Some(Trim(c.name.value))
    else None
  }

  /** Adding the same loader a second time is ignored: its name is now taken. */
  lemma AdmittedOnce(items: map<string, LoaderDef>, c: Candidate)
    requires Admitted(items, c).Some?
    ensures Admitted(items[Admitted(items, c).value := Plugin(Admitted(items, c).value, c.resolve.value)], c).None?
  {
  }

  // ---- `each` ----

  function Reverse<T>(s: seq<T>): (r: seq<T>)
    ensures |r| == |s|
  {
    if s == [] then [] else Reverse(s[1..]) + [s[0]]
  }

  lemma {:induction false} ReverseAt<T>(s: seq<T>, i: nat)
    requires i < |s|
    ensures Reverse(s)[i] == s[|s| - 1 - i]
  {
    if i < |s| - 1 {
      ReverseAt(s[1..], i);
    }
  }

  /** `each` copies `_queue`, pushes 'function', and visits the copy from its last element down. */
  function VisitOrder(queue: seq<string>): seq<string> {
    Reverse(queue + ["function"])
  }

  /**
   * The visiting order is the built-in 'function' loader first, then the registered
   * plugins from the most recently added to the first added.
   */
  lemma VisitOrderShape(queue: seq<string>)
    ensures |VisitOrder(queue)| == |queue| + 1
    ensures VisitOrder(queue)[0] == "function"
    ensures forall j :: 1 <= j <= |queue| ==> VisitOrder(queue)[j] == queue[|queue| - j]
  {
    var q := queue + ["function"];
    ReverseAt(q, 0);
    forall j | 1 <= j <= |queue|
      ensures VisitOrder(queue)[j] == queue[|queue| - j]
    {
      ReverseAt(q, j);
    }
  }

  /** `each` visits exactly the registered plugins and 'function'. */
  lemma VisitOrderMembers(queue: seq<string>, x: string)
    ensures x in VisitOrder(queue) <==> x in queue || x == "function"
  {
    VisitOrderShape(queue);
    var order := VisitOrder(queue);
    if x in order {
      var j :| 0 <= j < |order| && order[j] == x;
      if j > 0 {
        assert queue[|queue| - j] == x;
      }
    }
    if x in queue {
      var k :| 0 <= k < |queue| && queue[k] == x;
      assert order[|queue| - k] == x;
    }
    assert order[0] == "function";
  }

  /**
   * After `add` registers `n`, 'function' is still visited first, `n` comes next,
   * and the earlier plugins follow in their previous order.
   */
  lemma VisitOrderAfterAdd(queue: seq<string>, n: string)
    ensures VisitOrder(queue + [n]) == ["function", n] + VisitOrder(queue)[1..]
  {
    var q := queue + [n];
    VisitOrderShape(q);
    VisitOrderShape(queue);
    var lhs := VisitOrder(q);
    var rhs := ["function", n] + VisitOrder(queue)[1..];
    assert |lhs| == |rhs|;
    forall j | 0 <= j < |lhs| ensures lhs[j] == rhs[j] {
      if j >= 2 {
        assert lhs[j] == q[|q| - j] == queue[|queue| - (j - 1)];
        assert rhs[j] == VisitOrder(queue)[j - 1];
      }
    }
  }

  // ---- the callback `findOrCreate` passes to `each` ----

  /**
   * What `loader.resolve(specifier, toUrl)` yields, with the key `cachekey || src`
   * computed from it; `None` for a falsy result. The 'function' loader claims exactly
   * function values, and its key is the function, not a string.
   */
  function Claim(def: LoaderDef, spec: Spec): (r: Option<(Source, Registry.Key)>)
    ensures def.SeriesLoader? || def.ParallelLoader? ==> r.None?
    ensures def.FunctionLoader? ==> (r.Some? <==> spec.Callable?)
    ensures def.FunctionLoader? && r.Some? ==> r.value.0 == SourceFn(spec.fn) && !r.value.1.StringKey?
    ensures def.Plugin? ==> (r.Some? <==> spec in def.resolve && def.resolve[spec].src != "")
    ensures def.Plugin? && r.Some? ==>
      && r.value.0 == SourceText(def.resolve[spec].src)
      && r.value.1.StringKey? && r.value.1.s != ""
      && (def.resolve[spec].urlKey != "" ==> r.value.1.s == def.resolve[spec].urlKey)
      && (def.resolve[spec].urlKey == "" ==> r.value.1.s == def.resolve[spec].src)
  {
    match def
    case FunctionLoader =>
      if spec.Callable? then Some((SourceFn(spec.fn), Registry.OtherKey)) else None
    case Plugin(_, resolve) =>
      if spec in resolve && resolve[spec].src != "" then
        var res := resolve[spec];
        Some((SourceText(res.src), Registry.StringKey(if res.urlKey != "" then res.urlKey else res.src)))
      else None
    case _ => None
  }

  /** The callback applied to the loader registered under `name`; an unknown name declines. */
  function ClaimBy(items: map<string, LoaderDef>, name: string, spec: Spec): Option<(Source, Registry.Key)> {
    if name in items then Claim(items[name], spec) else None
  }

  /**
   * `each(cb)` with `findOrCreate`'s callback: the first loader in `order` whose
   * `resolve` claims `spec`, its name, source and cache key.
   */
  function FirstClaim(items: map<string, LoaderDef>, order: seq<string>, spec: Spec): Option<(string, Source, Registry.Key)>
  {
    if order == [] then None
    else match ClaimBy(items, order[0], spec)
      case Some(c) => Some((order[0], c.0, c.1))
      case None => FirstClaim(items, order[1..], spec)
  }

  /**
   * `each` stops at the first loader that claims: the claiming loader is in the order,
   * every loader before it declined, and the result is its claim; with no claim at
   * all, every loader declined.
   */
  lemma {:induction false} FirstClaimIsFirst(items: map<string, LoaderDef>, order: seq<string>, spec: Spec)
    ensures match FirstClaim(items, order, spec)
      case None => forall i :: 0 <= i < |order| ==> ClaimBy(items, order[i], spec).None?
      case Some(r) => (exists j :: 0 <= j < |order| && order[j] == r.0
                         && ClaimBy(items, order[j], spec) == Some((r.1, r.2))
                         && forall i :: 0 <= i < j ==> ClaimBy(items, order[i], spec).None?)
  {
    if order != [] && ClaimBy(items, order[0], spec).None? {
      FirstClaimIsFirst(items, order[1..], spec);
      match FirstClaim(items, order, spec)
      case None =>
        assert forall i :: 1 <= i < |order| ==> order[i] == order[1..][i - 1];
      case Some(r) =>
        var j :| 0 <= j < |order[1..]| && order[1..][j] == r.0
          && ClaimBy(items, order[1..][j], spec) == Some((r.1, r.2))
          && forall i :: 0 <= i < j ==> ClaimBy(items, order[1..][i], spec).None?;
        assert forall i :: 1 <= i < j + 1 ==> order[i] == order[1..][i - 1];
        assert order[j + 1] == r.0;
    } else if order != [] {
      assert order[0] == FirstClaim(items, order, spec).value.0;
    }
  }
}
