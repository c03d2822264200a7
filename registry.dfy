/**
 * The task registry `_tasks` of loader.js as pure functions: `_cache` maps a uid to
 * its task, `_map[type][key]` maps a cache key to a uid. Both `get` and `put` are
 * stated here; the scheduler's registry methods update its fields with `Put`.
 */
module Registry {
  import opened Wrappers

  /** A cache key: a string (a canonical URL, or a plugin's own source) or any other value. */
  datatype Key = StringKey(s: string) | OtherKey

  /** `_map`: for each task type, the uid recorded under each cache key. */
  type Index = map<string, map<string, nat>>

  // ---- JavaScript object keys: `_cache[key]` with a string key finds uid `u` when key == String(u) ----

  function Digit(d: nat): char
    requires d < 10
  {
    ('0' as int + d) as char
  }

  predicate IsDigit(c: char) {
    '0' <= c <= '9'
  }

  function DigitValue(c: char): nat
    requires IsDigit(c)
  {
    c as int - '0' as int
  }

  /** `String(n)` for a natural number. */
  function Decimal(n: nat): (r: string)
    ensures r != []
  {
    if n < 10 then [Digit(n)] else Decimal(n / 10) + [Digit(n % 10)]
  }

  /** The number a non-empty string of digits denotes. */
  function DigitsValue(s: string): nat
    requires s != [] && forall i :: 0 <= i < |s| ==> IsDigit(s[i])
  {
    if |s| == 1 then DigitValue(s[0])
    else 10 * DigitsValue(s[..|s| - 1]) + DigitValue(s[|s| - 1])
  }

  /** The uid whose property name is `s`, if `s` is one: digits only, and no leading zero. */
  function ParseDecimal(s: string): Option<nat> {
    if s == [] || (|s| > 1 && s[0] == '0') || !(forall i :: 0 <= i < |s| ==> IsDigit(s[i])) then None
    else Some(DigitsValue(s))
  }

  lemma {:induction false} DecimalShape(n: nat)
    ensures forall i :: 0 <= i < |Decimal(n)| ==> IsDigit(Decimal(n)[i])
    ensures |Decimal(n)| > 1 ==> Decimal(n)[0] != '0'
    ensures n >= 10 ==> |Decimal(n)| > 1
    ensures DigitsValue(Decimal(n)) == n
  {
    if n >= 10 {
      DecimalShape(n / 10);
      var r := Decimal(n);
      assert r[..|r| - 1] == Decimal(n / 10);
      assert r[0] == Decimal(n / 10)[0];
    }
  }

  lemma {:induction false} LeadingDigitPositive(s: string)
    requires s != [] && forall i :: 0 <= i < |s| ==> IsDigit(s[i])
    requires s[0] != '0'
    ensures DigitsValue(s) >= 1
  {
    if |s| > 1 {
      LeadingDigitPositive(s[..|s| - 1]);
    }
  }

  lemma {:induction false} DecimalOfValue(s: string)
    requires s != [] && forall i :: 0 <= i < |s| ==> IsDigit(s[i])
    requires |s| > 1 ==> s[0] != '0'
    ensures Decimal(DigitsValue(s)) == s
  {
    if |s| > 1 {
      var init := s[..|s| - 1];
      DecimalOfValue(init);
      LeadingDigitPositive(init);
      var v := DigitsValue(s);
      assert v / 10 == DigitsValue(init) && v % 10 == DigitValue(s[|s| - 1]);
      assert s == init + [s[|s| - 1]];
    }
  }

  /** Property names and uids correspond one to one: `String(u)` is parsed back to `u`, and only it. */
  lemma DecimalRoundTrip(n: nat, s: string)
    ensures ParseDecimal(Decimal(n)) == Some(n)
    ensures ParseDecimal(s) == Some(n) ==> Decimal(n) == s
  {
    DecimalShape(n);
    if ParseDecimal(s) == Some(n) {
      DecimalOfValue(s);
    }
  }

  // ---- `_tasks.get`, `_tasks.put`, `_tasks.getById` ----

  /**
   * The uid `get(key, type)` looks up for a non-empty string key: the one recorded
   * under `_map[type][key]` when it is truthy, otherwise the one `key` spells.
   */
  function Find(index: Index, key: string, ty: string): Option<nat> {
    if ty in index && key in index[ty] && index[ty][key] != 0 then Some(index[ty][key]) else ParseDecimal(key)
  }

  /**
   * `get(key, type)`: `null` for a non-string or empty key; otherwise the task recorded
   * under `_map[type][key]`, or, when there is no such (truthy) uid, `_cache[key]`
   * itself, which finds the task whose uid is spelled by `key`.
   */
  function Get<T(==)>(cache: map<nat, T>, index: Index, key: Key, ty: string): (r: Option<T>)
    ensures (!key.StringKey? || key.s == "") ==> r == None
    ensures r.Some? ==> r.value in cache.Values
    ensures key.StringKey? && key.s != "" && ty in index && key.s in index[ty] && index[ty][key.s] != 0
            ==> r == (if index[ty][key.s] in cache then Some(cache[index[ty][key.s]]) else None)
  {
    if !key.StringKey? || key.s == "" then None
    else
      var uid := Find(index, key.s, ty);
      if uid.Some? && uid.value in cache then Some(cache[uid.value]) else None
  }

  /** `put(key, task)`'s `_map` update: a non-empty string key records the uid under the task's type. */
  function PutIndex(index: Index, key: Key, uid: nat, ty: string): Index {
    if key.StringKey? && key.s != "" then
      index[ty := (if ty in index then index[ty] else map[])[key.s := uid]]
    else index
  }

  /**
   * After `put(key, t)` (cache entry `uid := t`, index by `PutIndex`), `getById(uid)`
   * is `t` and, for a non-empty string key, `get(key, type)` is `t`.
   */
  lemma PutThenGet<T>(cache: map<nat, T>, index: Index, key: Key, uid: nat, ty: string, t: T)
    requires uid != 0
    ensures uid in cache[uid := t] && cache[uid := t][uid] == t
    ensures key.StringKey? && key.s != "" ==> Get(cache[uid := t], PutIndex(index, key, uid, ty), key, ty) == Some(t)
  {
  }

  /**
   * Registering a new task (a uid not yet cached and not recorded in the index) keeps
   * every lookup that already found a task, for every other key and type.
   */
  lemma PutKeepsOtherLookups<T>(cache: map<nat, T>, index: Index, key: Key, uid: nat, ty: string, t: T,
                                key': Key, ty': string)
    requires uid !in cache
    requires key' != key || ty' != ty
    requires Get(cache, index, key', ty').Some?
    ensures Get(cache[uid := t], PutIndex(index, key, uid, ty), key', ty') == Get(cache, index, key', ty')
  {
    var index' := PutIndex(index, key, uid, ty);
    if key'.StringKey? && key'.s != "" && ty' in index && key'.s in index[ty'] {
      assert ty' in index' && key'.s in index'[ty'] && index'[ty'][key'.s] == index[ty'][key'.s];
    }
  }

  /**
   * A `put` after a `get` that missed leaves every lookup that reached a cached task
   * where it was: the key it records was not one of them.
   */
  lemma PutKeepsFinds<T>(cache: map<nat, T>, index: Index, key: Key, uid: nat, ty: string, key': string, ty': string)
    requires Get(cache, index, key, ty).None?
    requires Find(index, key', ty').Some? && Find(index, key', ty').value in cache
    ensures Find(PutIndex(index, key, uid, ty), key', ty') == Find(index, key', ty')
  {
    var index' := PutIndex(index, key, uid, ty);
    if key.StringKey? && key.s != "" {
      assert key' != key.s || ty' != ty;
      if ty' in index && key' in index[ty'] {
        assert ty' in index' && key' in index'[ty'] && index'[ty'][key'] == index[ty'][key'];
      }
      if ty' in index' && key' in index'[ty'] {
        assert ty' in index && key' in index[ty'];
      }
    }
  }
}
