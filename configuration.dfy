/**
 * The module-level configuration: a fixed set of keys with their defaults, and
 * the merge `configure` performs of caller-supplied entries into it.
 */
module Configuration {
  import opened JsValues

  const MONGO_URI: string := "mongoUri"
  const DATABASE_NAME: string := "databaseName"
  const OPLOG_NAME: string := "oplogName"
  const THING_NAME: string := "thingName"
  const QUERIES_SUFFIX: string := "queries_suffix"
  const STATUS_SUFFIX: string := "status_suffix"

  const CONFIG_KEYS: set<string> := {MONGO_URI, DATABASE_NAME, OPLOG_NAME, THING_NAME, QUERIES_SUFFIX, STATUS_SUFFIX}

  const DEFAULTS: map<string, Value> := map[
    MONGO_URI := Null,
    DATABASE_NAME := Null,
    OPLOG_NAME := Str("local"),
    THING_NAME := Null,
    QUERIES_SUFFIX := Str("_queries"),
    STATUS_SUFFIX := Str("_status")
  ]

  /**
   * The names every object inherits from `Object.prototype`. An `in` test on the
   * configuration object finds them as well as its own keys.
   */
  const INHERITED: set<string> := {
    "constructor", "hasOwnProperty", "isPrototypeOf", "propertyIsEnumerable",
    "toLocaleString", "toString", "valueOf", "__defineGetter__", "__defineSetter__",
    "__lookupGetter__", "__lookupSetter__", "__proto__"
  }

  /** Assigning to this inherited name runs a setter instead of creating an own key. */
  const PROTO: string := "__proto__"

  /**
   * The configuration object: its own properties, and whether its prototype is
   * still `Object.prototype`. Assigning `null` to `__proto__` clears it, after
   * which the object inherits nothing.
   */
  datatype Config = Config(own: map<string, Value>, inherits: bool)

  /** `exports.configuration` as the module creates it. */
  const INITIAL: Config := Config(DEFAULTS, true)

  /** `key in exports.configuration`: an own key, or an inherited name while the prototype is kept. */
  predicate Known(c: Config, key: string) {
    key in c.own || (c.inherits && key in INHERITED)
  }

  /**
   * Whether `exports.configuration[key] = value`, for a key the `in` test found,
   * stores `value` under `key`: an own key is overwritten and an inherited name
   * becomes an own key, except `__proto__`, whose setter runs instead.
   */
  predicate Writable(c: Config, key: string) {
    key in c.own || (c.inherits && key in INHERITED - {PROTO})
  }

  /** One enumerable property of the object passed to `configure`, in enumeration order. */
  type Entry = (string, Value)

  /** Entry `i` is the last one that supplies its key. */
  predicate LastFor(custom: seq<Entry>, i: nat)
    requires i < |custom|
  {
    forall j :: i < j < |custom| ==> custom[j].0 != custom[i].0
  }

  /** Some entry supplies `key`. */
  predicate Supplied(custom: seq<Entry>, key: string) {
    exists i :: 0 <= i < |custom| && custom[i].0 == key
  }

  /**
   * The configuration after applying `custom` entry by entry, each against the
   * configuration the earlier entries left: a key the `in` test does not find
   * is ignored, a writable key takes the supplied value, and `__proto__` drops
   * the prototype when given `null` (any other value leaves it). No own key is
   * lost, the only keys gained are names inherited from `Object.prototype`, and
   * a configuration that inherits nothing gains no key at all.
   */
  function Merge(c: Config, custom: seq<Entry>): (r: Config)
    ensures c.own.Keys <= r.own.Keys && r.own.Keys - c.own.Keys <= INHERITED - {PROTO}
    ensures r.inherits ==> c.inherits
    ensures !c.inherits ==> r.own.Keys == c.own.Keys
    decreases |custom|
  {
    if custom == [] then c
    else
      var prev := Merge(c, custom[..|custom| - 1]);
      var (k, v) := custom[|custom| - 1];
      if !Known(prev, k) then prev
      else if Writable(prev, k) then prev.(own := prev.own[k := v])
      else if v == Null then prev.(inherits := false)
      else prev
  }

  /** A key `configure` adds is one that some entry supplies. */
  lemma {:induction false} MergeAddsOnlySupplied(c: Config, custom: seq<Entry>)
    ensures forall k :: k in Merge(c, custom).own ==> k in c.own || Supplied(custom, k)
    decreases |custom|
  {
    if custom != [] {
      var front := custom[..|custom| - 1];
      MergeAddsOnlySupplied(c, front);
      forall k | k in Merge(c, custom).own && k !in c.own ensures Supplied(custom, k) {
        if k != custom[|custom| - 1].0 {
          var i :| 0 <= i < |front| && front[i].0 == k;
          assert custom[i] == front[i];
        }
      }
    }
  }

  /**
   * The prototype is gone after `configure` exactly when it was gone before, or
   * when `__proto__` is no own key and some entry assigns it `null`.
   */
  lemma {:induction false} PrototypeCleared(c: Config, custom: seq<Entry>)
    ensures !Merge(c, custom).inherits <==>
      !c.inherits || (PROTO !in c.own && exists i :: 0 <= i < |custom| && custom[i] == (PROTO, Null))
    decreases |custom|
  {
    if custom != [] {
      var n := |custom|;
      var front := custom[..n - 1];
      PrototypeCleared(c, front);
      assert forall i :: 0 <= i < n - 1 ==> front[i] == custom[i];
      if exists i :: 0 <= i < n && custom[i] == (PROTO, Null) {
        var i :| 0 <= i < n && custom[i] == (PROTO, Null);
        if i < n - 1 {
          assert front[i] == (PROTO, Null);
        }
      }
    }
  }

  /**
   * Applying entries never lets the `in` test find a name it did not find
   * before; while the prototype is kept, it finds the same names and assignment
   * stores the same ones.
   */
  lemma MergeKeepsKinds(c: Config, custom: seq<Entry>, k: string)
    ensures Known(Merge(c, custom), k) ==> Known(c, k)
    ensures Merge(c, custom).inherits ==>
      (Known(Merge(c, custom), k) <==> Known(c, k)) && (Writable(Merge(c, custom), k) <==> Writable(c, k))
  {
    var r := Merge(c, custom);
    if k in r.own && k !in c.own {
      assert k in r.own.Keys - c.own.Keys;
      assert c.inherits;
    }
  }

  /**
   * What `configure` promises: the last entry that supplies a key decides it.
   * The key then holds that entry's value if assignment stores it at that point,
   * and is no own key otherwise; an own key no entry supplies keeps its value.
   */
  lemma {:induction false} MergeValues(c: Config, custom: seq<Entry>)
    ensures forall k :: k in c.own && (forall i :: 0 <= i < |custom| ==> custom[i].0 != k) ==>
      k in Merge(c, custom).own && Merge(c, custom).own[k] == c.own[k]
    ensures forall i :: 0 <= i < |custom| && LastFor(custom, i) ==>
      if Writable(Merge(c, custom[..i]), custom[i].0)
      then custom[i].0 in Merge(c, custom).own && Merge(c, custom).own[custom[i].0] == custom[i].1
      else custom[i].0 !in Merge(c, custom).own
    decreases |custom|
  {
    if custom != [] {
      var n := |custom|;
      var front := custom[..n - 1];
      var (k, v) := custom[n - 1];
      MergeValues(c, front);
      var prev := Merge(c, front);
      var r := Merge(c, custom);
      assert forall x :: x != k ==> (x in r.own <==> x in prev.own) && (x in r.own ==> r.own[x] == prev.own[x]);
      forall i | 0 <= i < n && LastFor(custom, i)
        ensures if Writable(Merge(c, custom[..i]), custom[i].0)
          then custom[i].0 in r.own && r.own[custom[i].0] == custom[i].1
          else custom[i].0 !in r.own
      {
        if i < n - 1 {
          assert front[i] == custom[i];
          assert front[..i] == custom[..i];
          assert custom[i].0 != k;
          assert LastFor(front, i) by {
            forall j | i < j < n - 1 ensures front[j].0 != front[i].0 {
              assert front[j] == custom[j];
            }
          }
        } else {
          assert custom[..i] == front;
        }
      }
      forall k' | k' in c.own && (forall i :: 0 <= i < n ==> custom[i].0 != k')
        ensures k' in r.own && r.own[k'] == c.own[k']
      {
        assert custom[n - 1].0 != k';
        assert forall i :: 0 <= i < n - 1 ==> front[i] == custom[i];
      }
    }
  }

  /**
   * The supplied keys the `in` test does not find when their entry is reached
   * (each one draws a warning), in order.
   */
  function Rejected(c: Config, custom: seq<Entry>): (r: seq<string>)
    ensures forall k :: k in r <==>
      exists i :: 0 <= i < |custom| && custom[i].0 == k && !Known(Merge(c, custom[..i]), k)
    decreases |custom|
  {
    if custom == [] then []
    else
      var n := |custom|;
      var prev := Rejected(c, custom[..n - 1]);
      var k := custom[n - 1].0;
      assert forall j :: 0 <= j < n - 1 ==> custom[..n - 1][j] == custom[j] && custom[..n - 1][..j] == custom[..j];
      assert custom[..n - 1] == custom[..n - 1];
      if Known(Merge(c, custom[..n - 1]), k) then prev else prev + [k]
  }

  /**
   * While the prototype is kept, a key is warned about exactly when an entry
   * supplies it and it is neither an own key nor an inherited name.
   */
  lemma RejectedWhileInherited(c: Config, custom: seq<Entry>)
    requires Merge(c, custom).inherits
    ensures forall k :: k in Rejected(c, custom) <==> !Known(c, k) && Supplied(custom, k)
  {
    forall i | 0 <= i < |custom|
      ensures Merge(c, custom[..i]).inherits
    {
      PrototypeCleared(c, custom);
      PrototypeCleared(c, custom[..i]);
    }
    forall i, k | 0 <= i < |custom|
      ensures Known(Merge(c, custom[..i]), k) <==> Known(c, k)
    {
      MergeKeepsKinds(c, custom[..i], k);
    }
  }

  /**
   * An own `toString` entry draws no warning and becomes an own key; an own
   * `__proto__` entry draws none either, drops the prototype when it is `null`
   * and otherwise (for a value that is not an object) changes nothing.
   */
  lemma InheritedNamesAccepted(c: Config, v: Value)
    requires c.inherits && "toString" !in c.own && PROTO !in c.own
    ensures Merge(c, [("toString", v)]) == c.(own := c.own["toString" := v])
    ensures Rejected(c, [("toString", v)]) == [] && Rejected(c, [(PROTO, v)]) == []
    ensures Merge(c, [(PROTO, Null)]) == c.(inherits := false)
    ensures v != Null && !v.Object? ==> Merge(c, [(PROTO, v)]) == c
  {
    assert [("toString", v)][..0] == [] && [(PROTO, v)][..0] == [] && [(PROTO, Null)][..0] == [];
  }

  /**
   * Once an own `__proto__` entry has set the prototype to `null`, an inherited
   * name is no longer found: a later `toString` entry draws a warning and is not
   * stored.
   */
  lemma NullPrototypeHidesInherited(c: Config, v: Value)
    requires c.inherits && "toString" !in c.own && PROTO !in c.own
    ensures Merge(c, [(PROTO, Null), ("toString", v)]) == c.(inherits := false)
    ensures Rejected(c, [(PROTO, Null), ("toString", v)]) == ["toString"]
  {
    var custom := [(PROTO, Null), ("toString", v)];
    assert custom[..0] == [] && custom[..1] == [(PROTO, Null)] && custom[..1][..0] == [];
    assert Merge(c, custom[..1]) == c.(inherits := false);
    assert Rejected(c, custom[..1]) == [];
    assert !Known(Merge(c, custom[..1]), "toString");
  }
}
