/** The per-instance configurable record (`GenericModel`): one record class
    retargeted at any table, connection, key and timestamp columns by a
    configuration map applied at construction. */
module Models {

  import opened Wrappers
  import opened PhpValues

  /** The twelve configuration keys `applyContext` recognises. */
  datatype Key =
    | Connection | Table | Fillable | Guarded | Casts | Touches
    | KeyName | KeyType | Incrementing | Timestamps | CreatedAt | UpdatedAt
  {
    /** The key as it is spelled in a configuration map. */
    function Name(): string {
      match this
      case Connection => "connection"
      case Table => "table"
      case Fillable => "fillable"
      case Guarded => "guarded"
      case Casts => "casts"
      case Touches => "touches"
      case KeyName => "key_name"
      case KeyType => "key_type"
      case Incrementing => "incrementing"
      case Timestamps => "timestamps"
      case CreatedAt => "created_at"
      case UpdatedAt => "updated_at"
    }

    /** The keys whose setter declares an `array` parameter. */
    predicate IsArrayKey() {
      this == Fillable || this == Casts || this == Touches
    }

    /** The position of the key in `Keys`. */
    function Index(): nat {
      match this
      case Connection => 0
      case Table => 1
      case Fillable => 2
      case Guarded => 3
      case Casts => 4
      case Touches => 5
      case KeyName => 6
      case KeyType => 7
      case Incrementing => 8
      case Timestamps => 9
      case CreatedAt => 10
      case UpdatedAt => 11
    }

    /** The two keys whose value is cast with `(bool)`. */
    predicate IsFlag() {
      this == Incrementing || this == Timestamps
    }
  }

  /** The recognised keys, in the order `applyContext` tests them. */
  const Keys: seq<Key> := [
    Connection, Table, Fillable, Guarded, Casts, Touches,
    KeyName, KeyType, Incrementing, Timestamps, CreatedAt, UpdatedAt]

  /** The framework's class-level timestamp column names (`CREATED_AT`, `UPDATED_AT`). */
  const DefaultCreatedAtColumn := "created_at"
  const DefaultUpdatedAtColumn := "updated_at"

  /** The configuration of one record: its fields as the framework keeps them,
      plus the `_meta` map holding the timestamp column overrides. */
  datatype Config = Config(
    connection: Value,
    table: Value,
    fillable: PhpArray,
    guarded: Value,
    casts: PhpArray,
    touches: PhpArray,
    keyName: Value,
    keyType: Value,
    incrementing: bool,
    timestamps: bool,
    meta: map<string, Value>)

  /** The framework's defaults for a record nobody has configured. */
  function DefaultConfig(): Config {
    Config(
      connection := Null, table := Null, fillable := List([]), guarded := List([Str("*")]),
      casts := List([]), touches := List([]), keyName := Str("id"), keyType := Str("int"),
      incrementing := true, timestamps := true, meta := map[])
  }

  /** A configuration map `applyContext` takes without a `TypeError`. */
  predicate WellTyped(context: map<string, Value>) {
    && (Fillable.Name() in context ==> IsArray(context[Fillable.Name()]))
    && (Casts.Name() in context ==> IsArray(context[Casts.Name()]))
    && (Touches.Name() in context ==> IsArray(context[Touches.Name()]))
  }

  /** What key `k` stores for the value `v`: a bool cast for the two flags,
      the value itself otherwise. */
  function Stored(k: Key, v: Value): Value {
    if k.IsFlag() then Bool(Truthy(v)) else v
  }

  /** The `_meta` entries other than the two timestamp overrides. */
  function OtherMeta(c: Config): map<string, Value> {
    c.meta - {CreatedAt.Name(), UpdatedAt.Name()}
  }

  /** The setting key `k` addresses, read off a configuration; `None` for a
      timestamp override that is not set. */
  function Setting(c: Config, k: Key): Option<Value> {
    match k
    case Connection => Some(c.connection)
    case Table => Some(c.table)
    case Fillable => Some(c.fillable)
    case Guarded => Some(c.guarded)
    case Casts => Some(c.casts)
    case Touches => Some(c.touches)
    case KeyName => Some(c.keyName)
    case KeyType => Some(c.keyType)
    case Incrementing => Some(Bool(c.incrementing))
    case Timestamps => Some(Bool(c.timestamps))
    case _ => if k.Name() in c.meta then Some(c.meta[k.Name()]) else None
  }

  /** Two configurations that agree on every setting and on the rest of
      `_meta` are the same configuration. */
  lemma SettingsDetermineConfig(c: Config, d: Config)
    requires forall k :: Setting(c, k) == Setting(d, k)
    requires OtherMeta(c) == OtherMeta(d)
    ensures c == d
  {
    assert Setting(c, Connection) == Setting(d, Connection);
    assert Setting(c, Table) == Setting(d, Table);
    assert Setting(c, Fillable) == Setting(d, Fillable);
    assert Setting(c, Guarded) == Setting(d, Guarded);
    assert Setting(c, Casts) == Setting(d, Casts);
    assert Setting(c, Touches) == Setting(d, Touches);
    assert Setting(c, KeyName) == Setting(d, KeyName);
    assert Setting(c, KeyType) == Setting(d, KeyType);
    assert Setting(c, Incrementing) == Setting(d, Incrementing);
    assert Setting(c, Timestamps) == Setting(d, Timestamps);
    assert Setting(c, CreatedAt) == Setting(d, CreatedAt);
    assert Setting(c, UpdatedAt) == Setting(d, UpdatedAt);
    assert c.meta == d.meta by {
      forall s | s in c.meta || s in d.meta
        ensures s in c.meta && s in d.meta && c.meta[s] == d.meta[s]
      {
        if s == CreatedAt.Name() {
        } else if s == UpdatedAt.Name() {
        } else {
          assert s in OtherMeta(c) || s in OtherMeta(d);
        }
      }
    }
  }

  /** One step of `applyContext`: the setting for key `k` takes value `v`,
      and nothing else changes. */
  function Set(c: Config, k: Key, v: Value): Config
    requires k.IsArrayKey() ==> IsArray(v)
  {
    match k
    case Connection => c.(connection := v)
    case Table => c.(table := v)
    case Fillable => c.(fillable := v)
    case Guarded => c.(guarded := v)
    case Casts => c.(casts := v)
    case Touches => c.(touches := v)
    case KeyName => c.(keyName := v)
    case KeyType => c.(keyType := v)
    case Incrementing => c.(incrementing := Truthy(v))
    case Timestamps => c.(timestamps := Truthy(v))
    case _ => c.(meta := c.meta[k.Name() := v])
  }

  /** `Set` changes the setting for its key, and nothing else. */
  lemma SetSettings(c: Config, k: Key, v: Value)
    requires k.IsArrayKey() ==> IsArray(v)
    ensures Setting(Set(c, k, v), k) == Some(Stored(k, v))
    ensures forall k' :: k' != k ==> Setting(Set(c, k, v), k') == Setting(c, k')
    ensures OtherMeta(Set(c, k, v)) == OtherMeta(c)
  {
  }

  /** The outcome of `applyContext`: the new configuration, and the
      `TypeError` that stopped it, if any. */
  datatype Applied = Applied(config: Config, error: Option<TypeError>)

  /** One guarded block of `applyContext`: when key `k` is present, its
      setting takes the map's value; an array-typed key holding a non-array
      throws a `TypeError` from the typed setter instead. */
  function Step(c: Config, context: map<string, Value>, k: Key): Applied {
    if k.Name() !in context then Applied(c, None)
    else if k.IsArrayKey() && !IsArray(context[k.Name()]) then Applied(c, Some(TypeError(k.Name())))
    else Applied(Set(c, k, context[k.Name()]), None)
  }

  /** `applyContext` after its first `n` blocks: the blocks run in turn, and
      a `TypeError` stops the run, keeping what was applied before it. */
  function ApplyFirst(c: Config, context: map<string, Value>, n: nat): Applied
    requires n <= |Keys|
  {
    if n == 0 then Applied(c, None)
    else
      var before := ApplyFirst(c, context, n - 1);
      if before.error.Some? then before else Step(before.config, context, Keys[n - 1])
  }

  /** `applyContext`: an empty map returns at once; otherwise the recognised
      keys are applied in order. */
  function Apply(c: Config, context: map<string, Value>): Applied {
    if context == map[] then Applied(c, None) else ApplyFirst(c, context, |Keys|)
  }

  /** Position `n` of `Keys` holds the key of index `n`. */
  lemma KeyAt(n: nat)
    requires n < |Keys|
    ensures Keys[n].Index() == n
  {
  }

  /** Every key is listed in `Keys`, at its index. */
  lemma KeyListed(k: Key)
    ensures k.Index() < |Keys| && Keys[k.Index()] == k
  {
  }

  /** Whether key `k` is among the first `n` tested and present in the context. */
  predicate Present(context: map<string, Value>, n: nat, k: Key) {
    k.Index() < n && k.Name() in context
  }

  /** Whether key `k` is array-typed and the context holds a non-array for it. */
  predicate IllTyped(context: map<string, Value>, k: Key) {
    k.IsArrayKey() && k.Name() in context && !IsArray(context[k.Name()])
  }

  /** The overlay of the first `n` keys, setting by setting and independently
      of any order: the value setting `k` of `c` takes when every key among
      the first `n` that is present in the context (and well typed) overwrites
      its setting. */
  function Overlaid(c: Config, context: map<string, Value>, n: nat, k: Key): Option<Value> {
    if Present(context, n, k) && !IllTyped(context, k)
    then Some(Stored(k, context[k.Name()]))
    else Setting(c, k)
  }

  /** `d` is `c` overlaid with the first `n` keys of the context: every setting
      as `Overlaid` says, and the rest of `_meta` untouched. */
  predicate IsOverlay(d: Config, c: Config, context: map<string, Value>, n: nat) {
    && (forall k :: Setting(d, k) == Overlaid(c, context, n, k))
    && OtherMeta(d) == OtherMeta(c)
  }

  /** Two maps that agree on the recognised keys have the same overlays. */
  lemma OverlayUnique(d: Config, e: Config, c: Config, a: map<string, Value>, b: map<string, Value>, n: nat)
    requires forall k: Key :: (k.Name() in a <==> k.Name() in b)
    requires forall k: Key :: k.Name() in a ==> a[k.Name()] == b[k.Name()]
    requires IsOverlay(d, c, a, n) && IsOverlay(e, c, b, n)
    ensures d == e
  {
    forall k ensures Setting(d, k) == Setting(e, k) {
      assert Overlaid(c, a, n, k) == Overlaid(c, b, n, k);
    }
    SettingsDetermineConfig(d, e);
  }

  /** Widening the overlay to the key `k` leaves every other setting alone. */
  lemma OverlaidNext(c: Config, context: map<string, Value>, k: Key, k': Key)
    requires k' != k
    ensures Overlaid(c, context, k.Index() + 1, k') == Overlaid(c, context, k.Index(), k')
  {
    KeyListed(k);
    KeyListed(k');
    assert Present(context, k.Index() + 1, k') == Present(context, k.Index(), k');
  }

  /** Running the block for `k` on the overlay of the keys before it yields
      the overlay of the keys up to and including it. */
  lemma StepExtendsOverlay(d: Config, c: Config, context: map<string, Value>, k: Key)
    requires IsOverlay(d, c, context, k.Index())
    requires !IllTyped(context, k)
    ensures Step(d, context, k).error == None
    ensures IsOverlay(Step(d, context, k).config, c, context, k.Index() + 1)
  {
    var d' := Step(d, context, k).config;
    if k.Name() in context {
      SetSettings(d, k, context[k.Name()]);
    }
    forall k' | k' != k ensures Setting(d', k') == Overlaid(c, context, k.Index() + 1, k') {
      OverlaidNext(c, context, k, k');
    }
    assert Setting(d', k) == Overlaid(c, context, k.Index() + 1, k);
  }

  /** With no ill-typed key among the first `n`, the first `n` blocks succeed
      and yield the overlay of their keys. */
  lemma {:induction false} ApplyFirstSucceeds(c: Config, context: map<string, Value>, n: nat)
    requires n <= |Keys|
    requires forall k: Key :: k.Index() < n ==> !IllTyped(context, k)
    ensures ApplyFirst(c, context, n).error == None
    ensures IsOverlay(ApplyFirst(c, context, n).config, c, context, n)
  {
    if n > 0 {
      var k := Keys[n - 1];
      KeyAt(n - 1);
      ApplyFirstSucceeds(c, context, n - 1);
      StepExtendsOverlay(ApplyFirst(c, context, n - 1).config, c, context, k);
    }
  }

  /** When `j` is the first ill-typed key, every run through it stops there,
      reporting `j` and keeping what the blocks before it did. */
  lemma {:induction false} ApplyFirstFails(c: Config, context: map<string, Value>, n: nat, j: Key)
    requires j.Index() < n <= |Keys|
    requires IllTyped(context, j)
    requires forall k: Key :: k.Index() < j.Index() ==> !IllTyped(context, k)
    ensures ApplyFirst(c, context, n) ==
      Applied(ApplyFirst(c, context, j.Index()).config, Some(TypeError(j.Name())))
  {
    if n - 1 == j.Index() {
      KeyListed(j);
      ApplyFirstSucceeds(c, context, j.Index());
    } else {
      ApplyFirstFails(c, context, n - 1, j);
    }
  }

  /** Once a block has thrown, later blocks do not run. */
  lemma {:induction false} ApplyFirstStopped(c: Config, context: map<string, Value>, n: nat, m: nat)
    requires n <= m <= |Keys|
    requires ApplyFirst(c, context, n).error.Some?
    ensures ApplyFirst(c, context, m) == ApplyFirst(c, context, n)
    decreases m - n
  {
    if m > n {
      ApplyFirstStopped(c, context, n, m - 1);
    }
  }

  /** Only the three array-typed keys can be ill-typed, and a well-typed map
      is one where none is. */
  lemma IllTypedKeys(context: map<string, Value>)
    ensures forall k :: IllTyped(context, k) ==> k == Fillable || k == Casts || k == Touches
    ensures WellTyped(context) <==> forall k :: !IllTyped(context, k)
  {
    if WellTyped(context) {
      forall k ensures !IllTyped(context, k) {
        match k
        case Fillable =>
        case Casts =>
        case Touches =>
        case _ =>
      }
    } else {
      assert IllTyped(context, Fillable) || IllTyped(context, Casts) || IllTyped(context, Touches);
    }
  }

  /** `applyContext` on a well-typed map succeeds and sets each recognised key
      that is present (even to null, since presence is `array_key_exists`),
      casting the two flags to bool, and leaves every other setting and the
      rest of `_meta` as they were; the order of the steps does not matter. */
  lemma ApplySetsExactlyThePresentKeys(c: Config, context: map<string, Value>)
    requires WellTyped(context)
    ensures Apply(c, context).error == None
    ensures forall k :: (Setting(Apply(c, context).config, k) ==
      if k.Name() in context then Some(Stored(k, context[k.Name()])) else Setting(c, k))
    ensures OtherMeta(Apply(c, context).config) == OtherMeta(c)
  {
    IllTypedKeys(context);
    if context != map[] {
      ApplyFirstSucceeds(c, context, |Keys|);
      forall k ensures Present(context, |Keys|, k) <==> k.Name() in context {
        KeyListed(k);
      }
    }
  }

  /** On an ill-typed map, `applyContext` throws a `TypeError` naming the first
      array-typed key (in the order fillable, casts, touches) that does not hold
      an array; the keys tested before it stay applied. */
  lemma ApplyStopsAtFirstIllTypedKey(c: Config, context: map<string, Value>)
    ensures Apply(c, context).error.None? <==> WellTyped(context)
    ensures IllTyped(context, Fillable) ==>
      && Apply(c, context).error == Some(TypeError("fillable"))
      && IsOverlay(Apply(c, context).config, c, context, Fillable.Index())
    ensures !IllTyped(context, Fillable) && IllTyped(context, Casts) ==>
      && Apply(c, context).error == Some(TypeError("casts"))
      && IsOverlay(Apply(c, context).config, c, context, Casts.Index())
    ensures !IllTyped(context, Fillable) && !IllTyped(context, Casts) && IllTyped(context, Touches) ==>
      && Apply(c, context).error == Some(TypeError("touches"))
      && IsOverlay(Apply(c, context).config, c, context, Touches.Index())
  {
    IllTypedKeys(context);
    if WellTyped(context) {
      ApplySetsExactlyThePresentKeys(c, context);
    } else {
      assert context != map[];
      var j := if IllTyped(context, Fillable) then Fillable
        else if IllTyped(context, Casts) then Casts
        else Touches;
      ApplyFirstFails(c, context, |Keys|, j);
      ApplyFirstSucceeds(c, context, j.Index());
    }
  }

  /** A map holding none of the recognised keys (the empty map among them)
      changes nothing. */
  lemma ApplyWithoutRecognisedKeys(c: Config, context: map<string, Value>)
    requires forall k: Key :: k.Name() !in context
    ensures Apply(c, context) == Applied(c, None)
  {
    ApplySetsExactlyThePresentKeys(c, context);
    SettingsDetermineConfig(Apply(c, context).config, c);
  }

  /** Unrecognised keys are ignored: two maps that agree on the recognised keys
      have the same effect. */
  lemma ApplyIgnoresUnrecognisedKeys(c: Config, a: map<string, Value>, b: map<string, Value>)
    requires forall k: Key :: (k.Name() in a <==> k.Name() in b)
    requires forall k: Key :: k.Name() in a ==> a[k.Name()] == b[k.Name()]
    ensures Apply(c, a) == Apply(c, b)
  {
    assert IllTyped(a, Fillable) == IllTyped(b, Fillable);
    assert IllTyped(a, Casts) == IllTyped(b, Casts);
    assert IllTyped(a, Touches) == IllTyped(b, Touches);
    if WellTyped(a) {
      ApplySetsExactlyThePresentKeys(c, a);
      ApplySetsExactlyThePresentKeys(c, b);
      forall k ensures Setting(Apply(c, a).config, k) == Setting(Apply(c, b).config, k) {
        assert k.Name() in a ==> a[k.Name()] == b[k.Name()];
      }
      SettingsDetermineConfig(Apply(c, a).config, Apply(c, b).config);
    } else {
      ApplyStopsAtFirstIllTypedKey(c, a);
      ApplyStopsAtFirstIllTypedKey(c, b);
      var n := if IllTyped(a, Fillable) then Fillable.Index()
        else if IllTyped(a, Casts) then Casts.Index()
        else Touches.Index();
      OverlayUnique(Apply(c, a).config, Apply(c, b).config, c, a, b, n);
    }
  }

  /** Applying the same well-typed map twice is applying it once. */
  lemma ApplyIdempotent(c: Config, context: map<string, Value>)
    requires WellTyped(context)
    ensures Apply(Apply(c, context).config, context) == Apply(c, context)
  {
    var once := Apply(c, context).config;
    ApplySetsExactlyThePresentKeys(c, context);
    ApplySetsExactlyThePresentKeys(once, context);
    SettingsDetermineConfig(Apply(once, context).config, once);
  }

  /** Applying `a` and then `b` is applying `a` overlaid by `b`: the later map
      wins on a shared key. */
  lemma ApplyInTurn(c: Config, a: map<string, Value>, b: map<string, Value>)
    requires WellTyped(a) && WellTyped(b)
    ensures Apply(Apply(c, a).config, b) == Apply(c, a + b)
  {
    var first := Apply(c, a).config;
    assert WellTyped(a + b);
    ApplySetsExactlyThePresentKeys(c, a);
    ApplySetsExactlyThePresentKeys(first, b);
    ApplySetsExactlyThePresentKeys(c, a + b);
    SettingsDetermineConfig(Apply(first, b).config, Apply(c, a + b).config);
  }

  /** The timestamp column lookup (`getCreatedAtColumn`, `getUpdatedAtColumn`):
      the `_meta` override under `key`, unless it is absent or null (PHP `??`),
      in which case the framework default; the result goes out through a
      `?string` return type. */
  function TimestampColumn(meta: map<string, Value>, key: string, default: string): (r: Result<string, TypeError>)
    ensures key !in meta || meta[key].Null? ==> r == Ok(default)
    ensures key in meta && meta[key].Str? ==> r == Ok(meta[key].s)
    ensures r.Err? <==> key in meta && IsArray(meta[key])
  {
    if key !in meta || meta[key].Null? then Ok(default)
    else ReturnAsString(meta[key], "return value")
  }

  /** After `applyContext`, the timestamp column for `k` follows the map's
      entry when it has one (a null entry falls back to the default, even over
      an earlier override) and is unchanged otherwise. */
  lemma TimestampColumnAfterApply(c: Config, context: map<string, Value>, k: Key, default: string)
    requires k == CreatedAt || k == UpdatedAt
    requires WellTyped(context)
    ensures var column := TimestampColumn(Apply(c, context).config.meta, k.Name(), default);
      && (k.Name() !in context ==> column == TimestampColumn(c.meta, k.Name(), default))
      && (k.Name() in context && context[k.Name()].Null? ==> column == Ok(default))
      && (k.Name() in context && context[k.Name()].Str? ==> column == Ok(context[k.Name()].s))
      && (k.Name() in context ==> column == TimestampColumn(map[k.Name() := context[k.Name()]], k.Name(), default))
  {
    ApplySetsExactlyThePresentKeys(c, context);
    assert Setting(Apply(c, context).config, k) ==
      if k.Name() in context then Some(Stored(k, context[k.Name()])) else Setting(c, k);
  }

  /** The first `n + 1` blocks are the first `n`, then the block for `k`. */
  lemma ApplyFirstStep(c: Config, context: map<string, Value>, n: nat, k: Key)
    requires n < |Keys| && k.Index() == n
    ensures ApplyFirst(c, context, n + 1) ==
      var before := ApplyFirst(c, context, n);
      if before.error.Some? then before else Step(before.config, context, k)
  {
  }

  /** A `GenericModel` instance: the configuration fields it keeps (the
      framework's own fields plus `_meta`). Its attributes and persistence are
      the framework's and are not modelled. */
  class GenericModel {
    var connection: Value
    var table: Value
    var fillable: PhpArray
    var guarded: Value
    var casts: PhpArray
    var touches: PhpArray
    var keyName: Value
    var keyType: Value
    var incrementing: bool
    var timestamps: bool
    var meta: map<string, Value>

    /** The configuration the fields hold. */
    function Snapshot(): Config
      reads this
    {
      Config(connection, table, fillable, guarded, casts, touches, keyName, keyType, incrementing, timestamps, meta)
    }

    /** The constructor starts from the framework's defaults and applies the
        configuration map before anything else (the attributes are assigned
        afterwards, by the framework). A map that would make `applyContext`
        throw aborts construction in the source; here it is excluded. */
    constructor(context: map<string, Value>)
      requires WellTyped(context)
      ensures Snapshot() == Apply(DefaultConfig(), context).config
      ensures forall k :: (Setting(Snapshot(), k) ==
        if k.Name() in context then Some(Stored(k, context[k.Name()])) else Setting(DefaultConfig(), k))
    {
      var d := DefaultConfig();
      connection, table, fillable, guarded := d.connection, d.table, d.fillable, d.guarded;
      casts, touches, keyName, keyType := d.casts, d.touches, d.keyName, d.keyType;
      incrementing, timestamps, meta := d.incrementing, d.timestamps, d.meta;
      new;
      ApplySetsExactlyThePresentKeys(d, context);
      var error := ApplyContext(context);
    }

    /** `applyContext`: each recognised key present in the map overwrites its
        setting, in the source's order; a non-array for `fillable`, `casts` or
        `touches` throws a `TypeError` from the typed setter, leaving the
        earlier settings applied. */
    method ApplyContext(context: map<string, Value>) returns (error: Option<TypeError>)
      modifies this
      ensures Snapshot() == Apply(old(Snapshot()), context).config
      ensures error == Apply(old(Snapshot()), context).error
    {
      if context == map[] {
        return None;
      }
      // The blocks run in segments, each ending with a block that can throw
      // or with the last block; after each segment, the fields and the error
      // are those of the first blocks of the specification, run on the
      // configuration at entry.
      ghost var start := Snapshot();
      error := ApplyConnectionToFillable(context, start);
      if error.Some? {
        ApplyFirstStopped(start, context, 3, |Keys|);
        return;
      }
      error := ApplyGuardedAndCasts(context, start);
      if error.Some? {
        ApplyFirstStopped(start, context, 5, |Keys|);
        return;
      }
      ApplyFirstStep(start, context, Touches.Index(), Touches);
      error := ApplyKey(Touches, context);
      if error.Some? {
        ApplyFirstStopped(start, context, 6, |Keys|);
        return;
      }
      error := ApplyKeyNameToIncrementing(context, start);
      error := ApplyTimestampsToUpdatedAt(context, start);
    }

    /** The blocks for `connection`, `table` and `fillable`. */
    method ApplyConnectionToFillable(context: map<string, Value>, ghost start: Config) returns (error: Option<TypeError>)
      requires Snapshot() == start
      modifies this
      ensures Applied(Snapshot(), error) == ApplyFirst(start, context, 3)
    {
      ApplyFirstStep(start, context, Connection.Index(), Connection);
      error := ApplyKey(Connection, context);
      ApplyFirstStep(start, context, Table.Index(), Table);
      error := ApplyKey(Table, context);
      ApplyFirstStep(start, context, Fillable.Index(), Fillable);
      error := ApplyKey(Fillable, context);
    }

    /** The blocks for `guarded` and `casts`. */
    method ApplyGuardedAndCasts(context: map<string, Value>, ghost start: Config) returns (error: Option<TypeError>)
      requires Applied(Snapshot(), None) == ApplyFirst(start, context, 3)
      modifies this
      ensures Applied(Snapshot(), error) == ApplyFirst(start, context, 5)
    {
      ApplyFirstStep(start, context, Guarded.Index(), Guarded);
      error := ApplyKey(Guarded, context);
      ApplyFirstStep(start, context, Casts.Index(), Casts);
      error := ApplyKey(Casts, context);
    }

    /** The blocks for `key_name`, `key_type` and `incrementing`, none of which can throw. */
    method ApplyKeyNameToIncrementing(context: map<string, Value>, ghost start: Config) returns (error: Option<TypeError>)
      requires Applied(Snapshot(), None) == ApplyFirst(start, context, 6)
      modifies this
      ensures error == None
      ensures Applied(Snapshot(), error) == ApplyFirst(start, context, 9)
    {
      ApplyFirstStep(start, context, KeyName.Index(), KeyName);
      error := ApplyKey(KeyName, context);
      ApplyFirstStep(start, context, KeyType.Index(), KeyType);
      error := ApplyKey(KeyType, context);
      ApplyFirstStep(start, context, Incrementing.Index(), Incrementing);
      error := ApplyKey(Incrementing, context);
    }

    /** The blocks for `timestamps`, `created_at` and `updated_at`, none of which can throw. */
    method ApplyTimestampsToUpdatedAt(context: map<string, Value>, ghost start: Config) returns (error: Option<TypeError>)
      requires Applied(Snapshot(), None) == ApplyFirst(start, context, 9)
      modifies this
      ensures error == None
      ensures Applied(Snapshot(), error) == ApplyFirst(start, context, 12)
    {
      ApplyFirstStep(start, context, Timestamps.Index(), Timestamps);
      error := ApplyKey(Timestamps, context);
      ApplyFirstStep(start, context, CreatedAt.Index(), CreatedAt);
      error := ApplyKey(CreatedAt, context);
      ApplyFirstStep(start, context, UpdatedAt.Index(), UpdatedAt);
      error := ApplyKey(UpdatedAt, context);
    }

    /** The guarded block of `applyContext` for key `k`. The framework's own
        setters (`setConnection`, `setTable`, `setKeyName`, `setKeyType`,
        `setIncrementing`) are plain field assignments here. */
    method ApplyKey(k: Key, context: map<string, Value>) returns (error: Option<TypeError>)
      modifies this
      ensures Applied(Snapshot(), error) == Step(old(Snapshot()), context, k)
    {
      error := None;
      if k.Name() in context {
        var v := context[k.Name()];
        if k.IsArrayKey() && !IsArray(v) {
          return Some(TypeError(k.Name()));
        }
        match k
        case Connection => connection := v;
        case Table => table := v;
        case Fillable => var self := SetFillable(v);
        case Guarded => var self := SetGuarded(v);
        case Casts => var self := SetCasts(v);
        case Touches => var self := SetTouches(v);
        case KeyName => keyName := v;
        case KeyType => keyType := v;
        case Incrementing => incrementing := Truthy(v);
        case Timestamps => timestamps := Truthy(v);
        case CreatedAt => meta := meta[CreatedAt.Name() := v];
        case UpdatedAt => meta := meta[UpdatedAt.Name() := v];
      }
    }

    /** `getCreatedAtColumn`. */
    function GetCreatedAtColumn(): (r: Result<string, TypeError>)
      reads this
      ensures CreatedAt.Name() !in meta || meta[CreatedAt.Name()].Null? ==> r == Ok(DefaultCreatedAtColumn)
      ensures CreatedAt.Name() in meta && meta[CreatedAt.Name()].Str? ==> r == Ok(meta[CreatedAt.Name()].s)
    {
      TimestampColumn(meta, CreatedAt.Name(), DefaultCreatedAtColumn)
    }

    /** `getUpdatedAtColumn`. */
    function GetUpdatedAtColumn(): (r: Result<string, TypeError>)
      reads this
      ensures UpdatedAt.Name() !in meta || meta[UpdatedAt.Name()].Null? ==> r == Ok(DefaultUpdatedAtColumn)
      ensures UpdatedAt.Name() in meta && meta[UpdatedAt.Name()].Str? ==> r == Ok(meta[UpdatedAt.Name()].s)
    {
      TimestampColumn(meta, UpdatedAt.Name(), DefaultUpdatedAtColumn)
    }

    /** `setFillable`: replaces the fillable list and returns the model. */
    method SetFillable(fillable: PhpArray) returns (self: GenericModel)
      modifies this
      ensures Snapshot() == old(Snapshot()).(fillable := fillable)
      ensures self == this
    {
      this.fillable := fillable;
      self := this;
    }

    /** `setGuarded`: replaces the guarded setting (a list, or a bool for
        "guard everything") and returns the model. */
    method SetGuarded(guarded: Value) returns (self: GenericModel)
      modifies this
      ensures Snapshot() == old(Snapshot()).(guarded := guarded)
      ensures self == this
    {
      this.guarded := guarded;
      self := this;
    }

    /** `setCasts`: replaces the cast rules and returns the model. */
    method SetCasts(casts: PhpArray) returns (self: GenericModel)
      modifies this
      ensures Snapshot() == old(Snapshot()).(casts := casts)
      ensures self == this
    {
      this.casts := casts;
      self := this;
    }

    /** `setTouches`: replaces the touched relations and returns the model. */
    method SetTouches(touches: PhpArray) returns (self: GenericModel)
      modifies this
      ensures Snapshot() == old(Snapshot()).(touches := touches)
      ensures self == this
    {
      this.touches := touches;
      self := this;
    }
  }

  /** The configuration map of the repository's save test. */
  function SaveTestContext(): map<string, Value> {
    map[
      "table" := Str("products"), "connection" := Str("default"),
      "fillable" := List([Str("name")]), "guarded" := List([]), "touches" := List([]),
      "casts" := Map(map["active" := Str("bool")]), "key_name" := Str("id"),
      "key_type" := Str("int"), "timestamps" := Bool(true), "incrementing" := Bool(true),
      "created_at" := Str("date_created"), "updated_at" := Str("date_updated")]
  }

  /** The save test's map is well typed, and applying it to the defaults sets
      the configured timestamp columns. */
  lemma SaveTestTimestampColumns()
    ensures WellTyped(SaveTestContext())
    ensures var c := Apply(DefaultConfig(), SaveTestContext()).config;
      && TimestampColumn(c.meta, CreatedAt.Name(), DefaultCreatedAtColumn) == Ok("date_created")
      && TimestampColumn(c.meta, UpdatedAt.Name(), DefaultUpdatedAtColumn) == Ok("date_updated")
  {
    var context := SaveTestContext();
    assert WellTyped(context) by {
      assert context["fillable"] == List([Str("name")]);
      assert context["casts"] == Map(map["active" := Str("bool")]);
      assert context["touches"] == List([]);
    }
    var c := Apply(DefaultConfig(), context).config;
    ApplySetsExactlyThePresentKeys(DefaultConfig(), context);
    assert Setting(c, CreatedAt) == Some(Str("date_created"));
    assert Setting(c, UpdatedAt) == Some(Str("date_updated"));
  }

  /** Applying the save test's map to the defaults sets its table and key and
      keeps both flags on. */
  lemma SaveTestSettings()
    ensures var c := Apply(DefaultConfig(), SaveTestContext()).config;
      c.table == Str("products") && c.keyName == Str("id") && c.incrementing && c.timestamps
  {
    SaveTestTimestampColumns();
    var context := SaveTestContext();
    var c := Apply(DefaultConfig(), context).config;
    ApplySetsExactlyThePresentKeys(DefaultConfig(), context);
    assert Setting(c, Table) == Some(Str("products"));
    assert Setting(c, KeyName) == Some(Str("id"));
    assert Setting(c, Incrementing) == Some(Bool(true));
    assert Setting(c, Timestamps) == Some(Bool(true));
  }

  /** The repository's save test: a model built from its map reports the
      configured timestamp columns, table and key, and keeps its flags. */
  method SaveTestConfiguration() returns (model: GenericModel)
    ensures model.GetCreatedAtColumn() == Ok("date_created")
    ensures model.GetUpdatedAtColumn() == Ok("date_updated")
    ensures model.table == Str("products") && model.keyName == Str("id")
    ensures model.incrementing && model.timestamps
  {
    SaveTestTimestampColumns();
    SaveTestSettings();
    model := new GenericModel(SaveTestContext());
  }
}
