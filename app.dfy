/**
  The application object (App\App): the listener, global and pool registries, the
  configuration check, the bootstrap that runs `__init` methods, pool
  initialisation, and the legacy `handler` entry point with its transaction and
  exception handling.
 */
module App {
  import opened Php
  import opened Exceptions
  import opened Effects
  import opened Container
  import opened Transaction

  /** An argument of `on`: a callable, told apart by `id`, or any other value. */
  datatype Handle = Callable(id: nat) | NotCallable(v: Value)

  /** A connection pool: its id, what its `init` throws, and the errors it reports after `init`. */
  datatype Pool = Pool(id: nat, initError: Option<Exception>, errors: seq<string>)

  /** A configuration entry: a section of fields, or any other value. */
  datatype ConfigEntry = Section(fields: map<string, Value>) | Scalar(v: Value)

  /** A registered bootstrap: an object with its methods in declaration order, or anything else. */
  datatype Bootstrapper = BootObject(methods: seq<string>) | NotObject

  /** Which reading of a defective line a definition follows: the source as written, or as evidently intended. */
  datatype Variant = AsWritten | Corrected

  // ---------------------------------------------------------------------------
  // checkConfig

  /** The required configuration: each section with its required fields, in the order they are checked. */
  const RequiredConfig: seq<(string, seq<string>)> := [
    ("server", ["host", "port", "log_file", "pid_file"]),
    ("logger", ["info", "exception", "error", "warning"]),
    ("tcp", ["name", "handler"])]

  /** `isset($config[$key])`. */
  predicate SectionSet(config: map<string, ConfigEntry>, key: string)
  {
    key in config && config[key] != Scalar(Null)
  }

  /** `isset($config[$key][$field])`; a field of anything but an array is never set. */
  predicate FieldSet(config: map<string, ConfigEntry>, key: string, field: string)
  {
    key in config && config[key].Section? && Isset(config[key].fields, field)
  }

  /** Whether a section and all its required fields are set. */
  predicate Complete(config: map<string, ConfigEntry>, key: string, fields: seq<string>)
  {
    SectionSet(config, key) && forall j :: 0 <= j < |fields| ==> FieldSet(config, key, fields[j])
  }

  /** The first required field of `key` that is not set. */
  function MissingField(config: map<string, ConfigEntry>, key: string, fields: seq<string>): (r: Option<string>)
    ensures r.None? <==> forall j :: 0 <= j < |fields| ==> FieldSet(config, key, fields[j])
    ensures r.Some? ==> exists j :: 0 <= j < |fields| && fields[j] == r.value && !FieldSet(config, key, r.value)
                                    && forall i :: 0 <= i < j ==> FieldSet(config, key, fields[i])
  {
    if fields == [] then None
    else if !FieldSet(config, key, fields[0]) then Some(fields[0])
    else
      var rest := MissingField(config, key, fields[1..]);
      assert forall j :: 1 <= j < |fields| ==> fields[j] == fields[1..][j - 1];
      rest
  }

  /** The message of the error `checkConfig` raises for the first missing item of `required`, if any. */
  function FirstMissing(config: map<string, ConfigEntry>, required: seq<(string, seq<string>)>): (r: Option<string>)
  {
    if required == [] then None
    else
      var key := required[0].0;
      if !SectionSet(config, key) then Some(key + " is not exists")
      else match MissingField(config, key, required[0].1)
        case Some(field) => Some(field + " of " + key + " is not exists")
        case None => FirstMissing(config, required[1..])
  }

  /** The configuration passes the check exactly when every required section and field is set. */
  lemma {:induction false} FirstMissingNone(config: map<string, ConfigEntry>, required: seq<(string, seq<string>)>)
    ensures FirstMissing(config, required).None? <==>
            forall i :: 0 <= i < |required| ==> Complete(config, required[i].0, required[i].1)
  {
    if required != [] {
      FirstMissingNone(config, required[1..]);
      assert forall i :: 1 <= i < |required| ==> required[i] == required[1..][i - 1];
    }
  }

  /**
    When the check fails, its message names a missing section, or a missing field of
    a section that is set, and every section checked before it is complete.
   */
  lemma {:induction false} FirstMissingNamesIt(config: map<string, ConfigEntry>, required: seq<(string, seq<string>)>)
    requires FirstMissing(config, required).Some?
    ensures exists i :: 0 <= i < |required|
              && (forall k :: 0 <= k < i ==> Complete(config, required[k].0, required[k].1))
              && var key := required[i].0;
                 || (!SectionSet(config, key) && FirstMissing(config, required) == Some(key + " is not exists"))
                 || (exists field :: field in required[i].1 && !FieldSet(config, key, field)
                                     && FirstMissing(config, required) == Some(field + " of " + key + " is not exists"))
  {
    var key := required[0].0;
    if SectionSet(config, key) && MissingField(config, key, required[0].1).None? {
      FirstMissingNamesIt(config, required[1..]);
      var i :| 0 <= i < |required[1..]|
              && (forall k :: 0 <= k < i ==> Complete(config, required[1..][k].0, required[1..][k].1))
              && var key := required[1..][i].0;
                 || (!SectionSet(config, key) && FirstMissing(config, required[1..]) == Some(key + " is not exists"))
                 || (exists field :: field in required[1..][i].1 && !FieldSet(config, key, field)
                                     && FirstMissing(config, required[1..]) == Some(field + " of " + key + " is not exists"));
      assert forall k :: 1 <= k < i + 1 ==> required[k] == required[1..][k - 1];
    }
  }

  /** The framework error `checkConfig` raises. */
  function ConfigError(message: string): (e: Exception)
    ensures e.kind == Kovey && e.code == 500
  {
    Exception(Kovey, message, 500, "")
  }

  // ---------------------------------------------------------------------------
  // bootstrap

  /** `substr($fun, 0, 6) === '__init'`. */
  predicate IsInit(name: string)
  {
    |name| >= 6 && name[..6] == "__init"
  }

  /** The calls the bootstrap loop makes on one object: its `__init` methods, in declaration order. */
  function InitCalls(target: BootTarget, methods: seq<string>): (es: seq<Effect>)
    ensures |es| <= |methods|
    ensures forall i :: 0 <= i < |es| ==> es[i].IsInitCall() && es[i].app.target == target && IsInit(es[i].app.initName)
  {
    if methods == [] then []
    else
      var last := methods[|methods| - 1];
      InitCalls(target, methods[..|methods| - 1]) + (if IsInit(last) then [CallInit(target, last)] else [])
  }

  /** The bootstrap of one object calls exactly the `__init` methods it lists. */
  lemma {:induction false} InitCallsExactly(target: BootTarget, methods: seq<string>, name: string)
    ensures CallInit(target, name) in InitCalls(target, methods) <==> name in methods && IsInit(name)
  {
    if methods != [] {
      var front := methods[..|methods| - 1];
      var last := methods[|methods| - 1];
      var tail := if IsInit(last) then [CallInit(target, last)] else [];
      InitCallsExactly(target, front, name);
      assert methods == front + [last];
      assert InitCalls(target, methods) == InitCalls(target, front) + tail;
      assert CallInit(target, name) in tail <==> name == last && IsInit(last);
    }
  }

  /** Each `__init` method is called as many times as it is listed, so once for an object's method list. */
  lemma {:induction false} InitCallsOnce(target: BootTarget, methods: seq<string>, name: string)
    requires IsInit(name)
    ensures multiset(InitCalls(target, methods))[CallInit(target, name)] == multiset(methods)[name]
  {
    if methods != [] {
      var front := methods[..|methods| - 1];
      var last := methods[|methods| - 1];
      InitCallsOnce(target, front, name);
      assert methods == front + [last];
      assert multiset(methods)[name] == multiset(front)[name] + (if last == name then 1 else 0);
      InitCallsSnocCount(target, front, last, name);
    }
  }

  /** Listing one more method adds one call of `name` exactly when that method is `name`. */
  lemma InitCallsSnocCount(target: BootTarget, front: seq<string>, last: string, name: string)
    requires IsInit(name)
    ensures multiset(InitCalls(target, front + [last]))[CallInit(target, name)]
         == multiset(InitCalls(target, front))[CallInit(target, name)] + (if last == name then 1 else 0)
  {
    var tail := if IsInit(last) then [CallInit(target, last)] else [];
    assert (front + [last])[..|front|] == front;
    assert InitCalls(target, front + [last]) == InitCalls(target, front) + tail;
    assert multiset(tail)[CallInit(target, name)] == (if last == name then 1 else 0);
  }

  /** The calls the bootstrap makes on a registered bootstrap: none unless it is an object. */
  function BootCalls(target: BootTarget, b: Bootstrapper): (es: seq<Effect>)
    ensures b.NotObject? ==> es == []
  {
    match b
    case NotObject => []
    case BootObject(methods) => InitCalls(target, methods)
  }

  // ---------------------------------------------------------------------------
  // initPool

  /** `implode(';', $parts)`. */
  function Implode(parts: seq<string>): string
  {
    if |parts| == 0 then "" else if |parts| == 1 then parts[0] else parts[0] + ";" + Implode(parts[1..])
  }

  /** The error log line for a pool that reports errors after `init`. */
  function ErrorLog(p: Pool): (es: seq<Effect>)
    ensures |p.errors| > 0 <==> es == [LogError(Implode(p.errors))]
    ensures |p.errors| == 0 <==> es == []
  {
    if |p.errors| > 0 then [LogError(Implode(p.errors))] else []
  }

  /** Effects so far, and whether an exception has ended the loop. */
  datatype Progress = Progress(effects: seq<Effect>, stopped: bool)

  /**
    `init` on each partition in order; an exception from `init` is logged and ends
    the whole loop. With `logEach`, each partition's errors are logged right after
    its `init`.
   */
  function InitEach(ps: seq<Pool>, logEach: bool): Progress
  {
    if ps == [] then Progress([], false)
    else
      var pre := InitEach(ps[..|ps| - 1], logEach);
      var p := ps[|ps| - 1];
      if pre.stopped then pre
      else if p.initError.Some? then Progress(pre.effects + [PoolInit(p.id), LogException(p.initError.value, None)], true)
      else Progress(pre.effects + [PoolInit(p.id)] + (if logEach then ErrorLog(p) else []), false)
  }

  /**
    One pool name with its partitions. As written, the error check after the loop
    reads the loop variable, so only the last partition's errors are logged; as
    intended, each partition's errors are.
   */
  function InitGroup(ps: seq<Pool>, v: Variant): Progress
  {
    if v.Corrected? then InitEach(ps, true)
    else
      var r := InitEach(ps, false);
      if r.stopped || ps == [] then r else Progress(r.effects + ErrorLog(ps[|ps| - 1]), false)
  }

  /** All pool names in registration order. */
  function InitGroups(groups: seq<seq<Pool>>, v: Variant): Progress
  {
    if groups == [] then Progress([], false)
    else
      var pre := InitGroups(groups[..|groups| - 1], v);
      if pre.stopped then pre
      else
        var g := InitGroup(groups[|groups| - 1], v);
        Progress(pre.effects + g.effects, g.stopped)
  }

  lemma {:induction false} EachStopped(ps: seq<Pool>, k: nat, logEach: bool)
    requires k <= |ps| && InitEach(ps[..k], logEach).stopped
    ensures InitEach(ps, logEach) == InitEach(ps[..k], logEach)
  {
    if k < |ps| {
      assert ps[..|ps| - 1][..k] == ps[..k];
      EachStopped(ps[..|ps| - 1], k, logEach);
    } else {
      assert ps[..k] == ps;
    }
  }

  lemma {:induction false} GroupsStopped(groups: seq<seq<Pool>>, k: nat, v: Variant)
    requires k <= |groups| && InitGroups(groups[..k], v).stopped
    ensures InitGroups(groups, v) == InitGroups(groups[..k], v)
  {
    if k < |groups| {
      assert groups[..|groups| - 1][..k] == groups[..k];
      GroupsStopped(groups[..|groups| - 1], k, v);
    } else {
      assert groups[..k] == groups;
    }
  }

  /**
    When no `init` throws, the intended loop initialises every partition of every
    pool and logs the errors of each partition that reports any.
   */
  lemma {:induction false} InitPoolLogsEveryPartition(groups: seq<seq<Pool>>)
    requires forall i, j :: 0 <= i < |groups| && 0 <= j < |groups[i]| ==> groups[i][j].initError.None?
    ensures var r := InitGroups(groups, Corrected);
            && !r.stopped
            && forall i, j :: 0 <= i < |groups| && 0 <= j < |groups[i]| ==>
                 PoolInit(groups[i][j].id) in r.effects
                 && (|groups[i][j].errors| > 0 ==> LogError(Implode(groups[i][j].errors)) in r.effects)
  {
    if groups != [] {
      var front := groups[..|groups| - 1];
      InitPoolLogsEveryPartition(front);
      var last := groups[|groups| - 1];
      GroupLogsEveryPartition(last);
      forall i, j | 0 <= i < |groups| && 0 <= j < |groups[i]|
        ensures PoolInit(groups[i][j].id) in InitGroups(groups, Corrected).effects
        ensures |groups[i][j].errors| > 0 ==> LogError(Implode(groups[i][j].errors)) in InitGroups(groups, Corrected).effects
      {
        if i < |groups| - 1 {
          assert groups[i] == front[i];
        }
      }
    }
  }

  lemma {:induction false} GroupLogsEveryPartition(ps: seq<Pool>)
    requires forall j :: 0 <= j < |ps| ==> ps[j].initError.None?
    ensures var r := InitEach(ps, true);
            && !r.stopped
            && forall j :: 0 <= j < |ps| ==>
                 PoolInit(ps[j].id) in r.effects
                 && (|ps[j].errors| > 0 ==> LogError(Implode(ps[j].errors)) in r.effects)
  {
    if ps != [] {
      var front := ps[..|ps| - 1];
      GroupLogsEveryPartition(front);
      forall j | 0 <= j < |ps|
        ensures PoolInit(ps[j].id) in InitEach(ps, true).effects
        ensures |ps[j].errors| > 0 ==> LogError(Implode(ps[j].errors)) in InitEach(ps, true).effects
      {
        if j < |ps| - 1 {
          assert ps[j] == front[j];
        }
      }
    }
  }

  /**
    As written, a pool whose first partition reports errors and whose last does not
    logs nothing; the intended loop logs the first partition's errors.
   */
  lemma InitPoolMissesEarlierPartitions()
    ensures var groups := [[Pool(1, None, ["connect refused"]), Pool(2, None, [])]];
            && InitGroups(groups, AsWritten).effects == [PoolInit(1), PoolInit(2)]
            && LogError("connect refused") in InitGroups(groups, Corrected).effects
  {
    var ps := [Pool(1, None, ["connect refused"]), Pool(2, None, [])];
    assert ps[..1] == [Pool(1, None, ["connect refused"])];
    assert ps[..1][..0] == [];
    var groups := [ps];
    assert groups[..0] == [];
    assert InitEach(ps[..1], false) == Progress([PoolInit(1)], false);
    assert InitEach(ps, false) == Progress([PoolInit(1), PoolInit(2)], false);
    assert InitEach(ps[..1], true) == Progress([PoolInit(1), LogError("connect refused")], false);
  }

  // ---------------------------------------------------------------------------
  // bootstrap order

  /** The positions of the `__init` methods in `methods`, ascending. */
  function InitIndices(methods: seq<string>): (idx: seq<nat>)
    ensures forall k :: 0 <= k < |idx| ==> idx[k] < |methods| && IsInit(methods[idx[k]])
    ensures forall k, l :: 0 <= k < l < |idx| ==> idx[k] < idx[l]
    ensures forall i :: 0 <= i < |methods| && IsInit(methods[i]) ==> i in idx
  {
    if methods == [] then []
    else
      var front := methods[..|methods| - 1];
      var idx := InitIndices(front);
      assert forall k :: 0 <= k < |idx| ==> methods[idx[k]] == front[idx[k]];
      idx + (if IsInit(methods[|methods| - 1]) then [|methods| - 1] else [])
  }

  /**
    The bootstrap calls exactly the `__init` methods of the object, each at its own
    position in the method list and in that order.
   */
  lemma {:induction false} InitCallsInOrder(target: BootTarget, methods: seq<string>)
    ensures var idx := InitIndices(methods);
            var es := InitCalls(target, methods);
            |es| == |idx| && forall k :: 0 <= k < |es| ==> es[k] == CallInit(target, methods[idx[k]])
  {
    if methods != [] {
      var front := methods[..|methods| - 1];
      var last := methods[|methods| - 1];
      InitCallsInOrder(target, front);
      var es, esF := InitCalls(target, methods), InitCalls(target, front);
      var idx, idxF := InitIndices(methods), InitIndices(front);
      assert es == esF + (if IsInit(last) then [CallInit(target, last)] else []);
      assert idx == idxF + (if IsInit(last) then [|methods| - 1] else []);
      forall k | 0 <= k < |es|
        ensures es[k] == CallInit(target, methods[idx[k]])
      {
        if k < |esF| {
          assert es[k] == esF[k] && idx[k] == idxF[k];
          assert methods[idxF[k]] == front[idxF[k]];
        }
      }
    }
  }

  /** The loop over one bootstrap object's methods. */
  method RunInits(target: BootTarget, methods: seq<string>) returns (calls: seq<Effect>)
    ensures calls == InitCalls(target, methods)
  {
    calls := [];
    var i := 0;
    while i < |methods|
      invariant 0 <= i <= |methods|
      invariant calls == InitCalls(target, methods[..i])
    {
      assert methods[..i + 1][..i] == methods[..i];
      if IsInit(methods[i]) {
        calls := calls + [CallInit(target, methods[i])];
      }
      i := i + 1;
    }
    assert methods[..i] == methods;
  }

  // ---------------------------------------------------------------------------
  // the application object

  /** Every pool name holds a non-empty array of partitions. */
  ghost predicate PoolsValid(pools: OrderedMap<string, OrderedMap<int, Pool>>)
  {
    && pools.Valid()
    && forall name :: name in pools.entries ==> pools.entries[name].Valid() && |pools.entries[name].keys| > 0
  }

  /** The partitions `initPool` visits, pool name by pool name, in registration order. */
  function GroupsOf(pools: OrderedMap<string, OrderedMap<int, Pool>>): (gs: seq<seq<Pool>>)
    requires PoolsValid(pools)
    ensures |gs| == |pools.keys|
    ensures forall i :: 0 <= i < |gs| ==> gs[i] == pools.entries[pools.keys[i]].Values() && |gs[i]| > 0
  {
    seq(|pools.keys|, i requires 0 <= i < |pools.keys| && PoolsValid(pools) => pools.entries[pools.keys[i]].Values())
  }

  /** The exception `checkConfig` throws for a configuration, if any. */
  function ConfigCheck(config: map<string, ConfigEntry>): (r: Option<Exception>)
    ensures r.None? <==> forall i :: 0 <= i < |RequiredConfig| ==> Complete(config, RequiredConfig[i].0, RequiredConfig[i].1)
    ensures r.Some? ==> r.value.kind == Kovey && r.value.code == 500
  {
    FirstMissingNone(config, RequiredConfig);
    match FirstMissing(config, RequiredConfig)
    case None => None
    case Some(m) => Some(ConfigError(m))
  }

  /** The loop over one pool name's partitions, with the error check `v` places. */
  method InitPartitions(group: seq<Pool>, v: Variant) returns (effects: seq<Effect>, stopped: bool)
    ensures Progress(effects, stopped) == InitGroup(group, v)
  {
    effects := [];
    var logEach := v.Corrected?;
    var j := 0;
    while j < |group|
      invariant 0 <= j <= |group|
      invariant InitEach(group[..j], logEach) == Progress(effects, false)
    {
      var p := group[j];
      assert group[..j + 1][..j] == group[..j];
      if p.initError.Some? {
        effects := effects + [PoolInit(p.id), LogException(p.initError.value, None)];
        EachStopped(group, j + 1, logEach);
        return effects, true;
      }
      effects := effects + [PoolInit(p.id)] + (if logEach then ErrorLog(p) else []);
      j := j + 1;
    }
    assert group[..j] == group;
    if v.AsWritten? && |group| > 0 {
      effects := effects + ErrorLog(group[|group| - 1]);
    }
    stopped := false;
  }

  class App {
    /** The listeners registered with `on`, by event name. */
    var events: map<string, nat>
    var globals: map<string, Value>
    /** The pools by name, and each name's pools by partition. */
    var pools: OrderedMap<string, OrderedMap<int, Pool>>
    var config: map<string, ConfigEntry>
    var bootstrap: Bootstrapper
    var customBootstrap: Bootstrapper

    ghost predicate Valid()
      reads this
    {
      PoolsValid(pools)
    }

    constructor()
      ensures Valid()
      ensures events == map[] && globals == map[] && pools.keys == [] && config == map[]
      ensures bootstrap == NotObject && customBootstrap == NotObject
    {
      events := map[];
      globals := map[];
      pools := EmptyMap();
      config := map[];
      bootstrap := NotObject;
      customBootstrap := NotObject;
    }

    /** `registerGlobal`. */
    method RegisterGlobal(name: string, val: Value)
      modifies this
      ensures globals == old(globals)[name := val]
      ensures GetGlobal(name) == (if val == Null then Null else val)
      ensures forall n :: n != name ==> GetGlobal(n) == old(GetGlobal(n))
      ensures events == old(events) && pools == old(pools) && config == old(config)
      ensures bootstrap == old(bootstrap) && customBootstrap == old(customBootstrap)
    {
      globals := globals[name := val];
    }

    /** `getGlobal`: the value registered under `name`, or null. */
    function GetGlobal(name: string): (v: Value)
      reads this
      ensures name !in globals ==> v == Null
      ensures name in globals ==> v == globals[name]
    {
      Coalesce(globals, name, Null)
    }

    /** `on`: a callable replaces the listener of `event`; anything else is ignored. */
    method On(event: string, h: Handle)
      modifies this
      ensures h.NotCallable? ==> events == old(events)
      ensures h.Callable? ==> events == old(events)[event := h.id]
      ensures forall e :: e != event && e in old(events) ==> e in events && events[e] == old(events)[e]
      ensures globals == old(globals) && pools == old(pools) && config == old(config)
      ensures bootstrap == old(bootstrap) && customBootstrap == old(customBootstrap)
    {
      if h.Callable? {
        events := events[event := h.id];
      }
    }

    method SetConfig(c: map<string, ConfigEntry>)
      modifies this
      ensures config == c
      ensures events == old(events) && globals == old(globals) && pools == old(pools)
      ensures bootstrap == old(bootstrap) && customBootstrap == old(customBootstrap)
    {
      config := c;
    }

    method RegisterBootstrap(b: Bootstrapper)
      modifies this
      ensures bootstrap == b
      ensures events == old(events) && globals == old(globals) && pools == old(pools) && config == old(config)
      ensures customBootstrap == old(customBootstrap)
    {
      bootstrap := b;
    }

    method RegisterCustomBootstrap(b: Bootstrapper)
      modifies this
      ensures customBootstrap == b
      ensures events == old(events) && globals == old(globals) && pools == old(pools) && config == old(config)
      ensures bootstrap == old(bootstrap)
    {
      customBootstrap := b;
    }

    /** `bootstrap`: the built-in object's `__init` methods, then the custom object's. */
    method Bootstrap() returns (effects: seq<Effect>)
      ensures effects == BootCalls(BuiltIn, bootstrap) + BootCalls(Custom, customBootstrap)
      ensures forall i :: 0 <= i < |effects| ==> effects[i].IsInitCall()
      ensures forall i, j :: 0 <= i < j < |effects| && effects[i].app.target == Custom ==> effects[j].app.target == Custom
    {
      var builtIn: seq<Effect> := [];
      if bootstrap.BootObject? {
        builtIn := RunInits(BuiltIn, bootstrap.methods);
      }
      var custom: seq<Effect> := [];
      if customBootstrap.BootObject? {
        custom := RunInits(Custom, customBootstrap.methods);
      }
      effects := builtIn + custom;
    }

    /** `registerPool`: stores the pool under (name, partition), creating the name's array when needed. */
    method RegisterPool(name: string, pool: Pool, partition: int := 0)
      requires Valid()
      modifies this
      ensures Valid()
      ensures GetPool(name, partition) == Some(pool)
      ensures forall n, p :: n != name || p != partition ==> GetPool(n, p) == old(GetPool(n, p))
      ensures pools.keys == if name in old(pools.entries) then old(pools.keys) else old(pools.keys) + [name]
      ensures events == old(events) && globals == old(globals) && config == old(config)
      ensures bootstrap == old(bootstrap) && customBootstrap == old(customBootstrap)
    {
      var inner: OrderedMap<int, Pool> := if name in pools.entries then pools.entries[name] else EmptyMap();
      pools := pools.Put(name, inner.Put(partition, pool));
    }

    /** `getPool`: the pool registered under (name, partition), or null. */
    function GetPool(name: string, partition: int := 0): (r: Option<Pool>)
      reads this
      ensures r.Some? <==> name in pools.entries && partition in pools.entries[name].entries
      ensures r.Some? ==> r.value == pools.entries[name].entries[partition]
    {
      if name in pools.entries then pools.entries[name].Get(partition) else None
    }

    /** `checkConfig`: throws for the first missing section or field, in the order they are required. */
    method CheckConfig() returns (thrown: Option<Exception>)
      ensures thrown == ConfigCheck(config)
    {
      var i := 0;
      while i < |RequiredConfig|
        invariant 0 <= i <= |RequiredConfig|
        invariant FirstMissing(config, RequiredConfig) == FirstMissing(config, RequiredConfig[i..])
      {
        var key := RequiredConfig[i].0;
        var fields := RequiredConfig[i].1;
        assert RequiredConfig[i..][0] == RequiredConfig[i] && RequiredConfig[i..][1..] == RequiredConfig[i + 1..];
        if !SectionSet(config, key) {
          thrown := Some(ConfigError(key + " is not exists"));
          return;
        }
        var j := 0;
        while j < |fields|
          invariant 0 <= j <= |fields|
          invariant MissingField(config, key, fields) == MissingField(config, key, fields[j..])
        {
          assert fields[j..][0] == fields[j] && fields[j..][1..] == fields[j + 1..];
          if !FieldSet(config, key, fields[j]) {
            thrown := Some(ConfigError(fields[j] + " of " + key + " is not exists"));
            return;
          }
          j := j + 1;
        }
        i := i + 1;
      }
      thrown := None;
    }

    /**
      `initPool`: every pool name's partitions are initialised in registration order
      and an exception from `init` is logged and ends the loop. `v` chooses where the
      error check sits: after the partition loop as written, inside it as intended.
     */
    method InitPool(v: Variant) returns (effects: seq<Effect>)
      requires Valid()
      ensures effects == InitGroups(GroupsOf(pools), v).effects
    {
      ghost var groups := GroupsOf(pools);
      effects := [];
      var i := 0;
      while i < |pools.keys|
        invariant 0 <= i <= |pools.keys|
        invariant InitGroups(groups[..i], v) == Progress(effects, false)
      {
        var group := pools.entries[pools.keys[i]].Values();
        assert group == groups[i];
        assert groups[..i + 1][..i] == groups[..i];
        var more, stopped := InitPartitions(group, v);
        effects := effects + more;
        if stopped {
          GroupsStopped(groups, i + 1, v);
          return;
        }
        i := i + 1;
      }
      assert groups[..i] == groups;
    }
  }

  // ---------------------------------------------------------------------------
  // handler

  /**
    What the `protobuf` listener returns: the `handler` and `method` names (the
    empty string when absent) and the `message` to pass to the handler method.
   */
  datatype Decoded = Decoded(handlerName: string, methodName: string, message: Value)

  /**
    The collaborators of one `handler` call: what the `protobuf` listener returns or
    throws, the `error` listener, the container's keywords for the method and its
    `database` entry, the instance the container returns or the exception it throws,
    the outcome of the handler method (or of the `run_handler` listener), and the JSON
    form of a protobuf message object.
   */
  datatype LegacyEnv = LegacyEnv(
    protobuf: Outcome<Decoded>,
    error: string -> Response,
    keywords: Keywords,
    database: Database,
    instance: Outcome<Instance>,
    call: Outcome<Response>,
    toJson: nat -> string)

  /** `ucfirst`: the first letter in upper case when it is an ASCII lower-case letter. */
  function Ucfirst(s: string): (r: string)
    ensures |r| == |s|
    ensures |s| > 0 ==> r[1..] == s[1..]
    ensures |s| > 0 && 'a' <= s[0] <= 'z' ==> r[0] as int == s[0] as int - 32
    ensures |s| > 0 && !('a' <= s[0] <= 'z') ==> r == s
  {
    if |s| > 0 && 'a' <= s[0] <= 'z' then [(s[0] as int - 32) as char] + s[1..] else s
  }

  /** The `params` field of the monitor record for a decoded message. */
  function LegacyParams(message: Value, toJson: nat -> string): (p: Value)
    ensures Falsy(message) ==> p == Str("[]")
    ensures !Falsy(message) && !message.Obj? ==> p == message
  {
    if Falsy(message) then Str("[]")
    else match message
      case Obj(id) => Str(toJson(id))
      case _ => message
  }

  /** The non-timing fields `sendToMonitor` records, with or without the decoded message. */
  function LegacyRecordOf(message: Option<Decoded>, kind: string, ip: string, traceId: string, toJson: nat -> string): (r: LegacyRecord)
    ensures r.legacyKind == kind && r.legacyIp == ip && r.legacyTraceId == traceId
    ensures message.None? ==> r.legacyHandler == "" && r.legacyMethod == "" && r.legacyParams == Str("[]")
    ensures message.Some? ==> r.legacyHandler == message.value.handlerName && r.legacyMethod == message.value.methodName
  {
    match message
    case None => LegacyRecord("", "", kind, Str("[]"), ip, traceId)
    case Some(m) => LegacyRecord(m.handlerName, m.methodName, kind, LegacyParams(m.message, toJson), ip, traceId)
  }

  /** The early return: the `error` listener's result for `text` when it is listened, an empty array otherwise. */
  function ErrorResult(listened: set<string>, env: LegacyEnv, text: string): (r: (Outcome<Response>, seq<Effect>))
    ensures "error" in listened ==> r == (Returned(env.error(text)), [CallError(text)])
    ensures "error" !in listened ==> r == (Returned(map[]), [])
  {
    if "error" in listened then (Returned(env.error(text)), [CallError(text)]) else (Returned(map[]), [])
  }

  /** The call to business code: the method itself, or the `run_handler` listener when one is registered. */
  function LegacyCall(listened: set<string>, m: Decoded, fd: int, ip: string): (c: Effect)
    ensures c.IsHandlerCall() && !c.IsTx()
  {
    if "run_handler" in listened then CallRunHandler(m.methodName, m.message, fd, ip)
    else CallMethod(m.methodName, m.message, fd, ip)
  }

  /**
    The `type` recorded after a call that returned. As written, the path without a
    `run_handler` listener records "exception"; "success" is evidently intended.
   */
  function SuccessKind(v: Variant, listened: set<string>): (k: string)
    ensures "run_handler" in listened || v.Corrected? ==> k == "success"
  {
    if "run_handler" !in listened && v.AsWritten? then "exception" else "success"
  }

  /**
    The body of the `try` in `handler`, given the names of the registered listeners:
    its outcome and effects in order.
   */
  function HandlerTry(v: Variant, listened: set<string>, handlerNs: string, packet: Bytes, action: int, fd: int,
                      ip: string, traceId: string, env: LegacyEnv): (r: (Outcome<Response>, seq<Effect>))
  {
    if "protobuf" !in listened then
      var e := ErrorResult(listened, env, "protobuf event is not register");
      (e.0, [LegacyMonitor(LegacyRecordOf(None, "exception", ip, traceId, env.toJson))] + e.1)
    else
      var decode := [CallProtobuf(packet, action)];
      match env.protobuf
      case Threw(x) => (Threw(x), decode)
      case Returned(m) =>
        if Falsy(Str(m.handlerName)) || Falsy(Str(m.methodName)) then
          var e := ErrorResult(listened, env, "unknown message");
          (e.0, decode + [LegacyMonitor(LegacyRecordOf(None, "exception", ip, traceId, env.toJson))] + e.1)
        else
          var cls := handlerNs + "\\" + Ucfirst(m.handlerName);
          var lookups := decode + [GetKeywords(cls, m.methodName), GetInstance(cls, traceId)];
          match env.instance
          case Threw(x) => (Threw(x), lookups)
          case Returned(instance) =>
            if !instance.isHandler then
              var e := ErrorResult(listened, env, Ucfirst(m.handlerName) + " is not extends HandlerAbstract");
              (e.0, lookups + [LegacyMonitor(LegacyRecordOf(Some(m), "exception", ip, traceId, env.toJson))] + e.1)
            else
              var t := Transact(OpensTransaction(env.keywords), env.database, LegacyCall(listened, m, fd, ip), env.call);
              match t.0
              case Threw(x) => (Threw(x), lookups + t.1)
              case Returned(result) =>
                var record := LegacyRecordOf(Some(m), SuccessKind(v, listened), ip, traceId, env.toJson);
                (Returned(result), lookups + t.1 + [LegacyMonitor(record)])
  }

  /**
    `handler`: the `try` body, then its catches. A connection-close exception is
    rethrown; any other exception is logged with the trace id and recorded, and the
    `error` listener's result for "exception" (a framework error) or "throwable
    exception" (anything else) is returned. Without an `error` listener the method
    ends without `return`, and PHP raises an Error for the declared array result.
   */
  function Handler(v: Variant, listened: set<string>, handlerNs: string, packet: Bytes, action: int, fd: int,
                   ip: string, traceId: string, env: LegacyEnv): (r: (Outcome<Response>, seq<Effect>))
  {
    HandlerCatch(HandlerTry(v, listened, handlerNs, packet, action, fd, ip, traceId, env), listened, ip, traceId, env)
  }

  /**
    The catches of `handler` applied to the outcome `t` of its `try` body: they only
    add log, monitor and `error` listener effects after those of the body.
   */
  function HandlerCatch(t: (Outcome<Response>, seq<Effect>), listened: set<string>, ip: string, traceId: string,
                        env: LegacyEnv): (r: (Outcome<Response>, seq<Effect>))
    ensures t.0.Returned? || t.0.error.kind == CloseConnection ==> r == t
    ensures |r.1| >= |t.1| && r.1[..|t.1|] == t.1
    ensures forall i :: |t.1| <= i < |r.1| ==> !r.1[i].IsTx() && !r.1[i].IsHandlerCall()
    ensures t.0.Threw? && t.0.error.kind != CloseConnection ==>
              && |r.1| > |t.1| && r.1[|t.1|] == LogException(t.0.error, Some(traceId))
              && r.0 == (if "error" !in listened then Threw(MissingReturn("array"))
                         else if t.0.error.kind == Kovey then Returned(env.error("exception"))
                         else Returned(env.error("throwable exception")))
  {
    match t.0
    case Returned(_) => t
    case Threw(e) =>
      if e.kind == CloseConnection then t
      else
        var text := if e.kind == Kovey then "exception" else "throwable exception";
        var logged := t.1 + [LogException(e, Some(traceId)), LegacyMonitor(LegacyRecordOf(None, "exception", ip, traceId, env.toJson))];
        if "error" in listened then (Returned(env.error(text)), logged + [CallError(text)])
        else (Threw(MissingReturn("array")), logged)
  }

  /** Without a `protobuf` listener no business code runs and the `error` listener's answer (or an empty array) is returned. */
  lemma HandlerWithoutProtobuf(v: Variant, listened: set<string>, handlerNs: string, packet: Bytes, action: int, fd: int,
                               ip: string, traceId: string, env: LegacyEnv)
    requires "protobuf" !in listened
    ensures var r := Handler(v, listened, handlerNs, packet, action, fd, ip, traceId, env);
            && NoHandlerCall(r.1)
            && r.0 == Returned(if "error" in listened then env.error("protobuf event is not register") else map[])
            && r.1[0] == LegacyMonitor(LegacyRecordOf(None, "exception", ip, traceId, env.toJson))
  {
  }

  /** A decoded message without a handler or method name runs no business code and returns the `error` listener's answer. */
  lemma HandlerUnknownMessage(v: Variant, listened: set<string>, handlerNs: string, packet: Bytes, action: int, fd: int,
                              ip: string, traceId: string, env: LegacyEnv, m: Decoded)
    requires "protobuf" in listened && env.protobuf == Returned(m)
    requires Falsy(Str(m.handlerName)) || Falsy(Str(m.methodName))
    ensures var r := Handler(v, listened, handlerNs, packet, action, fd, ip, traceId, env);
            && NoHandlerCall(r.1)
            && r.0 == Returned(if "error" in listened then env.error("unknown message") else map[])
  {
    var r := Handler(v, listened, handlerNs, packet, action, fd, ip, traceId, env);
    var e := ErrorResult(listened, env, "unknown message");
    assert r.1 == [CallProtobuf(packet, action)] + [LegacyMonitor(LegacyRecordOf(None, "exception", ip, traceId, env.toJson))] + e.1;
  }

  /** An instance that does not extend HandlerAbstract runs no business code and opens no transaction. */
  lemma HandlerNotHandler(v: Variant, listened: set<string>, handlerNs: string, packet: Bytes, action: int, fd: int,
                          ip: string, traceId: string, env: LegacyEnv, m: Decoded)
    requires "protobuf" in listened && env.protobuf == Returned(m)
    requires !Falsy(Str(m.handlerName)) && !Falsy(Str(m.methodName))
    requires env.instance.Returned? && !env.instance.value.isHandler
    ensures var r := Handler(v, listened, handlerNs, packet, action, fd, ip, traceId, env);
            && NoHandlerCall(r.1) && DbTrace(r.1) == []
            && r.0 == Returned(if "error" in listened then env.error(Ucfirst(m.handlerName) + " is not extends HandlerAbstract") else map[])
  {
    var r := Handler(v, listened, handlerNs, packet, action, fd, ip, traceId, env);
    var cls := handlerNs + "\\" + Ucfirst(m.handlerName);
    var e := ErrorResult(listened, env, Ucfirst(m.handlerName) + " is not extends HandlerAbstract");
    assert r.1 == [CallProtobuf(packet, action), GetKeywords(cls, m.methodName), GetInstance(cls, traceId)]
                  + [LegacyMonitor(LegacyRecordOf(Some(m), "exception", ip, traceId, env.toJson))] + e.1;
    NoTxNoTrace(r.1);
  }

  /** The run reaches the call of business code. */
  predicate Reaches(listened: set<string>, env: LegacyEnv, m: Decoded)
  {
    && "protobuf" in listened && env.protobuf == Returned(m)
    && !Falsy(Str(m.handlerName)) && !Falsy(Str(m.methodName))
    && env.instance.Returned? && env.instance.value.isHandler
  }

  /** The catches add no database call. */
  lemma HandlerCatchTrace(t: (Outcome<Response>, seq<Effect>), listened: set<string>, ip: string, traceId: string,
                          env: LegacyEnv)
    ensures DbTrace(HandlerCatch(t, listened, ip, traceId, env).1) == DbTrace(t.1)
  {
    var r := HandlerCatch(t, listened, ip, traceId, env);
    var tail := r.1[|t.1|..];
    assert r.1 == t.1 + tail;
    NoTxNoTrace(tail);
    DbTraceAppend(t.1, tail);
    assert DbTrace(r.1) == DbTrace(t.1) + DbTrace(tail);
    assert DbTrace(t.1) + [] == DbTrace(t.1);
  }

  /** Once business code is reached, the `try` body is the lookups, the transaction, and on success the record. */
  lemma HandlerTryReached(v: Variant, listened: set<string>, handlerNs: string, packet: Bytes, action: int, fd: int,
                          ip: string, traceId: string, env: LegacyEnv, m: Decoded)
    requires Reaches(listened, env, m)
    ensures var cls := handlerNs + "\\" + Ucfirst(m.handlerName);
            var t := Transact(OpensTransaction(env.keywords), env.database, LegacyCall(listened, m, fd, ip), env.call);
            var tr := HandlerTry(v, listened, handlerNs, packet, action, fd, ip, traceId, env);
            && tr.0 == t.0
            && tr.1 == [CallProtobuf(packet, action), GetKeywords(cls, m.methodName), GetInstance(cls, traceId)] + t.1
                       + (if t.0.Returned? then [LegacyMonitor(LegacyRecordOf(Some(m), SuccessKind(v, listened), ip, traceId, env.toJson))]
                          else [])
  {
    var cls := handlerNs + "\\" + Ucfirst(m.handlerName);
    assert [CallProtobuf(packet, action)] + [GetKeywords(cls, m.methodName), GetInstance(cls, traceId)]
        == [CallProtobuf(packet, action), GetKeywords(cls, m.methodName), GetInstance(cls, traceId)];
  }

  /** Once business code is reached, the database sees exactly the calls of the transaction around it. */
  lemma HandlerTraceIsTransaction(v: Variant, listened: set<string>, handlerNs: string, packet: Bytes, action: int,
                                  fd: int, ip: string, traceId: string, env: LegacyEnv, m: Decoded)
    requires Reaches(listened, env, m)
    ensures DbTrace(Handler(v, listened, handlerNs, packet, action, fd, ip, traceId, env).1)
         == DbTrace(Transact(OpensTransaction(env.keywords), env.database, LegacyCall(listened, m, fd, ip), env.call).1)
  {
    var t := Transact(OpensTransaction(env.keywords), env.database, LegacyCall(listened, m, fd, ip), env.call);
    var cls := handlerNs + "\\" + Ucfirst(m.handlerName);
    var lookups := [CallProtobuf(packet, action), GetKeywords(cls, m.methodName), GetInstance(cls, traceId)];
    var mon := if t.0.Returned? then [LegacyMonitor(LegacyRecordOf(Some(m), SuccessKind(v, listened), ip, traceId, env.toJson))]
               else [];
    var tr := HandlerTry(v, listened, handlerNs, packet, action, fd, ip, traceId, env);
    HandlerTryReached(v, listened, handlerNs, packet, action, fd, ip, traceId, env, m);
    assert tr.1 == lookups + t.1 + mon;
    NoTxNoTrace(lookups);
    NoTxNoTrace(mon);
    DbTraceAppend(lookups, t.1);
    DbTraceAppend(lookups + t.1, mon);
    assert DbTrace(tr.1) == DbTrace(lookups + t.1) + DbTrace(mon);
    assert DbTrace(lookups + t.1) == [] + DbTrace(t.1);
    assert DbTrace(tr.1) == DbTrace(t.1) + [];
    HandlerCatchTrace(tr, listened, ip, traceId, env);
    assert Handler(v, listened, handlerNs, packet, action, fd, ip, traceId, env) == HandlerCatch(tr, listened, ip, traceId, env);
  }

  /**
    Once business code is reached, the database sees: nothing without
    `openTransaction`; begin then commit after a call that returned; begin then
    rollback after a call that threw; a rollback after the commit only when the
    commit threw.
   */
  lemma HandlerTransactions(v: Variant, listened: set<string>, handlerNs: string, packet: Bytes, action: int, fd: int,
                            ip: string, traceId: string, env: LegacyEnv, m: Decoded)
    requires Reaches(listened, env, m)
    ensures var r := Handler(v, listened, handlerNs, packet, action, fd, ip, traceId, env);
            var db := env.database;
            DbTrace(r.1) == if !OpensTransaction(env.keywords) then []
                            else if db.beginError.Some? then [BeginTx]
                            else if env.call.Threw? then [BeginTx, RollbackTx]
                            else if db.commitError.None? then [BeginTx, CommitTx]
                            else [BeginTx, CommitTx, RollbackTx]
  {
    HandlerTraceIsTransaction(v, listened, handlerNs, packet, action, fd, ip, traceId, env, m);
    TransactTrace(OpensTransaction(env.keywords), env.database, LegacyCall(listened, m, fd, ip), env.call);
  }

  /**
    An exception from business code that the transaction does not replace is
    rethrown when it asks for the connection to be closed; any other is logged with
    the trace id and answered by the `error` listener, or ends in the Error for the
    missing return when no `error` listener is registered.
   */
  lemma HandlerCallThrows(v: Variant, listened: set<string>, handlerNs: string, packet: Bytes, action: int, fd: int,
                          ip: string, traceId: string, env: LegacyEnv, m: Decoded, e: Exception)
    requires Reaches(listened, env, m) && env.call == Threw(e)
    requires OpensTransaction(env.keywords) ==> env.database.beginError.None? && env.database.rollbackError.None?
    ensures var r := Handler(v, listened, handlerNs, packet, action, fd, ip, traceId, env);
            && r.0 == (if e.kind == CloseConnection then Threw(e)
                       else if "error" !in listened then Threw(MissingReturn("array"))
                       else if e.kind == Kovey then Returned(env.error("exception"))
                       else Returned(env.error("throwable exception")))
            && (e.kind != CloseConnection ==> LogException(e, Some(traceId)) in r.1)
            && (OpensTransaction(env.keywords) ==> RollbackTx in r.1 && CommitTx !in r.1)
  {
    HandlerCallThrowsOutcome(v, listened, handlerNs, packet, action, fd, ip, traceId, env, m, e);
    if OpensTransaction(env.keywords) {
      var r := Handler(v, listened, handlerNs, packet, action, fd, ip, traceId, env);
      HandlerTransactions(v, listened, handlerNs, packet, action, fd, ip, traceId, env, m);
      assert DbTrace(r.1) == [BeginTx, RollbackTx];
      DbTraceMembers(r.1);
      assert RollbackTx in DbTrace(r.1) && CommitTx !in DbTrace(r.1);
    }
  }

  /** The outcome and the log line of `HandlerCallThrows`. */
  lemma HandlerCallThrowsOutcome(v: Variant, listened: set<string>, handlerNs: string, packet: Bytes, action: int,
                                 fd: int, ip: string, traceId: string, env: LegacyEnv, m: Decoded, e: Exception)
    requires Reaches(listened, env, m) && env.call == Threw(e)
    requires OpensTransaction(env.keywords) ==> env.database.beginError.None? && env.database.rollbackError.None?
    ensures var r := Handler(v, listened, handlerNs, packet, action, fd, ip, traceId, env);
            && r.0 == (if e.kind == CloseConnection then Threw(e)
                       else if "error" !in listened then Threw(MissingReturn("array"))
                       else if e.kind == Kovey then Returned(env.error("exception"))
                       else Returned(env.error("throwable exception")))
            && (e.kind != CloseConnection ==> LogException(e, Some(traceId)) in r.1)
  {
    var t := Transact(OpensTransaction(env.keywords), env.database, LegacyCall(listened, m, fd, ip), env.call);
    var tr := HandlerTry(v, listened, handlerNs, packet, action, fd, ip, traceId, env);
    HandlerTryReached(v, listened, handlerNs, packet, action, fd, ip, traceId, env, m);
    assert t.0 == Threw(e);
    assert tr.0 == Threw(e);
    assert Handler(v, listened, handlerNs, packet, action, fd, ip, traceId, env) == HandlerCatch(tr, listened, ip, traceId, env);
  }

  /** A call that returns (and commits) gives back the handler's result and ends with a "success" record. */
  lemma HandlerSuccess(listened: set<string>, handlerNs: string, packet: Bytes, action: int, fd: int,
                       ip: string, traceId: string, env: LegacyEnv, m: Decoded)
    requires Reaches(listened, env, m) && env.call.Returned?
    requires OpensTransaction(env.keywords) ==> env.database.beginError.None? && env.database.commitError.None?
    ensures var r := Handler(Corrected, listened, handlerNs, packet, action, fd, ip, traceId, env);
            && r.0 == env.call
            && r.1[|r.1| - 1] == LegacyMonitor(LegacyRecordOf(Some(m), "success", ip, traceId, env.toJson))
            && LegacyCall(listened, m, fd, ip) in r.1
  {
  }

  /**
    As written, a call that returns on the path without a `run_handler` listener is
    recorded with type "exception".
   */
  lemma HandlerSuccessAsWritten(listened: set<string>, handlerNs: string, packet: Bytes, action: int, fd: int,
                                ip: string, traceId: string, env: LegacyEnv, m: Decoded)
    requires Reaches(listened, env, m) && env.call.Returned? && "run_handler" !in listened
    requires OpensTransaction(env.keywords) ==> env.database.beginError.None? && env.database.commitError.None?
    ensures var r := Handler(AsWritten, listened, handlerNs, packet, action, fd, ip, traceId, env);
            && r.0 == env.call
            && r.1[|r.1| - 1] == LegacyMonitor(LegacyRecordOf(Some(m), "exception", ip, traceId, env.toJson))
  {
  }
}
