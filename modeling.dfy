/**
  The loading entry point of the TPU causal-language-model wrapper:
  `TpuModelForCausalLM.from_pretrained` in
  text-generation-inference/server/text_generation_server/modeling.py.

  The call declares the accelerator runtime in the process environment,
  resolves the target device, asks the framework loader for the model (with a
  device-map hint when the placement extension is installed, otherwise by a
  later move), reconciles three inference fields of the model configuration,
  switches the model to evaluation mode and optionally compiles it.
 */
module Modeling {
  import opened Wrappers

  // Environment keys and fixed tokens used by the loader.
  const PjrtDevice := "PJRT_DEVICE"
  const DbgDevice := "DBG_DEVICE"
  const DbgCompile := "DBG_COMPILE"
  /** The runtime declared when PJRT_DEVICE is absent. */
  const TpuRuntime := "TPU"
  /** The canonical accelerator device identity. */
  const XlaDevice := "xla"
  /** The compilation backend used for the accelerator. */
  const OpenXlaEval := "openxla_eval"
  /** Where the framework loader leaves the weights when it is given no device hint. */
  const HostDevice := "cpu"

  type Env = map<string, string>

  /**
    An attribute of the loosely-typed configuration object: either not set at
    all, or set to a value that may itself be `None`.
   */
  datatype Attr<T> = Missing | Present(value: Option<T>)

  /** `getattr(config, name, None)`: a missing attribute reads as `None`. */
  function Lookup<T>(a: Attr<T>): (r: Option<T>)
    ensures a.Missing? ==> r.None?
    ensures a.Present? ==> r == a.value
  {
    match a
    case Missing => None
    case Present(v) => v
  }

  /**
    The model configuration: the three fields the loader reconciles, and every
    other attribute, which the loader never touches.
   */
  datatype Config = Config(
    task: Attr<string>,
    batchSize: Attr<int>,
    sequenceLength: Attr<int>,
    others: map<string, string>)

  /**
    The observable state of the model object: its configuration, the device
    hint the framework loader received, the PJRT_DEVICE runtime declared when
    the first device-aware call ran (the loader with a hint, or the move
    without one), the device its weights sit on, whether
    it is in evaluation mode, and the backend it was compiled with, if any.
   */
  datatype Model = Model(
    config: Config,
    loaderHint: Option<string>,
    loaderRuntime: Option<string>,
    device: string,
    evalMode: bool,
    compileBackend: Option<string>)

  /**
    What the framework's loader builds from the model identifier and the
    pass-through arguments: the configuration read from the checkpoint, and
    the mode (evaluation or training) the loader leaves the module in. The
    load does not rely on that mode: it calls `eval()` whatever it is.
   */
  datatype Pretrained = Pretrained(config: Config, evalMode: bool)

  /**
    The framework's `AutoModelForCausalLM.from_pretrained`, reduced to what this
    core observes: `env` is the environment at the point of the call, and its
    PJRT_DEVICE is the runtime the first device-aware call (this loader with a
    hint, or the move that follows it without one) runs under, since neither
    call writes the environment; with a `device_map` hint the weights land
    on that device, without one they stay on the host; the result is not
    compiled.
   */
  function FromPretrained(pretrained: Pretrained, deviceMap: Option<string>, env: Env): Model
  {
    Model(pretrained.config, deviceMap,
          if PjrtDevice in env then Some(env[PjrtDevice]) else None,
          if deviceMap.Some? then deviceMap.value else HostDevice,
          pretrained.evalMode, None)
  }

  /** The environment after the set-if-absent write of PJRT_DEVICE. */
  function RuntimeDeclared(env: Env): (r: Env)
    ensures PjrtDevice in r
    ensures PjrtDevice in env ==> r[PjrtDevice] == env[PjrtDevice]
    ensures PjrtDevice !in env ==> r[PjrtDevice] == TpuRuntime
    ensures r - {PjrtDevice} == env - {PjrtDevice}
  {
    if PjrtDevice in env then env else env[PjrtDevice := TpuRuntime]
  }

  /** The device identity: the DBG_DEVICE override when set, otherwise the accelerator. */
  function ResolveDevice(env: Env): (d: string)
    ensures DbgDevice in env ==> d == env[DbgDevice]
    ensures DbgDevice !in env ==> d == XlaDevice
  {
    if DbgDevice in env then env[DbgDevice] else XlaDevice
  }

  /**
    The per-field rule: the caller's value is written when it is not `None` or
    when the existing attribute reads as `None`; otherwise the field is kept.
   */
  function Reconcile<T>(existing: Attr<T>, override: Option<T>): (r: Attr<T>)
    ensures r.Present?
    ensures override.Some? ==> r == Present(override)
    ensures override.None? && Lookup(existing).Some? ==> r == existing
    ensures override.None? && Lookup(existing).None? ==> r == Present(None)
    ensures Lookup(r) == if override.Some? then override else Lookup(existing)
  {
    if override.Some? || Lookup(existing).None? then Present(override) else existing
  }

  /** The configuration after the three fields are reconciled, each on its own. */
  function ReconcileConfig(c: Config, task: Option<string>, batchSize: Option<int>,
                           sequenceLength: Option<int>): (r: Config)
    ensures r.task == Reconcile(c.task, task)
    ensures r.batchSize == Reconcile(c.batchSize, batchSize)
    ensures r.sequenceLength == Reconcile(c.sequenceLength, sequenceLength)
    ensures r.task.Present? && r.batchSize.Present? && r.sequenceLength.Present?
    ensures r.others == c.others
  {
    c.(task := Reconcile(c.task, task),
       batchSize := Reconcile(c.batchSize, batchSize),
       sequenceLength := Reconcile(c.sequenceLength, sequenceLength))
  }

  /**
    The model a load returns, given the environment before the call, the
    outcome of the placement-extension probe, what the framework loader
    builds, and the caller's three overrides.
   */
  function Loaded(env: Env, accelerateAvailable: bool, pretrained: Pretrained,
                  task: Option<string>, batchSize: Option<int>,
                  sequenceLength: Option<int>): (m: Model)
    ensures m.device == ResolveDevice(env)
    ensures accelerateAvailable ==> m.loaderHint == Some(ResolveDevice(env))
    ensures !accelerateAvailable ==> m.loaderHint == None
    ensures m.loaderRuntime == Some(RuntimeDeclared(env)[PjrtDevice])
    ensures m.config == ReconcileConfig(pretrained.config, task, batchSize, sequenceLength)
    ensures m.evalMode
    ensures m.compileBackend.Some? <==> ResolveDevice(env) == XlaDevice && DbgCompile in env
    ensures m.compileBackend.Some? ==> m.compileBackend.value == OpenXlaEval
  {
    var device := ResolveDevice(RuntimeDeclared(env));
    var built := FromPretrained(pretrained, if accelerateAvailable then Some(device) else None,
                                RuntimeDeclared(env));
    var placed := if accelerateAvailable then built else built.(device := device);
    var configured := placed.(config := ReconcileConfig(placed.config, task, batchSize, sequenceLength));
    var evaluated := configured.(evalMode := true);
    if device == XlaDevice && DbgCompile in RuntimeDeclared(env)
    then evaluated.(compileBackend := Some(OpenXlaEval))
    else evaluated
  }

  /** The process whose environment the loader reads and writes. */
  class Process {
    var environ: Env

    constructor (environ: Env)
      ensures this.environ == environ
    {
      this.environ := environ;
    }

    /** `TpuModelForCausalLM.from_pretrained`, step by step. */
    method Load(accelerateAvailable: bool, pretrained: Pretrained, task: Option<string>,
                batchSize: Option<int>, sequenceLength: Option<int>) returns (model: Model)
      modifies this
      ensures environ == RuntimeDeclared(old(environ))
      ensures model == Loaded(old(environ), accelerateAvailable, pretrained, task, batchSize, sequenceLength)
    {
      if PjrtDevice !in environ {
        environ := environ[PjrtDevice := TpuRuntime];
      }
      assert environ == RuntimeDeclared(old(environ));
      var device: string;
      if DbgDevice in environ {
        device := environ[DbgDevice];
      } else {
        device := XlaDevice;
      }
      assert device == ResolveDevice(environ);
      if accelerateAvailable {
        model := FromPretrained(pretrained, Some(device), environ);
      } else {
        model := FromPretrained(pretrained, None, environ);
        model := model.(device := device);
      }
      var config := model.config;
      config := config.(task := Reconcile(config.task, task));
      config := config.(batchSize := Reconcile(config.batchSize, batchSize));
      config := config.(sequenceLength := Reconcile(config.sequenceLength, sequenceLength));
      assert config == ReconcileConfig(pretrained.config, task, batchSize, sequenceLength);
      model := model.(config := config);
      model := model.(evalMode := true);
      if device == XlaDevice && DbgCompile in environ {
        model := model.(compileBackend := Some(OpenXlaEval));
      }
    }
  }

  // ---------------------------------------------------------------------------
  // Properties of one call

  /** A second declaration changes nothing: PJRT_DEVICE is set at most once. */
  lemma RuntimeDeclaredIdempotent(env: Env)
    ensures RuntimeDeclared(RuntimeDeclared(env)) == RuntimeDeclared(env)
  {
  }

  /** The only key written is PJRT_DEVICE; the debug keys keep their presence and value. */
  lemma DebugKeysUntouched(env: Env)
    ensures DbgDevice in RuntimeDeclared(env) <==> DbgDevice in env
    ensures DbgDevice in env ==> RuntimeDeclared(env)[DbgDevice] == env[DbgDevice]
    ensures DbgCompile in RuntimeDeclared(env) <==> DbgCompile in env
    ensures DbgCompile in env ==> RuntimeDeclared(env)[DbgCompile] == env[DbgCompile]
  {
    assert DbgDevice != PjrtDevice && DbgCompile != PjrtDevice;
    assert RuntimeDeclared(env) - {PjrtDevice} == env - {PjrtDevice};
  }

  /** A device override other than the accelerator identity never compiles. */
  lemma OverrideNeverCompiles(env: Env, accelerateAvailable: bool, pretrained: Pretrained,
                              task: Option<string>, batchSize: Option<int>,
                              sequenceLength: Option<int>)
    requires DbgDevice in env && env[DbgDevice] != XlaDevice
    ensures Loaded(env, accelerateAvailable, pretrained, task, batchSize, sequenceLength).compileBackend == None
    ensures Loaded(env, accelerateAvailable, pretrained, task, batchSize, sequenceLength).device == env[DbgDevice]
  {
  }

  /**
    Each reconciled field depends only on its own existing value and its own
    override: changing anything else leaves it as it was.
   */
  lemma ReconcileFieldwise(c1: Config, c2: Config, t1: Option<string>, t2: Option<string>,
                           b1: Option<int>, b2: Option<int>, s1: Option<int>, s2: Option<int>)
    ensures c1.task == c2.task && t1 == t2 ==>
      ReconcileConfig(c1, t1, b1, s1).task == ReconcileConfig(c2, t2, b2, s2).task
    ensures c1.batchSize == c2.batchSize && b1 == b2 ==>
      ReconcileConfig(c1, t1, b1, s1).batchSize == ReconcileConfig(c2, t2, b2, s2).batchSize
    ensures c1.sequenceLength == c2.sequenceLength && s1 == s2 ==>
      ReconcileConfig(c1, t1, b1, s1).sequenceLength == ReconcileConfig(c2, t2, b2, s2).sequenceLength
  {
  }

  /**
    A sample load: an empty environment, no placement extension and the
    overrides task "generate", batch size 4, sequence length 128.
   */
  lemma DefaultScenario(pretrained: Pretrained)
    ensures RuntimeDeclared(map[]) == map[PjrtDevice := TpuRuntime]
    ensures Loaded(map[], false, pretrained, Some("generate"), Some(4), Some(128))
         == Model(pretrained.config.(task := Present(Some("generate")),
                                     batchSize := Present(Some(4)),
                                     sequenceLength := Present(Some(128))),
                  None, Some(TpuRuntime), XlaDevice, true, None)
  {
  }

  // ---------------------------------------------------------------------------
  // Properties of repeated calls in one process

  /** The environment after `n` loads, starting from `env`. */
  ghost function EnvAfterLoads(env: Env, n: nat): Env
  {
    if n == 0 then env else RuntimeDeclared(EnvAfterLoads(env, n - 1))
  }

  /** However many loads follow the first, the environment stays as the first left it. */
  lemma {:induction false} RepeatedLoadsEnv(env: Env, n: nat)
    requires n >= 1
    ensures EnvAfterLoads(env, n) == RuntimeDeclared(env)
  {
    if n > 1 {
      RepeatedLoadsEnv(env, n - 1);
      RuntimeDeclaredIdempotent(env);
    }
  }

  /**
    The one write a load makes, PJRT_DEVICE, changes neither the device nor the
    compile decision, so a load on the environment a load left builds the same
    model as a load on the environment before it.
   */
  lemma LoadIgnoresRuntimeWrite(env: Env, accelerateAvailable: bool,
                                pretrained: Pretrained, task: Option<string>,
                                batchSize: Option<int>, sequenceLength: Option<int>)
    ensures Loaded(RuntimeDeclared(env), accelerateAvailable, pretrained, task, batchSize, sequenceLength)
         == Loaded(env, accelerateAvailable, pretrained, task, batchSize, sequenceLength)
  {
    DebugKeysUntouched(env);
  }

  /** Any later load with the same arguments builds the same model as the first. */
  lemma {:induction false} RepeatedLoadsModel(env: Env, n: nat, accelerateAvailable: bool,
                                              pretrained: Pretrained, task: Option<string>,
                                              batchSize: Option<int>, sequenceLength: Option<int>)
    ensures Loaded(EnvAfterLoads(env, n), accelerateAvailable, pretrained, task, batchSize, sequenceLength)
         == Loaded(env, accelerateAvailable, pretrained, task, batchSize, sequenceLength)
  {
    if n >= 1 {
      RepeatedLoadsModel(env, n - 1, accelerateAvailable, pretrained, task, batchSize, sequenceLength);
      LoadIgnoresRuntimeWrite(EnvAfterLoads(env, n - 1), accelerateAvailable, pretrained,
                              task, batchSize, sequenceLength);
    }
  }
}
