# TPU causal-LM loader, modelled in Dafny

This project models `TpuModelForCausalLM.from_pretrained`, the loading entry
point of the TPU text-generation server
(`text-generation-inference/server/text_generation_server/modeling.py`). The
class is a thin wrapper around the framework's `AutoModelForCausalLM`; the only
decisions it makes are:

- it declares the accelerator runtime by writing `PJRT_DEVICE=TPU` into the
  process environment, but only when the key is absent;
- it resolves the device: the value of `DBG_DEVICE` when set, otherwise `xla`;
- it loads with a `device_map` hint when the placement extension (accelerate)
  is installed, and otherwise loads without a hint and then moves the model;
- it reconciles the configuration fields `task`, `batch_size` and
  `sequence_length` with the caller's values;
- it always switches to evaluation mode, and compiles with the
  `openxla_eval` backend only when the device is `xla` and `DBG_COMPILE` is set.

Files:

- `wrappers.dfy` — the `Option` datatype standing for Python's `None`-able values.
- `modeling.dfy` — module `Modeling`. The process is a class `Process` whose
  field `environ` is the environment map; `Process.Load` performs the steps of
  `from_pretrained` in order, mutating `environ` and rebinding the model.
  Its postcondition ties the new environment to `RuntimeDeclared` and the
  returned model to `Loaded`. The properties the source promises are
  proved about those two functions, about `ResolveDevice` and about the
  per-field rule `Reconcile`.

A configuration attribute is an `Attr<T> = Missing | Present(Option<T>)`.
This keeps the distinction between an attribute that was never set and one
set to `None`. `getattr(config, name, None)` treats the two alike, and so
does `Lookup`. The model object is a value (`Model`) holding the observable
parts of the object:

- its configuration;
- the device hint the loader received;
- the `PJRT_DEVICE` runtime declared when the first device-aware call ran (the loader with a hint, or the move without one);
- the device its weights sit on;
- its evaluation flag;
- its compile backend.

The loader creates the object and only the caller holds it afterwards, so
value semantics lose nothing here.

## Model

| member | source | states |
|---|---|---|
| `Modeling.RuntimeDeclared` | text-generation-inference/server/text_generation_server/modeling.py:41-43 | afterwards `PJRT_DEVICE` is present. A value that was already there is kept, even one other than `TPU`. An absent key becomes `TPU`. No other key is added, removed or changed |
| `Modeling.ResolveDevice` | text-generation-inference/server/text_generation_server/modeling.py:44-48 | the device is the value of `DBG_DEVICE` when that key is present, and `xla` otherwise |
| `Modeling.Lookup` | text-generation-inference/server/text_generation_server/modeling.py:59-63 | `getattr(config, name, None)`: a present attribute reads as its value, and a missing one as `None` |
| `Modeling.Reconcile` | text-generation-inference/server/text_generation_server/modeling.py:59-64 | the field is always present afterwards. A non-`None` override always wins. A `None` override keeps an existing non-`None` value. A `None` override on a missing or `None` field gives `Present(None)`. The value read back is the override if given, otherwise the old value |
| `Modeling.ReconcileConfig` | text-generation-inference/server/text_generation_server/modeling.py:58-64 | each of `task`, `batch_size` and `sequence_length` is reconciled with its own override by the per-field rule. All three are present afterwards. Every other configuration attribute is unchanged |
| `Modeling.Loaded` | text-generation-inference/server/text_generation_server/modeling.py:41-72 | the returned model sits on the resolved device. With accelerate, the loader got `device_map` equal to that device. Without accelerate, the loader got no hint. The first device-aware call (the loader with a hint, or the move without one) ran with `PJRT_DEVICE` already declared, with the value the set-if-absent write leaves. The configuration is the reconciled one. The model is in eval mode. It is compiled, with backend `openxla_eval`, exactly when the device is `xla` and `DBG_COMPILE` is set |
| `Modeling.Process.Load` | text-generation-inference/server/text_generation_server/modeling.py:32-72 | the step-by-step load leaves the environment equal to `RuntimeDeclared` of the old one. It returns `Loaded` of the old environment and its arguments |
| `Modeling.RuntimeDeclaredIdempotent` | text-generation-inference/server/text_generation_server/modeling.py:41-43 | declaring the runtime a second time changes nothing |
| `Modeling.DebugKeysUntouched` | text-generation-inference/server/text_generation_server/modeling.py:41-48 | `DBG_DEVICE` and `DBG_COMPILE` keep their presence and their values across a load |
| `Modeling.OverrideNeverCompiles` | text-generation-inference/server/text_generation_server/modeling.py:44-69 | when `DBG_DEVICE` is set to something other than `xla`, the model sits on that device and is never compiled |
| `Modeling.ReconcileFieldwise` | text-generation-inference/server/text_generation_server/modeling.py:59-64 | each reconciled field depends only on its own old value and its own override |
| `Modeling.DefaultScenario` | text-generation-inference/server/text_generation_server/modeling.py:41-72 | with an empty environment, no accelerate, and overrides `"generate"`, 4 and 128: the environment gains exactly `PJRT_DEVICE=TPU`. The first device-aware call ran under `PJRT_DEVICE=TPU`. The model is on `xla` and received no hint. It carries exactly those three values, is in eval mode and is not compiled |
| `Modeling.RepeatedLoadsEnv` | text-generation-inference/server/text_generation_server/modeling.py:41-43 | after any number n ≥ 1 of loads in one process, the environment is what the first load left: `PJRT_DEVICE` is never overwritten |
| `Modeling.LoadIgnoresRuntimeWrite` | text-generation-inference/server/text_generation_server/modeling.py:41-72 | a load on the environment a load left builds the same model as a load on the environment before it. The `PJRT_DEVICE` write changes neither the device nor the compile decision |
| `Modeling.RepeatedLoadsModel` | text-generation-inference/server/text_generation_server/modeling.py:41-72 | any later load with the same arguments builds the same model as the first one, by induction on the number of earlier loads |

## Left out

- The weight loading itself (`AutoModelForCausalLM.from_pretrained`) is a foreign library call. `FromPretrained` stands in for it. It returns the checkpoint's configuration and the hint it was given. It places the weights on the hint's device, or on the host (`cpu`) without a hint. The result is not compiled. The mode the framework leaves the model in (the framework itself already calls `eval()`) is the `evalMode` field of the `Pretrained` parameter and is left unconstrained: the model shows that the `eval()` at modeling.py:67 sets it whatever it was. `pretrained_model_name_or_path`, `*model_args` and `**kwargs` are passed through without being inspected, so they are not modelled; what the loader builds from them (the `Pretrained` value) is a parameter instead.
- `is_accelerate_available()` probes the installed packages. Here it is the boolean parameter `accelerateAvailable`.
- `model.to`, `model.eval` and `torch.compile` act on tensors and graphs. Only their observable effects are modelled: the device, the evaluation flag and the compile backend. `torch.compile` returns a new wrapper object; here it is the same model value with the backend recorded.
- Logging (the `logger.info`/`logger.debug` calls) has no effect on behaviour and is left out.
- Concurrent loads are left out. The environment read-modify-write is not guarded by a lock, and the model is sequential.
- Errors raised by the framework loader, the device move or the compiler propagate unchanged to the caller. The model covers only the successful path.
- With accelerate installed, a caller who also passes `device_map` in `**kwargs` makes the call at modeling.py:50-52 fail with Python's `TypeError` (multiple values for one keyword argument). Pass-through arguments are not modelled, so this error path is not either.
- The foreign calls (`AutoModelForCausalLM.from_pretrained`, `model.to`) are assumed not to write the process environment. modeling.py:68 reads `environ` again after they have run; `Process.Load` gets the same environment as before them only because `FromPretrained` is a pure function. The `PJRT_DEVICE` that the first device-aware call (the loader with a hint, or the move without one) runs under is recorded in the model's `loaderRuntime`, so the write-before-use order of modeling.py:41-57 is part of `Loaded`'s contract.
- Configuration attributes other than the three reconciled fields are an uninterpreted map of strings. The model shows they are unchanged, not what they contain.
