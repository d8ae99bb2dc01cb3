# AcceleratorConnector, modelled in Dafny

PyTorch Lightning's `AcceleratorConnector` turns the trainer's flags into a
training set-up. It reads the process count, GPU ids, TPU cores, IPUs, node
count, backend name, precision, AMP type and the `plugins` list. It then
decides five things in a fixed order:

- the device kind (CPU, GPU, TPU or IPU);
- the distributed kind (a `DistributedType` or none);
- the cluster environment;
- the training-type plugin (the strategy);
- the precision plugin.

It raises `MisconfigurationException` or `NotImplementedError` when the flags
conflict. It then builds an accelerator from the chosen plugins, unless the
user passed an `Accelerator` instance.

The model has two layers.

- **Resolution.dfy** states every decision step as a function of the
  connector's fields. The fields are a `ConnectorState` value. The process
  environment and library facts are an `Env` value. A raised exception is a
  `Failure(Error)`.
- **Connector.dfy** is the connector itself: a class `AcceleratorConnector`
  whose methods update its fields in place, as the Python methods do. Each
  method is proved to leave the fields equal to the matching Resolution
  function applied to the old fields, or to raise that function's error.
  `HandleGivenPlugins` keeps the Python loop, with an invariant that ties the
  three loop accumulators to the function.

What the connector promises is proved about the Resolution functions:

- **ModeProperties.dfy**: `set_distributed_mode` and `configure_slurm_ddp`.
- **ClassifierProperties.dfy**: `handle_given_plugins`.
- **SelectorProperties.dfy**: strategy, back-fill, memoization and precision.
- **ConnectorProperties.dfy**: the whole constructor.
- **Findings.dfy**: three places where the code departs from its evident
  intent, each as written and corrected (see "## Findings").

Supporting files:

- Wrappers.dfy: Option, Result and Outcome.
- Text.dfy: Python's `in` on strings, and `int()` on decimal text.
- Kinds.dfy: the `DeviceType`, `DistributedType` and `AMPType` enumerations.
- Plugins.dfy: plugins, devices, cluster environments and accelerators, as
  tags that carry only the attributes the connector reads or writes.

Each training-type plugin attribute is a `Slot`:

- `Missing` means `hasattr` is false;
- `Unset` means the attribute holds `None`;
- `Held(v)` means it holds `v`.

Warnings are recorded in order in a `warnings` sequence.

All source paths below are in the PyTorch Lightning repository.

## Model

| member | source | states |
|---|---|---|
| Connector.AcceleratorConnector.constructor | pytorch_lightning/trainer/connectors/accelerator_connector.py:103-140 | The fields start at CPU, no distributed kind, no plugins, not SLURM-managed and unresolved. The plugins argument is normalised to a list. |
| Connector.AcceleratorConnector.Create | pytorch_lightning/trainer/connectors/accelerator_connector.py:142-152 | Runs the constructor's steps in order: mode, SLURM, plugins, reset of the resolved flag, accelerator, TPU backend override. It ends with the fields and accelerator `Initialize` gives, or raises its error. |
| Connector.AcceleratorConnector.SetDistributedMode | pytorch_lightning/trainer/connectors/accelerator_connector.py:552-652 | Updates the fields in place exactly as `Resolution.SetDistributedMode` describes, or raises its error. |
| Connector.AcceleratorConnector.FinishMode | pytorch_lightning/trainer/connectors/accelerator_connector.py:598-652 | Promotion to GPU, the GPU guard, the interactive check, process counts, Horovod, the multi-node check and the unused-GPU warning, applied in place. |
| Connector.AcceleratorConnector.ChooseWithoutBackend | pytorch_lightning/trainer/connectors/accelerator_connector.py:565-575 | The in-place choice made when no backend was given. |
| Connector.AcceleratorConnector.ApplyBackendName | pytorch_lightning/trainer/connectors/accelerator_connector.py:577-596 | The in-place `ddp_cpu`, TPU and IPU special cases, else the `DistributedType` parse of the backend name. Raises on an unknown name. |
| Connector.AcceleratorConnector.PromoteToGpu | pytorch_lightning/trainer/connectors/accelerator_connector.py:598-601 | Sets the device kind to GPU when GPU ids exist and the backend name has no "cpu". |
| Connector.AcceleratorConnector.DowngradeWithoutGpus | pytorch_lightning/trainer/connectors/accelerator_connector.py:603-614 | The zero-GPU downgrade, in place. |
| Connector.AcceleratorConnector.OverrideProcessCount | pytorch_lightning/trainer/connectors/accelerator_connector.py:619-627 | GPU DDP and DDP-spawn set the process count to the GPU count. GPU DDP2 sets it to the node count. |
| Connector.AcceleratorConnector.WarnUnusedGpu | pytorch_lightning/trainer/connectors/accelerator_connector.py:648-652 | Records the warning when CUDA is available and the device kind is not GPU. |
| Connector.AcceleratorConnector.SetHorovodBackend | pytorch_lightning/trainer/connectors/accelerator_connector.py:654-664 | Runs the Horovod guard, then selects Horovod. It sets the GPU ids to the local ranks on GPU, and the process count to the local size otherwise. |
| Connector.AcceleratorConnector.ConfigureSlurmDdp | pytorch_lightning/trainer/connectors/accelerator_connector.py:698-732 | Only the SLURM flag changes, as `Resolution.ConfigureSlurmDdp` describes. |
| Connector.AcceleratorConnector.HandleGivenPlugins | pytorch_lightning/trainer/connectors/accelerator_connector.py:173-227 | The plugin loop with its three accumulators. Every step keeps the invariant that finishing from here gives `Resolution.HandleGivenPlugins`. |
| Connector.AcceleratorConnector.ResolvedTrainingTypePlugin | pytorch_lightning/trainer/connectors/accelerator_connector.py:235-245 | The memoized `training_type_plugin` property: returns and stores what `TrainingTypeProperty` gives, and keeps the resolved-implies-stored invariant. |
| Connector.AcceleratorConnector.SelectPrecisionPlugin | pytorch_lightning/trainer/connectors/accelerator_connector.py:369-423 | Precision selection, including the in-place switch to Apex and the strategy it resolves on the way. |
| Connector.AcceleratorConnector.ResolvedPrecisionPlugin | pytorch_lightning/trainer/connectors/accelerator_connector.py:229-233 | The memoized `precision_plugin` property. |
| Connector.AcceleratorConnector.SelectAccelerator | pytorch_lightning/trainer/connectors/accelerator_connector.py:513-537 | A custom accelerator is returned with its warning. Otherwise the accelerator class follows the device, and the strategy is resolved before the precision plugin. |
| Resolution.InitialState | pytorch_lightning/trainer/connectors/accelerator_connector.py:102-134 | The initial fields are valid, on CPU, with no distributed kind and not SLURM-managed. |
| Resolution.ParallelDevices | pytorch_lightning/trainer/connectors/accelerator_connector.py:329-343 | On GPU, one CUDA device per GPU id, in order. Off GPU, TPU and IPU, there are as many CPU devices as processes (none for a negative count), and it raises exactly when the process count is `None`. |
| Resolution.SelectClusterEnvironment | pytorch_lightning/trainer/connectors/accelerator_connector.py:539-550 | A stored environment wins. Otherwise SLURM is chosen exactly when SLURM manages the tasks, then TorchElastic, Kubeflow and Lightning, each exactly when every earlier condition fails. It never fails. |
| Resolution.ConfigureSlurmDdp | pytorch_lightning/trainer/connectors/accelerator_connector.py:698-728 | Nothing but the SLURM flag changes. |
| Resolution.ResolveTrainingTypePlugin | pytorch_lightning/trainer/connectors/accelerator_connector.py:493-511 | Back-fill keeps the class. Unset devices are filled, and then the process count becomes their number. An unset cluster environment is selected. Node count and batch-norm sync are always overwritten when present. It raises only where the devices cannot be computed. |
| Resolution.TrainingTypeProperty | pytorch_lightning/trainer/connectors/accelerator_connector.py:235-245 | A successful read changes only the stored strategy, to the one returned, and marks it resolved. |
| Text.ParseIntOfDecimal | pytorch_lightning/trainer/connectors/accelerator_connector.py:706 | `int()` of a decimal numeral, signed or not, gives the number back. |
| Kinds.ParseKindName | pytorch_lightning/trainer/connectors/accelerator_connector.py:596 | Parsing any `DistributedType` value's own name gives that member back. |
| ModeProperties.SetDistributedModeKeepsChoices | pytorch_lightning/trainer/connectors/accelerator_connector.py:552-652 | `set_distributed_mode` never touches settings, plugins, cluster environment, AMP type or the SLURM flag. It only appends warnings. |
| ModeProperties.FinishModeFacts | pytorch_lightning/trainer/connectors/accelerator_connector.py:598-652 | After the final steps return normally, three things hold: the multi-node check, GPU kinds having GPUs (or a "cpu" backend), and process counts following devices. |
| ModeProperties.MultiNodeNeedsDdp | pytorch_lightning/trainer/connectors/accelerator_connector.py:633-639 | A call that infers a mode either raises or ends with at most one node, or a DDP-family or DDP2 kind. |
| ModeProperties.ProcessCountFollowsDevices | pytorch_lightning/trainer/connectors/accelerator_connector.py:619-627 | On GPU, DDP and DDP-spawn end with one process per GPU, and DDP2 with one per node. |
| ModeProperties.NamedGpuKindWithoutGpus | pytorch_lightning/trainer/connectors/accelerator_connector.py:603-614 | Naming DP, DDP, DDP-spawn or DDP2 with no GPU ids gives DDP, with a warning, when there are several nodes or processes, and no kind, with two warnings, otherwise. The device kind is kept. It raises exactly when the resulting DDP is not interactive-compatible in an interactive session. |
| ModeProperties.GpuKindsKeepGpus | pytorch_lightning/trainer/connectors/accelerator_connector.py:603-614 | After a call that infers a mode, DP, DDP-spawn and DDP2 without GPUs remain only under a "cpu" backend. |
| ModeProperties.AutomaticHorovod | pytorch_lightning/trainer/connectors/accelerator_connector.py:565-567 | With no backend and a horovodrun environment, the kind is Horovod. It raises exactly when Horovod is missing, GPUs or nodes exceed one, or the session is interactive and Horovod is not interactive-compatible. |
| ModeProperties.HorovodrunWithTpuCores | pytorch_lightning/trainer/connectors/accelerator_connector.py:588-592 | With a horovodrun launch and a TPU core count, the Horovod checks still apply and the process count becomes the Horovod local size, but the run ends as TPU-spawn on the TPU device. It raises exactly when Horovod is missing, there are several nodes, or TPU-spawn is not interactive-compatible in an interactive session. |
| ModeProperties.AutomaticCpuDdp | pytorch_lightning/trainer/connectors/accelerator_connector.py:568-569 | With no backend, no GPUs and several nodes or processes, the kind is DDP on the same device. It raises exactly when DDP is not interactive-compatible in an interactive session. |
| ModeProperties.AutomaticMultiGpuSpawn | pytorch_lightning/trainer/connectors/accelerator_connector.py:570-575 | With no backend and several GPUs, the result uses DDP-spawn: backend "ddp_spawn", device GPU, one process per GPU, and the warning recorded. |
| ModeProperties.AutomaticSingleDevice | pytorch_lightning/trainer/connectors/accelerator_connector.py:565-575 | With no backend and at most one GPU (or one process on CPU), no distributed kind is chosen. It raises exactly when there are several nodes. |
| ModeProperties.DdpCpuBackend | pytorch_lightning/trainer/connectors/accelerator_connector.py:578-587 | A "ddp_cpu" backend gives DDP-spawn. GPU ids are dropped with a warning. A non-GPU device is kept, and its process count becomes the CPU count only when it was `None`. It raises only on the interactive check. |
| ModeProperties.DdpCpuAfterGpuKeepsGpuDevice | pytorch_lightning/trainer/connectors/accelerator_connector.py:189-193 | As written (see Findings): a "ddp_cpu" plugin string seen after GPU was chosen keeps the GPU device kind with no GPU ids, and sets the process count to 0. |
| ModeProperties.SlurmDetection | pytorch_lightning/trainer/connectors/accelerator_connector.py:698-728 | Under DDP or DDP2, the SLURM flag is set exactly when all of these hold: the task count parses, the job name is present and not "bash", and the count matches the requested GPUs over all nodes (or the processes when that is zero). A nonzero fake flag forces it. Otherwise the flag is kept. |
| ModeProperties.SlurmBashJobNotManaged | pytorch_lightning/trainer/connectors/accelerator_connector.py:714-716 | A "bash" job is never SLURM-managed unless faked. |
| ModeProperties.SlurmMatchingTasksManaged | pytorch_lightning/trainer/connectors/accelerator_connector.py:702-716 | Under DDP or DDP2, a decimal `SLURM_NTASKS` matching the GPUs over all nodes, with a job name other than "bash", makes SLURM manage the tasks, whatever else the environment holds. |
| ClassifierProperties.ClassifyHintKeepsTaken | pytorch_lightning/trainer/connectors/accelerator_connector.py:179-223 | A filled accumulator stays filled, and a further hint of its category raises. |
| ClassifierProperties.ClassifyHintTakes | pytorch_lightning/trainer/connectors/accelerator_connector.py:179-215 | An accepted hint fills its category's accumulator. |
| ClassifierProperties.LaterHintOfTakenCategoryFails | pytorch_lightning/trainer/connectors/accelerator_connector.py:179-219 | Once a category is taken, any later hint of that category makes the loop raise. |
| ClassifierProperties.TwoHintsOfOneCategoryFail | pytorch_lightning/trainer/connectors/accelerator_connector.py:179-219 | Two hints of one category anywhere in the list make the loop raise. |
| ClassifierProperties.ConflictingHintsFail | pytorch_lightning/trainer/connectors/accelerator_connector.py:179-219 | `handle_given_plugins` raises on two training-type hints (registered strings or plugin objects), two precision plugins or two cluster environments. |
| ClassifierProperties.InvalidHintFails | pytorch_lightning/trainer/connectors/accelerator_connector.py:220-223 | A plugin of no known type makes `handle_given_plugins` raise. |
| ClassifierProperties.FoundPrecision | pytorch_lightning/trainer/connectors/accelerator_connector.py:204-211 | The loop ends with a precision plugin exactly when the list has one, and it is that plugin. |
| ClassifierProperties.FoundClusterEnvironment | pytorch_lightning/trainer/connectors/accelerator_connector.py:213-219 | The loop ends with a cluster environment exactly when the list has one, and it is that environment. |
| ClassifierProperties.FoundTrainingType | pytorch_lightning/trainer/connectors/accelerator_connector.py:180-203 | The loop ends with a strategy exactly when the list has a training-type hint. It is that plugin object, or the registry's plugin for that string. |
| ClassifierProperties.ClassifyKeepsChoices | pytorch_lightning/trainer/connectors/accelerator_connector.py:189-193 | The string plugins' re-runs of `set_distributed_mode` leave the SLURM flag, the stored cluster environment and the other plugin choices alone. |
| ClassifierProperties.StoredHints | pytorch_lightning/trainer/connectors/accelerator_connector.py:179-227 | After a normal return, the stored strategy, precision plugin and cluster environment are the ones hinted. Without a hinted cluster environment, the stored one is what `select_cluster_environment` picks for the fields on entry. No category was hinted twice, and no invalid plugin was given. |
| SelectorProperties.DdpPluginPrecedence | pytorch_lightning/trainer/connectors/accelerator_connector.py:439-474 | Each DDP plugin class is chosen exactly when its own condition holds and no earlier one does. The order is TPU-spawn, sharded, sharded-spawn, external launcher (plain DDP), spawn or CPU (DDP-spawn), fully sharded, then plain DDP. |
| SelectorProperties.SelectedStrategyKind | pytorch_lightning/trainer/connectors/accelerator_connector.py:430-491 | The plugin class each mode selects, with the cluster environment it is given. A parallel plugin holds the parallel devices, or the selector raises their error. An empty TPU core list raises. A single device is `cuda:<first id>` on GPU and CPU otherwise. |
| SelectorProperties.CustomAcceleratorStrategy | pytorch_lightning/trainer/connectors/accelerator_connector.py:426-429 | A custom accelerator's own strategy is selected unchanged. |
| SelectorProperties.BackFillIdempotent | pytorch_lightning/trainer/connectors/accelerator_connector.py:493-511 | Back-filling a back-filled strategy changes nothing. |
| SelectorProperties.TrainingTypeMemoized | pytorch_lightning/trainer/connectors/accelerator_connector.py:235-245 | A resolved strategy is returned without selection or back-fill, and nothing changes. After a successful first read, a second read returns the same strategy and fields. |
| SelectorProperties.StoredStrategyBackFilled | pytorch_lightning/trainer/connectors/accelerator_connector.py:240-243 | A strategy stored before the first read keeps its class and held attributes. It only gets the trainer's node count and batch-norm sync, and cannot fail when its devices are set. |
| SelectorProperties.PrecisionSelectionOrder | pytorch_lightning/trainer/connectors/accelerator_connector.py:373-385 | The order is IPU, DeepSpeed (by kind or plugin class), 32, 64, then 16 on TPU. Other bit-widths raise, and so does 16 with no AMP type. |
| SelectorProperties.NativeHalfPrecision | pytorch_lightning/trainer/connectors/accelerator_connector.py:387-407 | Native AMP raises on CPU, and raises with neither native AMP nor Apex available. When available, it gives the sharded, fully sharded or plain native plugin according to the resolved strategy. |
| SelectorProperties.NativeFallsBackToApex | pytorch_lightning/trainer/connectors/accelerator_connector.py:392-398 | Unavailable native AMP with Apex installed switches the AMP type to Apex with a warning, and follows the Apex path. |
| SelectorProperties.ApexHalfPrecision | pytorch_lightning/trainer/connectors/accelerator_connector.py:409-421 | Apex raises when not installed, and raises with a sharded or fully sharded strategy. Otherwise it gives the Apex plugin at the requested level. |
| SelectorProperties.PrecisionKeepsMode | pytorch_lightning/trainer/connectors/accelerator_connector.py:369-423 | Precision selection changes only the strategy and its resolved flag, the AMP type and the warnings. A resolved strategy is kept. |
| SelectorProperties.PrecisionMemoized | pytorch_lightning/trainer/connectors/accelerator_connector.py:229-233 | A stored precision plugin is returned as is. A successful first read stores its choice, so a second read returns it unchanged. |
| ConnectorProperties.ClassifyWithoutNames | pytorch_lightning/trainer/connectors/accelerator_connector.py:179-223 | Without string plugins, the loop leaves the fields alone and raises only conflict or invalid-plugin errors. |
| ConnectorProperties.ClassifyKeepsMultiNode | pytorch_lightning/trainer/connectors/accelerator_connector.py:189-193 | The loop preserves the multi-node check, or establishes it through a string plugin's re-run of `set_distributed_mode`. |
| ConnectorProperties.ModeKeepsNamedBackend | pytorch_lightning/trainer/connectors/accelerator_connector.py:557-575 | `set_distributed_mode` never turns a named or absent backend into a custom accelerator. |
| ConnectorProperties.InitializeMultiNodeNeedsDdp | pytorch_lightning/trainer/connectors/accelerator_connector.py:142-148 | Without a custom accelerator, a successful construction on several nodes ends in a DDP-family or DDP2 kind. |
| ConnectorProperties.InitializeBuildsAccelerator | pytorch_lightning/trainer/connectors/accelerator_connector.py:142-152 | Without a custom accelerator, the accelerator's class follows the final device. It is built from the stored, resolved strategy and the stored precision plugin. On TPU the backend name ends as "tpu". |
| ConnectorProperties.CustomAcceleratorBypass | pytorch_lightning/trainer/connectors/accelerator_connector.py:513-522 | A custom accelerator with no string plugins is returned unchanged. No mode is inferred and the strategy stays unresolved. The only errors are the plugin loop's. The "plugins ignored" warning appears exactly when a strategy or precision plugin was passed. |
| Findings.StringPluginReplacesAccelerator | pytorch_lightning/trainer/connectors/accelerator_connector.py:557-563 | As written (see Findings): with a custom accelerator and the plugin string "ddp", construction succeeds with a built CPU accelerator, the backend "ddp", and no plugins-ignored warning. |
| Findings.AcceleratorKeptThroughPlugins | pytorch_lightning/trainer/connectors/accelerator_connector.py:513-522 | Corrected check order: a custom accelerator is returned whatever the plugins, with no mode and an unresolved strategy. The plugins-ignored warning appears exactly when a strategy, registered name or precision plugin was passed. The only errors are the plugin loop's. |
| Findings.KeepingAcceleratorAgrees | pytorch_lightning/trainer/connectors/accelerator_connector.py:142-152 | The corrected check order changes nothing for any backend other than a custom accelerator. |
| Findings.SlurmCheckedBeforePlugins | pytorch_lightning/trainer/connectors/accelerator_connector.py:142-147 | As written (see Findings): GPU 0 with the plugin string "ddp" in a matching one-task SLURM job ends as DDP with the SLURM flag off and the Lightning environment, though the SLURM check on the final fields sets the flag. |
| Findings.SlurmFlagFollowsFinalMode | pytorch_lightning/trainer/connectors/accelerator_connector.py:142-147 | With the SLURM check run after the plugin loop, the final fields are unchanged by a further SLURM check, and a SLURM-managed run with no given environment gets the SLURM environment. |
| Findings.DdpCpuPluginRunsOnCpu | pytorch_lightning/trainer/connectors/accelerator_connector.py:578-587 | With the device kind reset along with the distributed kind, a "ddp_cpu" plugin string gives DDP-spawn on the CPU with no GPU ids, and the given process count or the CPU count. |

## Left out

- Environment access is an input value (`Env`) rather than a read. This covers:
  - `os.environ`;
  - `torch.cuda.is_available()`;
  - the `_*_AVAILABLE` and `_IS_INTERACTIVE` flags;
  - the TorchElastic and Kubeflow probes;
  - `os.cpu_count()`;
  - `hvd.local_size()`.

  `hvd.init()` itself is not modelled.
- Process-wide side effects are not modelled: the cuDNN `benchmark` and `deterministic` flags and the `HOROVOD_FUSION_THRESHOLD` write (lines 154-171). The same goes for `world_size`, `interactive_ddp_procs`, `global_rank` and `replace_sampler_ddp`, which are only stored.
- `rank_zero_info` and `log.info` messages are dropped. `rank_zero_warn` calls are recorded as `Warning` tags, not as text.
- Library parsers are treated as already applied. The inputs hold their results:
  - `device_parser.parse_gpu_ids` and `parse_tpu_cores`;
  - `pick_multiple_gpus`, which line 137 applies when `auto_select_gpus` is set and `gpus` is an int;
  - `AMPType.from_str`, including its reassignment of `amp_type` at line 371. An `amp_backend` of `None` makes line 371 raise an `AttributeError` (`None.lower()`); this is not modelled, and `ampType == None` stands only for an unrecognised name;
  - the lower-casing of `amp_type`.

  `determine_root_gpu_device` is taken to pick the first GPU id.
- `DistributedType.is_interactive_compatible` is a given set of kinds.
- The `DeviceType`, `DistributedType` and `AMPType` enumerations are defined in pytorch_lightning/utilities/enums.py, which is not part of this model. Kinds.dfy lists their members, and the string value of each `DistributedType` member, as the connector uses them.
- `resolve_training_type_plugin` writes the attributes of the plugin object it is given, which may be the user's own object. `ResolveTrainingTypePlugin` returns a new value instead, so the aliasing (the user's object changing) is not modelled.
- Plugin, accelerator and cluster-environment classes are tags. Built-in classes are assumed to have `num_processes`, `num_nodes` and `sync_batchnorm` exactly when they derive from the DDP plugins (`HasNodeSettings`). A user plugin's attributes are whatever its `Strategy` value holds.
- `torch.device` objects are tags (`Cuda(i)`, `Cpu`, `Ordinal(i)`).
- `parallel_devices` with a TPU core list or a non-integer `ipus` leaves `devices` unbound in Python. That `UnboundLocalError` is the error `DevicesUnbound`; the paths are not modelled further.
- The Python `TypeError`s from comparing or multiplying a `None` process count (lines 568 and 342) are the one error `NoneProcessCount`.
- `is_distributed`, `root_gpu`, `tpu_id`, `cluster_environment` and the deprecated `is_using_torchelastic` properties are not modelled. `is_distributed` and `root_gpu` read attributes of the built plugin or accelerator; the other three only forward a field or a probe.
- Text.ParseInt: Python's `int()` also accepts surrounding whitespace, digit-separating underscores and non-ASCII Unicode decimal digits. The model rejects all three, so such a `SLURM_NTASKS` or `FAKE_SLURM_MANAGING_TASKS` value counts as unparsable.
- The guard at lines 603-614 does not consult CUDA availability. The model follows the code.
- ConnectorProperties.CustomAcceleratorBypass: stated only when no plugin is a string. With a string plugin the custom accelerator is replaced (see Findings).
- ModeProperties.AutomaticHorovod: stated only without TPU cores. With them, lines 588-592 override the choice; `HorovodrunWithTpuCores` states the result for a core count.
- ModeProperties.AutomaticCpuDdp: stated only without TPU cores, which make lines 588-592 choose the TPU device.
- ModeProperties.AutomaticMultiGpuSpawn: stated only without TPU cores, which make lines 588-592 choose the TPU device.
- ModeProperties.AutomaticSingleDevice: stated only without TPU cores, which make lines 588-592 choose the TPU device.
- Findings.InitializeKeepingAccelerator, Findings.InitializeSlurmAfterPlugins and Findings.SetModeFromPluginString are the corrected definitions. The rest of the model follows the code as written.
- The state after an exception is not described. The Python object is abandoned when its constructor raises.

## Findings

The model follows the code as written. Each row names a lemma that shows the
behaviour as written, and a lemma that proves the intended property of a
corrected definition in Findings.dfy. Each was derived from the model.

| source | as written | input that shows it | evidently intended | confidence | as-written member | corrected member |
|---|---|---|---|---|---|---|
| pytorch_lightning/trainer/connectors/accelerator_connector.py:557-563 | `set_distributed_mode(plug)` stores a plugin string as `distributed_backend` before it checks for an `Accelerator` instance, so the user's accelerator is dropped and a CPU accelerator is built. | an `Accelerator` instance as the backend, `plugins="ddp"`, one process, no GPUs, nothing registered | The given accelerator is used, with the warning of lines 515-520 that plugins are ignored (`InitializeKeepingAccelerator`: line 562 checked before lines 557-560). | medium; not executed | Findings.StringPluginReplacesAccelerator | Findings.AcceleratorKeptThroughPlugins |
| pytorch_lightning/trainer/connectors/accelerator_connector.py:142-147 | `configure_slurm_ddp` runs before `handle_given_plugins`, so a DDP mode set by a plugin string is never checked against SLURM, and the Lightning environment is chosen. | `gpus=[0]`, `plugins="ddp"`, CUDA available, `SLURM_NTASKS="1"`, `SLURM_JOB_NAME="train"` | The SLURM flag and the cluster environment follow the final mode (`InitializeSlurmAfterPlugins`: the SLURM check after the plugin loop). | medium; not executed | Findings.SlurmCheckedBeforePlugins | Findings.SlurmFlagFollowsFinalMode |
| pytorch_lightning/trainer/connectors/accelerator_connector.py:189-193 | The plugin loop resets the distributed kind but not the device kind, so "ddp_cpu" after a GPU choice keeps the GPU device kind, drops the GPU ids and sets the process count to 0 (lines 620-624). | `gpus=[0]`, `plugins="ddp_cpu"`, not interactive | "ddp_cpu" runs DDP-spawn on the CPU with the given process count (`SetModeFromPluginString`: the device kind reset too). | medium; not executed | ModeProperties.DdpCpuAfterGpuKeepsGpuDevice | Findings.DdpCpuPluginRunsOnCpu |
