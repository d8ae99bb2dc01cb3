/**
 * Three places where pytorch_lightning/trainer/connectors/accelerator_connector.py
 * departs from what its own messages and comments promise.  For each, a lemma
 * exhibits the behaviour of the code as written on the model the other
 * modules use, and a corrected definition beside it is proved to have the
 * evidently intended property.  The rest of the model keeps the code as
 * written.
 */
module Findings {
  import opened Wrappers
  import opened Text
  import opened Kinds
  import opened Plugins
  import opened Resolution
  import opened ModeProperties
  import opened ClassifierProperties
  import opened SelectorProperties
  import opened ConnectorProperties

  // ---------------------------------------------------------------------------
  // A string plugin discards a custom accelerator (lines 189-193, 557-563)
  // ---------------------------------------------------------------------------

  /** No environment variables, no CUDA, nothing registered. */
  function BareEnv(): Env
  {
    Env(map[], false, false, false, false, false, {}, false, false, map[], Some(4), 1)
  }

  /** One process, a user accelerator, and the plugin string "ddp". */
  function AcceleratorWithDdpString(): Inputs
  {
    Inputs(Some(1), None, None, AcceleratorBackend(CustomAccelerator("mine", None)), None, 1, false, 32, None, "O2",
           OneHint(NameHint("ddp")))
  }

  /**
   * As written: the plugin string re-enters `set_distributed_mode`, which
   * stores "ddp" as the backend before it checks for an accelerator, so the
   * user's accelerator is dropped and a CPU accelerator is built instead; the
   * only warnings are the two of the zero-GPU downgrade, not the warning of
   * lines 515-520 that plugins are ignored.
   */
  lemma StringPluginReplacesAccelerator()
    ensures var r := Initialize(BareEnv(), AcceleratorWithDdpString());
      && r.Success?
      && r.value.1.BuiltAccelerator? && r.value.1.cls == CPUAccelerator
      && r.value.0.backend == Named("ddp")
      && r.value.0.warnings == [GpuKindWithoutGpus, SingleProcessNoEffect]
  {
    var s4 := AcceleratorBeforeSelection();
    SingleCpuStrategy(s4);
    FullPrecisionSelection(BareEnv(), s4);
  }

  /** That run selects the single-device plugin on the CPU. */
  lemma SingleCpuStrategy(s4: ConnectorState)
    requires s4 == InitialState(AcceleratorWithDdpString()).(backend := Named("ddp"), clusterEnv := Some(LightningEnvironment),
                                                            warnings := [GpuKindWithoutGpus, SingleProcessNoEffect])
    ensures SelectTrainingTypePlugin(BareEnv(), s4) == Success(NewSingleDevicePlugin(SingleDevicePlugin(Cpu)))
    ensures AcceleratorClassFor(BareEnv(), s4) == CPUAccelerator
  {
  }

  /** That run up to `select_accelerator`: the backend is now "ddp", with no mode and two warnings. */
  lemma AcceleratorBeforeSelection() returns (s4: ConnectorState)
    ensures s4 == InitialState(AcceleratorWithDdpString()).(backend := Named("ddp"), clusterEnv := Some(LightningEnvironment),
                                                           warnings := [GpuKindWithoutGpus, SingleProcessNoEffect])
    ensures Initialize(BareEnv(), AcceleratorWithDdpString()) == SelectAccelerator(BareEnv(), s4)
  {
    var env := BareEnv();
    var s0 := InitialState(AcceleratorWithDdpString());
    assert SetDistributedMode(env, s0, None) == Success(s0);
    assert !FakeSlurmManaging(env);
    assert ConfigureSlurmDdp(env, s0) == s0;
    var s3 := DdpStringOnAccelerator(s0);
    s4 := s3.(clusterEnv := Some(LightningEnvironment));
    assert HandleGivenPlugins(env, s0) == Success(s4);
  }

  /** The nested `set_distributed_mode("ddp")` of that run: without GPUs and with one process, DDP is dropped again. */
  lemma DdpStringOnAccelerator(s0: ConnectorState) returns (s3: ConnectorState)
    requires s0 == InitialState(AcceleratorWithDdpString())
    ensures s3 == s0.(backend := Named("ddp"), warnings := [GpuKindWithoutGpus, SingleProcessNoEffect])
    ensures SetDistributedMode(BareEnv(), s0, Some("ddp")) == Success(s3)
  {
    var env := BareEnv();
    NotSubstringWithoutHead("cpu", "ddp");
    var s2 := s0.(backend := Named("ddp"), distribType := Some(DDP));
    assert ApplyBackendName(env, s0.(backend := Named("ddp"))) == Success(s2);
    s3 := s0.(backend := Named("ddp"), warnings := [GpuKindWithoutGpus, SingleProcessNoEffect]);
    assert DowngradeWithoutGpus(PromoteToGpu(s2)) == s3;
  }

  /** Selection for a 32-bit run with a backend name and no plugin choices: it builds, storing only the strategy and precision plugin. */
  lemma FullPrecisionSelection(env: Env, st: ConnectorState)
    requires !st.resolved && st.trainingType.None? && st.precisionPlugin.None?
    requires !st.backend.AcceleratorBackend? && st.settings.precision == 32 && !st.OnIpu() && !st.UseDeepspeed()
    requires SelectTrainingTypePlugin(env, st).Success? && SelectTrainingTypePlugin(env, st).value.kind != DeepSpeedPlugin
    requires SelectTrainingTypePlugin(env, st).value.parallelDevices != Unset
    ensures var r := SelectAccelerator(env, st);
      && r.Success? && r.value.1.BuiltAccelerator? && r.value.1.cls == AcceleratorClassFor(env, st)
      && r.value.0 == st.(trainingType := r.value.0.trainingType, resolved := true, precisionPlugin := Some(FullPrecisionPlugin))
  {
    var t := TrainingTypeProperty(env, st).value;
    assert t.1.kind == SelectTrainingTypePlugin(env, st).value.kind;
    assert SelectPrecisionPlugin(env, t.0) == Success((t.0, FullPrecisionPlugin));
  }

  /**
   * One iteration of the loop at line 179 when `set_distributed_mode` checks
   * for a custom accelerator (line 562) before it stores a name (lines
   * 557-560): a string then only resets the distributed kind.
   */
  function ClassifyHintKeepingAccelerator(env: Env, st: ConnectorState, acc: Hints, plug: PluginHint)
    : Result<(ConnectorState, Hints), Error>
  {
    if plug.NameHint? && st.backend.AcceleratorBackend? then
      if plug.name in env.registry && acc.trainingType.Some? then Failure(MultipleTrainingTypePlugins(plug))
      else
        var acc' := if plug.name in env.registry then acc.(trainingType := Some(env.registry[plug.name].plugin)) else acc;
        Success((st.(distribType := None), acc'))
    else ClassifyHint(env, st, acc, plug)
  }

  /** The loop at line 179 with that check order. */
  function ClassifyHintsKeepingAccelerator(env: Env, st: ConnectorState, acc: Hints, ps: seq<PluginHint>)
    : Result<(ConnectorState, Hints), Error>
    decreases |ps|
  {
    if ps == [] then Success((st, acc))
    else
      var step :- ClassifyHintKeepingAccelerator(env, st, acc, ps[0]);
      ClassifyHintsKeepingAccelerator(env, step.0, step.1, ps[1..])
  }

  /** The constructor with that check order. */
  function InitializeKeepingAccelerator(env: Env, inputs: Inputs): Result<(ConnectorState, Accelerator), Error>
  {
    var s0 := InitialState(inputs);
    var s1 :- SetDistributedMode(env, s0, None);
    var s2 := ConfigureSlurmDdp(env, s1);
    var found :- ClassifyHintsKeepingAccelerator(env, s2, NoHints, s2.settings.plugins);
    var s4 := StoreHints(env, found.0, found.1).(resolved := false);
    var selected :- SelectAccelerator(env, s4);
    var s5 := if selected.0.OnTpu() then selected.0.(backend := Named("tpu")) else selected.0;
    Success((s5, selected.1))
  }

  /** A hint the warning of lines 515-520 is about: a strategy, a registered name, or a precision plugin. */
  predicate Ignored(env: Env, h: PluginHint)
  {
    InCategory(env, h, TrainingTypeCategory) || h.PrecisionHint?
  }

  /** With an accelerator the corrected loop keeps the fields and fills an accumulator exactly for ignored hints. */
  lemma {:induction false} KeepingAcceleratorLoop(env: Env, st: ConnectorState, acc: Hints, ps: seq<PluginHint>)
    requires st.backend.AcceleratorBackend? && st.distribType.None?
    ensures var r := ClassifyHintsKeepingAccelerator(env, st, acc, ps);
      && (r.Failure? ==> ClassificationError(r.error))
      && (r.Success? ==>
            && r.value.0 == st
            && ((r.value.1.trainingType.Some? || r.value.1.precision.Some?) <==>
                  (acc.trainingType.Some? || acc.precision.Some? || exists i :: 0 <= i < |ps| && Ignored(env, ps[i]))))
    decreases |ps|
  {
    if ps != [] {
      var step := ClassifyHintKeepingAccelerator(env, st, acc, ps[0]);
      if step.Success? {
        var acc' := step.value.1;
        assert step.value.0 == st;
        assert (acc'.trainingType.Some? || acc'.precision.Some?) <==>
               (acc.trainingType.Some? || acc.precision.Some? || Ignored(env, ps[0]));
        KeepingAcceleratorLoop(env, st, acc', ps[1..]);
        assert forall i :: 1 <= i < |ps| ==> ps[i] == ps[1..][i - 1];
        if exists i :: 0 <= i < |ps[1..]| && Ignored(env, ps[1..][i]) {
          var i :| 0 <= i < |ps[1..]| && Ignored(env, ps[1..][i]);
          assert Ignored(env, ps[i + 1]);
        }
      }
    }
  }

  /**
   * Intended: a custom accelerator is handed back whatever the plugins, with
   * the warning of lines 515-520 exactly when a strategy, registered name or
   * precision plugin was passed; the only errors are the plugin loop's own.
   */
  lemma AcceleratorKeptThroughPlugins(env: Env, inputs: Inputs, h: CustomAccelerator)
    requires inputs.backend == AcceleratorBackend(h)
    ensures var r := InitializeKeepingAccelerator(env, inputs);
      var ps := NormalizePlugins(inputs.plugins);
      var ignored := exists i :: 0 <= i < |ps| && Ignored(env, ps[i]);
      && (r.Failure? ==> ClassificationError(r.error))
      && (r.Success? ==>
            && r.value.1 == GivenAccelerator(h)
            && r.value.0.distribType.None? && r.value.0.deviceType == CPU && !r.value.0.resolved
            && r.value.0.warnings == (if ignored then [AcceleratorIgnoresPlugins] else []))
  {
    var s0 := InitialState(inputs);
    assert SetDistributedMode(env, s0, None) == Success(s0);
    var s2 := ConfigureSlurmDdp(env, s0);
    KeepingAcceleratorLoop(env, s2, NoHints, s2.settings.plugins);
  }

  /** With any other backend the corrected loop is the loop as written. */
  lemma {:induction false} KeepingAcceleratorLoopAgrees(env: Env, st: ConnectorState, acc: Hints, ps: seq<PluginHint>)
    requires !st.backend.AcceleratorBackend?
    ensures ClassifyHintsKeepingAccelerator(env, st, acc, ps) == ClassifyHints(env, st, acc, ps)
    decreases |ps|
  {
    if ps != [] {
      var step := ClassifyHint(env, st, acc, ps[0]);
      assert ClassifyHintKeepingAccelerator(env, st, acc, ps[0]) == step;
      if step.Success? {
        if ps[0].NameHint? {
          ModeKeepsNamedBackend(env, st.(distribType := None), Some(ps[0].name));
        }
        KeepingAcceleratorLoopAgrees(env, step.value.0, step.value.1, ps[1..]);
      }
    }
  }

  /** The correction changes nothing for a backend that is not a custom accelerator. */
  lemma KeepingAcceleratorAgrees(env: Env, inputs: Inputs)
    requires !inputs.backend.AcceleratorBackend?
    ensures InitializeKeepingAccelerator(env, inputs) == Initialize(env, inputs)
  {
    var s0 := InitialState(inputs);
    ModeKeepsNamedBackend(env, s0, None);
    if SetDistributedMode(env, s0, None).Success? {
      var s2 := ConfigureSlurmDdp(env, SetDistributedMode(env, s0, None).value);
      KeepingAcceleratorLoopAgrees(env, s2, NoHints, s2.settings.plugins);
    }
  }

  // ---------------------------------------------------------------------------
  // The SLURM check runs before the plugins choose the mode (lines 142-147)
  // ---------------------------------------------------------------------------

  /** A one-task SLURM batch job on a machine with CUDA. */
  function SlurmJobEnv(): Env
  {
    Env(map["SLURM_NTASKS" := "1", "SLURM_JOB_NAME" := "train"], true, false, false, false, false, {},
        false, false, map[], Some(4), 1)
  }

  /** GPU 0 on one node, with DDP asked for through the plugin string "ddp". */
  function OneGpuDdpString(): Inputs
  {
    Inputs(Some(1), None, None, NoBackend, Some([0]), 1, false, 32, None, "O2", OneHint(NameHint("ddp")))
  }

  /**
   * As written: `configure_slurm_ddp` sees the mode before the plugin string
   * turns it into DDP, so the run ends as DDP under SLURM with the SLURM flag
   * off and the Lightning cluster environment, although the same check on the
   * final fields sets the flag.
   */
  lemma SlurmCheckedBeforePlugins()
    ensures var env := SlurmJobEnv();
      var r := Initialize(env, OneGpuDdpString());
      && r.Success?
      && r.value.0.distribType == Some(DDP) && !r.value.0.slurmManaging
      && r.value.0.clusterEnv == Some(LightningEnvironment)
      && ConfigureSlurmDdp(env, r.value.0).slurmManaging
  {
    var env := SlurmJobEnv();
    var s3 := OneGpuDdpBeforeSelection();
    OneGpuDdpStrategy(s3);
    FullPrecisionSelection(env, s3);
    SlurmJobManagesDdp(SelectAccelerator(env, s3).value.0);
  }

  /** In that job, DDP on one GPU and one node is SLURM-managed. */
  lemma SlurmJobManagesDdp(f: ConnectorState)
    requires f.distribType == Some(DDP) && f.NumGpus() == 1 && f.settings.numNodes == 1
    ensures ConfigureSlurmDdp(SlurmJobEnv(), f).slurmManaging
  {
    assert Decimal(1) == "1";
    SlurmMatchingTasksManaged(SlurmJobEnv(), f);
  }

  /** That run selects the DDP plugin on `cuda:0`. */
  lemma OneGpuDdpStrategy(s3: ConnectorState)
    requires s3 == InitialState(OneGpuDdpString()).(deviceType := GPU, backend := Named("ddp"), distribType := Some(DDP),
                                                   clusterEnv := Some(LightningEnvironment))
    ensures SelectTrainingTypePlugin(SlurmJobEnv(), s3) == Success(NewParallelPlugin(DDPPlugin, [Cuda(0)], s3.clusterEnv))
  {
    var env := SlurmJobEnv();
    assert DdpPluginKind(env, s3) == DDPPlugin;
    var d := ParallelDevices(env, s3).value;
    assert |d| == 1 && d[0] == Cuda(0);
    assert d == [Cuda(0)];
  }

  /** That run up to `select_accelerator`: the plugin string has made it DDP on GPU 0 with the Lightning environment. */
  lemma OneGpuDdpBeforeSelection() returns (s3: ConnectorState)
    ensures s3 == InitialState(OneGpuDdpString()).(deviceType := GPU, backend := Named("ddp"), distribType := Some(DDP),
                                                  clusterEnv := Some(LightningEnvironment))
    ensures Initialize(SlurmJobEnv(), OneGpuDdpString()) == SelectAccelerator(SlurmJobEnv(), s3)
  {
    var env := SlurmJobEnv();
    var s1 := OneGpuBeforePlugins();
    DdpStringOnOneGpu(s1);
    s3 := s1.(backend := Named("ddp"), distribType := Some(DDP), clusterEnv := Some(LightningEnvironment));
    assert HandleGivenPlugins(env, s1) == Success(s3);
  }

  /** That run before its plugin loop: GPU 0 is promoted to the GPU device, and SLURM is not checked for without a DDP kind. */
  lemma OneGpuBeforePlugins() returns (s1: ConnectorState)
    ensures var env := SlurmJobEnv();
      var s0 := InitialState(OneGpuDdpString());
      && s1 == s0.(deviceType := GPU)
      && SetDistributedMode(env, s0, None) == Success(s1)
      && ConfigureSlurmDdp(env, s1) == s1
  {
    var env := SlurmJobEnv();
    s1 := InitialState(OneGpuDdpString()).(deviceType := GPU);
    assert !FakeSlurmManaging(env);
  }

  /** The nested `set_distributed_mode("ddp")` of that run selects DDP on the one GPU. */
  lemma DdpStringOnOneGpu(s1: ConnectorState)
    requires s1 == InitialState(OneGpuDdpString()).(deviceType := GPU)
    ensures SetDistributedMode(SlurmJobEnv(), s1, Some("ddp")) ==
      Success(s1.(backend := Named("ddp"), distribType := Some(DDP)))
  {
    var env := SlurmJobEnv();
    NotSubstringWithoutHead("cpu", "ddp");
    var s2 := s1.(backend := Named("ddp"), distribType := Some(DDP));
    assert ApplyBackendName(env, s1.(backend := Named("ddp"))) == Success(s2);
  }

  /** The constructor with `configure_slurm_ddp` run once the plugins have set the mode, before the cluster environment is chosen. */
  function InitializeSlurmAfterPlugins(env: Env, inputs: Inputs): Result<(ConnectorState, Accelerator), Error>
  {
    var s0 := InitialState(inputs);
    var s1 :- SetDistributedMode(env, s0, None);
    var found :- ClassifyHints(env, s1, NoHints, s1.settings.plugins);
    var s4 := StoreHints(env, ConfigureSlurmDdp(env, found.0), found.1).(resolved := false);
    var selected :- SelectAccelerator(env, s4);
    var s5 := if selected.0.OnTpu() then selected.0.(backend := Named("tpu")) else selected.0;
    Success((s5, selected.1))
  }

  /** `a` and `b` agree on every field `configure_slurm_ddp` reads. */
  predicate SameSlurmInputs(a: ConnectorState, b: ConnectorState)
  {
    && a.distribType == b.distribType && a.parallelDeviceIds == b.parallelDeviceIds
    && a.numProcesses == b.numProcesses && a.settings == b.settings && a.slurmManaging == b.slurmManaging
  }

  /** `configure_slurm_ddp` depends only on those fields, and a second run changes nothing. */
  lemma SlurmCheckStable(env: Env, a: ConnectorState, b: ConnectorState)
    requires SameSlurmInputs(a, ConfigureSlurmDdp(env, b))
    ensures ConfigureSlurmDdp(env, a) == a
  {
  }

  /** Selecting the accelerator leaves the SLURM inputs and the cluster environment alone. */
  lemma SelectionKeepsSlurmInputs(env: Env, st: ConnectorState)
    requires st.Valid()
    ensures var r := SelectAccelerator(env, st);
      r.Success? ==> SameSlurmInputs(st, r.value.0) && r.value.0.clusterEnv == st.clusterEnv
  {
    if !st.backend.AcceleratorBackend? && SelectAccelerator(env, st).Success? {
      var t := TrainingTypeProperty(env, st).value;
      PrecisionKeepsMode(env, t.0);
    }
  }

  /**
   * Intended: the SLURM flag agrees with the final mode, whichever of the
   * backend argument or a plugin string set it, and without a given cluster
   * environment a SLURM-managed run gets the SLURM environment.
   */
  lemma SlurmFlagFollowsFinalMode(env: Env, inputs: Inputs)
    ensures var r := InitializeSlurmAfterPlugins(env, inputs);
      var ps := NormalizePlugins(inputs.plugins);
      r.Success? ==>
        && ConfigureSlurmDdp(env, r.value.0) == r.value.0
        && (r.value.0.slurmManaging && (forall i :: 0 <= i < |ps| ==> !ps[i].ClusterEnvironmentHint?) ==>
              r.value.0.clusterEnv == Some(SLURMEnvironment))
  {
    var s0 := InitialState(inputs);
    if InitializeSlurmAfterPlugins(env, inputs).Success? {
      var s1 := SetDistributedMode(env, s0, None).value;
      SetDistributedModeKeepsChoices(env, s0, None);
      var ps := s1.settings.plugins;
      var found := ClassifyHints(env, s1, NoHints, ps).value;
      ClassifyKeepsChoices(env, s1, NoHints, ps);
      FoundClusterEnvironment(env, s1, NoHints, ps);
      var s4 := StoreHints(env, ConfigureSlurmDdp(env, found.0), found.1).(resolved := false);
      SelectionKeepsSlurmInputs(env, s4);
      var selected := SelectAccelerator(env, s4).value;
      SlurmCheckStable(env, selected.0, found.0);
    }
  }

  // ---------------------------------------------------------------------------
  // A "ddp_cpu" string after GPU was chosen (lines 189-193, 578-587, 620-624)
  // ---------------------------------------------------------------------------

  /**
   * Line 192 with the device kind reset along with the distributed kind, so a
   * plugin string starts from the fields before any mode was chosen.
   * `ModeProperties.DdpCpuAfterGpuKeepsGpuDevice` is the code as written.
   */
  function SetModeFromPluginString(env: Env, st: ConnectorState, name: string): Result<ConnectorState, Error>
  {
    SetDistributedMode(env, st.(distribType := None, deviceType := CPU), Some(name))
  }

  /**
   * Intended (lines 578-587): "ddp_cpu" runs DDP-spawn on the CPU with the
   * given process count, or the CPU count when none was given, whatever mode
   * was chosen before.
   */
  lemma DdpCpuPluginRunsOnCpu(env: Env, st: ConnectorState)
    requires "ddp_cpu" !in env.registry
    requires !env.isInteractive || DDPSpawn in env.interactiveCompatible
    ensures var r := SetModeFromPluginString(env, st, "ddp_cpu");
      && r.Success?
      && r.value.deviceType == CPU && r.value.distribType == Some(DDPSpawn) && r.value.NumGpus() == 0
      && r.value.numProcesses == (if st.numProcesses.None? then env.cpuCount else st.numProcesses)
  {
    DdpCpuBackend(env, st.(distribType := None, deviceType := CPU), Some("ddp_cpu"));
  }
}
