/**
 * What `set_distributed_mode` and `configure_slurm_ddp` decide
 * (pytorch_lightning/trainer/connectors/accelerator_connector.py:552-732).
 */
module ModeProperties {
  import opened Wrappers
  import opened Text
  import opened Kinds
  import opened Plugins
  import opened Resolution

  /** The call infers a mode: it is not deferring to a plugin name and the backend is not an `Accelerator`. */
  predicate Infers(env: Env, st: ConnectorState, arg: Option<string>)
  {
    !DefersToPlugins(env, st, arg) && !WithBackendArg(env, st, arg).backend.AcceleratorBackend?
  }

  /** The fields `set_distributed_mode` never touches. */
  predicate KeepsChoices(st: ConnectorState, post: ConnectorState)
  {
    && post.settings == st.settings
    && post.trainingType == st.trainingType
    && post.precisionPlugin == st.precisionPlugin
    && post.clusterEnv == st.clusterEnv
    && post.resolved == st.resolved
    && post.ampType == st.ampType
    && post.slurmManaging == st.slurmManaging
  }

  /** `post` keeps the plugin choices and settings of `st` and only appends warnings. */
  predicate Extends(st: ConnectorState, post: ConnectorState)
  {
    KeepsChoices(st, post) && |post.warnings| >= |st.warnings| && post.warnings[..|st.warnings|] == st.warnings
  }

  lemma ExtendsTransitive(a: ConnectorState, b: ConnectorState, c: ConnectorState)
    requires Extends(a, b) && Extends(b, c)
    ensures Extends(a, c)
  {
    assert c.warnings[..|a.warnings|] == c.warnings[..|b.warnings|][..|a.warnings|];
  }

  /** The two stages of a call that infers a mode before `FinishMode` (lines 557-596). */
  lemma Stages(env: Env, st: ConnectorState, arg: Option<string>) returns (s1: ConnectorState, s2: ConnectorState)
    requires Infers(env, st, arg)
    requires SetDistributedMode(env, st, arg).Success?
    ensures var s0 := WithBackendArg(env, st, arg);
      (if s0.backend.NoBackend? then ChooseWithoutBackend(env, s0) else Success(s0)) == Success(s1)
    ensures ApplyBackendName(env, s1) == Success(s2)
    ensures SetDistributedMode(env, st, arg) == FinishMode(env, s2)
  {
    var s0 := WithBackendArg(env, st, arg);
    s1 := (if s0.backend.NoBackend? then ChooseWithoutBackend(env, s0) else Success(s0)).value;
    s2 := ApplyBackendName(env, s1).value;
  }

  lemma HorovodExtends(env: Env, st: ConnectorState)
    ensures SetHorovodBackend(env, st).Success? ==> Extends(st, SetHorovodBackend(env, st).value)
  {
  }

  lemma ChooseExtends(env: Env, st: ConnectorState)
    ensures ChooseWithoutBackend(env, st).Success? ==> Extends(st, ChooseWithoutBackend(env, st).value)
  {
    HorovodExtends(env, st);
  }

  lemma ApplyExtends(env: Env, st: ConnectorState)
    ensures ApplyBackendName(env, st).Success? ==> Extends(st, ApplyBackendName(env, st).value)
  {
    if st.backend == Named("ddp_cpu") && st.NumGpus() > 0 {
      var warned := st.warnings + [DdpCpuIgnoresGpus];
      assert warned[..|st.warnings|] == st.warnings;
    }
  }

  /** The multi-node check of a call that infers a mode. */
  predicate MultiNodeSupported(st: ConnectorState)
  {
    st.settings.numNodes <= 1 || st.UseDdp() || st.UseDdp2()
  }

  /** DP, DDP-spawn and DDP2 without a GPU only where the backend name asks for CPU. */
  predicate GpuKindsHaveGpus(st: ConnectorState)
  {
    st.distribType in {Some(DP), Some(DDPSpawn), Some(DDP2)} && st.NumGpus() == 0 ==> NamesCpu(st.backend)
  }

  /** GPU DDP and DDP-spawn run one process per GPU, GPU DDP2 one per node. */
  predicate ProcessCountsFollowDevices(st: ConnectorState)
  {
    st.deviceType == GPU ==>
      && (st.distribType in {Some(DDP), Some(DDPSpawn)} ==> st.numProcesses == Some(st.NumGpus()))
      && (st.distribType == Some(DDP2) ==> st.numProcesses == Some(st.settings.numNodes))
  }

  lemma AdjustFacts(s2: ConnectorState)
    ensures var s3 := DowngradeWithoutGpus(PromoteToGpu(s2));
      Extends(s2, s3) && GpuKindsHaveGpus(s3)
  {
    ExtendsTransitive(s2, PromoteToGpu(s2), DowngradeWithoutGpus(PromoteToGpu(s2)));
  }

  lemma OverrideFacts(s3: ConnectorState)
    requires GpuKindsHaveGpus(s3)
    ensures var s4 := OverrideProcessCount(s3);
      Extends(s3, s4) && GpuKindsHaveGpus(s4) && ProcessCountsFollowDevices(s4)
  {
  }

  lemma HorovodFacts(env: Env, s4: ConnectorState)
    requires GpuKindsHaveGpus(s4) && ProcessCountsFollowDevices(s4)
    ensures var h := SetHorovodBackend(env, s4);
      h.Success? ==> Extends(s4, h.value) && GpuKindsHaveGpus(h.value) && ProcessCountsFollowDevices(h.value)
  {
    HorovodExtends(env, s4);
  }

  /** What lines 598-652 establish whenever they return normally. */
  lemma FinishModeFacts(env: Env, s2: ConnectorState)
    requires FinishMode(env, s2).Success?
    ensures var r := FinishMode(env, s2).value;
      Extends(s2, r) && MultiNodeSupported(r) && GpuKindsHaveGpus(r) && ProcessCountsFollowDevices(r)
  {
    var s3 := DowngradeWithoutGpus(PromoteToGpu(s2));
    AdjustFacts(s2);
    var s4 := OverrideProcessCount(s3);
    OverrideFacts(s3);
    ExtendsTransitive(s2, s3, s4);
    var h := if s4.backend == Named("horovod") then SetHorovodBackend(env, s4) else Success(s4);
    HorovodFacts(env, s4);
    var s5 := h.value;
    ExtendsTransitive(s2, s4, s5);
    assert FinishMode(env, s2) == Success(WarnUnusedGpu(env, s5));
    ExtendsTransitive(s2, s5, WarnUnusedGpu(env, s5));
  }

  /** `FinishMode` when the backend is not "horovod": lines 598-652 without the Horovod step. */
  lemma FinishWithoutHorovod(env: Env, s2: ConnectorState)
    requires s2.backend != Named("horovod")
    ensures var s3 := DowngradeWithoutGpus(PromoteToGpu(s2));
      var s4 := OverrideProcessCount(s3);
      FinishMode(env, s2) ==
        if CheckInteractiveCompatibility(env, s3).Fail? then Failure(CheckInteractiveCompatibility(env, s3).error)
        else if !MultiNodeSupported(s4) then Failure(MultiNodeUnsupported)
        else Success(WarnUnusedGpu(env, s4))
  {
    var s3 := DowngradeWithoutGpus(PromoteToGpu(s2));
    assert s3.backend == s2.backend;
  }

  /** Every step of `set_distributed_mode` leaves the plugin choices and the constructor settings alone. */
  lemma SetDistributedModeKeepsChoices(env: Env, st: ConnectorState, arg: Option<string>)
    ensures SetDistributedMode(env, st, arg).Success? ==> Extends(st, SetDistributedMode(env, st, arg).value)
  {
    if Infers(env, st, arg) && SetDistributedMode(env, st, arg).Success? {
      var s1, s2 := Stages(env, st, arg);
      ChooseExtends(env, WithBackendArg(env, st, arg));
      ExtendsTransitive(st, WithBackendArg(env, st, arg), s1);
      ApplyExtends(env, s1);
      ExtendsTransitive(st, s1, s2);
      FinishModeFacts(env, s2);
      ExtendsTransitive(st, s2, FinishMode(env, s2).value);
    } else if DefersToPlugins(env, st, arg) {
      assert SetDistributedMode(env, st, arg) == Success(st);
    } else if WithBackendArg(env, st, arg).backend.AcceleratorBackend? {
      assert SetDistributedMode(env, st, arg) == Success(WithBackendArg(env, st, arg));
    }
  }

  /**
   * Lines 633-639: a call that infers a mode either raises or ends with one node,
   * or a DDP-family or DDP2 kind; with several nodes and another kind it raises
   * the multi-node error.
   */
  lemma MultiNodeNeedsDdp(env: Env, st: ConnectorState, arg: Option<string>)
    requires Infers(env, st, arg)
    ensures SetDistributedMode(env, st, arg).Success? ==> MultiNodeSupported(SetDistributedMode(env, st, arg).value)
  {
    if SetDistributedMode(env, st, arg).Success? {
      var s1, s2 := Stages(env, st, arg);
      FinishModeFacts(env, s2);
    }
  }

  /**
   * Lines 620-627: after a call that infers a mode, a GPU DDP or DDP-spawn run has
   * one process per GPU and a GPU DDP2 run one process per node.
   */
  lemma ProcessCountFollowsDevices(env: Env, st: ConnectorState, arg: Option<string>)
    requires Infers(env, st, arg)
    ensures SetDistributedMode(env, st, arg).Success? ==> ProcessCountsFollowDevices(SetDistributedMode(env, st, arg).value)
  {
    if SetDistributedMode(env, st, arg).Success? {
      var s1, s2 := Stages(env, st, arg);
      FinishModeFacts(env, s2);
    }
  }

  /**
   * Lines 557-560, 593-596 and 603-614 as a caller meets them: naming DP, DDP,
   * DDP-spawn or DDP2 without any GPU ids runs DDP, with a warning, when there
   * are several nodes or processes, and no kind at all, with a second warning,
   * otherwise; the call raises only when an interactive session cannot run the
   * DDP that results.
   */
  lemma NamedGpuKindWithoutGpus(env: Env, st: ConnectorState, name: string, k: DistributedType)
    requires name !in env.registry && ParseKind(name) == Some(k) && NeedsGpu(k) && !NamesCpu(Named(name))
    requires st.distribType.None? && st.deviceType != GPU && st.NumGpus() == 0 && !st.OnTpu()
    ensures var r := SetDistributedMode(env, st, Some(name));
      var parallel := st.settings.numNodes > 1 || (st.numProcesses.Some? && st.numProcesses.value > 1);
      && (r.Failure? <==> parallel && env.isInteractive && DDP !in env.interactiveCompatible)
      && (r.Success? ==>
            && r.value.distribType == (if parallel then Some(DDP) else None)
            && r.value.deviceType == st.deviceType
            && GpuKindWithoutGpus in r.value.warnings
            && (!parallel ==> SingleProcessNoEffect in r.value.warnings))
  {
    var s0 := WithBackendArg(env, st, Some(name));
    assert s0 == st.(backend := Named(name));
    assert name != "ddp_cpu" && name != "tpu" && name != "ipu";
    var s2 := s0.(distribType := Some(k));
    assert ApplyBackendName(env, s0) == Success(s2);
    FinishGpuKindWithoutGpus(env, s2);
  }

  /** `FinishMode` on a GPU kind with no GPU ids, off the GPU device, with a backend that is neither "horovod" nor names "cpu". */
  lemma FinishGpuKindWithoutGpus(env: Env, s2: ConnectorState)
    requires s2.distribType.Some? && NeedsGpu(s2.distribType.value) && !NamesCpu(s2.backend)
    requires s2.backend != Named("horovod") && s2.deviceType != GPU && s2.NumGpus() == 0
    ensures var r := FinishMode(env, s2);
      var parallel := s2.settings.numNodes > 1 || (s2.numProcesses.Some? && s2.numProcesses.value > 1);
      && (r.Failure? <==> parallel && env.isInteractive && DDP !in env.interactiveCompatible)
      && (r.Success? ==>
            && r.value.distribType == (if parallel then Some(DDP) else None)
            && r.value.deviceType == s2.deviceType
            && GpuKindWithoutGpus in r.value.warnings
            && (!parallel ==> SingleProcessNoEffect in r.value.warnings))
  {
    var s3 := DowngradeWithoutGpus(PromoteToGpu(s2));
    assert s3.backend == s2.backend && s3.deviceType == s2.deviceType;
    assert OverrideProcessCount(s3) == s3;
  }

  /**
   * Lines 598-614: once a call has inferred a mode, DP, DDP-spawn and DDP2 with
   * no GPU left are only possible when the backend name itself asks for CPU.
   */
  lemma GpuKindsKeepGpus(env: Env, st: ConnectorState, arg: Option<string>)
    requires Infers(env, st, arg)
    ensures SetDistributedMode(env, st, arg).Success? ==> GpuKindsHaveGpus(SetDistributedMode(env, st, arg).value)
  {
    if SetDistributedMode(env, st, arg).Success? {
      var s1, s2 := Stages(env, st, arg);
      FinishModeFacts(env, s2);
    }
  }

  /**
   * The conditions of the automatic choice as the constructor meets them: no
   * backend, no registered name among the plugins, no mode and the CPU device so
   * far, and no TPU cores.  TPU cores are excluded because lines 588-592 run
   * after the automatic choice and override it: the device becomes TPU and, for
   * a core count, the kind TPU-spawn (`HorovodrunWithTpuCores` states this for
   * a Horovod launch).
   */
  predicate Automatic(env: Env, st: ConnectorState)
  {
    && st.backend.NoBackend?
    && !IsTrainingTypeInPlugins(env, st.settings.plugins)
    && st.distribType.None?
    && st.deviceType == CPU
    && !st.OnTpu()
  }

  /** With no backend the call runs the automatic choice, then the name it may have set, then `FinishMode`. */
  lemma AutomaticSteps(env: Env, st: ConnectorState)
    requires Automatic(env, st)
    ensures SetDistributedMode(env, st, None) ==
      match ChooseWithoutBackend(env, st)
      case Failure(e) => Failure(e)
      case Success(s1) =>
        match ApplyBackendName(env, s1)
        case Failure(e) => Failure(e)
        case Success(s2) => FinishMode(env, s2)
  {
    assert WithBackendArg(env, st, None) == st;
  }

  /** Lines 566-567: a horovodrun launch selects Horovod, or raises when Horovod cannot be used. */
  lemma AutomaticHorovod(env: Env, st: ConnectorState)
    requires Automatic(env, st) && HasHorovodrun(env)
    ensures var r := SetDistributedMode(env, st, None);
      && (r.Success? ==> r.value.distribType == Some(Horovod))
      && (r.Failure? <==>
            !env.horovodAvailable || st.NumGpus() > 1 || st.settings.numNodes > 1
            || (env.isInteractive && Horovod !in env.interactiveCompatible))
  {
    AutomaticSteps(env, st);
    var h := SetHorovodBackend(env, st);
    assert ChooseWithoutBackend(env, st) == h;
    if h.Success? {
      var s1 := h.value;
      assert s1.distribType == Some(Horovod) && s1.backend == st.backend && s1.settings == st.settings;
      assert ApplyBackendName(env, s1) == Success(s1);
      var s3 := DowngradeWithoutGpus(PromoteToGpu(s1));
      assert s3.distribType == Some(Horovod) && s3.backend.NoBackend? && s3.settings == st.settings;
      assert OverrideProcessCount(s3) == s3;
    }
  }

  /**
   * Lines 565-567 and 588-592: with TPU cores given as a count, a horovodrun
   * launch still goes through the Horovod checks and takes the Horovod local
   * size as the process count, but the TPU branch then replaces the Horovod
   * kind by TPU-spawn on the TPU device.
   */
  lemma HorovodrunWithTpuCores(env: Env, st: ConnectorState, n: int)
    requires st.backend.NoBackend? && !IsTrainingTypeInPlugins(env, st.settings.plugins)
    requires st.distribType.None? && st.deviceType == CPU && st.NumGpus() == 0
    requires st.settings.tpuCores == Some(CoreCount(n)) && HasHorovodrun(env)
    ensures var r := SetDistributedMode(env, st, None);
      && (r.Success? <==>
            env.horovodAvailable && st.settings.numNodes <= 1
            && (!env.isInteractive || TPUSpawn in env.interactiveCompatible))
      && (r.Success? ==>
            && r.value.distribType == Some(TPUSpawn) && r.value.deviceType == TPU
            && r.value.numProcesses == Some(env.horovodLocalSize))
  {
    assert WithBackendArg(env, st, None) == st;
    var h := SetHorovodBackend(env, st);
    assert ChooseWithoutBackend(env, st) == h;
    if h.Success? {
      var s1 := h.value;
      assert s1 == st.(distribType := Some(Horovod), numProcesses := Some(env.horovodLocalSize));
      var s2 := s1.(deviceType := TPU, distribType := Some(TPUSpawn));
      assert ApplyBackendName(env, s1) == Success(s2);
      assert DowngradeWithoutGpus(PromoteToGpu(s2)) == s2;
      assert OverrideProcessCount(s2) == s2;
    }
  }

  /** Lines 568-569 and 603-611: CPU-only with several nodes or processes selects DDP. */
  lemma AutomaticCpuDdp(env: Env, st: ConnectorState)
    requires Automatic(env, st) && !HasHorovodrun(env)
    requires st.NumGpus() == 0 && (st.settings.numNodes > 1 || (st.numProcesses.Some? && st.numProcesses.value > 1))
    ensures var r := SetDistributedMode(env, st, None);
      && (r.Success? ==> r.value.distribType == Some(DDP) && r.value.deviceType == st.deviceType)
      && (r.Failure? <==> env.isInteractive && DDP !in env.interactiveCompatible)
  {
    AutomaticSteps(env, st);
    var s1 := st.(distribType := Some(DDP));
    assert ChooseWithoutBackend(env, st) == Success(s1);
    assert ApplyBackendName(env, s1) == Success(s1);
    var s3 := s1.(warnings := s1.warnings + [GpuKindWithoutGpus]);
    assert DowngradeWithoutGpus(PromoteToGpu(s1)) == s3;
    assert OverrideProcessCount(s3) == s3;
  }

  /**
   * Lines 570-575: more than one GPU and no backend sets the backend to
   * "ddp_spawn" with a warning, so the run is DDP-spawn on GPUs with one process per GPU.
   */
  lemma AutomaticMultiGpuSpawn(env: Env, st: ConnectorState)
    requires Automatic(env, st) && !HasHorovodrun(env) && st.NumGpus() > 1
    ensures var r := SetDistributedMode(env, st, None);
      && (r.Success? ==>
            && r.value.distribType == Some(DDPSpawn)
            && r.value.backend == Named("ddp_spawn")
            && r.value.deviceType == GPU
            && r.value.numProcesses == Some(st.NumGpus())
            && MultipleGpusWithoutBackend in r.value.warnings)
      && (r.Failure? <==> env.isInteractive && DDPSpawn !in env.interactiveCompatible)
  {
    var s2 := MultiGpuSpawnChosen(env, st);
    FinishDdpSpawnOnGpus(env, s2);
    assert s2.warnings[|st.warnings|] == MultipleGpusWithoutBackend;
  }

  /** Lines 598-652 for GPU DDP-spawn under the name "ddp_spawn": one process per GPU. */
  lemma FinishDdpSpawnOnGpus(env: Env, s2: ConnectorState)
    requires s2.backend == Named("ddp_spawn") && s2.distribType == Some(DDPSpawn) && s2.NumGpus() > 1
    ensures var r := FinishMode(env, s2);
      && (r.Success? ==> r.value == s2.(deviceType := GPU, numProcesses := Some(s2.NumGpus())))
      && (r.Failure? <==> env.isInteractive && DDPSpawn !in env.interactiveCompatible)
  {
    NotSubstringWithoutHead("cpu", "ddp_spawn");
    var s3 := s2.(deviceType := GPU);
    assert PromoteToGpu(s2) == s3;
    assert DowngradeWithoutGpus(s3) == s3;
    var s4 := s3.(numProcesses := Some(s2.NumGpus()));
    assert OverrideProcessCount(s3) == s4;
    assert WarnUnusedGpu(env, s4) == s4;
    assert MultiNodeSupported(s4);
    FinishWithoutHorovod(env, s2);
  }

  /** Lines 570-575 and 577-596 for `AutomaticMultiGpuSpawn`: the state handed to lines 598-652. */
  lemma MultiGpuSpawnChosen(env: Env, st: ConnectorState) returns (s2: ConnectorState)
    requires Automatic(env, st) && !HasHorovodrun(env) && st.NumGpus() > 1
    ensures s2 == st.(warnings := st.warnings + [MultipleGpusWithoutBackend], backend := Named("ddp_spawn"),
                      distribType := Some(DDPSpawn))
    ensures SetDistributedMode(env, st, None) == FinishMode(env, s2)
  {
    AutomaticSteps(env, st);
    var s1 := st.(warnings := st.warnings + [MultipleGpusWithoutBackend], backend := Named("ddp_spawn"));
    assert ChooseWithoutBackend(env, st) == Success(s1);
    s2 := s1.(distribType := Some(DDPSpawn));
    assert ApplyBackendName(env, s1) == Success(s2);
  }

  /**
   * Lines 565-575 with none of the above: at most one GPU and at most one node
   * and process leaves the kind unset; with no GPU the device stays as it was.
   */
  lemma AutomaticSingleDevice(env: Env, st: ConnectorState)
    requires Automatic(env, st) && !HasHorovodrun(env)
    requires st.NumGpus() <= 1
    requires st.NumGpus() == 0 ==> st.settings.numNodes <= 1 && st.numProcesses.Some? && st.numProcesses.value <= 1
    ensures var r := SetDistributedMode(env, st, None);
      && (r.Success? ==> r.value.distribType.None?)
      && (r.Success? && st.NumGpus() == 0 ==> r.value.deviceType == st.deviceType)
      && (r.Failure? <==> st.settings.numNodes > 1)
  {
    AutomaticSteps(env, st);
    assert ChooseWithoutBackend(env, st) == Success(st);
    assert ApplyBackendName(env, st) == Success(st);
    var s3 := PromoteToGpu(st);
    assert DowngradeWithoutGpus(s3) == s3;
    assert OverrideProcessCount(s3) == s3;
  }

  /** The backend this call works with is "ddp_cpu". */
  predicate DdpCpuCall(env: Env, st: ConnectorState, arg: Option<string>)
  {
    !DefersToPlugins(env, st, arg) && WithBackendArg(env, st, arg).backend == Named("ddp_cpu")
  }

  lemma NamesCpuDdpCpu()
    ensures NamesCpu(Named("ddp_cpu"))
  {
    assert IsSubstring("cpu", "ddp_cpu"[4..]) by {
      PrefixIsSubstring("cpu", "ddp_cpu"[4..]);
    }
    var t := "ddp_cpu";
    assert t[1..][1..][1..][1..] == t[4..];
  }

  /** Lines 578-587: the fields after the "ddp_cpu" branch. */
  function AfterDdpCpu(env: Env, s0: ConnectorState): (s2: ConnectorState)
  {
    var s1 := s0.(distribType := Some(DDPSpawn));
    var s1' := if s1.NumGpus() > 0 then s1.(warnings := s1.warnings + [DdpCpuIgnoresGpus], parallelDeviceIds := None) else s1;
    if s1'.numProcesses.None? then s1'.(numProcesses := env.cpuCount) else s1'
  }

  /** With a "ddp_cpu" backend the call is the "ddp_cpu" branch, then `FinishMode` without promotion or downgrade. */
  lemma DdpCpuSteps(env: Env, st: ConnectorState, arg: Option<string>)
    requires DdpCpuCall(env, st, arg)
    ensures var s2 := AfterDdpCpu(env, WithBackendArg(env, st, arg));
      && ApplyBackendName(env, WithBackendArg(env, st, arg)) == Success(s2)
      && SetDistributedMode(env, st, arg) == FinishMode(env, s2)
      && DowngradeWithoutGpus(PromoteToGpu(s2)) == s2
  {
    NamesCpuDdpCpu();
  }

  /** `FinishMode` on the fields the "ddp_cpu" branch leaves. */
  lemma FinishDdpCpu(env: Env, s2: ConnectorState)
    requires s2.backend == Named("ddp_cpu") && s2.distribType == Some(DDPSpawn)
    requires DowngradeWithoutGpus(PromoteToGpu(s2)) == s2
    ensures FinishMode(env, s2) ==
      if env.isInteractive && DDPSpawn !in env.interactiveCompatible
      then Failure(NotInteractiveCompatible(DDPSpawn, env.interactiveCompatible))
      else Success(WarnUnusedGpu(env, OverrideProcessCount(s2)))
  {
  }

  /**
   * Lines 578-587 and 599-601: "ddp_cpu" gives DDP-spawn, drops the GPU ids with a
   * warning, never promotes the device to GPU, and takes the CPU count as the
   * process count only when none was given.
   */
  lemma DdpCpuBackend(env: Env, st: ConnectorState, arg: Option<string>)
    requires DdpCpuCall(env, st, arg)
    ensures var r := SetDistributedMode(env, st, arg);
      && (r.Failure? <==> env.isInteractive && DDPSpawn !in env.interactiveCompatible)
      && (r.Success? ==>
            && r.value.distribType == Some(DDPSpawn)
            && r.value.parallelDeviceIds == (if st.NumGpus() > 0 then None else st.parallelDeviceIds)
            && (st.NumGpus() > 0 ==> DdpCpuIgnoresGpus in r.value.warnings)
            && (st.deviceType != GPU ==> r.value.deviceType == st.deviceType)
            && (st.deviceType != GPU ==>
                  r.value.numProcesses == if st.numProcesses.None? then env.cpuCount else st.numProcesses))
  {
    DdpCpuSteps(env, st, arg);
    var s2 := AfterDdpCpu(env, WithBackendArg(env, st, arg));
    FinishDdpCpu(env, s2);
    assert s2.deviceType != GPU ==> OverrideProcessCount(s2) == s2;
  }

  /**
   * The plugin path re-enters `set_distributed_mode` with the kind reset but not
   * the device type (line 192): a "ddp_cpu" string seen after a GPU run was
   * chosen keeps the GPU device type and then, with no GPU ids left, sets the
   * process count to zero (lines 620-624).
   */
  lemma DdpCpuAfterGpuKeepsGpuDevice(env: Env, st: ConnectorState)
    requires "ddp_cpu" !in env.registry
    requires st.deviceType == GPU
    requires !env.isInteractive || DDPSpawn in env.interactiveCompatible
    ensures var r := SetDistributedMode(env, st.(distribType := None), Some("ddp_cpu"));
      r.Success? && r.value.deviceType == GPU && r.value.NumGpus() == 0 && r.value.numProcesses == Some(0)
  {
    var st' := st.(distribType := None);
    DdpCpuSteps(env, st', Some("ddp_cpu"));
    var s2 := AfterDdpCpu(env, WithBackendArg(env, st', Some("ddp_cpu")));
    FinishDdpCpu(env, s2);
    assert OverrideProcessCount(s2) == s2.(numProcesses := Some(0));
  }

  // ---------------------------------------------------------------------------
  // configure_slurm_ddp (lines 698-732)
  // ---------------------------------------------------------------------------

  /**
   * Under DDP or DDP2 the SLURM flag is set exactly when `SLURM_NTASKS` is an
   * integer matching the requested GPUs over all nodes (the process count when
   * that is zero) and `SLURM_JOB_NAME` is present and not "bash"; a nonzero
   * `FAKE_SLURM_MANAGING_TASKS` forces it on; otherwise the flag is kept.
   */
  lemma SlurmDetection(env: Env, st: ConnectorState)
    ensures var r := ConfigureSlurmDdp(env, st);
      var tasks := EnvInt(env, "SLURM_NTASKS");
      var requested := st.NumGpus() * st.settings.numNodes;
      && r == st.(slurmManaging := r.slurmManaging)
      && (FakeSlurmManaging(env) ==> r.slurmManaging)
      && (!FakeSlurmManaging(env) && (st.UseDdp() || st.UseDdp2()) ==>
            (r.slurmManaging <==>
               && tasks.Some?
               && "SLURM_JOB_NAME" in env.vars && env.vars["SLURM_JOB_NAME"] != "bash"
               && (requested != 0 ==> tasks.value == requested)
               && (requested == 0 ==> st.numProcesses == Some(tasks.value))))
      && (!FakeSlurmManaging(env) && !(st.UseDdp() || st.UseDdp2()) ==> r.slurmManaging == st.slurmManaging)
  {
  }

  /** A job started from an interactive "bash" allocation is never SLURM-managed unless faked. */
  lemma SlurmBashJobNotManaged(env: Env, st: ConnectorState)
    requires "SLURM_JOB_NAME" in env.vars && env.vars["SLURM_JOB_NAME"] == "bash"
    requires !FakeSlurmManaging(env) && !st.slurmManaging
    ensures !ConfigureSlurmDdp(env, st).slurmManaging
  {
  }

  /** A matching task count, given as a decimal, with a batch job name means SLURM manages the tasks. */
  lemma SlurmMatchingTasksManaged(env: Env, st: ConnectorState)
    requires st.UseDdp() || st.UseDdp2()
    requires st.NumGpus() > 0 && st.settings.numNodes > 0
    requires "SLURM_NTASKS" in env.vars && env.vars["SLURM_NTASKS"] == Decimal(st.NumGpus() * st.settings.numNodes)
    requires "SLURM_JOB_NAME" in env.vars && env.vars["SLURM_JOB_NAME"] != "bash"
    ensures ConfigureSlurmDdp(env, st).slurmManaging
  {
    ParseIntOfDecimal(st.NumGpus() * st.settings.numNodes);
  }
}
