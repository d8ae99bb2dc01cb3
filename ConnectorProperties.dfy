/**
 * What a whole construction of the connector promises
 * (pytorch_lightning/trainer/connectors/accelerator_connector.py:84-171):
 * the multi-node check survives the plugin loop and the selectors, a custom
 * accelerator is handed back as it is, and otherwise the accelerator is built
 * from the memoized strategy and precision plugin.
 */
module ConnectorProperties {
  import opened Wrappers
  import opened Kinds
  import opened Plugins
  import opened Resolution
  import opened ModeProperties
  import opened ClassifierProperties
  import opened SelectorProperties

  /** Some plugin is given as a string. */
  predicate HasNameHint(ps: seq<PluginHint>)
  {
    exists i :: 0 <= i < |ps| && ps[i].NameHint?
  }

  /** The errors the plugin loop raises by itself, without a nested `set_distributed_mode`. */
  predicate ClassificationError(e: Error)
  {
    e.MultipleTrainingTypePlugins? || e.MultiplePrecisionPlugins? || e.MultipleClusterEnvironments? || e.InvalidPlugin?
  }

  /** Without string plugins the loop leaves the connector's fields alone and raises only classification errors. */
  lemma {:induction false} ClassifyWithoutNames(env: Env, st: ConnectorState, acc: Hints, ps: seq<PluginHint>)
    requires !HasNameHint(ps)
    ensures var r := ClassifyHints(env, st, acc, ps);
      && (r.Success? ==> r.value.0 == st)
      && (r.Failure? ==> ClassificationError(r.error))
    decreases |ps|
  {
    if ps != [] {
      assert !ps[0].NameHint?;
      var step := ClassifyHint(env, st, acc, ps[0]);
      if step.Success? {
        assert !HasNameHint(ps[1..]) by {
          forall i | 0 <= i < |ps[1..]| ensures !ps[1..][i].NameHint? {
            assert ps[1..][i] == ps[i + 1];
          }
        }
        ClassifyWithoutNames(env, step.value.0, step.value.1, ps[1..]);
      }
    }
  }

  /**
   * The loop keeps the multi-node check: either it already holds, or a string
   * plugin still to come re-runs `set_distributed_mode`, which establishes it.
   */
  lemma {:induction false} ClassifyKeepsMultiNode(env: Env, st: ConnectorState, acc: Hints, ps: seq<PluginHint>)
    requires MultiNodeSupported(st) || HasNameHint(ps)
    ensures var r := ClassifyHints(env, st, acc, ps);
      r.Success? ==> MultiNodeSupported(r.value.0)
    decreases |ps|
  {
    if ps != [] {
      var step := ClassifyHint(env, st, acc, ps[0]);
      if step.Success? {
        if ps[0].NameHint? {
          var st' := st.(distribType := None);
          assert Infers(env, st', Some(ps[0].name));
          MultiNodeNeedsDdp(env, st', Some(ps[0].name));
        } else {
          assert step.value.0 == st;
          if !MultiNodeSupported(st) {
            var i :| 0 <= i < |ps| && ps[i].NameHint?;
            assert ps[1..][i - 1] == ps[i];
          }
        }
        ClassifyKeepsMultiNode(env, step.value.0, step.value.1, ps[1..]);
      }
    }
  }

  /** `handle_given_plugins` keeps the multi-node check in the same way. */
  lemma HandlePluginsKeepsMultiNode(env: Env, st: ConnectorState)
    requires MultiNodeSupported(st) || HasNameHint(st.settings.plugins)
    ensures var r := HandleGivenPlugins(env, st);
      r.Success? ==> MultiNodeSupported(r.value)
  {
    ClassifyKeepsMultiNode(env, st, NoHints, st.settings.plugins);
  }

  /** Lines 598-652 never change the backend. */
  lemma FinishKeepsBackend(env: Env, s2: ConnectorState)
    ensures FinishMode(env, s2).Success? ==> FinishMode(env, s2).value.backend == s2.backend
  {
    var s3 := DowngradeWithoutGpus(PromoteToGpu(s2));
    var s4 := OverrideProcessCount(s3);
    assert s4.backend == s2.backend;
  }

  /** Lines 565-575 only ever name "ddp_spawn" as the backend. */
  lemma ChooseKeepsBackend(env: Env, st: ConnectorState)
    ensures var r := ChooseWithoutBackend(env, st);
      r.Success? ==> r.value.backend == st.backend || r.value.backend == Named("ddp_spawn")
  {
  }

  /** Lines 577-596 never change the backend. */
  lemma ApplyKeepsBackend(env: Env, st: ConnectorState)
    ensures var r := ApplyBackendName(env, st);
      r.Success? ==> r.value.backend == st.backend
  {
  }

  /** `set_distributed_mode` never turns a named backend into a custom accelerator. */
  lemma ModeKeepsNamedBackend(env: Env, st: ConnectorState, arg: Option<string>)
    requires !st.backend.AcceleratorBackend?
    ensures var r := SetDistributedMode(env, st, arg);
      r.Success? ==> !r.value.backend.AcceleratorBackend?
  {
    if Infers(env, st, arg) {
      if SetDistributedMode(env, st, arg).Success? {
        var s1, s2 := Stages(env, st, arg);
        ChooseKeepsBackend(env, WithBackendArg(env, st, arg));
        ApplyKeepsBackend(env, s1);
        FinishKeepsBackend(env, s2);
      }
    } else if DefersToPlugins(env, st, arg) {
      assert SetDistributedMode(env, st, arg) == Success(st);
    }
  }

  /** The plugin loop does the same. */
  lemma {:induction false} ClassifyKeepsNamedBackend(env: Env, st: ConnectorState, acc: Hints, ps: seq<PluginHint>)
    requires !st.backend.AcceleratorBackend?
    ensures var r := ClassifyHints(env, st, acc, ps);
      r.Success? ==> !r.value.0.backend.AcceleratorBackend?
    decreases |ps|
  {
    if ps != [] {
      var step := ClassifyHint(env, st, acc, ps[0]);
      if step.Success? {
        if ps[0].NameHint? {
          ModeKeepsNamedBackend(env, st.(distribType := None), Some(ps[0].name));
        }
        ClassifyKeepsNamedBackend(env, step.value.0, step.value.1, ps[1..]);
      }
    }
  }

  /** The connector's fields when `select_accelerator` starts (lines 142-147). */
  lemma BeforeSelection(env: Env, inputs: Inputs) returns (s4: ConnectorState)
    requires Initialize(env, inputs).Success?
    ensures s4.Valid() && !s4.resolved
    ensures SelectAccelerator(env, s4).Success?
    ensures var selected := SelectAccelerator(env, s4).value;
      Initialize(env, inputs) ==
        Success((if selected.0.OnTpu() then selected.0.(backend := Named("tpu")) else selected.0, selected.1))
    ensures !inputs.backend.AcceleratorBackend? ==> !s4.backend.AcceleratorBackend? && MultiNodeSupported(s4)
  {
    var s0 := InitialState(inputs);
    var s1 := SetDistributedMode(env, s0, None).value;
    var s2 := ConfigureSlurmDdp(env, s1);
    var s3 := HandleGivenPlugins(env, s2).value;
    s4 := s3.(resolved := false);
    if !inputs.backend.AcceleratorBackend? {
      ModeKeepsNamedBackend(env, s0, None);
      ClassifyKeepsNamedBackend(env, s2, NoHints, s2.settings.plugins);
      SetDistributedModeKeepsChoices(env, s0, None);
      if DefersToPlugins(env, s0, None) {
        var i :| 0 <= i < |s0.settings.plugins| && s0.settings.plugins[i].NameHint? && s0.settings.plugins[i].name in env.registry;
      } else {
        MultiNodeNeedsDdp(env, s0, None);
      }
      HandlePluginsKeepsMultiNode(env, s2);
    }
  }

  /**
   * Lines 84-171 with any non-accelerator backend: every successful
   * construction on more than one node ends in a DDP-family or DDP2 mode.
   */
  lemma InitializeMultiNodeNeedsDdp(env: Env, inputs: Inputs)
    requires !inputs.backend.AcceleratorBackend?
    ensures var r := Initialize(env, inputs);
      r.Success? ==> MultiNodeSupported(r.value.0)
  {
    if Initialize(env, inputs).Success? {
      var s4 := BeforeSelection(env, inputs);
      var t := TrainingTypeProperty(env, s4).value;
      PrecisionKeepsMode(env, t.0);
    }
  }

  /**
   * Lines 513-531 as reached from the constructor: with a non-accelerator
   * backend the accelerator is built for the final device from the memoized
   * strategy and precision plugin, which are both stored and marked resolved;
   * on TPU the backend name becomes "tpu" (lines 151-152).
   */
  lemma InitializeBuildsAccelerator(env: Env, inputs: Inputs)
    requires !inputs.backend.AcceleratorBackend?
    ensures var r := Initialize(env, inputs);
      r.Success? ==>
        var (st, acc) := r.value;
        && acc.BuiltAccelerator?
        && acc.cls == AcceleratorClassFor(env, st)
        && st.trainingType == Some(acc.trainingTypePlugin) && st.resolved
        && st.precisionPlugin == Some(acc.precisionPlugin)
        && (st.OnTpu() ==> st.backend == Named("tpu"))
  {
    if Initialize(env, inputs).Success? {
      var s4 := BeforeSelection(env, inputs);
      var t := TrainingTypeProperty(env, s4).value;
      PrecisionKeepsMode(env, t.0);
    }
  }

  /**
   * Lines 142-148, 562-563 and 513-522: a custom accelerator with no string plugins skips
   * mode inference and selection; it is returned unchanged, the strategy stays
   * unresolved, the only errors are the plugin loop's own, and the warning
   * that plugins are ignored is given exactly when a strategy or precision
   * plugin was passed.  A string plugin instead replaces the accelerator
   * (`Findings.StringPluginReplacesAccelerator`).
   */
  lemma CustomAcceleratorBypass(env: Env, inputs: Inputs, h: CustomAccelerator)
    requires inputs.backend == AcceleratorBackend(h)
    requires !HasNameHint(NormalizePlugins(inputs.plugins))
    ensures var r := Initialize(env, inputs);
      var ps := NormalizePlugins(inputs.plugins);
      var ignored := exists i :: 0 <= i < |ps| && (ps[i].TrainingTypeHint? || ps[i].PrecisionHint?);
      && (r.Failure? ==> ClassificationError(r.error))
      && (r.Success? ==>
            && r.value.1 == GivenAccelerator(h)
            && r.value.0.distribType.None? && r.value.0.deviceType == CPU && !r.value.0.resolved
            && r.value.0.warnings == (if ignored then [AcceleratorIgnoresPlugins] else []))
  {
    var s2 := AcceleratorPlugins(env, inputs, h);
    if HandleGivenPlugins(env, s2).Success? {
      var s4 := HandleGivenPlugins(env, s2).value.(resolved := false);
      var warned := if s4.precisionPlugin.Some? || s4.trainingType.Some?
        then s4.(warnings := s4.warnings + [AcceleratorIgnoresPlugins]) else s4;
      assert SelectAccelerator(env, s4) == Success((warned, GivenAccelerator(h)));
    }
  }

  /** The stages of `CustomAcceleratorBypass` up to the end of the plugin loop. */
  lemma AcceleratorPlugins(env: Env, inputs: Inputs, h: CustomAccelerator) returns (s2: ConnectorState)
    requires inputs.backend == AcceleratorBackend(h)
    requires !HasNameHint(NormalizePlugins(inputs.plugins))
    ensures SetDistributedMode(env, InitialState(inputs), None) == Success(InitialState(inputs))
    ensures s2 == ConfigureSlurmDdp(env, InitialState(inputs))
    ensures var r := HandleGivenPlugins(env, s2);
      var ps := NormalizePlugins(inputs.plugins);
      && (r.Failure? ==> ClassificationError(r.error))
      && (r.Success? ==>
            && r.value.Valid() && r.value.backend == AcceleratorBackend(h)
            && r.value.distribType.None? && r.value.deviceType == CPU && r.value.warnings == []
            && (r.value.trainingType.Some? || r.value.precisionPlugin.Some? <==>
                  exists i :: 0 <= i < |ps| && (ps[i].TrainingTypeHint? || ps[i].PrecisionHint?)))
  {
    var ps := NormalizePlugins(inputs.plugins);
    var s0 := InitialState(inputs);
    assert !IsTrainingTypeInPlugins(env, ps);
    assert SetDistributedMode(env, s0, None) == Success(s0);
    s2 := ConfigureSlurmDdp(env, s0);
    ClassifyWithoutNames(env, s2, NoHints, ps);
    if HandleGivenPlugins(env, s2).Success? {
      FoundTrainingType(env, s2, NoHints, ps);
      FoundPrecision(env, s2, NoHints, ps);
      var s3 := HandleGivenPlugins(env, s2).value;
      assert s3.trainingType.Some? || s3.precisionPlugin.Some? <==> exists i :: 0 <= i < |ps| && (ps[i].TrainingTypeHint? || ps[i].PrecisionHint?) by {
        forall i | 0 <= i < |ps| ensures InCategory(env, ps[i], TrainingTypeCategory) <==> ps[i].TrainingTypeHint? {
        }
      }
    }
  }
}
