/**
 * What `handle_given_plugins` guarantees about the `plugins` argument
 * (pytorch_lightning/trainer/connectors/accelerator_connector.py:173-227):
 * a second hint of one category, or a hint of no category, makes it raise;
 * after a normal return each category holds the one hint that was given.
 */
module ClassifierProperties {
  import opened Wrappers
  import opened Plugins
  import opened Resolution
  import opened ModeProperties

  /** The three kinds of override a plugin hint can be. */
  datatype Category = TrainingTypeCategory | PrecisionCategory | ClusterEnvironmentCategory

  /** `h` is a hint of category `c`; a string counts as a training type only when it is registered. */
  predicate InCategory(env: Env, h: PluginHint, c: Category)
  {
    match c
    case TrainingTypeCategory => (h.NameHint? && h.name in env.registry) || h.TrainingTypeHint?
    case PrecisionCategory => h.PrecisionHint?
    case ClusterEnvironmentCategory => h.ClusterEnvironmentHint?
  }

  /** The accumulator of category `c` already holds a hint. */
  predicate Taken(acc: Hints, c: Category)
  {
    match c
    case TrainingTypeCategory => acc.trainingType.Some?
    case PrecisionCategory => acc.precision.Some?
    case ClusterEnvironmentCategory => acc.clusterEnv.Some?
  }

  /** Two distinct positions of `ps` hold hints of category `c`. */
  predicate HasTwo(env: Env, ps: seq<PluginHint>, c: Category)
  {
    exists i, j :: 0 <= i < j < |ps| && InCategory(env, ps[i], c) && InCategory(env, ps[j], c)
  }

  /** One step of the loop never empties an accumulator it found filled. */
  lemma ClassifyHintKeepsTaken(env: Env, st: ConnectorState, acc: Hints, plug: PluginHint, c: Category)
    requires Taken(acc, c)
    ensures ClassifyHint(env, st, acc, plug).Success? ==> Taken(ClassifyHint(env, st, acc, plug).value.1, c)
    ensures InCategory(env, plug, c) ==> ClassifyHint(env, st, acc, plug).Failure?
  {
  }

  /** One step fills the accumulator of the category of the hint it accepts. */
  lemma ClassifyHintTakes(env: Env, st: ConnectorState, acc: Hints, plug: PluginHint, c: Category)
    requires InCategory(env, plug, c)
    ensures ClassifyHint(env, st, acc, plug).Success? ==> Taken(ClassifyHint(env, st, acc, plug).value.1, c)
  {
  }

  /** With category `c` already taken, any later hint of that category raises. */
  lemma {:induction false} LaterHintOfTakenCategoryFails(
    env: Env, st: ConnectorState, acc: Hints, ps: seq<PluginHint>, c: Category, j: nat)
    requires Taken(acc, c)
    requires j < |ps| && InCategory(env, ps[j], c)
    ensures ClassifyHints(env, st, acc, ps).Failure?
    decreases |ps|
  {
    ClassifyHintKeepsTaken(env, st, acc, ps[0], c);
    var step := ClassifyHint(env, st, acc, ps[0]);
    if j > 0 && step.Success? {
      LaterHintOfTakenCategoryFails(env, step.value.0, step.value.1, ps[1..], c, j - 1);
    }
  }

  /** Two hints of one category at positions `i < j` make the loop raise, whatever comes between. */
  lemma {:induction false} TwoHintsOfOneCategoryFail(
    env: Env, st: ConnectorState, acc: Hints, ps: seq<PluginHint>, c: Category, i: nat, j: nat)
    requires i < j < |ps| && InCategory(env, ps[i], c) && InCategory(env, ps[j], c)
    ensures ClassifyHints(env, st, acc, ps).Failure?
    decreases |ps|
  {
    var step := ClassifyHint(env, st, acc, ps[0]);
    if step.Success? {
      if i == 0 {
        ClassifyHintTakes(env, st, acc, ps[0], c);
        LaterHintOfTakenCategoryFails(env, step.value.0, step.value.1, ps[1..], c, j - 1);
      } else {
        TwoHintsOfOneCategoryFail(env, step.value.0, step.value.1, ps[1..], c, i - 1, j - 1);
      }
    }
  }

  /**
   * Lines 180-219: two training-type hints (registered names or strategy objects),
   * two precision plugins or two cluster environments always make
   * `handle_given_plugins` raise, in whichever order they appear.
   */
  lemma ConflictingHintsFail(env: Env, st: ConnectorState, c: Category)
    requires HasTwo(env, st.settings.plugins, c)
    ensures HandleGivenPlugins(env, st).Failure?
  {
    var ps := st.settings.plugins;
    var i, j :| 0 <= i < j < |ps| && InCategory(env, ps[i], c) && InCategory(env, ps[j], c);
    TwoHintsOfOneCategoryFail(env, st, NoHints, ps, c, i, j);
  }

  /** Lines 220-223, over the remaining plugins. */
  lemma {:induction false} InvalidHintFailsFrom(env: Env, st: ConnectorState, acc: Hints, ps: seq<PluginHint>, j: nat)
    requires j < |ps| && ps[j].OtherHint?
    ensures ClassifyHints(env, st, acc, ps).Failure?
    decreases |ps|
  {
    var step := ClassifyHint(env, st, acc, ps[0]);
    if j > 0 && step.Success? {
      InvalidHintFailsFrom(env, step.value.0, step.value.1, ps[1..], j - 1);
    }
  }

  /** Lines 220-223: a hint that is no string, strategy, precision plugin or cluster environment raises. */
  lemma InvalidHintFails(env: Env, st: ConnectorState, j: nat)
    requires j < |st.settings.plugins| && st.settings.plugins[j].OtherHint?
    ensures HandleGivenPlugins(env, st).Failure?
  {
    InvalidHintFailsFrom(env, st, NoHints, st.settings.plugins, j);
  }

  /** The precision plugin the loop ends with, from an empty precision accumulator. */
  lemma {:induction false} FoundPrecision(env: Env, st: ConnectorState, acc: Hints, ps: seq<PluginHint>)
    requires acc.precision.None?
    requires ClassifyHints(env, st, acc, ps).Success?
    ensures var found := ClassifyHints(env, st, acc, ps).value.1;
      && (found.precision.Some? <==> exists i :: 0 <= i < |ps| && ps[i].PrecisionHint?)
      && forall i :: 0 <= i < |ps| && ps[i].PrecisionHint? ==> found.precision == Some(ps[i].precision)
    decreases |ps|
  {
    if ps != [] {
      var step := ClassifyHint(env, st, acc, ps[0]).value;
      if ps[0].PrecisionHint? {
        forall i | 1 <= i < |ps| && ps[i].PrecisionHint? ensures false {
          LaterHintOfTakenCategoryFails(env, step.0, step.1, ps[1..], PrecisionCategory, i - 1);
        }
        KeepsPrecision(env, step.0, step.1, ps[1..]);
      } else {
        FoundPrecision(env, step.0, step.1, ps[1..]);
        assert forall i :: 1 <= i < |ps| ==> ps[i] == ps[1..][i - 1];
      }
    }
  }

  /** A filled precision accumulator passes through the rest of the loop unchanged. */
  lemma {:induction false} KeepsPrecision(env: Env, st: ConnectorState, acc: Hints, ps: seq<PluginHint>)
    requires acc.precision.Some?
    requires ClassifyHints(env, st, acc, ps).Success?
    ensures ClassifyHints(env, st, acc, ps).value.1.precision == acc.precision
    decreases |ps|
  {
    if ps != [] {
      var step := ClassifyHint(env, st, acc, ps[0]).value;
      KeepsPrecision(env, step.0, step.1, ps[1..]);
    }
  }

  /** The cluster environment the loop ends with, from an empty accumulator. */
  lemma {:induction false} FoundClusterEnvironment(env: Env, st: ConnectorState, acc: Hints, ps: seq<PluginHint>)
    requires acc.clusterEnv.None?
    requires ClassifyHints(env, st, acc, ps).Success?
    ensures var found := ClassifyHints(env, st, acc, ps).value.1;
      && (found.clusterEnv.Some? <==> exists i :: 0 <= i < |ps| && ps[i].ClusterEnvironmentHint?)
      && forall i :: 0 <= i < |ps| && ps[i].ClusterEnvironmentHint? ==> found.clusterEnv == Some(ps[i].environment)
    decreases |ps|
  {
    if ps != [] {
      var step := ClassifyHint(env, st, acc, ps[0]).value;
      if ps[0].ClusterEnvironmentHint? {
        forall i | 1 <= i < |ps| && ps[i].ClusterEnvironmentHint? ensures false {
          LaterHintOfTakenCategoryFails(env, step.0, step.1, ps[1..], ClusterEnvironmentCategory, i - 1);
        }
        KeepsClusterEnvironment(env, step.0, step.1, ps[1..]);
      } else {
        FoundClusterEnvironment(env, step.0, step.1, ps[1..]);
        assert forall i :: 1 <= i < |ps| ==> ps[i] == ps[1..][i - 1];
      }
    }
  }

  /** A filled cluster-environment accumulator passes through the rest of the loop unchanged. */
  lemma {:induction false} KeepsClusterEnvironment(env: Env, st: ConnectorState, acc: Hints, ps: seq<PluginHint>)
    requires acc.clusterEnv.Some?
    requires ClassifyHints(env, st, acc, ps).Success?
    ensures ClassifyHints(env, st, acc, ps).value.1.clusterEnv == acc.clusterEnv
    decreases |ps|
  {
    if ps != [] {
      var step := ClassifyHint(env, st, acc, ps[0]).value;
      KeepsClusterEnvironment(env, step.0, step.1, ps[1..]);
    }
  }

  /** The strategy a training-type hint stands for: the registry's plugin for a name. */
  function HintedStrategy(env: Env, h: PluginHint): Strategy
    requires InCategory(env, h, TrainingTypeCategory)
  {
    if h.NameHint? then env.registry[h.name].plugin else h.strategy
  }

  /** The training type the loop ends with, from an empty accumulator. */
  lemma {:induction false} FoundTrainingType(env: Env, st: ConnectorState, acc: Hints, ps: seq<PluginHint>)
    requires acc.trainingType.None?
    requires ClassifyHints(env, st, acc, ps).Success?
    ensures var found := ClassifyHints(env, st, acc, ps).value.1;
      && (found.trainingType.Some? <==> exists i :: 0 <= i < |ps| && InCategory(env, ps[i], TrainingTypeCategory))
      && forall i :: 0 <= i < |ps| && InCategory(env, ps[i], TrainingTypeCategory) ==>
           found.trainingType == Some(HintedStrategy(env, ps[i]))
    decreases |ps|
  {
    if ps != [] {
      var step := ClassifyHint(env, st, acc, ps[0]).value;
      if InCategory(env, ps[0], TrainingTypeCategory) {
        forall i | 1 <= i < |ps| && InCategory(env, ps[i], TrainingTypeCategory) ensures false {
          LaterHintOfTakenCategoryFails(env, step.0, step.1, ps[1..], TrainingTypeCategory, i - 1);
        }
        KeepsTrainingType(env, step.0, step.1, ps[1..]);
      } else {
        FoundTrainingType(env, step.0, step.1, ps[1..]);
        assert forall i :: 1 <= i < |ps| ==> ps[i] == ps[1..][i - 1];
      }
    }
  }

  /** A filled training-type accumulator passes through the rest of the loop unchanged. */
  lemma {:induction false} KeepsTrainingType(env: Env, st: ConnectorState, acc: Hints, ps: seq<PluginHint>)
    requires acc.trainingType.Some?
    requires ClassifyHints(env, st, acc, ps).Success?
    ensures ClassifyHints(env, st, acc, ps).value.1.trainingType == acc.trainingType
    decreases |ps|
  {
    if ps != [] {
      var step := ClassifyHint(env, st, acc, ps[0]).value;
      KeepsTrainingType(env, step.0, step.1, ps[1..]);
    }
  }

  /**
   * The nested `set_distributed_mode` calls of the loop leave the SLURM flag,
   * the stored cluster environment and the other plugin choices alone.
   */
  lemma {:induction false} ClassifyKeepsChoices(env: Env, st: ConnectorState, acc: Hints, ps: seq<PluginHint>)
    requires ClassifyHints(env, st, acc, ps).Success?
    ensures KeepsChoices(st, ClassifyHints(env, st, acc, ps).value.0)
    decreases |ps|
  {
    if ps != [] {
      var step := ClassifyHint(env, st, acc, ps[0]).value;
      if ps[0].NameHint? {
        SetDistributedModeKeepsChoices(env, st.(distribType := None), Some(ps[0].name));
      }
      ClassifyKeepsChoices(env, step.0, step.1, ps[1..]);
    }
  }

  /**
   * Lines 225-227: after a normal return the connector stores exactly the hints
   * it was given, one per category, and a cluster environment in every case:
   * the given one, or the one `select_cluster_environment` picks for the
   * fields the connector had on entry (string plugins do not change the
   * SLURM flag it reads).
   */
  lemma StoredHints(env: Env, st: ConnectorState)
    requires HandleGivenPlugins(env, st).Success?
    ensures var ps := st.settings.plugins;
      var post := HandleGivenPlugins(env, st).value;
      && (post.trainingType.Some? <==> exists i :: 0 <= i < |ps| && InCategory(env, ps[i], TrainingTypeCategory))
      && (forall i :: 0 <= i < |ps| && InCategory(env, ps[i], TrainingTypeCategory) ==>
            post.trainingType == Some(HintedStrategy(env, ps[i])))
      && (post.precisionPlugin.Some? <==> exists i :: 0 <= i < |ps| && ps[i].PrecisionHint?)
      && (forall i :: 0 <= i < |ps| && ps[i].PrecisionHint? ==> post.precisionPlugin == Some(ps[i].precision))
      && post.clusterEnv.Some?
      && (forall i :: 0 <= i < |ps| && ps[i].ClusterEnvironmentHint? ==> post.clusterEnv == Some(ps[i].environment))
      && ((forall i :: 0 <= i < |ps| ==> !ps[i].ClusterEnvironmentHint?) ==>
            post.clusterEnv == Some(SelectClusterEnvironment(env, st)))
    ensures var ps := st.settings.plugins;
      && (forall c :: !HasTwo(env, ps, c))
      && (forall i :: 0 <= i < |ps| ==> !ps[i].OtherHint?)
  {
    var ps := st.settings.plugins;
    FoundTrainingType(env, st, NoHints, ps);
    FoundPrecision(env, st, NoHints, ps);
    FoundClusterEnvironment(env, st, NoHints, ps);
    ClassifyKeepsChoices(env, st, NoHints, ps);
    forall c | HasTwo(env, ps, c) ensures false {
      ConflictingHintsFail(env, st, c);
    }
    forall i | 0 <= i < |ps| && ps[i].OtherHint? ensures false {
      InvalidHintFails(env, st, i);
    }
  }
}
