/** The feature switches: command line defaults that the control ConfigMap overrides. */
module Switches {
  import opened Wrappers
  import opened Text
  import opened Polls

  const HUGEPAGE_API := "enableHugePageDownApi"
  const HONOR_RESOURCES := "enableHonorExistingResources"

  datatype State = State(active: bool, initial: bool)

  type Configuration = map<string, State>

  /** Go's zero value for a missing entry. */
  function StateOf(configuration: Configuration, feature: string): State {
    if feature in configuration then configuration[feature] else State(false, false)
  }

  // ---------- one poll, as functions on the configuration ----------

  function Decide(state: State, feature: string, switchObj: map<string, bool>): State {
    state.(active := if feature in switchObj then switchObj[feature] else state.initial)
  }

  function DecideBoth(configuration: Configuration, switchObj: map<string, bool>): Configuration {
    configuration[HUGEPAGE_API := Decide(StateOf(configuration, HUGEPAGE_API), HUGEPAGE_API, switchObj)]
                 [HONOR_RESOURCES := Decide(StateOf(configuration, HONOR_RESOURCES), HONOR_RESOURCES, switchObj)]
  }

  /** What a ConfigMap decides: None for one that says nothing about features. Malformed JSON decides the defaults. */
  function Decision(config: ConfigMap): Option<map<string, bool>> {
    match config
    case NoFile => None
    case UnreadableFile => Some(map[])
    case File(Absent, _) => None
    case File(Unreadable, _) => Some(map[])
    case File(Readable(switchObj), _) => Some(switchObj)
  }

  /**
   What a ConfigMap does to a switch: nothing without a file or a features section; the initial
   state if either cannot be read, or if the section does not mention it; else what it says.
   */
  lemma AfterConfigExactly(configuration: Configuration, config: ConfigMap, feature: string)
    requires feature == HUGEPAGE_API || feature == HONOR_RESOURCES
    ensures var before, after := StateOf(configuration, feature), StateOf(AfterConfig(configuration, config), feature);
            && after.initial == before.initial
            && (config.NoFile? || (config.File? && config.features.Absent?) ==> AfterConfig(configuration, config) == configuration)
            && (config.UnreadableFile? || (config.File? && config.features.Unreadable?) ==> after.active == before.initial)
            && (config.File? && config.features.Readable? ==>
                  after.active == if feature in config.features.value then config.features.value[feature] else before.initial)
  {
  }

  function AfterConfig(configuration: Configuration, config: ConfigMap): Configuration {
    match Decision(config)
    case Some(switchObj) => DecideBoth(configuration, switchObj)
    case None => configuration
  }

  // ---------- the object ----------

  function ResourceNameKeys(flag: string): seq<string> {
    var parts := Split(flag, ',');
    seq(|parts|, i requires 0 <= i < |parts| => TrimSpace(parts[i]))
  }

  /** A flag listing keys with any white space around them yields just the keys. */
  lemma ResourceNameKeysTrimmed(keys: seq<string>, before: seq<string>, after: seq<string>)
    requires keys != [] && |before| == |after| == |keys|
    requires forall i :: 0 <= i < |keys| ==> Tight(keys[i]) && ',' !in keys[i] && Blank(before[i]) && Blank(after[i])
    ensures var padded := seq(|keys|, i requires 0 <= i < |keys| => before[i] + keys[i] + after[i]);
            ResourceNameKeys(Join(padded, ',')) == keys
  {
    var padded := seq(|keys|, i requires 0 <= i < |keys| => before[i] + keys[i] + after[i]);
    forall i | 0 <= i < |keys| ensures ',' !in padded[i] && TrimSpace(padded[i]) == keys[i] {
      PaddedKey(keys[i], before[i], after[i]);
    }
    SplitJoin(padded, ',');
  }

  lemma PaddedKey(key: string, before: string, after: string)
    requires Tight(key) && ',' !in key && Blank(before) && Blank(after)
    ensures ',' !in before + key + after && TrimSpace(before + key + after) == key
  {
    TrimPadded(before, key, after);
    forall i | 0 <= i < |before| ensures before[i] != ',' { assert IsSpace(before[i]); }
    forall i | 0 <= i < |after| ensures after[i] != ',' { assert IsSpace(after[i]); }
  }

  class ControlSwitches {
    const injectHugepageDownApi: bool
    const resourceNameKeysFlag: string
    const resourcesHonorFlag: bool
    var configuration: Configuration
    var resourceNameKeys: seq<string>
    var isValid: bool

    constructor (injectHugepageDownApi: bool, resourceNameKeysFlag: string, resourcesHonorFlag: bool)
      ensures this.injectHugepageDownApi == injectHugepageDownApi
      ensures this.resourceNameKeysFlag == resourceNameKeysFlag && this.resourcesHonorFlag == resourcesHonorFlag
      ensures configuration == map[] && resourceNameKeys == [] && !isValid
    {
      this.injectHugepageDownApi := injectHugepageDownApi;
      this.resourceNameKeysFlag := resourceNameKeysFlag;
      this.resourcesHonorFlag := resourcesHonorFlag;
      configuration, resourceNameKeys, isValid := map[], [], false;
    }

    method InitControlSwitches()
      modifies this
      ensures configuration == map[HUGEPAGE_API := State(injectHugepageDownApi, injectHugepageDownApi),
                                   HONOR_RESOURCES := State(resourcesHonorFlag, resourcesHonorFlag)]
      ensures resourceNameKeys == ResourceNameKeys(resourceNameKeysFlag) && isValid
    {
      configuration := map[];
      configuration := configuration[HUGEPAGE_API := State(injectHugepageDownApi, injectHugepageDownApi)];
      configuration := configuration[HONOR_RESOURCES := State(resourcesHonorFlag, resourcesHonorFlag)];
      var parts, keys := Split(resourceNameKeysFlag, ','), [];
      for i := 0 to |parts|
        invariant |keys| == i && forall k :: 0 <= k < i ==> keys[k] == TrimSpace(parts[k])
      {
        keys := keys + [TrimSpace(parts[i])];
      }
      resourceNameKeys := keys;
      isValid := true;
    }

    method IsHugePagedownApiEnabled() returns (enabled: bool)
      ensures enabled == StateOf(configuration, HUGEPAGE_API).active
    {
      return StateOf(configuration, HUGEPAGE_API).active;
    }

    method IsHonorExistingResourcesEnabled() returns (enabled: bool)
      ensures enabled == StateOf(configuration, HONOR_RESOURCES).active
    {
      return StateOf(configuration, HONOR_RESOURCES).active;
    }

    method SetAllFeaturesToInitialState()
      modifies this`configuration
      ensures configuration == DecideBoth(old(configuration), map[])
    {
      var state := StateOf(configuration, HUGEPAGE_API);
      configuration := configuration[HUGEPAGE_API := state.(active := state.initial)];
      state := StateOf(configuration, HONOR_RESOURCES);
      configuration := configuration[HONOR_RESOURCES := state.(active := state.initial)];
    }

    method SetFeatureToState(featureName: string, switchObj: map<string, bool>)
      modifies this`configuration
      ensures configuration ==
              old(configuration)[featureName := Decide(StateOf(old(configuration), featureName), featureName, switchObj)]
    {
      var state := StateOf(configuration, featureName);
      if featureName in switchObj {
        configuration := configuration[featureName := state.(active := switchObj[featureName])];
      } else {
        configuration := configuration[featureName := state.(active := state.initial)];
      }
    }

    method ProcessControlSwitchesConfigMap(config: ConfigMap)
      modifies this`configuration
      ensures configuration == AfterConfig(old(configuration), config)
    {
      if config.NoFile? {
        return;
      }
      if config.UnreadableFile? {
        SetAllFeaturesToInitialState();
        return;
      }
      match config.features
      case Absent =>
      case Unreadable => SetAllFeaturesToInitialState();
      case Readable(switchObj) =>
        SetFeatureToState(HUGEPAGE_API, switchObj);
        SetFeatureToState(HONOR_RESOURCES, switchObj);
    }
  }

  // ---------- whole runs of polls ----------

  function PollDecision(poll: Poll): Option<map<string, bool>> {
    if poll.ApiError? then None else Decision(poll.config)
  }

  function AfterPolls(configuration: Configuration, polls: seq<Poll>): Configuration
    decreases |polls|
  {
    if polls == [] then configuration
    else
      var before := AfterPolls(configuration, polls[..|polls| - 1]);
      var poll := polls[|polls| - 1];
      if poll.ApiError? then before else AfterConfig(before, poll.config)
  }

  predicate HasBoth(configuration: Configuration) {
    HUGEPAGE_API in configuration && HONOR_RESOURCES in configuration
  }

  predicate IsFeature(feature: string) {
    feature == HUGEPAGE_API || feature == HONOR_RESOURCES
  }

  /** No run of polls changes an initial state or adds an entry. */
  lemma {:induction false} InitialStatesNeverChange(configuration: Configuration, polls: seq<Poll>)
    requires HasBoth(configuration)
    ensures AfterPolls(configuration, polls).Keys == configuration.Keys
    ensures forall f :: f in configuration ==> AfterPolls(configuration, polls)[f].initial == configuration[f].initial
    ensures forall f :: f in configuration && !IsFeature(f) ==> AfterPolls(configuration, polls)[f] == configuration[f]
    decreases |polls|
  {
    if polls != [] { InitialStatesNeverChange(configuration, polls[..|polls| - 1]); }
  }

  /** The last poll that says anything about features decides every active state, alone. */
  lemma {:induction false} LastDecisivePollRules(configuration: Configuration, polls: seq<Poll>, last: nat, feature: string)
    requires HasBoth(configuration) && IsFeature(feature)
    requires last < |polls| && PollDecision(polls[last]).Some?
    requires forall k :: last < k < |polls| ==> PollDecision(polls[k]).None?
    ensures var switchObj := PollDecision(polls[last]).value;
            StateOf(AfterPolls(configuration, polls), feature).active ==
            if feature in switchObj then switchObj[feature] else configuration[feature].initial
    decreases |polls|
  {
    InitialStatesNeverChange(configuration, polls[..|polls| - 1]);
    if last < |polls| - 1 {
      LastDecisivePollRules(configuration, polls[..|polls| - 1], last, feature);
    }
  }

  function DecisiveOnly(polls: seq<Poll>): seq<Poll>
    decreases |polls|
  {
    if polls == [] then []
    else DecisiveOnly(polls[..|polls| - 1]) + if PollDecision(polls[|polls| - 1]).Some? then [polls[|polls| - 1]] else []
  }

  /** Polls that say nothing about features can be deleted from a run without effect. */
  lemma {:induction false} IndecisivePollsAreInert(configuration: Configuration, polls: seq<Poll>)
    ensures AfterPolls(configuration, polls) == AfterPolls(configuration, DecisiveOnly(polls))
    decreases |polls|
  {
    if polls != [] {
      var front, last := polls[..|polls| - 1], polls[|polls| - 1];
      IndecisivePollsAreInert(configuration, front);
      if PollDecision(last).Some? {
        assert (DecisiveOnly(front) + [last])[..|DecisiveOnly(front)|] == DecisiveOnly(front);
      } else {
        assert DecisiveOnly(polls) == DecisiveOnly(front);
      }
    }
  }
}
