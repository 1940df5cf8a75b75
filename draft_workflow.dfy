/**
 * The validators and state derivations of the Draft "GitHub workflow" form:
 * each handler computes the new value of one field from the current state,
 * and `Validate` assembles the request only when every field is acceptable.
 * Helm overrides are addressed by their position in the list.
 */
module DraftWorkflow {
  import opened Wrappers
  import opened Text
  import opened Validation
  import opened ArrayUtil

  datatype WorkflowFile = WorkflowFile(name: string, path: string)
  datatype Subscription = Subscription(id: string, name: string)
  datatype NewOrExisting<T> = NewOrExisting(isNew: bool, value: T)

  /** The radio value of the deployment type, cast without checking. */
  datatype DeploymentSpecType = Manifests | Helm | OtherSpecType(tag: string)

  datatype HelmOverrideState = HelmOverrideState(key: Validatable<string>, value: Validatable<string>)
  datatype HelmOverride = HelmOverride(key: string, value: string)

  datatype ManifestsParamsState = ManifestsParamsState(selectedManifestPaths: Validatable<seq<string>>)
  datatype HelmParamsState = HelmParamsState(
    selectedChartPath: Validatable<string>,
    selectedValuesYamlPath: Validatable<string>,
    selectedOverrides: seq<HelmOverrideState>)

  /** The parts of the form state the validators read. */
  datatype DraftWorkflowState = DraftWorkflowState(
    existingWorkflowFiles: seq<WorkflowFile>,
    selectedWorkflowName: Validatable<string>,
    selectedBranchName: Validatable<string>,
    selectedSubscription: Validatable<Subscription>,
    selectedDockerfilePath: Validatable<string>,
    selectedBuildContextPath: string,
    selectedAcrResourceGroup: Validatable<string>,
    selectedAcr: Validatable<string>,
    selectedRepositoryName: Validatable<NewOrExisting<string>>,
    selectedClusterResourceGroup: Validatable<string>,
    selectedCluster: Validatable<string>,
    selectedClusterNamespace: Validatable<NewOrExisting<string>>,
    selectedDeploymentSpecType: DeploymentSpecType,
    manifestsParamsState: ManifestsParamsState,
    helmParamsState: HelmParamsState)

  datatype DeploymentParams =
    | ManifestsDeploymentParams(manifestPaths: seq<string>)
    | HelmDeploymentParams(chartPath: string, valuesYamlPath: string, overrides: seq<HelmOverride>)

  /** The request posted when the form is submitted. */
  datatype CreateParams = CreateParams(
    workflowName: string,
    branchName: string,
    subscriptionId: string,
    dockerfilePath: string,
    buildContextPath: string,
    acrResourceGroup: string,
    acrName: string,
    repositoryName: string,
    clusterResourceGroup: string,
    clusterName: string,
    namespace: string,
    deploymentParams: DeploymentParams)

  // ---------------------------------------------------------------------------
  // Pickers
  // ---------------------------------------------------------------------------

  /** The branch, subscription, resource-group, ACR and cluster pickers: null is required-but-missing. */
  function Selected<T>(choice: Option<T>): (v: Validatable<T>)
    ensures IsValid(v) <==> choice.Some?
    ensures IsValid(v) ==> v.value == choice.value
    ensures !IsValid(v) ==> v == Missing
  {
    if choice.None? then Missing else Valid(choice.value)
  }

  /** The repository and namespace pickers: an empty name is missing as well. */
  function SelectedNewOrExisting(choice: Option<string>, isNew: bool): (v: Validatable<NewOrExisting<string>>)
    ensures IsValid(v) <==> choice.Some? && choice.value != ""
    ensures IsValid(v) ==> v.value == NewOrExisting(isNew, choice.value)
    ensures !IsValid(v) ==> v == Missing
  {
    if choice.None? || choice.value == "" then Missing else Valid(NewOrExisting(isNew, choice.value))
  }

  /** The deployment-type radio value, taken as a type without checking. */
  function SpecTypeOf(tag: string): (t: DeploymentSpecType)
    ensures t.OtherSpecType? <==> tag != "manifests" && tag != "helm"
    ensures t.OtherSpecType? ==> t.tag == tag
  {
    if tag == "manifests" then Manifests else if tag == "helm" then Helm else OtherSpecType(tag)
  }

  // ---------------------------------------------------------------------------
  // Workflow name
  // ---------------------------------------------------------------------------

  /** `existingWorkflowFiles.some((f) => f.name === name)`. */
  function NameTaken(files: seq<WorkflowFile>, name: string): (taken: bool)
    ensures taken <==> exists i :: 0 <= i < |files| && files[i].name == name
    decreases |files|
  {
    if files == [] then false
    else if files[0].name == name then true
    else
      var rest := NameTaken(files[1..], name);
      assert forall i :: 1 <= i < |files| ==> files[i] == files[1..][i - 1];
      rest
  }

  /** `getValidatedWorkflowName`: required, and not exactly the name of an existing workflow file. */
  function ValidatedWorkflowName(files: seq<WorkflowFile>, name: string): (v: Validatable<string>)
    ensures v == Missing <==> name == ""
    ensures v == Invalid(name) <==> name != "" && exists i :: 0 <= i < |files| && files[i].name == name
    ensures v == Valid(name) <==> name != "" && forall i :: 0 <= i < |files| ==> files[i].name != name
    ensures v == Missing || v == Invalid(name) || v == Valid(name)
  {
    if name == "" then Missing
    else if NameTaken(files, name) then Invalid(name)
    else Valid(name)
  }

  /** Index of the first file whose name matches `name` ignoring case. */
  function FindByName(files: seq<WorkflowFile>, name: string): (r: Option<nat>)
    ensures r.Some? ==> r.value < |files| && EqualsIgnoringCase(files[r.value].name, name)
                        && forall j :: 0 <= j < r.value ==> !EqualsIgnoringCase(files[j].name, name)
    ensures r.None? <==> forall j :: 0 <= j < |files| ==> !EqualsIgnoringCase(files[j].name, name)
    decreases |files|
  {
    if files == [] then None
    else if EqualsIgnoringCase(files[0].name, name) then Some(0)
    else
      var rest := FindByName(files[1..], name);
      assert forall j :: 1 <= j < |files| ==> files[j] == files[1..][j - 1];
      if rest.None? then None else Some(rest.value + 1)
  }

  /**
   * `getExistingFile`: the path of the first existing workflow file whose
   * name equals the entered name ignoring case; none when no name is entered.
   */
  function GetExistingFile(files: seq<WorkflowFile>, workflowName: Validatable<string>): (path: Option<string>)
    ensures !IsValueSet(workflowName) ==> path.None?
    ensures IsValueSet(workflowName) ==>
              (path.Some? <==> exists i :: 0 <= i < |files| && EqualsIgnoringCase(files[i].name, workflowName.value))
    ensures path.Some? ==>
              exists i :: 0 <= i < |files| && files[i].path == path.value
                          && EqualsIgnoringCase(files[i].name, workflowName.value)
                          && forall j :: 0 <= j < i ==> !EqualsIgnoringCase(files[j].name, workflowName.value)
  {
    if !IsValueSet(workflowName) then None
    else
      var found := FindByName(files, workflowName.value);
      if found.None? then None else Some(files[found.value].path)
  }

  /** A name rejected as taken always has an existing file shown for it. */
  lemma TakenNameHasExistingFile(files: seq<WorkflowFile>, name: string)
    requires ValidatedWorkflowName(files, name).Invalid?
    ensures GetExistingFile(files, ValidatedWorkflowName(files, name)).Some?
  {
    var i :| 0 <= i < |files| && files[i].name == name;
    assert EqualsIgnoringCase(files[i].name, name);
  }

  /** Names that differ only in letter case find the same existing file. */
  lemma ExistingFileIgnoresCase(files: seq<WorkflowFile>, a: string, b: string)
    requires EqualsIgnoringCase(a, b)
    ensures GetExistingFile(files, Valid(a)) == GetExistingFile(files, Valid(b))
  {
    assert forall j :: 0 <= j < |files| ==>
      (EqualsIgnoringCase(files[j].name, a) <==> EqualsIgnoringCase(files[j].name, b));
  }

  /**
   * The name check is exact but the existing-file lookup ignores case: a
   * name differing from an existing file only in case is accepted while
   * that file is reported as existing.
   */
  lemma CaseOnlyClashIsAccepted()
    ensures ValidatedWorkflowName([WorkflowFile("deploy", "p")], "Deploy") == Valid("Deploy")
    ensures GetExistingFile([WorkflowFile("deploy", "p")], Valid("Deploy")) == Some("p")
  {
    var files := [WorkflowFile("deploy", "p")];
    assert files[0].name[0] != "Deploy"[0];
    LowerDeploy();
    assert FindByName(files, "Deploy") == Some(0);
  }

  /** Both spellings of the example name lower-case to "deploy". */
  lemma LowerDeploy()
    ensures EqualsIgnoringCase("deploy", "Deploy")
  {
    var lower := ToLower("Deploy");
    assert |lower| == 6 && lower[0] == 'd';
    assert forall i :: 1 <= i < 6 ==> lower[i] == "Deploy"[i];
    assert lower == "deploy";
    var same := ToLower("deploy");
    assert |same| == 6 && forall i :: 0 <= i < 6 ==> same[i] == "deploy"[i];
    assert same == "deploy";
  }

  // ---------------------------------------------------------------------------
  // Manifest paths
  // ---------------------------------------------------------------------------

  /**
   * `handleDeleteManifestPathClick`: with a valid selection, remove every
   * occurrence of `path`; an empty result is missing. Otherwise nothing changes.
   */
  function DeleteManifestPath(paths: Validatable<seq<string>>, path: string): (r: Validatable<seq<string>>)
    ensures !IsValid(paths) ==> r == paths
    ensures IsValid(paths) ==> (r == Missing <==> multiset(paths.value)[path] == |paths.value|)
    ensures IsValid(paths) && r != Missing ==> r.Valid? && r.value != [] && path !in r.value
    ensures IsValid(paths) && r != Missing ==>
              forall p :: p != path ==> multiset(r.value)[p] == multiset(paths.value)[p]
  {
    if !IsValid(paths) then paths
    else
      var newPaths := RemoveAll(paths.value, path);
      if newPaths == [] then Missing else Valid(newPaths)
  }

  /** Deleting a path keeps the remaining paths in their original order. */
  lemma DeleteManifestPathKeepsOrder(before: seq<string>, path: string, after: seq<string>)
    requires path !in before && path !in after && before + after != []
    ensures DeleteManifestPath(Valid(before + [path] + after), path) == Valid(before + after)
  {
    RemoveAllAppend(before + [path], after, path);
    RemoveAllAppend(before, [path], path);
    RemoveAllAbsent(before, path);
    RemoveAllAbsent(after, path);
    assert RemoveAll([path], path) == [];
    assert RemoveAll(before + [path], path) == before;
    assert RemoveAll(before + [path] + after, path) == before + after;
  }

  // ---------------------------------------------------------------------------
  // Helm overrides
  // ---------------------------------------------------------------------------

  /** The keys entered for every override other than the one at position `k`, in order. */
  function OtherKeys(overrides: seq<HelmOverrideState>, k: int): (keys: seq<string>)
    ensures forall key :: key in keys <==>
              exists j :: 0 <= j < |overrides| && j != k
                          && IsValueSet(overrides[j].key) && overrides[j].key.value == key
    decreases |overrides|
  {
    if overrides == [] then []
    else
      var rest := OtherKeys(overrides[1..], k - 1);
      assert forall j :: 1 <= j < |overrides| ==> overrides[j] == overrides[1..][j - 1];
      if k != 0 && IsValueSet(overrides[0].key) then [overrides[0].key.value] + rest else rest
  }

  /** `getValidatedOverrideKey`: trimmed, required, and unlike every other entered key. */
  function ValidatedOverrideKey(overrides: seq<HelmOverrideState>, k: int, key: string): (v: Validatable<string>)
    ensures v == Missing <==> AllWhitespace(key)
    ensures v == Invalid(Trim(key)) <==>
              !AllWhitespace(key)
              && exists j :: 0 <= j < |overrides| && j != k
                             && IsValueSet(overrides[j].key) && overrides[j].key.value == Trim(key)
    ensures v == Valid(Trim(key)) <==>
              !AllWhitespace(key)
              && forall j :: 0 <= j < |overrides| && j != k && IsValueSet(overrides[j].key)
                             ==> overrides[j].key.value != Trim(key)
    ensures v == Missing || v == Invalid(Trim(key)) || v == Valid(Trim(key))
  {
    TrimEmptyIffBlank(key);
    var trimmed := Trim(key);
    if trimmed == "" then Missing
    else if trimmed in OtherKeys(overrides, k) then Invalid(trimmed)
    else Valid(trimmed)
  }

  /** `getValidatedOverrideValue`: required, kept as entered. */
  function ValidatedOverrideValue(value: string): (v: Validatable<string>)
    ensures v == Missing <==> value == ""
    ensures v != Missing ==> v == Valid(value)
  {
    if value == "" then Missing else Valid(value)
  }

  /** `replaceItem` at position `k`: the list is unchanged when there is no such position. */
  function ReplaceAt(overrides: seq<HelmOverrideState>, k: int, o: HelmOverrideState): (r: seq<HelmOverrideState>)
    ensures |r| == |overrides|
    ensures forall j :: 0 <= j < |r| ==> r[j] == if j == k then o else overrides[j]
  {
    if 0 <= k < |overrides| then overrides[k := o] else overrides
  }

  /** `handleOverrideKeyChange` for the override at position `k`. */
  function OverrideKeyChange(overrides: seq<HelmOverrideState>, k: int, key: string): (r: seq<HelmOverrideState>)
    ensures |r| == |overrides|
    ensures forall j :: 0 <= j < |r| && j != k ==> r[j] == overrides[j]
    ensures 0 <= k < |r| ==> r[k].key == ValidatedOverrideKey(overrides, k, key) && r[k].value == overrides[k].value
  {
    if 0 <= k < |overrides| then
      ReplaceAt(overrides, k, overrides[k].(key := ValidatedOverrideKey(overrides, k, key)))
    else overrides
  }

  /** `handleOverrideValueChange` for the override at position `k`. */
  function OverrideValueChange(overrides: seq<HelmOverrideState>, k: int, value: string): (r: seq<HelmOverrideState>)
    ensures |r| == |overrides|
    ensures forall j :: 0 <= j < |r| && j != k ==> r[j] == overrides[j]
    ensures 0 <= k < |r| ==> r[k].value == ValidatedOverrideValue(value) && r[k].key == overrides[k].key
  {
    if 0 <= k < |overrides| then
      ReplaceAt(overrides, k, overrides[k].(value := ValidatedOverrideValue(value)))
    else overrides
  }

  /** `handleDeleteOverrideClick` for the override at position `k`. */
  function DeleteOverride(overrides: seq<HelmOverrideState>, k: int): (r: seq<HelmOverrideState>)
    ensures 0 <= k < |overrides| ==> |r| == |overrides| - 1
    ensures 0 <= k < |overrides| ==>
              forall j :: 0 <= j < |r| ==> r[j] == overrides[if j < k then j else j + 1]
    ensures !(0 <= k < |overrides|) ==> r == overrides
  {
    if 0 <= k < |overrides| then overrides[..k] + overrides[k + 1..] else overrides
  }

  const NewOverride := HelmOverrideState(Unset, Unset)

  /** `handleAddHelmOverrideClick`: append an untouched override. */
  function AddOverride(overrides: seq<HelmOverrideState>): (r: seq<HelmOverrideState>)
    ensures |r| == |overrides| + 1 && r[..|overrides|] == overrides && r[|overrides|] == NewOverride
  {
    overrides + [NewOverride]
  }

  /** Deleting the override just added restores the list. */
  lemma DeleteUndoesAdd(overrides: seq<HelmOverrideState>)
    ensures DeleteOverride(AddOverride(overrides), |overrides|) == overrides
  {
    var added := AddOverride(overrides);
    assert added[..|overrides|] == overrides;
    assert added[|overrides| + 1..] == [];
  }

  /** No two overrides hold the same accepted key. */
  predicate UniqueValidKeys(overrides: seq<HelmOverrideState>) {
    forall i, j :: 0 <= i < |overrides| && 0 <= j < |overrides| && i != j
                   && overrides[i].key.Valid? && overrides[j].key.Valid?
                   ==> overrides[i].key.value != overrides[j].key.value
  }

  /** Editing a key keeps accepted keys unique: a key equal to another entered key is never accepted. */
  lemma KeyChangeKeepsKeysUnique(overrides: seq<HelmOverrideState>, k: int, text: string)
    requires UniqueValidKeys(overrides)
    ensures UniqueValidKeys(OverrideKeyChange(overrides, k, text))
  {
    var changed := OverrideKeyChange(overrides, k, text);
    forall i, j | 0 <= i < |changed| && 0 <= j < |changed| && i != j
                  && changed[i].key.Valid? && changed[j].key.Valid?
      ensures changed[i].key.value != changed[j].key.value
    {
      if i == k {
        assert IsValueSet(overrides[j].key);
      } else if j == k {
        assert IsValueSet(overrides[i].key);
      }
    }
  }

  /** Editing a value, deleting an override and adding one keep accepted keys unique. */
  lemma OtherEditsKeepKeysUnique(overrides: seq<HelmOverrideState>, k: int, text: string)
    requires UniqueValidKeys(overrides)
    ensures UniqueValidKeys(OverrideValueChange(overrides, k, text))
    ensures UniqueValidKeys(DeleteOverride(overrides, k))
    ensures UniqueValidKeys(AddOverride(overrides))
  {
    var changed := OverrideValueChange(overrides, k, text);
    assert forall j :: 0 <= j < |changed| ==> changed[j].key == overrides[j].key;
    if 0 <= k < |overrides| {
      var deleted := DeleteOverride(overrides, k);
      forall i, j | 0 <= i < |deleted| && 0 <= j < |deleted| && i != j
                    && deleted[i].key.Valid? && deleted[j].key.Valid?
        ensures deleted[i].key.value != deleted[j].key.value
      {
        var i' := if i < k then i else i + 1;
        var j' := if j < k then j else j + 1;
        assert deleted[i] == overrides[i'] && deleted[j] == overrides[j'];
      }
    }
  }

  /** An override as submitted, when both its key and value are accepted. */
  function ToHelmOverride(o: HelmOverrideState): Option<HelmOverride> {
    if !IsValid(o.key) || !IsValid(o.value) then None else Some(HelmOverride(o.key.value, o.value.value))
  }

  /**
   * `validateHelmOverrides`: all overrides in order when every key and value
   * is accepted, nothing otherwise.
   */
  function ValidateHelmOverrides(overrides: seq<HelmOverrideState>): (r: Maybe<seq<HelmOverride>>)
    ensures r.Just? <==> forall i :: 0 <= i < |overrides| ==> IsValid(overrides[i].key) && IsValid(overrides[i].value)
    ensures r.Just? ==>
              |r.value| == |overrides|
              && forall i :: 0 <= i < |overrides| ==>
                   r.value[i] == HelmOverride(overrides[i].key.value, overrides[i].value.value)
  {
    var mapped := seq(|overrides|, i requires 0 <= i < |overrides| => ToHelmOverride(overrides[i]));
    assert forall i :: 0 <= i < |mapped| ==> (mapped[i].None? <==> !IsValid(overrides[i].key) || !IsValid(overrides[i].value));
    if exists i :: 0 <= i < |mapped| && mapped[i].None? then Nothing
    else Just(FilterNulls(mapped))
  }

  /** A freshly added override blocks submission until it is filled in. */
  lemma AddedOverrideBlocksSubmit(overrides: seq<HelmOverrideState>)
    ensures ValidateHelmOverrides(AddOverride(overrides)) == Nothing
  {
    assert !IsValid(AddOverride(overrides)[|overrides|].key);
  }

  /** Submitted overrides never repeat a key when the list keeps accepted keys unique. */
  lemma SubmittedOverridesHaveDistinctKeys(overrides: seq<HelmOverrideState>)
    requires UniqueValidKeys(overrides)
    requires ValidateHelmOverrides(overrides).Just?
    ensures var r := ValidateHelmOverrides(overrides).value;
            forall i, j :: 0 <= i < j < |r| ==> r[i].key != r[j].key
  {
    var r := ValidateHelmOverrides(overrides).value;
    forall i, j | 0 <= i < j < |r| ensures r[i].key != r[j].key {
      assert overrides[i].key.Valid? && overrides[j].key.Valid?;
    }
  }

  // ---------------------------------------------------------------------------
  // Submission
  // ---------------------------------------------------------------------------

  /** The deployment part is complete for the chosen deployment type. */
  predicate DeploymentReady(st: DraftWorkflowState) {
    match st.selectedDeploymentSpecType
    case Manifests => IsValid(st.manifestsParamsState.selectedManifestPaths)
    case Helm =>
      IsValid(st.helmParamsState.selectedChartPath)
      && IsValid(st.helmParamsState.selectedValuesYamlPath)
      && forall i :: 0 <= i < |st.helmParamsState.selectedOverrides| ==>
           IsValid(st.helmParamsState.selectedOverrides[i].key)
           && IsValid(st.helmParamsState.selectedOverrides[i].value)
    case OtherSpecType(_) => false
  }

  /** `validateDeploymentParams`. */
  function ValidateDeploymentParams(st: DraftWorkflowState): (r: Maybe<DeploymentParams>)
    ensures r.Just? <==> DeploymentReady(st)
    ensures r.Just? && st.selectedDeploymentSpecType == Manifests ==>
              r.value == ManifestsDeploymentParams(st.manifestsParamsState.selectedManifestPaths.value)
    ensures r.Just? && st.selectedDeploymentSpecType == Helm ==>
              r.value.HelmDeploymentParams?
              && r.value.chartPath == st.helmParamsState.selectedChartPath.value
              && r.value.valuesYamlPath == st.helmParamsState.selectedValuesYamlPath.value
              && Just(r.value.overrides) == ValidateHelmOverrides(st.helmParamsState.selectedOverrides)
  {
    match st.selectedDeploymentSpecType
    case Manifests =>
      if !IsValid(st.manifestsParamsState.selectedManifestPaths) then Nothing
      else Just(ManifestsDeploymentParams(st.manifestsParamsState.selectedManifestPaths.value))
    case Helm =>
      if !IsValid(st.helmParamsState.selectedChartPath) then Nothing
      else if !IsValid(st.helmParamsState.selectedValuesYamlPath) then Nothing
      else
        var overrides := ValidateHelmOverrides(st.helmParamsState.selectedOverrides);
        if overrides.Nothing? then Nothing
        else Just(HelmDeploymentParams(st.helmParamsState.selectedChartPath.value,
                                       st.helmParamsState.selectedValuesYamlPath.value,
                                       overrides.value))
    case OtherSpecType(_) => Nothing
  }

  /** The ten selections `validate` requires, in the order it checks them. */
  predicate SelectionsValid(st: DraftWorkflowState) {
    IsValid(st.selectedWorkflowName)
    && IsValid(st.selectedBranchName)
    && IsValid(st.selectedSubscription)
    && IsValid(st.selectedDockerfilePath)
    && IsValid(st.selectedAcrResourceGroup)
    && IsValid(st.selectedAcr)
    && IsValid(st.selectedRepositoryName)
    && IsValid(st.selectedClusterResourceGroup)
    && IsValid(st.selectedCluster)
    && IsValid(st.selectedClusterNamespace)
  }

  /** `validate`: the request, exactly when every selection and the deployment part are acceptable. */
  function Validate(st: DraftWorkflowState): (r: Maybe<CreateParams>)
    ensures r.Just? <==> SelectionsValid(st) && DeploymentReady(st)
    ensures r.Just? ==>
              r.value.workflowName == st.selectedWorkflowName.value
              && r.value.branchName == st.selectedBranchName.value
              && r.value.subscriptionId == st.selectedSubscription.value.id
              && r.value.dockerfilePath == st.selectedDockerfilePath.value
              && r.value.buildContextPath == st.selectedBuildContextPath
              && r.value.acrResourceGroup == st.selectedAcrResourceGroup.value
              && r.value.acrName == st.selectedAcr.value
              && r.value.repositoryName == st.selectedRepositoryName.value.value
              && r.value.clusterResourceGroup == st.selectedClusterResourceGroup.value
              && r.value.clusterName == st.selectedCluster.value
              && r.value.namespace == st.selectedClusterNamespace.value.value
              && Just(r.value.deploymentParams) == ValidateDeploymentParams(st)
  {
    if !SelectionsValid(st) then Nothing
    else
      var deploymentParams := ValidateDeploymentParams(st);
      if deploymentParams.Nothing? then Nothing
      else Just(CreateParams(
        st.selectedWorkflowName.value,
        st.selectedBranchName.value,
        st.selectedSubscription.value.id,
        st.selectedDockerfilePath.value,
        st.selectedBuildContextPath,
        st.selectedAcrResourceGroup.value,
        st.selectedAcr.value,
        st.selectedRepositoryName.value.value,
        st.selectedClusterResourceGroup.value,
        st.selectedCluster.value,
        st.selectedClusterNamespace.value.value,
        deploymentParams.value))
  }

  /** A submitted workflow name was typed and matches no existing workflow file exactly. */
  lemma SubmittedNameIsNew(st: DraftWorkflowState, typed: string)
    requires st.selectedWorkflowName == ValidatedWorkflowName(st.existingWorkflowFiles, typed)
    requires Validate(st).Just?
    ensures Validate(st).value.workflowName == typed && typed != ""
    ensures forall i :: 0 <= i < |st.existingWorkflowFiles| ==> st.existingWorkflowFiles[i].name != typed
  {
  }

  /** A deployment type other than manifests or helm can never be submitted. */
  lemma UnknownTypeNeverSubmits(st: DraftWorkflowState)
    requires st.selectedDeploymentSpecType.OtherSpecType?
    ensures Validate(st) == Nothing
  {
  }

  /** Adding a Helm override row blocks a Helm submission that was ready. */
  lemma AddingOverrideBlocksHelmSubmit(st: DraftWorkflowState)
    requires st.selectedDeploymentSpecType == Helm
    ensures Validate(st.(helmParamsState := st.helmParamsState.(
               selectedOverrides := AddOverride(st.helmParamsState.selectedOverrides)))) == Nothing
  {
    var overrides := AddOverride(st.helmParamsState.selectedOverrides);
    assert !IsValid(overrides[|overrides| - 1].key);
  }

  // ---------------------------------------------------------------------------
  // Resource lists (prepareData)
  // ---------------------------------------------------------------------------

  /** A cluster or registry: its resource group and its name. */
  datatype AzureResource = AzureResource(resourceGroup: string, name: string)

  /** `distinct(resources.map((r) => r.resourceGroup))`. */
  function ResourceGroups(resources: seq<AzureResource>): (groups: seq<string>)
    ensures NoDuplicates(groups)
    ensures forall g :: g in groups <==> exists i :: 0 <= i < |resources| && resources[i].resourceGroup == g
  {
    var all := seq(|resources|, i requires 0 <= i < |resources| => resources[i].resourceGroup);
    assert forall i :: 0 <= i < |resources| ==> all[i] == resources[i].resourceGroup;
    Distinct(all)
  }

  /** `resources.filter((r) => r.resourceGroup === group).map((r) => r.name)`; a null group matches nothing. */
  function NamesInGroup(resources: seq<AzureResource>, group: Option<string>): (names: seq<string>)
    ensures |names| <= |resources|
    ensures group.None? ==> names == []
    decreases |resources|
  {
    if resources == [] then []
    else
      var rest := NamesInGroup(resources[1..], group);
      if group.Some? && resources[0].resourceGroup == group.value then [resources[0].name] + rest else rest
  }

  /** The listed names are exactly those of the resources in the selected group. */
  lemma {:induction false} NamesInGroupMembers(resources: seq<AzureResource>, group: Option<string>, n: string)
    ensures n in NamesInGroup(resources, group) <==>
              group.Some? && exists i :: 0 <= i < |resources|
                                         && resources[i].resourceGroup == group.value && resources[i].name == n
    decreases |resources|
  {
    if resources != [] {
      NamesInGroupMembers(resources[1..], group, n);
      assert forall i :: 1 <= i < |resources| ==> resources[i] == resources[1..][i - 1];
      if group.Some? && (exists i :: 0 <= i < |resources| && resources[i].resourceGroup == group.value && resources[i].name == n) {
        var i :| 0 <= i < |resources| && resources[i].resourceGroup == group.value && resources[i].name == n;
        if i > 0 {
          assert resources[1..][i - 1] == resources[i];
        }
      }
    }
  }

  /** The names keep the input order: the list distributes over concatenation. */
  lemma {:induction false} NamesInGroupAppend(a: seq<AzureResource>, b: seq<AzureResource>, group: Option<string>)
    ensures NamesInGroup(a + b, group) == NamesInGroup(a, group) + NamesInGroup(b, group)
    decreases |a|
  {
    if a == [] {
      assert a + b == b;
    } else {
      assert (a + b)[0] == a[0] && (a + b)[1..] == a[1..] + b;
      NamesInGroupAppend(a[1..], b, group);
    }
  }

  /** Any name offered belongs to a resource group that is offered too. */
  lemma NamesComeFromListedGroup(resources: seq<AzureResource>, group: Option<string>)
    requires NamesInGroup(resources, group) != []
    ensures group.Some? && group.value in ResourceGroups(resources)
  {
    NamesInGroupMembers(resources, group, NamesInGroup(resources, group)[0]);
  }

  /** The lists the form offers: resource groups and names for clusters and registries. */
  datatype LocalData = LocalData(
    clusterResourceGroups: seq<string>,
    clusterNames: seq<string>,
    acrResourceGroups: seq<string>,
    acrNames: seq<string>)

  /** The list derivations of `prepareData` once clusters and registries are loaded. */
  function PrepareData(st: DraftWorkflowState, clusters: seq<AzureResource>, acrs: seq<AzureResource>): (d: LocalData)
    ensures NoDuplicates(d.clusterResourceGroups) && NoDuplicates(d.acrResourceGroups)
    ensures !IsValueSet(st.selectedClusterResourceGroup) ==> d.clusterNames == []
    ensures !IsValueSet(st.selectedAcrResourceGroup) ==> d.acrNames == []
  {
    LocalData(
      ResourceGroups(clusters),
      NamesInGroup(clusters, ToNullable(st.selectedClusterResourceGroup)),
      ResourceGroups(acrs),
      NamesInGroup(acrs, ToNullable(st.selectedAcrResourceGroup)))
  }
}
