/**
 * The entities the resource-group step works on: the resource group the
 * management API lists, the wizard context the steps share, and the steps a
 * sub-wizard contributes.
 */
module Models {
  import opened Results

  /** A resource group as the management API lists it; `id` and `name` may be absent. */
  datatype ResourceGroup = ResourceGroup(id: Option<string>, name: Option<string>, location: string)

  /** The prompt steps the resource-group step can add to a wizard run. */
  datatype PromptStep = ResourceGroupNameStep | LocationListStep

  /** The execute steps the resource-group step can add to a wizard run. */
  datatype ExecuteStep = ResourceGroupCreateStep

  /** What a sub-wizard contributes: prompt steps and execute steps, each in order. */
  datatype WizardOptions = WizardOptions(promptSteps: seq<PromptStep>, executeSteps: seq<ExecuteStep>)

  /**
   * The wizard context shared, by reference, by every step of one run.
   * `resourceGroupsTask` is the memoised listing: absent until the first
   * fetch installs it, then reused for the rest of the run. The ghost
   * `fetches` counts the listings this context has started.
   */
  class WizardContext {
    var subscriptionId: string
    var resourceGroup: Option<ResourceGroup>
    var newResourceGroupName: Option<string>
    var resourceGroupsTask: Option<Result<seq<ResourceGroup>>>
    var alreadyHasLocationStep: Option<bool>
    ghost var fetches: nat

    /** At most one fetch per context, and none while no task is installed. */
    ghost predicate Valid()
      reads this
    {
      fetches <= 1 && (resourceGroupsTask.None? ==> fetches == 0)
    }

    /** A fresh context for one subscription: nothing chosen, nothing fetched. */
    constructor (subscriptionId: string)
      ensures Valid()
      ensures this.subscriptionId == subscriptionId
      ensures resourceGroup.None? && newResourceGroupName.None?
      ensures resourceGroupsTask.None? && alreadyHasLocationStep.None? && fetches == 0
    {
      this.subscriptionId := subscriptionId;
      resourceGroup := None;
      newResourceGroupName := None;
      resourceGroupsTask := None;
      alreadyHasLocationStep := None;
      fetches := 0;
    }
  }
}
