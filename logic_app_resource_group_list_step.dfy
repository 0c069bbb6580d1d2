/**
 * The logic-app variant of the resource-group step. It inherits prompting
 * from the UI library's own resource-group step and adds its own copy of the
 * paginated listing and of the memoised fetch; both are proved here against
 * the same specification as the general step's.
 */
module LogicAppResourceGroupList {
  import opened Results
  import opened Paging
  import opened Models
  import opened Naming

  const ResourceGroupNamingRules := NamingRules(1, 90, ResourceGroupInvalidChars)

  /**
   * This file's `uiUtils.listAll`: the first page, then every page its
   * predecessor links to. `requested` records the argument of every
   * `listNext` call.
   */
  method ListAll<T>(replies: seq<Reply<T>>) returns (r: Result<seq<T>>, requested: seq<string>)
    requires Terminates(replies)
    ensures r == Listing(replies)
    ensures |requested| == StopIndex(replies)
    ensures forall i :: 0 <= i < |requested| ==>
              replies[i].Delivered? && replies[i].page.nextLink == Some(requested[i])
  {
    requested := [];
    var all: seq<T> := [];
    var reply := replies[0];
    var received := 1;
    if reply.Rejected? {
      return Failure(FetchFailed(reply.reason)), requested;
    }
    var list := reply.page;
    all := all + list.items;
    assert replies[..1][..0] == [];
    while HasNext(list)
      invariant 1 <= received <= StopIndex(replies) + 1
      invariant replies[received - 1] == Delivered(list)
      invariant all == Flatten(replies[..received])
      invariant |requested| == received - 1
      invariant forall i :: 0 <= i < |requested| ==>
                  replies[i].Delivered? && replies[i].page.nextLink == Some(requested[i])
      decreases |replies| - received
    {
      requested := requested + [list.nextLink.value];
      reply := replies[received];
      received := received + 1;
      if reply.Rejected? {
        return Failure(FetchFailed(reply.reason)), requested;
      }
      list := reply.page;
      assert replies[..received][..received - 1] == replies[..received - 1];
      all := all + list.items;
    }
    r := Success(all);
  }

  class ResourceGroupListStep {
    const suppressCreate: Option<bool>

    constructor (suppressCreate: Option<bool>)
      ensures this.suppressCreate == suppressCreate
    {
      this.suppressCreate := suppressCreate;
    }

    /**
     * Installs this file's listing on the context when none is installed,
     * then returns the installed listing; an installed listing is returned
     * as it is, even one that failed.
     */
    static method GetResourceGroups(ctx: WizardContext, replies: seq<Reply<ResourceGroup>>)
      returns (r: Result<seq<ResourceGroup>>)
      requires ctx.Valid()
      requires ctx.resourceGroupsTask.None? ==> Terminates(replies)
      modifies ctx`resourceGroupsTask, ctx`fetches
      ensures ctx.Valid()
      ensures old(ctx.resourceGroupsTask).None? ==>
                ctx.resourceGroupsTask == Some(Listing(replies)) && ctx.fetches == old(ctx.fetches) + 1
      ensures old(ctx.resourceGroupsTask).Some? ==>
                ctx.resourceGroupsTask == old(ctx.resourceGroupsTask) && ctx.fetches == old(ctx.fetches)
      ensures ctx.resourceGroupsTask == Some(r)
    {
      if ctx.resourceGroupsTask.None? {
        var listing, _ := ListAll(replies);
        ctx.resourceGroupsTask := Some(listing);
        ctx.fetches := ctx.fetches + 1;
      }
      r := ctx.resourceGroupsTask.value;
    }
  }
}
