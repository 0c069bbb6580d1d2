/**
 * The resource-group selection step: a prompt step that lists the
 * subscription's resource groups (fetched once per wizard context), lets the
 * user pick one or ask for a new one, and, when a new one is wanted,
 * contributes the naming, location and creation steps.
 *
 * The management client, the quick-pick UI and localisation are replaced by
 * parameters: the oracle's replies, the user's response, and the localised
 * label of the "create new" entry.
 */
module ResourceGroupList {
  import opened Results
  import opened Paging
  import opened Models
  import opened Naming

  const ResourceGroupNamingRules := NamingRules(1, 90, ResourceGroupInvalidChars)

  /**
   * `uiUtils.listAll`: awaits the first page, then follows `nextLink` until a
   * page has none. `requested` records the argument of every `listNext` call.
   */
  method ListAll<T>(replies: seq<Reply<T>>) returns (r: Result<seq<T>>, requested: seq<string>)
    requires Terminates(replies)
    ensures r == Listing(replies)
    ensures |requested| == StopIndex(replies)
    ensures forall i :: 0 <= i < |requested| ==>
              replies[i].Delivered? && replies[i].page.nextLink == Some(requested[i])
  {
    requested := [];
    var all: seq<T> := [];
    var reply := replies[0];
    var received := 1;
    if reply.Rejected? {
      return Failure(FetchFailed(reply.reason)), requested;
    }
    var list := reply.page;
    all := all + list.items;
    assert replies[..1][..0] == [];
    while HasNext(list)
      invariant 1 <= received <= StopIndex(replies) + 1
      invariant replies[received - 1] == Delivered(list)
      invariant all == Flatten(replies[..received])
      invariant |requested| == received - 1
      invariant forall i :: 0 <= i < |requested| ==>
                  replies[i].Delivered? && replies[i].page.nextLink == Some(requested[i])
      decreases |replies| - received
    {
      requested := requested + [list.nextLink.value];
      reply := replies[received];
      received := received + 1;
      if reply.Rejected? {
        return Failure(FetchFailed(reply.reason)), requested;
      }
      list := reply.page;
      assert replies[..received][..received - 1] == replies[..received - 1];
      all := all + list.items;
    }
    r := Success(all);
  }

  /** `toLowerCase` on one character, for the ASCII letters. */
  function LowerChar(c: char): char {
    if 'A' <= c <= 'Z' then (c as int + 32) as char else c
  }

  function ToLower(s: string): (t: string)
    ensures |t| == |s|
    ensures forall i :: 0 <= i < |s| ==> t[i] == LowerChar(s[i])
  {
    if s == [] then [] else [LowerChar(s[0])] + ToLower(s[1..])
  }

  /** A group blocks a name when it has a name equal to it after lowercasing both. */
  predicate Blocks(rg: ResourceGroup, name: string) {
    rg.name.Some? && ToLower(rg.name.value) == ToLower(name)
  }

  /** `groups.some(rg => rg.name !== undefined && rg.name.toLowerCase() === name.toLowerCase())` */
  function AnyBlocks(groups: seq<ResourceGroup>, name: string): (b: bool)
    ensures b <==> exists i :: 0 <= i < |groups| && groups[i].name.Some? &&
                              ToLower(groups[i].name.value) == ToLower(name)
  {
    if groups == [] then false
    else Blocks(groups[0], name) || AnyBlocks(groups[1..], name)
  }

  /** Availability depends on the name only up to case. */
  lemma AvailabilityIgnoresCase(groups: seq<ResourceGroup>, a: string, b: string)
    requires ToLower(a) == ToLower(b)
    ensures AnyBlocks(groups, a) == AnyBlocks(groups, b)
  {
  }

  /** A group whose name is undefined never makes a name unavailable. */
  lemma UnnamedGroupNeverBlocks(groups: seq<ResourceGroup>, rg: ResourceGroup, name: string)
    requires rg.name.None?
    ensures AnyBlocks(groups + [rg], name) == AnyBlocks(groups, name)
  {
    var all := groups + [rg];
    if AnyBlocks(all, name) {
      var i :| 0 <= i < |all| && all[i].name.Some? && ToLower(all[i].name.value) == ToLower(name);
      assert i < |groups| && groups[i] == all[i];
    }
    if AnyBlocks(groups, name) {
      var i :| 0 <= i < |groups| && groups[i].name.Some? && ToLower(groups[i].name.value) == ToLower(name);
      assert all[i] == groups[i];
    }
  }

  /** An existing group named "foo" makes "Foo" unavailable. */
  lemma ExistingLowercaseNameBlocks(loc: string)
    ensures AnyBlocks([ResourceGroup(None, Some("foo"), loc)], "Foo")
  {
    assert ToLower("foo") == "foo";
    assert ToLower("Foo") == "foo";
  }

  /** One entry of the quick pick; `data` is the group it selects, absent for "create new". */
  datatype QuickPick = QuickPick(id: Option<string>, displayLabel: Option<string>, description: string,
                                 data: Option<ResourceGroup>)

  /** The user's answer to the quick pick: the index of an offered entry, or a dismissal. */
  datatype PickerResponse = Chose(index: nat) | Dismissed

  function CreatePick(createLabel: string): QuickPick {
    QuickPick(None, Some(createLabel), "", None)
  }

  function GroupPick(rg: ResourceGroup): QuickPick {
    QuickPick(rg.id, rg.name, rg.location, Some(rg))
  }

  /** `resourceGroups.map(...)`: one entry per group, in the order listed. */
  function GroupPicks(groups: seq<ResourceGroup>): (picks: seq<QuickPick>)
    ensures |picks| == |groups|
    ensures forall i :: 0 <= i < |groups| ==> picks[i] == GroupPick(groups[i])
  {
    if groups == [] then [] else [GroupPick(groups[0])] + GroupPicks(groups[1..])
  }

  /** Number of entries before the first group: one "create new" entry unless creation is suppressed. */
  function CreateOffset(suppressCreate: Option<bool>): nat {
    if IsTruthy(suppressCreate) then 0 else 1
  }

  /** The entries of the quick pick: an optional "create new" entry, then one entry per group. */
  function QuickPicksFor(suppressCreate: Option<bool>, createLabel: string, groups: seq<ResourceGroup>)
    : (picks: seq<QuickPick>)
    ensures |picks| == |groups| + CreateOffset(suppressCreate)
    ensures !IsTruthy(suppressCreate) ==> picks[0] == CreatePick(createLabel)
    ensures forall i :: 0 <= i < |groups| ==> picks[i + CreateOffset(suppressCreate)] == GroupPick(groups[i])
  {
    var picks := if IsTruthy(suppressCreate) then [] else [CreatePick(createLabel)];
    picks + GroupPicks(groups)
  }

  /** The groups the entries select, in order; "create new" selects none. */
  function SelectedGroups(picks: seq<QuickPick>): seq<ResourceGroup> {
    if picks == [] then []
    else (if picks[0].data.Some? then [picks[0].data.value] else []) + SelectedGroups(picks[1..])
  }

  lemma {:induction false} SelectedGroupsOfGroupPicks(groups: seq<ResourceGroup>)
    ensures SelectedGroups(GroupPicks(groups)) == groups
  {
    if groups != [] {
      SelectedGroupsOfGroupPicks(groups[1..]);
      assert GroupPicks(groups)[1..] == GroupPicks(groups[1..]);
    }
  }

  /** The quick pick offers every listed group exactly once, in the listed order, and nothing else. */
  lemma QuickPicksOfferEveryGroup(suppressCreate: Option<bool>, createLabel: string, groups: seq<ResourceGroup>)
    ensures SelectedGroups(QuickPicksFor(suppressCreate, createLabel, groups)) == groups
  {
    var picks := QuickPicksFor(suppressCreate, createLabel, groups);
    SelectedGroupsOfGroupPicks(groups);
    if !IsTruthy(suppressCreate) {
      assert picks[1..] == GroupPicks(groups);
    } else {
      assert picks == GroupPicks(groups);
    }
  }

  /** The only entry that selects no group is the leading "create new" entry. */
  lemma OnlyCreateSelectsNothing(suppressCreate: Option<bool>, createLabel: string, groups: seq<ResourceGroup>, i: nat)
    requires i < |QuickPicksFor(suppressCreate, createLabel, groups)|
    ensures QuickPicksFor(suppressCreate, createLabel, groups)[i].data.None? <==>
              !IsTruthy(suppressCreate) && i == 0
  {
    var k := CreateOffset(suppressCreate);
    if i >= k {
      assert QuickPicksFor(suppressCreate, createLabel, groups)[(i - k) + k] == GroupPick(groups[i - k]);
    }
  }

  /** One page holding "rg-a" with creation allowed: the entries are "create new", then "rg-a". */
  lemma SingleGroupScenario(createLabel: string, rg: ResourceGroup)
    requires rg.name == Some("rg-a") && rg.location == "eastus"
    ensures var replies := [Delivered(Page([rg], None))];
            Terminates(replies) && Listing(replies) == Success([rg]) &&
            QuickPicksFor(None, createLabel, [rg]) == [CreatePick(createLabel), GroupPick(rg)] &&
            GroupPick(rg).displayLabel == Some("rg-a")
  {
    var replies := [Delivered(Page([rg], None))];
    assert Final(replies[0]);
    assert StopIndex(replies) == 0;
    assert replies[..1] == replies && replies[..0] == [];
    assert Flatten(replies[..0]) == [];
    assert Flatten(replies) == [rg];
    assert Listing(replies) == Success([rg]);
  }

  /** The steps `getSubWizard` contributes, given the chosen group and the location-step flag. */
  function SubWizardFor(resourceGroup: Option<ResourceGroup>, hasLocationStep: Option<bool>): (r: Option<WizardOptions>)
    ensures r.None? <==> resourceGroup.Some?
    ensures r.Some? ==> r.value.executeSteps == [ResourceGroupCreateStep]
    ensures r.Some? ==> |r.value.promptSteps| >= 1 && r.value.promptSteps[0] == ResourceGroupNameStep
    ensures r.Some? ==> (LocationListStep in r.value.promptSteps <==> !IsTruthy(hasLocationStep))
    ensures r.Some? ==> |r.value.promptSteps| == (if IsTruthy(hasLocationStep) then 1 else 2)
  {
    if resourceGroup.Some? then None
    else
      var promptSteps :=
        if IsTruthy(hasLocationStep) then [ResourceGroupNameStep] else [ResourceGroupNameStep, LocationListStep];
      Some(WizardOptions(promptSteps, [ResourceGroupCreateStep]))
  }

  /** The location-step flag after `getSubWizard`. */
  function LocationFlagAfter(resourceGroup: Option<ResourceGroup>, hasLocationStep: Option<bool>): Option<bool> {
    if resourceGroup.None? && !IsTruthy(hasLocationStep) then Some(true) else hasLocationStep
  }

  /** Number of location steps a sub-wizard contributes. */
  function LocationSteps(r: Option<WizardOptions>): nat {
    if r.Some? && LocationListStep in r.value.promptSteps then 1 else 0
  }

  /**
   * Two calls of `getSubWizard` on one context add at most one location step
   * between them, whatever group is chosen before each call.
   */
  lemma AtMostOneLocationStep(firstGroup: Option<ResourceGroup>, secondGroup: Option<ResourceGroup>,
                               hasLocationStep: Option<bool>)
    ensures var first := SubWizardFor(firstGroup, hasLocationStep);
            var second := SubWizardFor(secondGroup, LocationFlagAfter(firstGroup, hasLocationStep));
            LocationSteps(first) + LocationSteps(second) <= 1 &&
            (first.Some? && second.Some? ==> second.value.promptSteps == [ResourceGroupNameStep])
  {
  }

  /**
   * The user's pick decides the rest of the run: the "create new" entry
   * leads to a sub-wizard, any group entry to none.
   */
  lemma PickDecidesSubWizard(suppressCreate: Option<bool>, createLabel: string, groups: seq<ResourceGroup>,
                             i: nat, hasLocationStep: Option<bool>)
    requires i < |QuickPicksFor(suppressCreate, createLabel, groups)|
    ensures SubWizardFor(QuickPicksFor(suppressCreate, createLabel, groups)[i].data, hasLocationStep).Some? <==>
              !IsTruthy(suppressCreate) && i == 0
  {
    OnlyCreateSelectsNothing(suppressCreate, createLabel, groups, i);
  }

  /** The memoisation step every fetching operation performs on the context. */
  twostate predicate Memoised(ctx: WizardContext, replies: seq<Reply<ResourceGroup>>)
    reads ctx
  {
    ctx.Valid() &&
    if old(ctx.resourceGroupsTask).None? then
      Terminates(replies) && ctx.resourceGroupsTask == Some(Listing(replies)) &&
      ctx.fetches == old(ctx.fetches) + 1
    else
      ctx.resourceGroupsTask == old(ctx.resourceGroupsTask) && ctx.fetches == old(ctx.fetches)
  }

  class ResourceGroupListStep {
    const suppressCreate: Option<bool>

    constructor (suppressCreate: Option<bool>)
      ensures this.suppressCreate == suppressCreate
    {
      this.suppressCreate := suppressCreate;
    }

    /**
     * Installs the listing on the context when none is installed, then
     * returns the installed listing. `replies` is what the management API
     * would answer to a fresh listing.
     */
    static method GetResourceGroups(ctx: WizardContext, replies: seq<Reply<ResourceGroup>>)
      returns (r: Result<seq<ResourceGroup>>)
      requires ctx.Valid()
      requires ctx.resourceGroupsTask.None? ==> Terminates(replies)
      modifies ctx`resourceGroupsTask, ctx`fetches
      ensures ctx.Valid()
      ensures old(ctx.resourceGroupsTask).None? ==>
                ctx.resourceGroupsTask == Some(Listing(replies)) && ctx.fetches == old(ctx.fetches) + 1
      ensures old(ctx.resourceGroupsTask).Some? ==>
                ctx.resourceGroupsTask == old(ctx.resourceGroupsTask) && ctx.fetches == old(ctx.fetches)
      ensures ctx.resourceGroupsTask == Some(r)
    {
      if ctx.resourceGroupsTask.None? {
        var listing, _ := ListAll(replies);
        ctx.resourceGroupsTask := Some(listing);
        ctx.fetches := ctx.fetches + 1;
      }
      r := ctx.resourceGroupsTask.value;
    }

    /** True when no listed group has `name` as its name, ignoring case. */
    static method IsNameAvailable(ctx: WizardContext, replies: seq<Reply<ResourceGroup>>, name: string)
      returns (r: Result<bool>)
      requires ctx.Valid()
      requires ctx.resourceGroupsTask.None? ==> Terminates(replies)
      modifies ctx`resourceGroupsTask, ctx`fetches
      ensures Memoised(ctx, replies)
      ensures ctx.resourceGroupsTask.value.Failure? ==> r == Failure(ctx.resourceGroupsTask.value.error)
      ensures ctx.resourceGroupsTask.value.Success? ==>
                r.Success? && (r.value <==> !exists i :: 0 <= i < |ctx.resourceGroupsTask.value.value| &&
                                                      Blocks(ctx.resourceGroupsTask.value.value[i], name))
    {
      var groups := GetResourceGroups(ctx, replies);
      match groups
      case Failure(e) => r := Failure(e);
      case Success(gs) => r := Success(!AnyBlocks(gs, name));
    }

    /** The quick-pick entries: "create new" unless suppressed, then one entry per listed group. */
    method GetQuickPicks(ctx: WizardContext, replies: seq<Reply<ResourceGroup>>, createLabel: string)
      returns (r: Result<seq<QuickPick>>)
      requires ctx.Valid()
      requires ctx.resourceGroupsTask.None? ==> Terminates(replies)
      modifies ctx`resourceGroupsTask, ctx`fetches
      ensures Memoised(ctx, replies)
      ensures ctx.resourceGroupsTask.value.Failure? ==> r == Failure(ctx.resourceGroupsTask.value.error)
      ensures ctx.resourceGroupsTask.value.Success? ==>
                r == Success(QuickPicksFor(suppressCreate, createLabel, ctx.resourceGroupsTask.value.value))
    {
      var picks: seq<QuickPick> := [];
      if !IsTruthy(suppressCreate) {
        picks := picks + [CreatePick(createLabel)];
      }
      var groups := GetResourceGroups(ctx, replies);
      match groups
      case Failure(e) => r := Failure(e);
      case Success(gs) =>
        assert picks == if IsTruthy(suppressCreate) then [] else [CreatePick(createLabel)];
        r := Success(picks + GroupPicks(gs));
    }

    /**
     * Shows the entries and stores the chosen entry's group on the context;
     * "create new" stores none. A failed listing or a dismissal fails the
     * step and leaves the chosen group as it was.
     */
    method Prompt(ctx: WizardContext, replies: seq<Reply<ResourceGroup>>, createLabel: string,
                  response: PickerResponse)
      returns (r: Result<()>)
      requires ctx.Valid()
      requires ctx.resourceGroupsTask.None? ==> Terminates(replies)
      modifies ctx`resourceGroupsTask, ctx`fetches, ctx`resourceGroup
      ensures Memoised(ctx, replies)
      ensures ctx.resourceGroupsTask.value.Failure? ==>
                r == Failure(ctx.resourceGroupsTask.value.error) && ctx.resourceGroup == old(ctx.resourceGroup)
      ensures ctx.resourceGroupsTask.value.Success? ==>
                var picks := QuickPicksFor(suppressCreate, createLabel, ctx.resourceGroupsTask.value.value);
                if response.Chose? && response.index < |picks| then
                  r == Success(()) && ctx.resourceGroup == picks[response.index].data
                else
                  r == Failure(Cancelled) && ctx.resourceGroup == old(ctx.resourceGroup)
    {
      var picks := GetQuickPicks(ctx, replies, createLabel);
      match picks
      case Failure(e) =>
        r := Failure(e);
      case Success(ps) =>
        if response.Chose? && response.index < |ps| {
          ctx.resourceGroup := ps[response.index].data;
          r := Success(());
        } else {
          r := Failure(Cancelled);
        }
    }

    /**
     * When no group was chosen, the naming step, a location step unless the
     * run already has one, and the creation step; otherwise nothing.
     */
    method GetSubWizard(ctx: WizardContext) returns (r: Option<WizardOptions>)
      modifies ctx`alreadyHasLocationStep
      ensures r == SubWizardFor(ctx.resourceGroup, old(ctx.alreadyHasLocationStep))
      ensures ctx.alreadyHasLocationStep == LocationFlagAfter(ctx.resourceGroup, old(ctx.alreadyHasLocationStep))
    {
      if ctx.resourceGroup.None? {
        var promptSteps := [ResourceGroupNameStep];
        if !IsTruthy(ctx.alreadyHasLocationStep) {
          promptSteps := promptSteps + [LocationListStep];
          assert promptSteps == [ResourceGroupNameStep, LocationListStep];
          ctx.alreadyHasLocationStep := Some(true);
        }
        r := Some(WizardOptions(promptSteps, [ResourceGroupCreateStep]));
      } else {
        r := None;
      }
    }

    /** The step prompts only while neither a group nor a new group name has been set. */
    function ShouldPrompt(ctx: WizardContext): (b: bool)
      reads ctx
      ensures b <==> ctx.resourceGroup.None? && (ctx.newResourceGroupName.None? || ctx.newResourceGroupName == Some(""))
    {
      ctx.resourceGroup.None? && !IsNonEmpty(ctx.newResourceGroupName)
    }
  }
}
