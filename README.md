# Resource-group selection step of the Logic Apps wizard

A Dafny model of the resource-group step of the Azure Logic Apps extension's
creation wizard. The step lists the subscription's resource groups through a
paginated management API, caches that listing on the wizard context, offers
the groups in a quick pick (with an optional "create new" entry), records the
user's choice on the context, and, when the user asks for a new group,
contributes the naming, location and creation steps to the wizard run.

Modules:

- `Results`: `Option` (TypeScript's `T | undefined`), `Result` (a settled
  promise), the error kinds (a rejected page fetch, a dismissed quick pick)
  and JavaScript truthiness of optional booleans and strings.
- `Paging`: pages, oracle replies and the specification of `uiUtils.listAll`
  (`StopIndex`, `Flatten`, `Listing`) with its lemmas.
- `Models`: the resource group, the prompt and execute steps, the sub-wizard
  options and the wizard context as a class with a ghost fetch counter.
- `Naming`: the declared naming rules (length range and the negated
  character class) and what names they accept.
- `ResourceGroupList`: `src/wizard/ResourceGroupListStep.ts`: `ListAll`, the
  step class with `GetResourceGroups`, `IsNameAvailable`, `GetQuickPicks`,
  `Prompt`, `GetSubWizard` and `ShouldPrompt`, and the pure functions and
  lemmas that specify them.
- `LogicAppResourceGroupList`: `src/wizard/logic-app/ResourceGroupListStep.ts`:
  its own copy of `ListAll`, its constructor and its `GetResourceGroups`.

How the outside world enters the model:

- The management API is an oracle whose answers are fixed in advance: a
  sequence of replies. `replies[0]` settles the first page, and `replies[i + 1]`
  settles the i-th `listNext` call. Each reply either delivers a page (items
  and an optional `nextLink`) or rejects with a reason. `ListAll` returns the
  links it passed to `listNext`, so the model can state which link each call
  received.
- The quick pick is the user's response: the index of the chosen entry, or a
  dismissal.
- The localised "create new" label is a parameter.
- `await` is one sequential step. The cached promise is modelled by its
  settled value, `resourceGroupsTask`, and a ghost counter `fetches` records
  how many listings the context has started.

Behaviours of the code that a reader might not expect, which the model keeps:

- `shouldPrompt` uses JavaScript truthiness, so an empty
  `newResourceGroupName` counts as unset. The step still prompts in that case.
- `while (list.nextLink)` also stops on an empty-string link.
- The cache belongs to the context instance, not to the subscription. The
  subscription id decides which subscription the first listing reads (it is
  passed to the management client) and names the quick pick's remembered
  choice, but it is not part of the cache key: a context reused for another
  subscription keeps returning the first listing.
- `isNameAvailable` also starts the listing when no listing is cached yet.

## Model

| member | source | states |
|---|---|---|
| Paging.StopIndex | src/wizard/ResourceGroupListStep.ts:112-117 | the listing ends at the first reply that rejects or delivers a page without a (non-empty) next link |
| Paging.ListingLength | src/wizard/ResourceGroupListStep.ts:110-119 | a successful listing holds exactly the sum of the item counts of the pages it consumed |
| Paging.PageInPlace | src/wizard/ResourceGroupListStep.ts:113-116 | each page's items appear as one contiguous block after all earlier pages' items, i.e. in arrival order |
| Paging.EmptyFirstPage | src/wizard/ResourceGroupListStep.ts:112-114 | an empty first page without a next link (absent or empty string) settles to an empty list, not an error, after no `listNext` call |
| Paging.RejectionPropagates | src/wizard/ResourceGroupListStep.ts:112-116 | a page fetch that rejects before the chain ends rejects the whole listing with the same reason |
| Paging.ListingFailsIffRejected | src/wizard/ResourceGroupListStep.ts:109-120 | the listing fails if and only if some reply rejects before any earlier page ends the chain |
| ResourceGroupList.ListAll | src/wizard/ResourceGroupListStep.ts:109-120 | settles to the in-order concatenation of all pages (or the first rejection); calls `listNext` exactly once per linked page, each time with the link of the page just received, and never after a page without a link |
| LogicAppResourceGroupList.ListAll | src/wizard/logic-app/ResourceGroupListStep.ts:40-51 | the logic-app copy meets the same specification: in-order concatenation, each `listNext` gets the previous page's link, stops at a page without a link |
| ResourceGroupList.ResourceGroupListStep.GetResourceGroups | src/wizard/ResourceGroupListStep.ts:26-36 | starts a listing and installs it only when none is cached; otherwise returns the cached listing with no fetch; at most one fetch per context |
| LogicAppResourceGroupList.ResourceGroupListStep.GetResourceGroups | src/wizard/logic-app/ResourceGroupListStep.ts:22-30 | the logic-app copy: fetches only when no listing is cached, otherwise returns the cached listing unchanged |
| ResourceGroupList.ResourceGroupListStep.constructor | src/wizard/ResourceGroupListStep.ts:21-24 | stores `suppressCreate` as given |
| LogicAppResourceGroupList.ResourceGroupListStep.constructor | src/wizard/logic-app/ResourceGroupListStep.ts:16-19 | stores `suppressCreate` as given and has no other effect |
| ResourceGroupList.ToLower | src/wizard/ResourceGroupListStep.ts:40 | lowercasing keeps the length and maps every character independently |
| ResourceGroupList.AnyBlocks | src/wizard/ResourceGroupListStep.ts:40 | true iff some group has a defined name equal to the given name after lowercasing both |
| ResourceGroupList.AvailabilityIgnoresCase | src/wizard/ResourceGroupListStep.ts:40 | two names equal up to case are equally available |
| ResourceGroupList.UnnamedGroupNeverBlocks | src/wizard/ResourceGroupListStep.ts:40 | a group with an undefined name never makes a name unavailable |
| ResourceGroupList.ExistingLowercaseNameBlocks | src/wizard/ResourceGroupListStep.ts:40 | an existing group "foo" makes "Foo" unavailable |
| ResourceGroupList.ResourceGroupListStep.IsNameAvailable | src/wizard/ResourceGroupListStep.ts:38-41 | after the memoised fetch, true iff no listed group blocks the name; a failed listing fails with its error |
| ResourceGroupList.ResourceGroupListStep.ShouldPrompt | src/wizard/ResourceGroupListStep.ts:71-73 | true iff no group is chosen and the new group name is undefined or empty |
| ResourceGroupList.GroupPicks | src/wizard/ResourceGroupListStep.ts:89-97 | one entry per group, in order, with id, label = name, description = location and data = the group |
| ResourceGroupList.QuickPicksFor | src/wizard/ResourceGroupListStep.ts:77-98 | "create new" (data undefined) first unless creation is suppressed, then one entry per group in order; length = groups + 1, or + 0 when suppressed |
| ResourceGroupList.QuickPicksOfferEveryGroup | src/wizard/ResourceGroupListStep.ts:88-97 | the groups the entries select are exactly the listed groups, in order |
| ResourceGroupList.OnlyCreateSelectsNothing | src/wizard/ResourceGroupListStep.ts:80-96 | an entry selects no group iff it is the leading "create new" entry |
| ResourceGroupList.SingleGroupScenario | src/wizard/ResourceGroupListStep.ts:80-97 | a single page with "rg-a" and creation allowed gives the entries "create new", then "rg-a" |
| ResourceGroupList.ResourceGroupListStep.GetQuickPicks | src/wizard/ResourceGroupListStep.ts:77-98 | after the memoised fetch, the entries are `QuickPicksFor` of the cached groups; a failed listing fails with its error |
| ResourceGroupList.ResourceGroupListStep.Prompt | src/wizard/ResourceGroupListStep.ts:44-49 | stores the chosen entry's data as the context's group; a failed listing or a dismissal fails and leaves the group as it was |
| ResourceGroupList.SubWizardFor | src/wizard/ResourceGroupListStep.ts:52-69 | none when a group is chosen; otherwise the naming step, a location step iff the flag is falsy, and exactly the creation step to execute |
| ResourceGroupList.ResourceGroupListStep.GetSubWizard | src/wizard/ResourceGroupListStep.ts:52-69 | returns `SubWizardFor` of the context and sets the location flag exactly when it adds a location step; nothing else changes |
| ResourceGroupList.AtMostOneLocationStep | src/wizard/ResourceGroupListStep.ts:57-60 | two calls on one context add at most one location step, even when the chosen group changes between them; when both contribute steps, the second prompts only for the name |
| ResourceGroupList.PickDecidesSubWizard | src/wizard/ResourceGroupListStep.ts:47-67 | the sub-wizard is contributed iff the user picked the leading "create new" entry |
| Naming.Search | src/wizard/ResourceGroupListStep.ts:13 | finds the first character the invalid-character pattern matches, or none when no character matches |
| Naming.AcceptsResourceGroupName | src/wizard/ResourceGroupListStep.ts:10-14 | the declared rules accept exactly names in the length range made of ASCII letters, digits, '.', '_', '-', '(' and ')' |

Both files declare the same naming rules (`src/wizard/logic-app/ResourceGroupListStep.ts:6-10`).
Both modules' `ResourceGroupNamingRules` constants use `Naming.ResourceGroupInvalidChars`, so
`Naming.AcceptsResourceGroupName` covers both.

## Left out

- The management client is replaced by the reply oracle. The model leaves out client construction from the credentials, the subscription id and the endpoint URL.
- The reply oracle is not tied to the subscription id: the caller supplies the replies the listing would receive. That is why `Models.WizardContext`'s `subscriptionId` field is stored but never read by any member.
- The quick-pick UI is replaced by the user's response. An index that names no offered entry is treated as a dismissal. The picker's options are not modelled: the placeholder, and the id that the host uses to remember the last choice per subscription.
- The "create new" label comes from localisation. It is a parameter.
- Promises and concurrency are not modelled. Each `await` is one sequential step, and the cached promise is its settled value. A second caller that would await the in-flight promise is modelled as a later call that reads the cache.
- ResourceGroupList.ListAll: requires that the reply chain ends, because a server that keeps sending next links would make the source loop forever, and the model cannot express that. The same holds for LogicAppResourceGroupList.ListAll and every caller of them.
- ResourceGroupList.ToLower: lowercases ASCII letters only. Unicode case mapping is not modelled.
- The regular-expression engine is not modelled. The pattern `[^a-zA-Z0-9\.\_\-\(\)]` is a negated character class with a first-match search. The UI library enforces the rules, not this step.
- `label: rg.name!` asserts non-null but does not check it. The model keeps the label optional, so it is undefined when the group has no name.
- The logic-app step's prompting, quick picks and sub-wizard come from the UI library's base class. That code is not part of this model. Its `suppressCreate` field is stored but unused in the visible code.
- The code-view editor (`src/editor/RunCodeViewEditor.ts`) is not part of this model. It does not compile as written, and its work is JSON parsing and printing.
- The wizard engine itself is not part of this model: splicing sub-wizard steps into a run, and running the execute steps.
