# voty-xyz proposal pipeline in Dafny

This project models the core of voty, a voting application. Communities are stored on Arweave
and signed with `.bit` or `.eth` DIDs. Proposers sign proposals in the browser, and server
handlers check each proposal before storing it. The model covers these parts:

- the DID dispatch (`resolveDid`, `requiredCoinTypesOfDidResolver`, `didSuffixIs`) and the `exact_did` proposer-liberty leaf;
- the signer side, which builds an `authorship` record and signs a document with it;
- the checking side: `verifyAuthorshipProof`, `verifyProposal`, and the two signing endpoints as short-circuiting pipelines with their exact rejection reasons;
- the permalink codec, the coin-type and chain-id tables, and the Arweave tag construction;
- the workgroup and proposal schemas, modelled as parsers of a small JSON datatype;
- the list logic of the proposal form, the proposing-policy editor, the proposal card, the choice list and the DID combobox.

Every collaborator whose code is not part of the model is a function-valued parameter. This
covers signature checks, the wallet, the chain's current height, storage, DID resolvers,
policy evaluation and Unicode case mapping. Each handler returns a datatype that names the
exact rejection.

Modules: `Wrappers` (Option, Result), `JsonValue`, `Strings` (JavaScript `split`, `join`,
`endsWith`, `includes`, `String(n)`), `Seqs` (filter, find, subsequence), then one module per
source file.

## Model

| member | source | states |
|---|---|---|
| Did.DidSuffixIsShape | src/utils/did/index.ts:25-30 | a DID passes the suffix test iff it ends with a dot and the suffix name, so the bare name fails |
| Did.DidOfName | src/utils/did/index.ts:25-30 | any name followed by "." and the suffix passes that suffix's test |
| Did.SuffixesExclusive | src/utils/did/index.ts:6-11 | no string passes both the `.bit` and the `.eth` test, so dispatch order is irrelevant |
| Did.FamilyOf | src/utils/did/index.ts:6-12 | the DID family chosen is `.bit` iff its test holds, `.eth` iff its test holds, none iff neither |
| Did.Lift | src/utils/did/index.ts:7-10 | a resolver's answer passes through unchanged, and its failure stays a failure |
| Did.ResolveDid | src/utils/did/index.ts:5-13 | `.bit` DIDs go to the bit resolver, `.eth` DIDs to the eth resolver, and the result is "unsupported did" exactly for the rest |
| Did.RequiredCoinTypesOfDidResolver | src/utils/did/index.ts:15-23 | the bit or eth resolver's coin types by suffix; fails as unsupported iff neither suffix matches |
| Did.UnsupportedAgree | src/utils/did/index.ts:5-23 | `resolveDid` rejects as unsupported exactly when `requiredCoinTypesOfDidResolver` does |
| ExactDidLiberty.ExactDid | src/functions/proposer-liberty/exact-did.ts:3-11 | requires no coin types; `execute` holds iff the DID is in the list, for every snapshot |
| ExactDidLiberty.ExactDidIgnoresOrderAndRepetition | src/functions/proposer-liberty/exact-did.ts:4 | two lists with the same members give the same verdict for every DID |
| ExactDidLiberty.ExactDidSnapshotFree | src/functions/proposer-liberty/exact-did.ts:4-10 | the verdict does not depend on the snapshot, and the empty list denies everyone |
| Constants.IsTestnet | src/utils/constants.ts:1 | the testnet flag is set iff the environment variable is present and non-empty |
| Constants.DocumentTitle | src/utils/constants.ts:3 | "Voty Testnet" iff testnet, "Voty Alpha" iff mainnet |
| Constants.ChainIdToRpc | src/utils/constants.ts:22-29 | RPC URLs exist for exactly the six chain ids of both networks |
| Constants.CoinTypeToChainId | src/utils/constants.ts:40-50 | the domain is exactly the EVM coin types 60, 966 and 9006 on either network |
| Constants.CoinTypeChainIdRoundTrip | src/utils/constants.ts:31-50 | on either network, mapping an EVM coin type to its chain id and back gives the coin type |
| Constants.ChainIdCoinTypeRoundTrip | src/utils/constants.ts:31-50 | on either network, mapping a known chain id to its coin type and back gives the chain id |
| Constants.CoinTypeToChainIdInjective | src/utils/constants.ts:40-50 | distinct coin types never share a chain id |
| Constants.NetworkSeparation | src/utils/constants.ts:22-50 | CKB and AR have no chain id, the other network's chain ids map to no coin type, and every mapped chain id has an RPC URL |
| Permalink.Id2Permalink | src/utils/permalink.ts:1-3 | the permalink starts with "ar://" and is five characters longer than the id |
| Permalink.Permalink2Id | src/utils/permalink.ts:5-7 | strips one leading "ar://", and leaves other strings unchanged |
| Permalink.Permalink2Explorer | src/utils/permalink.ts:9-11 | the explorer URL is the viewblock prefix followed by the permalink's id |
| Permalink.IdRoundTrip | src/utils/permalink.ts:1-7 | stripping a built permalink gives the id back |
| Permalink.PermalinkRoundTrip | src/utils/permalink.ts:1-7 | rebuilding a stripped "ar://" permalink gives the permalink back |
| Permalink.StripsOnePrefix | src/utils/permalink.ts:6 | a doubled prefix loses only its first copy |
| Permalink.ExplorerOfId | src/utils/permalink.ts:1-11 | the explorer URL of a built permalink ends with the id itself |
| ArweaveTags.GetArweaveTags | src/utils/arweave-tags.ts:4-31 | the three default tags are always present. Organizations get type and parent DID (5 keys) and take precedence. Other proposals get type, organization and workgroup (6 keys). Anything else fails with "cannot get arweave tags" |
| WorkgroupSchema.ParseIntroduction | src/utils/schemas/workgroup.ts:18 | an absent introduction parses as none, a string parses as itself, anything else is rejected |
| WorkgroupSchema.ParseWorkgroup | src/utils/schemas/workgroup.ts:5-21 | an accepted workgroup satisfies every field constraint and each of its fields is the one stored at its JSON path; conversely every JSON value holding a valid workgroup's fields at those paths parses to it, whatever other members it has |
| WorkgroupSchema.ParseToJson | src/utils/schemas/workgroup.ts:5-21 | a valid workgroup round-trips through its JSON form |
| WorkgroupSchema.ExtraKeysStripped | src/utils/schemas/workgroup.ts:5-21 | a member the schema does not name, added to a valid workgroup's JSON form, is dropped and the workgroup parses unchanged |
| WorkgroupSchema.DurationBoundary | src/utils/schemas/workgroup.ts:8-12 | 3600 seconds is accepted for either duration and 3599 is rejected |
| WorkgroupSchema.ParsedDurationsAtLeastHour | src/utils/schemas/workgroup.ts:10-11 | any accepted JSON stores both durations at 3600 or more |
| WorkgroupSchema.PermissionNeedsBoth | src/utils/schemas/workgroup.ts:13-16 | a permission missing `proposing` or `voting` is rejected |
| WorkgroupSchema.IntroductionBound | src/utils/schemas/workgroup.ts:18 | an introduction over 160 characters, or a null one, is rejected |
| ProposalSchema.ParseVotingType | src/schemas/proposal.ts:9 | accepts exactly "single", "multiple" and "weighted", and names the parsed value back |
| ProposalSchema.ParseOptions | src/schemas/proposal.ts:11 | options parse iff every element is a non-empty string, keeping them in order |
| ProposalSchema.ParseSnapshots | src/schemas/proposal.ts:12 | snapshots parse iff they form an object of strings, with the same keys and values |
| ProposalSchema.ParseProposal | src/schemas/proposal.ts:5-13 | an accepted proposal satisfies every field constraint and each field is the stored one; conversely every JSON value holding a valid proposal's fields parses to it, whatever other members it has |
| ProposalSchema.ParseProposalWithAuthor | src/schemas/proposal.ts:16-18 | accepted iff the proposal fields parse and the author parses; the result is both |
| ProposalSchema.OptionsRoundTrip | src/schemas/proposal.ts:11 | an array of non-empty option strings parses back to the same options, in order |
| ProposalSchema.ParseToJson | src/schemas/proposal.ts:5-13 | a valid proposal round-trips through its JSON form |
| ProposalSchema.ExtraKeysStripped | src/schemas/proposal.ts:5-13 | a member the schema does not name, added to a valid proposal's JSON form, is dropped and the proposal parses unchanged |
| ProposalSchema.EmptyBodyAccepted | src/schemas/proposal.ts:8-11 | an empty body is accepted, while an empty title or an empty option list is rejected |
| VerifyAuthorshipProof.VerifyAuthorshipProof | src/utils/verifiers/verify-authorship-proof.ts:9-27 | a network mismatch (absent flag read as mainnet) always gives "mainnet testnet mismatch". "invalid author address" means the network matched and the proof failed over the document without `proof`. "proof of did is invalid" means both passed and the DID check failed. Success returns the document's own authorship and proof |
| VerifyAuthorshipProof.AcceptedIffAllChecksPass | src/utils/verifiers/verify-authorship-proof.ts:14-26 | a document is accepted iff all three checks pass |
| SignDocument.MakeAuthorship | src/hooks/use-sign-document.ts:28-35 | the author is the DID, with the DID's coin type and that chain's current height. The flag is `true` on testnet and absent on mainnet |
| SignDocument.SignDocument | src/hooks/use-sign-document.ts:20-43 | no DID gives nothing; no address requests a connection. Otherwise the result keeps every original field and adds exactly `authorship` and `proof`. The proof signs the document plus authorship |
| SignDocument.NetworkFlagRoundTrip | src/hooks/use-sign-document.ts:34 | the flag written on a network is read back as that network by the verifier |
| SignDocument.SignThenVerify | src/hooks/use-sign-document.ts:36-42 | the verifier checks the proof against exactly the payload the wallet signed; on the same network only the two cryptographic checks can reject |
| SignDocument.CrossNetworkRejected | src/hooks/use-sign-document.ts:34 | a document signed on one network is rejected as a mismatch on the other |
| Freshness.Fresh | pages/api/sign/proposal.ts:52-60 | a snapshot is fresh iff the current height is within 5 of it, inclusive |
| Freshness.FreshIsDistance | pages/api/sign/proposal.ts:54-57 | freshness is a distance of at most 5, symmetric in its arguments |
| Freshness.FreshBoundaries | pages/api/sign/proposal.ts:54-57 | at current height 100, snapshots 95 and 105 are accepted while 93, 94 and 106 are rejected, and the same holds with the roles swapped |
| SignProposalApi.FindGroup | pages/api/sign/proposal.ts:77-83 | the group found is the first of the community's groups with the requested id; none iff no group has that id |
| SignProposalApi.Handle | pages/api/sign/proposal.ts:26-127 | a schema failure, an exception from resolution and a forged author each end the request with their own outcome. "outdated snapshot", "community schema error", "group not found" and "does not have proposer liberty" are each answered iff every earlier check passed and that check fails. A store carries the DID, community, group and full request |
| SignProposalApi.StoredIffAllChecksPass | pages/api/sign/proposal.ts:30-126 | a request is stored (status 200) iff every check passes; every rejection answers 400 |
| SignProposalApi.AuthorCheckedBeforeFreshness | pages/api/sign/proposal.ts:37-60 | a forged and also stale request is reported as "invalid author" |
| SignProposalLegacyApi.Handle | pages/api/sign-proposal.ts:21-84 | schema, signature, freshness and organization are checked in that order: "outdated snapshot" iff the signature is genuine and the snapshot stale, "organization schema error" iff both pass and the organization fails its schema. A failing tag call is an uncaught exception. An upload carries the request and its tags |
| SignProposalLegacyApi.UploadedTags | pages/api/sign-proposal.ts:74-80 | an uploaded proposal has the default tags; unless it is classed as an organization, it is tagged with its organization and workgroup |
| SignProposalLegacyApi.UploadedIffAllChecksPass | pages/api/sign-proposal.ts:25-83 | a request is uploaded (status 200) iff every check passes and tagging succeeds; every rejection answers 400 |
| SignProposalLegacyApi.FreshnessCheckedBeforeOrganization | pages/api/sign-proposal.ts:47-70 | a stale request is reported as "outdated snapshot" even when its organization fails its schema |
| VerifyProposal.FindWorkgroup | src/utils/verifiers/verify-proposal.ts:30-32 | the workgroup found is the first of the community's workgroups with the requested id; none iff none has it |
| VerifyProposal.VerifyProposal | src/utils/verifiers/verify-proposal.ts:13-51 | "Community not found" iff timestamp or community is missing. "Workgroup not found" iff no workgroup has the id. "Proposing permission denied" iff both are found and the first workgroup with the id denies the author at the snapshots. Success returns the community and that first workgroup |
| VerifyProposal.AcceptedIffAllChecksPass | src/utils/verifiers/verify-proposal.ts:19-50 | a proposal is verified iff the community and its timestamp are found, a workgroup has the id and its policy admits the author; an error is FORBIDDEN iff it is the denial |
| VerifyProposal.FirstWorkgroupDecides | src/utils/verifiers/verify-proposal.ts:30-48 | with two workgroups of the same id, a proposer the first one denies is denied, whatever the second one says |
| ProposalForm.KeepOthers | src/components/proposal-from.tsx:60 | filtering out index `i` removes exactly that element and keeps the rest in order; an index out of range changes nothing |
| ProposalForm.HandleOptionDelete | src/components/proposal-from.tsx:58-64 | removes exactly option `i`, keeping order; deleting the only option leaves `['']`, so the list is never empty |
| ProposalForm.AddOption | src/components/proposal-from.tsx:236-238 | the options gain one empty option at the end |
| ProposalForm.DeleteUndoesAdd | src/components/proposal-from.tsx:58-64 | deleting the option just added gives the options back |
| ProposalForm.RemoveButtonKeepsTwo | src/components/proposal-from.tsx:269-274 | since Remove shows only above two options, a removal leaves at least two |
| ProposalForm.Uniq | src/components/proposal-from.tsx:79 | the result has no repetitions and the same members as the input |
| ProposalForm.RequiredCoinTypes | src/components/proposal-from.tsx:79-84 | the duplicate-free union of the chosen DID's coin type (when a DID is chosen) and the policy's coin types |
| ProposalForm.SnapshotMap | src/components/proposal-from.tsx:88-91 | the keys are exactly the coin types, and each coin type's last position gives its snapshot |
| ProposalForm.CurrentSnapshots | src/components/proposal-from.tsx:76-97 | maps exactly the required coin types, each to its current height |
| ProposalForm.Disables | src/components/proposal-from.tsx:100-124 | each listed DID is disabled iff it fails the proposing policy |
| ProposalForm.DidOptions | src/components/proposal-from.tsx:125-133 | offers only listed DIDs that are not disabled |
| ProposalForm.EligibleDids | src/components/proposal-from.tsx:118-131 | the DIDs offered are exactly those passing the policy, in their original order |
| ProposalForm.EligibleUnder | src/components/proposal-from.tsx:125-131 | under any map recording each DID's failure, the offered DIDs are the passing ones |
| ProposalForm.DefaultDid | src/components/proposal-from.tsx:134-140 | the DID of the option at position k whenever k is the first position not disabled; the empty DID when there are no options or all are disabled |
| ProposalForm.DefaultIsFirstEligible | src/components/proposal-from.tsx:125-140 | the default proposer is the first DID passing the policy, or the empty DID when none does |
| BooleanSetsBlock.AddOperand | src/components/boolean-sets-block.tsx:60-66 | appends `prefixes_dot_suffix_exact_match` over the entry and opens the new operand |
| BooleanSetsBlock.ModeOf | src/components/boolean-sets-block.tsx:234 | the filter shows "allowlist" iff its list is non-empty |
| BooleanSetsBlock.ModeRoundTrip | src/components/boolean-sets-block.tsx:234-235 | choosing a mode stores a list that reads back as that mode |
| BooleanSetsBlock.OnChange | src/components/boolean-sets-block.tsx:271-274 | one entry per separator plus one, none containing tab, newline, comma or space; joined by spaces they give the text with every separator turned into a space, so they are the text's pieces in order |
| BooleanSetsBlock.ChangeOfDisplayed | src/components/boolean-sets-block.tsx:266-274 | typing back a list shown one entry per line stores that list, when no entry holds a separator |
| BooleanSetsBlock.StripSuffix | src/components/boolean-sets-block.tsx:116 | removes one trailing dot-and-suffix with dots literal, and changes nothing else |
| BooleanSetsBlock.CleanLines | src/components/boolean-sets-block.tsx:277-279 | each line has its suffix stripped and is then trimmed |
| BooleanSetsBlock.OnBlur | src/components/boolean-sets-block.tsx:275-282 | never empty. When some cleaned line is non-empty, the result is an order-preserving subsequence of the cleaned lines holding all of the non-empty ones and nothing else; otherwise it is `['']` |
| BooleanSetsBlock.BlurOfDisplayed | src/components/boolean-sets-block.tsx:266-282 | a list of clean entries survives display followed by blur unchanged |
| ProposalCard.PeriodOf | src/components/proposal-card.tsx:28-38 | confirming iff a timestamp is missing; otherwise pending before `ts_pending`, voting until `ts_voting`, then ended |
| ProposalCard.PeriodMonotone | src/components/proposal-card.tsx:31-35 | when pending precedes voting, the period never moves backwards as time passes |
| ChoiceList.ItemsOf | components/choice-list.tsx:126-133 | one item per choice, in order, with text equal to the choice and id equal to the choice plus its index |
| ChoiceList.TextsOfItems | components/choice-list.tsx:126-133 | reading the texts of the items gives the choices back |
| ChoiceList.HandleChange | components/choice-list.tsx:135-140 | same length; items with the id take the new text and the others keep theirs |
| ChoiceList.SpliceOne | components/choice-list.tsx:147 | JavaScript `splice(start, 1)`: a negative start counts from the end, and a start past the end removes nothing |
| ChoiceList.HandleDelete | components/choice-list.tsx:142-152 | removes the first item with the id. When no item has it, the last item is removed. A non-empty list always shrinks by one |
| ChoiceList.HandleAdd | components/choice-list.tsx:154-156 | the texts followed by one empty choice |
| ChoiceList.UiDeleteKeepsOne | components/choice-list.tsx:177 | Delete is offered only before the last row, so it shortens the list by one and never empties it |
| ChoiceList.UiAddAppends | components/choice-list.tsx:178 | the last row's Add yields the choices followed by an empty one; the `handleBlur` call before it is not modelled |
| ChoiceList.ChangeEditsTwoRows | components/choice-list.tsx:128-137 | choices "a1" at index 1 and "a" at index 11 get the same id, and editing the first also rewrites the second |
| ChoiceList.DeleteRemovesEarlierRow | components/choice-list.tsx:128-148 | with that collision, deleting row 11 removes row 1 |
| ChoiceList.ItemsByPosition | components/choice-list.tsx:128-131 | items keyed by their index alone, each with its choice's text |
| ChoiceList.NatToStringInjective | components/choice-list.tsx:129 | distinct indices have distinct decimal forms, so keys by position are unique |
| ChoiceList.ChangeByPositionEditsOneRow | components/choice-list.tsx:135-140 | with keys by position, an edit changes that row and no other |
| ChoiceList.DeleteByPositionRemovesThatRow | components/choice-list.tsx:142-152 | with keys by position, a delete removes that row and keeps the rest in order |
| Combobox.FilteredOptions | src/components/basic/combobox.tsx:19-24 | an empty query keeps every option. Otherwise an option, with its `disabled` flag, is kept iff its lowered DID contains the lowered query |
| Combobox.FilteredIsSubsequence | src/components/basic/combobox.tsx:19-24 | the result is an order-preserving subsequence of the options |
| Combobox.CaseInsensitive | src/components/basic/combobox.tsx:23 | non-empty queries that lower to the same text show the same options |
| Combobox.NoMatchHidesMenu | src/components/basic/combobox.tsx:22-24 | a query no lowered DID contains leaves no options |

## Left out

- Network and storage I/O are left out. This covers Arweave transaction creation, signing, `getData`, the upload, the database upsert and the tRPC plumbing. The storage fetch is a parameter returning an optional, already parsed community or organization.
- The cryptographic and chain collaborators are function parameters. These are `verifySignature`, `wrapJsonMessage`, `verifyDocument`, `checkDidAuthor`, the wallet's `signDocument`, `getCurrentSnapshot`, `getPermalinkSnapshot`, `getSnapshotTimestamp`, and the bit and eth resolvers.
- `checkBoolean`, `checkProposerLiberty`, `requiredCoinTypesOfBooleanSets` and `mapSnapshots` are not part of this model and stay abstract. So do the boolean-sets and decimal-sets schemas.
- `requiredCoinTypeOfDidChecker` is a parameter (`coinTypeOf`), because its code is not part of this model.
- Unicode `toLowerCase` and `trim` are parameters; the model fixes no case mapping or whitespace set.
- zod's error messages are reduced to the rejection reason ("schema error" and the like), without the detail text that follows it.
- JSON numbers are integers; fractional durations are not modelled.
- String lengths count characters, while JavaScript counts UTF-16 code units; they differ only outside the Basic Multilingual Plane.
- ProposalForm.SnapshotMap: stores heights as numbers, where the source stores `snapshot.toString()` under stringified coin types.
- ProposalForm.Uniq: does not state that each value keeps its first position, only membership and absence of repetitions.
- BooleanSetsBlock.StripSuffix: treats every character of the suffix literally. The source escapes only dots, so a suffix holding another regular-expression metacharacter behaves differently there.
- `BigInt(snapshot)` parsing is left out: snapshots are natural numbers already.
- `pMap` with concurrency 5 and `Promise.all` become sequential maps.
- VerifyProposal.VerifyProposal: treats a stored timestamp as present or absent. The source also rejects a timestamp of 0, which is falsy.
- `handleDragEnd` in the choice list is left out. It relies on dnd-kit's `arrayMove`, which is not part of this model.
- The tags of pages/api/sign/proposal.ts are left out: at that revision the proposal has no organization or workgroup fields for the tag function shown to read.
- SignProposalLegacyApi.Handle: the signer DID of the stored organization is fetched but ignored, because the tag function shown takes a single argument. A failing tag call becomes an uncaught exception.
- The eth resolver (src/functions/did-resolvers/eth.ts) is not part of this model; it is the `eth` field of the resolvers.
- The form's `disabled` flag, the rendering, and the refetch interval of the snapshot query are presentation and are left out.
- ProposalForm.Disables: the check is one `string -> bool` per DID. In the source the query passes `checkBoolean` the local `snapshots` array of heights (src/components/proposal-from.tsx:109-115), which shadows the coin-type-keyed record, and it takes the coin types from the currently chosen DID (line 104), not the DID being checked. The model does not say how `checkBoolean` reads that array, since its code is not part of this model.
- ChoiceList.UiAddAppends: Add first calls `handleBlur()` (components/choice-list.tsx:51-54), which sends the row's current text through `onChange`; the model takes that text as already committed and shows only the append.
- `coinTypeNames`, `coinTypeExplorers`, `coinTypeLogos`, `DataType` and `cacheControl` in src/utils/constants.ts are display tables and are left out.

## Where the code and the design description differ

- Freshness: the design description's example accepts snapshot 94 at current height 100. The code (pages/api/sign/proposal.ts:54-57, pages/api/sign-proposal.ts) rejects it, because the distance 6 exceeds the tolerance of 5. The model follows the code, and `Freshness.FreshBoundaries` records the cases 93 to 106.
- DID resolution: the design description says a resolution failure rejects the request. In the handlers, `resolveDid` throws on an unsupported suffix and nothing catches it, so the request fails with a server error. The model returns `Thrown` here, not a rejection.

## Findings

| source | as written | input that shows it | evidently intended | confidence | as-written member | corrected member |
|---|---|---|---|---|---|---|
| components/choice-list.tsx:128-148 | item ids are the choice text followed by its index, and `handleChange`/`handleDelete` act on every or the first item with a given id | choices where index 1 holds "a1" and index 11 holds "a": both ids are "a11", so editing row 1 rewrites row 11, and deleting row 11 removes row 1 | every row has its own id, so an edit or delete touches exactly the row acted on | high that the ids collide; not executed | ChoiceList.ChangeEditsTwoRows | ChoiceList.ChangeByPositionEditsOneRow |
