# CCC CFI compliance test suite — a Dafny model of its core logic

The FINOS Common Cloud Controls (CCC) compliance test suite runs behavioural tests against
AWS, Azure and GCP accounts and reports a verdict for each control. This project models
the decision logic of that suite. The cloud SDKs, the shell, the file system, the
process environment and the clock are not called. Their answers are parameters of the
model (oracle inputs), so every branch the Go code takes on an answer is modelled and
proved about.

What is modelled, one Dafny module per concern:

- **CCC.VPC controls** (`testing/api/vpc/aws-vpc.go`):
  - `VpcInventory`: public-subnet classification and the deterministic probe-subnet choice.
  - `VpcVerdicts`: the CN01, CN02 and CN04 verdicts and the flow-log observation counters.
  - `PeeringAllowList`: where the CN03 peering guardrail finds its requester allow-list. It
    tries five environment and file tiers in a fixed order, normalises comma-separated ID
    lists, and decodes the trial matrix file.
  - `PeeringProbe`: dry-run evidence classification, the guardrail expectation and
    mismatch, and the trial runs.
  - `ProbeCleanup`: the CN02 test instance's inputs, its creation and idempotent deletion,
    and the bounded wait for termination.
- **IAM test identities** (`testing/api/iam/`):
  - `AwsIam`, `GcpIam` and `AzureIam`: identifier sanitisers, level-to-policy and
    level-to-role mappings, and resource and scope parsing.
  - The per-session caches of provisioned users and access levels, as classes whose
    methods update them.
  - The GCP policy-binding merge and the not-found tolerant `DestroyUser`.
  - `IamIdentity`: the identity record the three services hand out.
- **Azure storage elevation** (`StorageElevation`): the elevator records the original
  public-network-access, firewall and RBAC state once, elevates it, and resets it.
- **Runners**:
  - `RunnerStats`: the status mapping, tally and exit code shared by `BasicServiceRunner`
    and `AbstractServiceRunner`.
  - `BasicRunner` and `AbstractRunner`: the two runners, including their tag filters.
  - `TestService`: the per-service tag expression and scenario properties.
  - `ComplianceTest`: `TestRunCompliance` in `main_test.go`.
  - `ComplianceMain`: `main` in `main.go`.
- **Policy checks** (`PolicyChecker`): placeholder substitution, query clean-up, and
  rule and policy evaluation.
- **Provider factory** (`ProviderFactory`): the factory cache and the bounded wait for
  permission propagation.
- **Shared modules**: `Wrappers` (Option/Result), `Text` (the Go `strings`, `strconv`
  and `unicode` functions used, over runes), `Json` (a decoded JSON value and its `%v`
  text) and `Environment` (cloud and test parameters).

Every Go loop that accumulates a result is a `method` with loop invariants. Each is proved
equal to a specification function, and the properties the code promises are proved about
that function as lemmas.

## Model

| member | source | states |
|---|---|---|
| VpcInventory.SubnetPublicity | testing/api/vpc/aws-vpc.go:853-905 | a subnet is public exactly when the first route table examined for it (its explicit association, else the VPC's main table) has a 0.0.0.0/0 route to an "igw-" gateway; a failed route-table lookup is an error |
| VpcInventory.IsSubnetPublic | testing/api/vpc/aws-vpc.go:853-905 | the nested loop over tables and routes returns exactly that publicity and route-table id |
| VpcInventory.AssociationShadowsMainTable | testing/api/vpc/aws-vpc.go:867-869 | once a subnet has an explicit route-table association, the main table (or its lookup failing) has no effect on the answer |
| VpcInventory.MainTableFallback | testing/api/vpc/aws-vpc.go:870-887 | without an explicit association, the VPC's first main route table decides publicity and is the reported table |
| VpcInventory.OnlyFirstTableMatters | testing/api/vpc/aws-vpc.go:889-901 | tables listed after the first associated one never change the answer |
| VpcInventory.CollectPublic | testing/api/vpc/aws-vpc.go:774-816 | the public-subnet scan never lists more rows than there are subnets |
| VpcInventory.CollectPublicStep | testing/api/vpc/aws-vpc.go:774-816 | the scan of one more subnet extends the scan of the ones before it |
| VpcInventory.CollectPublicErrSticks | testing/api/vpc/aws-vpc.go:774-816 | the first failed publicity lookup aborts the listing and becomes its answer |
| VpcInventory.CollectPublicSound | testing/api/vpc/aws-vpc.go:774-816 | every listed row is a subnet of the VPC with a non-empty id that the route tables make public, with that table's id |
| VpcInventory.CollectPublicComplete | testing/api/vpc/aws-vpc.go:774-816 | a successful listing looked up every subnet that has an id and lists each one that is public |
| VpcInventory.ListPublicSubnets | testing/api/vpc/aws-vpc.go:774-816 | the loop over the described subnets returns the listing specified above |
| VpcInventory.SmallestKey | testing/api/vpc/aws-vpc.go:273-278 | the chosen position holds a key that is lexicographically no greater than any other, and is the first such key |
| VpcInventory.SelectPublicSubnetForTest | testing/api/vpc/aws-vpc.go:251-288 | an empty trimmed VPC id, a failed listing or no public subnet is an error; otherwise the selection is one of the listed rows, its SubnetId is the smallest trimmed SubnetId, its route table and launch flag come from that row, and the count is the number of public subnets |
| VpcVerdicts.BoolFromEvidence | testing/api/vpc/aws-vpc.go:1341-1350 | a boolean is taken as is, null is false, and the text "true" is true |
| VpcVerdicts.IsDefaultVpc | testing/api/vpc/aws-vpc.go:93-110 | an empty id, a failed describe call or an empty answer is an error; otherwise the answer is the first returned VPC's IsDefault flag |
| VpcVerdicts.EvaluateDefaultVpcControl | testing/api/vpc/aws-vpc.go:112-142 | the verdict is FAIL exactly for a default VPC and PASS otherwise, never NA; compliant means PASS, and the result class equals the verdict |
| VpcVerdicts.ViolatingIdsMembers | testing/api/vpc/aws-vpc.go:212-221 | an id is reported as violating exactly when some public subnet with that trimmed id maps a public IP on launch |
| VpcVerdicts.ViolatingIdsEmpty | testing/api/vpc/aws-vpc.go:212-221 | there are no violations exactly when no public subnet maps a public IP on launch |
| VpcVerdicts.EvaluatePublicSubnetDefaultIpControl | testing/api/vpc/aws-vpc.go:201-249 | the verdict is NA exactly when there is no public subnet, and FAIL exactly when one maps a public IP on launch; NA still counts as compliant; the counts and violating ids match the listing |
| VpcVerdicts.ListVpcFlowLogs | testing/api/vpc/aws-vpc.go:818-851 | an empty VPC id or a failed describe call is an error; otherwise the VPC's flow logs are returned unchanged |
| VpcVerdicts.NonCompliantIdsMembers | testing/api/vpc/aws-vpc.go:595-606 | an id is reported non-compliant exactly when some flow log with that trimmed id is not ACTIVE with traffic type ALL |
| VpcVerdicts.NonCompliantIdsEmpty | testing/api/vpc/aws-vpc.go:595-606 | no flow log is reported exactly when every one is ACTIVE with traffic type ALL |
| VpcVerdicts.EvaluateVpcFlowLogsControl | testing/api/vpc/aws-vpc.go:584-636 | the verdict is FAIL exactly when the VPC has no flow log or has a non-compliant one, and is never NA; compliant means PASS |
| VpcVerdicts.HasActiveAllTrafficFlowLogs | testing/api/vpc/aws-vpc.go:556-562 | true exactly when the VPC has at least one flow log and every flow log is ACTIVE with traffic type ALL |
| VpcVerdicts.ActiveAllCount | testing/api/vpc/aws-vpc.go:649-666 | the number of ACTIVE, ALL-traffic logs is at most the number of logs |
| VpcVerdicts.DeliverySuccessCount | testing/api/vpc/aws-vpc.go:649-666 | the number of logs whose delivery status is SUCCESS is at most the number of logs |
| VpcVerdicts.RecentDeliveryCount | testing/api/vpc/aws-vpc.go:745-757 | the number of ACTIVE logs that delivered successfully is at most the number of logs |
| VpcVerdicts.ActiveAllCountFull | testing/api/vpc/aws-vpc.go:649-666 | every log counts as ACTIVE/ALL exactly when the flow-log control reports none as non-compliant |
| VpcVerdicts.RecentDeliveriesAreDeliveries | testing/api/vpc/aws-vpc.go:745-757 | every recent delivery is also a successful delivery |
| VpcVerdicts.RecentDeliveryCountPositive | testing/api/vpc/aws-vpc.go:745-757 | a recent delivery is counted exactly when some ACTIVE log reports a successful delivery |
| VpcVerdicts.PrepareFlowLogDeliveryObservation | testing/api/vpc/aws-vpc.go:638-677 | an empty trimmed VPC id or a failed listing is an error; otherwise the counts describe the logs, and the VPC is ready exactly when it has logs and all of them are ACTIVE/ALL |
| VpcVerdicts.ReadyIffFlowLogsCompliant | testing/api/vpc/aws-vpc.go:638-677 | a VPC is ready for the delivery observation exactly when the flow-log control finds it compliant |
| VpcVerdicts.ObserveRecentFlowLogDelivery | testing/api/vpc/aws-vpc.go:734-772 | an empty trimmed VPC id or a failed listing is an error; otherwise records count as observed exactly when some ACTIVE log reports a successful delivery |
| PeeringAllowList.FirstSetEnv | testing/api/vpc/aws-vpc.go:1331-1339 | the answer is trimmed; it is "" exactly when every listed variable trims to nothing; otherwise it is the trimmed value of the first listed variable that does not |
| PeeringAllowList.NormalizeFieldStep | testing/api/vpc/aws-vpc.go:1305-1315 | one comma-separated field is appended exactly when it trims to a non-empty ID not seen before |
| PeeringAllowList.NormalizeValueStep | testing/api/vpc/aws-vpc.go:1304-1316 | one more input value contributes its trimmed, non-empty fields after those of the values before it |
| PeeringAllowList.NormalizeStringList | testing/api/vpc/aws-vpc.go:1300-1319 | the nested loop with its `seen` set returns the first occurrence of every trimmed, non-empty field, in order |
| PeeringAllowList.FirstOccurrencesMembers | testing/api/vpc/aws-vpc.go:1300-1319 | de-duplication keeps exactly the strings of its input |
| PeeringAllowList.FirstOccurrencesDistinct | testing/api/vpc/aws-vpc.go:1300-1319 | de-duplication keeps each string once |
| PeeringAllowList.FirstOccurrencesOrder | testing/api/vpc/aws-vpc.go:1300-1319 | the kept strings appear in the order of their first occurrence in the input |
| PeeringAllowList.FirstOccurrencesOfDistinct | testing/api/vpc/aws-vpc.go:1300-1319 | a list without repeats is kept as it is |
| PeeringAllowList.CleanFieldsMembers | testing/api/vpc/aws-vpc.go:1305-1310 | a string is kept from a value's fields exactly when it is non-empty and some field trims to it |
| PeeringAllowList.CleanFieldsOfSplitAreClean | testing/api/vpc/aws-vpc.go:1305-1310 | every field kept from a comma split is non-empty, trimmed and free of commas |
| PeeringAllowList.ItemsAreClean | testing/api/vpc/aws-vpc.go:1304-1316 | every candidate ID drawn from the inputs is non-empty, trimmed and free of commas |
| PeeringAllowList.ValueItemsOfCleanId | testing/api/vpc/aws-vpc.go:1305-1310 | a single clean ID splits into exactly itself |
| PeeringAllowList.ItemsOfCleanIds | testing/api/vpc/aws-vpc.go:1304-1316 | a list of clean IDs yields exactly itself as candidates |
| PeeringAllowList.NormalizedSpec | testing/api/vpc/aws-vpc.go:1300-1319 | the normalised list holds clean IDs, each once; it holds exactly the trimmed non-empty fields of the inputs; and it keeps them in order of first occurrence |
| PeeringAllowList.NormalizedIsIdList | testing/api/vpc/aws-vpc.go:1300-1319 | the normalised list holds clean IDs, each once |
| PeeringAllowList.NormalizedMember | testing/api/vpc/aws-vpc.go:1300-1319 | an ID is kept exactly when it is a trimmed, non-empty comma-separated field of some input value |
| PeeringAllowList.NormalizedIdempotent | testing/api/vpc/aws-vpc.go:1300-1319 | normalising a normalised list changes nothing |
| PeeringAllowList.IndexedEnvValues | testing/api/vpc/aws-vpc.go:1257-1268 | the loop over `<prefix>1` .. `<prefix>99` returns the normalised list of the set values, in index order |
| PeeringAllowList.IndexedValuesStopAt99 | testing/api/vpc/aws-vpc.go:1259 | a variable with an index of 100 or more is never read |
| PeeringAllowList.JsonText | testing/api/vpc/aws-vpc.go:1270-1279 | the text is trimmed and never "<nil>"; a string that does not trim to "<nil>" gives its trimmed self |
| PeeringAllowList.JsonIdList | testing/api/vpc/aws-vpc.go:1281-1298 | a value reads as a list of clean IDs, each once: null as none, a string as its normalised comma fields, an array as the normalised texts of its elements, any other value as the normalised `%v` text |
| PeeringAllowList.FirstNonEmpty | testing/api/vpc/aws-vpc.go:1321-1329 | the answer is trimmed and never "<nil>"; it is "" exactly when every value trims to "" or "<nil>"; otherwise it is the trimmed form of the first value that trims to neither |
| PeeringAllowList.FirstNonEmptyAppend | testing/api/vpc/aws-vpc.go:1321-1329 | the first non-blank value of two lists joined is the first of the first list, or the first of the second when the first list is all blank |
| PeeringAllowList.DecodeMatrix | testing/api/vpc/aws-vpc.go:1087-1126 | the allowed and disallowed requester lists read from the matrix document are lists of clean IDs, each once |
| PeeringAllowList.DecodeMatrixReceiver | testing/api/vpc/aws-vpc.go:1087-1113 | the receiver is the first non-blank text among receiver_vpc_id, peer_vpc_id, target_vpc_id, receiverVpcId, peerVpcId, targetVpcId and then, when `requesters` is an object, its receiver_vpc_id and receiverVpcId |
| PeeringAllowList.DecodeMatrixRequesters | testing/api/vpc/aws-vpc.go:1096-1117 | the allowed list is the IDs under allowed_requester_vpc_ids, allowed_peer_vpc_ids, allowed_vpc_ids and then `requesters.allowed`, each kept at its first occurrence; the disallowed list likewise from the disallowed_* keys and `requesters.disallowed` |
| PeeringAllowList.DecodeMatrixOwner | testing/api/vpc/aws-vpc.go:1122-1126 | the peer owner is peer_owner_id when set, else peerOwnerId, else CN03_PEER_OWNER_ID or PEER_OWNER_ID from the environment (a literal "<nil>" there counts as unset) |
| PeeringAllowList.LoadTrialMatrix | testing/api/vpc/aws-vpc.go:1062-1134 | no path (argument or environment) is an error; a loaded matrix names at least one requester, and both of its lists hold clean IDs, each once |
| PeeringAllowList.LoadTrialMatrixOutcome | testing/api/vpc/aws-vpc.go:1062-1134 | a matrix loads exactly when a path is given, the file at its absolute path exists and decodes to an object or null, and the decoded matrix names a requester; the result is then that decoded matrix with the absolute path |
| PeeringAllowList.EnvTiers | testing/api/vpc/aws-vpc.go:1035-1046 | the four tiers, in order: CN03_ALLOWED_REQUESTER_VPC_IDS normalised, the indexed CN03_ALLOWED_REQUESTER_VPC_ID_1..99 values, CN03_ALLOWED_PEER_VPC_IDS normalised, the indexed CN03_ALLOWED_PEER_VPC_ID_1..99 values, each reported under its own variable name |
| PeeringAllowList.EnvTiersAreIdLists | testing/api/vpc/aws-vpc.go:1035-1046 | every environment tier names its source and holds clean IDs, each once |
| PeeringAllowList.FirstEnvTier | testing/api/vpc/aws-vpc.go:1035-1046 | the chosen tier is the first tier with a non-empty list, every earlier tier being empty; there is none exactly when all tiers are empty |
| PeeringAllowList.ResolveAllowedRequesters | testing/api/vpc/aws-vpc.go:1034-1060 | an allow-list is empty exactly when it has no source, and holds clean IDs, each once; resolution fails only when CN03_PEER_TRIAL_MATRIX_FILE is set |
| PeeringAllowList.EnvTierWins | testing/api/vpc/aws-vpc.go:1035-1046 | the first environment tier with a non-empty list is the result, whatever the later tiers and the matrix file hold |
| PeeringAllowList.MatrixFileWhenNoEnvTier | testing/api/vpc/aws-vpc.go:1048-1059 | with every environment tier empty, an unset CN03_PEER_TRIAL_MATRIX_FILE gives the empty list with no source and a set one gives the matrix tier of that file |
| PeeringAllowList.MatrixTier | testing/api/vpc/aws-vpc.go:1048-1057 | a failed matrix load is returned as the error; otherwise the tier is the matrix's allowed list, reported as "CN03_PEER_TRIAL_MATRIX_FILE (<absolute path>)" when it is non-empty and with no source when it is empty |
| PeeringAllowList.EnvTiersShadowMatrixFile | testing/api/vpc/aws-vpc.go:1035-1046 | when an environment tier is set, the matrix file (even an unreadable one) has no effect and resolution succeeds |
| PeeringAllowList.NothingConfigured | testing/api/vpc/aws-vpc.go:1048-1059 | with no tier set and no matrix path, no allow-list is defined: the list is empty and has no source |
| PeeringProbe.ClassifyDryRun | testing/api/vpc/aws-vpc.go:946-977 | the dry run counts as allowed (exit code 0) exactly when the call succeeded, the API error code is DryRunOperation ignoring case, or a code-less error message mentions "dryrunoperation"; otherwise exit code 1; the trimmed code and message are kept as evidence |
| PeeringProbe.ExpectedGuardrail | testing/api/vpc/aws-vpc.go:982-1032 | a failed allow-list resolution leaves every guardrail field unset; otherwise the list is defined when non-empty, the expectation is "allow" exactly for a listed requester and "deny" for an unlisted one, and a mismatch means the dry-run outcome differs from that expectation |
| PeeringProbe.ListContains | testing/api/vpc/aws-vpc.go:997-1003 | the search with early exit finds the requester exactly when it is in the allow-list |
| PeeringProbe.EnrichEvidence | testing/api/vpc/aws-vpc.go:982-1032 | the enrichment fills the guardrail fields as specified by ExpectedGuardrail |
| PeeringProbe.PeeringAttempt | testing/api/vpc/aws-vpc.go:914-980 | an empty trimmed requester or peer is an error; otherwise the evidence holds the trimmed ids, the classified dry run and the guardrail expected for the trimmed requester |
| PeeringProbe.AttemptPeeringDryRunWithOwner | testing/api/vpc/aws-vpc.go:914-980 | the method returns exactly the evidence specified by PeeringAttempt |
| PeeringProbe.AttemptPeeringDryRun | testing/api/vpc/aws-vpc.go:456-458 | the peer owner comes from CN03_PEER_OWNER_ID or PEER_OWNER_ID, and the allow-list from the resolution tiers |
| PeeringProbe.MismatchMeansGuardrailDisagrees | testing/api/vpc/aws-vpc.go:1018-1020 | with a defined allow-list, a mismatch is flagged exactly when an allowed dry run comes from an unlisted requester or a denied one from a listed requester |
| PeeringProbe.EvaluatePeerAgainstAllowList | testing/api/vpc/aws-vpc.go:416-454 | an empty trimmed peer is an error, as is a failed resolution; otherwise the peer is allowed exactly when it is in the resolved list, and the count, source and defined flag describe that list |
| PeeringProbe.SummarizeTrialMatrix | testing/api/vpc/aws-vpc.go:460-486 | the summary exists exactly when the matrix loads; all requesters are the allowed ones followed by the disallowed ones, there is at least one, each is a clean ID, at least one list is defined, and the receiver is known exactly when it is non-empty |
| PeeringProbe.Trials | testing/api/vpc/aws-vpc.go:503-528 | there is one trial per requester |
| PeeringProbe.TrialAt | testing/api/vpc/aws-vpc.go:503-528 | the k-th trial records the k-th requester's dry run against the receiver and matches exactly when its outcome equals the expectation |
| PeeringProbe.UnexpectedCount | testing/api/vpc/aws-vpc.go:510-513 | the unexpected count never exceeds the number of trials |
| PeeringProbe.UnexpectedCountZero | testing/api/vpc/aws-vpc.go:510-513 | the unexpected count is zero exactly when every trial matches its expectation |
| PeeringProbe.UnexpectedCountAppend | testing/api/vpc/aws-vpc.go:530-535 | the count over both trial groups is the sum of the groups' counts |
| PeeringProbe.TrialsMatch | testing/api/vpc/aws-vpc.go:503-528 | a group has no unexpected trial exactly when every requester's dry run came out as expected |
| PeeringProbe.RunTrialGroup | testing/api/vpc/aws-vpc.go:503-528 | with a non-empty receiver and requesters, the group runs to completion; an empty receiver fails the first attempt; a completed group yields the trials in order and their unexpected count |
| PeeringProbe.RunLoadedTrials | testing/api/vpc/aws-vpc.go:492-549 | the run succeeds exactly when the matrix loaded and its receiver is usable; the trials are the disallowed requesters (expected denied) followed by the allowed ones (expected allowed), and the run is compliant exactly when there were trials and none was unexpected |
| PeeringProbe.RunPeeringTrials | testing/api/vpc/aws-vpc.go:488-550 | a run succeeds exactly when the matrix loads with a receiver; it then has one trial per disallowed requester (expected denied) followed by one per allowed requester (expected allowed), counts them, counts the unexpected outcomes, and is compliant exactly when none was unexpected |
| PeeringProbe.CompliantRun | testing/api/vpc/aws-vpc.go:530-547 | a run has no unexpected trial exactly when every disallowed requester is denied and every allowed requester is allowed |
| ProbeCleanup.TestAmiId | testing/api/vpc/aws-vpc.go:1219-1227 | the AMI is the trimmed CN_TEST_AMI_ID when set, else the trimmed CN02_TEST_AMI_ID when set, else the trimmed TEST_AMI_ID ("" when none is set) |
| ProbeCleanup.TestInstanceType | testing/api/vpc/aws-vpc.go:1229-1237 | the instance type is the trimmed CN_TEST_INSTANCE_TYPE, else CN02_TEST_INSTANCE_TYPE, else TEST_INSTANCE_TYPE, the first that is set, and t3.micro when none is; it is never empty |
| ProbeCleanup.Wrap64 | testing/api/vpc/aws-vpc.go:1250 | Go's int64 product wraps into the int64 range and leaves values already in range unchanged |
| ProbeCleanup.DeleteWaitTimeoutAsWritten | testing/api/vpc/aws-vpc.go:1239-1255 | the wait as written is an int64 duration, zero when neither wait variable is set |
| ProbeCleanup.Wrap64Negative | testing/api/vpc/aws-vpc.go:1250 | a product past the int64 maximum and below 2^64 wraps to a negative number |
| ProbeCleanup.DeleteWaitTextIsFirstVariable | testing/api/vpc/aws-vpc.go:1241-1246 | a set CN_TEST_DELETE_WAIT_SECONDS is the text that is parsed |
| ProbeCleanup.DeleteWaitTimeoutOverflows | testing/api/vpc/aws-vpc.go:1249-1250 | a wait longer than about 292 years comes out as a negative duration |
| ProbeCleanup.DeleteWaitTimeout | testing/api/vpc/aws-vpc.go:1239-1255 | the corrected wait is a non-negative int64 duration; it is positive exactly when the first set variable parses to a positive number of seconds, and then it is at least one second |
| ProbeCleanup.DeleteWaitTimeoutAgrees | testing/api/vpc/aws-vpc.go:1239-1255 | the corrected wait equals the wait as written whenever the seconds fit in a time.Duration |
| ProbeCleanup.FindInstance | testing/api/vpc/aws-vpc.go:1147-1153 | the instance found is the first one whose trimmed id is the requested id, and none is found exactly when no instance has that id |
| ProbeCleanup.DescribeInstance | testing/api/vpc/aws-vpc.go:1136-1156 | the lookup finds an instance exactly when the call succeeded and listed one with that id; a not-found API error is passed on unchanged |
| ProbeCleanup.MissingInstanceIsGone | testing/api/vpc/aws-vpc.go:1182-1184 | an answer that does not list the instance gives a "not found" error, which the termination wait reads as the instance being gone |
| ProbeCleanup.ExternalIpAssignment | testing/api/vpc/aws-vpc.go:346-367 | an empty trimmed id or a failed lookup is an error; otherwise the instance has an external IP exactly when its trimmed public address is non-empty, and that address and the state are reported |
| ProbeCleanup.CreateTestResource | testing/api/vpc/aws-vpc.go:290-344 | creation succeeds exactly when the subnet id and an AMI are given, the launch succeeded and returned a first instance with an id; the result records that id, the subnet, the AMI and the configured instance type |
| ProbeCleanup.WaitStep | testing/api/vpc/aws-vpc.go:1178-1198 | one polling round stops on a failed lookup, a terminated instance or a passed deadline, and reports success exactly for a gone or terminated instance |
| ProbeCleanup.FirstStopSpec | testing/api/vpc/aws-vpc.go:1180-1197 | the outcome of a finite run of rounds is that of the first round that stops, and every earlier round kept polling |
| ProbeCleanup.FirstStopAppend | testing/api/vpc/aws-vpc.go:1180-1197 | rounds after the stopping round do not change the outcome |
| ProbeCleanup.WaitSteps | testing/api/vpc/aws-vpc.go:1180-1197 | there is one decision per poll, and each is that round's decision |
| ProbeCleanup.TerminationWaitSpec | testing/api/vpc/aws-vpc.go:1178-1198 | the wait ends at the first round that stops (gone, terminated, failing or past the deadline), and its result is that round's |
| ProbeCleanup.TerminationWaitIgnoresLaterPolls | testing/api/vpc/aws-vpc.go:1178-1198 | polls after the one that ends the wait do not matter |
| ProbeCleanup.WaitForInstanceTermination | testing/api/vpc/aws-vpc.go:1178-1198 | the polling loop returns exactly the outcome of the first round that stops |
| ProbeCleanup.DeleteTestResource | testing/api/vpc/aws-vpc.go:369-414 | the result is the deletion outcome for the wait timeout computed as the source computes it, wrap-around included |
| ProbeCleanup.DeleteOutcome | testing/api/vpc/aws-vpc.go:369-414 | deletion fails exactly for an empty trimmed id or a termination error other than not-found; a not-found error counts as already deleted; with a timeout of zero or less, termination is only requested; with a positive one, the resource counts as deleted exactly when the wait succeeded, and otherwise the wait's error is the reason |
| ProbeCleanup.OverflowingWaitSkipsTheWait | testing/api/vpc/aws-vpc.go:389-397 | with a wait long enough to overflow, the deletion as written returns at once as asynchronous cleanup, while the saturating timeout would wait |
| AwsIam.SplitArn | testing/api/iam/aws-iam.go:427-443 | the character loop returns the ARN's `:`-separated fields, dropping only a trailing empty one |
| AwsIam.ArnFieldsJoin | testing/api/iam/aws-iam.go:427-443 | no field contains `:`; an empty ARN has no field; joining the fields with `:` gives back the ARN, minus a trailing `:` when there is one |
| AwsIam.AccountIdOf | testing/api/iam/aws-iam.go:133-139 | an account id is recorded exactly when the ARN has more than four fields, and it contains no `:` |
| AwsIam.PolicyChars | testing/api/iam/aws-iam.go:447-454 | the filter keeps only ASCII letters, digits, `-` and `_`, and never lengthens its input |
| AwsIam.PolicyNameOf | testing/api/iam/aws-iam.go:445-459 | a sanitised name is at most 64 characters, all of them letters, digits, `-` or `_` |
| AwsIam.SanitizeForPolicyName | testing/api/iam/aws-iam.go:445-459 | the loop computes that sanitised name |
| AwsIam.PolicyCharsAppend | testing/api/iam/aws-iam.go:447-454 | filtering works character by character, so it distributes over concatenation |
| AwsIam.PolicyCharsOfValid | testing/api/iam/aws-iam.go:447-454 | a name made only of allowed characters passes the filter unchanged |
| AwsIam.PolicyNameIdempotent | testing/api/iam/aws-iam.go:445-459 | sanitising a sanitised name changes nothing |
| AwsIam.GeneratePolicyDocument | testing/api/iam/aws-iam.go:342-423 | only none, read, write and admin are accepted; none grants no statement; read and write grant ListBucket and GetBucketLocation on the bucket plus object actions on its objects; admin grants every action on every resource |
| AwsIam.LevelsAreOrdered | testing/api/iam/aws-iam.go:346-408 | the levels are ordered by what they grant: none grants nothing, write grants everything read does, and admin grants everything |
| AwsIam.FirstWithPrefix | testing/api/iam/aws-iam.go:236-240 | the policy found is the first listed name with the managed prefix, and none is found exactly when no name has it |
| AwsIam.GetAccess | testing/api/iam/aws-iam.go:224-270 | a failed listing is an error; without a managed policy the level is "none" with an empty document; otherwise the first managed policy decides, fetching it must succeed, and the level read back is the one its name was built with |
| AwsIam.PolicyNameRoundTrip | testing/api/iam/aws-iam.go:191-192 | reading back a policy name that SetAccess attached yields the level it was attached for |
| AwsIam.IdentityFor | testing/api/iam/aws-iam.go:119-139 | the identity names the user and "aws"; it records the ARN, user id and access key id; the secret is recorded exactly when non-empty; the account id is recorded exactly when the ARN has a fifth field, and is that field |
| AwsIam.AwsIamService.constructor | testing/api/iam/aws-iam.go:41-46 | a new service starts with empty user and access-level caches |
| AwsIam.AwsIamService.ProvisionUser | testing/api/iam/aws-iam.go:41-159 | a cached user is answered from the cache; otherwise the existing (else newly created) user with a new access key becomes the identity and is cached; any failure leaves both caches unchanged |
| AwsIam.AwsIamService.SetAccess | testing/api/iam/aws-iam.go:162-221 | a success records the level in the access cache and a failure leaves it unchanged; a cached level issues no request; otherwise a current policy already at the level is returned as it is, without a request; failing that, a request is issued exactly when the level is valid, under the service's policy name with the generated document, and the call then succeeds exactly when the put did; a success returns the generated document, both on the cached path and after a put |
| GcpIam.MappedCharsSnoc | testing/api/iam/gcp-iam.go:372-383 | each rune of the lower-cased name is kept when it is a lower-case letter, digit or hyphen, and replaced by a hyphen otherwise |
| GcpIam.Lettered | testing/api/iam/gcp-iam.go:385-388 | a non-empty name ends up starting with a lower-case letter: "sa-" goes before a name that does not already start with one |
| GcpIam.Bounded | testing/api/iam/gcp-iam.go:390-402 | the length rules give at most 30 valid characters with no trailing hyphen; an empty name becomes "-test"; they only append or cut (every character up to the first 30 that is not a hyphen survives); and a valid name of 6 to 30 characters is kept |
| GcpIam.ServiceAccountIdOf | testing/api/iam/gcp-iam.go:365-403 | a sanitised id has at most 30 characters, all lower-case letters, digits or hyphens, and no trailing hyphen; a non-empty name gives an id starting with a letter; the empty name gives "-test" |
| GcpIam.SanitizeServiceAccountId | testing/api/iam/gcp-iam.go:365-403 | the character loop and the length rules compute that id |
| GcpIam.ValidServiceAccountIdUnchanged | testing/api/iam/gcp-iam.go:365-403 | a name that already meets the id rules comes back unchanged |
| GcpIam.LeadingNonLetterGetsPrefix | testing/api/iam/gcp-iam.go:376-388 | a name whose first rune is not a letter gets an id starting with "sa", with the hyphen after it unless the final trim removed it |
| GcpIam.RoleForLevel | testing/api/iam/gcp-iam.go:297-325 | only none, read, write and admin are accepted; none is the only level with no role; a level's role is a storage role exactly when the service id mentions "storage" |
| GcpIam.TrimPrefix | testing/api/iam/gcp-iam.go:334 | the prefix is removed exactly when it is there |
| GcpIam.ResourceName | testing/api/iam/gcp-iam.go:327-341 | every resource name starts with "projects/": full names pass through, storage services and gs:// URLs become bucket resources without the scheme, and anything else names the project |
| GcpIam.ResourceNameIdempotent | testing/api/iam/gcp-iam.go:327-341 | resolving a resolved name changes nothing |
| GcpIam.FirstRoleBinding | testing/api/iam/gcp-iam.go:196-211 | the binding found is the first for the role, and none is found exactly when no binding has the role |
| GcpIam.MergedBindings | testing/api/iam/gcp-iam.go:194-221 | after the merge some binding of the role names the member; at most the new binding {role, [member]} is appended; existing bindings keep their roles and members in order (only the first binding of the role can gain the member); bindings of other roles are untouched |
| GcpIam.MergeOfBoundMemberIsIdentity | testing/api/iam/gcp-iam.go:196-211 | when the member is already in the role's first binding, the policy is left exactly as it was |
| GcpIam.MergeOfNewMemberAppends | testing/api/iam/gcp-iam.go:214-221 | when no binding of the role names the member, exactly one binding is appended |
| GcpIam.MergeBinding | testing/api/iam/gcp-iam.go:194-221 | the nested loop that updates the bindings in place computes that merge |
| GcpIam.ResourcePolicy | testing/api/iam/gcp-iam.go:343-357 | the stub answers every resource with a policy that has no bindings |
| GcpIam.SetAccess | testing/api/iam/gcp-iam.go:159-238 | an unknown level is an error and "none" succeeds without a request; otherwise a missing service-account email is an error, and with an email the call succeeds and sends the resolved resource's policy with the single binding of the level's role to "serviceAccount:" and the email |
| GcpIam.UserManagedKeyNames | testing/api/iam/gcp-iam.go:257-270 | the keys to delete are exactly the user-managed keys; a single key gives its name when it is user-managed and nothing otherwise |
| GcpIam.UserManagedKeyNamesConcat | testing/api/iam/gcp-iam.go:257-270 | the names of a listing are those of its first part followed by those of its second, so the kept names are in listing order |
| GcpIam.DestroyUser | testing/api/iam/gcp-iam.go:241-293 | a missing email is an error with no deletion; otherwise every user-managed key is deleted (a failed listing skips this), and the call succeeds exactly when deleting the account succeeded or failed with "not found" |
| AzureIam.ServicePrincipalName | testing/api/iam/azure-iam.go:419-435 | every display name starts with "CCC-" and has at most 120 characters; a name that already starts with "CCC-" and fits is kept |
| AzureIam.ServicePrincipalNameIdempotent | testing/api/iam/azure-iam.go:419-435 | naming a principal twice changes nothing |
| AzureIam.ScopeOfAssignment | testing/api/iam/azure-iam.go:409-417 | the scope is the part of the assignment id before the first role-assignment separator, or the whole id when there is none; it never contains the separator |
| AzureIam.RoleDefinitionForLevel | testing/api/iam/azure-iam.go:352-385 | only none, read, write and admin are accepted; none is the only level with no role; every other level gives its built-in role GUID (the Storage Blob Data one when the service id mentions "storage" or "blob") under the subscription's role-definition path |
| AzureIam.RoleGuidsDistinct | testing/api/iam/azure-iam.go:361-381 | the six role GUIDs are all different, so the level and the plane can be read back from the role |
| AzureIam.LastSegment | testing/api/iam/azure-iam.go:397-399 | the storage account name is the last `/`-separated segment and contains no `/` |
| AzureIam.Scope | testing/api/iam/azure-iam.go:387-407 | every scope starts with "/subscriptions/": full ids pass through, storage services become the storage account named by their last segment, and anything else becomes the resource group |
| AzureIam.ScopeIdempotent | testing/api/iam/azure-iam.go:387-407 | resolving a resolved scope changes nothing |
| AzureIam.Principal | testing/api/iam/azure-iam.go:116-154 | a failed lookup is an error; an existing application is reused and needs its service principal; otherwise a new application and its service principal must both be created |
| AzureIam.NamedAssignments | testing/api/iam/azure-iam.go:308-309 | exactly the assignments that carry a name are deleted |
| AzureIam.PageDeletions | testing/api/iam/azure-iam.go:308-320 | each named assignment of a page is deleted at the scope its id names, in listing order |
| AzureIam.ListedDeletionsStopAtFailure | testing/api/iam/azure-iam.go:301-306 | no deletion comes from a page after the first one that failed to load |
| AzureIam.ListedDeletionsStep | testing/api/iam/azure-iam.go:301-321 | a page that loaded adds its deletions before those of the later pages |
| AzureIam.AzureIamService.constructor | testing/api/iam/azure-iam.go:104-109 | a new service records its subscription and resource group and starts with empty caches |
| AzureIam.AzureIamService.ProvisionUser | testing/api/iam/azure-iam.go:104-208 | a cached user is answered from the cache; otherwise the call succeeds exactly when the principal, a new secret and the tenant id are all obtained, and the identity records the display name, client id, service principal and application object ids and subscription, and is cached; a failure leaves the caches unchanged |
| AzureIam.AzureIamService.SetAccess | testing/api/iam/azure-iam.go:211-279 | success records the level in the cache and failure leaves it unchanged; a cached level and "none" succeed without a request; otherwise an unknown level is an error, and for a role-bearing level a request is sent exactly when the identity has an object id; the request assigns the level's role to that principal at the resolved scope, and the call succeeds exactly when creation succeeded or the assignment already existed |
| AzureIam.DeletePage | testing/api/iam/azure-iam.go:308-320 | the loop over one page requests exactly that page's deletions |
| AzureIam.DestroyUser | testing/api/iam/azure-iam.go:282-348 | role assignments are deleted from the pages listed before the first failure, and only for a principal with an object id; the service principal and the application are deleted exactly when their object ids are known |
| IamIdentity.Credential | testing/api/iam/azure-iam.go:233 | reading a credential gives its value, or "" when it is absent, as a Go map lookup does |
| StorageElevation.ElevateStep | testing/api/object-storage/elevation/azure_elevation.go:116-157 | the first value seen is recorded as the original and never replaced; a failed read or a missing property changes nothing; an update to the target is sent exactly when the seen value differs from it; an error comes from a failed read or a failed update; on success the setting is now the target, and on error it is unchanged |
| StorageElevation.ResetStep | testing/api/object-storage/elevation/azure_elevation.go:160-205 | the original is never changed; nothing happens without an original or when the setting is already back at it; the only update sent restores the original; when the account answers, the reset succeeds exactly when the account already held the original or the update went through, and the setting is then the original; an error changes nothing |
| StorageElevation.ElevateThenResetRestores | testing/api/object-storage/elevation/azure_elevation.go:116-205 | elevating a fresh setting and then resetting it puts the account back to the value seen before, writing it exactly when elevation changed it |
| StorageElevation.OriginalRecordedOnce | testing/api/object-storage/elevation/azure_elevation.go:127-131 | a later elevation never replaces the original recorded by the first |
| StorageElevation.AzureStorageElevator.constructor | testing/api/object-storage/elevation/azure_elevation.go:45-73 | a new elevator has recorded nothing and granted no role assignment |
| StorageElevation.AzureStorageElevator.ElevatePublicNetworkAccess | testing/api/object-storage/elevation/azure_elevation.go:116-157 | the public-access state, the error and the update follow ElevateStep with the target Enabled; firewall and grants are untouched |
| StorageElevation.AzureStorageElevator.ResetPublicNetworkAccess | testing/api/object-storage/elevation/azure_elevation.go:160-205 | the public-access state, the error and the update follow ResetStep; firewall and grants are untouched |
| StorageElevation.AzureStorageElevator.ElevateNetworkFirewall | testing/api/object-storage/elevation/azure_elevation.go:208-251 | the firewall state, the error and the update follow ElevateStep with the target Allow; public access and grants are untouched |
| StorageElevation.AzureStorageElevator.ResetNetworkFirewall | testing/api/object-storage/elevation/azure_elevation.go:254-301 | the firewall state, the error and the update follow ResetStep; public access and grants are untouched |
| StorageElevation.AzureStorageElevator.GrantRbac | testing/api/object-storage/elevation/azure_elevation.go:304-358 | a matching assignment on a page listed before the first listing failure means nothing is done; otherwise the assignment is requested and the call succeeds exactly when creation succeeded or the assignment already existed; a returned assignment id is remembered |
| StorageElevation.AzureStorageElevator.ResetRbac | testing/api/object-storage/elevation/azure_elevation.go:361-380 | every granted assignment is deleted, in order, and none is remembered afterwards |
| StorageElevation.AzureStorageElevator.ElevateStorageAccountAccess | testing/api/object-storage/elevation/azure_elevation.go:384-424 | public access and then the firewall are elevated whatever fails; the Storage Blob Data Contributor grant on the account is requested only when the current identity is known and does not already hold it; the recorded assignments grow by the id of a grant created with an id, and by nothing otherwise |
| StorageElevation.AzureStorageElevator.ResetStorageAccountAccess | testing/api/object-storage/elevation/azure_elevation.go:427-447 | the grants are deleted first, then the firewall and then public access are reset, and no granted assignment remains |
| RunnerStats.OutcomeOf | testing/runner/BasicServiceRunner.go:212-269 | a resource passes exactly when its suite exits 0 and is skipped exactly when it exits 2; a report directory that cannot be created, or any other status, fails it |
| RunnerStats.Outcomes | testing/runner/BasicServiceRunner.go:176-209 | the filter only drops resources: there are never more outcomes than discovered resources |
| RunnerStats.CountTotals | testing/runner/BasicServiceRunner.go:167-209 | `Total` counts every selected resource and equals `Passed + Failed + Skipped`; each counter is zero exactly when no resource had that outcome |
| RunnerStats.RunTests | testing/runner/BasicServiceRunner.go:176-209 | the counting loop leaves exactly the tally of the outcomes of the selected resources |
| RunnerStats.ExitCode | testing/runner/BasicServiceRunner.go:159-164 | the exit code is 0 or 1, and 1 exactly when a test failed or no test ran |
| RunnerStats.ExitCodeOfOutcomes | testing/runner/BasicServiceRunner.go:159-164 | a run exits 0 exactly when at least one resource ran and none failed |
| RunnerStats.SelectedOutcomes | testing/runner/BasicServiceRunner.go:179-183 | some outcome is recorded exactly when some discovered resource passes the filter |
| RunnerStats.UnfilteredOutcomes | testing/runner/BasicServiceRunner.go:181-183 | with an empty resource filter every discovered resource is run, in discovery order |
| RunnerStats.UnmatchedFilterFails | testing/runner/BasicServiceRunner.go:179-183 | a filter that names no discovered resource runs nothing, and the run exits 1 |
| RunnerStats.SafeName | testing/runner/BasicServiceRunner.go:296-306 | the sanitised name has the same length; ASCII letters and digits are kept in place and every other rune becomes '-' |
| RunnerStats.SafeNameIdempotent | testing/services/AbstractServiceRunner.go:278-288 | sanitising an already sanitised name changes nothing |
| RunnerStats.SanitizeFilename | testing/runner/BasicServiceRunner.go:296-306 | the rune loop builds exactly the sanitised name |
| BasicRunner.TagFilter | testing/runner/BasicServiceRunner.go:272-274 | a single catalog type is its own tag filter |
| BasicRunner.TagFilterRoundTrip | testing/runner/BasicServiceRunner.go:272-274 | splitting a tag filter at ',' gives back the catalog types, when none of them contains a comma |
| BasicRunner.Run | testing/runner/BasicServiceRunner.go:92-165 | the runner returns a code exactly when the factory, the service, resource discovery and the features directory all succeed (a factory error ends it with "Failed to create factory: ..."); the code is 0 exactly when some resource was selected and none failed |
| AbstractRunner.Exclusions | testing/services/AbstractServiceRunner.go:244-256 | every other catalog type X is excluded as "~@X", and every exclusion names a listed type other than the runner's own |
| AbstractRunner.ExclusionsOfOne | testing/services/AbstractServiceRunner.go:244-256 | a single catalog type gives its own "~@" exclusion, or none when it is the runner's own type |
| AbstractRunner.ExclusionsInOrder | testing/services/AbstractServiceRunner.go:244-256 | the exclusions follow the catalog list's order: those of a concatenation are those of its first part followed by those of its second |
| AbstractRunner.BuildTagFilter | testing/services/AbstractServiceRunner.go:244-256 | the loop builds "@PerService" followed by the exclusions, joined with " && " |
| AbstractRunner.TagFilterRequiresPerService | testing/services/AbstractServiceRunner.go:244-256 | every tag filter starts with "@PerService", and is exactly that when no other catalog type is listed |
| AbstractRunner.Run | testing/services/AbstractServiceRunner.go:45-109 | the runner returns a code exactly when the provider is aws, azure or gcp and preparing the output, the factory and discovery succeed; an empty provider ends it with the "provider is required" message; the code follows the exit-code rule over the selected resources |
| TestService.CatalogTags | testing/language/cloud/test_service.go:20-23 | one tag per catalog type, in order, each the type prefixed with '@' |
| TestService.BuildServiceTagFilter | testing/language/cloud/test_service.go:18-28 | the loop builds "@PerService && (" + the tags joined by the OR operator + ")" |
| TestService.ServiceTagFilterShape | testing/language/cloud/test_service.go:18-28 | no catalog type gives the empty group "@PerService && ()"; one type gives "@PerService && (@X)"; otherwise the group starts with the first type's tag |
| TestService.SubtestOf | testing/language/cloud/test_service.go:61-115 | a subtest is never both failed and skipped; it is skipped exactly on status 2 and failed exactly when the report directory cannot be created or the status is neither 0 nor 2 |
| TestService.PropsOf | testing/language/cloud/test_service.go:41-45 | the scenario properties are keyed by exactly the parameter field names |
| TestService.TestSuite.constructor | testing/language/cloud/test_service.go:62 | a new suite has no properties |
| TestService.TestSuite.SetupServiceParams | testing/language/cloud/test_service.go:31-46 | the previous scenario's properties are discarded and the new ones are exactly those of the parameter fields |
| TestService.PropsOfLastWins | testing/language/cloud/test_service.go:41-45 | each property holds the value of the last field of that name |
| ComplianceMain.BuildCloudParams | testing/runner/main.go:197-216 | provider and region are always copied; the three Azure fields are set only for "azure" and the GCP project only for "gcp", every other field staying empty |
| ComplianceMain.ValidateCloudParams | testing/runner/main.go:219-241 | a missing region is reported first; the parameters are accepted exactly when the region is set, Azure has a subscription and a resource group, and GCP has a project |
| ComplianceMain.BuiltParamsAccepted | testing/runner/main.go:54-59 | the parameters built from the flags are accepted exactly when the region flag and the provider's required flags are non-empty; the Azure storage account is never required |
| ComplianceMain.RunnerConfigs | testing/runner/main.go:79-89 | one runner configuration per service type, in order, each naming its service and carrying the shared cloud parameters |
| ComplianceMain.AssembleRunners | testing/runner/main.go:79-89 | the append loop assembles one runner for each entry of `environment.ServiceTypes` |
| ComplianceMain.PassFail | testing/runner/main.go:95-107 | every runner is counted once as passed or failed, and none failed exactly when every exit code is 0 |
| ComplianceMain.ExitStatus | testing/runner/main.go:126-138 | the process exits 0 or 1, and 1 exactly when a runner failed or there were no runners |
| ComplianceMain.NoPassedBranchUnreachable | testing/runner/main.go:132-134 | when at least one runner ran and none failed, some runner passed, so the "no runners executed any tests" branch is never taken |
| ComplianceMain.ExitCodes | testing/runner/main.go:98-107 | one exit code per runner |
| ComplianceMain.RunAll | testing/runner/main.go:95-138 | the process ends in `log.Fatal` exactly when some runner does; otherwise it exits with the status decided by the pass/fail tally |
| ComplianceMain.Execute | testing/runner/main.go:32-139 | the run ends in `log.Fatal` exactly when the provider is missing or unknown, the cloud parameters are invalid, the output directory cannot be created, or some service runner ends in `log.Fatal`; a normal exit is 0 exactly when every service runner returned 0, and 1 otherwise |
| ProviderFactory.ProviderOf | testing/api/factory/factory.go:33-34 | every factory serves one of the providers "aws", "azure" and "gcp" |
| ProviderFactory.Construct | testing/api/factory/factory.go:48-58 | a factory is built exactly for a supported provider, serves that provider and keeps the cloud parameters (except GCP's, which takes none); any other provider gets "unsupported cloud provider: ..." |
| ProviderFactory.FactoryCache.constructor | testing/api/factory/factory.go:21-22 | the factory cache starts empty |
| ProviderFactory.FactoryCache.NewFactory | testing/api/factory/factory.go:39-63 | a provider seen before gets its cached factory and the new parameters are ignored; an unsupported provider gets an error and the cache is unchanged; otherwise the new factory is cached under its provider; every factory returned serves the provider asked for |
| ProviderFactory.TimedOutMessage | testing/api/factory/factory.go:87 | the timeout error wraps the last check's error at its end |
| ProviderFactory.WaitForUserProvisioning | testing/api/factory/factory.go:67-91 | between 1 and 12 checks are made, each earlier check having failed; the wait succeeds exactly when one of the first 12 checks succeeds, and otherwise reports the timeout wrapping the 12th error |
| ComplianceTest.CollapseRuns | testing/runner/main_test.go:219-220 | the result holds only ASCII letters, digits and '-', never two '-' in a row, is no longer than the input, and ends in '-' exactly when the input ends in a rune that is not a letter or digit |
| ComplianceTest.CollapseKeepsAlnums | testing/runner/main_test.go:219-220 | collapsing keeps every ASCII letter and digit of the input, in order |
| ComplianceTest.CollapseReplacesEachRun | testing/runner/main_test.go:219-220 | the collapse equals the front-to-back replacement that keeps each letter and digit and writes every maximal run of other runes as one '-' |
| ComplianceTest.CollapseFixpoint | testing/runner/main_test.go:219-220 | a text of letters, digits and single '-' is left as it is |
| ComplianceTest.TrimKeepsAlnums | testing/runner/main_test.go:222-223 | trimming '-' at both ends keeps every letter and digit |
| ComplianceTest.TrimDashes | testing/runner/main_test.go:222-223 | trimming keeps a collapsed text collapsed, and leaves a text that neither starts nor ends with '-' unchanged |
| ComplianceTest.SafeFileName | testing/runner/main_test.go:217-233 | the file name holds only letters, digits and single inner '-', neither starts nor ends with '-', is at most 100 runes long and no longer than the input |
| ComplianceTest.SafeFileNameFixpoint | testing/runner/main_test.go:217-233 | a name that already has that shape is left as it is |
| ComplianceTest.SafeFileNameIdempotent | testing/runner/main_test.go:217-233 | sanitising twice gives the same name as sanitising once |
| ComplianceTest.SafeFileNameKeepsAlnums | testing/runner/main_test.go:217-233 | a name of at most 100 runes keeps every ASCII letter and digit, in order |
| ComplianceTest.RunInstanceTest | testing/runner/main_test.go:194-214 | as written, every instance is reported "passed": a failed or skipped subtest stops before the flag check, and one that reaches it has neither flag set |
| ComplianceTest.FailedInstanceReportedPassed | testing/runner/main_test.go:199-213 | an instance whose subtest failed (and whose status the runners count as failed) is still reported "passed" |
| ComplianceTest.InstanceOutcome | testing/runner/main_test.go:206-210 | the intended flag check: a failed subtest counts as failed, a skipped one that did not fail as skipped, otherwise passed |
| ComplianceTest.SubtestOutcomeAgrees | testing/runner/main_test.go:206-210 | the intended flag check gives the same outcome as the service runners' own status mapping |
| ComplianceTest.InstanceOutcomes | testing/runner/main_test.go:167-188 | one reported outcome per instance, and every one of them is "passed" |
| ComplianceTest.InstanceTallyAllPassed | testing/runner/main_test.go:167-188 | the tally of a service's instances counts each one, and all of them as passed: no failures, no skips |
| ComplianceTest.IntendedOutcomes | testing/runner/main_test.go:206-210 | the intended outcome of each instance is the runners' status mapping of its attempt |
| ComplianceTest.IntendedTallyCountsFailures | testing/runner/main_test.go:167-188 | the intended tally counts each instance once, has a failure exactly when some subtest failed and a skip exactly when some subtest was skipped |
| ComplianceTest.RunServiceTestsGeneric | testing/runner/main_test.go:154-191 | nothing is counted and the parent is not marked when the instances cannot be listed; otherwise every instance is counted once, as passed, and the parent test is marked failed exactly when some instance's subtest failed |
| ComplianceTest.ServiceTypesToTest | testing/runner/main_test.go:80-88 | exactly one service type is covered: the `-service-type` flag when it is given, and "object-storage" when it is not |
| ComplianceTest.TotalsBalanced | testing/runner/main_test.go:110-113 | over every service type, the total equals passed + failed + skipped |
| ComplianceTest.TotalsAllPassed | testing/runner/main_test.go:91-114 | as written, the totals over the service types hold no failure and no skip: passed equals total |
| ComplianceTest.TestServiceType | testing/runner/main_test.go:94-113 | a service type without an API, or whose API cannot list instances, adds nothing and marks nothing; otherwise it adds its instances' tally and marks the parent failed exactly when one of its subtests failed |
| ComplianceTest.RunServiceTypes | testing/runner/main_test.go:91-114 | the loop adds up exactly the tallies of the service types, and the parent test is marked failed exactly when some service type had a failed subtest |
| ComplianceTest.FinalCheck | testing/runner/main_test.go:133-142 | the test ends failed when a subtest already failed it, when an instance was counted as failed, or when none was counted |
| ComplianceTest.RunCompliance | testing/runner/main_test.go:34-143 | the test runs its service types exactly when the provider is known and the output directory and factory were created; its totals count every instance as passed (so the `failedTests > 0` branch never fires), and it fails exactly when a failed subtest marked it failed or no instance ran |
| PolicyChecker.Bindings | testing/language/cloud/policy_checker.go:49-68 | the replacement table has sixteen entries: nine parameter placeholders and seven legacy ones |
| PolicyChecker.SubstituteParams | testing/language/cloud/policy_checker.go:45-71 | the sixteen reassignments of `result` leave exactly the query with every pattern of the table replaced in turn |
| PolicyChecker.BindingsKeys | testing/language/cloud/policy_checker.go:49-68 | the table's patterns are exactly `${name}` for the sixteen placeholder names, in order |
| PolicyChecker.FirstNamesPlain | testing/language/cloud/policy_checker.go:49-62 | no placeholder name of the first eight contains a '$' or a '}' |
| PolicyChecker.LastNamesPlain | testing/language/cloud/policy_checker.go:62-68 | no placeholder name of the last eight contains a '$' or a '}' |
| PolicyChecker.NamesDistinct | testing/language/cloud/policy_checker.go:49-68 | no placeholder is replaced twice |
| PolicyChecker.NoPlaceholderUnchanged | testing/language/cloud/policy_checker.go:45-71 | a query holding none of the sixteen placeholders is run as written |
| PolicyChecker.NoDollarUnchanged | testing/language/cloud/policy_checker.go:45-71 | a query without a '$' is run as written |
| PolicyChecker.PlaceholderFilled | testing/language/cloud/policy_checker.go:45-71 | each placeholder on its own becomes the parameter it stands for |
| PolicyChecker.LegacyPlaceholders | testing/language/cloud/policy_checker.go:61-68 | `${BUCKET_NAME}` stands for the resource name, and `${VPC_ID}`, `${SECURITY_GROUP_ID}`, `${LOAD_BALANCER_ARN}`, `${LISTENER_ARN}`, `${TRUST_STORE_ARN}` and `${KMS_KEY_ID}` for the UID |
| PolicyChecker.CleanQuery | testing/language/cloud/policy_checker.go:75-77 | the query handed to the shell neither starts nor ends with white space |
| PolicyChecker.ContinuationsRemoved | testing/language/cloud/policy_checker.go:75-77 | no backslash-newline line continuation survives the clean-up |
| PolicyChecker.CleanQueryKeepsCleanText | testing/language/cloud/policy_checker.go:75-77 | a query without continuations or surrounding white space is run exactly as written |
| PolicyChecker.CleanQueryIdempotent | testing/language/cloud/policy_checker.go:75-77 | cleaning a cleaned query changes nothing |
| PolicyChecker.ExecuteQuery | testing/language/cloud/policy_checker.go:74-87 | the shell runs the cleaned query; its combined output is returned whether or not it failed, and a failure is reported exactly when the shell fails, as "query execution failed: " followed by the shell's error |
| PolicyChecker.ExpectedTexts | testing/language/cloud/policy_checker.go:99-102 | one text per expected value, in order, each its `%v` rendering |
| PolicyChecker.RuleVerdict | testing/language/cloud/policy_checker.go:90-146 | the result echoes the rule; output that is not JSON, or a path that cannot be followed, fails with the matching error and no actual value; otherwise a null is compared as "null", and the rule passes exactly when the regular expression matches (an invalid one is reported) or, without one, when the actual text is among the expected texts; a passed rule carries no error |
| PolicyChecker.NullMatchesTheTextNull | testing/language/cloud/policy_checker.go:118-143 | a null at the path passes when the text "null" is expected, and passes only through an expected value that is not itself a null |
| PolicyChecker.ConvertExpected | testing/language/cloud/policy_checker.go:99-102 | the conversion loop yields exactly the expected texts |
| PolicyChecker.FindExpected | testing/language/cloud/policy_checker.go:136-143 | the search finds a hit exactly when the actual text is one of the expected texts |
| PolicyChecker.EvaluateRule | testing/language/cloud/policy_checker.go:90-146 | the method returns exactly the verdict described for `RuleVerdict` |
| PolicyChecker.LoadPolicy | testing/language/cloud/policy_checker.go:30-42 | a policy is returned exactly when the file can be read and decoded; otherwise the error names the file and says whether reading or parsing failed |
| PolicyChecker.RuleVerdicts | testing/language/cloud/policy_checker.go:180-187 | one verdict per rule, in rule order |
| PolicyChecker.EvaluateRules | testing/language/cloud/policy_checker.go:179-187 | every rule's verdict is kept in order, and the policy still passes exactly when every rule passed |
| PolicyChecker.RunPolicy | testing/language/cloud/policy_checker.go:149-190 | an error is returned exactly when the policy cannot be loaded; otherwise the report copies the policy's fields and the substituted query and its output; a failing query fails the report with its error and no rule results; otherwise the report holds every rule's verdict and passes exactly when all of them pass |
| PolicyChecker.PassedPolicyHasNoErrors | testing/language/cloud/policy_checker.go:179-187 | in a passed report no rule carries an error, the output was valid JSON and every rule's path could be followed |

## Left out

- Cloud SDK, Graph and ARM traffic, the shell and the file system are not called: each answer the code branches on is an input of the model.
- The process environment is a map from names to values. A missing variable reads as "".
- Wall-clock time and `time.Sleep` are left out. Waits are modelled as bounded poll sequences or attempt counts.
- Log and `fmt.Printf` output is left out. So is the free-text `Reason` of each verdict; the verdict fields show which branch produced it.
- Go `string` lengths and slices count bytes, but the model counts runes. The 64-, 30-, 100- and 120-unit limits of the sanitisers are therefore exact only for ASCII input, which is what identifiers, resource names and user names hold in practice.
- `json.Unmarshal`, the YAML decoder, JSONPath evaluation, `regexp` matching and `url.QueryUnescape` are inputs (oracles). The JSON document the IAM policy marshals to is modelled as a structured value, not as text.
- `AWSVPCService.GetOrProvisionTestableResources`, `CheckUserProvisioned`, `tagValue`, `CountDefaultVpcs`, `ListDefaultVpcs` and the `Summarize*` formatters are not modelled. They only call EC2 and format its answer.
- `GenerateTestTraffic` is not modelled: it sleeps and sends traffic, and returns no verdict.
- `waitForInstanceTerminalOrRunning` is not modelled. It is a best-effort wait whose result `DeleteTestResource` does not use.
- AWS `ProvisionUser` is not modelled in full: deleting the user's older access keys, and deleting the user after a failed key creation, are API side effects with no effect on the result.
- AWS `DestroyUser`, GCP `ProvisionUser` and the `NewAWSIAMService`/`NewGCPIAMService`/`NewAzureIAMService` constructors are not modelled. They are straight sequences of SDK calls without decisions.
- Azure `ProvisionUser`'s Graph calls, tenant lookup, uuid generation and propagation sleeps are inputs or left out, and so are the deletions it makes when a later step fails.
- `GetCurrentIdentityObjectID` of the storage elevator is not modelled: it decodes a token over HTTP. Its answer is a parameter.
- The godog suite run, the HTML/OCSF formatters and `combineOCSFFiles` are not modelled: their exit status or failure is an input.
- The reflection-based `setupServiceParams` of `BasicServiceRunner.go` and `InitializeServiceScenario` are not modelled. `TestService` models the `test_service.go` version over an explicit list of fields.
- The features-directory listing, the report paths and the `-timeout` context are left out. The `-tag` flag of `main.go` is carried into every runner's configuration but never read, as in the code.
- The provider factories (`aws_factory.go`, `azure_factory.go`, `gcp_factory.go`) are not part of this model. A factory is the provider it serves plus its cloud parameters.
- The Go declarations of `Identity`, `PolicyDefinition`, `Rule`, `RuleResult` and `PolicyResult` are not part of this model. Their fields are those the modelled code reads and writes.
- GcpIam.LeadingNonLetterGetsPrefix: states that the id starts with "sa", followed by '-' when it is longer than two runes. A name made only of one or two invalid runes is padded ("!" gives "sa---test", "!!" gives "sa----test"), while one of three or more invalid runes is already six long, is not padded, and loses every hyphen to the trailing-hyphen strip ("!!!" gives "sa").
- ComplianceTest.RunServiceTestsGeneric: Go's `testing` package is not part of this model; the model takes from its documented behaviour that `t.Fatalf`, `t.FailNow` and `t.SkipNow` end the subtest's goroutine and that a failed subtest marks its parent failed. The log lines of the summary are not modelled.
- ComplianceTest.SafeFileNameKeepsAlnums: stated for names of at most 100 runes only, because truncation at 100 drops letters and digits of longer names.
- PolicyChecker.PlaceholderFilled: stated for values without a '$'. The replacements run in sequence, so a value that itself holds a later placeholder is rewritten again.
- PeeringAllowList.AbsPath: joins a relative path to the working directory without `filepath.Clean`, so "." and ".." segments stay in the path that is looked up and reported.
- AzureIam.DestroyUser: every listed role assignment carries an id. The source dereferences `assignment.ID` without a nil check, which panics on a named assignment without an id; the model has no such assignment.
- An expected YAML `null` in a rule renders as `<nil>`, so it never matches an actual JSON null, which is compared as "null". `NullMatchesTheTextNull` states this; it is not listed as a finding because the intent is unclear.

## Findings

| source | as written | input that shows it | evidently intended | confidence | as-written member | corrected member |
|---|---|---|---|---|---|---|
| testing/runner/main_test.go:199-213 | the subtest closure checks `st.Failed()` and `st.Skipped()` after `cloud.RunServiceTests`, but a failing or skipping subtest has already stopped there (`t.Fatalf`, `t.FailNow` and `t.SkipNow` end its goroutine), so `runInstanceTest` returns "passed" for every instance, the failed and skipped counters stay 0 and the `failedTests > 0` check never fires; the test still fails through its failed subtests | an object-storage instance whose suite exits with status 1 | the instance is counted as failed (and one exiting with status 2 as skipped) | not executed | ComplianceTest.FailedInstanceReportedPassed | ComplianceTest.IntendedTallyCountsFailures |
| testing/api/vpc/aws-vpc.go:1249-1250 | `time.Duration(seconds) * time.Second` wraps around in 64 bits, so a wait of more than about 292 years becomes a negative timeout and `DeleteTestResource` skips the requested wait, reporting asynchronous cleanup instead | `CN_TEST_DELETE_WAIT_SECONDS=9223372037` | a timeout that saturates at the largest duration, or a rejected value | not executed | ProbeCleanup.OverflowingWaitSkipsTheWait | ProbeCleanup.DeleteWaitTimeoutAgrees |
