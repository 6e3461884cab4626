# A model of the network domain controller

The controller keeps a table of network domain connections and app connections in step with what the user
asked for, with the cloud providers and with vManage. The providers and vManage are only interfaces to it; what
it decides itself is the order of the calls, the bookkeeping around them and the reconciliation afterwards. That
is what the modules here model, and what they prove holds whichever call fails.

A call to a provider or to vManage ends in one of three ways: it was done, it was refused, or it was done and the
reply is an error (`Records.Reply`). A write of the local database is a transaction: it fails without an effect.
Code that changes things step by step is a class or a method with loops, tied by its `ensures` to a function of
the old state; the theorems are lemmas about those functions and about the state machines.

| module | of |
|---|---|
| `Records` | the connection record, ids, ASCII case mapping |
| `Controller` | creation, deletion, refresh and mapping of connections, one after the other |
| `Interleaving` | the same operations cut at every access to shared state, in any interleaving |
| `Abstraction` | what the interleaved operations keep of the controller's state, and that they agree on it |
| `Store` | the mapping pass: snapshot, report map, transaction |
| `Matrices` | what vManage is told when a connection is made and when it is taken down |
| `Policy` | the vManage object graph behind a site's ACL policy |
| `UrlFiltering` | URL filterings and the lists they refer to |
| `SecurityGroups` | the CIDR diff, its drift when a record is lost, the refresh pass |
| `FanOut` | numbered app connections made for all connections |
| `Passes` | the same with the two goroutines that number them, cut at every access to the table |
| `Selectors` | label matching and the source by destination expansion |
| `Translator` | the protocol and port folds |
| `Queue` | the bounded retrying work queue |
| `Pods` | OR and AND selection of pods by labels |

`dafny verify dfyconfig.toml` takes in every file.

## What the code does that its reader may not expect

Each of these is a lemma or a clause of a contract, with the exact condition where there is one.

- **A lost record loses addresses.** When a provider update took effect and its record could not be written, the
  next refresh reaches the desired list if and only if every desired address of the old list was also in the lost
  one and every lost address is old or desired (`SecurityGroups.AfterLostRecord`). Otherwise an address can stay
  shut out for good (`MissingStaysMissing`), because the diff is taken against the stale record. With an unchanged
  desired list the refresh converges (`StableWishConverges`).
- **A deletion can be undone by a refresh** if and only if that refresh looked at the tombstones before the mark
  was set and has not written yet (`Interleaving.ResurrectionIff`).
- **A record can outlive its links** when the user's deletion takes away a link or rule that the refresh has just
  made for a record not yet saved. Without such a step no run breaks the promise
  (`Interleaving.NeverUndercutStaysInPlace`); with one, a stored connection between different VPCs can always end as
  a record without them (`Interleaving.UndercuttingDoesHarm`, `Interleaving.CollisionLeavesUnlinkedRecord`).
- **Creating a connection that is half removed** succeeds without repairing it: a record that is there is left as
  it is (`Controller.AWIConnectionController.CreateNetworkDomainConnection`).
- **Counting labels** answers whether all of them are present, for every selector, if and only if the domain has
  no two labels equal up to case in key and value (`Selectors.CountingIsPresenceIffNoTwins`).
- **A refresh ends with an error at the first watcher that selects nothing** on one side, and, when no call fails,
  only then. Even without a failing call a pair is left out when its default-allow rule would have no addresses:
  the source VPC has no subnets (`Controller.AWIConnectionController.RefreshNetworkDomainConnections`).
- **A record a refresh makes in vManage mode is a watcher**, and is removed without being disconnected, until a
  mapping pass gives it a status (`Matrices.TakenForWatcherIff`). A mapping pass removes every record it does not
  report, watchers included (`Store.PassStatus`), and loses what is written to an id between its two phases unless
  the id is neither in the snapshot nor reported (`Store.WriteSurvivesIff`).
- **A VPN can go by a VPC's tag.** A record that a refresh makes in vManage mode is a watcher itself until a mapping
  pass, and a refresh before that searches with it, its tag included. A VPN it selects beside its VPC is sent to
  vManage under that tag instead of its id, if and only if there is a tag and it is not the id
  (`Controller.TagTravels`, `Matrices.ToldByOwnIdIff`). A user's own request carries no tag
  (`Controller.WantedRequests`).
- **The provider name test for the Cisco provider never succeeds**, because names are lowered first
  (`Matrices.CloudIsAlwaysTheSources`).
- **A half-built policy stays half built.** A creation that stops after its first or second call, or a deletion that
  stops after clearing the device template, leaves the site's ACL and a device template without a policy. From then
  on every creation for the site only updates the ACL, every deletion fails, and nothing ever puts the policy in
  force or takes the ACL away (`Policy.HalfBuiltForGood`, `Policy.CreationWorksIff`,
  `Policy.VManage.DeleteACLPolicy`). `DeleteAppConnection` passes an empty site, since none is stored with an app
  connection. A URL filtering deletion that lost the filtering and did not finish can never be completed, and any
  other can (`UrlFiltering.Filterings.DeleteAppConnection`).
- **The queue can lock itself out** with one request more than the channel holds outstanding
  (`Queue.OverfullQueueGetsStuck`); a bound on the requests outstanding at an addition rules that out if and only if
  it is within the capacity (`Queue.SafePaceIff`).
- **Numbered children share a name** if and only if their passes have read the same counter
  (`Passes.SameNameIffSameReading`). That happens in two ways: the reference write in between was lost
  (`FanOut.SameChildIff`), or the consumer and the refresher both list the reference before either writes it, and
  then every write goes through and two names are equal all the same (`Passes.OverlapRepeatsName`). Without either
  the numbering holds at every state of every run (`Passes.UndisturbedStaysNumbered`). A retried "all" request whose
  reference could not be written numbers from 1 again.
- **A deleted app connection can come back**: a refresh writes back the rows it listed, and there is no tombstone for
  them. What is written or deleted meanwhile survives if and only if the pass does not complete the record
  (`SecurityGroups.WriteSurvivesIff`).
- **AND is not always narrower than OR**: with no label it takes every pod (`Pods.AllWithinAnyIffLabelled`), and a
  spelled-out "condition: AND" label is sent to the cluster as a label (`Pods.SpelledOutAndNeedsItsLabel`).
- **A port after a reset narrows** the protocol again (`Translator.ResetThenPortNarrows`).

## Model

| member | source | states |
|---|---|---|
| `Controller.AWIConnectionController.CreateNetworkDomainConnection` | pkg/connection-controller/awi_connection_controller.go:281-347 | A refresh leaves a tombstoned id alone, the user's request clears the tombstone; an id with a record is left as it is; success means a record (or a tombstone respected); no other record, link or rule changes; the AWI promise `Valid` holds at whatever call it stops; when no call fails it is an error exactly for a new id whose rule would have no addresses, and then nothing is left behind; a rule comes only for two VPCs with access "allow"; a new record has the ends, specification, access and name asked for, under source id, colon, destination id, is Running and linked at both (AWI) or has its two entries sent, a VPC under the tag vManage answered and a VPN under its id (vManage), and for two VPCs with access "allow" its rule is there |
| `Controller.AWIConnectionController.Establish` | pkg/connection-controller/awi_connection_controller.go:306-334 | For a new id: on success the stored record is the normalised request, Running and linked at both ends (AWI), or has its tagged ends and exactly the enabling matrix was sent (vManage); a failure leaves no record; links and rules gained belong to the id; only a failed call or a rule without addresses can be the cause of an error; then everything said of a new record in `CreateNetworkDomainConnection` holds |
| `Controller.AWIConnectionController.StoredIsMade` | pkg/connection-controller/awi_connection_controller.go:281-347 | What a stored record means in the request's own fields: its id, ends, status, entries, links and rule |
| `Controller.FittingRule` | pkg/connection-controller/awi_connection_controller.go:1534-1555 | A normalised request between VPCs and VPNs needs a rule if and only if both are VPCs and access is "allow", and which rule that is |
| `Controller.AWIConnectionController.GetOrCreateVPCTag` | pkg/connection-controller/awi_connection_controller.go:857-883 | The tag answered is never empty; one call when the VPC has one, three when it is made |
| `Controller.AWIConnectionController.Attach` | pkg/connection-controller/awi_connection_controller.go:318-328 | Mapping sent, or VPCs linked: which one, and what it leaves of the request |
| `Controller.AWIConnectionController.ConnectVPCsWithAWI` | pkg/connection-controller/awi_connection_controller.go:1007-1080 | Both ends are linked under the id on success, in one link call for one provider and in two, source first, for two; on failure nothing else is new; id, name and rule of the request stay the same though its regions change |
| `Controller.AWIConnectionController.CreateVPCPolicy` | pkg/connection-controller/awi_connection_controller.go:1546-1587 | With default access other than "allow", or an end that is neither "vpc" nor "tag", the rules stay as they are; otherwise success means a rule in the destination VPC, in the connection's group, tagged "default-" and the source id; no other rule comes; a source VPC without subnets is an error although no call fails |
| `Controller.RuleDeterminesId` | pkg/connection-controller/awi_connection_controller.go:1534-1544 | The VPC and the tag of a default-allow rule identify one connection, so removing one connection's rule cannot remove another's |
| `Controller.AWIConnectionController.CreateConnection` | pkg/connection-controller/awi_connection_controller.go:265-279 | Success means a record for every selected pair and no tombstone on any; only selected ids (and a watcher, when asked for) are new, and without a watcher no record changes; when no call fails exactly the pairs with addresses to allow get one, and an error means a pair without, or an empty expansion; with any default access but "allow" no rule comes; success means a record under source id, colon, destination id for every pair of domains that the specification selects by id, name or labels; every new record is Pending (Running with AWI), lies between such a pair and carries the specification and the policy's access type in lower case; a watcher is Watching and carries them too |
| `Controller.AWIConnectionController.ProcessConnectionConfig` | pkg/connection-controller/awi_connection_controller.go:349-409 | The watcher, if one is asked for, and the requests of the expansion, or an error exactly for an empty one when no call fails |
| `Controller.WantedRequests` | pkg/connection-controller/awi_connection_controller.go:349-389 | The requests a user's request expands to: one for each selected pair and no other, with its status, specification, name and access |
| `Controller.AnswersHold` | pkg/connection-controller/awi_connection_controller.go:265-279 | What became of the user's request, over its own fields, follows from the rounds of creations |
| `Controller.AWIConnectionController.CreateAll` | pkg/connection-controller/awi_connection_controller.go:271-276 | Each pair is attempted with its own calls: if none of these fails it gets its record, whatever became of the pairs before it; without a failure all have one; the table grows by selected ids only; every new record is that of a requested pair; if no request has access "allow" no rule comes |
| `Controller.RoundOneMore` | pkg/connection-controller/awi_connection_controller.go:271-276 | One attempt more in a round, forced or not: what the round promises is kept |
| `Controller.AWIConnectionController.CreateWatch` | pkg/connection-controller/awi_connection_controller.go:391-409 | The watcher is stored under its own id, with status Watching, over whatever was there |
| `Controller.AWIConnectionController.RefreshNetworkDomainConnections` | pkg/connection-controller/awi_connection_controller.go:238-263 | A pass in which no call fails ends with an error exactly when some watcher selects nothing on a side, and otherwise the new ids are exactly the selected, untombstoned ones that have addresses to allow if they need any; whatever fails, old records are unchanged and no tombstoned id gets one; every new record lies between a pair of domains some watcher selects, with that watcher's specification, name and access, and is a watcher itself unless AWI has connected it |
| `Controller.WatchedIff` | pkg/connection-controller/awi_connection_controller.go:244-260 | The ids the watchers ask for, over the domains' fields: source id, colon, destination id of every pair a record with status "Watching" selects, but for two VPCs with access "allow" whose source has no subnets |
| `Controller.IdleIff` | pkg/connection-controller/awi_connection_controller.go:496-546 | A watcher ends a refresh if and only if no pair of domains is what it selects |
| `Controller.OfWatchersSpelledOut` | pkg/connection-controller/awi_connection_controller.go:244-260 | Every record that is new after a refresh was made for a watcher and a pair it selects |
| `Controller.TagTravels` | pkg/connection-controller/awi_connection_controller.go:496-546 | A record made by a refresh is searched with in turn and keeps its tag: a VPN it selects is told to vManage by its own id if and only if the record has no tag, or that id for one |
| `Controller.AWIConnectionController.RefreshRecords` | pkg/connection-controller/awi_connection_controller.go:244-260 | The loop: what is achieved with the records seen so far, and where an error or a failure can come from |
| `Controller.RefreshedOneMore` | pkg/connection-controller/awi_connection_controller.go:244-260 | One record more in a refresh: completeness, growth and the causes of an error are kept |
| `Controller.AWIConnectionController.DeleteConnection` | pkg/connection-controller/disconnect.go:32-41 | The tombstones set are those of a prefix of the list, all of it on success, and stay when the removal fails; nothing but the listed ids is touched; success leaves neither record nor, with AWI, link or rule of any, and vManage was told exactly the disabling matrices of those that were no watchers, in order; it succeeds when no call fails; in the records' own fields: on success none of the ids has a record and all have a tombstone, and with AWI neither end of any is linked and no named one with access "allow" has its rule |
| `Controller.RemovedMeans` | pkg/connection-controller/disconnect.go:32-41 | What the complete removal of a list means for each of its records, in its own fields |
| `Controller.RemovedInPart` | pkg/connection-controller/disconnect.go:32-41 | A list whose removal stopped at one id has touched nothing but its own ids |
| `Controller.RemovedOneMore` | pkg/connection-controller/disconnect.go:32-41 | One removal more in a list: table, links, rules and what vManage was told |
| `Controller.AWIConnectionController.DisconnectConnections` | pkg/connection-controller/disconnect.go:86-102 | A watcher is removed as a record only: links, rules and what vManage was told stay as they are; any other record is disconnected first |
| `Controller.AWIConnectionController.DisconnectSource` | pkg/connection-controller/disconnect.go:104-143 | The record goes last; success leaves neither link nor rule of the connection (AWI) or has sent exactly the disabling matrix of the re-tagged record (vManage); a failure after an effect marks the id, and no other, as half removed; nothing of another connection is taken away; in the record's own fields: its two entries disabled, a VPC under the tag answered now, or no link and no rule |
| `Controller.AWIConnectionController.DisconnectVPCsWithAWI` | pkg/connection-controller/disconnect.go:294-350 | Neither end is linked on success, after one unlink call for one provider and two for two; only these two links can go; the id is broken exactly when an unlink call took effect |
| `Controller.AWIConnectionController.RemoveRulesFromSecurityGroup` | pkg/connection-controller/disconnect.go:252-265 | With default access other than "allow", or an end that is neither "vpc" nor "tag", the rules stay as they are; otherwise success means that this rule is not in the destination VPC; no other rule goes |
| `Controller.DropRuleConsistent` | pkg/connection-controller/disconnect.go:252-265 | Removing the rule of a half-removed connection keeps the promise for all others |
| `Controller.AWIConnectionController.RunMapping` | pkg/connection-controller/awi_connection_controller.go:1726-1754 | An undisturbed pass is `Store.RunPass`; there is none without vManage |
| `Controller.AWIConnectionController.Serve` | pkg/connection-controller/awi_connection_controller.go:238-347 | Over every run of user requests, deletions, refreshes, mapping passes and discoveries, with any failures: with the AWI connector every record that is no watcher is Running, linked at both ends and has its rule, or it has lost a link and its removal was asked for; stated over the record's status, id, ends, kinds and access |
| `Controller.ConsistentMeans` | pkg/connection-controller/awi_connection_controller.go:306-334 | What the promise says of a record in its own fields, and that a half-removed one has lost a link |
| `Controller.ExpansionFits` | pkg/connection-controller/awi_connection_controller.go:496-546 | Expansions of discovered domains have VPC or VPN ends |
| `Interleaving.StepKeepsMark` | pkg/connection-controller/awi_connection_controller.go:281-305 | No single step of any thread writes a record marked as deleted, unless a creation had passed the check before the mark or the step names the id |
| `Interleaving.NoResurrection` | pkg/connection-controller/awi_connection_controller.go:286-305 | Over every interleaving and every failure a record marked as deleted is not written again, and once gone stays away, until the user asks for it or a report lists it |
| `Interleaving.ResurrectionIff` | pkg/connection-controller/awi_connection_controller.go:286-334 | An unasked run that brings a deleted id back exists if and only if the refresher is past its tombstone check for the id |
| `Interleaving.StepKeepsAllInPlace` | pkg/connection-controller/disconnect.go:104-143 | Every step that does not take away a link or rule the refresher has just made for a record not yet saved keeps every saved record, and every creation under way, in place |
| `Interleaving.NeverUndercutStaysInPlace` | pkg/connection-controller/disconnect.go:104-143 | With the AWI connector, over every run without such a step and with any failures, every saved record has a link at its source, one at its destination and, if it asks for one, its rule, at every state, unless its removal took effect in part |
| `Interleaving.UndercuttingDoesHarm` | pkg/connection-controller/awi_connection_controller.go:306-334 | From any state, if the connection is stored and its ends differ, a run in which such a step happens can go on, with calls that succeed, to a saved record without its links or rule that no unfinished removal excuses |
| `Interleaving.DeletionKeepsInPlace` | pkg/connection-controller/disconnect.go:104-143 | A deletion's own step never leaves a saved record out of place and unexcused: the harm is done when the refresher saves |
| `Interleaving.RemovalCompletes` | pkg/connection-controller/disconnect.go:86-143 | From any point of a deletion the user can get the record removed, whatever the refresher is in the middle of; unless it is a watcher's, both its links and its rule go, nothing of another connection does, and the mark stays |
| `Interleaving.RemovalGoesOn` | pkg/connection-controller/disconnect.go:86-143 | The state at the end: exactly the record and what was still to be taken away are gone |
| `Interleaving.CreationCompletes` | pkg/connection-controller/awi_connection_controller.go:281-334 | A free thread can always make a connection: the user's request removes the mark, a refresh respects it, and unless there is a record exactly both links, the rule if asked for and the record come, a watcher's when a refresh makes it with vManage |
| `Interleaving.CollisionLeavesUnlinkedRecord` | pkg/connection-controller/awi_connection_controller.go:306-334 | A concrete interleaving from an empty table, without any failure, for every connection within one cloud, that ends with its record and neither links nor rule |
| `Abstraction.PassIsCommit` | pkg/db/db.go:188-216 | For every snapshot, table and reports, the transaction of a mapping pass is the interleaved model's commit |
| `Abstraction.PromiseIsInPlace` | pkg/connection-controller/awi_connection_controller.go:306-334 | A controller state that keeps the AWI promise is one of the model that does |
| `Abstraction.CreationIsRun` | pkg/connection-controller/awi_connection_controller.go:281-334 | The record, links and rule the controller leaves for a new id are those of a run of the model |
| `Abstraction.RemovalIsRun` | pkg/connection-controller/disconnect.go:86-143 | So are the record, links and rule that are gone after a removal |
| `Store.Client.UpdateConnectionStatus` | pkg/db/db.go:167-220 | The table afterwards is the two-phase merge of the snapshot, the table found by the transaction and the reported entries; a failed transaction leaves what it found; every reported pair is in the table under source id, colon, destination id, and a known record stays only if it is reported so, with its ends, name and specification |
| `Store.MergeKeys` | pkg/db/db.go:188-216 | Final ids are (found - (snapshot - reported)) + reported, with equality to the reported ones when undisturbed; a reported known record keeps all but status and times; a reported unknown one is the bare transformed record; an unreported newcomer is untouched; the creation time is set once, and the modification time whenever it was set before |
| `Store.PhasesMerge` | pkg/db/db.go:190-216 | Deleting the unreported and writing back the rebuilt entries is the merge |
| `Store.Client.DropUnreported` | pkg/db/db.go:190-201 | The first loop: unreported snapshot rows go, reported ones are rebuilt from the snapshot with the reported status |
| `Store.Client.PutAll` | pkg/db/db.go:202-216 | The second loop: creation time set once, modification time after that |
| `Store.CollectStatus` | pkg/db/db.go:172-186 | The loops over the reports write the entries in report order, mapped, unmapped, outstanding |
| `Store.Precedence` | pkg/db/db.go:172-186 | For every list of reports: exactly the listed ids, each with the status of the last report that names it, in which outstanding beats unmapped beats mapped |
| `Store.ReportedIds` | pkg/db/db.go:172-186 | The ids of the map are source id, colon, destination id of the reported rows, as a creation makes them, and what it holds under an id is what a row of that id says of each end |
| `Store.PassStatus` | pkg/db/db.go:172-216 | After an undisturbed pass the rows are exactly the reported ids with the status precedence gives them; watchers are gone |
| `Store.PassKeepsReported` | pkg/db/db.go:167-263 | A pass keeps a known connection if and only if a report has a row with its two ids in this order, with its ends as they were, and takes up exactly the other reported ones, each end as the row has it |
| `Store.LastReportDecides` | pkg/db/db.go:172-186 | If the last report has a row for a connection: Pending if it is outstanding there, else Failed if unmapped, else Running |
| `Store.ReportedRecordSurvives` | pkg/db/db.go:190-216 | Over any number of passes that report an id its record keeps everything but status and times, and a creation time once set |
| `Store.RepeatedPass` | pkg/db/db.go:167-220 | Hearing the same reports again changes only modification times |
| `Store.WriteBetweenPhasesIsLost` | pkg/db/db.go:167-215 | A row removed or changed between the phases comes back as it was at the snapshot, if it is reported |
| `Store.WriteSurvivesIff` | pkg/db/db.go:167-216 | Whatever is written to an id between the phases survives if and only if the id is neither in the snapshot nor reported; a removal does if and only if the id is not reported |
| `Store.Client.ListConnectionRequests` | pkg/db/db.go:136-138 | Every row once |
| `Matrices.NormalizeNames` | pkg/connection-controller/awi_connection_controller.go:947-961 | Kinds and providers in lower case, "vrf" as "vpn", a default name; everything else stays |
| `Controller.AWIConnectionController.TagConnection` | pkg/connection-controller/awi_connection_controller.go:812-855 | A VPC end becomes a tag end with vManage's tag; other ends stay; ids stay, and the tag is not empty |
| `Matrices.ConnectionMatrices` | pkg/connection-controller/awi_connection_controller.go:1406-1457 | The entry from source to destination and the one back, each end by its tag or, without one, its id, with the flag; only an empty destination key changes, to the random name |
| `Matrices.PreparedAnnounces` | pkg/connection-controller/awi_connection_controller.go:1406-1457 | For a request between VPCs and VPNs: a VPC is sent as type "tag" under the tag answered, a VPN as type "vpn" under its own id unless the request carries a tag, source to destination first |
| `Matrices.RepreparedAnnounces` | pkg/connection-controller/disconnect.go:113-119 | The same for a stored record that is removed, with the flag off |
| `Matrices.ToldByOwnIdIff` | pkg/connection-controller/awi_connection_controller.go:1432-1439 | A VPN end is sent under its own id if and only if the request has no tag for it, or that id for one |
| `Matrices.RepreparingKeepsEnds` | pkg/connection-controller/disconnect.go:113-119 | Re-tagging and re-normalising a stored record changes no entry, whatever tags vManage answers with |
| `Matrices.DisconnectUndoesConnect` | pkg/connection-controller/disconnect.go:104-122 | After any number of mapping passes that report the id, the entries sent on removal are the entries sent on creation with the flag flipped |
| `Matrices.EntriesComeInPairs` | pkg/connection-controller/awi_connection_controller.go:1440-1456 | Every entry is sent with its reverse |
| `Matrices.TakenForWatcherIff` | pkg/connection-controller/disconnect.go:95-97 | A record is taken for a watcher if and only if it was saved as one and no mapping pass has run since |
| `Matrices.CloudIsAlwaysTheSources` | pkg/connection-controller/awi_connection_controller.go:963-981 | After normalising, the cloud of the mapping is always the source's provider |
| `Policy.VManage.CreateACLPolicy` | pkg/connection-controller/awi_connection_controller.go:1082-1181 | Whichever call fails, the calls that took effect are a prefix of the plan, all of it on success, and no graph on the way has a dangling reference; when none fails it is an error exactly for a site without an ACL that lacks its device or feature template; success for a site means an ACL named site-acl with the given sequences that accepts by default for "allow" and drops for "deny" or none, whether it is new or was there, other ACLs as they were, and for a site without one the policy, device template and feature template that put it to work |
| `Policy.VManage.MakePolicy` | pkg/connection-controller/awi_connection_controller.go:1082-1181 | The body for any ACL of that name |
| `Policy.CreationLeaves` | pkg/connection-controller/awi_connection_controller.go:1082-1181 | What a complete creation leaves of ACLs, policies, device and feature templates |
| `Policy.VManage.BuildPolicy` | pkg/connection-controller/awi_connection_controller.go:1123-1180 | The part for a site without an ACL: the states on the way are those of the plan, and a missing template is the one cause of an error when no call fails |
| `Policy.VManage.DeleteACLPolicy` | pkg/connection-controller/disconnect.go:145-213 | The same for a deletion; it never succeeds for a site without a feature template or without a device template that names a policy, and always does for any other when no call fails; success means that both templates name nothing, the policy is gone and no ACL has the site's name |
| `Policy.DeletionLeaves` | pkg/connection-controller/disconnect.go:145-213 | What a complete deletion leaves |
| `Policy.VManage.RemovePolicy` | pkg/connection-controller/disconnect.go:145-213 | Feature template, device template, policy and ACLs, in this order, with the same causes of an error |
| `Policy.VManage.FindAcl` | pkg/connection-controller/awi_connection_controller.go:1097-1104 | The ACL of that name, or none if and only if there is none |
| `Policy.CreatePlanSound` | pkg/connection-controller/awi_connection_controller.go:1082-1181 | Every prefix of a creation keeps references alive and ownership single |
| `Policy.DeletePlanSound` | pkg/connection-controller/disconnect.go:145-213 | Every prefix of a deletion does too |
| `Policy.OrphanedAclMayGo` | pkg/connection-controller/disconnect.go:198-210 | When the template is cleared and the policy gone nothing refers to the site's ACL, since no other policy or template can |
| `Policy.EveryRunIsSound` | pkg/connection-controller/awi_connection_controller.go:1082-1181 | From a blank or a sound vManage, over every sequence of creations and deletions each cut short anywhere, no reference ever dangles, between operations and between calls |
| `Policy.CreationWorksIff` | pkg/connection-controller/awi_connection_controller.go:1097-1181 | A complete creation leaves the site's policy in force if and only if the site had no ACL or its policy was in force before |
| `Policy.StoppedCreationIsHalfBuilt` | pkg/connection-controller/awi_connection_controller.go:1122-1168 | A creation leaves an ACL and a device template without a policy exactly when it stops after its first or second call |
| `Policy.StoppedDeletionIsHalfBuilt` | pkg/connection-controller/disconnect.go:176-210 | A deletion leaves that exactly when it stops between clearing the device template and dropping the ACL |
| `Policy.HalfBuiltForGood` | pkg/connection-controller/awi_connection_controller.go:1097-1120 | A site in that state stays in it, and never in force, over every sequence of creations and deletions of any sites, each cut short anywhere |
| `Policy.InterleavingSeparates` | pkg/connection-controller/awi_connection_controller.go:1122-1168 | Calls on different objects may interleave in any way: each object ends as if only its own calls had been made |
| `Policy.PolicyRoundTrip` | pkg/connection-controller/disconnect.go:145-213 | A complete creation and deletion for a clean site, interleaved with any calls of other sites, leaves the graph as the others alone would have |
| `Policy.DeletionFindsTheBuild` | pkg/connection-controller/disconnect.go:148-197 | The deletion's plan, read from the interleaved graph, is exactly the inverse of what the creation built |
| `Policy.NamesInjective` | pkg/connection-controller/awi_connection_controller.go:1097-1128 | Two sites never share an ACL or policy name |
| `UrlFiltering.Filterings.CreateURLFiltering` | pkg/connection-controller/awi_connection_controller.go:1589-1689 | A prefix of list and filtering is made, both and a record on success; no reference dangles; when no call fails it is an error exactly when the source is no known VRF, the named policy is missing, or the access type is neither "deny" nor "allow"; success means a filtering with its own deny list of the given entries when no policy matches or the first one denies, and with its own allow list when the first one allows |
| `UrlFiltering.CreatedFilters` | pkg/connection-controller/awi_connection_controller.go:1606-1672 | What both calls leave, over the policies' access types |
| `UrlFiltering.AcceptableIff` | pkg/connection-controller/awi_connection_controller.go:1593-1652 | Which requests are accepted, over kind, VRF and the policies' access types |
| `UrlFiltering.Filterings.DeleteURLFiltering` | pkg/connection-controller/disconnect.go:267-292 | A prefix of filtering and list goes, both on success; when no call fails it is an error exactly when the filtering is gone, and changes nothing then; success means that it and the list it named are gone and nothing else |
| `UrlFiltering.DeletedIsCleared` | pkg/connection-controller/disconnect.go:267-292 | What a complete deletion leaves |
| `UrlFiltering.Filterings.DeleteAppConnection` | pkg/connection-controller/disconnect.go:43-84 | The record goes last; when no call fails it is an error exactly when the record is there and its filtering is gone, so that no later attempt can remove it; any other record goes |
| `UrlFiltering.CreationInPart` | pkg/connection-controller/awi_connection_controller.go:1615-1678 | At every stop the graph is sound, and one list is left without a filtering exactly between the two calls |
| `UrlFiltering.DeletionInPart` | pkg/connection-controller/disconnect.go:267-292 | The same for a deletion: a list is abandoned exactly when it stops between the two |
| `UrlFiltering.RoundTrip` | pkg/connection-controller/disconnect.go:267-292 | Creating and deleting restores the graph |
| `SecurityGroups.Diff` | pkg/connection-controller/security_groups.go:354-380 | The two nested searches: the elements one list lacks of the other, in order |
| `SecurityGroups.DiffIsExact` | pkg/connection-controller/security_groups.go:354-380 | (stored - remove) + add is the desired set; add is new, remove is undesired, the two are disjoint; duplicates allowed |
| `SecurityGroups.DriftLaw` | pkg/connection-controller/security_groups.go:354-416 | How one attempt, refused, unrecorded or recorded, changes the disagreement between rule and record |
| `SecurityGroups.AfterLostRecord` | pkg/connection-controller/security_groups.go:381-416 | What the rule lets in after a lost record and a recorded refresh, and that it is the desired list if and only if the stated condition on the three lists holds |
| `SecurityGroups.LostRecordLosesAddress` | pkg/connection-controller/security_groups.go:381-416 | The smallest case in which it is not |
| `SecurityGroups.MissingStaysMissing` | pkg/connection-controller/security_groups.go:354-416 | No sequence of refreshes that want the address repairs it |
| `SecurityGroups.StableWishConverges` | pkg/connection-controller/security_groups.go:354-416 | With an unchanged desired list the first recorded attempt makes rule, record and wish agree, and they stay so |
| `SecurityGroups.AppConnections.RefreshSecurityGroups` | pkg/connection-controller/security_groups.go:332-419 | One record: driven before stored, with the diff; the row is the old one with the desired sources; nothing else changes; it succeeds when no call fails; a record without labels and its rule stay as they are, however it ends; on success a record with labels whose rule agreed with it lists what the labels select, and the rule lets in exactly that |
| `SecurityGroups.AppConnections.RefreshAppConnections` | pkg/connection-controller/awi_connection_controller.go:210-236 | A pass refreshes exactly a prefix of the records in key order, and stops without an error at a record with connection "" or "all", with one only at a failed call: when none fails the prefix ends at the first such record or at the end; rows and rules behind are unchanged, and the bucket stays well-formed for the next pass; a record without labels and its rule stay as they are however the pass ends, a completed one with labels lists what they select and, where rule and record agreed, the rule lets in exactly that; nothing but the addresses changes |
| `SecurityGroups.PassIsOneAttemptEach` | pkg/connection-controller/awi_connection_controller.go:215-234 | A pass is one recorded attempt on each record of the prefix, at most an unrecorded one on the next, none behind it |
| `SecurityGroups.PassLands` | pkg/connection-controller/security_groups.go:332-380 | The same for every record of a pass, wherever it stops |
| `SecurityGroups.WriteSurvivesIff` | pkg/connection-controller/awi_connection_controller.go:211-233 | What others write for a record between a pass's listing and its own write survives, and so does its deletion, if and only if the pass had not listed the record or does not complete it |
| `FanOut.AppConnections.CreateForAll` | pkg/connection-controller/awi_connection_controller.go:583-627 | A child for each connection, failed ones leaving gaps, then the reference with the counter; the children of every reference stay numbered 1 to its counter without repetition, whatever rows the random keys overwrite; it succeeds when no call fails, whatever became of the children; when no call fails each connection for which the request can be met has a child base-i under the key drawn for it, unless a later key is the same |
| `FanOut.AppConnections.ApplyOne` | pkg/connection-controller/awi_connection_controller.go:635-652 | Child and counter for one reference: exactly the rows of the event it came to; the child is base, dash, counter plus one, and the reference counts one more |
| `FanOut.AppConnections.ApplyForAll` | pkg/connection-controller/awi_connection_controller.go:629-655 | For a pass no other overlaps: unless a reference write is lost after its child was stored, all children of all references stay within 1 to their counter, no two the same; after a complete pass every reference not overwritten by a later random key counts one more; when no call fails it is an error exactly when some reference's request cannot be met for the new connection; after a complete pass for a connection that is not passed over every reference has a child with its next number under the key drawn for it, unless that is overwritten |
| `FanOut.MadeOneMore` | pkg/connection-controller/awi_connection_controller.go:593-611 | One connection more: the children made so far are kept, and the next has its number |
| `FanOut.ExtendedOneMore` | pkg/connection-controller/awi_connection_controller.go:635-652 | One reference more in a pass |
| `FanOut.AppConnections.Serve` | pkg/connection-controller/awi_connection_controller.go:583-655 | The numbering holds over every sequence of such requests and new connections, one after the other, up to the first lost reference write; every child of a stored reference is called base, dash, a number from 1 to its counter in decimal |
| `FanOut.PassKeepsInv` | pkg/connection-controller/awi_connection_controller.go:639-649 | Child and counter together keep the numbering, under whatever key the child is stored |
| `FanOut.CountedKeepsInv` | pkg/connection-controller/awi_connection_controller.go:643-649 | So does a counter without a child, when creation succeeds without storing |
| `FanOut.SameNameIff` | pkg/connection-controller/awi_connection_controller.go:639-649 | While passes on a reference do not overlap, two children have one name if and only if no reference write went through from the first one's on |
| `FanOut.LifeFollowsEvents` | pkg/connection-controller/awi_connection_controller.go:636-649 | While passes on a reference do not overlap, the counter it shows and the name of the child it stores follow from its events, whatever other rows do in between |
| `FanOut.SameChildIff` | pkg/connection-controller/awi_connection_controller.go:636-649 | So, while they do not overlap, two children a reference stores have one name if and only if no reference write went through from the first one's on |
| `FanOut.ItoaInjective` | pkg/connection-controller/awi_connection_controller.go:596 | Decimal printing is injective |
| `FanOut.ItoaIsDecimal` | pkg/connection-controller/awi_connection_controller.go:596 | Counters are printed in decimal digits that stand for the counter, without a leading zero |
| `Passes.UndisturbedStaysNumbered` | pkg/connection-controller/awi_connection_controller.go:629-655 | With both goroutines at work, cut at every access to the table, whatever fails, is overwritten or removed: at every state of a run without overlapping passes on a reference and without a lost reference write, every reference's children are base-1 to base-counter (one more while a pass is about to write it), no two the same |
| `Passes.StepKeepsGood` | pkg/connection-controller/awi_connection_controller.go:583-655 | Every step that is neither of the two keeps that, and all that either pass has listed true |
| `Passes.RestIsGood` | pkg/connection-controller/awi_connection_controller.go:629-634 | Every numbered table at rest is a state to start such a run from |
| `Passes.OverlapRepeatsName` | pkg/connection-controller/awi_connection_controller.go:629-655 | From any table at rest with a reference, two passes that both list it before either writes it, with every call succeeding, end with two children of one name and the reference counting one |
| `Passes.StoreRepeatsIff` | pkg/connection-controller/awi_connection_controller.go:639-643 | In any state, storing a pass's child leaves a repeated name if and only if a child of the same reading is stored under another key, or another name was repeated already |
| `Passes.SameNameIffSameReading` | pkg/connection-controller/awi_connection_controller.go:639-649 | Two children of a request have one name if and only if their passes have read the same counter |
| `Selectors.CheckLabelsMatch` | pkg/connection-controller/awi_connection_controller.go:548-562 | True if and only if the selector is not empty and the number of agreeing label pairs is its size, in whatever order the maps are visited |
| `Selectors.CountingIsPresence` | pkg/connection-controller/awi_connection_controller.go:548-562 | In a domain without twin labels that is the presence of every selector label |
| `Selectors.CountingIsPresenceIffNoTwins` | pkg/connection-controller/awi_connection_controller.go:548-562 | It is for every non-empty selector if and only if there are no twins |
| `Selectors.FindNetworkDomains` | pkg/connection-controller/awi_connection_controller.go:496-546 | One fresh, distinct request for each pair of domains of which the first is selected by the source's id, name or labels and the second by the destination's, like the record but for the ids, kinds and providers of its ends, destination by destination; an error if and only if there is no such pair |
| `Selectors.PairsExpand` | pkg/connection-controller/awi_connection_controller.go:496-546 | The requests of an expansion are those between the pairs a record searches for, side by side with the fields it searches by |
| `Selectors.EqualFoldIsEquality` | pkg/connection-controller/awi_connection_controller.go:556 | Label comparison with plain lower-casing is equality in lower case |
| `Selectors.ProductAt` | pkg/connection-controller/awi_connection_controller.go:529-541 | The place of every pair in the expansion |
| `Selectors.ProductMembers` | pkg/connection-controller/awi_connection_controller.go:529-541 | Every matched pair is in it |
| `Selectors.ProductKeysDistinct` | pkg/connection-controller/awi_connection_controller.go:285 | For distinct ids without a colon in the sources no two requests of an expansion have one id |
| `Selectors.MatchedMembers` | pkg/connection-controller/awi_connection_controller.go:511-532 | A domain is matched if and only if it is selected by id, name or labels |
| `Translator.AwiGrpcProtocolsAndPortsToCompute` | pkg/translator/translator.go:62-78 | A protocol is present if and only if it occurs, with exactly its ports after its last rule without a port, in order |
| `Translator.AwiGrpcProtocolsAndPortsToMap` | pkg/translator/translator.go:80-96 | The same for the stored form |
| `Translator.ProtocolsAndPortsMapToCompute` | pkg/translator/translator.go:98-104 | The stored form is converted without a change |
| `Translator.MeaningIsUnique` | pkg/translator/translator.go:106-122 | Any two results that mean one rule list are equal, so the three translators agree |
| `Translator.MeansExactly` | pkg/translator/translator.go:62-96 | A port is allowed for a protocol if and only if a rule names both and no later rule names the protocol without a port; every port is if and only if the protocol's last rule names none |
| `Translator.RefreshSeesWhatCreateSent` | pkg/connection-controller/security_groups.go:394-396 | Storing and converting on refresh gives what was sent on creation |
| `Translator.ResetIsLastOpening` | pkg/translator/translator.go:68-72 | The ports counted start right behind the last rule without a port |
| `Translator.ResetThenPortNarrows` | pkg/translator/translator.go:68-72 | A port behind a reset is the only one allowed |
| `Queue.EveryRunConserves` | pkg/manager/manager.go:127-187 | In every run every accepted request is queued, in hand, succeeded or dropped, exactly one of these, and is processed at most maxRetries + 1 times |
| `Queue.DroppedAfterFour` | pkg/manager/manager.go:166-187 | Without unsupported requests, what is given up has failed exactly four times, and what is still open has been tried at most three times |
| `Queue.StepSpendsBudget` | pkg/manager/manager.go:166-187 | Every processed attempt lowers the sum of the attempts left; moving requests does not change it |
| `Queue.WorkIsBounded` | pkg/manager/manager.go:166-187 | A run processes at most four attempts for each request added |
| `Queue.PacedNeverStuck` | pkg/manager/manager.go:79-246 | If requests are added only while fewer than 100 are outstanding, the consumer's own send always finds room |
| `Queue.OverfullQueueGetsStuck` | pkg/manager/manager.go:166-187 | A run with 101 outstanding ends with the consumer waiting on itself |
| `Queue.SafePaceIff` | pkg/manager/manager.go:79-246 | For every bound on the requests outstanding at an addition: no run within it ever gets stuck if and only if the bound is at most the channel's capacity |
| `Queue.StuckForGood` | pkg/manager/manager.go:166-187 | From there no step is possible |
| `Queue.Manager.ProcessRequest` | pkg/manager/manager.go:166-187 | One attempt is exactly the machine's steps: success, drop, or a resend with one more retry when there is room; a failed attempt is dropped from the fourth on and goes to the end of a queue of fewer than 100 before |
| `Queue.Manager.AddRequest` | pkg/manager/manager.go:239-246 | A request enters at the end with no retries, or waits on a full channel |
| `Queue.Manager.Receive` | pkg/manager/manager.go:127-138 | The oldest request is taken |
| `Pods.GetSourceDataForKubernetesLabels` | pkg/connection-controller/kubernetes.go:33-97 | OR: the /32s of the set addresses of pods with at least one label, without repetition; otherwise: of pods with all of them; in whatever order the maps are visited; address, slash, 32 for exactly the pods that carry one of the labels besides "condition", or all of them |
| `Pods.PickedAddresses` | pkg/connection-controller/kubernetes.go:33-97 | The addresses of both branches, over the pods' labels and addresses |
| `Pods.SelectAny` | pkg/connection-controller/kubernetes.go:47-64 | The OR branch, and that the matched pods reported are those of one label only |
| `Pods.SelectAll` | pkg/connection-controller/kubernetes.go:65-92 | The AND branch |
| `Pods.AllWithinAnyIffLabelled` | pkg/connection-controller/kubernetes.go:33-97 | AND selects within OR for every pod list if and only if there is a label |
| `Pods.SpelledOutAndNeedsItsLabel` | pkg/connection-controller/kubernetes.go:65-77 | With a "condition" label other than OR only pods that carry it are selected |

## Left out

- Real clients, timeouts, sleeps, logging, JSON and BoltDB: a call is a reply, a bucket is a finite map.
- Process restart, which empties the tombstones.
- Data races on the tombstone map: single accesses to it and to the table are taken as atomic.
- `strings.ToLower` and `strings.EqualFold` on Unicode: case mapping is ASCII, and label comparison takes the case folding of a character as a parameter.
- Random names: vManage's ids are new; in `FanOut` they may hit any row.
- Controller.AWIConnectionController.CreateNetworkDomainConnection: requires ends of kind VPC or VPN, as discovery writes them; a subnet end, whose VPC would be looked up and would change the id after it was computed, is followed by `ProcessSubnets` only.
- Controller.AWIConnectionController.RefreshNetworkDomainConnections: which VPCs have no subnets, and the domain table that discovery writes from its own goroutine, change between operations here, not during one.
- Controller.AWIConnectionController.Establish: the site policy of vManage mode is a call that may fail here; `Policy` models what it does.
- Controller.AWIConnectionController.CreateConnection: which access policy the request matches is part of it, and the lookup a call that may fail; the label branch of that lookup is not modelled.
- Interleaving.NeverUndercutStaysInPlace: the machine follows ends, rule and watcher status of a record only; `Abstraction` relates its commit, its promise and its complete creations and removals to the controller's, but not every prefix of an operation that a failed call cuts short; an undercut whose connection has one VPC at both ends may be repaired by the refresher's next link call.
- Policy.VManage.CreateACLPolicy: for a network domain connection the source passes no configuration, which the final record write dereferences (pkg/db/db.go:144-153); that the program stops there is not modelled, the write is one more call that may fail. Nothing in the program sets the feature template id of a connection; here every site's is given.
- Policy.EveryRunIsSound: assumes one feature template for each site and no foreign policies, and operations one after the other; `PolicyRoundTrip` interleaves sites, but a refresh and the consumer working on the same site at once are not modelled.
- FanOut.AppConnections.CreateForAll: `owner`, the request a row goes back to, is kept by the model only; a retry of a request whose reference write failed is a new owner.
- FanOut.LifeFollowsEvents: follows a reference for as long as no random key overwrites it and no passes overlap on it; `Passes` has both.
- Passes.UndisturbedStaysNumbered: one condition suffices for a whole run; an overlapping step whose child happens not to be stored, or is removed before the other's, does no harm, which `StoreRepeatsIff` decides step by step. The rows a refresh of app connections writes back are in `SecurityGroups`.
- UrlFiltering.Filterings.CreateURLFiltering: the class is vManage's; with the AWI connector the source refuses at once.
- Translator.AwiGrpcProtocolsAndPortsToCompute: also stands for `AwiGrpcProtocolsAndPortsToVmanage`, which is the same loop over another result type.
- Pods.GetSourceDataForKubernetesLabels: a listing that fails ends the selection with an error; only successful listings are modelled.
- Queue.Manager.ProcessRequest: the login after a login error and the pause before a resend are left out.
- Deletion of app connections in the cloud and Kubernetes branches, services and their source ranges, and the sources and destinations selected by subnets or instances: lookups without bookkeeping.
- The comparison with an older request when matrices are built: every caller passes none.
- gRPC handlers, validation, SLA and policy tables, field-by-field converters: they add only easy members.
