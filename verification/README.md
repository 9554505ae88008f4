# Verification of the initra server template

A Dafny model of five parts of the repository, with proofs about all inputs, all runs or all
interleavings. `dafny verify dfyconfig.toml` checks everything.

| files | part of the program |
|---|---|
| `Protocol`, `IdentityCache`, `PolicyConvergence`, `AccessControl`, `PolicyRules` | identity cache, policy loading and policy synchronisation between server instances (`internal/accesscontrol`) |
| `YamlTree`, `YamlNode`, `Rename`, `Slug`, `SetupRun`, `SetupPlan`, `SetupContents`, `SetupTool` | the setup tool (`tools/setup`) and the slug test of the server (`internal/boot/config.go`) |
| `EagerLoad`, `Mutation`, `BulkCreate` | the builder code generated by ent, with SysMenu as the representative entity (`internal/data/ent`) |
| `Shutdown` | application start, run and shutdown (`internal/boot/lifecycle.go`) |
| `Transaction` | `WithinTx` and `Client.Tx` (`internal/data/tx.go`, `internal/data/ent/client.go`) |
| `Prelude` | option and result types, trimming, order-preserving deduplication |

How the parts are modelled:

- The identity cache and policy protocol is a transition system. A step is one atomic interaction with
  the database, the Redis cache, the channel or an enforcer. Calls of `ResolvePrincipal` and `NotifyChanged`
  are records with a program counter, so that any number of them can overlap in any way. Time is an
  abstract clock; every outside call may fail. `AccessControl` holds the same code as objects that are updated
  in place, and each of its methods is proved to do what its schedule of protocol steps does.
- Shutdown is a transition system of one main goroutine, the drain goroutines and the result channel.
- Everything else is sequential. Code that changes objects, arrays of nodes or files is a class or a method
  with a loop, proved equal to a function on values; the promises are lemmas about these functions.
- File operations, driver requests, hooks, checks, random values, the YAML and `go.mod` formats and the
  directory listing are parameters. Faults are parameters too: a theorem covers every pattern of failures.

What the proofs brought to light. Each promise that does not hold as it stands comes with a run or an
input that breaks it and the exact condition under which it holds:

- `NotifyChanged` makes later answers fresh exactly when no load that read the user before the commit is
  still about to write the cache (`FreshIffNoStaleReader`); a run that reaches the bad state is
  `StaleReaderIsReachable`.
- Policy changes reach every subscribed instance in every run exactly when no two instances share a
  non-blank instance id (`ConvergesIffNoCollision`); otherwise one of them can miss a change for as long as
  there is no other (`CollisionDiverges`). The default id is one constant for all instances
  (`internal/boot/config.go:217`).
- The dedup key of `LoadPolicyRules` keeps every rule exactly when no two different rules share a key
  (`CompleteIffKeysSeparate`), which holds for role codes without NUL (`KeyInjective`). A PostgreSQL text
  cannot hold that character, so `NulConfusesKeys` shows a limit of the key, not of the stored data.
- `yamlSet` leaves unrelated paths alone exactly when no mapping that carries the null tag on the way holds
  something readable outside the path (`FrameIff`, `NullTaggedMappingIsLost`).
- The twelve conditional renames are one simultaneous substitution exactly when the new slug is not the old
  one with `_dev` or `_test` appended (`ChainIsSubstIff`); accepted slugs have no underscore. Renaming back
  restores a value exactly when it was not already a new name (`SubstBackIff`).
- A `ClearChildren` takes effect before all batched edits, wherever it was called. The written order is
  respected exactly when no id was overtaken by it (`ClearOrderIff`).
- A bulk create checks the builder's own mutation. What is inserted has passed every check exactly when the
  hooks hand on that mutation or an equal one (`CheckedIff`, `ReplacedIsUnchecked`).
- `created_by` written directly on the mutation is both set and cleared exactly after a Clear and a later Set
  that nothing undid (`SetAndClearedIff`). Through the update builder that cannot happen, but an Add after a
  Clear leaves the field cleared and added to (`BuilderExclusive`).

Two more observations, outside what the code promises: when setup cannot print its closing lines it returns
an error with every change in place, and a new password is then never shown (`SetupTool.Setup`, `SetupIdempotent`);
and a callback of `WithinTx` that uses the root client escapes its own transaction (`OuterClientEscapes`),
for which only the sufficient condition of using its own client is given (`AtomicCall`), beside the statement
about each single transaction (`EveryTransactionEnds`).

## Model

| member | source | states |
|---|---|---|
| Protocol.Apply | internal/accesscontrol/accesscontrol.go:141-304 | one atomic step of any call or instance; no step forgets a committed version or a call, or turns the clock back |
| Protocol.Exec | internal/accesscontrol/accesscontrol.go:141-304 | a run; the same for runs |
| Protocol.ExecAppend | internal/accesscontrol/accesscontrol.go:141-304 | runs of the protocol compose: a run in two halves is the run of the whole |
| IdentityCache.Provenance | internal/accesscontrol/accesscontrol.go:145-213 | inductive over every run: every cached, in-flight or returned identity joins a user part of one committed version with a role part of the same or a later one, and an answer that missed the cache is not older than its call |
| IdentityCache.ProvenanceFromInit | internal/accesscontrol/accesscontrol.go:145-213 | every answer of every run from the start: `Absent` only for a user that one committed version does not show, otherwise that version's row of the user with the role codes of the same or a later version, and after a cache miss not older than the call |
| IdentityCache.StalenessBound | internal/accesscontrol/accesscontrol.go:145-175 | if every cache write happens within d of its first read, a cache hit answers with data younger than TTL + d |
| IdentityCache.InvalidationFreshens | internal/accesscontrol/accesscontrol.go:216-226 | after an unlink with no stale load in flight, every call begun later, in every continuation, answers with the committed version or a later one |
| IdentityCache.StaleReaderDefeats | internal/accesscontrol/accesscontrol.go:145-226 | with a stale load in flight there is a continuation in which a later call answers with older data |
| IdentityCache.FreshIffNoStaleReader | internal/accesscontrol/accesscontrol.go:141-226 | the invalidation is effective in all continuations if and only if no stale load is in flight |
| IdentityCache.StaleReaderIsReachable | internal/accesscontrol/accesscontrol.go:145-226 | a concrete run from the start that reaches an unlink with a stale load in flight |
| PolicyConvergence.ExecKeeps | internal/accesscontrol/accesscontrol.go:216-304 | without shared ids, over every run: each acknowledged policy change is loaded at its caller, and for every subscription that was and is live it is loaded, waiting in the inbox, or lost to a reload that failed and was logged |
| PolicyConvergence.PublishKeeps | internal/accesscontrol/accesscontrol.go:227-246 | a publish that returns nil covers its whole audience: the others by the event, the caller by the reload before it |
| PolicyConvergence.ConsumeKeeps | internal/accesscontrol/accesscontrol.go:266-291 | consuming a message loses no coverage, of this subscription or another; skipping one's own events is sound |
| PolicyConvergence.DrainedEnforcesHead | internal/accesscontrol/accesscontrol.go:216-304 | with an empty inbox and no failed reload an instance enforces the head policy itself |
| PolicyConvergence.CollisionDiverges | internal/accesscontrol/accesscontrol.go:282-284 | two instances with the same non-blank id: a run in which one of them misses an acknowledged change; in every continuation without another policy change it keeps the older policy and the state is unconverged while it listens |
| PolicyConvergence.ExecMissed | internal/accesscontrol/accesscontrol.go:266-291 | no step but another policy change makes such an instance load its policy |
| PolicyConvergence.ConsumeMeans | internal/accesscontrol/accesscontrol.go:274-289 | a consumed message is gone and makes the instance load the head policy exactly when it asks for that and is not its own |
| PolicyConvergence.StopMeans | internal/accesscontrol/accesscontrol.go:307-316 | Close stops the remembered subscription and leaves the others, the enforcer and the rest as they were |
| PolicyConvergence.ConvergesIffNoCollision | internal/accesscontrol/accesscontrol.go:216-304 | every run converges if and only if no two instances share a non-blank id |
| AccessControl.Cluster.LoadPrincipal | internal/accesscontrol/accesscontrol.go:177-213 | the two queries are the protocol's two read steps, on every error path; what they load is what the database says of the user now |
| AccessControl.Cluster.ReadCache | internal/accesscontrol/accesscontrol.go:145-159 | hit, miss, undecodable payload (unlinked, then an error) and read error as in the protocol |
| AccessControl.Cluster.Refill | internal/accesscontrol/accesscontrol.go:161-174 | load and cache write are the protocol's remaining steps |
| AccessControl.Cluster.ResolvePrincipal | internal/accesscontrol/accesscontrol.go:141-175 | a whole undisturbed call is exactly its schedule of protocol steps, whatever fails; it is an error exactly when a call that is made fails; a live entry is the answer; without one the answer is what the database says of the user now, role codes included, and is cached for the whole TTL |
| AccessControl.ColdCall | internal/accesscontrol/accesscontrol.go:161-174 | without a live entry, when everything succeeds: the head version's row and role codes are returned, and cached until now + TTL |
| AccessControl.ErrorIff | internal/accesscontrol/accesscontrol.go:145-174 | exactly which failing outside calls make it an error, depending on the entry and on the user's existence |
| AccessControl.Cluster.ResolveUser | internal/accesscontrol/accesscontrol.go:145-175 | the same for a positive id: the cache, then the database |
| AccessControl.Cluster.ReloadPolicy | internal/accesscontrol/accesscontrol.go:293-304 | loads the head policy, or, exactly when the enforcer is unbound or the load fails, is an error and changes nothing |
| AccessControl.Cluster.Deliver | internal/accesscontrol/accesscontrol.go:243-245 | a published message joins the inbox of every subscribed instance, the sender included |
| AccessControl.Cluster.ReloadAndPublish | internal/accesscontrol/accesscontrol.go:227-246 | the reload precedes the publish and an error of either ends the call |
| AccessControl.Cluster.NotifyChanged | internal/accesscontrol/accesscontrol.go:216-247 | a whole undisturbed call is exactly its schedule of protocol steps, whatever fails; it returns nil exactly when every call that is made succeeds, and then the positive ids are unlinked, the head policy is loaded here if asked for, and every live subscription has received the event |
| AccessControl.Cluster.Notify | internal/accesscontrol/accesscontrol.go:216-247 | the code of NotifyChanged, equal to its schedule |
| AccessControl.AckedMeans | internal/accesscontrol/accesscontrol.go:216-247 | what an undisturbed call that returned nil has done to cache, enforcer and inboxes |
| AccessControl.AckedIff | internal/accesscontrol/accesscontrol.go:216-247 | exactly when it returns nil |
| AccessControl.Cluster.Start | internal/accesscontrol/accesscontrol.go:250-264 | subscribes, or fails and changes nothing; without Redis nothing to do; a further call leaves the earlier subscription running |
| AccessControl.Cluster.ConsumeOne | internal/accesscontrol/accesscontrol.go:274-289 | one message is one consume step: the policy is reloaded exactly when the message asks for it and does not carry this instance's own non-blank id; a failed reload is only noted |
| AccessControl.Cluster.React | internal/accesscontrol/accesscontrol.go:276-289 | what a received message makes of the policy here |
| AccessControl.Cluster.ConsumeChanges | internal/accesscontrol/accesscontrol.go:266-291 | any number of messages handled in order are the run of their consume steps; then the consumer may end because its context is done or the channel closed |
| AccessControl.Cluster.Leave | internal/accesscontrol/accesscontrol.go:269-275 | the end of a consumer |
| AccessControl.Cluster.Close | internal/accesscontrol/accesscontrol.go:307-316 | ends the remembered subscription and no other, returns its error and forgets it; a second call does nothing |
| AccessControl.UniqueUserIDs | internal/accesscontrol/accesscontrol.go:318-332 | exactly the positive ids, each once, in order of first occurrence |
| Prelude.DistinctMeans | internal/accesscontrol/accesscontrol.go:318-332 | the deduplication keeps exactly the wanted elements, once each, in order of first occurrence |
| PolicyRules.LoadPolicyRules | internal/accesscontrol/accesscontrol.go:102-138 | an error exactly when a query that is made fails; otherwise, with NUL-free role codes, exactly the granted (role code, trimmed permission) pairs, each once, in first-occurrence order of the join |
| PolicyRules.LoadGraph | internal/accesscontrol/accesscontrol.go:102-112 | eager loading of both edges yields the nested-loop join of the active rows, unless a query that is made fails |
| PolicyRules.LoadRelations | internal/data/ent/sysrole_query.go:486-515 | the relation query with its nested menu query: every fetched relation with its menu; menus are asked for only if there are relations |
| PolicyRules.FetchedSuffices | internal/data/ent/sysrole_query.go:499-502 | restricting the relation query to the loaded roles loses none of their relations |
| PolicyRules.CollectRules | internal/accesscontrol/accesscontrol.go:117-137 | the loops with the seen map keep the first rule of each key, in order |
| PolicyRules.CollectRole | internal/accesscontrol/accesscontrol.go:120-136 | the same for the relations of one role, continuing an earlier result |
| Prelude.TrimSpaceMeans | internal/accesscontrol/accesscontrol.go:125 | trimming cuts white space, all of it and nothing else, from both ends |
| PolicyRules.GraphMeans | internal/accesscontrol/accesscontrol.go:102-137 | a rule is in the join if and only if an enabled role grants it through undeleted rows |
| PolicyRules.KeyInjective | internal/accesscontrol/accesscontrol.go:130 | NUL-free role codes make the key injective |
| PolicyRules.CompleteIffKeysSeparate | internal/accesscontrol/accesscontrol.go:130-135 | no rule of the join is dropped if and only if different rules have different keys |
| PolicyRules.FirstOfKeyCovers | internal/accesscontrol/accesscontrol.go:130-135 | every key of the join is represented in the result |
| PolicyRules.NulConfusesKeys | internal/accesscontrol/accesscontrol.go:130 | tables with a NUL in a role code and a permission: two granted rules of which one is missing from the result (a PostgreSQL text cannot hold that character) |
| EagerLoad.LoadMany | internal/data/ent/sysmenu_query.go:529-591 | every outcome of loadChildren and loadRoleMenus: query error, foreign-key error exactly when some row refers to no node, else the join |
| EagerLoad.IndexNodes | internal/data/ent/sysmenu_query.go:531-538 | empty edges and the map from id to the last node with that id |
| EagerLoad.Assign | internal/data/ent/sysmenu_query.go:547-558 | one row is appended to the one node it refers to, or is an error |
| EagerLoad.AssignRows | internal/data/ent/sysmenu_query.go:549-560 | the loop: the join with all rows, or an error exactly when some row refers to no node |
| EagerLoad.AssignNext | internal/data/ent/sysmenu_query.go:549-559 | one turn extends the join by one row |
| EagerLoad.LoadManyFrom | internal/data/ent/sysmenu_query.go:480-493 | with distinct node ids and an honest IN query only the query itself can fail, and each node holds exactly the rows of the table that refer to it, in query order |
| EagerLoad.EveryRowLandsOnce | internal/data/ent/sysmenu_query.go:547-558 | the edges of all nodes together are the fetched rows, each exactly once |
| EagerLoad.WhereInReferring | internal/data/ent/sysmenu_query.go:542-545 | restricting the query to the node ids loses no referring row and keeps the order |
| EagerLoad.LoadOne | internal/data/ent/sysmenu_query.go:497-528 | every outcome of loadParent: each distinct key asked once, no query without keys, error on an unasked row, else the lookup |
| EagerLoad.GroupByKey | internal/data/ent/sysmenu_query.go:498-509 | the keys once each in first-occurrence order, and all nodes grouped under their key |
| EagerLoad.AssignGroup | internal/data/ent/sysmenu_query.go:518-526 | a returned row goes to every node with its key and to no other |
| EagerLoad.AssignAll | internal/data/ent/sysmenu_query.go:523-525 | every node of the group gets the row |
| EagerLoad.LoadOneFrom | internal/data/ent/sysmenu_query.go:474-479 | with an honest IN query only the query itself can fail, and each node gets the row of its key from the whole table, or nothing when it has no key or the row is absent or filtered out |
| EagerLoad.LookupFiltered | internal/data/ent/sysmenu_query.go:513-517 | restricting the query to the asked ids does not change the lookup of an asked id |
| YamlTree.GetAfterSet | tools/setup/main.go:313-359 | after a successful yamlSet, yamlString at the same path reads the value |
| YamlTree.NodeAfterSet | tools/setup/main.go:313-341 | after a successful yamlSet the path leads to a string scalar with that value, tag !!str and no children |
| YamlTree.NodesAbove | tools/setup/main.go:324-340 | the nodes above it are mappings: those that were keep tag and keys in order, the others are new |
| YamlTree.NodeFrame | tools/setup/main.go:313-341 | on a tree without explicit null tags on mappings every unrelated path leads to the very same subtree as before, or to nothing as before |
| YamlTree.FindKeyFirst | tools/setup/main.go:331-333 | the search for a key passes over no equal one |
| YamlTree.FrameIff | tools/setup/main.go:313-359 | after a successful yamlSet every unrelated path reads as before if and only if no null-tagged mapping on the way holds something readable elsewhere |
| YamlTree.SetFrame | tools/setup/main.go:313-359 | the frame for one unrelated path |
| YamlTree.WellFormedSpares | tools/setup/main.go:324-327 | trees without explicit null tags on mappings always satisfy the frame condition |
| YamlTree.NullTaggedMappingIsLost | tools/setup/main.go:324-327 | a tree on which setting one key loses another |
| YamlTree.UnrelatedMeans | tools/setup/main.go:313-359 | unrelated means that neither path is a prefix of the other |
| YamlTree.SetKeepsShape | tools/setup/main.go:313-341 | even-length mappings and well-formedness are kept |
| YamlTree.SetFailsIff | tools/setup/main.go:328-330 | yamlSet fails if and only if a proper prefix of the path names something that is neither null nor an object |
| YamlTree.SetWhereGet | tools/setup/main.go:313-359 | where yamlString reads something, yamlSet succeeds |
| YamlNode.Node.YamlString | tools/setup/main.go:343-359 | on a heap of nodes without sharing or cycles it reads the path of the tree |
| YamlNode.Node.YamlSet | tools/setup/main.go:313-341 | in place: the tree becomes the function's result and stays free of sharing; on an error the whole tree is unchanged |
| YamlNode.Node.SetInner | tools/setup/main.go:320-340 | the same from the unwrapped node on |
| YamlNode.Node.SearchKey | tools/setup/main.go:331-335 | finds the first key equal to the wanted one |
| YamlNode.Node.SetKey | tools/setup/main.go:331-340 | replace the value under an existing key, or append |
| YamlNode.Node.SetFirst | tools/setup/main.go:314-319 | an empty document receives its root first |
| YamlNode.Node.SetRoot | tools/setup/main.go:314-319 | a document passes the call on to its root |
| YamlNode.Node.SetChild | tools/setup/main.go:331-335 | recursing into an existing value changes only that value |
| YamlNode.Node.AppendChild | tools/setup/main.go:336-340 | an absent key is appended with a fresh value, which cannot fail |
| Rename.RenameValueIn | tools/setup/main.go:373-378 | the conditional update in place, error included |
| Rename.RenamePathIn | tools/setup/main.go:364-368 | the loop over the suffixes, stopping at an error |
| Rename.RenameConfigIn | tools/setup/main.go:362-371 | the loop over the paths, stopping at an error |
| Rename.ChainIsSubstIff | tools/setup/main.go:364-368 | three conditional renames in a row equal the simultaneous substitution for every value if and only if they do not feed each other |
| Rename.UnderscoreNeverFeeds | tools/setup/main.go:112-114 | a new slug without underscore never feeds |
| Rename.RenameConfigSubstitutes | tools/setup/main.go:362-371 | renameConfig substitutes simultaneously at its four paths, changes nothing readable elsewhere, and cannot fail with a non-empty old slug |
| Rename.SubstBackIff | tools/setup/main.go:364-368 | renaming there and back restores a value if and only if it was not already a new name |
| Rename.RenameRoundTrip | tools/setup/main.go:362-378 | the same for all four paths of a document; every unrelated path is restored |
| Slug.NormalizeSlug | tools/setup/main.go:292-311 | the code computes the normal form |
| Slug.Build | tools/setup/main.go:294-306 | the loop with builder and separator flag is the scan |
| Slug.NormalizeYieldsSlug | tools/setup/main.go:292-311 | every result is empty or matches [a-z][a-z0-9]*(-[a-z0-9]+)* |
| Slug.FixedPoints | tools/setup/main.go:292-311 | the fixed points are exactly the empty string and that language |
| Slug.Idempotent | tools/setup/main.go:292-311 | normalising twice is normalising once |
| Slug.NormalizeSpells | tools/setup/main.go:292-311 | what becomes of any text: its letters and digits in order, lower-cased, one hyphen between two of them exactly when white space, a hyphen, an underscore or a dot stands in between, and `app-` before a leading digit |
| Slug.AcceptedSlugs | tools/setup/main.go:112-114 | plan accepts exactly the slugs of at most 48 characters |
| Slug.IsSafeAppSlug | internal/boot/config.go:326-338 | accepts exactly the trimmed lower-case labels of 1 to 63 characters with inner hyphens |
| Slug.AcceptedIsSafe | internal/boot/config.go:326-338 | the server accepts every slug that plan accepts |
| SetupRun.Run | tools/setup/main.go:49-67 | success: every planned path holds its new content and mode and nothing else changed; failure: every path is as before except those the error names; every reported failure is paid for by an operation that failed, so without faults it succeeds and a single fault is undone completely; temporary files remain only where their removal failed |
| SetupRun.Rollback | tools/setup/main.go:55-64 | the reverse loop never stops early, whatever fails on the way |
| SetupRun.Undo | tools/setup/main.go:57-62 | one rollback step restores its path or leaves it as it was |
| SetupRun.Disk.WriteChange | tools/setup/main.go:256-282 | one change takes effect as a whole or not at all, or leaves a remainder that the error names; it fails only by an operation that failed |
| SetupRun.Disk.CreateFile | tools/setup/main.go:257-267 | the exclusive creation with cleanup |
| SetupRun.Disk.ReplaceFile | tools/setup/main.go:268-281 | the temporary file renamed over the target; an error only when an operation failed |
| SetupRun.Disk.FillAndRename | tools/setup/main.go:273-281 | mode, contents, close, rename: the target changes as a whole, or, only when an operation failed, not at all |
| SetupRun.ForwardStep | tools/setup/main.go:54-66 | each written change extends the part that is in place and disturbs nothing else |
| SetupRun.RollbackStep | tools/setup/main.go:57-62 | each undone change extends the part that is restored |
| SetupRun.RolledBackAll | tools/setup/main.go:55-64 | a finished rollback leaves differences only where the error says so |
| SetupRun.OneFailureRestores | tools/setup/main.go:54-67 | when nothing fails but one write, every path is as before |
| SetupPlan.PlanMeans | tools/setup/main.go:77-254 | as a value: the plan touches exactly the listed files that the edit alters and the absent local files, and makes a password exactly with a new seed |
| SetupPlan.PlanOkIff | tools/setup/main.go:115-254 | with the names known, planning succeeds if and only if every listed file can be edited and each local file exists or can be made |
| SetupPlan.Walk | tools/setup/main.go:116-198 | the directory walk appends a change for every file that differs and stops at the first error |
| SetupPlan.WalkMeans | tools/setup/main.go:116-198 | the proposed changes are exactly the files whose edited contents differ, with distinct paths and the contents that are on disk |
| SetupPlan.WalkOkIff | tools/setup/main.go:116-198 | the walk fails if and only if some listed file cannot be edited |
| SetupPlan.PlanFits | tools/setup/main.go:77-254 | every plan meets what run relies on: distinct paths, old contents as on disk, nothing at the paths to be created |
| SetupPlan.ReplaceAllSame | tools/setup/main.go:141-143 | replacing a prefix by itself changes nothing |
| SetupPlan.SourcesAfterRun | tools/setup/main.go:77-111 | after a successful run, module, name and slug resolve to the new ones again |
| SetupPlan.SetupIdempotent | tools/setup/main.go:49-254 | planning again with the same options on the project a successful run left gives no change and no password, given that this project's edited config.yaml and go.mod read back |
| SetupContents.ReplaceAllMeans | tools/setup/main.go:140-142 | for a text split at every leftmost, non-overlapping occurrence of the old prefix: the replacement is the same parts joined by the new one, and the count of occurrences is the number of gaps |
| SetupContents.SplitExists | tools/setup/main.go:140-142 | every text splits that way |
| SetupContents.FileIsRewritten | tools/setup/main.go:139-185 | the new contents of a listed file: go.mod with the new module; source and documentation with every reference to the old module moved, README.md with the new heading; compose file and configuration renamed when name or slug change; any other file as it was |
| SetupContents.FourRenamed | tools/setup/main.go:361-371 | app.slug, database.dbname, database.application_name and auth.jwt.issuer read the new slug where they held the old one, with its suffix; nothing readable elsewhere changes |
| SetupContents.ConfigIsRenamed | tools/setup/main.go:169-178 | a configuration document: these four, in config.yaml also app.name, and nothing readable elsewhere |
| SetupContents.ComposeIsRenamed | tools/setup/main.go:161-167 | the compose file: name and the environment's POSTGRES_DB, where they are the old slug, and nothing readable elsewhere |
| SetupContents.LocalIsMade | tools/setup/main.go:198-222 | the new local configuration, mode 0600, prints a tree that reads the secret at auth.jwt.secret, the renamed values at the four paths, and the example's everywhere else |
| SetupContents.SeedIsMade | tools/setup/main.go:230-247 | the new local seed, mode 0600, is the seed with the bcrypt hash in its one placeholder |
| SetupContents.PlanIsRight | tools/setup/main.go:77-254 | every change of a plan is such a rewritten file under its old mode or such a local file; a listed file without a change is one that the rewriting leaves alone; every absent local file has its change |
| SetupContents.RunMoves | tools/setup/main.go:49-67 | after the plan was written: every listed file rewritten under its old mode, the absent local files made, everything else as before |
| SetupContents.ResolvedIff | tools/setup/main.go:77-114 | the old and new names are resolved exactly so: module from the option or go.mod, name from the option or config.yaml, slug from the option, else normalised from a changed name, else as it was; and otherwise planning fails |
| SetupContents.EditableIff | tools/setup/main.go:148-185 | with a known old slug and documents without explicit null tags on mappings a listed file can be edited unless it is a document to be renamed that does not parse |
| SetupContents.PlanExistsIff | tools/setup/main.go:77-254 | then a plan exists if and only if every document to be renamed parses, the secret can be set in the example, and the seed has exactly one placeholder |
| SetupTool.Plan | tools/setup/main.go:77-254 | every plan can be handed to run; its names are those the project and the options determine; every change is right (see `SetupContents.PlanIsRight`), a file without one needs none and no other file is touched; a password is made exactly with a new seed; errors in the code's order |
| SetupTool.Setup | tools/setup/main.go:49-75 | the whole tool: a failed plan touches nothing, a failed write is rolled back; a success moves the project (see `SetupContents.RunMoves`) and shows the password; without faults of the disk it never fails to write; when printing fails, the error comes with all changes in place and the password not shown |
| Mutation.SysMenuMutation.AddChildIDs | internal/data/ent/mutation.go:4518-4525 | the ids join the added set |
| Mutation.SysMenuMutation.RemoveChildIDs | internal/data/ent/mutation.go:4538-4546 | the ids leave the added set and join the removed set |
| Mutation.SysMenuMutation.ClearChildren | internal/data/ent/mutation.go:4528-4530 | marks the edge as cleared and keeps the batched edits |
| Mutation.SysMenuMutation.ResetChildren | internal/data/ent/mutation.go:4565-4569 | forgets all edits of the edge |
| Mutation.SysMenuMutation.ChildrenSpec | internal/data/ent/sysmenu_update.go:595-639 | the emitted specification: a clear of all, or of the removed ids, and the added ids |
| Mutation.BatchedIsSequential | internal/data/ent/sysmenu_update.go:595-639 | applying the specification equals running the Adds and Removes since the last Reset one by one, from the old set, or from the empty one after a Clear |
| Mutation.ClearOrderIff | internal/data/ent/sysmenu_update.go:595-639 | for any edits: exactly when the result also respects the place where a Clear was called |
| Mutation.SysMenuMutation.SetMenuType | internal/data/ent/mutation.go:3850-3853 | sets the value and drops the pending addition |
| Mutation.SysMenuMutation.AddMenuType | internal/data/ent/mutation.go:3882-3888 | adds to the pending addition with int16 wrap-around |
| Mutation.SysMenuMutation.ResetMenuType | internal/data/ent/mutation.go:3900-3903 | forgets both |
| Mutation.NumericLog | internal/data/ent/mutation.go:3850-3903 | after any edits: the value is the last Set not followed by a Reset, the addition the wrapping int16 sum of the Adds since the last Set or Reset |
| Mutation.AuditLog | internal/data/ent/mutation.go:4351-4418 | created_by after any edits: the value is the last Set with no later Clear or Reset, the addition the wrapping int64 sum of the Adds since the last other edit |
| Mutation.AuditMark | internal/data/ent/mutation.go:4401-4418 | the clear mark is that of the last Clear or Reset |
| Mutation.SetAndClearedIff | internal/data/ent/mutation.go:4351-4418 | the field is both set and cleared if and only if a Clear that no Reset undid is followed by a Set that no Clear or Reset undid |
| Mutation.SysMenuMutation.SetCreatedBy | internal/data/ent/mutation.go:4351-4354 | sets the value and drops the pending addition; a clear mark stays |
| Mutation.SysMenuMutation.AddCreatedBy | internal/data/ent/mutation.go:4383-4389 | adds to the pending addition with int64 wrap-around; a clear mark stays |
| Mutation.SysMenuMutation.ClearCreatedBy | internal/data/ent/mutation.go:4401-4405 | forgets value and addition and marks the field as cleared |
| Mutation.SysMenuMutation.ResetCreatedBy | internal/data/ent/mutation.go:4414-4418 | forgets value, addition and clear mark |
| Mutation.SysMenuUpdate.SetCreatedBy | internal/data/ent/sysmenu_update.go:264-268 | resets the field, then sets it |
| Mutation.SysMenuUpdate.AddCreatedBy | internal/data/ent/sysmenu_update.go:278-282 | adds without a reset |
| Mutation.SysMenuUpdate.ClearCreatedBy | internal/data/ent/sysmenu_update.go:285-288 | marks the field as cleared and forgets value and addition |
| Mutation.BuilderExclusive | internal/data/ent/sysmenu_update.go:263-288 | through the builder the field is set exactly when the last Set or Clear was a Set, cleared exactly when it was a Clear |
| Mutation.BuilderRunIsAuditRun | internal/data/ent/sysmenu_update.go:264-288 | the builder's calls are edits of the mutation, so its log applies |
| Mutation.MutationCanSetAndClear | internal/data/ent/mutation.go:4351-4418 | the smallest edits that leave both marks |
| BulkCreate.SysMenuCreateBulk.Save | internal/data/ent/sysmenu_create.go:553-609 | for any builders, hooks, defaults, recorded error, assigned ids and driver answer: error, batches, done marks and nodes are those of a plain pass over the builders |
| BulkCreate.SysMenuCreateBulk.FillDefaults | internal/data/ent/sysmenu_create.go:560-563 | every builder takes the defaults for what it does not set itself and keeps what it does |
| BulkCreate.SysMenuCreateBulk.Chain | internal/data/ent/sysmenu_create.go:603-607 | the chain started at the first builder |
| BulkCreate.SysMenuCreateBulk.RunHook | internal/data/ent/sysmenu_create.go:565-605 | the chain from one hook inwards, by recursion on the builders and hooks left |
| BulkCreate.SysMenuCreateBulk.Around | internal/data/ent/sysmenu_create.go:597-600 | one hook around the mutators further in |
| BulkCreate.SysMenuCreateBulk.Core | internal/data/ent/sysmenu_create.go:565-600 | check, specification, rest of the chain, and only then the done mark |
| BulkCreate.SysMenuCreateBulk.Fill | internal/data/ent/sysmenu_create.go:566-576 | type assertion and check before anything is filled in |
| BulkCreate.SysMenuCreateBulk.Continue | internal/data/ent/sysmenu_create.go:575-596 | from a builder that is not the last: the next mutator, then id and done mark |
| BulkCreate.SysMenuCreateBulk.Finish | internal/data/ent/sysmenu_create.go:577-596 | from the last builder: the one batch insert, then id and done mark |
| BulkCreate.SysMenuCreateBulk.Insert | internal/data/ent/sysmenu_create.go:578-585 | one batch with all specifications; a constraint violation is wrapped |
| BulkCreate.SysMenuCreateBulk.MarkDone | internal/data/ent/sysmenu_create.go:589-594 | the node takes the assigned id unless it has its own, and the mutation is done |
| BulkCreate.EndsMeans | internal/data/ent/sysmenu_create.go:553-609 | one batch with every specification in builder order if and only if all builders are admitted; otherwise no batch and nothing marked done; no error exactly when all succeed |
| BulkCreate.BatchMeans | internal/data/ent/sysmenu_create.go:565-600 | when the hooks of all builders pass something on: if every builder is admitted, one batch is inserted that holds exactly what the last hook of each builder passed on; otherwise nothing is inserted and the call fails |
| BulkCreate.SpecMeans | internal/data/ent/sysmenu_create.go:565-574 | a builder is admitted exactly when what its last hook passed on is a SysMenu mutation and its own mutation, as edited until a hook replaced it, passes the check; it then contributes what the last hook passed on |
| BulkCreate.SpecFails | internal/data/ent/sysmenu_create.go:597-600 | a hook that fails before calling next ends the builder with its error |
| BulkCreate.PassExists | internal/data/ent/sysmenu_create.go:597-600 | there is no third case |
| BulkCreate.FateMeans | internal/data/ent/sysmenu_create.go:588-595 | the saved node is what was inserted, with the assigned id exactly when it has none of its own |
| BulkCreate.AscendMeans | internal/data/ent/sysmenu_create.go:597-600 | after the insert the innermost hook that fails is heard, and no error without one |
| BulkCreate.CheckedIff | internal/data/ent/sysmenu_create.go:571-576 | whatever the check, what is inserted has passed it if and only if the hooks hand on the builder's own mutation or an equal one |
| BulkCreate.InsertedIsChecked | internal/data/ent/sysmenu_create.go:571-576 | in particular with hooks that only edit the mutation they are given |
| BulkCreate.ReplacedIsUnchecked | internal/data/ent/sysmenu_create.go:571-576 | otherwise there is a check that the inserted mutation does not pass |
| BulkCreate.WithHooks | internal/data/ent/ent.go:506-537 | the mutator built by the reverse loop acts as one pass down the hooks in their order, the operation, and one pass up; without hooks the operation alone, with an uninitialised hook nothing is executed |
| BulkCreate.Build | internal/data/ent/ent.go:522-527 | the loop from the last hook to the first nests the first hook outermost |
| BulkCreate.NestIsPass | internal/data/ent/ent.go:510-528 | calling the nested mutators is the pass down and up |
| BulkCreate.MutateMeans | internal/data/ent/ent.go:510-528 | the operation gets what the last hook passed on, and the error of the operation or of the innermost failing hook comes back |
| BulkCreate.MutateFails | internal/data/ent/ent.go:522-531 | a hook that fails before calling next keeps the operation from being executed |
| BulkCreate.UseNests | internal/data/ent/client.go:710-712 | hooks added later run inside the earlier ones, before and after the operation |
| Shutdown.SafeInEveryInterleaving | internal/boot/lifecycle.go:70-141 | in every interleaving: phases in order (the worker's Stop ends before any drain begins, resources close one by one after the drains), no start after one that failed, no drain ever blocks on the channel, all drains reported before any close |
| Shutdown.FinishedRun | internal/boot/lifecycle.go:15-141 | at the end: access control, worker, scheduler and server were started in this order, each that is configured exactly once up to the first that failed and none after it; each component that started was drained exactly once and no other, each configured resource closed exactly once, and the joined errors are exactly the failures |
| Shutdown.ExecKeepsBegun | internal/boot/lifecycle.go:15-60 | over every run: a start call was made exactly if its turn has come, the component is configured and no earlier start failed |
| Shutdown.NeverBlocks | internal/boot/lifecycle.go:81-92 | a drain with a result always finds room in the channel |
| Shutdown.ClosingAfterReports | internal/boot/lifecycle.go:110-114 | while resources close every launched drain has reported and the channel is empty |
| Shutdown.EveryRunEnds | internal/boot/lifecycle.go:15-141 | every interleaving is finite, and until the end some goroutine can go on |
| Transaction.Database.WithinTx | internal/data/tx.go:11-32 | the in-place code equals the specification for every callback and every driver, and keeps histories, open transactions and rows in agreement |
| Transaction.Database.Call | internal/data/tx.go:11-32 | running a callback that may write, fail, panic, recover and nest |
| Transaction.Database.Begin | internal/data/ent/client.go:148-155 | opens one transaction with a new identity, or is refused and opens none |
| Transaction.Database.Put | internal/data/ent/tx.go:222-224 | a write stays inside its open transaction; through the root client it is visible at once |
| Transaction.Database.Commit | internal/data/ent/tx.go:74-87 | ends an open transaction; its rows appear, or not, as the driver decides |
| Transaction.Database.Rollback | internal/data/ent/tx.go:130-143 | ends an open transaction without a trace in the rows, even when the driver reports an error |
| Transaction.EveryTransactionEnds | internal/data/tx.go:11-32 | every transaction begun during a call, at any depth, is completed exactly once, by a commit exactly when its callback returned nil, and its writes are visible as a whole or not at all |
| Transaction.WithinKeepsSound | internal/data/tx.go:11-32 | for every callback and driver the open transactions afterwards are those from before |
| Transaction.AtomicCall | internal/data/tx.go:11-32 | a callback on its own client: the database gains exactly the callback's effect if it returned nil and the commit took, else nothing; one transaction; errors wrapped and panics handed on as in the code |
| Transaction.NestedNeverBegins | internal/data/ent/client.go:148-151 | a callback that uses transactional clients only, at any depth and with any nested calls: no transaction is begun or completed, no row becomes visible, and the nested bodies make no difference |
| Transaction.RunScoped | internal/data/tx.go:24 | running a callback on its own client stages exactly its effect in its own transaction |
| Transaction.SeriesIsSumOfCommitted | internal/data/tx.go:11-32 | with a driver that answers, any series of calls leaves exactly the effects of those that returned nil, in order |
| Transaction.OuterClientEscapes | internal/data/tx.go:11-32 | a callback that fails after a nested call on the root client has committed |

## Left out

- Casbin, Redis, PostgreSQL, sqlgraph, yaml.v3, modfile and bcrypt are abstract: `LoadPolicy` is atomic, a Redis command that fails has no effect (a failed publish may still have been delivered), storage applies edge clears before edge adds, an edited document that is printed and parsed again reads as edited.
- Policy changes between the initial policy load and the subscription, messages Redis loses, and messages left in the inbox when a subscription ends: coverage is stated for subscriptions that were live at the publish and still are.
- SetupPlan.SetupIdempotent: assumes of this project that config.yaml parses to a tree without an explicit null tag on a mapping, and that it, as edited, and go.mod, with the new module path, read back at the fields that name the project.
- SetupContents.ConfigIsRenamed: like the other lemmas about rewritten documents, for trees without an explicit null tag on a mapping; what yamlSet loses otherwise is FrameIff.
- SetupContents.PlanExistsIff: for a config.yaml that names the old slug; with an empty one every absent field counts as the old slug and is created, and `SetupPlan.PlanOkIff` says what decides.
- SetupRun.Run: assumes that nobody else writes the project meanwhile and that each planned new content of an existing file is not a nil slice, which holds for everything plan produces.
- Transaction.SeriesIsSumOfCommitted: for callbacks that use their own client only; with other clients EveryTransactionEnds holds instead.
- Panics inside commit and rollback hooks or the driver's own commit and rollback; the repository registers no such hooks. Clients kept beyond the end of their callback. Locks and isolation between concurrent transactions.
- AccessControl.Cluster.ResolvePrincipal: the object form of one undisturbed call; overlapping calls are the subject of Protocol and its theorems.
- Marshalling of cached identities, user ids in the event payload (consumers do not read them), key building, logging.
- Text is modelled as sequences of characters, not as UTF-8 bytes; `strings.ToLower` only as far as its result can be kept by the normaliser.
- Symbolic links, walk errors, umask, YAML anchors, aliases and comments.
- The parent edge and its Clear and Reset (ResetParent leaves the cleared mark behind), the role_menus edge (same template as children), the other entities, delete builders, scan, assign and predicate code.
- BulkCreate.SysMenuCreateBulk.Save: a hook calls next at most once, acts on the mutation it is given, and never hides an error of next.
- Shutdown.FinishedRun: real time is left out; a deadline shows only as a component's shutdown that returns an error.
- Config validation and defaults, banner, providers, bootstrap and the HTTP modules: straight-line checks and wiring.
