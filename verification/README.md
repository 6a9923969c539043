# Alethia: the declarative reconciler and its neighbours, in Dafny

`alethia plan` and `alethia apply` bring a project on the control plane to what `alethia.yaml` declares;
`alethia export` writes a project as that file. This project models them as they are written in the
CLI — with the server's own read, merge and concurrency rules as explicit state — and proves what a user
relies on over whole runs. Beside them it models the kubeconfig merge and its lock, the credential mint
and its cache, and the OpenFGA dual-write.

`dafny verify dfyconfig.toml` checks everything.

## How it is laid out

- **Values** — `Values`, `Ordering`, `FieldDiffs`, `Addons`: decoded YAML/JSON values and the equality
  `plan` compares them by; the diff of declared fields and the request body it becomes; the add-on diff and
  request, and what the server makes of both. `Arrange` stands for Go's unspecified map order: nothing proved
  depends on the order it picks.
- **The server** — `ControlPlane`, `Clients`, `ServerInvariants`: one project's environments, component rows
  with revisions, add-ons and jobs. Every request of the client is a step on that state. A `World` says what
  others write just before each request and between a request's own lookups and its service — environments they
  create and delete included — whether a request is delivered, refused, or served and its answer lost, and how
  each job ends; every theorem quantifies over it.
  `history` remembers what each revision stood for, `names` what each environment id was called. `Rules` and
  `CatalogEntry` are the server's schemas: how it reads, refuses or rewrites each field and setting it is sent.
- **plan and apply** — `Plans`, `Planner` (the plan, and the loops that compute it), `Applies`, `Applier` (the
  program a plan stands for, run instruction by instruction, and the loops that perform it), `Commands` (the
  command: plan, narrow, refuse or apply).
- **Theorems about runs, against any world** — `Addressing`, `LostUpdates`, `DeploySafety`.
- **Theorems about runs nobody else interferes with** — `Lookups`, `Progress`, `Tracking`, `QuietPlans`,
  `Convergence`, `Resumption`, `Completion`; requests may still fail at any point.
- **export** — `Credentials`, `Exports`, `AllowList`, `RoundTrip`.
- **The rest** — `Conflicts`, `Kubeconfig`, `KubeconfigLaws`, `KubeLock`, `MintPoll`, `TokenCache`, `TupleSync`.

Where the source changes things step by step there is a method proved equal to, or against, a specification
function; the laws are proved of the function.

## What the proofs found

- A `provider_config` with an empty-string key is sent as a replacement of the whole field
  (`apps/cli/cmd/apply_diff.go:199` reads an empty key as "whole field"), so one apply does not settle it. `SettlesIff` is the
  exact condition under which one update leaves nothing to plan, `CreatedIsDeclaredIff` that of a create, and
  `DeclOkIff` that of a declaration every request settles.
- A cluster declared with both `node_size` and `instance_types` passes validation, and where the row has the one the
  plan sends only the other: the server then clears the first (`apps/console/lib/cloud-providers/node-sizing.ts:110-126`),
  the next apply sends it back, and so on for ever, every apply succeeding (`BothSizesNeverSettle`). So an update can
  also clear the one sizing field the file does not declare (`ApplyReconciles`).
- A new cluster that declares `instance_types: []` and no size is given the cloud's default type
  (`apps/console/lib/cli/project-components.ts:1316-1337`), so the next plan is an update (`EmptyTypesAreStamped`).
- An add-on setting is stored as its schema reads it (`apps/console/app/server/actions/addons.ts:198`): `replicas: "3"` is stored as
  the number 3, and every later plan shows the change again (`QuotedNumberNeverSettles`). `AddonSettlesIff` and
  `CreateSettlesIff` say exactly which requests settle.
- An add-on `values_file` of nothing but comments declares "no override" (`apps/cli/cmd/apply_addons.go:198-220`; the
  comment above it says the plan refuses what the server would), but its text is sent as it is and the server
  refuses text that is not a mapping
  (`apps/console/app/server/actions/addons.ts:211-217`): an add-on that is not enabled is planned and refused for ever, and
  over a stored override the change is planned for ever and never applied (`CommentsNeverSettle`).
- An environment may be named like the id of another. Once that other is deleted, component and add-on requests
  addressed to its id go to the one of that name (`IdLands` is the exact condition, `NamesakeIsWritten` one such
  request). A deploy is looked up by its id alone and is refused (`DeployTakenIff`).
- An add-on request looks its environment up twice, and the second lookup falls back to the project's default
  environment (`apps/console/app/server/actions/resolve.ts:139-180`). When the environment is deleted between the two,
  the add-on is written to the default one and the answer is that all went well: `EnabledInIff` is the exact
  condition, `DefaultIsWritten` one such request. In every other case a request to a deleted environment is refused
  (`EveryRequestIsWellAddressed`).
- An add-on request carries no revision and is merged over what was stored when it was first looked up: what another
  writes to the same add-on before it is served is lost (`AddonWriteIsLost`). Component updates lose nothing
  (`NoLostUpdate`).
- An integer compares equal to a different one exactly from 2^53 on, but for those below 2^54 that are twice an odd
  number; NaN is not equal to itself; and two keys of a `map[any]any` that print alike make the comparison depend on
  Go's map order, exactly when their values differ (`CollapsesIff`, `ValuesEqualIsEquivalence`, `OrderFreeIff`).
- The mint poll waits out a status it does not know with no deadline (`apps/cli/cmd/clusters_kubeconfig_mint.go:113-127`
  has no default arm): `NeverEndsIff` says exactly when it never returns.
- `resyncRole` clears a subject's tuples on an object before writing each grant, so of several grants of one
  role on one subject and object only the last survives. An allow and a deny at the same scope lose the first
  of the two; the comment at `ee/src/fga-tuple-sync.ts:241-247` calls the clearing coarse but speaks of one grant.
  `ResyncCompleteIff` is the exact condition. The clearing does not ask whose grant a tuple comes from either, so another
  role's grant on the same subject and object goes with it: `OthersSurviveIff` says exactly when it does not.

## Model

| member | source | states |
|---|---|---|
| Values.ExactWithin53Bits | apps/cli/cmd/apply_diff.go:123-172 | an integer within 2^53 is its own double, so canonical numbers are exact there |
| Values.NearestDoubleIsNearest | apps/cli/cmd/apply_diff.go:123-172 | any integer becomes a double, none is nearer to it, and of two equally near ones it becomes the one with the even last bit |
| Values.CanonicalIdempotent | apps/cli/cmd/apply_diff.go:123-172 | making a value canonical twice is making it canonical once, at every depth |
| Values.ValuesEqualMeans | apps/cli/cmd/apply_diff.go:115-121 | two values are equal exactly when they have one canonical form and it holds no NaN |
| Values.ValuesEqualIsEquivalence | apps/cli/cmd/apply_diff.go:115-121 | equality is symmetric and transitive, and reflexive exactly on NaN-free values |
| Values.NumbersCompareByValue | apps/cli/cmd/apply_diff.go:115-172 | numbers of any two kinds, integers within 2^53, are equal exactly when they are the same number |
| Values.CollapsesIff | apps/cli/cmd/apply_diff.go:115-172 | an integer compares equal to a different one exactly when it is 2^54 or more in size, or 2^53 or more and not twice an odd number |
| Values.OrderFreeIff | apps/cli/cmd/apply_diff.go:90-103 | what a `map[any]any` compares as is independent of its iteration order exactly when entries that print alike agree |
| Values.PlainValuePreserves | apps/cli/cmd/export.go:999-1020 | writing whole-number doubles as integers changes neither what `plan` compares, nor plainness, nor NaN-freeness, at any depth |
| Values.WireSettles | apps/cli/cmd/apply_diff.go:115-172 | a value JSON can carry reads back equal to what was sent |
| Ordering.SortIgnoresOrder | apps/cli/cmd/apply_diff.go:105-112 | sorting distinct elements by an order that separates them gives one result for every input order |
| FieldDiffs.DiffKeys | apps/cli/cmd/apply_diff.go:76-86 | the changes of a merged field are exactly the declared keys that differ, in whatever order the map is visited |
| FieldDiffs.DiffFields | apps/cli/cmd/apply_diff.go:54-72 | the result is the sorted set of changes, the same for every map order |
| FieldDiffs.ChangesAreOrdered | apps/cli/cmd/apply_diff.go:105-112 | (field, key) pairs are distinct, so `sortChanges` has one possible result |
| FieldDiffs.DiffMeans | apps/cli/cmd/apply_diff.go:54-72 | the diff has exactly the changes there are, strictly sorted, and is empty exactly when there are none |
| FieldDiffs.ChangedFields | apps/cli/cmd/apply_diff.go:196-211 | the loop's body is the request body `Body`, whose laws follow |
| FieldDiffs.OnlyDifferencesAreSent | apps/cli/cmd/apply_diff.go:196-211 | unless an empty key changed, the body holds declared values that differ and nothing else; a merged field holds exactly its differing keys |
| FieldDiffs.ApplyReconciles | apps/cli/cmd/apply_diff.go:54-211 | after an accepted update a field that differed is the declared one as its schema reads it, a key that differed the declared one, the partner of a sizing field that was set is cleared, and every other field and key — undeclared ones included — is as it was |
| FieldDiffs.SettlesIff | apps/cli/cmd/apply_diff.go:54-211 | the diff after one update is empty if and only if every change can be sent, is accepted — a knob by the cloud of the declared identity, or else of the component's own — and is stored as equal to what was declared, and a size is set only where no types are declared and the other way round |
| FieldDiffs.SentIdentity | apps/console/lib/cli/project-components.ts:1199-1217 | the identity an update's knobs are judged by is the declared one, and the component's own where none is declared |
| FieldDiffs.GoalSettles | apps/cli/cmd/apply_diff.go:54-211 | the state an apply aims for, the server's own rewrites included, differs in nothing from the declaration, is judged by the same identity, and is its own goal |
| FieldDiffs.CreatedIsDeclaredIff | apps/console/lib/cli/project-components.ts:1311-1337 | what an accepted create stores differs in nothing from what it declared exactly when each field is stored as equal, the cluster is sized one way, and no default type is stamped over declared types |
| FieldDiffs.DeclOkIff | apps/cli/cmd/apply_diff.go:54-211 | a declaration passes the check `DeclOk` for a component that is there, or not, if and only if an update settles it from every stored state judged by the same identity and, where it is not there, its create is accepted and settles it |
| FieldDiffs.BothSizesNeverSettle | apps/console/lib/cloud-providers/node-sizing.ts:110-126 | a cluster declared with a size and with types swings between two states, each apply accepted and each undoing the one before |
| FieldDiffs.EmptyTypesAreStamped | apps/console/lib/cli/project-components.ts:1316-1337 | a new cluster declared with no types and no size is stored with the cloud's default type and differs from its declaration |
| Addons.PlanAddons | apps/cli/cmd/apply_addons.go:59-129 | the plans of the add-ons that can be planned, in file order, and a problem exactly when one cannot |
| Addons.CollectAddonChanges | apps/cli/cmd/apply_addons.go:134-170 | an add-on's changes are the sorted set of version, mode, override and settings changes |
| Addons.BuildAddonRequest | apps/cli/cmd/apply_addons.go:256-282 | a create sends everything declared, an update only the changed parts |
| Addons.SettingsSent | apps/cli/cmd/apply_addons.go:155-170 | an update sends exactly the declared settings that differ from their target, a reset's target being the catalog default |
| Addons.WholeFieldsSent | apps/cli/cmd/apply_addons.go:134-153 | version, mode and override are sent exactly when they differ |
| Addons.SettingSettlesIff | apps/cli/cmd/apply_addons.go:155-170 | after the server's merge a declared setting is at its target exactly when it was not sent or its schema reads it as equal, and an undeclared one is kept |
| Addons.OverrideSettlesIff | apps/cli/cmd/apply_addons.go:176-220 | the override compares equal after an accepted update exactly when a sent one can settle |
| Addons.AddonSettlesIff | apps/cli/cmd/apply_addons.go:59-129 | `planAddons` finds an enabled add-on unchanged after its own request if and only if each changed setting is read as equal to the declared one, the settings are consistent, version and mode are taken, and a changed override settles |
| Addons.CreateSettlesIff | apps/cli/cmd/apply_addons.go:59-129 | the same of an add-on that is not enabled and its create, which sends everything |
| Addons.AcceptedIff | apps/console/app/server/actions/addons.ts:179-223 | the server takes the planned update exactly when JSON carries its settings, the schema refuses none of them and finds the result consistent, it takes version and mode, and the override is none or a mapping |
| Addons.UndeclaredIsKept | apps/console/app/api/cli/projects/[id]/addons/reconfigure.ts:79-108 | pin, mode, override and settings the file does not declare keep their stored values, through the schema's own pass over them |
| Addons.CommentsNeverSettle | apps/cli/cmd/apply_addons.go:198-220 | a comment-only `values_file` of an add-on that is not enabled, or over a stored override, is planned and changes nothing |
| Addons.NotKeptAlwaysDiffers | apps/console/app/server/actions/addons.ts:198-223 | a setting its schema reads as something else is a change against whatever can be stored |
| Addons.QuotedNumberNeverSettles | apps/console/lib/addons/catalog.ts:972-974 | `replicas: "3"`, read as the number 3, differs from every state an apply can leave |
| Addons.AddonTargetSettles | apps/cli/cmd/apply_addons.go:59-129 | a sound declaration is planned without a problem, accepted, and unchanged afterwards, from any stored state |
| Addons.AddonDeclOkIff | apps/cli/cmd/apply_addons.go:59-129 | of an add-on that declares a setting, sound means that its create settles it and so does every update planned from whatever is stored |
| ControlPlane.ValuesSurviveTheWire | apps/cli/cmd/apply.go:585-594 | `componentValues` of the listed component is what the row stores, the identity folded back in |
| ControlPlane.Resolve | apps/console/lib/cli/resolve-project.ts:164-193 | a reference resolves to the environment with the id, else the one with the exact name, else the first of the stage with the default one before the others, and to none exactly when nothing matches |
| ServerInvariants.ServeUpdateOk | apps/console/lib/cli/project-components.ts:1428-1455 | a guarded update keeps one row per slot, every revision's meaning and every environment |
| ServerInvariants.ServeAddOk | apps/console/lib/cli/project-components.ts:1231-1375 | an insert or singleton upsert keeps the same |
| ServerInvariants.ForeignWritesOk | apps/console/lib/cli/project-components.ts:1428-1455 | so does any series of writes by others, environments created and deleted included: a revision never changes its meaning, and an id is never given to an environment of another name |
| ServerInvariants.DropEnvOk | apps/console/app/server/actions/projects.ts:3762-3785 | deleting an environment takes what it holds and no name or revision ever given out |
| Plans.FindComponent | apps/cli/cmd/apply.go:570-580 | the first row of the kind and name, and none exactly when there is none |
| Plans.PlanOneComponent | apps/cli/cmd/apply.go:480-516 | the plan of a component: create, or the diff against the row found with the revision it was read at |
| Planner.ComputeEnvironment | apps/cli/cmd/apply.go:451-531 | the plan of an environment, whatever order add-ons are listed in and whoever writes between its reads, or none when a read fails or finds it gone |
| Planner.ComputePlan | apps/cli/cmd/apply.go:405-532 | the loops compute `PlanOf`: the plan of every declared environment and the sorted names of the rest, or none as soon as a read fails |
| Planner.RestrictTo | apps/cli/cmd/apply.go:598-625 | only the named environments stay to be deployed, nothing else changes, and an undeclared name is refused exactly then |
| Applier.FillEnvironmentIDs | apps/cli/cmd/apply.go:1052-1078 | one listing at most completes the ids, or fails |
| Applier.ApplyComponent | apps/cli/cmd/apply.go:946-977 | a planned component makes its one request: add, patch or upsert with the plan's revision |
| Applier.CreateEnvironments | apps/cli/cmd/apply.go:900-926 | the creation loop performs the plan's creations in order and stops at the first failure |
| Applier.ApplyComponents | apps/cli/cmd/apply.go:943-982 | the component loop: a failed create stops the run, a refused update is recorded and the run goes on |
| Applier.ApplyAddons | apps/cli/cmd/apply.go:986-1008 | the add-on loop: every refusal is recorded and the run goes on |
| Applier.ApplyDeploys | apps/cli/cmd/apply.go:1010-1036 | the deploy loop: held-back environments are skipped, a failed job ends a run that waits |
| Applier.ExecuteApply | apps/cli/cmd/apply.go:868-1046 | the whole run performs the program of the plan: same server, same result, success exactly when it ran to its end with no refusal |
| Commands.RunApply | apps/cli/cmd/apply.go:149-185 | the command plans, narrows to `--env`, and applies exactly when there is a plan, every name is declared and no environment has a problem |
| Commands.RefusedWritesNothing | apps/cli/cmd/apply.go:638-650 | otherwise it fails, and the server is as its reads and other writers left it |
| Commands.EveryApplyIsSafe | apps/cli/cmd/apply.go:149-185 | in every apply, whatever others write at any point of it, every request lands as `EveryRequestIsWellAddressed` says and no update sent with a revision is lost |
| Addressing.FillKeepsKnownIds | apps/cli/cmd/apply.go:1066-1071 | an id that is known is never overwritten by the listing |
| Addressing.KnownIdsOk | apps/cli/cmd/apply.go:879-884 | the ids taken from the plan are those of environments of their normalised names |
| Addressing.IdLands | apps/console/lib/cli/resolve-project.ts:164-193 | an id lands in its own environment while that is there; afterwards nowhere, except exactly when another environment has that id for its name |
| Addressing.StepIdsOk | apps/cli/cmd/apply.go:879-939 | every step keeps every id that of an environment of its normalised name |
| Addressing.NamesakeIsWritten | apps/console/lib/cli/resolve-project.ts:164-193 | a sound server on which a component meant for a deleted environment is added to the one named like its id, and reported added |
| Addressing.EnabledInIff | apps/console/app/server/actions/resolve.ts:139-180 | an add-on is written to the environment that was found while that is there; when it has gone since, to the project's default one, and nowhere exactly when there is none |
| Addressing.DefaultIsWritten | apps/console/app/server/actions/resolve.ts:139-180 | a sound server on which an environment is deleted between the two lookups, and its add-on request writes the default environment and answers ok |
| Addressing.DeployTakenIff | apps/console/app/server/actions/projects.ts:2088-2109 | a deploy is taken exactly when it is delivered and the environment with that very id is there when it is looked up and when the job is queued, and is queued for that one |
| Addressing.EveryRequestIsWellAddressed | apps/cli/cmd/apply.go:877-1036 | in every run, whatever others write or delete — between the lookups of one request too — whatever fails and whichever names equal other environments' stages, every request carries an id; a deploy lands in the environment it was planned for or is refused; a component in that one, or in one named like that id once it is gone, or is refused; an add-on where a component would, or in the default environment when that one goes between the lookups |
| LostUpdates.PlanKnowsItsCopies | apps/cli/cmd/apply.go:451-516 | however others write while it reads, a plan's revisions stand for the copies it compared and its ids for environments of its names |
| LostUpdates.UpdateTransition | apps/cli/cmd/apply.go:953-968 | an accepted update with a revision is exactly the planned patch, as the server's rules make it, of exactly the copy the plan read |
| LostUpdates.NoLostUpdate | apps/cli/cmd/apply.go:953-977 | under every interleaving of foreign writes, and wherever it lands, every update sent with a revision makes exactly the planned transition or leaves the row as the other writer left it, and is reported done only in the first case |
| LostUpdates.AddonWriteIsLost | apps/console/app/api/cli/projects/[id]/addons/route.ts:211-234 | what another writes to an add-on after a request for it was looked up, and before it is served, is overwritten with what was read |
| DeploySafety.PhasesInOrder | apps/cli/cmd/apply.go:886-1036 | in every run environments come before components, components before add-ons, add-ons before deploys |
| DeploySafety.StepRefusalsOk | apps/cli/cmd/apply.go:969-999 | the record of refusals is exactly that of the requests refused, environment by environment |
| DeploySafety.DeploysAreSafe | apps/cli/cmd/apply.go:1010-1036 | in every run the deploys queued are those of the environments `--env` keeps and nothing was refused in, in file order, all of them unless the run stops; when it waits each follows the success of the one before |
| Conflicts.ServerSideChanges | apps/cli/cmd/apply_conflict.go:70-91 | names exactly the settings that differ, declared or not, sorted |
| Conflicts.ComponentUpdateRefusal | apps/cli/cmd/apply_conflict.go:29-64 | which report is given for which refusal: a promotion, a destroy, an image build or a deploy in progress with its id and status, a run that has finished, a component removed, re-saved exactly when no setting differs, or changed |
| Conflicts.NothingDiffersIff | apps/cli/cmd/apply_conflict.go:70-91 | without NaN nothing is named exactly when both copies mean the same setting by setting |
| Lookups.ServePlanned | apps/cli/cmd/apply.go:946-968 | the request of a component whose declaration settles given the row — its knobs taken by the cloud of its own identity — planned from the row as it is, is accepted and takes the row's values to their goal |
| QuietPlans.PlanOfQuiet | apps/cli/cmd/apply.go:405-532 | planning leaves an otherwise unwritten server as it is and plans each declared thing from what the server holds under its name |
| Tracking.ExecSlot | apps/cli/cmd/apply.go:943-982 | one component through any stretch of a run: its values stay or become the goal, and are the goal if the run succeeds |
| Tracking.ExecAddon | apps/cli/cmd/apply.go:986-1008 | the same of one add-on |
| Tracking.StepEnv | apps/cli/cmd/apply.go:886-926 | an environment that exists stays as it is, and one that comes to be is as declared |
| Convergence.RunGoesToward | apps/cli/cmd/apply.go:886-1008 | wherever a run stops, every environment, component and add-on is as it was or as the file would have it, and undeclared ones as they were; after success everything declared is as the file would have it |
| Resumption.Further | apps/cli/cmd/apply.go:886-1008 | attempts compose: going toward the goal from a state already on the way is going toward it from the start |
| Resumption.Resumes | apps/cli/cmd/apply.go:886-1008 | after any attempts, failed at any request or served without an answer, a successful apply leaves the environments, component values and add-ons one uninterrupted apply would have left |
| Resumption.SettledOnlyDeploys | apps/cli/cmd/apply.go:868-1046 | applying a plan with nothing to do writes nothing and only deploys |
| Resumption.Converges | apps/cli/cmd/apply.go:405-532 | after a successful apply of a file whose declarations can settle, planning again finds everything unchanged and no problem, and applying again writes nothing |
| Completion.Completes | apps/cli/cmd/apply.go:149-185 | no other writer, no failing request and declarations that can settle: the apply succeeds, and everything declared is as the file would have it, exactly when its plan has no problem and `--env` names declared environments; otherwise nothing is written |
| Credentials.HoldsCredentialIff | apps/cli/cmd/export.go:879-901 | a credential is found exactly when at some path into the value a text, a key or a named pair reads as one |
| Credentials.PlainValueHides | apps/cli/cmd/export.go:999-1020 | writing numbers plainly neither hides a credential nor makes one |
| Exports.ExportProviderConfig | apps/cli/cmd/export.go:782-811 | the keys written are the settable knobs with a plain, clean, non-null value |
| Exports.ExportFields | apps/cli/cmd/export.go:736-777 | the fields written are those the allow-list admits, with the values it admits |
| Exports.ExportComponents | apps/cli/cmd/export.go:633-683 | kinds in schema order, rows still there by name, one row of a one-per-environment kind |
| Exports.ExportAddons | apps/cli/cmd/export.go:1024-1113 | enabled catalog add-ons by id, with pin, mode and admitted settings |
| Exports.ExportEnvironment | apps/cli/cmd/export.go:586-619 | one environment's section from two reads, whatever order add-ons are listed in, or none when a read fails or finds it gone |
| Exports.BuildExport | apps/cli/cmd/export.go:308-370 | the manifest of the chosen environments, in export order, or none as soon as a read fails |
| AllowList.ExportIsAllowed | apps/cli/cmd/export.go:633-811 | whatever the server holds, every written field is schema-declared and non-secret, every written knob settable on the cloud of the very component it is written of, every setting catalog-declared and non-secret, no override is written, and no text, key or named pair at any depth reads as a credential |
| AllowList.DependsOnAllowedOnly | apps/cli/cmd/export.go:736-811 | two components that agree on what the schema and the knobs admit are written alike: nothing else shows through |
| AllowList.AddonDependsOnAllowedOnly | apps/cli/cmd/export.go:1024-1113 | so are two add-ons that agree on their published, non-secret settings, whatever their overrides |
| AllowList.EnvironmentIgnoresOrder | apps/cli/cmd/export.go:633-683 | a section is the same whatever order its components and add-ons are listed in |
| AllowList.EnvironmentsIgnoreOrder | apps/cli/cmd/export.go:452-461 | environments come default first, then by name, however they are listed |
| RoundTrip.WrittenIsUnchanged | apps/cli/cmd/export.go:736-811 | a component's exported values can be sent and differ in nothing from its row |
| RoundTrip.WrittenAddonUnchanged | apps/cli/cmd/export.go:1024-1113 | an exported add-on is planned as unchanged, and its settings can be sent and would be kept |
| RoundTrip.FoundAgain | apps/cli/cmd/apply.go:570-580 | `findComponent` finds the very row a declaration was exported from |
| RoundTrip.ExportRoundTrips | apps/cli/cmd/export.go:308-370 | for every server state, the exported file validates, plans as all unchanged with no problem, and leaves exactly the unexported environments unmanaged |
| RoundTrip.ExportIgnoresOrder | apps/cli/cmd/export.go:308-370 | the manifest does not depend on the order of any of the server's lists |
| Kubeconfig.Node.Find | apps/cli/cmd/clusters_kubeconfig_write.go:76-83 | the place of the first value under a key |
| Kubeconfig.Node.SetScalar | apps/cli/cmd/clusters_kubeconfig_write.go:86-94 | sets the key in place or appends it |
| Kubeconfig.WithMeans | apps/cli/cmd/clusters_kubeconfig_write.go:86-94 | setting a key sets it and moves nothing |
| Kubeconfig.Node.SectionList | apps/cli/cmd/clusters_kubeconfig_write.go:98-112 | an absent or null section becomes an empty list, any other shape than a list is refused |
| Kubeconfig.CompactAndAppend | apps/cli/cmd/clusters_kubeconfig_write.go:164-173 | the in-place compaction is: filter out the entries of that name, then append the incoming one |
| Kubeconfig.Node.Merge | apps/cli/cmd/clusters_kubeconfig_write.go:143-183 | the node tree becomes the merged document, or the merge is refused |
| Kubeconfig.Node.Rename | apps/cli/cmd/clusters_kubeconfig_write.go:118-138 | the node tree becomes the renamed document, or the rename is refused |
| KubeconfigLaws.MergedIff | apps/cli/cmd/clusters_kubeconfig_write.go:155-163 | a merge is refused exactly when the minted document lacks its one entry in a section or the user's section is not a list |
| KubeconfigLaws.MergedMeans | apps/cli/cmd/clusters_kubeconfig_write.go:143-183 | the value of every key of the merged document: sections filtered and appended, `current-context` set, `apiVersion` and `kind` filled in, everything else as it was |
| KubeconfigLaws.NothingElseMoves | apps/cli/cmd/clusters_kubeconfig_write.go:143-183 | every node of the top level that is not an owned key's value stays where it is |
| KubeconfigLaws.MergeIsIdempotent | apps/cli/cmd/clusters_kubeconfig_write.go:143-183 | merging twice is merging once |
| KubeconfigLaws.ContextsStillResolve | apps/cli/cmd/clusters_kubeconfig_write.go:143-183 | every context that resolved to a cluster and a user still does, and so does the new one |
| KubeconfigLaws.RenamedMeans | apps/cli/cmd/clusters_kubeconfig_write.go:118-138 | a renamed document has one entry of the name per section and a context pointing at them, and nothing else changed |
| KubeLock.RunIsSerial | apps/cli/cmd/clusters_kubeconfig_write.go:198-242 | for any processes, interleaving, failures and crashes: one process at a time between lock and unlock, at most fifty attempts each, and the file is the completed merges one after the other |
| KubeLock.NoMergeIsLost | apps/cli/cmd/clusters_kubeconfig_write.go:198-242 | with names of their own, every finished process finds its entries in the file and its context resolves |
| MintPoll.OpenKubeMint | apps/cli/cmd/clusters_kubeconfig_mint.go:132-155 | a credential comes out exactly when it was sealed for this key, mint and cluster, has the tier and shape asked for, and has not expired |
| MintPoll.MintKubeCredential | apps/cli/cmd/clusters_kubeconfig_mint.go:99-129 | the loop ends at the first poll that ends it, and returns a credential exactly when that poll is ready and checks out on arrival |
| MintPoll.PollEnds | apps/cli/cmd/clusters_kubeconfig_mint.go:59-66 | with known statuses some poll of the first 135 ends the wait |
| MintPoll.BoundIsTight | apps/cli/cmd/clusters_kubeconfig_mint.go:59-66 | a server that only says pending, answered at once, is polled 135 times |
| MintPoll.NeverEndsIff | apps/cli/cmd/clusters_kubeconfig_mint.go:113-127 | the wait never ends exactly when nothing ends it before the ceiling and every answer from then on is unknown |
| MintPoll.UnknownNeverEnds | apps/cli/cmd/clusters_kubeconfig_mint.go:113-127 | a server that only gives an unknown status is polled for ever, at the shortest delay |
| TokenCache.Cache.RunClusterToken | apps/cli/cmd/clusters_token.go:92-113 | under the lock: the cached credential while it is fresh, else one mint, cached if it can be and served either way |
| TokenCache.StepsAreTurn | apps/cli/cmd/clusters_token.go:75-113 | the steps of one process in the interleavings make of the cache, print and mint exactly what `runClusterToken` does |
| TokenCache.TurnIsAlone | apps/cli/cmd/clusters_token.go:75-113 | no step of another process between its lock and unlock touches the cache, the lock or what it holds |
| TokenCache.EveryMintIsNeeded | apps/cli/cmd/clusters_token.go:75-113 | in every interleaving one process at a time is under the lock, no mint is made while the cache holds a fresh credential, and everything printed was minted or was fresh in the cache |
| TokenCache.SingleMint | apps/cli/cmd/clusters_token.go:75-113 | from a cold cache, with every credential cached and still fresh, there is at most one mint, everything printed is it, and a finished process has printed |
| TupleSync.Chunk | ee/src/fga-tuple-sync.ts:18-22 | the chunks concatenate to the list, none is empty or over the size, only the last may fall short |
| TupleSync.ReadAllTuples | ee/src/fga-tuple-sync.ts:86-115 | the concatenation of all pages exactly when the walk ends within a thousand of them, an error otherwise, never a part |
| TupleSync.RepeatNeverEnds | ee/src/fga-tuple-sync.ts:99-109 | a token that comes again means the walk would never end, so refusing it loses nothing |
| TupleSync.Store.WriteTuples | ee/src/fga-tuple-sync.ts:274-283 | batches with the tuple-by-tuple fallback are set union, duplicates and tuples already there included |
| TupleSync.Store.DeleteTuples | ee/src/fga-tuple-sync.ts:285-291 | deleting in batches is set difference |
| TupleSync.Store.SyncScopedGrant | ee/src/fga-tuple-sync.ts:357-368 | the subject's tuples on the grant's object are replaced by the expansion exactly when the read of them ends within a thousand pages; otherwise nothing changes |
| TupleSync.ReplacedMeans | ee/src/fga-tuple-sync.ts:357-368 | afterwards the pair has exactly the expansion and every other pair what it had |
| TupleSync.ReplacedTwice | ee/src/fga-tuple-sync.ts:357-368 | syncing a grant twice is syncing it once |
| TupleSync.Store.MemberTuplesInOrg | ee/src/fga-tuple-sync.ts:141-167 | exactly the member's tuples on the org, on the instances the store or the database places in it, and on its teams, exactly when every read behind them ends within a thousand pages |
| TupleSync.Store.RevokeMemberGrant | ee/src/fga-tuple-sync.ts:344-355 | exactly those tuples are removed, exactly when all of them could be read; otherwise none |
| TupleSync.RevokeStaysInOrg | ee/src/fga-tuple-sync.ts:127-140 | a tuple of another subject, or on an object outside the org, survives a revoke |
| TupleSync.Store.ResyncRole | ee/src/fga-tuple-sync.ts:398-432 | the grants are replaced in the order listed, up to exactly the first whose read does not end; it succeeds exactly when there is none |
| TupleSync.LastGrantWins | ee/src/fga-tuple-sync.ts:398-432 | a resync leaves each subject and object with the expansion of the last grant on it alone, and the rest as it was |
| TupleSync.ResyncCompleteIff | ee/src/fga-tuple-sync.ts:398-432 | all of the role's grants are in the store afterwards exactly when the last grant on each pair covers the others |
| TupleSync.OthersSurviveIff | ee/src/fga-tuple-sync.ts:398-432 | the grants of other roles that are in the store are all there after a resync exactly when, wherever the role has a grant on the same subject and object, its last one covers them |
| TupleSync.AllowBeforeDenyIsLost | ee/src/fga-tuple-sync.ts:398-432 | of an allow and then a deny of one subject on one object the allow's tuple is gone |

## Conditions the theorems carry

- Environment names are compared through `NormalizeEnvironmentName`, an idempotent function here.
- `ServerOk` is what the server's tables and schemas guarantee: one row per kind and name (per kind for a
  one-per-environment kind), named rows named, environment names and ids unique and normalised, no id a stage, every
  stored add-on setting one its schema reads as itself. Every step, of this client or of others, is proved to keep it.
- `WorldOk` is what the server promises: ids are not given twice, a schema reads what it has read as itself
  (`EntryOk`), a null size and an empty list of types are read as they are (`RulesOk`).
- A revision belongs to one write. The server's is a time in milliseconds, so two writes within one share it.
- `WellFormed` is a file that validates: environment names distinct once normalised and not empty, no component
  or add-on declared twice, lookup names that fit the schema, no secret setting and no unreadable override.
  `ValidManifest` adds that each declaration is one that one request settles (`DeclOk`, `AddonDeclOk`), whatever is stored
  but for the cloud identity of a component whose declaration names none: convergence, resumability and completion ask
  it of the server they start from, the export round trip does not.
- Disabling an add-on removes its row (`apps/console/app/server/actions/addons.ts:302-322`), so every add-on that is listed is
  enabled and `StoredAddon` has no flag for it.
- Others write before a request arrives and once more within it: between looking its environment up and being served,
  which for an add-on starts with the second lookup. Each half is one step.
- "Nobody else writes" (`Quiet`) is asked of convergence, resumability, completion and the export round trip only.
- A process killed between two requests leaves the server as one whose remaining requests are all refused, so the
  fates a world may deal out cover it.
- `SourceOk`: the published schema and catalog are the server's own, and no template knob has an empty name.
  `StoredJson`: what the server holds came to it as JSON.
- OpenFGA pages its store truthfully: a walk that ends has shown what matches (`PagesTruly`). An expansion lies on
  the grant's own subject and object (`ExpandsInPlace`).

## Left out

- Commands, forms, tables, output formats, prompts, notes and error texts: refusals are kept as kinds, not sentences.
- YAML and JSON text: files are modelled as what they decode to, and marshal-then-parse of an inline override is the identity. Comments and styles of YAML nodes are not modelled; anchors only as nodes of their own kind.
- Go values a decoder does not produce (`[]string` and the like).
- Project-level settings (cloud account, region, IaC version) and the lookup of a project by name: one project is modelled, found or not. The refusal of a new project without a dedicated environment goes with them.
- The choice of a runner and the confirmation of an apply; they come between the plan and the run and write nothing.
- The listing of add-ons a file does not manage.
- The job poll of `--wait`: a job's end is given by the world.
- Run gates are requests refused, and the project's own cloud is the one a component without an identity is judged by: it does not change while a run goes on.
- Columns a client never sees or sets (the cluster's Fabric linkage, generated and stored secrets of add-ons).
- Whether a created environment is the default one is modelled but not among the contents `Resumes` compares.
- The components the console copies into an environment it creates: a created environment is empty here, and its first components are further foreign writes.
- `Normalize` trims white space; names and stages are taken as trimmed. Namespaces of shared environments are not modelled.
- The word lists and Unicode folding behind `isCredentialKeyName`, `isNestedCredentialName` and `stringHoldsCredential`, and `provider_config_keys.json`: predicates of a policy, over which every export theorem quantifies.
- Symbolic links, modes and atomic renames of the files written: a file is one cell.
- HPKE and JWT: sealing is ideal.
- Other tiers and profiles of the token cache: one cluster and tier is modelled; `logout` and the wait limit of the lock appear as a failed acquire.
- `Promise.allSettled` over a transport that fails: the tuple store is reachable.
- `syncMemberGrant`, `backfill` and the hierarchy edges of the tuple sync, which are the same reads and writes; Postgres rows are parameters.
- `can` and `listAccessible` of ee/src/openfga-pdp.ts, whose check builders are outside the files modelled.
- Applier.FillEnvironmentIDs: an id that is listed as empty counts as missing, as in the source, but the server modelled never lists one.
- MintPoll.MintKubeCredential: asks for a poll that ends the loop, because without one the source does not return; `PollEnds` and `NeverEndsIff` say when there is one.
- Exports.ExportEnvironment: the namespace of a shared environment is not modelled.
- Exports.BuildExport: the cloud account, region and IaC version, an unfetchable schema or catalog, and the project's account label are not modelled.
- RoundTrip.ExportRoundTrips: does not promise that one request could bring every other state to the exported file; a row that holds both sizing fields is exported with both.
