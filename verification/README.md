# AuScope portal job and solution core in Dafny

This project models the part of the AuScope Portal API that turns a
Scientific Code Marketplace (SCM) solution into a runnable job and keeps that
job's data. It also models the user-settings endpoints around it.

- `ScmEntryService` (scm_entry_service.dfy) covers:
  - how a solution's and its toolbox's dependencies become the package
    lists of the Puppet template;
  - how a toolbox name is made safe for Puppet (`safeScName`);
  - how solutions are filtered by the configured compute providers;
  - how a job's solution, its images grouped by provider and the providers
    themselves are found;
  - how a cached VM snapshot is looked up.
- `Vegl` (vegl.dfy) covers the job entity `VEGLJob` and its satellites
  `VLJobSolution` (a solution attached to a job), `VglParameter` (a
  name/value pair owned by a solution) and `VglDownload`. Each is a class
  whose fields the methods update in place, with field-level `modifies`
  frames. Modelled operations:
  - the property map;
  - the download, annotation and solution collections, which back-link each
    element to its owner;
  - gathering a job's parameters;
  - `equals` of parameters and solutions, including the paths that throw a
    `NullPointerException`;
  - `clone` of parameters and solutions;
  - `safeClone` of a job.
- `UserController` (user_controller.dfy) covers the rule by which `setUser`
  updates a user's AWS settings and saves them, and the guards of `getUser`
  and `getCloudFormationScript`.
- `Wrappers` (wrappers.dfy) holds `Option`, used for Java values that may be
  `null`.

Modelling conventions:
- A Java reference that may be `null` is either `Option<T>` (values) or a
  nullable class type `C?` (entities).
- Where a `NullPointerException` is part of an operation's observable
  behaviour, it is a result. It is `Eval.NullDereference` for the two
  `equals` methods, `VglParameter.getSolution` and `setAnnotations(null)`.
  It is `None` for `puppetTemplateVars` on a toolbox without a name.
- Iterating a collection that is `null` (in `safeClone`, in
  `VLJobSolution.clone` and in `addSolutionId`) is a precondition.
- Some Java values that may be `null` are not nullable in the model (see
  "Left out").
- The JSON maps of the SCM (`Map<String, String>`) are `map<string, string>`;
  a missing key reads as `None`.
- External services are values passed in:
  - the job manager is a `map<int, JobView>`;
  - the SCM catalogue is a `map<string, Solution>`;
  - the snapshot DAO is a map keyed by (entry id, compute service id);
  - the configured compute services are a sequence of ids;
  - the user DAO is a class recording the users it was asked to save.

Where the code and its documentation disagree, the model follows the code:
`getJobImages` keys its map by every provider named in the toolbox's images,
not only by the configured compute services. `safeScName` strips non-word
characters and nothing more: a name with no word characters becomes the empty
name (`ScmEntryService.SafeScNameEmptyExample`).

## Model

| member | source | states |
|---|---|---|
| ScmEntryService.Dependencies | src/main/java/org/auscope/portal/server/web/service/ScmEntryService.java:336-357 | each of the three lists grows by exactly the entries of its kind, in order: `system` → name, `python` with `path` → requirement, other `python` → name, unknown types dropped |
| ScmEntryService.EntriesAppend | src/main/java/org/auscope/portal/server/web/service/ScmEntryService.java:336-357 | splitting the concatenation of two dependency lists by kind gives the concatenation of the two splits, so two calls equal one call on the joined list |
| ScmEntryService.EntriesMembership | src/main/java/org/auscope/portal/server/web/service/ScmEntryService.java:340-356 | a value is in a kind's list iff some dependency of that kind carries it |
| ScmEntryService.EntriesPartition | src/main/java/org/auscope/portal/server/web/service/ScmEntryService.java:340-356 | every dependency goes to at most one list; the list lengths add up to the dependencies not dropped |
| ScmEntryService.PuppetTemplateVars | src/main/java/org/auscope/portal/server/web/service/ScmEntryService.java:310-334 | a toolbox without a name throws (`None`) before any dependency is read; otherwise `sc_name` is the toolbox's safe name and `source` its source, and each package list is the toolbox's entries followed by the solution's, the same as one pass over both |
| ScmEntryService.MergeScenario | src/main/java/org/auscope/portal/server/web/service/ScmEntryService.java:318-332 | concrete merge: system [gcc, make], python [numpy], requirements [reqs/req.txt] |
| ScmEntryService.SafeScName | src/main/java/org/auscope/portal/server/web/service/ScmEntryService.java:369-371 | the result holds only `\w` characters and is no longer than the name |
| ScmEntryService.SafeScNameAppend | src/main/java/org/auscope/portal/server/web/service/ScmEntryService.java:369-371 | removing non-word characters distributes over concatenation |
| ScmEntryService.SafeScNameOfWordString | src/main/java/org/auscope/portal/server/web/service/ScmEntryService.java:369-371 | a name made only of word characters is returned unchanged |
| ScmEntryService.SafeScNameOfNonWordString | src/main/java/org/auscope/portal/server/web/service/ScmEntryService.java:369-371 | a name with no word characters becomes empty |
| ScmEntryService.SafeScNameIdempotent | src/main/java/org/auscope/portal/server/web/service/ScmEntryService.java:369-371 | sanitising twice equals sanitising once |
| ScmEntryService.SafeScNameIsSubsequence | src/main/java/org/auscope/portal/server/web/service/ScmEntryService.java:369-371 | the safe name keeps the order of the name's characters |
| ScmEntryService.SafeScNameCounts | src/main/java/org/auscope/portal/server/web/service/ScmEntryService.java:369-371 | every word character is kept as often as it occurs, every other character never |
| ScmEntryService.SafeScNameIsWordSubsequence | src/main/java/org/auscope/portal/server/web/service/ScmEntryService.java:369-371 | the safe name is exactly the name's word characters in order |
| ScmEntryService.SafeScNameEmptyExample | src/main/java/org/auscope/portal/server/web/service/ScmEntryService.java:369-371 | `"!!!"` becomes the empty name, with no error |
| ScmEntryService.ProviderOptions | src/main/java/org/auscope/portal/server/web/service/ScmEntryService.java:225-229 | the provider set holds exactly the configured compute service ids and never `null` |
| ScmEntryService.UsefulSolutions | src/main/java/org/auscope/portal/server/web/service/ScmEntryService.java:222-245 | the loop returns the code's result `UsefulAsCoded` over the set of configured service ids |
| ScmEntryService.UsefulAsCodedAppend | src/main/java/org/auscope/portal/server/web/service/ScmEntryService.java:231-242 | the result for a concatenation is the concatenation of the results |
| ScmEntryService.UsefulAsCodedMembership | src/main/java/org/auscope/portal/server/web/service/ScmEntryService.java:231-232 | as coded, every input solution appears in the result, usable or not |
| ScmEntryService.UsefulAsCodedShape | src/main/java/org/auscope/portal/server/web/service/ScmEntryService.java:231-242 | as coded, the input is a subsequence of the result, and the result is longer by the number of usable solutions |
| ScmEntryService.UsefulAsCodedDuplicates | src/main/java/org/auscope/portal/server/web/service/ScmEntryService.java:232-239 | as coded, a usable solution is returned twice, so the result is not a sublist of the input |
| ScmEntryService.UsefulIntendedIsFilter | src/main/java/org/auscope/portal/server/web/service/ScmEntryService.java:218-219 | the intended result is a sublist of the input holding exactly the solutions with an image at a configured provider |
| ScmEntryService.UsefulIntendedIdempotent | src/main/java/org/auscope/portal/server/web/service/ScmEntryService.java:218-219 | filtering the filtered list changes nothing |
| ScmEntryService.UsefulScenario | src/main/java/org/auscope/portal/server/web/service/ScmEntryService.java:222-245 | with only `aws` configured, [aws solution, nectar solution] gives [s1] as intended and [s1, s1, s2] as coded |
| ScmEntryService.GetJobSolution | src/main/java/org/auscope/portal/server/web/service/ScmEntryService.java:253-264 | no job or no solution id gives `null`; otherwise it gives the catalogue's solution for that id, if there is one |
| ScmEntryService.GroupedImages | src/main/java/org/auscope/portal/server/web/service/ScmEntryService.java:276-290 | the keys are exactly the providers named by the images, `null` included |
| ScmEntryService.ProvidersOfSnoc | src/main/java/org/auscope/portal/server/web/service/ScmEntryService.java:283-287 | one more image adds its provider to the key set |
| ScmEntryService.ImageIdsAtSnoc | src/main/java/org/auscope/portal/server/web/service/ScmEntryService.java:284-289 | one more image adds its image id to its own provider's set and to no other |
| ScmEntryService.ImageIdsAtAbsent | src/main/java/org/auscope/portal/server/web/service/ScmEntryService.java:284-288 | a provider named by no image has no image ids |
| ScmEntryService.GroupedImagesSnoc | src/main/java/org/auscope/portal/server/web/service/ScmEntryService.java:281-290 | one loop step of the grouping: the map after one more image, key by key |
| ScmEntryService.GetJobImages | src/main/java/org/auscope/portal/server/web/service/ScmEntryService.java:271-295 | `null` id gives `null`; an unknown job or a job without a solution gives the empty map; otherwise the loop's map equals the grouping of the toolbox's images |
| ScmEntryService.JobImagesComplete | src/main/java/org/auscope/portal/server/web/service/ScmEntryService.java:276-290 | for a job with a solution, `v` is in the set at `p` iff some image has provider `p` and image id `v` |
| ScmEntryService.JobImagesScenario | src/main/java/org/auscope/portal/server/web/service/ScmEntryService.java:281-290 | concrete grouping: aws → {ami-1, ami-2}, nectar → {n-9} |
| ScmEntryService.GetJobProviders | src/main/java/org/auscope/portal/server/web/service/ScmEntryService.java:302-308 | `null` iff the id is `null`; otherwise the key set of `getJobImages`, i.e. the providers named by the job's images |
| ScmEntryService.GetScmEntrySnapshotId | src/main/java/org/auscope/portal/server/web/service/ScmEntryService.java:73-82 | no snapshot for (entry, service) gives `null`; a found snapshot gives its VM id, which belongs to a snapshot of that entry at that service |
| ScmEntryService.SnapshotScenario | src/main/java/org/auscope/portal/server/web/service/ScmEntryService.java:73-82 | a cached snapshot is found for its own service and not for another |
| Vegl.VglDownload.Clone | src/main/java/org/auscope/portal/server/vegl/VEGLJob.java:343-349 | a fresh download with the same id, parent and source |
| Vegl.VglParameter.Empty | src/main/java/org/auscope/portal/server/vegl/VglParameter.java:60-62 | every field is unset |
| Vegl.VglParameter.Named | src/main/java/org/auscope/portal/server/vegl/VglParameter.java:67-69 | name and value set, no id, no owning solution |
| Vegl.VglParameter.Owned | src/main/java/org/auscope/portal/server/vegl/VglParameter.java:71-73 | name, value and owning solution set, no id |
| Vegl.VglParameter.constructor | src/main/java/org/auscope/portal/server/vegl/VglParameter.java:78-84 | all four fields set as given |
| Vegl.VglParameter.GetSolution | src/main/java/org/auscope/portal/server/vegl/VglParameter.java:147-149 | the owning solution's solution id; throws iff there is no owning solution |
| Vegl.VglParameter.Equals | src/main/java/org/auscope/portal/server/vegl/VglParameter.java:155-163 | not a parameter gives false; true iff same owning solution, same name and value, all set; throws exactly when a `null` is dereferenced on the way |
| Vegl.VglParameter.Clone | src/main/java/org/auscope/portal/server/vegl/VglParameter.java:165-172 | a fresh parameter without id, with the same name, value and owner, equal to the original both ways whenever equality is defined |
| Vegl.ParameterEqualsSymmetric | src/main/java/org/auscope/portal/server/vegl/VglParameter.java:155-163 | parameter equality is symmetric |
| Vegl.ParameterEqualsTransitive | src/main/java/org/auscope/portal/server/vegl/VglParameter.java:155-163 | parameter equality is transitive |
| Vegl.OwnerlessParameterEqualsThrows | src/main/java/org/auscope/portal/server/vegl/VglParameter.java:155-163 | a parameter without an owning solution throws when compared, even with itself |
| Vegl.UnownedParametersCompare | src/test/java/org/auscope/portal/server/vegl/TestVglJobParameter.java:23-31 | two parameters built with only a name and value throw when compared |
| Vegl.VLJobSolution.Empty | src/main/java/org/auscope/portal/server/vegl/VLJobSolution.java:54-56 | every field is unset |
| Vegl.VLJobSolution.ForJob | src/main/java/org/auscope/portal/server/vegl/VLJobSolution.java:58-60 | job and solution id set, no id, no parameters |
| Vegl.VLJobSolution.WithId | src/main/java/org/auscope/portal/server/vegl/VLJobSolution.java:62-64 | as written: the id argument is dropped |
| Vegl.VLJobSolution.WithIdKept | src/main/java/org/auscope/portal/server/vegl/VLJobSolution.java:62-64 | as intended: id, job and solution id kept |
| Vegl.VLJobSolution.constructor | src/main/java/org/auscope/portal/server/vegl/VLJobSolution.java:66-72 | all four fields set as given |
| Vegl.VLJobSolution.GetJobParameters | src/main/java/org/auscope/portal/server/vegl/VLJobSolution.java:98-100 | the parameter set, read as empty when unset |
| Vegl.VLJobSolution.SetJobParameters | src/main/java/org/auscope/portal/server/vegl/VLJobSolution.java:102-113 | the set becomes the given one (empty for `null`), and each of its parameters now points back to this solution |
| Vegl.VLJobSolution.AddJobParameter | src/main/java/org/auscope/portal/server/vegl/VLJobSolution.java:115-120 | the parameter is added to the set, which is created when unset |
| Vegl.VLJobSolution.Equals | src/main/java/org/auscope/portal/server/vegl/VLJobSolution.java:135-147 | identity gives true; a non-solution gives false; true iff identical or same job id and solution id; throws only on a missing job or solution id |
| Vegl.VLJobSolution.Clone | src/main/java/org/auscope/portal/server/vegl/VLJobSolution.java:122-133 | a fresh solution without id, same job and solution id, whose parameters are fresh one-to-one copies owned by the clone; it equals the original when equality is defined |
| Vegl.SolutionEqualsSymmetric | src/main/java/org/auscope/portal/server/vegl/VLJobSolution.java:135-147 | solution equality is symmetric |
| Vegl.ConstructedIdIsLost | src/main/java/org/auscope/portal/server/vegl/VLJobSolution.java:62-64 | building with id 7 leaves the id unset |
| Vegl.ConstructedIdIsKept | src/main/java/org/auscope/portal/server/vegl/VLJobSolution.java:62-64 | with the corrected constructor the id is 7 |
| Vegl.CloneEach | src/main/java/org/auscope/portal/server/vegl/VEGLJob.java:357-362 | every solution gets exactly one fresh clone, distinct solutions get distinct clones, and each clone satisfies the solution clone contract |
| Vegl.VEGLJob.constructor | src/main/java/org/auscope/portal/server/vegl/VEGLJob.java:155-157 | a new job has no id, no collections, no properties and no details |
| Vegl.VEGLJob.WithDetails | src/main/java/org/auscope/portal/server/vegl/VEGLJob.java:320-341 | a new job with the given copied scalar fields and nothing else set |
| Vegl.VEGLJob.GetProperty | src/main/java/org/auscope/portal/server/vegl/VEGLJob.java:466-468 | the property's value, or `null` when absent |
| Vegl.VEGLJob.SetProperty | src/main/java/org/auscope/portal/server/vegl/VEGLJob.java:456-463 | `null` removes the key, a value stores it; returns the previous value; afterwards `getProperty(key)` is the new value and every other key is unchanged |
| Vegl.VEGLJob.GetJobDownloads | src/main/java/org/auscope/portal/server/vegl/VEGLJob.java:241-243 | the download list, read as empty when unset |
| Vegl.VEGLJob.SetJobDownloads | src/main/java/org/auscope/portal/server/vegl/VEGLJob.java:249-260 | the list becomes the given one (empty for `null`), and each download's parent is now this job |
| Vegl.VEGLJob.GetAnnotations | src/main/java/org/auscope/portal/server/vegl/VEGLJob.java:262-264 | the annotation set, read as empty when unset |
| Vegl.VEGLJob.SetAnnotations | src/main/java/org/auscope/portal/server/vegl/VEGLJob.java:266-274 | afterwards the annotations are exactly the given collection's elements; a `null` collection throws after the annotations have been cleared, leaving them empty |
| Vegl.VEGLJob.GetJobSolutions | src/main/java/org/auscope/portal/server/vegl/VEGLJob.java:276-278 | the solution set, read as empty when unset |
| Vegl.VEGLJob.SetJobSolutions | src/main/java/org/auscope/portal/server/vegl/VEGLJob.java:280-291 | the set becomes the given one (empty for `null`), and each solution's job is now this job |
| Vegl.VEGLJob.AddJobSolution | src/main/java/org/auscope/portal/server/vegl/VEGLJob.java:293-298 | the solution is added to the set, which is created when unset |
| Vegl.VEGLJob.GetJobParameters | src/main/java/org/auscope/portal/server/vegl/VEGLJob.java:300-312 | a parameter is returned iff some solution of the job holds it |
| Vegl.VEGLJob.AddSolutionId | src/main/java/org/auscope/portal/server/vegl/VEGLJob.java:103-105 | the solution id is added to the set |
| Vegl.VEGLJob.CopyProperties | src/main/java/org/auscope/portal/server/vegl/VEGLJob.java:351-353 | the clone's properties become the original's, details untouched |
| Vegl.VEGLJob.CloneDownloadsFrom | src/main/java/org/auscope/portal/server/vegl/VEGLJob.java:343-349 | the clone's downloads are fresh copies, in order, of the original's, each with the clone as parent |
| Vegl.VEGLJob.CloneSolutionsFrom | src/main/java/org/auscope/portal/server/vegl/VEGLJob.java:357-362 | the clone's solutions are one distinct fresh clone per original solution |
| Vegl.VEGLJob.SafeClone | src/main/java/org/auscope/portal/server/vegl/VEGLJob.java:319-365 | a fresh job with the same details and walltime setting; no id, annotations, email flag, process log or date; equal properties and solution ids; fresh copies of the downloads and solutions as above |
| Vegl.VEGLJob.IsWalltimeSet | src/main/java/org/auscope/portal/server/vegl/VEGLJob.java:391-393 | a null or zero walltime means no limit; a limit that applies is at least one minute |
| Vegl.WalltimeSetAsDocumented | src/main/java/org/auscope/portal/server/vegl/VEGLJob.java:62-64 | for a walltime that is null or not negative, a limit applies iff it is neither null nor zero; a negative walltime counts as no limit |
| UserController.ANVGLUserDao.Save | src/main/java/org/auscope/portal/server/web/security/ANVGLUserDao.java:49-51 | records one save of the user |
| UserController.ApplyNothing | src/main/java/org/auscope/portal/server/web/controllers/UserController.java:88-111 | a request that sets nothing changes nothing, and the user is then not saved |
| UserController.ApplyIdempotent | src/main/java/org/auscope/portal/server/web/controllers/UserController.java:88-107 | applying a request twice equals applying it once |
| UserController.ApplyOverwrites | src/main/java/org/auscope/portal/server/web/controllers/UserController.java:88-107 | for each of the four fields: when the request sets it (an ARN only by a non-empty string, the terms and the account by any supplied value), it takes the requested value whatever it held; otherwise it keeps its value |
| UserController.EmptyStringsScenario | src/main/java/org/auscope/portal/server/web/controllers/UserController.java:89-107 | an empty AWS account is stored and counts as a change; empty ARNs are ignored and do not |
| UserController.SetUser | src/main/java/org/auscope/portal/server/web/controllers/UserController.java:77-114 | no user fails and changes nothing; otherwise the settings become `ApplyRequest` of the old ones, the user is saved exactly once iff the request sets anything, and the call succeeds |
| UserController.GetUser | src/main/java/org/auscope/portal/server/web/controllers/UserController.java:53-67 | fails iff there is no user; otherwise returns id, email, full name, ARNs and accepted terms (no AWS credentials) |
| UserController.GetCloudFormationScript | src/main/java/org/auscope/portal/server/web/controllers/UserController.java:136-150 | fails iff there is no user or the user is not fully configured; otherwise fills the template from the user's ARNs and AWS credentials |
| UserController.SetThenGet | src/main/java/org/auscope/portal/server/web/controllers/UserController.java:53-114 | after `setUser`, `getUser` succeeds and reports the updated ARNs and accepted terms |

## Left out

- HTTP, JSON and Velocity rendering are not modelled. Responses are a `Response` value, and `getCloudFormationScript` returns the template variables instead of the rendered script.
- `UserController.GetCloudFormationScript`: `isFullyConfigured()` is a stored flag, because ANVGLUser.java is not part of this model.
- `getTermsConditions`, and the user lookup behind the logged-in user, are not modelled.
- VglDownload.java is not part of this model. `VglDownload` keeps only an id, its parent and a single `source` field standing for its descriptive fields; its `clone` is assumed to copy them.
- Persistence is not modelled: Hibernate, `updateJobForSolution`, the job manager's database and the SCM's HTTP calls. They are given as maps.
- Logging is not modelled: the warning for an unknown dependency type is only a dropped entry.
- Hashing is not modelled. Java `HashSet`s of parameters and solutions are Dafny sets of object identities, not sets up to `equals`/`hashCode`. Two parameters that are `equals` but distinct objects are both kept.
- Aliasing of the returned collections is not modelled. For example, `setJobParameters(getJobParameters())` clears and refills the same Java set, while the model stores a value.
- `ScmEntryService.GroupedImages`: a `null` provider key is a key like any other, as it is in a `HashMap`.
- `Vegl.VEGLJob.SafeClone`: requires `solutionIds` and `jobSolutions` to be set, and each solution's parameters to be set. Otherwise the Java throws a `NullPointerException`.
- `Vegl.VLJobSolution.Clone`: likewise requires `jobParameters` to be set.
- `Vegl.VEGLJob.AddSolutionId`: requires `solutionIds` to be set.
- `Vegl.VEGLJob.GetJobParameters`: the Java collects the parameters into a local set that shadows the transient `jobParameters` field, which it never writes. The model returns that set and does not model the field. It requires nothing, because an unset set of solutions reads as empty.
- `Vegl.VEGLJob.WithDetails`: the scalar fields that `safeClone` copies are one `JobDetails` value. Dates are instants (`Option<int>`); date formatting and parsing are not modelled.
- Getters and setters with no logic (plain field reads and writes) are field accesses, not members.
- `ScmEntryService.Dependencies`: requires every dependency to have a `type`, since `switch` on a `null` string throws.
- `ScmEntryService.UsefulIntended`: the corrected filter keeps only the solutions with an image at a configured provider. The documentation also counts as usable the solutions that supply what is needed to build an image at runtime. The code has no test for that, so the model has none.
- Some values the Java may see as `null` are never `null` in the model. These are: the values of the SCM's JSON records; a toolbox's URL, source, dependency list and image list; a solution's URL, name and dependency list; a snapshot's entry and service ids; the job's property map; the key and collection arguments of the setters, except `setAnnotations`; and the request parameters of `setUser` other than the four optional settings.

## Findings

| source | as written | input that shows it | evidently intended | confidence | as-written member | corrected member |
|---|---|---|---|---|---|---|
| src/main/java/org/auscope/portal/server/web/service/ScmEntryService.java:232 | every solution is added before its images are checked, and a usable one is added a second time | solutions [s1 with an aws image, s2 with a nectar image], only aws configured: result [s1, s1, s2] | a subset of the input without duplicates; for this input, whose solutions have images and nothing else, the solutions with an image at a configured provider: [s1] | high (not executed) | ScmEntryService.UsefulAsCodedDuplicates | ScmEntryService.UsefulIntendedIsFilter |
| src/main/java/org/auscope/portal/server/vegl/VLJobSolution.java:62-64 | the three-argument constructor passes `null` as the id instead of its `id` argument | `new VLJobSolution(7, job, "solution-1")` has id `null` | the id is 7 | high (not executed) | Vegl.ConstructedIdIsLost | Vegl.ConstructedIdIsKept |
