# Hadoop operators, configuration compiler and uploader: a verified model

This project models the parts of the repository that carry state, and proves
what they promise. Each module is one file of the same name.

- The Kopf operator for Hadoop clusters. One reconcile is a fixed plan of
  replace, create-if-missing and delete calls chosen by the normalised spec.
  Any call may fail, before or after it took effect. Object names are the real
  strings; the hash is an arbitrary function. The state is one store of objects,
  keyed by namespace, kind and name.
- The compiler from environment variables to configuration files. Variables are
  routed to raw files, parsed, and printed in another format. `to_yaml` is
  modelled with its moving node pointers, as paths into the structure.
- The concurrent uploader. Threads and the unlocked monitor take turns in any
  order; storing, listing and logging may raise at any point.
- The Go operator: its reconcile loop among other workers, users and
  controllers, with optimistic concurrency on object versions; its configuration
  texts under Go's arbitrary map order; its defaulting and validating webhook
  (from the sibling operator); its generated deep copies over the heap.
- Two byte codecs.

Each imperative piece is a method, in most cases on a class whose fields it
changes, and is proved against a function or a machine; the theorems are about
that function or machine. A method whose outside world may fail chooses the
outcome arbitrarily.

## What does not hold

Where the code does not keep an expected promise, a lemma says so and another
says when it does.

- A recreated cluster keeps Services of its former self (`RecreatedClusterStale`);
  within one identity they never go stale (`HistoryInvariant`). A kept Service
  may lack the port an Ingress asks for (`BackendPortsExactly`).
- Pull secrets that are no list of objects, and resource blocks that are no
  objects, pass the normalisation and end the run in the middle, after the
  configuration has been written (`CompletesExactly`, `CrashAfterConfiguration`).
- `to_yaml` loses keys that start with an index, fails on keys that continue
  others, and erases names beside indices (`FirstIndexLost`, `PrefixFails`,
  `IndexErasesNames`; exactly when: `HoldsAllExactly`). It lists a family in the
  order of texts (exactly when that is the numeric order: `NumericOrderExactly`;
  up to ten values: `InOrderUpToTen`). A dictionary in a list is printed in the
  column of its dash, where YAML does not take it for the item, and nothing is
  quoted (exactly which structures and contents can be read back:
  `RenderReadsBackExactly`, `ToYamlReadsBackExactly`).
- `to_properties` drops entries with empty values on the next reading
  (`ToPropertiesStable`).
- A second extension for a name appends to whatever its raw file held
  (`SecondExtensionKeepsStaleText`); a second mark in a variable's name shifts its
  configuration key (exactly when: `ConfigKeyExactly`). A carriage return in a
  value becomes a line end when the raw file is read, and the value is lost
  (`ReturnLost`; exactly then: `PropertiesCompiled`). `to_xml` escapes nothing
  (exactly which contents it keeps: `ToXmlReadsBackExactly`).
- An upload's success turns into failure when its last log line cannot be
  written (`SuccessLost`; exactly then: `SuccessLostExactly`); the completion flag
  is also set by a failing main thread (`CrashMarksCompletion`, `FlagWrongExactly`).
- The phase Running is never withdrawn (`RunningOutlivesReadiness`; exactly when a
  cluster is Running and not ready: `UnreadyExactly`, `UnreadyArises`).
- Go's map order reaches the configuration texts and so the hash that triggers
  rolling restarts (`HashDependsOnOrder`, `MapredUnstable`); with a '<' in a
  value two clusters can have different data and the same hashed text
  (`GeneratedAmbiguous`), without one they cannot (`SerialInjective`).
- The webhook fills in replica counts that its own validation refuses
  (`DefaultsRefused`).

## Files

- `Wrappers.dfy`: options and results
- `Text.dfy`: searching, splitting, stripping, decimals, order and sorting
- `HadoopSpec.dfy`: `normalize_spec`
- `Topology.dfy`: roles, the plan of one reconcile, what it does to each role
- `HadoopNames.dfy`: object names
- `HadoopResources.dfy`: the builders' objects
- `HadoopStore.dfy`: the store, histories of reconciles
- `HadoopClosure.dfy`: references and revisions
- `HadoopInterrupted.dfy`: runs cut short
- `HadoopBuildable.dfy`: which specifications the builders accept
- `HadoopConcurrency.dfy`: several clusters
- `HadoopHosts.dfy`: quorum strings
- `HadoopController.dfy`: the API server and the handler as classes
- `Properties.dfy`: parsing and printing
- `PropertiesExact.dfy`: exact round trips
- `Yaml.dfy`: the structure of dotted keys
- `YamlBuild.dfy`: `to_yaml` with its pointers
- `YamlExact.dfy`: which keys it keeps
- `YamlLists.dfy`: the same when keys end in indices
- `YamlFamilies.dfy`: in which order it lists a family
- `Transformers.dfy`: the printers
- `YamlReadBack.dfy`: the YAML text read back
- `XmlReadBack.dfy`: the XML text read back
- `EnvRoutes.dfy`: routing of variables and the raw files
- `EnvToConf.dfy`: the compiler as a class
- `Uploader.dfy`: threads and monitor as a machine
- `UploaderRuns.dfy`: its runs
- `UploadTask.dfy`: the thread bodies as methods
- `GoReconciler.dfy`: server, workers and other actors as a machine
- `GoReconcilerRuns.dfy`: its runs
- `GoQuietCalls.dfy`: undisturbed calls
- `GoRunning.dfy`: when Running and not ready meet
- `GoController.dfy`: `Reconcile` as methods on classes
- `GoConfig.dfy`: the XML files
- `GoConfigHash.dfy`: the hashed text
- `GoConfigData.dfy`: what it tells of the six files
- `GoSites.dfy`: the operator's defaults and the generated data
- `Webhook.dfy`: defaulting and validation
- `DeepCopy.dfy`: deep copies over the heap
- `Codec.dfy`: the byte codecs

## Model

| member | source | states |
|---|---|---|
| `HadoopController.HandleEvents` | Apache/Hadoop/kubernetes/operator/hadoop-dev-cursor/operator/hadoop_operator/controller.py:521-528 | for every series of specs the handler is called with, each call failing at any API call, in normalisation or in a builder, from any store whose Services of this cluster are current (at first there are none): if the last call completes, the store is exactly the one the last spec asks for; and if no API call of the series failed, the last one completes if and only if its spec can be normalised and built |
| `HadoopController.ReconcileHadoop` | Apache/Hadoop/kubernetes/operator/hadoop-dev-cursor/operator/hadoop_operator/controller.py:523-528 | the retryable error is reported if and only if an API call failed, and leaves the effect of some prefix of the steps that can be built; otherwise the spec alone decides: completed, with the reconciled store; the exception the normalisation raises, with nothing changed; or an exception of a builder, with exactly the steps before it done |
| `HadoopSpec.RaisesFirst` | Apache/Hadoop/kubernetes/operator/hadoop-dev-cursor/operator/hadoop_operator/k8s_resources.py:80-164 | the normalisation raises if and only if one of its reads of the spec does, and then the exception of the first such read in the program's order |
| `HadoopController.CompletesExactly` | Apache/Hadoop/kubernetes/operator/hadoop-dev-cursor/operator/hadoop_operator/k8s_resources.py:80-164 | without API errors a call completes if and only if the spec can be normalised, its pull secrets are a list of objects, and every resource block that is used is an object |
| `HadoopBuildable.BuildableExactly` | Apache/Hadoop/kubernetes/operator/hadoop-dev-cursor/operator/hadoop_operator/k8s_resources.py:216-220 | which normalised specs let every StatefulSet builder return; for all others a run stops inside the plan |
| `HadoopBuildable.CrashAfterConfiguration` | Apache/Hadoop/kubernetes/operator/hadoop-dev-cursor/operator/hadoop_operator/controller.py:112-149 | a run that a builder ends has done the configuration part: the crash is in the middle, never at the start |
| `HadoopController.Handler.Reconcile` | Apache/Hadoop/kubernetes/operator/hadoop-dev-cursor/operator/hadoop_operator/controller.py:99-518 | the calls the server carries out are, in order, a prefix of the plan for the normalised spec: all of it, or up to an API call that failed, or up to the first builder that raises |
| `HadoopController.Handler.ReconcileConfig` | Apache/Hadoop/kubernetes/operator/hadoop-dev-cursor/operator/hadoop_operator/controller.py:112-143 | the ConfigMaps are written first, or the HA objects removed, and the revision handed on is the hash of exactly the data written |
| `HadoopResources.FilesSorted` | Apache/Hadoop/kubernetes/operator/hadoop-dev-cursor/operator/hadoop_operator/controller.py:123 | the files in which the items are joined stand in the order of their names |
| `HadoopController.JoinedItems` | Apache/Hadoop/kubernetes/operator/hadoop-dev-cursor/operator/hadoop_operator/controller.py:123-137 | the sorted `key=value` items of a ConfigMap, joined in a loop, are its payload text |
| `HadoopController.ApiServer.ReplaceOrCreate` | Apache/Hadoop/kubernetes/operator/hadoop-dev-cursor/operator/hadoop_operator/apply.py:9-23 | on success the object is stored as built; on failure the store is unchanged or already holds it |
| `HadoopController.ApiServer.EnsureService` | Apache/Hadoop/kubernetes/operator/hadoop-dev-cursor/operator/hadoop_operator/apply.py:26-39 | creates a missing Service and otherwise changes nothing |
| `HadoopController.ApiServer.DeleteIfPresent` | Apache/Hadoop/kubernetes/operator/hadoop-dev-cursor/operator/hadoop_operator/apply.py:76-105 | removes the object; a missing one is success |
| `HadoopStore.HistoryIndependence` | Apache/Hadoop/kubernetes/operator/hadoop-dev-cursor/operator/hadoop_operator/controller.py:99-528 | whatever specs came before and wherever their runs failed, a completed reconcile leaves the store the spec alone determines; the same as from the start |
| `HadoopStore.HistoryInvariant` | Apache/Hadoop/kubernetes/operator/hadoop-dev-cursor/operator/hadoop_operator/controller.py:523-528 | over every history of specs, failures and retries each stored Service is the one the operator would build now, and no object of another owner changes |
| `HadoopStore.ReconcileMatchesExactly` | Apache/Hadoop/kubernetes/operator/hadoop-dev-cursor/operator/hadoop_operator/controller.py:99-518 | the final store is the desired one if and only if every Service the run keeps was already current |
| `HadoopStore.MatchesUnique` | Apache/Hadoop/kubernetes/operator/hadoop-dev-cursor/operator/hadoop_operator/controller.py:99-518 | the desired store is a function of the custom resource, the spec and the objects of others |
| `HadoopStore.EnsureRefinesPut` | Apache/Hadoop/kubernetes/operator/hadoop-dev-cursor/operator/hadoop_operator/apply.py:26-39 | over current Services create-if-missing is the same operation as replace-or-create |
| `HadoopStore.HistoryIndependentNames` | Apache/Hadoop/kubernetes/operator/hadoop-dev-cursor/operator/hadoop_operator/controller.py:99-518 | from any store at all, an object of the cluster exists after a reconcile if and only if the spec desires its role |
| `HadoopStore.RecreatedClusterStale` | Apache/Hadoop/kubernetes/operator/hadoop-dev-cursor/operator/hadoop_operator/apply.py:26-39 | a resource deleted and recreated under its old name keeps Services owned by the old one: create-only does go stale across identities |
| `HadoopStore.ReconcileEffect` | Apache/Hadoop/kubernetes/operator/hadoop-dev-cursor/operator/hadoop_operator/controller.py:99-518 | what one complete reconcile leaves under each of the cluster's names, from any store |
| `Topology.PlanEffect` | Apache/Hadoop/kubernetes/operator/hadoop-dev-cursor/operator/hadoop_operator/controller.py:99-518 | on every combination of HA, YARN, NodePort and Ingress: exactly the desired roles exist afterwards, freshly built unless a Service that stays |
| `Topology.PlanDrops` | Apache/Hadoop/kubernetes/operator/hadoop-dev-cursor/operator/hadoop_operator/controller.py:73-96 | every role is written or deleted; only the first name node's web Service is ever both, without HA |
| `HadoopConcurrency.ClustersCommute` | Apache/Hadoop/kubernetes/operator/hadoop-dev-cursor/operator/hadoop_operator/controller.py:99-518 | two clusters' reconciles commute, and every interleaving of their API calls ends as one after the other |
| `HadoopConcurrency.Projection` | Apache/Hadoop/kubernetes/operator/hadoop-dev-cursor/operator/hadoop_operator/controller.py:99-518 | among any calls of any other clusters, a cluster's own objects are as if it ran alone |
| `HadoopNames.SuffixFree` | Apache/Hadoop/kubernetes/operator/hadoop-dev-cursor/operator/hadoop_operator/controller.py:73-96 | no name suffix of a kind is the end of another of that kind, so no cluster name plus suffix reads as another |
| `HadoopNames.RefInjective` | Apache/Hadoop/kubernetes/operator/hadoop-dev-cursor/operator/hadoop_operator/controller.py:99-518 | different clusters never yield the same object name of the same kind |
| `HadoopClosure.ReferencesResolve` | Apache/Hadoop/kubernetes/operator/hadoop-dev-cursor/operator/hadoop_operator/k8s_resources.py:926-1048 | after a completed reconcile from any store every object referred to exists: headless Services, mounted ConfigMaps and their keys, hosts waited for, Ingress backends, selected pods |
| `HadoopClosure.BackendPortsExactly` | Apache/Hadoop/kubernetes/operator/hadoop-dev-cursor/operator/hadoop_operator/k8s_resources.py:936-1018 | the stored Service behind an Ingress rule serves the rule's port if and only if it was missing before, is one the run creates anew, or served the port already |
| `HadoopClosure.BackendPortsResolve` | Apache/Hadoop/kubernetes/operator/hadoop-dev-cursor/operator/hadoop_operator/k8s_resources.py:936-1018 | where stored Services are current, every Ingress backend resolves together with its port |
| `HadoopClosure.RevisionAgrees` | Apache/Hadoop/kubernetes/operator/hadoop-dev-cursor/operator/hadoop_operator/controller.py:123-143 | the config-revision annotation of every managed StatefulSet is the hash of the data actually stored |
| `HadoopInterrupted.InterruptedConsistent` | Apache/Hadoop/kubernetes/operator/hadoop-dev-cursor/operator/hadoop_operator/controller.py:99-528 | a reconcile cut short at any call, on any store: every StatefulSet it wrote is governed by an existing Service and carries the revision of the configuration stored |
| `HadoopInterrupted.ServiceLeads` | Apache/Hadoop/kubernetes/operator/hadoop-dev-cursor/operator/hadoop_operator/controller.py:146-518 | no StatefulSet is written before the headless Service that governs it |
| `HadoopInterrupted.ConfigLeads` | Apache/Hadoop/kubernetes/operator/hadoop-dev-cursor/operator/hadoop_operator/controller.py:112-143 | no StatefulSet is written before the configuration part is complete |
| `HadoopSpec.CanonicalFixed` | Apache/Hadoop/kubernetes/operator/hadoop-dev-cursor/operator/hadoop_operator/k8s_resources.py:80-164 | normalisation leaves a spec alone if and only if it is in normal form |
| `HadoopSpec.NormalizeIdempotent` | Apache/Hadoop/kubernetes/operator/hadoop-dev-cursor/operator/hadoop_operator/k8s_resources.py:80-164 | normalising a normalised spec changes nothing |
| `HadoopSpec.QuorumLeast` | Apache/Hadoop/kubernetes/operator/hadoop-dev-cursor/operator/hadoop_operator/k8s_resources.py:97-108 | under HA both quorums are the least odd number that is at least three and at least the requested one |
| `HadoopHosts.QuorumReadBack` | Apache/Hadoop/kubernetes/operator/hadoop-dev-cursor/operator/hadoop_operator/k8s_resources.py:33-35 | splitting the ZooKeeper connect string gives exactly the hosts of the ordinals, all distinct |
| `HadoopHosts.QjournalReadBack` | Apache/Hadoop/kubernetes/operator/hadoop-dev-cursor/operator/hadoop_operator/k8s_resources.py:27-30 | reading the qjournal URI gives exactly the journal hosts, one distinct host per ordinal, and the nameservice, whatever its text |
| `HadoopHosts.ZooCfgReadBack` | Apache/Hadoop/kubernetes/operator/hadoop-dev-cursor/operator/hadoop_operator/config_xml.py:6-22 | reading zoo.cfg gives exactly one member per ordinal, in order: its id is the ordinal plus one, its host that of the pod; no two share an id or a host |
| `HadoopHosts.ZookeeperEnsemble` | Apache/Hadoop/kubernetes/operator/hadoop-dev-cursor/operator/hadoop_operator/k8s_resources.py:512-609 | the hosts the connect string names are the pods of the ZooKeeper StatefulSet |
| `HadoopHosts.JournalEnsemble` | Apache/Hadoop/kubernetes/operator/hadoop-dev-cursor/operator/hadoop_operator/k8s_resources.py:612-718 | the hosts the qjournal URI names are the pods of the JournalNode StatefulSet |
| `YamlBuild.ToYaml` | Apache/Hadoop/imageBuild/base.new/scripts/transformation.py:25-60 | the loop over the sorted keys, with its moving node pointers, builds the structure `Yaml.Build` defines, or raises its exception |
| `YamlBuild.InsertKey` | Apache/Hadoop/imageBuild/base.new/scripts/transformation.py:30-60 | one key inserted through the moving pointers, including the walk on a dictionary nothing refers to |
| `Yaml.YamlFaithful` | Apache/Hadoop/imageBuild/base.new/scripts/transformation.py:25-60 | on well-behaved keys nothing fails, each key ending in a name leads to its value, and each index family to the list of its values in key order |
| `YamlBuild.ToYamlFaithful` | Apache/Hadoop/imageBuild/base.new/scripts/transformation.py:25-60 | the same for the dictionary `to_yaml` starts from |
| `Yaml.PutFrame` | Apache/Hadoop/imageBuild/base.new/scripts/transformation.py:30-60 | inserting a key changes no lookup it diverges from |
| `Yaml.PutLookup` | Apache/Hadoop/imageBuild/base.new/scripts/transformation.py:57-60 | a key that ends in a name is found with its value |
| `Yaml.PutAppend` | Apache/Hadoop/imageBuild/base.new/scripts/transformation.py:53-58 | a key that ends in an index appends its value to the list of its family |
| `YamlExact.KeepsAllExactly` | Apache/Hadoop/imageBuild/base.new/scripts/transformation.py:25-60 | for keys that end in names: whatever their values, nothing fails and every key leads to its value, if and only if no key starts with an index, no index follows another, and any two keys, with indices read as numbers, part at two names or at two indices |
| `YamlLists.HoldsAllExactly` | Apache/Hadoop/imageBuild/base.new/scripts/transformation.py:25-60 | for every set of keys: whatever their values, nothing fails, every key that ends in a name leads to its value and every key that ends in an index to the list of its family's values in key order, if and only if no key starts with an index, no index follows another, and any two keys part at two names, at two indices with more behind both, or at two indices at their ends |
| `Yaml.FirstIndexLost` | Apache/Hadoop/imageBuild/base.new/scripts/transformation.py:30-60 | a key that starts with an index is silently lost |
| `Yaml.PrefixFails` | Apache/Hadoop/imageBuild/base.new/scripts/transformation.py:30-60 | a key that continues another key raises |
| `Yaml.IndexErasesNames` | Apache/Hadoop/imageBuild/base.new/scripts/transformation.py:36-40 | an index where names stand erases what is below the names |
| `YamlFamilies.ListedInOrderExactly` | Apache/Hadoop/imageBuild/base.new/scripts/transformation.py:28-29 | the list of a family follows an arrangement of its indices, for all values, if and only if the arrangement is in the order of texts |
| `YamlFamilies.NumericOrderExactly` | Apache/Hadoop/imageBuild/base.new/scripts/transformation.py:28-29 | it follows the numeric order if and only if no smaller index is a later text |
| `YamlFamilies.InOrderUpToTen` | Apache/Hadoop/imageBuild/base.new/scripts/transformation.py:28-29 | for the indices 0 to n: if and only if n is at most 9 |
| `Transformers.RenderYaml` | Apache/Hadoop/imageBuild/base.new/scripts/transformation.py:6-22 | rendering, recursively and in loops, is the text `Render` defines |
| `YamlReadBack.RenderReadsBackExactly` | Apache/Hadoop/imageBuild/base.new/scripts/transformation.py:6-22 | every rendered dictionary, read by the rules of YAML 1.2.2 for block collections and plain scalars on one line, is found again if and only if its names and texts are plain scalars, none of its collections is empty and none of its lists holds a dictionary |
| `YamlReadBack.ToYamlReadsBackExactly` | Apache/Hadoop/imageBuild/base.new/scripts/transformation.py:6-60 | for every content whose keys are as in `HoldsAllExactly`, what `to_yaml` prints reads back as the structure it built if and only if all names and values are plain scalars and every index ends its key |
| `Transformers.FlatYamlIsProperties` | Apache/Hadoop/imageBuild/base.new/scripts/transformation.py:6-72 | on undotted keys `to_yaml` and `to_properties` print the same text |
| `Transformers.ToStyle` | Apache/Hadoop/imageBuild/base.new/scripts/transformation.py:74-109 | the five other printers, which differ in the texts around keys and values |
| `XmlReadBack.ToXmlReadsBackExactly` | Apache/Hadoop/imageBuild/base.new/scripts/transformation.py:102-123 | for every content, a reader of the XML text `to_xml` prints finds the parsed properties if and only if all their keys and values are character data of XML 1.0 without carriage returns: nothing is escaped |
| `Properties.ProcessProperties` | Apache/Hadoop/imageBuild/base.new/scripts/transformation.py:111-123 | the parsing loop, cutting and re-joining at the separator, reads each line at its first separator; later lines win |
| `Properties.ToProperties` | Apache/Hadoop/imageBuild/base.new/scripts/transformation.py:67-72 | prints the parsed dictionary in key order |
| `Properties.GoodLineExactly` | Apache/Hadoop/imageBuild/base.new/scripts/transformation.py:115-122 | a printed entry is read back from its line if and only if its key and value are clean |
| `Properties.ParseEntries` | Apache/Hadoop/imageBuild/base.new/scripts/transformation.py:111-123 | parsing printed entries gives the last value of every key |
| `Properties.RoundTrip` | Apache/Hadoop/imageBuild/base.new/scripts/transformation.py:67-123 | parsing what `to_properties` prints restores every printable dictionary |
| `PropertiesExact.RoundTripExactly` | Apache/Hadoop/imageBuild/base.new/scripts/transformation.py:67-123 | and only the printable ones |
| `PropertiesExact.ToPropertiesStable` | Apache/Hadoop/imageBuild/base.new/scripts/transformation.py:67-123 | `to_properties` applied to its own output keeps the dictionary if and only if every parsed value is nonempty and trimmed |
| `Text.JoinSplit` | Apache/Hadoop/imageBuild/base.new/scripts/transformation.py:119-121 | joining the pieces of a split restores the text |
| `EnvToConf.Simple.ProcessEnvs` | Apache/Hadoop/imageBuild/base.new/scripts/envtoconf.py:35-78 | every raw file ends as the sorted variables lead to, and no other file is touched |
| `EnvToConf.Simple.WriteFollowers` | Apache/Hadoop/imageBuild/base.new/scripts/envtoconf.py:70-78 | a variable that declares nothing goes to the raw file of every configurable its name starts with |
| `EnvToConf.Simple.WriteDeclaration` | Apache/Hadoop/imageBuild/base.new/scripts/envtoconf.py:63-69 | the first declaration empties the raw file, the extension and format are overwritten, the line is appended |
| `EnvToConf.Simple.Transform` | Apache/Hadoop/imageBuild/base.new/scripts/envtoconf.py:80-101 | the loop over the sorted configurables: what is written, what is reported, which exception ends it |
| `EnvToConf.Simple.CompileAll` | Apache/Hadoop/imageBuild/base.new/scripts/envtoconf.py:103-105 | both phases, one after the other |
| `EnvRoutes.RawFileExactly` | Apache/Hadoop/imageBuild/base.new/scripts/envtoconf.py:35-78 | for every environment and prior content: a raw file is untouched, or the lines routed to it in order, after the prior content unless the name's first declaration had this extension |
| `EnvRoutes.DeclaredFileFresh` | Apache/Hadoop/imageBuild/base.new/scripts/envtoconf.py:63-78 | with one extension a declared name has its raw file, free of earlier content |
| `EnvRoutes.SecondExtensionKeepsStaleText` | Apache/Hadoop/imageBuild/base.new/scripts/envtoconf.py:63-68 | with a second extension earlier content of that file survives |
| `EnvRoutes.ConfigKeyExactly` | Apache/Hadoop/imageBuild/base.new/scripts/envtoconf.py:42-59 | the configuration key is the stripped rest of the variable's name after its first two pieces, if and only if the second piece has at most one mark, or there is no third piece and only spaces follow the second mark |
| `EnvRoutes.ConfigKeyRest` | Apache/Hadoop/imageBuild/base.new/scripts/envtoconf.py:48-59 | the configuration key is the stripped rest of the variable's name after the first piece and what is taken for the second |
| `EnvRoutes.FirstPieces` | Apache/Hadoop/imageBuild/base.new/scripts/envtoconf.py:42-51 | the two pieces stand at the start of the variable's name, each before a separator |
| `EnvRoutes.RawPathInjective` | Apache/Hadoop/imageBuild/base.new/scripts/envtoconf.py:24-31 | different names and extensions have different raw files |
| `EnvToConf.EndToEnd` | Apache/Hadoop/imageBuild/base.new/scripts/envtoconf.py:35-105 | from the environment to the destination: raw file, and what the format's printer makes of it with every line end read as an LF, for a name declared with one extension, whatever the directory held |
| `EnvToConf.PropertiesCompiled` | Apache/Hadoop/imageBuild/base.new/scripts/envtoconf.py:35-105 | in the properties format, for printable entries of which none with a CR is replaced by a later one: the destination reads back as the last value of every routed key if and only if no routed entry holds a CR |
| `EnvToConf.ReturnLost` | Apache/Hadoop/imageBuild/base.new/scripts/envtoconf.py:80-101 | the shortest case: the entry with key `a` and value `x`, carriage return, `y` is printable and not read back |
| `EnvToConf.TransformArrives` | Apache/Hadoop/imageBuild/base.new/scripts/envtoconf.py:80-101 | a run without exception brings every raw file, transformed, to its destination and leaves raw files alone |
| `Uploader.InvariantRun` | minIO(AIStor)/operation/upload/upload.py:389-531 | the invariant of the machine of all threads and the monitor holds at every moment of every interleaving |
| `UploaderRuns.SuccessMeansStored` | minIO(AIStor)/operation/upload/upload.py:389-439 | a success means every file was put, is stored and is counted |
| `UploaderRuns.ProgressBounded` | minIO(AIStor)/operation/upload/upload.py:424-435 | the uploaded count never exceeds the files put, nor the total once it is set |
| `UploaderRuns.CompletionIsTrue` | minIO(AIStor)/operation/upload/upload.py:525-535 | completion is reported only when all tasks are in a terminal state, although the scan is neither atomic nor locked |
| `UploaderRuns.FlagWrongExactly` | minIO(AIStor)/operation/upload/upload.py:525-543 | in every run the completion flag is wrong if and only if the main thread has raised and left while a task is still running, and then nothing was reported; it is in its except branch or past it if and only if it raised |
| `UploaderRuns.CrashMarksCompletion` | minIO(AIStor)/operation/upload/upload.py:537-543 | and such a run exists for any tasks |
| `UploaderRuns.RunsForward` | minIO(AIStor)/operation/upload/upload.py:97-107 | between any two moments: statuses only move forward, counts never decrease, a total stays |
| `UploaderRuns.TerminalForever` | minIO(AIStor)/operation/upload/upload.py:389-442 | a terminal status is only ever followed by terminal ones, and failure by nothing else |
| `UploaderRuns.SuccessLostExactly` | minIO(AIStor)/operation/upload/upload.py:404-409 | in every run a task that was successful is failed later if and only if writing its last log line raised and its thread acted once more |
| `UploaderRuns.SuccessKept` | minIO(AIStor)/operation/upload/upload.py:404-409 | a success is final while its log line can be written |
| `UploaderRuns.SuccessLost` | minIO(AIStor)/operation/upload/upload.py:404-409 | and for any tasks there is a run that loses the success of any one of them |
| `UploaderRuns.FailureHasCause` | minIO(AIStor)/operation/upload/upload.py:389-442 | a task fails only if one of its own actions raised |
| `UploaderRuns.ThreadsEnd` | minIO(AIStor)/operation/upload/upload.py:389-442 | a thread makes at most three actions for each file and eight more, and ends in a terminal status |
| `UploaderRuns.MonitorEnds` | minIO(AIStor)/operation/upload/upload.py:525-535 | once all tasks are terminal, and wherever the monitor is, it reports and ends within a bounded number of its own actions, in every interleaving |
| `UploadTask.RunFileTask` | minIO(AIStor)/operation/upload/upload.py:389-409 | the body of a file thread, statement by statement, is a run of the machine's thread to its end |
| `UploadTask.RunDirTask` | minIO(AIStor)/operation/upload/upload.py:411-442 | the body of a directory thread, with its loop, is a run of the machine's thread to its end |
| `UploadTask.BodyResult` | minIO(AIStor)/operation/upload/upload.py:389-442 | either body leaves a terminal status, and on success all files counted and stored |
| `GoReconcilerRuns.InvariantRun` | Apache/Hadoop/kubernetes/operator/hadoop-dev-qoder/hadoop-operator/internal/reconciler/controller.go:52-267 | the invariant of server, workers and other actors holds at every moment of every run, whatever fails |
| `GoReconcilerRuns.PhaseAdvances` | Apache/Hadoop/kubernetes/operator/hadoop-dev-qoder/hadoop-operator/internal/reconciler/controller.go:66-168 | over the life of an object its phase only advances |
| `GoReconcilerRuns.DeparturesMarked` | Apache/Hadoop/kubernetes/operator/hadoop-dev-qoder/hadoop-operator/internal/reconciler/controller.go:161-181 | an object that ever carried the finalizer leaves the store only after Deleting was written |
| `GoReconcilerRuns.StepsInOrder` | Apache/Hadoop/kubernetes/operator/hadoop-dev-qoder/hadoop-operator/internal/reconciler/controller.go:100-139 | the component steps of a call that succeeded are a prefix of the plan; the status is touched only after all of them |
| `GoReconcilerRuns.DependenciesFirst` | Apache/Hadoop/kubernetes/operator/hadoop-dev-qoder/hadoop-operator/internal/reconciler/controller.go:100-139 | at every moment of every run, whatever failed: a call that has completed a component's step has completed before it the steps of all the component needs - the configuration, the quorum for name nodes, its service for pods, everything for the disruption budgets |
| `GoReconcilerRuns.ConditionsTold` | Apache/Hadoop/kubernetes/operator/hadoop-dev-qoder/hadoop-operator/internal/reconciler/controller.go:235-260 | at most one Ready condition, and it tells whether all four recorded counts are positive |
| `GoReconcilerRuns.RunningWasReady` | Apache/Hadoop/kubernetes/operator/hadoop-dev-qoder/hadoop-operator/internal/reconciler/controller.go:146-155 | Running is written only from Creating and only with all four counts positive |
| `GoRunning.UnreadyExactly` | Apache/Hadoop/kubernetes/operator/hadoop-dev-qoder/hadoop-operator/internal/reconciler/controller.go:146-155 | in every run, at every status write the server accepts: the object is left with phase Running and a false Ready condition if and only if its phase was Running and one of the counts just read is not positive |
| `GoRunning.UnreadyArises` | Apache/Hadoop/kubernetes/operator/hadoop-dev-qoder/hadoop-operator/internal/reconciler/controller.go:146-155 | and no other event of any run brings an object there |
| `GoRunning.RunningOutlivesReadiness` | Apache/Hadoop/kubernetes/operator/hadoop-dev-qoder/hadoop-operator/internal/reconciler/controller.go:146-155 | such runs exist: with one worker, from every initial state, for every spec, all counts that are ready and all that are not, a run from the creation over two calls that ends with phase Running over the latter |
| `GoQuietCalls.QuietFirstCall` | Apache/Hadoop/kubernetes/operator/hadoop-dev-qoder/hadoop-operator/internal/reconciler/controller.go:52-157 | one undisturbed call on a cluster just created, from the unset phase: finalizer and phase are written, all components reconciled in order, the present counts recorded; the phase is Running exactly if all are positive, and the one Ready condition says whether they are |
| `GoQuietCalls.QuietCall` | Apache/Hadoop/kubernetes/operator/hadoop-dev-qoder/hadoop-operator/internal/reconciler/controller.go:96-157 | one undisturbed call on a living cluster: all components in order, present counts recorded, phase and condition accordingly |
| `GoQuietCalls.QuietDeletion` | Apache/Hadoop/kubernetes/operator/hadoop-dev-qoder/hadoop-operator/internal/reconciler/controller.go:161-181 | one undisturbed call on a cluster being deleted marks and releases it; it is gone unless others hold it |
| `GoController.Reconcile` | Apache/Hadoop/kubernetes/operator/hadoop-dev-qoder/hadoop-operator/internal/reconciler/controller.go:52-158 | the method as written, on one object changed in place, is a run of the machine's worker to its end |
| `GoController.ReconcileDelete` | Apache/Hadoop/kubernetes/operator/hadoop-dev-qoder/hadoop-operator/internal/reconciler/controller.go:161-181 | its deletion branch |
| `GoController.UpdateClusterStatus` | Apache/Hadoop/kubernetes/operator/hadoop-dev-qoder/hadoop-operator/internal/reconciler/controller.go:192-267 | its status update: four reads of which any may fail, one write |
| `GoController.HadoopCluster.PutReadyCondition` | Apache/Hadoop/kubernetes/operator/hadoop-dev-qoder/hadoop-operator/internal/reconciler/controller.go:250-260 | the loop over the conditions replaces the first Ready entry or appends one |
| `GoReconciler.WithReadySingle` | Apache/Hadoop/kubernetes/operator/hadoop-dev-qoder/hadoop-operator/internal/reconciler/controller.go:250-260 | that keeps a single Ready entry, with the new truth |
| `GoConfig.GenerateXMLConfig` | Apache/Hadoop/kubernetes/operator/hadoop-dev-qoder/hadoop-operator/internal/reconciler/configmap.go:256-267 | the written text lists the entries in the order the map happened to be iterated |
| `GoConfig.XmlReadsBackExactly` | Apache/Hadoop/kubernetes/operator/hadoop-dev-qoder/hadoop-operator/internal/reconciler/configmap.go:256-267 | for every iteration order the text reads back as the map if and only if all keys and values are character data of XML 1.0 without carriage returns |
| `GoConfig.XmlTextTellsOrder` | Apache/Hadoop/kubernetes/operator/hadoop-dev-qoder/hadoop-operator/internal/reconciler/configmap.go:256-267 | two iterations of a clean map write the same text if and only if they met the keys in the same order |
| `GoSites.GenerateHadoopConfig` | Apache/Hadoop/kubernetes/operator/hadoop-dev-qoder/hadoop-operator/internal/reconciler/configmap.go:112-254 | writes the six files: each site is, in some order, the operator's default entries with the user's over them, and the environment file holds the four heap sizes |
| `GoSites.SitesReadBack` | Apache/Hadoop/kubernetes/operator/hadoop-dev-qoder/hadoop-operator/internal/reconciler/configmap.go:142-146 | each generated site reads back as the defaults overridden by the user's entries, if and only if these are character data |
| `GoSites.HashTellsConfiguration` | Apache/Hadoop/kubernetes/operator/hadoop-dev-qoder/hadoop-operator/internal/reconciler/configmap.go:49-112 | two clusters with clean sites whose data have the same hashed text have the same data, the same effective sites and the same heap sizes |
| `GoSites.GenerationUnstable` | Apache/Hadoop/kubernetes/operator/hadoop-dev-qoder/hadoop-operator/internal/reconciler/configmap.go:94-112 | whenever a clean site has two entries or more, the same call for the same cluster can write data with another hashed text |
| `GoSites.MapredUnstable` | Apache/Hadoop/kubernetes/operator/hadoop-dev-qoder/hadoop-operator/internal/reconciler/configmap.go:94-112 | so it can for every cluster whose mapred site is clean, since that site always has two entries |
| `GoSites.GeneratedAmbiguous` | Apache/Hadoop/kubernetes/operator/hadoop-dev-qoder/hadoop-operator/internal/reconciler/configmap.go:49-112 | for every cluster, any two property names and any three texts there are two settings of these properties, in the HDFS and the MapReduce overrides, whose generated data differ and have the same hashed text |
| `GoConfig.MergeOverrides` | Apache/Hadoop/kubernetes/operator/hadoop-dev-qoder/hadoop-operator/internal/reconciler/configmap.go:142-145 | merging in any order is overriding |
| `GoConfigHash.ComputeConfigText` | Apache/Hadoop/kubernetes/operator/hadoop-dev-qoder/hadoop-operator/internal/reconciler/configmap.go:49-63 | the hashed text is a function of the map, however its keys were collected |
| `GoConfigHash.HashDependsOnOrder` | Apache/Hadoop/kubernetes/operator/hadoop-dev-qoder/hadoop-operator/internal/reconciler/configmap.go:49-110 | two writings of one clean site, whatever the other files hold, have the same hashed text if and only if they met the keys in the same order |
| `GoConfigHash.HashStableExactly` | Apache/Hadoop/kubernetes/operator/hadoop-dev-qoder/hadoop-operator/internal/reconciler/configmap.go:49-110 | so the configuration determines the hashed text if and only if the site has at most one entry |
| `GoConfigData.SerialInjective` | Apache/Hadoop/kubernetes/operator/hadoop-dev-qoder/hadoop-operator/internal/reconciler/configmap.go:49-63 | for the operator's six files, with site values free of '<' and heap sizes in digits: equal hashed texts if and only if equal data |
| `GoConfigData.AnnotationTells` | Apache/Hadoop/kubernetes/operator/hadoop-dev-qoder/hadoop-operator/internal/reconciler/configmap.go:66-83 | the pod annotation stays the same if and only if the stored data do, or both cannot be read |
| `GoConfigData.SerialAmbiguous` | Apache/Hadoop/kubernetes/operator/hadoop-dev-qoder/hadoop-operator/internal/reconciler/configmap.go:56-62 | the serialisation that is hashed is ambiguous: for any data, any two files next to each other in it and any three texts there are two different data of the same keys with the same text |
| `GoConfigHash.HeapWithinLimit` | Apache/Hadoop/kubernetes/operator/hadoop-dev-qoder/hadoop-operator/internal/reconciler/configmap.go:302-313 | the heap is at most four fifths of the limit, and the default is used exactly below two mebibytes |
| `Text.SortedUnique` | Apache/Hadoop/kubernetes/operator/hadoop-dev-qoder/hadoop-operator/internal/reconciler/configmap.go:50-54 | the sorted key list is unique, whatever order the keys were met in |
| `Webhook.HadoopCluster.Default` | Apache/Hadoop/kubernetes/operator/hadoop-dev-codebuddy/operator/pkg/apis/hadoop/v1/hadoopcluster_webhook.go:29-226 | the assignments in place, in their order, are one defaulting pass |
| `Webhook.HadoopCluster.Validate` | Apache/Hadoop/kubernetes/operator/hadoop-dev-codebuddy/operator/pkg/apis/hadoop/v1/hadoopcluster_webhook.go:264-316 | collects exactly the errors of the specification, in order |
| `Webhook.HadoopCluster.Admit` | Apache/Hadoop/kubernetes/operator/hadoop-dev-codebuddy/operator/pkg/apis/hadoop/v1/hadoopcluster_webhook.go:29-316 | defaulting then validation accepts exactly the specifications the user-level condition describes |
| `Webhook.NeverOverwrites` | Apache/Hadoop/kubernetes/operator/hadoop-dev-codebuddy/operator/pkg/apis/hadoop/v1/hadoopcluster_webhook.go:29-226 | a pass never overwrites a set field |
| `Webhook.ThreePassesAreTwo` | Apache/Hadoop/kubernetes/operator/hadoop-dev-codebuddy/operator/pkg/apis/hadoop/v1/hadoopcluster_webhook.go:29-226 | three passes are two |
| `Webhook.OnceIsEnoughExactly` | Apache/Hadoop/kubernetes/operator/hadoop-dev-codebuddy/operator/pkg/apis/hadoop/v1/hadoopcluster_webhook.go:29-226 | a second pass changes nothing if and only if no component lacks an image or pull policy the global fields lack too and HA brings no journal nodes along |
| `Webhook.PassesSettle` | Apache/Hadoop/kubernetes/operator/hadoop-dev-codebuddy/operator/pkg/apis/hadoop/v1/hadoopcluster_webhook.go:29-316 | from the second pass on nothing changes, from the first on the verdict is the same |
| `Webhook.VerdictSettled` | Apache/Hadoop/kubernetes/operator/hadoop-dev-codebuddy/operator/pkg/apis/hadoop/v1/hadoopcluster_webhook.go:264-316 | validation finds after two passes what it finds after one |
| `Webhook.AdmittedExactly` | Apache/Hadoop/kubernetes/operator/hadoop-dev-codebuddy/operator/pkg/apis/hadoop/v1/hadoopcluster_webhook.go:264-316 | which specifications pass both, in terms of what the user wrote |
| `Webhook.DefaultsRefused` | Apache/Hadoop/kubernetes/operator/hadoop-dev-codebuddy/operator/pkg/apis/hadoop/v1/hadoopcluster_webhook.go:267-309 | replica counts left out under HA, or the default replication over one or two data nodes, are refused |
| `DeepCopy.CopyCluster` | Apache/Hadoop/kubernetes/operator/hadoop-dev-qoder/hadoop-operator/api/v1/zz_generated.deepcopy.go:126-132 | the copy means the same and everything it reaches is new |
| `DeepCopy.CopyNameNode` | Apache/Hadoop/kubernetes/operator/hadoop-dev-qoder/hadoop-operator/api/v1/zz_generated.deepcopy.go:354-377 | the same through two levels of pointers |
| `DeepCopy.CopyConfig` | Apache/Hadoop/kubernetes/operator/hadoop-dev-qoder/hadoop-operator/api/v1/zz_generated.deepcopy.go:232-269 | the same for five maps, which are apart in the copy even where they were shared |
| `DeepCopy.CopyStatus` | Apache/Hadoop/kubernetes/operator/hadoop-dev-qoder/hadoop-operator/api/v1/zz_generated.deepcopy.go:206-220 | the same for slices, which are apart in the copy even where they were shared |
| `DeepCopy.CopySecurity` | Apache/Hadoop/kubernetes/operator/hadoop-dev-qoder/hadoop-operator/api/v1/zz_generated.deepcopy.go:522-539 | the same for three pointers |
| `DeepCopy.CopyHa` | Apache/Hadoop/kubernetes/operator/hadoop-dev-qoder/hadoop-operator/api/v1/zz_generated.deepcopy.go:105-113 | the same for the HA settings |
| `DeepCopy.CopyStorage` | Apache/Hadoop/kubernetes/operator/hadoop-dev-qoder/hadoop-operator/api/v1/zz_generated.deepcopy.go:603-610 | the same for the storage settings |
| `DeepCopy.CopyMap` | Apache/Hadoop/kubernetes/operator/hadoop-dev-qoder/hadoop-operator/api/v1/zz_generated.deepcopy.go:234-240 | the copying loop, in any order, yields an equal new map, and nil for nil |
| `DeepCopy.ChangeMap` | Apache/Hadoop/kubernetes/operator/hadoop-dev-qoder/hadoop-operator/api/v1/zz_generated.deepcopy.go:232-269 | a change through the copy reaches exactly the copy: maps |
| `DeepCopy.ChangePointer` | Apache/Hadoop/kubernetes/operator/hadoop-dev-qoder/hadoop-operator/api/v1/zz_generated.deepcopy.go:354-377 | the same for a pointer behind a pointer: the copy has the new value there and is otherwise as the original was |
| `DeepCopy.ChangeSlice` | Apache/Hadoop/kubernetes/operator/hadoop-dev-qoder/hadoop-operator/api/v1/zz_generated.deepcopy.go:206-220 | the same for an element of a slice |
| `Codec.EncodeBytes` | MobaXterm-GenKey/app.py:53-77 | the block loop and its three endings compute the encoding |
| `Codec.DecodeEncode` | MobaXterm-GenKey/app.py:53-77 | a decoder restores every byte string |
| `Codec.EncodeShape` | MobaXterm-GenKey/app.py:53-77 | four symbols for three bytes, rounded up, and no padding |
| `Codec.TableSymbols` | MobaXterm-GenKey/app.py:49-51 | only the first 64 symbols of the table are used |
| `Codec.MaskBytes` | MobaXterm-GenKey/app.py:79-84 | the loop that feeds back into its key has a closed form: the key's high byte once, then 0x48 |
| `Codec.MaskedTwice` | MobaXterm-GenKey/app.py:79-84 | at a fixed key it undoes itself |
| `Codec.MaskedEncodedInjective` | MobaXterm-GenKey/app.py:53-84 | masked and encoded, different texts stay different |

## Left out

- HadoopController.ApiServer.ReplaceOrCreate: resource versions and API conflicts are no more than a failed call; so are immutable StatefulSet fields.
- HadoopController.HandleEvents: the framework's timers, the deletion handler (which does nothing) and garbage collection by owner references are not modelled.
- HadoopController.ReconcileHadoop: a connection error of the HTTP library is no `ApiException`, so the handler would not turn it into the retryable error; the model counts all failed calls alike.
- HadoopResources: container commands, probes, images, resource quantities and volume claims are opaque parts of the built objects; the XML and shell texts are opaque functions of the settings they are made from.
- HadoopBuildable.BuildableExactly: what the Kubernetes client library checks on its own when an object is built or sent is not part of this model.
- HadoopSpec.NormalizeIdempotent: specs are JSON values; `int()` is modelled on decimal texts without underscores or non-ASCII digits.
- HadoopResources: PodDisruptionBudget deletion is not modelled because the controller never calls it.
- YamlBuild.InsertKey: nodes are addressed by paths instead of object identity, which is the same because the structure is a tree at all times; `str.isdigit` and `int` are modelled on ASCII digits.
- YamlReadBack.ToYamlReadsBackExactly: the reader hands on every scalar as its text, without resolving numbers, booleans or nulls; it knows no document markers, so a top-level name that starts like one (`--- `) counts as a name.
- EnvRoutes.ConfigKeyExactly: `str.lower` is modelled on ASCII letters, where it keeps the length; a variable name holding a slash would name a file in another directory.
- EnvToConf.PropertiesCompiled: says nothing of a routed entry with a carriage return that a later entry of the same key replaces; what the first line of its torn value leaves behind is then up to the text after the carriage return.
- EnvToConf.Simple.Transform: file encodings and input or output errors are not modelled; line ends are those of a system whose own is LF.
- Uploader: reading the configuration file, installing packages, connecting and the console display are left out; the display only appears as an action that may raise.
- UploadTask.RunDirTask: two tasks that store under the same object name overwrite each other in the bucket; only the names stored are modelled, not the contents.
- GoReconciler: reads come from the server, not from a cache that lags behind; a stale read would make every later write of that call fail. Events, log lines and the active and standby names in the status are left out, and each component reconciler is one action that succeeds, fails or asks for another turn.
- GoReconcilerRuns.DeparturesMarked: the other actors add and remove finalizers of their own, change the specification and delete the object, but none removes the operator's finalizer or edits the status; and a write that fails never takes effect, so the lost answers of the Kopf operator's server are not modelled here.
- GoConfig.XmlReadsBackExactly: the reader takes the layout the writer uses; entity and character references, which the writer never emits on purpose, count as unreadable.
- GoConfigHash.ComputeConfigText: the MD5 digest of the text is left out.
- Webhook: defaults set by the schema of the custom resource definition are applied before the webhook and are not modelled; fields the webhook never touches are left out.
- DeepCopy.CopyCluster: of the specification, the name node, configuration and security parts stand for the whole; the image, data node, YARN and metrics parts have the same shapes. Types from the Kubernetes packages are opaque values.
- Codec: licence texts, archives and routes are left out, since they carry no proof content.
- The other operators, the older copies of the scripts, installation scripts, manifests and pages are left out, since they are plumbing or static data.
