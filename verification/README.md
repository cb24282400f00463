# CronJob resource adapter

A Dafny model of the CronJob adapter of a cluster resource browser. The
adapter binds an injected *caller* (the per-kind remote-access handle) to one
cron-job object and offers the uniform resource contract:

- `Header` / `Fields` / `ExtFields` render the object as a table row whose
  columns line up with the header, with an optional leading `NAMESPACE`
  column in the all-namespaces scope;
- `Run` forwards a "run" request to the caller when the caller can run, and
  otherwise fails with an error naming the path, without contacting the
  cluster;
- `NewInstance` populates a fresh adapter from a fetched object in pointer or
  value form and derives its identity path from namespace and name;
- `Marshal` re-fetches the object through the caller, stamps the cron-job API
  version and kind onto it and hands it to the serialiser;
- `NewCronJobListWithArgs` builds the list of cron jobs of a namespace scope
  with its kind name and access mask.

Modules: `Results` (option, error, result), `Text` (decimal rendering of a
count, character search and trimming), `Paths` (building and splitting
`namespace/name` paths), `BatchV1Beta1` (the cron-job object), `K8s` (fetched
objects and the caller sum type `Basic | Runnable`), `Resource` (the adapter)
and `CronJobColumns` (a keyed description of the table that the positional
row and header are proved to follow).

External behaviour enters as parameters: the caller's fetch and run are
function values inside `K8s.Caller`; the age formatter and flag formatter are
the `Resource.Display` record; the serialiser is the `marshalObject` argument
of `Marshal`; the default caller that a freshly built adapter is bound to is
the `k8sCaller` argument.

## Model

| member | source | states |
|---|---|---|
| `Resource.NewCronJobWithArgs` | internal/resource/cronjob.go:46-54 | a new adapter holds no object, an empty path, and the given caller |
| `Resource.NewInstance` | internal/resource/cronjob.go:57-70 | accepts only the pointer or value form of a cron job (anything else is fatal, hence a precondition); the new adapter holds that object, is bound to the default caller, and its path is the object's namespace and name joined |
| `CronJobColumns.NewInstanceFormsAgree` | internal/resource/cronjob.go:59-64 | the pointer form and the value form of the same object give equal adapters and equal rows in every scope |
| `CronJobColumns.InstancePathAddressesObject` | internal/resource/cronjob.go:68-90 | for slash-free namespace and name, splitting the stored path gives them back, so a fetch or run on the adapter's own path addresses its own object |
| `Resource.Header` | internal/resource/cronjob.go:96-102 | seven titles led by `NAMESPACE` in the all-namespaces scope, otherwise six; the last six are always NAME, SCHEDULE, SUSPEND, ACTIVE, LAST_SCHEDULE, AGE; `NAMESPACE` appears exactly in the all-namespaces scope |
| `Resource.LastScheduled` | internal/resource/cronjob.go:113-116 | `<none>` when the job has no last schedule time, otherwise the age of that time |
| `Resource.Fields` | internal/resource/cronjob.go:105-126 | needs a loaded object with a suspend flag; as long as the header; leads with the object's namespace in the all-namespaces scope; then name, schedule, suspend flag, the canonical decimal that reads back as the number of active jobs, last schedule, age |
| `Resource.ExtFields` | internal/resource/cronjob.go:129-131 | no extension properties |
| `CronJobColumns.TitleRoundTrip` | internal/resource/cronjob.go:99-101 | the column titles are pairwise distinct: each title names its own column |
| `CronJobColumns.HeaderFollowsLayout` | internal/resource/cronjob.go:96-102 | the header is the scope's column layout, titled |
| `CronJobColumns.FieldsFollowLayout` | internal/resource/cronjob.go:105-126 | the row is the same layout, each position holding the cell of its column for the loaded object |
| `CronJobColumns.RowMatchesHeader` | internal/resource/cronjob.go:96-126 | row and header have equal length and under every title sits the value of the column that title names |
| `CronJobColumns.NamespaceColumnLeadsExactlyForAll` | internal/resource/cronjob.go:98-111 | header and row lead with the namespace column if and only if the scope is all namespaces |
| `CronJobColumns.ExampleRows` | internal/resource/cronjob.go:105-125 | a suspended job in namespace `batch` with schedule `* * * * *`, no active jobs and no last run renders as name, schedule, flag, `0`, `<none>`, age, with `batch` in front in the all-namespaces scope |
| `Text.Decimal` | internal/resource/cronjob.go:122 | a count renders as a non-empty digit string without leading zeros, which is `0` exactly for zero |
| `Text.DecimalRoundTrip` | internal/resource/cronjob.go:122 | reading back the rendered count gives the count |
| `Text.CanonicalDecimalRoundTrip` | internal/resource/cronjob.go:122 | every canonical digit string is the rendering of its value, so rendering is one-to-one onto canonical strings |
| `Resource.UnableToRun` | internal/resource/cronjob.go:92 | the error message ends with the path |
| `Resource.Run` | internal/resource/cronjob.go:87-93 | a runnable caller receives exactly one run request, for the split path, and its answer is returned; a caller that cannot run receives no request and the result is the unable-to-run error naming the path |
| `Resource.Stamp` | internal/resource/cronjob.go:80-82 | API version `extensions/batchv1beta1` and kind `CronJob` replace whatever the object held; metadata, spec and status are untouched |
| `Resource.Marshal` | internal/resource/cronjob.go:73-84 | a failed fetch of the split path is returned unchanged; otherwise the serialiser gets the fetched object with the cron-job type identity and its own metadata, spec and status |
| `CronJobColumns.MarshalIgnoresLoadedInstance` | internal/resource/cronjob.go:73-75 | the output does not depend on the object the adapter has loaded: it is always re-fetched |
| `CronJobColumns.MarshalOverwritesTypeMeta` | internal/resource/cronjob.go:80-83 | fetched objects that differ only in their type identity marshal to the same output |
| `CronJobColumns.MarshalRoundTrip` | internal/resource/cronjob.go:73-84 | with a serialiser that a parser inverts, parsing the output gives the fetched object with API version `extensions/batchv1beta1` and kind `CronJob` |
| `Paths.NamespacedName` | internal/resource/cronjob.go:68 | for slash-free parts, the path holds a slash exactly when the namespace is non-empty |
| `Paths.Namespaced` | internal/resource/cronjob.go:74 | the name part holds no slash; a path without a slash is a bare name in no namespace |
| `Paths.SplitJoin` | internal/resource/cronjob.go:68-74 | splitting a path built from slash-free namespace and name gives both back |
| `Paths.JoinSplit` | internal/resource/cronjob.go:88 | joining the parts of a well-formed path (at most one slash, never in front) gives the path back |
| `Paths.JoinIsWellFormed` | internal/resource/cronjob.go:68 | every path built from slash-free namespace and name is well formed |
| `Paths.WellFormedIsJoin` | internal/resource/cronjob.go:68-74 | every well-formed path splits into slash-free parts that join back to it, so the well-formed paths are exactly those the adapter builds |
| `Resource.NewCronJobListWithArgs` | internal/resource/cronjob.go:36-38 | the list keeps the scope and template adapter, has kind `cronjob` and offers both the all-verbs and the describe access |
| `Resource.NewCronJobList` | internal/resource/cronjob.go:31-33 | the list keeps the scope, has kind `cronjob`, offers both the all-verbs and the describe access, and its template adapter is empty, has an empty path and is bound to the default caller |

## Left out

- `toAge` and `boolToStr` are defined outside cronjob.go (the age depends on the clock): they are the two function values of `Resource.Display`, left uninterpreted.
- `namespaced` and `namespacedName` are defined outside cronjob.go. The model assumes `namespaced` is `path.Split` with the slashes of the directory part trimmed, and `namespacedName` joins namespace and name with a slash, or gives the bare name when the namespace is empty.
- The value of `AllNamespaces` is defined outside cronjob.go; the model fixes it to the empty string; proofs depend on it only in that `ExampleRows` takes `"batch"` to be a single namespace and not the all-namespaces scope.
- The bit values of `AllVerbsAccess` and `DescribeAccess`, and the internals of `newList`, are defined outside cronjob.go: the mask is a set of the two named flags, and `|` is set union.
- `marshalObject` and the YAML printer are a foreign serialiser: the `marshalObject` argument of `Marshal`.
- The cluster caller `k8s.NewCronJob()` and its network calls are I/O: fetch and run are function values in `K8s.Caller`, and the default caller is a parameter. `NewCronJob` (lines 41-43) is therefore `NewCronJobWithArgs` applied to that parameter and has no separate member.
- A nil cron-job pointer is not modelled: `K8s.CronJobPointer` always holds an object. In Go, a nil `*CronJob` handed to `NewInstance` passes the type switch and then panics when line 68 reads its metadata. A fetch that returns a nil pointer without an error panics when lines 81-82 stamp it. Both cases end the process; the model has no value for either input, so neither is expressed.
- `log.Fatalf` ends the process: it is the precondition `IsCronJob` of `NewInstance`; the type assertion after the fetch in `Marshal` would panic on anything but a pointer, and is the precondition `FetchYieldsPointer`.
- Resource.Marshal: the source returns the pair `("", err)`; the model returns `Err(err)` and has no text on failure.
- Resource.Marshal: the source stamps the fetched object in place, which the caller may share; the model works on values and does not model that aliasing.
- The `creator` self-reference of `Base` only serves dispatch through embedding and is not modelled.
- Resource.Run: the remote effect of running is represented only by the list of run requests handed to the caller; what the cluster does with them is outside this layer.
