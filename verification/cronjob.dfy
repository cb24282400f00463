/** The CronJob resource adapter: it binds an injected caller to one cron-job
    object, renders that object as a table row, serialises a freshly fetched
    copy, and forwards "run" requests to callers that can run. */
module Resource {
  import opened Results
  import opened Text
  import opened Paths
  import opened K8s
  import B = BatchV1Beta1

  /** The namespace scope meaning "every namespace". */
  const AllNamespaces: string := ""

  /** One display line: a value per header column, matched by position. */
  type Row = seq<string>

  /** Extra named display values beyond the positional columns. */
  type Properties = map<string, string>

  /** The columns every cron-job row has, after the optional namespace. */
  const FixedColumns: Row := ["NAME", "SCHEDULE", "SUSPEND", "ACTIVE", "LAST_SCHEDULE", "AGE"]

  /** What the LAST_SCHEDULE cell shows for a job that never ran. */
  const NoneSentinel: string := "<none>"

  /** The type identity stamped onto every serialised cron job. */
  const CronJobAPIVersion: string := "extensions/batchv1beta1"
  const CronJobKind: string := "CronJob"

  /** The kind name a cron-job list is registered under. */
  const CronJobListKind: string := "cronjob"

  /** The two formatters the rendering borrows from elsewhere: the age of a
      timestamp relative to the current time, and the spelling of a flag. */
  datatype Display = Display(toAge: B.Time -> string, boolToStr: bool -> string)

  /** State shared by every adapter: its caller and the identity path of the
      object it holds. */
  datatype Base = Base(caller: Caller, path: string)

  /** A cron-job adapter; `instance` is `None` until it is populated. */
  datatype CronJob = CronJob(base: Base, instance: Option<B.CronJob>)

  /** An empty adapter bound to caller `r`. */
  function NewCronJobWithArgs(r: Caller): (cj: CronJob)
    ensures cj.instance.None?
    ensures cj.base.caller == r && cj.base.path == ""
  {
    CronJob(Base(r, ""), None)
  }

  /** The object kinds `NewInstance` accepts; anything else ends the process. */
  predicate IsCronJob(o: Object) {
    o.CronJobPointer? || o.CronJobValue?
  }

  /** Populates a fresh adapter from a fetched object. The new adapter is
      bound to `k8sCaller`, the default cron-job caller, not to the caller of
      the adapter the call is made on. */
  function NewInstance(o: Object, k8sCaller: Caller): (job: CronJob)
    requires IsCronJob(o)
    ensures job.instance == Some(o.cronJob)
    ensures job.base.caller == k8sCaller
    ensures job.base.path == NamespacedName(o.cronJob.meta.namespace, o.cronJob.meta.name)
  {
    var job := NewCronJobWithArgs(k8sCaller);
    var job := job.(instance := Some(o.cronJob));
    job.(base := job.base.(path := NamespacedName(job.instance.value.meta.namespace, job.instance.value.meta.name)))
  }

  /** The column titles for a namespace scope. */
  function Header(ns: string): (hh: Row)
    ensures |hh| == if ns == AllNamespaces then 7 else 6
    ensures ns == AllNamespaces ==> hh[0] == "NAMESPACE"
    ensures hh[|hh| - 6..] == FixedColumns
    ensures "NAMESPACE" in hh <==> ns == AllNamespaces
  {
    var hh := if ns == AllNamespaces then ["NAMESPACE"] else [];
    hh + FixedColumns
  }

  /** Rendering dereferences the instance and its suspend flag. */
  predicate Renderable(r: CronJob) {
    r.instance.Some? && r.instance.value.spec.suspend.Some?
  }

  /** The LAST_SCHEDULE cell: the sentinel when the job never ran. */
  function LastScheduled(status: B.CronJobStatus, d: Display): (cell: string)
    ensures status.lastScheduleTime.None? ==> cell == NoneSentinel
    ensures status.lastScheduleTime.Some? ==> cell == d.toAge(status.lastScheduleTime.value)
  {
    match status.lastScheduleTime
    case None => NoneSentinel
    case Some(t) => d.toAge(t)
  }

  /** The row of the loaded object, column for column with `Header(ns)`. */
  function Fields(r: CronJob, ns: string, d: Display): (ff: Row)
    requires Renderable(r)
    ensures |ff| == |Header(ns)|
    ensures ns == AllNamespaces ==> ff[0] == r.instance.value.meta.namespace
    ensures var i, k := r.instance.value, |ff| - 6;
      && ff[k] == i.meta.name
      && ff[k + 1] == i.spec.schedule
      && ff[k + 2] == d.boolToStr(i.spec.suspend.value)
      && CanonicalDecimal(ff[k + 3]) && ParseDecimal(ff[k + 3]) == Some(|i.status.active|)
      && (i.status.lastScheduleTime.None? ==> ff[k + 4] == NoneSentinel)
      && (i.status.lastScheduleTime.Some? ==> ff[k + 4] == d.toAge(i.status.lastScheduleTime.value))
      && ff[k + 5] == d.toAge(i.meta.creationTimestamp)
  {
    var i := r.instance.value;
    var ff := if ns == AllNamespaces then [i.meta.namespace] else [];
    DecimalRoundTrip(|i.status.active|);
    ff + [ i.meta.name,
           i.spec.schedule,
           d.boolToStr(i.spec.suspend.value),
           Decimal(|i.status.active|),
           LastScheduled(i.status, d),
           d.toAge(i.meta.creationTimestamp) ]
  }

  /** Cron jobs have no display values beyond the positional columns. */
  function ExtFields(): (p: Properties)
    ensures p.Keys == {}
  {
    map[]
  }

  /** The run request a runnable caller receives. */
  datatype RunRequest = RunRequest(namespace: string, name: string)

  /** What `Run` reports, and the run requests it handed to the caller. */
  datatype RunOutcome = RunOutcome(err: Option<Error>, requests: seq<RunRequest>)

  /** The error for a caller that cannot run; it names the path. */
  function UnableToRun(pa: string): (e: Error)
    ensures |pa| <= |e.message| && e.message[|e.message| - |pa|..] == pa
  {
    Error("unable to run cronjob " + pa)
  }

  /** Triggers a run of the cron job at path `pa` when the caller can run,
      and otherwise fails without contacting the cluster. */
  function Run(r: CronJob, pa: string): (o: RunOutcome)
    ensures r.base.caller.Runnable? ==>
      var (ns, n) := Namespaced(pa);
      o.requests == [RunRequest(ns, n)] && o.err == r.base.caller.run(ns, n)
    ensures r.base.caller.Basic? ==> o.requests == [] && o.err == Some(UnableToRun(pa))
  {
    var (ns, n) := Namespaced(pa);
    match r.base.caller
    case Runnable(_, run) => RunOutcome(run(ns, n), [RunRequest(ns, n)])
    case Basic(_) => RunOutcome(Some(UnableToRun(pa)), [])
  }

  /** The fetch `Marshal` performs: the object at `path`, through the caller. */
  function Fetch(c: Caller, path: string): Result<Object> {
    c.get(Namespaced(path).0, Namespaced(path).1)
  }

  /** The caller hands back cron jobs behind a pointer, as the type assertion
      after the fetch demands. */
  predicate FetchYieldsPointer(c: Caller, path: string) {
    Fetch(c, path).Ok? ==> Fetch(c, path).value.CronJobPointer?
  }

  /** The fetched object with its type identity overwritten. */
  function Stamp(cj: B.CronJob): (s: B.CronJob)
    ensures s.typeMeta == B.TypeMeta(CronJobAPIVersion, CronJobKind)
    ensures s.meta == cj.meta && s.spec == cj.spec && s.status == cj.status
  {
    cj.(typeMeta := B.TypeMeta(CronJobAPIVersion, CronJobKind))
  }

  /** Serialises the cron job at `path` as it is now on the cluster: a failed
      fetch is passed on unchanged, otherwise the stamped object goes to the
      serialiser `marshalObject`. */
  function Marshal(r: CronJob, path: string, marshalObject: B.CronJob -> Result<string>): (out: Result<string>)
    requires FetchYieldsPointer(r.base.caller, path)
    ensures Fetch(r.base.caller, path).Err? ==> out == Err(Fetch(r.base.caller, path).error)
    ensures Fetch(r.base.caller, path).Ok? ==>
      exists cj :: Fetch(r.base.caller, path).value == CronJobPointer(cj)
                   && out == marshalObject(B.CronJob(B.TypeMeta(CronJobAPIVersion, CronJobKind), cj.meta, cj.spec, cj.status))
  {
    var (ns, n) := Namespaced(path);
    var i := r.base.caller.get(ns, n);
    if i.Err? then Err(i.error)
    else
      var cj := i.value.cronJob;
      marshalObject(Stamp(cj))
  }

  /** The access verbs a list of this kind offers. */
  datatype AccessFlag = AllVerbsAccess | DescribeAccess

  /** A namespace-scoped list of one kind, with the template adapter used to
      build its entries and its access mask. */
  datatype List = List(namespace: string, kind: string, resource: CronJob, access: set<AccessFlag>)

  /** A cron-job list over `ns` built around the template adapter `res`. */
  function NewCronJobListWithArgs(ns: string, res: CronJob): (l: List)
    ensures l.namespace == ns && l.resource == res
    ensures l.kind == CronJobListKind
    ensures AllVerbsAccess in l.access && DescribeAccess in l.access
  {
    List(ns, CronJobListKind, res, {AllVerbsAccess} + {DescribeAccess})
  }

  /** A cron-job list whose template is an empty adapter on the default
      caller. */
  function NewCronJobList(ns: string, k8sCaller: Caller): (l: List)
    ensures l.namespace == ns && l.kind == CronJobListKind
    ensures AllVerbsAccess in l.access && DescribeAccess in l.access
    ensures l.resource.instance.None? && l.resource.base.caller == k8sCaller && l.resource.base.path == ""
  {
    NewCronJobListWithArgs(ns, NewCronJobWithArgs(k8sCaller))
  }
}
