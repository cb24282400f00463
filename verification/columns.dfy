/** An independent, keyed description of the cron-job table: which columns a
    scope shows, how each is titled, and what each shows for one object. The
    lemmas here tie the positional `Header` and `Fields` of the adapter to it,
    so that every value sits under the title of the column it belongs to. */
module CronJobColumns {
  import opened Results
  import opened Text
  import opened Paths
  import opened K8s
  import opened Resource
  import B = BatchV1Beta1

  datatype Column = Namespace | Name | Schedule | Suspend | Active | LastSchedule | Age

  function Title(c: Column): string {
    match c
    case Namespace => "NAMESPACE"
    case Name => "NAME"
    case Schedule => "SCHEDULE"
    case Suspend => "SUSPEND"
    case Active => "ACTIVE"
    case LastSchedule => "LAST_SCHEDULE"
    case Age => "AGE"
  }

  /** The column a title names, if any. */
  function ColumnTitled(t: string): (c: Option<Column>)
    ensures c.Some? ==> Title(c.value) == t
  {
    if t == "NAMESPACE" then Some(Namespace)
    else if t == "NAME" then Some(Name)
    else if t == "SCHEDULE" then Some(Schedule)
    else if t == "SUSPEND" then Some(Suspend)
    else if t == "ACTIVE" then Some(Active)
    else if t == "LAST_SCHEDULE" then Some(LastSchedule)
    else if t == "AGE" then Some(Age)
    else None
  }

  /** Titles are distinct: each names its own column back. */
  lemma TitleRoundTrip(c: Column)
    ensures ColumnTitled(Title(c)) == Some(c)
  {
  }

  /** The columns a scope shows, in display order. */
  function Layout(ns: string): seq<Column> {
    (if ns == AllNamespaces then [Namespace] else []) + [Name, Schedule, Suspend, Active, LastSchedule, Age]
  }

  /** What column `c` shows for cron job `i`. */
  function Cell(c: Column, i: B.CronJob, d: Display): string
    requires i.spec.suspend.Some?
  {
    match c
    case Namespace => i.meta.namespace
    case Name => i.meta.name
    case Schedule => i.spec.schedule
    case Suspend => d.boolToStr(i.spec.suspend.value)
    case Active => Decimal(|i.status.active|)
    case LastSchedule => LastScheduled(i.status, d)
    case Age => d.toAge(i.meta.creationTimestamp)
  }

  /** The header is the layout, titled. */
  lemma HeaderFollowsLayout(ns: string)
    ensures |Header(ns)| == |Layout(ns)|
    ensures forall k :: 0 <= k < |Layout(ns)| ==> Header(ns)[k] == Title(Layout(ns)[k])
  {
    var hh, off := Header(ns), if ns == AllNamespaces then 1 else 0;
    assert Layout(ns)[off..] == [Name, Schedule, Suspend, Active, LastSchedule, Age];
    forall k | 0 <= k < |Layout(ns)|
      ensures hh[k] == Title(Layout(ns)[k])
    {
      if k >= off {
        assert Layout(ns)[k] == Layout(ns)[off..][k - off];
        assert hh[k] == hh[off..][k - off] == FixedColumns[k - off];
      }
    }
  }

  /** The row is the layout, filled in from the loaded object. */
  lemma FieldsFollowLayout(r: CronJob, ns: string, d: Display)
    requires Renderable(r)
    ensures |Fields(r, ns, d)| == |Layout(ns)|
    ensures forall k :: 0 <= k < |Layout(ns)| ==> Fields(r, ns, d)[k] == Cell(Layout(ns)[k], r.instance.value, d)
  {
    var ff, i := Fields(r, ns, d), r.instance.value;
    var off := if ns == AllNamespaces then 1 else 0;
    assert Layout(ns)[off..] == [Name, Schedule, Suspend, Active, LastSchedule, Age];
    forall k | 0 <= k < |Layout(ns)|
      ensures ff[k] == Cell(Layout(ns)[k], i, d)
    {
      if k >= off {
        assert Layout(ns)[k] == Layout(ns)[off..][k - off];
      }
    }
  }

  /** Header and row line up: equal length, and under every title sits the
      value of the column that title names. */
  lemma {:induction false} RowMatchesHeader(r: CronJob, ns: string, d: Display)
    requires Renderable(r)
    ensures |Fields(r, ns, d)| == |Header(ns)|
    ensures forall k :: 0 <= k < |Header(ns)| ==>
      ColumnTitled(Header(ns)[k]).Some? && Fields(r, ns, d)[k] == Cell(ColumnTitled(Header(ns)[k]).value, r.instance.value, d)
  {
    HeaderFollowsLayout(ns);
    FieldsFollowLayout(r, ns, d);
    forall k | 0 <= k < |Header(ns)|
      ensures ColumnTitled(Header(ns)[k]) == Some(Layout(ns)[k])
    {
      TitleRoundTrip(Layout(ns)[k]);
    }
  }

  /** The row leads with the namespace column exactly in the all-namespaces
      scope, and the header with its title. */
  lemma NamespaceColumnLeadsExactlyForAll(ns: string)
    ensures Layout(ns)[0] == Namespace <==> ns == AllNamespaces
    ensures Header(ns)[0] == "NAMESPACE" <==> ns == AllNamespaces
  {
  }

  /** Both forms a caller may hand over populate the same adapter, and so
      render the same row. */
  lemma NewInstanceFormsAgree(cj: B.CronJob, k8sCaller: Caller, ns: string, d: Display)
    ensures NewInstance(CronJobPointer(cj), k8sCaller) == NewInstance(CronJobValue(cj), k8sCaller)
    ensures cj.spec.suspend.Some? ==>
      Fields(NewInstance(CronJobPointer(cj), k8sCaller), ns, d) == Fields(NewInstance(CronJobValue(cj), k8sCaller), ns, d)
  {
  }

  /** The path a populated adapter stores leads back to its object: a run or a
      fetch on that path addresses the object's own namespace and name. */
  lemma InstancePathAddressesObject(o: Object, k8sCaller: Caller)
    requires IsCronJob(o)
    requires Separator !in o.cronJob.meta.namespace && Separator !in o.cronJob.meta.name
    ensures var job := NewInstance(o, k8sCaller);
      && Namespaced(job.base.path) == (o.cronJob.meta.namespace, o.cronJob.meta.name)
      && Fetch(job.base.caller, job.base.path) == k8sCaller.get(o.cronJob.meta.namespace, o.cronJob.meta.name)
      && (k8sCaller.Runnable? ==>
            Run(job, job.base.path).requests == [RunRequest(o.cronJob.meta.namespace, o.cronJob.meta.name)])
  {
    SplitJoin(o.cronJob.meta.namespace, o.cronJob.meta.name);
  }

  /** Marshal works on a fresh fetch: the adapter's loaded object plays no part. */
  lemma MarshalIgnoresLoadedInstance(r: CronJob, other: Option<B.CronJob>, path: string, marshalObject: B.CronJob -> Result<string>)
    requires FetchYieldsPointer(r.base.caller, path)
    ensures Marshal(r, path, marshalObject) == Marshal(r.(instance := other), path, marshalObject)
  {
  }

  /** Whatever type identity the fetched objects carried, objects that agree
      otherwise marshal to the same text. */
  lemma MarshalOverwritesTypeMeta(r1: CronJob, r2: CronJob, path: string, marshalObject: B.CronJob -> Result<string>)
    requires Fetch(r1.base.caller, path).Ok? && Fetch(r1.base.caller, path).value.CronJobPointer?
    requires Fetch(r2.base.caller, path).Ok? && Fetch(r2.base.caller, path).value.CronJobPointer?
    requires var a, b := Fetch(r1.base.caller, path).value.cronJob, Fetch(r2.base.caller, path).value.cronJob;
      a.meta == b.meta && a.spec == b.spec && a.status == b.status
    ensures Marshal(r1, path, marshalObject) == Marshal(r2, path, marshalObject)
  {
  }

  /** With a serialiser that a parser inverts, parsing the marshalled text
      gives back the fetched object carrying the cron-job type identity, even
      if the fetched object carried none. */
  lemma MarshalRoundTrip(r: CronJob, path: string,
                         marshalObject: B.CronJob -> Result<string>, parse: string -> Option<B.CronJob>)
    requires FetchYieldsPointer(r.base.caller, path)
    requires forall cj :: marshalObject(cj).Ok? ==> parse(marshalObject(cj).value) == Some(cj)
    ensures Marshal(r, path, marshalObject).Ok? ==>
      var fetched := Fetch(r.base.caller, path).value.cronJob;
      var back := parse(Marshal(r, path, marshalObject).value);
      && back.Some?
      && back.value.typeMeta == B.TypeMeta(CronJobAPIVersion, CronJobKind)
      && back.value.meta == fetched.meta && back.value.spec == fetched.spec && back.value.status == fetched.status
  {
    if Marshal(r, path, marshalObject).Ok? {
      var fetched := Fetch(r.base.caller, path).value.cronJob;
      assert Marshal(r, path, marshalObject) == marshalObject(Stamp(fetched));
    }
  }

  /** The worked example: a suspended job with no active runs that never ran,
      outside and inside the all-namespaces scope. */
  lemma ExampleRows(name: string, created: B.Time, d: Display)
    ensures var cj := B.CronJob(B.TypeMeta("", ""), B.ObjectMeta("batch", name, created),
                                B.CronJobSpec("* * * * *", Some(true)), B.CronJobStatus([], None));
            var job := NewInstance(CronJobPointer(cj), Basic((ns, n) => Err(Error(""))));
      && Fields(job, "batch", d) == [name, "* * * * *", d.boolToStr(true), "0", "<none>", d.toAge(created)]
      && Fields(job, AllNamespaces, d) == ["batch", name, "* * * * *", d.boolToStr(true), "0", "<none>", d.toAge(created)]
  {
  }
}
