/** The slice of the cluster's `batch/v1beta1` CronJob object that the
    adapter reads or writes. */
module BatchV1Beta1 {
  import opened Results

  /** A timestamp; only the external age formatter interprets it. */
  datatype Time = Time(unixNanos: int)

  /** The object's self-description: API group/version and kind name. */
  datatype TypeMeta = TypeMeta(apiVersion: string, kind: string)

  datatype ObjectMeta = ObjectMeta(namespace: string, name: string, creationTimestamp: Time)

  /** A reference to one job the cron job has started and that is still running. */
  datatype ObjectReference = ObjectReference(kind: string, namespace: string, name: string)

  /** `suspend` is a pointer in the Go type and may be unset. */
  datatype CronJobSpec = CronJobSpec(schedule: string, suspend: Option<bool>)

  /** `lastScheduleTime` is a pointer in the Go type and may be unset. */
  datatype CronJobStatus = CronJobStatus(active: seq<ObjectReference>, lastScheduleTime: Option<Time>)

  datatype CronJob = CronJob(typeMeta: TypeMeta, meta: ObjectMeta, spec: CronJobSpec, status: CronJobStatus)
}
