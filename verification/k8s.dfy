/** The boundary to the cluster: the values a fetch can hand back and the
    injected caller that performs fetches and, for some kinds, runs. */
module K8s {
  import opened Results
  import BatchV1Beta1

  /** The dynamically typed value a fetch returns: a cron job behind a
      pointer, a cron job by value, or an object of some other kind. */
  datatype Object =
    | CronJobPointer(cronJob: BatchV1Beta1.CronJob)
    | CronJobValue(cronJob: BatchV1Beta1.CronJob)
    | OtherKind(description: string)

  /** The injected remote-access handle. Every caller can fetch one object by
      namespace and name; a `Runnable` one can also trigger a run. Which of
      the two a caller is stands for the dynamic interface check of the
      source. */
  datatype Caller =
    | Basic(get: (string, string) -> Result<Object>)
    | Runnable(get: (string, string) -> Result<Object>, run: (string, string) -> Option<Error>)
}
