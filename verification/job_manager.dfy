/** JobManager: identity and lifecycle bookkeeping of Job records in the shared store. */
module Jobs {
  import opened Outcomes
  import opened JavaInt
  import opened Model

  class JobManager {
    const store: Store

    constructor (store: Store)
      ensures this.store == store
    {
      this.store := store;
    }

    ghost predicate Valid()
      reads store
    {
      store.Valid()
    }

    /**
     * getJobById: `new Integer(id)` (NumberFormatException on a malformed id), then the stored
     * Job, or ResourceNotFoundException when there is none.
     */
    function GetJobById(id: string): (r: Result<Job>)
      reads store
      ensures ParseInt(id).None? ==> r == Err(NumberFormat(id))
      ensures r.Ok? <==> ParseInt(id).Some? && ParseInt(id).value in store.jobs
      ensures r.Ok? ==> r.value == store.jobs[ParseInt(id).value]
      ensures ParseInt(id).Some? && ParseInt(id).value !in store.jobs ==> r.Err? && r.error.ResourceNotFound?
    {
      match ParseInt(id)
      case None => Err(NumberFormat(id))
      case Some(key) =>
        if key in store.jobs then Ok(store.jobs[key]) else Err(ResourceNotFound("Invalid Job id " + id))
    }

    /**
     * createJob: a new RUNNING Job with the given target entity and action, whose parent is the
     * Job named by parentJob when that is non-null; a parentJob that names no Job makes the call
     * fail with getJobById's exception and nothing is persisted. Returns the new Job's key.
     */
    method CreateJob(targetEntity: Option<string>, action: Option<string>, parentJob: Option<string>)
      returns (r: Result<int>)
      requires Valid()
      modifies store
      ensures Valid()
      ensures r.Err? <==> parentJob.Some? && old(GetJobById(parentJob.value)).Err?
      ensures r.Err? ==> r.error == old(GetJobById(parentJob.value)).error && unchanged(store)
      ensures r.Ok? ==>
        && r.value !in old(store.jobs)
        && store.jobs == old(store.jobs)[r.value := NewJob(RUNNING).(
             targetEntity := targetEntity,
             action := action,
             parentJob := if parentJob.Some? then ParseInt(parentJob.value) else None)]
      ensures r.Ok? ==> |store.jobs| == |old(store.jobs)| + 1
      ensures r.Ok? && parentJob.Some? ==> ParseInt(parentJob.value).value in store.jobs
      ensures store.volumes == old(store.volumes) && store.volumeImages == old(store.volumeImages)
      ensures store.links == old(store.links)
      ensures store.configurations == old(store.configurations) && store.templates == old(store.templates)
    {
      var j := NewJob(RUNNING).(targetEntity := targetEntity, action := action);
      if parentJob.Some? {
        var parent := GetJobById(parentJob.value);
        if parent.Err? {
          return Err(parent.error);
        }
        j := j.(parentJob := ParseInt(parentJob.value));
      }
      var id := store.PersistJob(j);
      r := Ok(id);
    }

    /**
     * updateJob: the merged Job replaces the stored one with the same key, and the re-read
     * record is returned. The merged Job's Volume or VolumeImage target must be persisted.
     */
    method UpdateJob(id: int, job: Job) returns (r: Result<Job>)
      requires Valid() && store.TargetStored(job)
      modifies store
      ensures Valid()
      ensures r.Ok? <==> id in old(store.jobs)
      ensures r.Ok? ==> r.value == job && store.jobs == old(store.jobs)[id := job]
      ensures r.Err? ==> r.error.ResourceNotFound? && unchanged(store)
      ensures store.volumes == old(store.volumes) && store.volumeImages == old(store.volumeImages)
      ensures store.links == old(store.links)
      ensures store.configurations == old(store.configurations) && store.templates == old(store.templates)
    {
      if id !in store.jobs {
        return Err(ResourceNotFound("Invalid Job id " + Show(id)));
      }
      store.jobs := store.jobs[id := job];
      r := Ok(job);
    }

    /** deleteJob: removes exactly the named Job; a missing or malformed id fails as getJobById. */
    method DeleteJob(id: string) returns (r: Result<()>)
      requires Valid()
      modifies store
      ensures Valid()
      ensures r.Err? <==> old(GetJobById(id)).Err?
      ensures r.Err? ==> r.error == old(GetJobById(id)).error && unchanged(store)
      ensures r.Ok? ==> store.jobs == old(store.jobs) - {ParseInt(id).value}
      ensures r.Ok? ==> |store.jobs| == |old(store.jobs)| - 1
      ensures store.volumes == old(store.volumes) && store.volumeImages == old(store.volumeImages)
      ensures store.links == old(store.links)
      ensures store.configurations == old(store.configurations) && store.templates == old(store.templates)
    {
      var found := GetJobById(id);
      if found.Err? {
        return Err(found.error);
      }
      store.jobs := store.jobs - {ParseInt(id).value};
      r := Ok(());
    }
  }
}
