/**
 * VolumeManager: submits volume and volume-image operations to a provider connector,
 * persists the resource and its Job, and later reconciles a completed provider job into
 * the resource's final state. Also the volume configuration and template bookkeeping.
 */
module Volumes {
  import opened Outcomes
  import opened JavaInt
  import opened Model
  import opened Jobs
  import opened Reconciliation
  import opened Attributes

  const NO_CONNECTOR: string := "Cannot retrieve cloud provider connector "

  /** A provider job the manager goes on with, and the state it persists the resource in. */
  datatype Accepted = Accepted(placement: Placement, providerJob: ProviderJob, initialState: ResourceState)

  /**
   * The connector protocol of createVolume, before anything is persisted: placement, connector,
   * the connector's create call; a CANCELLED or FAILED job aborts with the provider's message;
   * a RUNNING job leaves the volume CREATING; a SUCCESS job takes the state the connector
   * reports for the new volume.
   */
  function CreateVolumeDecision(spec: VolumeCreate, placement: Result<Placement>, connectors: Placement -> ConnectorLookup)
    : (d: Result<Accepted>)
    ensures placement.Err? ==> d == Err(placement.error)
    ensures placement.Ok? && connectors(placement.value).NotRegistered? ==>
      d == Err(CloudProvider(NO_CONNECTOR + placement.value.providerType))
    ensures placement.Ok? && connectors(placement.value).LookupFailed? ==>
      d == Err(CloudProvider(connectors(placement.value).message))
    ensures placement.Ok? && connectors(placement.value).Found? ==>
      var service := connectors(placement.value).service;
      match service.createVolume(spec)
      case Raised(m) => d == Err(CloudProvider(m))
      case Done(pj) =>
        && (pj.state == CANCELLED || pj.state == FAILED ==> d == Err(CloudProvider(pj.statusMessage)))
        && (pj.state == RUNNING ==> d == Ok(Accepted(placement.value, pj, CREATING)))
        && (pj.state == SUCCESS ==>
             match service.volumeState(pj.targetProviderId)
             case Raised(m) => d == Err(CloudProvider(m))
             case Done(s) => d == Ok(Accepted(placement.value, pj, s)))
  {
    match placement
    case Err(e) => Err(e)
    case Ok(p) =>
      match connectors(p)
      case NotRegistered => Err(CloudProvider(NO_CONNECTOR + p.providerType))
      case LookupFailed(m) => Err(CloudProvider(m))
      case Found(service) =>
        match service.createVolume(spec)
        case Raised(m) => Err(CloudProvider(m))
        case Done(pj) =>
          match Classify(pj)
          case Rejected(m) => Err(CloudProvider(m))
          case Pending => Ok(Accepted(p, pj, CREATING))
          case Completed =>
            match service.volumeState(pj.targetProviderId)
            case Raised(m) => Err(CloudProvider(m))
            case Done(s) => Ok(Accepted(p, pj, s))
  }

  /**
   * The connector protocol of deleteVolume and deleteVolumeImage for a found resource: a
   * missing connector is dereferenced (NullPointerException); a CANCELLED or FAILED job aborts
   * with the provider's message; otherwise the resource goes to DELETING while the job runs,
   * and, when `synchronous` (volumes only), straight to DELETED on SUCCESS.
   */
  function DeleteDecision(r: Resource, connectors: Placement -> ConnectorLookup,
                          call: VolumeService -> string -> ConnectorResult<ProviderJob>, synchronous: bool)
    : (d: Result<Accepted>)
    ensures connectors(r.placement).NotRegistered? ==> d == Err(NullPointer)
    ensures connectors(r.placement).LookupFailed? ==> d == Err(CloudProvider(connectors(r.placement).message))
    ensures connectors(r.placement).Found? ==>
      match call(connectors(r.placement).service)(r.providerAssignedId)
      case Raised(m) => d == Err(CloudProvider(m))
      case Done(pj) =>
        && (pj.state == CANCELLED || pj.state == FAILED ==> d == Err(CloudProvider(pj.statusMessage)))
        && (pj.state == RUNNING ==> d == Ok(Accepted(r.placement, pj, DELETING)))
        && (pj.state == SUCCESS ==> d == Ok(Accepted(r.placement, pj, if synchronous then DELETED else DELETING)))
  {
    match connectors(r.placement)
    case NotRegistered => Err(NullPointer)
    case LookupFailed(m) => Err(CloudProvider(m))
    case Found(service) =>
      match call(service)(r.providerAssignedId)
      case Raised(m) => Err(CloudProvider(m))
      case Done(pj) =>
        match Classify(pj)
        case Rejected(m) => Err(CloudProvider(m))
        case Pending => Ok(Accepted(r.placement, pj, DELETING))
        case Completed => Ok(Accepted(r.placement, pj, if synchronous then DELETED else DELETING))
  }

  /** The connector's deleteVolume call. */
  function DeleteVolumeCall(service: VolumeService): string -> ConnectorResult<ProviderJob>
  {
    service.deleteVolume
  }

  /** The connector's deleteVolumeImage call. */
  function DeleteVolumeImageCall(service: VolumeService): string -> ConnectorResult<ProviderJob>
  {
    service.deleteVolumeImage
  }

  /**
   * The Volume createVolume persists ("prepare the Volume entity"): the provider's id for the
   * target resource, the chosen placement, the request's name, description, capacity and type,
   * a copy of the request's properties (an empty map when it has none), the caller's tenant,
   * never bootable and with no snapshot links yet.
   */
  function NewVolume(spec: VolumeCreate, pj: ProviderJob, p: Placement, tenant: int,
                     state: ResourceState, created: Option<nat>): (v: Volume)
    ensures v.resource.providerAssignedId == pj.targetProviderId && v.resource.placement == p
    ensures v.resource.state == state && v.resource.entity.created == created
    ensures v.resource.entity.tenant == Some(tenant) && v.resource.entity.updated.None?
    ensures v.resource.entity.name == spec.name && v.resource.entity.description == spec.description
    ensures v.resource.entity.properties.Some?
    ensures spec.properties.None? ==> v.resource.entity.properties.value == map[]
    ensures spec.properties.Some? ==> v.resource.entity.properties == spec.properties
    ensures v.capacity == spec.capacity && v.volumeType == spec.volumeType
    ensures !v.bootable && v.images == []
  {
    var properties := if spec.properties.Some? then spec.properties.value else map[];
    Volume(
      Resource(CloudEntity(spec.name, spec.description, Some(properties), Some(tenant), created, None),
               pj.targetProviderId, p, state),
      spec.capacity, spec.volumeType, false, [])
  }

  /** The Job a submission persists, copying the provider job's id, state, action and time. */
  function SubmittedJob(pj: ProviderJob, target: ResourceRef, affected: seq<ResourceRef>,
                        tenant: Option<int>, description: string, now: nat): (j: Job)
    ensures j.state == pj.state && j.providerAssignedId == Some(pj.providerAssignedId)
    ensures j.targetResource == Some(target) && j.affectedResources == affected
    ensures j.action == pj.action && j.timeOfStatusChange == pj.timeOfStatusChange
    ensures j.tenant == tenant && j.created == Some(now) && j.description == Some(description)
    ensures j.parentJob.None? && j.targetEntity.None?
  {
    NewJob(pj.state).(
      tenant := tenant,
      targetResource := Some(target),
      affectedResources := affected,
      created := Some(now),
      description := Some(description),
      providerAssignedId := Some(pj.providerAssignedId),
      action := pj.action,
      timeOfStatusChange := pj.timeOfStatusChange)
  }

  /** The volume state the connector reports now, when there is a connector and it answers. */
  function VolumeStateAnswer(lookup: ConnectorLookup, pid: string): Option<ResourceState>
  {
    if lookup.Found? && lookup.service.volumeState(pid).Done? then Some(lookup.service.volumeState(pid).value) else None
  }

  /** The image state the connector reports now, when there is a connector and it answers. */
  function ImageStateAnswer(lookup: ConnectorLookup, pid: string): Option<ResourceState>
  {
    if lookup.Found? && lookup.service.volumeImageState(pid).Done? then Some(lookup.service.volumeImageState(pid).value) else None
  }

  /**
   * What volumeCompletionHandler does, given the target's provider-assigned id: no single
   * Volume with that id -> false, nothing changes; the connector lookup failing -> its
   * exception; a null action -> NullPointerException; otherwise that Volume is reconciled by
   * the completion table and the result is true.
   */
  ghost predicate VolumeCompleted(before: map<int, Volume>, after: map<int, Volume>, pid: string,
                                  action: Option<string>, state: JobState,
                                  connectors: Placement -> ConnectorLookup, now: nat, r: Result<bool>)
  {
    var matches := WithProviderId(MapValues(before, VolumeResource), pid);
    if |matches| != 1 then r == Ok(false) && after == before
    else forall vid :: vid in matches ==>
      var v := before[vid];
      var lookup := connectors(v.resource.placement);
      if lookup.LookupFailed? then r == Err(CloudProvider(lookup.message)) && after == before
      else if action.None? then r == Err(NullPointer) && after == before
      else
        var row := TableRow(action.value, state);
        r == Ok(true) &&
        after == before[vid := v.(resource := Reconciled(v.resource, row, VolumeStateAnswer(lookup, pid), now))]
  }

  /**
   * What volumeImageCompletionHandler does: as for volumes, and an add that succeeded and got
   * the connector's answer also marks the image's single snapshot link AVAILABLE.
   */
  ghost predicate ImageCompleted(before: map<int, VolumeImage>, after: map<int, VolumeImage>,
                                 linksBefore: map<int, VolumeVolumeImage>, linksAfter: map<int, VolumeVolumeImage>,
                                 pid: string, action: Option<string>, state: JobState,
                                 connectors: Placement -> ConnectorLookup, now: nat, r: Result<bool>)
  {
    var matches := WithProviderId(MapValues(before, ImageResource), pid);
    if |matches| != 1 then r == Ok(false) && after == before && linksAfter == linksBefore
    else forall iid :: iid in matches ==>
      var image := before[iid];
      var lookup := connectors(image.resource.placement);
      if lookup.LookupFailed? then r == Err(CloudProvider(lookup.message)) && after == before && linksAfter == linksBefore
      else if action.None? then r == Err(NullPointer) && after == before && linksAfter == linksBefore
      else
        var row := TableRow(action.value, state);
        var answer := ImageStateAnswer(lookup, pid);
        && r == Ok(true)
        && after == before[iid := VolumeImage(Reconciled(image.resource, row, answer, now))]
        && linksAfter == if row == AddSucceeded && answer.Some? then MarkSnapshotAvailable(linksBefore, iid, now) else linksBefore
  }

  /** Replaying a volume completion with the same connector answers and clock changes nothing. */
  lemma {:induction false} VolumeCompletionReplay(
    before: map<int, Volume>, once: map<int, Volume>, twice: map<int, Volume>, pid: string,
    action: Option<string>, state: JobState, connectors: Placement -> ConnectorLookup, now: nat,
    r1: Result<bool>, r2: Result<bool>)
    requires VolumeCompleted(before, once, pid, action, state, connectors, now, r1)
    requires VolumeCompleted(once, twice, pid, action, state, connectors, now, r2)
    ensures twice == once && r2 == r1
  {
    var matches := WithProviderId(MapValues(before, VolumeResource), pid);
    if |matches| == 1 {
      NonEmptyHasMember(matches);
      var vid :| vid in matches;
      SingletonSet(matches, vid);
      var v := before[vid];
      var lookup := connectors(v.resource.placement);
      if !lookup.LookupFailed? && action.Some? {
        var row := TableRow(action.value, state);
        ReconciledIdempotent(v.resource, row, VolumeStateAnswer(lookup, pid), now);
        assert WithProviderId(MapValues(once, VolumeResource), pid) == matches;
        assert vid in WithProviderId(MapValues(once, VolumeResource), pid);
      } else {
        assert once == before;
      }
    }
  }

  /**
   * Replaying a volume-image completion with the same connector answers and clock changes
   * neither the images nor the snapshot links.
   */
  lemma {:induction false} ImageCompletionReplay(
    before: map<int, VolumeImage>, once: map<int, VolumeImage>, twice: map<int, VolumeImage>,
    linksBefore: map<int, VolumeVolumeImage>, linksOnce: map<int, VolumeVolumeImage>,
    linksTwice: map<int, VolumeVolumeImage>, pid: string, action: Option<string>, state: JobState,
    connectors: Placement -> ConnectorLookup, now: nat, r1: Result<bool>, r2: Result<bool>)
    requires ImageCompleted(before, once, linksBefore, linksOnce, pid, action, state, connectors, now, r1)
    requires ImageCompleted(once, twice, linksOnce, linksTwice, pid, action, state, connectors, now, r2)
    ensures twice == once && linksTwice == linksOnce && r2 == r1
  {
    var matches := WithProviderId(MapValues(before, ImageResource), pid);
    if |matches| == 1 {
      NonEmptyHasMember(matches);
      var iid :| iid in matches;
      SingletonSet(matches, iid);
      var image := before[iid];
      var lookup := connectors(image.resource.placement);
      if !lookup.LookupFailed? && action.Some? {
        var row := TableRow(action.value, state);
        var answer := ImageStateAnswer(lookup, pid);
        ReconciledIdempotent(image.resource, row, answer, now);
        assert WithProviderId(MapValues(once, ImageResource), pid) == matches;
        assert iid in WithProviderId(MapValues(once, ImageResource), pid);
        if row == AddSucceeded && answer.Some? {
          MarkSnapshotAvailableIdempotent(linksBefore, iid, now);
        }
      } else {
        assert once == before;
      }
    }
  }

  /**
   * A snapshot's image is fresh, so no stored link points at it yet; once its link is added,
   * the image's successful completion (with the connector answering) turns exactly that link
   * AVAILABLE and leaves every other link as it was.
   */
  lemma {:induction false} SnapshotCompletionMarksItsLink(
    images: map<int, VolumeImage>, links: map<int, VolumeVolumeImage>, iid: int, lid: int, now: nat)
    requires forall l :: l in links && links[l].volumeImage.Some? ==> links[l].volumeImage.value in images
    requires iid !in images && lid !in links
    ensures var links' := links[lid := VolumeVolumeImage(Some(iid), SNAPSHOTTING, None)];
      && MarkSnapshotAvailable(links', iid, now)[lid] == VolumeVolumeImage(Some(iid), LinkState.AVAILABLE, Some(now))
      && forall l :: l in links ==> MarkSnapshotAvailable(links', iid, now)[l] == links[l]
  {
    forall l | l in links
      ensures links[l].volumeImage != Some(iid)
    {
    }
    NewSnapshotLinkBecomesAvailable(links, lid, iid, now);
  }

  /** The position of the first occurrence of x in s. */
  function FirstIndex(s: seq<int>, x: int): (i: nat)
    requires x in s
    ensures i < |s| && s[i] == x && x !in s[..i]
  {
    if s[0] == x then 0
    else
      var i := FirstIndex(s[1..], x);
      assert s[..i + 1] == [s[0]] + s[1..][..i];
      i + 1
  }

  /** List.remove(Object): drops the first occurrence of x, if any. */
  function RemoveFirst(s: seq<int>, x: int): (r: seq<int>)
    ensures x !in s ==> r == s
    ensures x in s ==> |r| == |s| - 1 && multiset(r) == multiset(s) - multiset{x}
    ensures x in s ==> r == s[..FirstIndex(s, x)] + s[FirstIndex(s, x) + 1..]
  {
    if x !in s then s
    else
      var i := FirstIndex(s, x);
      assert s == s[..i] + [x] + s[i + 1..];
      s[..i] + s[i + 1..]
  }

  /** Every configuration attribute present holds a value of the class its setter casts to. */
  predicate ConfigurationCastsSucceed(attributes: map<string, AttrValue>)
  {
    && CastsSucceed(attributes)
    && ("format" in attributes ==> AsText(attributes["format"]).Ok?)
    && ("capacity" in attributes ==> AsNumber(attributes["capacity"]).Ok?)
    && ("type" in attributes ==> AsText(attributes["type"]).Ok?)
  }

  /** Whether an attribute update touches any field of a VolumeConfiguration. */
  predicate TouchesConfiguration(attributes: map<string, AttrValue>)
  {
    "name" in attributes || "description" in attributes || "properties" in attributes ||
    "format" in attributes || "capacity" in attributes || "type" in attributes
  }

  /** The caller's Volume object handed to createVolumeSnapshot: its id and its placement. */
  datatype SnapshotSource = SnapshotSource(volumeId: Int32, placement: Placement)

  class VolumeManager {
    const store: Store
    const jobManager: JobManager
    /** The provider job ids for which a completion notification has been emitted. */
    ghost var armed: seq<string>

    constructor (store: Store, jobManager: JobManager)
      requires jobManager.store == store
      ensures this.store == store && this.jobManager == jobManager && armed == []
    {
      this.store := store;
      this.jobManager := jobManager;
      armed := [];
    }

    ghost predicate Valid()
      reads store
    {
      jobManager.store == store && store.Valid()
    }

    /** A persisted Volume that is not soft-deleted. */
    predicate LiveVolume(key: int)
      reads store
    {
      key in store.volumes && store.volumes[key].resource.state != DELETED
    }

    /** A persisted VolumeImage that is not soft-deleted. */
    predicate LiveImage(key: int)
      reads store
    {
      key in store.volumeImages && store.volumeImages[key].resource.state != DELETED
    }

    /** getVolumeById: a malformed id raises NumberFormatException; absent or DELETED is not found. */
    function GetVolumeById(volumeId: string): (r: Result<int>)
      reads store
      ensures ParseInt(volumeId).None? ==> r == Err(NumberFormat(volumeId))
      ensures r.Ok? <==> ParseInt(volumeId).Some? && LiveVolume(ParseInt(volumeId).value)
      ensures r.Ok? ==> r.value == ParseInt(volumeId).value
      ensures ParseInt(volumeId).Some? && !LiveVolume(ParseInt(volumeId).value) ==> r.Err? && r.error.ResourceNotFound?
    {
      match ParseInt(volumeId)
      case None => Err(NumberFormat(volumeId))
      case Some(key) => if LiveVolume(key) then Ok(key) else Err(ResourceNotFound(" Invalid volume id " + volumeId))
    }

    /** getVolumeImageById: as getVolumeById, for volume images. */
    function GetVolumeImageById(volumeImageId: string): (r: Result<int>)
      reads store
      ensures ParseInt(volumeImageId).None? ==> r == Err(NumberFormat(volumeImageId))
      ensures r.Ok? <==> ParseInt(volumeImageId).Some? && LiveImage(ParseInt(volumeImageId).value)
      ensures r.Ok? ==> r.value == ParseInt(volumeImageId).value
      ensures ParseInt(volumeImageId).Some? && !LiveImage(ParseInt(volumeImageId).value) ==>
        r.Err? && r.error.ResourceNotFound?
    {
      match ParseInt(volumeImageId)
      case None => Err(NumberFormat(volumeImageId))
      case Some(key) =>
        if LiveImage(key) then Ok(key) else Err(ResourceNotFound(" Invalid volumeImage id " + volumeImageId))
    }

    /** getVolumeConfigurationById: configurations have no soft delete. */
    function GetVolumeConfigurationById(configId: string): (r: Result<int>)
      reads store
      ensures ParseInt(configId).None? ==> r == Err(NumberFormat(configId))
      ensures r.Ok? <==> ParseInt(configId).Some? && ParseInt(configId).value in store.configurations
      ensures r.Ok? ==> r.value == ParseInt(configId).value
      ensures ParseInt(configId).Some? && ParseInt(configId).value !in store.configurations ==>
        r.Err? && r.error.ResourceNotFound?
    {
      match ParseInt(configId)
      case None => Err(NumberFormat(configId))
      case Some(key) =>
        if key in store.configurations then Ok(key)
        else Err(ResourceNotFound(" Invalid Volume Configuration id " + configId))
    }

    /**
     * getVolumeImageFromVolume: the volume must be live, the link must exist and be one of
     * the volume's images; each failure is ResourceNotFound (or the id's NumberFormatException).
     */
    function GetVolumeImageFromVolume(volumeId: string, linkId: string): (r: Result<int>)
      reads store
      ensures GetVolumeById(volumeId).Err? ==> r == GetVolumeById(volumeId)
      ensures GetVolumeById(volumeId).Ok? && ParseInt(linkId).None? ==> r == Err(NumberFormat(linkId))
      ensures r.Ok? <==>
        && GetVolumeById(volumeId).Ok? && ParseInt(linkId).Some?
        && ParseInt(linkId).value in store.links
        && ParseInt(linkId).value in store.volumes[GetVolumeById(volumeId).value].images
      ensures r.Ok? ==> r.value == ParseInt(linkId).value
      ensures GetVolumeById(volumeId).Ok? && ParseInt(linkId).Some? && r.Err? ==> r.error.ResourceNotFound?
    {
      match GetVolumeById(volumeId)
      case Err(e) => Err(e)
      case Ok(vid) =>
        match ParseInt(linkId)
        case None => Err(NumberFormat(linkId))
        case Some(lid) =>
          if lid !in store.links then Err(ResourceNotFound(""))
          else if lid !in store.volumes[vid].images then Err(ResourceNotFound(""))
          else Ok(lid)
    }

    /**
     * newVolumeImage's protocol before anything is persisted: the snapshot's own placement or
     * a new placement, the connector, the snapshotted volume re-read (it must be live), the
     * connector's create call, and the bail-out on a CANCELLED or FAILED job. Gives the
     * placement, the provider job and, for a snapshot, the volume's key.
     */
    function NewVolumeImageDecision(image: VolumeImage, snapshotOf: Option<SnapshotSource>,
                                    placement: Result<Placement>, connectors: Placement -> ConnectorLookup)
      : (d: Result<(Placement, ProviderJob, Option<int>)>)
      reads store
      ensures snapshotOf.None? && placement.Err? ==> d == Err(placement.error)
      ensures snapshotOf.Some? || placement.Ok? ==>
        var p := if snapshotOf.Some? then snapshotOf.value.placement else placement.value;
        match connectors(p)
        case NotRegistered => d == Err(CloudProvider(NO_CONNECTOR + p.providerType))
        case LookupFailed(m) => d == Err(CloudProvider(m))
        case Found(service) =>
          if snapshotOf.Some? && !LiveVolume(snapshotOf.value.volumeId) then
            d == Err(ResourceNotFound(" Invalid volume id " + Show(snapshotOf.value.volumeId)))
          else
            var call := if snapshotOf.None? then service.createVolumeImage(image)
              else service.createVolumeSnapshot(store.volumes[snapshotOf.value.volumeId].resource.providerAssignedId, image);
            match call
            case Raised(m) => d == Err(CloudProvider(m))
            case Done(pj) =>
              && (pj.state == CANCELLED || pj.state == FAILED ==> d == Err(CloudProvider(pj.statusMessage)))
              && (pj.state == RUNNING || pj.state == SUCCESS ==>
                   d == Ok((p, pj, if snapshotOf.Some? then Some(snapshotOf.value.volumeId) else None)))
    {
      var p := if snapshotOf.Some? then Ok(snapshotOf.value.placement) else placement;
      match p
      case Err(e) => Err(e)
      case Ok(p) =>
        match connectors(p)
        case NotRegistered => Err(CloudProvider(NO_CONNECTOR + p.providerType))
        case LookupFailed(m) => Err(CloudProvider(m))
        case Found(service) =>
          var reply: Result<(ConnectorResult<ProviderJob>, Option<int>)> :=
            if snapshotOf.None? then Ok((service.createVolumeImage(image), None))
            else
              (ParseShow(snapshotOf.value.volumeId);
               match GetVolumeById(Show(snapshotOf.value.volumeId))
               case Err(e) => Err(e)
               case Ok(vid) =>
                 Ok((service.createVolumeSnapshot(store.volumes[vid].resource.providerAssignedId, image), Some(vid))));
          match reply
          case Err(e) => Err(e)
          case Ok((Raised(m), _)) => Err(CloudProvider(m))
          case Ok((Done(pj), vid)) =>
            match Classify(pj)
            case Rejected(m) => Err(CloudProvider(m))
            case _ => Ok((p, pj, vid))
    }

    /**
     * createVolume: on a rejected request nothing is persisted; otherwise a new Volume in the
     * decided state (CREATING while the provider job runs, the connector's state with `created`
     * stamped on SUCCESS) and a new Job that copies the provider job and targets the Volume,
     * with affectedResources exactly [the Volume]; a running job arms its completion message.
     */
    method CreateVolume(spec: VolumeCreate, tenant: int, placement: Result<Placement>,
                        connectors: Placement -> ConnectorLookup, now: nat)
      returns (r: Result<int>)
      requires Valid()
      modifies this, store
      ensures Valid()
      ensures var d := CreateVolumeDecision(spec, placement, connectors);
        && (d.Err? ==> r == Err(d.error) && unchanged(store) && armed == old(armed))
        && (d.Ok? ==>
             var pj := d.value.providerJob;
             var running := pj.state == RUNNING;
             && r.Ok? && r.value !in old(store.jobs) && r.value in store.jobs
             && store.jobs[r.value].targetResource.Some?
             && store.jobs[r.value].targetResource.value.VolumeRef?
             && var vid := store.jobs[r.value].targetResource.value.id;
             && vid !in old(store.volumes)
             && store.volumes == old(store.volumes)[vid :=
                  NewVolume(spec, pj, d.value.placement, tenant, d.value.initialState, if running then None else Some(now))]
             && store.jobs == old(store.jobs)[r.value :=
                  SubmittedJob(pj, VolumeRef(vid), [VolumeRef(vid)], if running then Some(tenant) else None, "Volume creation", now)]
             && armed == (if running then old(armed) + [pj.providerAssignedId] else old(armed)))
      ensures store.volumeImages == old(store.volumeImages) && store.links == old(store.links)
      ensures store.configurations == old(store.configurations) && store.templates == old(store.templates)
    {
      var d := CreateVolumeDecision(spec, placement, connectors);
      if d.Err? {
        return Err(d.error);
      }
      var pj := d.value.providerJob;
      var running := pj.state == RUNNING;
      var vid := store.PersistVolume(
        NewVolume(spec, pj, d.value.placement, tenant, d.value.initialState, if running then None else Some(now)));
      var jid := store.PersistJob(
        SubmittedJob(pj, VolumeRef(vid), [VolumeRef(vid)], if running then Some(tenant) else None, "Volume creation", now));
      if running {
        armed := armed + [pj.providerAssignedId];
      }
      r := Ok(jid);
    }

    /**
     * deleteVolume: a malformed, missing or DELETED volume fails before the connector is
     * called; a rejected provider job fails with the volume untouched; otherwise the volume
     * becomes DELETING (job RUNNING) or DELETED (job SUCCESS) and a Job targeting it is persisted.
     */
    method DeleteVolume(volumeId: string, tenant: int, connectors: Placement -> ConnectorLookup, now: nat)
      returns (r: Result<int>)
      requires Valid()
      modifies this, store
      ensures Valid()
      ensures old(GetVolumeById(volumeId)).Err? ==>
        r == old(GetVolumeById(volumeId)) && unchanged(store) && armed == old(armed)
      ensures old(GetVolumeById(volumeId)).Ok? ==>
        var vid := old(GetVolumeById(volumeId)).value;
        var v := old(store.volumes)[vid];
        var d := DeleteDecision(v.resource, connectors, DeleteVolumeCall, true);
        && (d.Err? ==> r == Err(d.error) && unchanged(store) && armed == old(armed))
        && (d.Ok? ==>
             var pj := d.value.providerJob;
             var running := pj.state == RUNNING;
             && r.Ok? && r.value !in old(store.jobs)
             && store.volumes == old(store.volumes)[vid := v.(resource := v.resource.(state := d.value.initialState))]
             && store.jobs == old(store.jobs)[r.value :=
                  SubmittedJob(pj, VolumeRef(vid), [], if running then Some(tenant) else None, "Volume deletion", now)]
             && armed == (if running then old(armed) + [pj.providerAssignedId] else old(armed)))
      ensures store.volumeImages == old(store.volumeImages) && store.links == old(store.links)
      ensures store.configurations == old(store.configurations) && store.templates == old(store.templates)
    {
      var found := GetVolumeById(volumeId);
      if found.Err? {
        return found;
      }
      var vid := found.value;
      var v := store.volumes[vid];
      var d := DeleteDecision(v.resource, connectors, DeleteVolumeCall, true);
      if d.Err? {
        return Err(d.error);
      }
      var pj := d.value.providerJob;
      var running := pj.state == RUNNING;
      store.SetVolume(vid, v.(resource := v.resource.(state := d.value.initialState)));
      var jid := store.PersistJob(
        SubmittedJob(pj, VolumeRef(vid), [], if running then Some(tenant) else None, "Volume deletion", now));
      if running {
        armed := armed + [pj.providerAssignedId];
      }
      r := Ok(jid);
    }

    /**
     * deleteVolumeImage: as deleteVolume, except that the image becomes DELETING whether the
     * provider job is RUNNING or SUCCESS, the Job always records the tenant, and the completion
     * message is always armed.
     */
    method DeleteVolumeImage(volumeImageId: string, tenant: int, connectors: Placement -> ConnectorLookup, now: nat)
      returns (r: Result<int>)
      requires Valid()
      modifies this, store
      ensures Valid()
      ensures old(GetVolumeImageById(volumeImageId)).Err? ==>
        r == old(GetVolumeImageById(volumeImageId)) && unchanged(store) && armed == old(armed)
      ensures old(GetVolumeImageById(volumeImageId)).Ok? ==>
        var iid := old(GetVolumeImageById(volumeImageId)).value;
        var image := old(store.volumeImages)[iid];
        var d := DeleteDecision(image.resource, connectors, DeleteVolumeImageCall, false);
        && (d.Err? ==> r == Err(d.error) && unchanged(store) && armed == old(armed))
        && (d.Ok? ==>
             var pj := d.value.providerJob;
             && r.Ok? && r.value !in old(store.jobs)
             && d.value.initialState == DELETING
             && store.volumeImages == old(store.volumeImages)[iid := VolumeImage(image.resource.(state := DELETING))]
             && store.jobs == old(store.jobs)[r.value :=
                  SubmittedJob(pj, VolumeImageRef(iid), [], Some(tenant), "VolumeImage deletion", now)]
             && armed == old(armed) + [pj.providerAssignedId])
      ensures store.volumes == old(store.volumes) && store.links == old(store.links)
      ensures store.configurations == old(store.configurations) && store.templates == old(store.templates)
    {
      var found := GetVolumeImageById(volumeImageId);
      if found.Err? {
        return found;
      }
      var iid := found.value;
      var image := store.volumeImages[iid];
      var d := DeleteDecision(image.resource, connectors, DeleteVolumeImageCall, false);
      if d.Err? {
        return Err(d.error);
      }
      var pj := d.value.providerJob;
      store.SetVolumeImage(iid, VolumeImage(image.resource.(state := DELETING)));
      var jid := store.PersistJob(SubmittedJob(pj, VolumeImageRef(iid), [], Some(tenant), "VolumeImage deletion", now));
      armed := armed + [pj.providerAssignedId];
      r := Ok(jid);
    }

    /**
     * newVolumeImage (createVolumeImage when snapshotOf is None, createVolumeSnapshot
     * otherwise): on an accepted provider job, whether RUNNING or SUCCESS, the image is persisted
     * CREATING; for a snapshot exactly one new SNAPSHOTTING link to it is appended to the
     * volume's images; a Job targeting the image is persisted and its completion message armed.
     */
    method NewVolumeImage(image: VolumeImage, snapshotOf: Option<SnapshotSource>, tenant: int,
                          placement: Result<Placement>, connectors: Placement -> ConnectorLookup, now: nat)
      returns (r: Result<int>)
      requires Valid()
      modifies this, store
      ensures Valid()
      ensures var d := old(NewVolumeImageDecision(image, snapshotOf, placement, connectors));
        && (d.Err? ==> r == Err(d.error) && unchanged(store) && armed == old(armed))
        && (d.Ok? ==>
             var (p, pj, source) := d.value;
             && r.Ok? && r.value !in old(store.jobs) && r.value in store.jobs
             && store.jobs[r.value].targetResource.Some?
             && store.jobs[r.value].targetResource.value.VolumeImageRef?
             && var iid := store.jobs[r.value].targetResource.value.id;
             && iid !in old(store.volumeImages)
             && store.volumeImages == old(store.volumeImages)[iid := VolumeImage(image.resource.(
                  entity := image.resource.entity.(tenant := Some(tenant)),
                  providerAssignedId := pj.targetProviderId,
                  placement := p,
                  state := CREATING))]
             && store.jobs == old(store.jobs)[r.value :=
                  SubmittedJob(pj, VolumeImageRef(iid), [VolumeImageRef(iid)], Some(tenant), "VolumeImage creation", now)]
             && armed == old(armed) + [pj.providerAssignedId]
             && (source.None? ==> store.volumes == old(store.volumes) && store.links == old(store.links))
             && (source.Some? ==>
                  exists lid ::
                    && lid !in old(store.links)
                    && store.links == old(store.links)[lid := VolumeVolumeImage(Some(iid), SNAPSHOTTING, None)]
                    && var v := old(store.volumes)[source.value];
                    && store.volumes == old(store.volumes)[source.value := v.(images := v.images + [lid])]))
      ensures store.configurations == old(store.configurations) && store.templates == old(store.templates)
    {
      var d := NewVolumeImageDecision(image, snapshotOf, placement, connectors);
      if d.Err? {
        return Err(d.error);
      }
      var (p, pj, source) := d.value;
      var iid := store.PersistVolumeImage(VolumeImage(image.resource.(
        entity := image.resource.entity.(tenant := Some(tenant)),
        providerAssignedId := pj.targetProviderId,
        placement := p,
        state := CREATING)));
      if source.Some? {
        var lid := store.PersistLink(VolumeVolumeImage(Some(iid), SNAPSHOTTING, None));
        var v := store.volumes[source.value];
        store.SetVolume(source.value, v.(images := v.images + [lid]));
      }
      var jid := store.PersistJob(
        SubmittedJob(pj, VolumeImageRef(iid), [VolumeImageRef(iid)], Some(tenant), "VolumeImage creation", now));
      armed := armed + [pj.providerAssignedId];
      r := Ok(jid);
    }

    /**
     * volumeCompletionHandler: see VolumeCompleted. Jobs and every other entity are untouched.
     */
    method VolumeCompletionHandler(job: Job, connectors: Placement -> ConnectorLookup, now: nat)
      returns (r: Result<bool>)
      requires Valid()
      requires job.targetResource.Some? && job.targetResource.value.VolumeRef? && store.TargetStored(job)
      modifies store
      ensures Valid()
      ensures VolumeCompleted(old(store.volumes), store.volumes, old(store.TargetProviderId(job)),
                              job.action, job.state, connectors, now, r)
      ensures store.jobs == old(store.jobs) && store.volumeImages == old(store.volumeImages)
      ensures store.links == old(store.links)
      ensures store.configurations == old(store.configurations) && store.templates == old(store.templates)
    {
      var pid := store.TargetProviderId(job);
      var matches := WithProviderId(MapValues(store.volumes, VolumeResource), pid);
      if |matches| != 1 {
        return Ok(false);
      }
      NonEmptyHasMember(matches);
      var vid :| vid in matches;
      SingletonSet(matches, vid);
      var v := store.volumes[vid];
      var lookup := connectors(v.resource.placement);
      if lookup.LookupFailed? {
        return Err(CloudProvider(lookup.message));
      }
      if job.action.None? {
        return Err(NullPointer);
      }
      var row := TableRow(job.action.value, job.state);
      store.SetVolume(vid, v.(resource := Reconciled(v.resource, row, VolumeStateAnswer(lookup, pid), now)));
      r := Ok(true);
    }

    /**
     * volumeImageCompletionHandler: see ImageCompleted. Jobs, volumes, configurations and
     * templates are untouched.
     */
    method VolumeImageCompletionHandler(job: Job, connectors: Placement -> ConnectorLookup, now: nat)
      returns (r: Result<bool>)
      requires Valid()
      requires job.targetResource.Some? && job.targetResource.value.VolumeImageRef? && store.TargetStored(job)
      modifies store
      ensures Valid()
      ensures ImageCompleted(old(store.volumeImages), store.volumeImages, old(store.links), store.links,
                             old(store.TargetProviderId(job)), job.action, job.state, connectors, now, r)
      ensures store.jobs == old(store.jobs) && store.volumes == old(store.volumes)
      ensures store.configurations == old(store.configurations) && store.templates == old(store.templates)
    {
      var pid := store.TargetProviderId(job);
      var matches := WithProviderId(MapValues(store.volumeImages, ImageResource), pid);
      if |matches| != 1 {
        return Ok(false);
      }
      NonEmptyHasMember(matches);
      var iid :| iid in matches;
      SingletonSet(matches, iid);
      var image := store.volumeImages[iid];
      var lookup := connectors(image.resource.placement);
      if lookup.LookupFailed? {
        return Err(CloudProvider(lookup.message));
      }
      if job.action.None? {
        return Err(NullPointer);
      }
      var row := TableRow(job.action.value, job.state);
      var answer := ImageStateAnswer(lookup, pid);
      store.SetVolumeImage(iid, VolumeImage(Reconciled(image.resource, row, answer, now)));
      if row == AddSucceeded && answer.Some? {
        var marked := MarkSnapshotAvailable(store.links, iid, now);
        forall l | l in marked
          ensures store.LinkStored(marked[l])
        {
          assert store.LinkStored(store.links[l]);
        }
        store.SetLinks(marked);
      }
      r := Ok(true);
    }

    /**
     * jobCompletionHandler: the Job is looked up by its key; a ResourceNotFound or other
     * CloudProviderException gives false, but a malformed id's NumberFormatException
     * propagates. A Job targeting a Volume or VolumeImage is dispatched to its handler; any
     * other Job gives false. No Job record is ever modified.
     */
    method JobCompletionHandler(jobId: string, connectors: Placement -> ConnectorLookup, now: nat)
      returns (r: Result<bool>)
      requires Valid()
      modifies store
      ensures Valid()
      ensures store.jobs == old(store.jobs)
      ensures store.configurations == old(store.configurations) && store.templates == old(store.templates)
      ensures old(jobManager.GetJobById(jobId)).Err? ==>
        var e := old(jobManager.GetJobById(jobId)).error;
        unchanged(store) && r == if IsCloudProviderException(e) then Ok(false) else Err(e)
      ensures old(jobManager.GetJobById(jobId)).Ok? ==>
        var job := old(jobManager.GetJobById(jobId)).value;
        match job.targetResource
        case Some(VolumeRef(_)) =>
          && VolumeCompleted(old(store.volumes), store.volumes, old(store.TargetProviderId(job)),
                             job.action, job.state, connectors, now, r)
          && store.volumeImages == old(store.volumeImages) && store.links == old(store.links)
        case Some(VolumeImageRef(_)) =>
          && ImageCompleted(old(store.volumeImages), store.volumeImages, old(store.links), store.links,
                            old(store.TargetProviderId(job)), job.action, job.state, connectors, now, r)
          && store.volumes == old(store.volumes)
        case _ => r == Ok(false) && unchanged(store)
    {
      var found := jobManager.GetJobById(jobId);
      if found.Err? {
        if IsCloudProviderException(found.error) {
          return Ok(false);
        }
        return Err(found.error);
      }
      var job := found.value;
      assert store.TargetStored(job);
      match job.targetResource
      case Some(VolumeRef(_)) =>
        r := VolumeCompletionHandler(job, connectors, now);
      case Some(VolumeImageRef(_)) =>
        r := VolumeImageCompletionHandler(job, connectors, now);
      case _ =>
        r := Ok(false);
    }

    /**
     * removeVolumeImageFromVolume: after the checks of getVolumeImageFromVolume, the link's
     * first occurrence leaves the volume's list and the link is removed; the VolumeImage itself
     * is kept. A SUCCESS Job with action "delete" targeting the image is persisted.
     */
    method RemoveVolumeImageFromVolume(volumeId: string, linkId: string) returns (r: Result<int>)
      requires Valid()
      modifies store
      ensures Valid()
      ensures old(GetVolumeImageFromVolume(volumeId, linkId)).Err? ==>
        r == old(GetVolumeImageFromVolume(volumeId, linkId)) && unchanged(store)
      ensures old(GetVolumeImageFromVolume(volumeId, linkId)).Ok? ==>
        var lid := old(GetVolumeImageFromVolume(volumeId, linkId)).value;
        var vid := ParseInt(volumeId).value;
        var v := old(store.volumes)[vid];
        var image := old(store.links)[lid].volumeImage;
        && r.Ok? && r.value !in old(store.jobs)
        && store.links == old(store.links) - {lid}
        && store.volumes == old(store.volumes)[vid := v.(images := RemoveFirst(v.images, lid))]
        && store.jobs == old(store.jobs)[r.value := NewJob(SUCCESS).(
             action := Some("delete"),
             targetResource := if image.Some? then Some(VolumeImageRef(image.value)) else None)]
      ensures store.volumeImages == old(store.volumeImages)
      ensures store.configurations == old(store.configurations) && store.templates == old(store.templates)
    {
      var found := GetVolumeImageFromVolume(volumeId, linkId);
      if found.Err? {
        return found;
      }
      var lid := found.value;
      var vid := ParseInt(volumeId).value;
      var v := store.volumes[vid];
      var image := store.links[lid].volumeImage;
      assert store.LinkStored(store.links[lid]);
      store.SetVolume(vid, v.(images := RemoveFirst(v.images, lid)));
      store.RemoveLink(lid);
      var jid := store.PersistJob(NewJob(SUCCESS).(
        action := Some("delete"),
        targetResource := if image.Some? then Some(VolumeImageRef(image.value)) else None));
      r := Ok(jid);
    }

    /**
     * createVolumeConfiguration: a name already used by a configuration of the tenant is
     * refused; otherwise the configuration is persisted with the tenant and `created` set.
     * Per-tenant name uniqueness is preserved.
     */
    method CreateVolumeConfiguration(config: VolumeConfiguration, tenant: int, now: nat) returns (r: Result<int>)
      requires Valid()
      modifies store
      ensures Valid()
      ensures var taken := config.entity.name.Some? &&
                NameTaken(MapValues(old(store.configurations), ConfigurationEntity), tenant, config.entity.name.value);
        && (taken ==>
             && r == Err(CloudProvider("VolumeConfiguration already exists with name " + config.entity.name.value))
             && unchanged(store))
        && (!taken ==>
             && r.Ok? && r.value !in old(store.configurations)
             && store.configurations == old(store.configurations)[r.value :=
                  config.(entity := config.entity.(tenant := Some(tenant), created := Some(now)))])
      ensures NamesUnique(MapValues(old(store.configurations), ConfigurationEntity)) ==>
        NamesUnique(MapValues(store.configurations, ConfigurationEntity))
      ensures store.jobs == old(store.jobs) && store.volumes == old(store.volumes)
      ensures store.volumeImages == old(store.volumeImages) && store.links == old(store.links)
      ensures store.templates == old(store.templates)
    {
      if config.entity.name.Some? && NameTaken(MapValues(store.configurations, ConfigurationEntity), tenant, config.entity.name.value) {
        return Err(CloudProvider("VolumeConfiguration already exists with name " + config.entity.name.value));
      }
      var c := config.(entity := config.entity.(tenant := Some(tenant), created := Some(now)));
      ghost var before := store.configurations;
      var id := store.PersistConfiguration(c);
      if NamesUnique(MapValues(before, ConfigurationEntity)) {
        AddingUntakenNameKeepsNamesUnique(MapValues(before, ConfigurationEntity), id, c.entity);
        assert MapValues(store.configurations, ConfigurationEntity) == MapValues(before, ConfigurationEntity)[id := c.entity];
      }
      r := Ok(id);
    }

    /** createVolumeTemplate: as createVolumeConfiguration, for templates. */
    method CreateVolumeTemplate(template: VolumeTemplate, tenant: int, now: nat) returns (r: Result<int>)
      requires Valid()
      modifies store
      ensures Valid()
      ensures var taken := template.entity.name.Some? &&
                NameTaken(MapValues(old(store.templates), TemplateEntity), tenant, template.entity.name.value);
        && (taken ==>
             && r == Err(CloudProvider("VolumeTemplate already exists with name " + template.entity.name.value))
             && unchanged(store))
        && (!taken ==>
             && r.Ok? && r.value !in old(store.templates)
             && store.templates == old(store.templates)[r.value :=
                  template.(entity := template.entity.(tenant := Some(tenant), created := Some(now)))])
      ensures NamesUnique(MapValues(old(store.templates), TemplateEntity)) ==> NamesUnique(MapValues(store.templates, TemplateEntity))
      ensures store.jobs == old(store.jobs) && store.volumes == old(store.volumes)
      ensures store.volumeImages == old(store.volumeImages) && store.links == old(store.links)
      ensures store.configurations == old(store.configurations)
    {
      if template.entity.name.Some? && NameTaken(MapValues(store.templates, TemplateEntity), tenant, template.entity.name.value) {
        return Err(CloudProvider("VolumeTemplate already exists with name " + template.entity.name.value));
      }
      var t := template.(entity := template.entity.(tenant := Some(tenant), created := Some(now)));
      ghost var before := store.templates;
      var id := store.PersistTemplate(t);
      if NamesUnique(MapValues(before, TemplateEntity)) {
        AddingUntakenNameKeepsNamesUnique(MapValues(before, TemplateEntity), id, t.entity);
        assert MapValues(store.templates, TemplateEntity) == MapValues(before, TemplateEntity)[id := t.entity];
      }
      r := Ok(id);
    }

    /**
     * updateVolumeConfigurationAttributes: the entity attributes, then format, capacity and
     * type, each set exactly when its key is present; `updated` is stamped when any of the six
     * keys is present. A value of the wrong class raises ClassCastException and, as a runtime
     * exception, leaves the store as it was.
     */
    method UpdateVolumeConfigurationAttributes(configId: string, attributes: map<string, AttrValue>, now: nat)
      returns (r: Result<()>)
      requires Valid()
      modifies store
      ensures Valid()
      ensures old(GetVolumeConfigurationById(configId)).Err? ==>
        r == Err(old(GetVolumeConfigurationById(configId)).error) && unchanged(store)
      ensures old(GetVolumeConfigurationById(configId)).Ok? ==>
        var key := old(GetVolumeConfigurationById(configId)).value;
        var c := old(store.configurations)[key];
        && (r.Ok? <==> ConfigurationCastsSucceed(attributes))
        && (r.Err? ==> r.error == ClassCast && unchanged(store))
        && (r.Ok? ==>
             && key in store.configurations
             && var c' := store.configurations[key];
             && store.configurations == old(store.configurations)[key := c']
             && c'.entity.name == (if "name" in attributes then AsText(attributes["name"]).value else c.entity.name)
             && c'.entity.description ==
                  (if "description" in attributes then AsText(attributes["description"]).value else c.entity.description)
             && c'.entity.properties ==
                  (if "properties" in attributes then AsProperties(attributes["properties"]).value else c.entity.properties)
             && c'.format == (if "format" in attributes then AsText(attributes["format"]).value else c.format)
             && c'.capacity == (if "capacity" in attributes then AsNumber(attributes["capacity"]).value else c.capacity)
             && c'.volumeType == (if "type" in attributes then AsText(attributes["type"]).value else c.volumeType)
             && c'.entity.tenant == c.entity.tenant && c'.entity.created == c.entity.created
             && c'.entity.updated == (if TouchesConfiguration(attributes) then Some(now) else c.entity.updated))
      ensures store.jobs == old(store.jobs) && store.volumes == old(store.volumes)
      ensures store.volumeImages == old(store.volumeImages) && store.links == old(store.links)
      ensures store.templates == old(store.templates)
    {
      var found := GetVolumeConfigurationById(configId);
      if found.Err? {
        return Err(found.error);
      }
      var key := found.value;
      var c := store.configurations[key];
      var entity, updated := UpdateCloudEntityAttributes(c.entity, attributes);
      if entity.Err? {
        return Err(entity.error);
      }
      c := c.(entity := entity.value);
      if "format" in attributes {
        var format := AsText(attributes["format"]);
        if format.Err? {
          return Err(format.error);
        }
        c := c.(format := format.value);
        updated := true;
      }
      if "capacity" in attributes {
        var capacity := AsNumber(attributes["capacity"]);
        if capacity.Err? {
          return Err(capacity.error);
        }
        c := c.(capacity := capacity.value);
        updated := true;
      }
      if "type" in attributes {
        var volumeType := AsText(attributes["type"]);
        if volumeType.Err? {
          return Err(volumeType.error);
        }
        c := c.(volumeType := volumeType.value);
        updated := true;
      }
      if updated {
        c := c.(entity := c.entity.(updated := Some(now)));
      }
      store.SetConfiguration(key, c);
      r := Ok(());
    }
  }
}
