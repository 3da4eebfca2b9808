/**
 * The persisted entities the managers work on (Job, Volume, VolumeImage, the
 * VolumeVolumeImage snapshot link, VolumeConfiguration, VolumeTemplate), the provider
 * connector's contract, and the persistence context as one object of keyed maps.
 */
module Model {
  import opened Outcomes

  /** Job.Status. */
  datatype JobState = RUNNING | SUCCESS | FAILED | CANCELLED

  /** A reference from a Job to the resource it targets or affects, by kind and key. */
  datatype ResourceRef =
    | VolumeRef(id: int)
    | VolumeImageRef(id: int)
    | OtherResourceRef(kind: string, id: int)

  /**
   * A persisted Job. JobManager fills targetEntity (a string), VolumeManager targetResource
   * (an entity); both set the same status field, called `state` here.
   */
  datatype Job = Job(
    state: JobState,
    action: Option<string>,
    targetEntity: Option<string>,
    targetResource: Option<ResourceRef>,
    affectedResources: seq<ResourceRef>,
    providerAssignedId: Option<string>,
    parentJob: Option<int>,
    tenant: Option<int>,
    description: Option<string>,
    created: Option<nat>,
    timeOfStatusChange: Option<nat>)

  /** `new Job()` followed by `setState(state)`: every other field is unset. */
  function NewJob(state: JobState): (j: Job)
    ensures j.state == state && j.targetResource.None? && j.parentJob.None? && j.affectedResources == []
  {
    Job(state, None, None, None, [], None, None, None, None, None, None)
  }

  /** Volume.State and VolumeImage.State, which have the same constants. */
  datatype ResourceState = CREATING | AVAILABLE | DELETING | DELETED | ERROR

  /** VolumeVolumeImage.State. */
  datatype LinkState = SNAPSHOTTING | AVAILABLE

  /**
   * Where a resource lives: the provider account and location chosen by placement, and the
   * cloud provider type of that account (which selects the connector factory).
   */
  datatype Placement = Placement(account: string, location: string, providerType: string)

  /** The CloudEntity attributes; timestamps are abstract clock readings. */
  datatype CloudEntity = CloudEntity(
    name: Option<string>,
    description: Option<string>,
    properties: Option<map<string, string>>,
    tenant: Option<int>,
    created: Option<nat>,
    updated: Option<nat>)

  /** The CloudResource attributes shared by Volume and VolumeImage. */
  datatype Resource = Resource(
    entity: CloudEntity,
    providerAssignedId: string,
    placement: Placement,
    state: ResourceState)

  /** A Volume; `images` lists the keys of its VolumeVolumeImage links, in order. */
  datatype Volume = Volume(
    resource: Resource,
    capacity: Option<int>,
    volumeType: Option<string>,
    bootable: bool,
    images: seq<int>)

  datatype VolumeImage = VolumeImage(resource: Resource)

  /** The snapshot link between a Volume (which lists it) and a VolumeImage. */
  datatype VolumeVolumeImage = VolumeVolumeImage(
    volumeImage: Option<int>,
    state: LinkState,
    created: Option<nat>)

  datatype VolumeConfiguration = VolumeConfiguration(
    entity: CloudEntity,
    format: Option<string>,
    capacity: Option<int>,
    volumeType: Option<string>)

  datatype VolumeTemplate = VolumeTemplate(entity: CloudEntity, volumeConfig: Option<int>)

  /** The map that applies f to every value of m, under the same keys. */
  function MapValues<T, U>(m: map<int, T>, f: T -> U): (r: map<int, U>)
    ensures r.Keys == m.Keys
    ensures forall id :: id in m ==> r[id] == f(m[id])
  {
    map id | id in m :: f(m[id])
  }

  function VolumeResource(v: Volume): Resource { v.resource }

  function ImageResource(i: VolumeImage): Resource { i.resource }

  function ConfigurationEntity(c: VolumeConfiguration): CloudEntity { c.entity }

  function TemplateEntity(t: VolumeTemplate): CloudEntity { t.entity }

  /** The caller's request to create a volume, with its template's configuration values. */
  datatype VolumeCreate = VolumeCreate(
    name: Option<string>,
    description: Option<string>,
    properties: Option<map<string, string>>,
    capacity: Option<int>,
    volumeType: Option<string>)

  /**
   * The Job a connector returns: its state, the provider's id for the job, the provider's id
   * for the target resource, and what it reports.
   */
  datatype ProviderJob = ProviderJob(
    state: JobState,
    providerAssignedId: string,
    targetProviderId: string,
    action: Option<string>,
    statusMessage: string,
    timeOfStatusChange: Option<nat>)

  /** What a connector call gives: a value, or a ConnectorException with its message. */
  datatype ConnectorResult<+T> = Done(value: T) | Raised(message: string)

  /** The connector's volume service, as oracles for its answers. */
  datatype VolumeService = VolumeService(
    createVolume: VolumeCreate -> ConnectorResult<ProviderJob>,
    deleteVolume: string -> ConnectorResult<ProviderJob>,
    volumeState: string -> ConnectorResult<ResourceState>,
    createVolumeImage: VolumeImage -> ConnectorResult<ProviderJob>,
    createVolumeSnapshot: (string, VolumeImage) -> ConnectorResult<ProviderJob>,
    volumeImageState: string -> ConnectorResult<ResourceState>,
    deleteVolumeImage: string -> ConnectorResult<ProviderJob>)

  /**
   * getCloudProviderConnector: a connector, null when no factory is registered for the provider
   * type, or a CloudProviderException when the factory fails.
   */
  datatype ConnectorLookup = Found(service: VolumeService) | NotRegistered | LookupFailed(message: string)

  /** The three ways the managers react to a connector's job. */
  datatype Submission = Rejected(message: string) | Pending | Completed

  /** CANCELLED or FAILED: bail out with the provider's message; RUNNING: pending; else done. */
  function Classify(pj: ProviderJob): (s: Submission)
    ensures s.Rejected? <==> pj.state == CANCELLED || pj.state == FAILED
    ensures s.Rejected? ==> s.message == pj.statusMessage
    ensures s.Pending? <==> pj.state == RUNNING
    ensures s.Completed? <==> pj.state == SUCCESS
  {
    match pj.state
    case CANCELLED => Rejected(pj.statusMessage)
    case FAILED => Rejected(pj.statusMessage)
    case RUNNING => Pending
    case SUCCESS => Completed
  }

  /**
   * The persistence context shared by the managers: one map per entity class, keyed by the
   * generated id, and the id generator.
   */
  class Store {
    var jobs: map<int, Job>
    var volumes: map<int, Volume>
    var volumeImages: map<int, VolumeImage>
    var links: map<int, VolumeVolumeImage>
    var configurations: map<int, VolumeConfiguration>
    var templates: map<int, VolumeTemplate>
    var nextId: int

    /** A Job's target, when it is a Volume or a VolumeImage, is a persisted entity. */
    predicate TargetStored(job: Job)
      reads this
    {
      match job.targetResource
      case Some(VolumeRef(v)) => v in volumes
      case Some(VolumeImageRef(i)) => i in volumeImages
      case _ => true
    }

    /** A link's image, when set, is a persisted VolumeImage. */
    predicate LinkStored(link: VolumeVolumeImage)
      reads this
    {
      link.volumeImage.Some? ==> link.volumeImage.value in volumeImages
    }

    ghost predicate Valid()
      reads this
    {
      && 0 <= nextId
      && (forall id :: id in jobs ==> 0 <= id < nextId)
      && (forall id :: id in volumes ==> 0 <= id < nextId)
      && (forall id :: id in volumeImages ==> 0 <= id < nextId)
      && (forall id :: id in links ==> 0 <= id < nextId)
      && (forall id :: id in configurations ==> 0 <= id < nextId)
      && (forall id :: id in templates ==> 0 <= id < nextId)
      && (forall id :: id in jobs ==> TargetStored(jobs[id]))
      && (forall id :: id in links ==> LinkStored(links[id]))
    }

    constructor ()
      ensures Valid()
      ensures jobs == map[] && volumes == map[] && volumeImages == map[] && links == map[]
      ensures configurations == map[] && templates == map[]
    {
      jobs, volumes, volumeImages, links := map[], map[], map[], map[];
      configurations, templates := map[], map[];
      nextId := 0;
    }

    /** The id em.persist generates: unused by any entity of any class. */
    method NewId() returns (id: int)
      requires Valid()
      modifies this`nextId
      ensures Valid()
      ensures id == old(nextId) && nextId == id + 1
      ensures id !in jobs && id !in volumes && id !in volumeImages && id !in links
      ensures id !in configurations && id !in templates
    {
      id := nextId;
      nextId := nextId + 1;
    }

    /** em.persist of a Job whose target is stored: a fresh key, nothing else changes. */
    method PersistJob(job: Job) returns (id: int)
      requires Valid() && TargetStored(job)
      modifies this
      ensures Valid()
      ensures id !in old(jobs) && jobs == old(jobs)[id := job]
      ensures volumes == old(volumes) && volumeImages == old(volumeImages) && links == old(links)
      ensures configurations == old(configurations) && templates == old(templates)
    {
      id := NewId();
      jobs := jobs[id := job];
    }

    /** em.persist of a Volume. */
    method PersistVolume(volume: Volume) returns (id: int)
      requires Valid()
      modifies this
      ensures Valid()
      ensures id !in old(volumes) && volumes == old(volumes)[id := volume]
      ensures jobs == old(jobs) && volumeImages == old(volumeImages) && links == old(links)
      ensures configurations == old(configurations) && templates == old(templates)
    {
      id := NewId();
      volumes := volumes[id := volume];
    }

    /** em.persist of a VolumeImage. */
    method PersistVolumeImage(image: VolumeImage) returns (id: int)
      requires Valid()
      modifies this
      ensures Valid()
      ensures id !in old(volumeImages) && volumeImages == old(volumeImages)[id := image]
      ensures jobs == old(jobs) && volumes == old(volumes) && links == old(links)
      ensures configurations == old(configurations) && templates == old(templates)
    {
      id := NewId();
      volumeImages := volumeImages[id := image];
    }

    /** em.persist of a Volume-to-VolumeImage link whose image is stored. */
    method PersistLink(link: VolumeVolumeImage) returns (id: int)
      requires Valid() && LinkStored(link)
      modifies this
      ensures Valid()
      ensures id !in old(links) && links == old(links)[id := link]
      ensures jobs == old(jobs) && volumes == old(volumes) && volumeImages == old(volumeImages)
      ensures configurations == old(configurations) && templates == old(templates)
    {
      id := NewId();
      links := links[id := link];
    }

    /** em.persist of a VolumeConfiguration. */
    method PersistConfiguration(config: VolumeConfiguration) returns (id: int)
      requires Valid()
      modifies this
      ensures Valid()
      ensures id !in old(configurations) && configurations == old(configurations)[id := config]
      ensures jobs == old(jobs) && volumes == old(volumes) && volumeImages == old(volumeImages)
      ensures links == old(links) && templates == old(templates)
    {
      id := NewId();
      configurations := configurations[id := config];
    }

    /** em.persist of a VolumeTemplate. */
    method PersistTemplate(template: VolumeTemplate) returns (id: int)
      requires Valid()
      modifies this
      ensures Valid()
      ensures id !in old(templates) && templates == old(templates)[id := template]
      ensures jobs == old(jobs) && volumes == old(volumes) && volumeImages == old(volumeImages)
      ensures links == old(links) && configurations == old(configurations)
    {
      id := NewId();
      templates := templates[id := template];
    }

    /** Updating a managed Volume in place. */
    method SetVolume(id: int, volume: Volume)
      requires Valid() && id in volumes
      modifies this`volumes
      ensures Valid()
      ensures volumes == old(volumes)[id := volume]
    {
      volumes := volumes[id := volume];
    }

    /** Updating a managed VolumeImage in place. */
    method SetVolumeImage(id: int, image: VolumeImage)
      requires Valid() && id in volumeImages
      modifies this`volumeImages
      ensures Valid()
      ensures volumeImages == old(volumeImages)[id := image]
    {
      volumeImages := volumeImages[id := image];
    }

    /** Updating a managed VolumeConfiguration in place. */
    method SetConfiguration(id: int, config: VolumeConfiguration)
      requires Valid() && id in configurations
      modifies this`configurations
      ensures Valid()
      ensures configurations == old(configurations)[id := config]
    {
      configurations := configurations[id := config];
    }

    /** Replacing the links by ones with the same keys whose images are stored. */
    method SetLinks(newLinks: map<int, VolumeVolumeImage>)
      requires Valid() && newLinks.Keys == links.Keys
      requires forall id :: id in newLinks ==> LinkStored(newLinks[id])
      modifies this`links
      ensures Valid()
      ensures links == newLinks
    {
      links := newLinks;
    }

    /** em.remove of a link. */
    method RemoveLink(id: int)
      requires Valid()
      modifies this`links
      ensures Valid()
      ensures links == old(links) - {id}
    {
      links := links - {id};
    }

    /** The provider-assigned id of a Job's stored Volume or VolumeImage target. */
    function TargetProviderId(job: Job): string
      reads this
      requires job.targetResource.Some?
      requires job.targetResource.value.VolumeRef? || job.targetResource.value.VolumeImageRef?
      requires TargetStored(job)
    {
      match job.targetResource.value
      case VolumeRef(v) => volumes[v].resource.providerAssignedId
      case VolumeImageRef(i) => volumeImages[i].resource.providerAssignedId
    }
  }
}
