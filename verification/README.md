# Sirocco volume and job managers, modelled in Dafny

This project models three parts of the Sirocco cloud manager:

- **VolumeManager** orchestrates the lifecycle of Volumes and VolumeImages (snapshots).
  - A request goes to the provider connector. The provider job it returns decides the outcome:
    the request is refused with nothing persisted, or the resource is persisted in a
    transitional state with a RUNNING Job, or it is persisted in its final state with a
    SUCCESS Job.
  - When a provider job completes, `jobCompletionHandler` reconciles it. It finds the Job by
    its key, dispatches on the kind of its target, and finds the resource by its
    provider-assigned id. A table keyed by the action (`"add"` or `"delete"`) and the job
    state then decides the resource's new state.
  - A snapshot adds a SNAPSHOTTING `VolumeVolumeImage` link to the volume's image list. The
    successful completion of the snapshot makes that link AVAILABLE. Removing a link from a
    volume deletes only the link.
  - Smaller rules: partial attribute updates, per-tenant name uniqueness of configurations and
    templates, and "absent or soft-deleted means not found" lookups.
- **JobManager** keeps Job records: create (with an optional parent that must exist), get,
  update and delete.
- **CommonIdConverter** extracts a service id from a CIMI href (the segment after the last
  `/`, parsed as a Java `int`), and copies it into a service resource when the CIMI id is set.

How the Java is represented:

- **Exceptions.** Java exceptions are `Result.Err` values (`Outcomes.Error`).
  CloudProviderException and its subclass ResourceNotFoundException are distinguished, and so
  are NumberFormatException, NullPointerException and ClassCastException.
- **Persistence context.** The JPA persistence contexts are one `Model.Store` object with one map
  per entity class, keyed by the generated id. JobManager and VolumeManager name different
  persistence units; the model takes them to be one store (see "Left out"). `em.persist` takes a fresh key from a counter.
  Setters on managed entities become map updates. A reference to an entity is its key.
- **Connector.** The connector is an oracle: `Model.VolumeService` holds one function per
  connector call, and each gives a value or a ConnectorException message. The factory lookup
  is a function from a placement to `Found`, `NotRegistered` (the factory is missing, so the
  connector is null) or `LookupFailed`.
- **Caller context.** The tenant, the placement decided by `placeResource` (which may fail) and
  the clock reading are parameters.
- **Submit-then-persist.** Each submitting operation is split in two:
  - a function for the connector protocol, deciding before anything is persisted
    (`CreateVolumeDecision`, `DeleteDecision`, `NewVolumeImageDecision`);
  - a method that persists what was decided and states the whole new store.
- **Completion handlers.** Their effect is the ghost predicates `VolumeCompleted` and
  `ImageCompleted`, built from the pure table in `Reconciliation`.
- **Notification.** `emitJobListenerMessage` is recorded only as the ghost sequence
  `VolumeManager.armed`, holding the provider job ids whose completion message was emitted.

Where the code and its specification disagree, the model follows the code:

- `jobCompletionHandler` looks the Job up by its local key, not by a provider id.
- A malformed id makes it raise NumberFormatException instead of returning false. The
  `new Integer(id)` call in `getJobById` runs inside the handler's `try`, but that `try`
  catches only CloudProviderException and its subclass ResourceNotFoundException, so
  NumberFormatException propagates.
- `deleteVolume` and `deleteVolumeImage` do not check for a missing connector. They raise
  NullPointerException where `createVolume` raises CloudProviderException.
- `newVolumeImage` persists the image in CREATING even when the provider job is already
  SUCCESS, and `deleteVolumeImage` leaves the image in DELETING under a SUCCESS job. The image
  is in a transitional state under a Job that is already SUCCESS, not RUNNING, until the
  completion message of that Job, which both operations emit, is handled.
- The completion handlers raise CloudProviderException when the connector lookup fails, and
  NullPointerException when the job's action is null, instead of never throwing.

## Model

| member | source | states |
|---|---|---|
| JavaInt.ParseInt | sirocco-apis/sirocco-rest-cimi/sirocco-rest-cimi-apis/src/main/java/org/ow2/sirocco/apis/rest/cimi/converter/CommonIdConverter.java:98-100 | Integer.valueOf accepts only a non-empty string, and its value is within the 32-bit range |
| JavaInt.ParseIntExactly | sirocco-apis/sirocco-rest-cimi/sirocco-rest-cimi-apis/src/main/java/org/ow2/sirocco/apis/rest/cimi/converter/CommonIdConverter.java:98-100 | Integer.valueOf succeeds exactly on an optional '+' or '-' followed by one or more ASCII digits whose value fits in 32 bits, and its result is that signed value |
| JavaInt.ParseIntExamples | sirocco-apis/sirocco-rest-cimi/sirocco-rest-cimi-apis/src/main/java/org/ow2/sirocco/apis/rest/cimi/converter/CommonIdConverter.java:98-100 | "007" and "+7" read as 7; "", "-" and "7a" are refused |
| JavaInt.ParseIntBounds | sirocco-apis/sirocco-rest-cimi/sirocco-rest-cimi-apis/src/main/java/org/ow2/sirocco/apis/rest/cimi/converter/CommonIdConverter.java:98-100 | "-2147483648" reads as the minimum int and "2147483648" is refused |
| JavaInt.Show | sirocco-core/manager/src/main/java/org/ow2/sirocco/cloudmanager/core/impl/VolumeManager.java:764 | Integer.toString writes the decimal digits of the value without leading zeros (only 0 starts with '0'), after a '-' when it is negative |
| JavaInt.ParseShow | sirocco-core/manager/src/main/java/org/ow2/sirocco/cloudmanager/core/impl/VolumeManager.java:764 | Integer.valueOf reads back exactly what Integer.toString wrote, for every int (the snapshot path re-reads the volume by `getId().toString()`) |
| IdConverter.LastIndexOf | sirocco-apis/sirocco-rest-cimi/sirocco-rest-cimi-apis/src/main/java/org/ow2/sirocco/apis/rest/cimi/converter/CommonIdConverter.java:87 | the result is -1 or a position holding the character, and no later position holds it |
| IdConverter.ExtractIdString | sirocco-apis/sirocco-rest-cimi/sirocco-rest-cimi-apis/src/main/java/org/ow2/sirocco/apis/rest/cimi/converter/CommonIdConverter.java:85-90 | the id has no '/', it is a suffix of the href, and when shorter than the href it is preceded by '/' |
| IdConverter.ExtractId | sirocco-apis/sirocco-rest-cimi/sirocco-rest-cimi-apis/src/main/java/org/ow2/sirocco/apis/rest/cimi/converter/CommonIdConverter.java:98-100 | a parsed id is a 32-bit int |
| IdConverter.NoSlashIsWholeHref | sirocco-apis/sirocco-rest-cimi/sirocco-rest-cimi-apis/src/main/java/org/ow2/sirocco/apis/rest/cimi/converter/CommonIdConverter.java:87-88 | an href without '/' is returned whole |
| IdConverter.TrailingSlashGivesEmpty | sirocco-apis/sirocco-rest-cimi/sirocco-rest-cimi-apis/src/main/java/org/ow2/sirocco/apis/rest/cimi/converter/CommonIdConverter.java:88 | an href ending in '/' gives the empty id |
| IdConverter.ExtractAfterBuild | sirocco-apis/sirocco-rest-cimi/sirocco-rest-cimi-apis/src/main/java/org/ow2/sirocco/apis/rest/cimi/converter/CommonIdConverter.java:85-90 | round trip: extracting from prefix + "/" + segment gives the segment, for any segment without '/' |
| IdConverter.ExtractIdOfBuiltHref | sirocco-apis/sirocco-rest-cimi/sirocco-rest-cimi-apis/src/main/java/org/ow2/sirocco/apis/rest/cimi/converter/CommonIdConverter.java:98-100 | round trip: extractId of prefix + "/" + toString(n) is n, for every int n |
| IdConverter.MachineImageHrefExample | sirocco-apis/sirocco-rest-cimi/sirocco-rest-cimi-apis/src/test/java/org/ow2/sirocco/apis/rest/cimi/converter/CommonsConverterTest.java:260-268 | base + "machineImages/13" converts to 13, for any base |
| IdConverter.FillFromCimi | sirocco-apis/sirocco-rest-cimi/sirocco-rest-cimi-apis/src/main/java/org/ow2/sirocco/apis/rest/cimi/converter/CommonIdConverter.java:72-77 | the service id is set to the extracted id only when the CIMI id is non-null; a non-numeric last segment raises NumberFormatException and leaves the id as it was |
| Model.Classify | sirocco-core/manager/src/main/java/org/ow2/sirocco/cloudmanager/core/impl/VolumeManager.java:133-136 | a provider job is refused, with its status message, exactly when it is CANCELLED or FAILED; it is pending exactly when RUNNING and done exactly when SUCCESS |
| Model.Store.NewId | sirocco-core/manager/src/main/java/org/ow2/sirocco/cloudmanager/core/impl/JobManager.java:56 | a generated id is used by no entity of any class |
| Model.Store.PersistJob | sirocco-core/manager/src/main/java/org/ow2/sirocco/cloudmanager/core/impl/JobManager.java:56 | persisting a Job adds it under a fresh key and changes nothing else |
| Model.Store.PersistVolume | sirocco-core/manager/src/main/java/org/ow2/sirocco/cloudmanager/core/impl/VolumeManager.java:161 | persisting a Volume adds it under a fresh key and changes nothing else |
| Model.Store.PersistVolumeImage | sirocco-core/manager/src/main/java/org/ow2/sirocco/cloudmanager/core/impl/VolumeManager.java:785 | persisting a VolumeImage adds it under a fresh key and changes nothing else |
| Model.Store.PersistLink | sirocco-core/manager/src/main/java/org/ow2/sirocco/cloudmanager/core/impl/VolumeManager.java:791 | persisting a link adds it under a fresh key and changes nothing else |
| Model.Store.PersistConfiguration | sirocco-core/manager/src/main/java/org/ow2/sirocco/cloudmanager/core/impl/VolumeManager.java:227 | persisting a VolumeConfiguration adds it under a fresh key and changes nothing else |
| Model.Store.PersistTemplate | sirocco-core/manager/src/main/java/org/ow2/sirocco/cloudmanager/core/impl/VolumeManager.java:245 | persisting a VolumeTemplate adds it under a fresh key and changes nothing else |
| Model.Store.SetVolume | sirocco-core/manager/src/main/java/org/ow2/sirocco/cloudmanager/core/impl/VolumeManager.java:502-503 | a setter on a managed Volume replaces only that Volume and keeps the store valid |
| Model.Store.SetVolumeImage | sirocco-core/manager/src/main/java/org/ow2/sirocco/cloudmanager/core/impl/VolumeManager.java:889-890 | a setter on a managed VolumeImage replaces only that image and keeps the store valid |
| Model.Store.SetConfiguration | sirocco-core/manager/src/main/java/org/ow2/sirocco/cloudmanager/core/impl/VolumeManager.java:429-445 | a setter on a managed VolumeConfiguration replaces only that configuration |
| Model.Store.SetLinks | sirocco-core/manager/src/main/java/org/ow2/sirocco/cloudmanager/core/impl/VolumeManager.java:665-668 | links updated in place keep their keys and their stored images |
| Model.Store.RemoveLink | sirocco-core/manager/src/main/java/org/ow2/sirocco/cloudmanager/core/impl/VolumeManager.java:975 | removing a link drops exactly that key |
| Jobs.JobManager.GetJobById | sirocco-core/manager/src/main/java/org/ow2/sirocco/cloudmanager/core/impl/JobManager.java:62-69 | the stored Job when the id parses and is present; NumberFormatException on a malformed id, ResourceNotFound on an absent one |
| Jobs.JobManager.CreateJob | sirocco-core/manager/src/main/java/org/ow2/sirocco/cloudmanager/core/impl/JobManager.java:39-59 | exactly one new RUNNING Job with the given target entity and action; its parent is the named Job, or none when no parent is given; a missing or malformed parent fails with getJobById's error and persists nothing |
| Jobs.JobManager.UpdateJob | sirocco-core/manager/src/main/java/org/ow2/sirocco/cloudmanager/core/impl/JobManager.java:72-78 | the merged Job replaces the one with the same key and is what is read back; only the jobs map changes |
| Jobs.JobManager.DeleteJob | sirocco-core/manager/src/main/java/org/ow2/sirocco/cloudmanager/core/impl/JobManager.java:105-112 | removes exactly the named Job, and the other Jobs are unchanged; an absent or malformed id fails as getJobById and changes nothing |
| Reconciliation.TableRow | sirocco-core/manager/src/main/java/org/ow2/sirocco/cloudmanager/core/impl/VolumeManager.java:612-638 | each table row is selected exactly by its (action, state) pair, in both directions |
| Reconciliation.Reconciled | sirocco-core/manager/src/main/java/org/ow2/sirocco/cloudmanager/core/impl/VolumeManager.java:612-638 | a completion keeps the provider id, the placement and every entity attribute but `created`; a row that does not settle changes nothing; a settling row sets the connector's state (add/SUCCESS), DELETED (delete/SUCCESS) or ERROR (failures); `created` changes only on add/SUCCESS with an answer, and then becomes the completion time |
| Reconciliation.ReconciledForgetsPriorState | sirocco-core/manager/src/main/java/org/ow2/sirocco/cloudmanager/core/impl/VolumeManager.java:612-638 | a settling row gives the same new state whatever the prior state: the connector's state for add/SUCCESS, DELETED for delete/SUCCESS, ERROR for the failures |
| Reconciliation.ReconciledIdempotent | sirocco-core/manager/src/main/java/org/ow2/sirocco/cloudmanager/core/impl/VolumeManager.java:612-638 | applying a completion twice with the same answer and clock equals applying it once |
| Reconciliation.WithProviderId | sirocco-core/manager/src/main/java/org/ow2/sirocco/cloudmanager/core/impl/VolumeManager.java:564-568 | the keys selected are exactly those whose provider-assigned id matches |
| Reconciliation.LinksOf | sirocco-core/manager/src/main/java/org/ow2/sirocco/cloudmanager/core/impl/VolumeManager.java:664-670 | the links selected are exactly those pointing at the image |
| Reconciliation.MarkSnapshotAvailable | sirocco-core/manager/src/main/java/org/ow2/sirocco/cloudmanager/core/impl/VolumeManager.java:664-670 | when exactly one link points at the image, that link becomes AVAILABLE stamped now; with none or several, nothing changes; other links never change and no key is added or dropped |
| Reconciliation.NewSnapshotLinkBecomesAvailable | sirocco-core/manager/src/main/java/org/ow2/sirocco/cloudmanager/core/impl/VolumeManager.java:787-792 | a link just added for an image no other link points at is its only link, and the completion marks exactly it AVAILABLE |
| Reconciliation.MarkSnapshotAvailableIdempotent | sirocco-core/manager/src/main/java/org/ow2/sirocco/cloudmanager/core/impl/VolumeManager.java:664-670 | marking twice equals marking once |
| Attributes.AsText | sirocco-core/manager/src/main/java/org/ow2/sirocco/cloudmanager/core/impl/VolumeManager.java:358 | a `(String)` cast succeeds exactly on null and on text |
| Attributes.AsNumber | sirocco-core/manager/src/main/java/org/ow2/sirocco/cloudmanager/core/impl/VolumeManager.java:436 | an `(Integer)` cast succeeds exactly on null and on a number |
| Attributes.AsProperties | sirocco-core/manager/src/main/java/org/ow2/sirocco/cloudmanager/core/impl/VolumeManager.java:368 | a `(Map)` cast succeeds exactly on null and on a property map |
| Attributes.UpdateCloudEntityAttributes | sirocco-core/manager/src/main/java/org/ow2/sirocco/cloudmanager/core/impl/VolumeManager.java:355-372 | each of name, description and properties is set exactly when its key is present; the other fields are kept; the flag is true exactly when one of the three keys is present; a wrong-class value is a ClassCastException |
| Attributes.NameTaken | sirocco-core/manager/src/main/java/org/ow2/sirocco/cloudmanager/core/impl/VolumeManager.java:219-221 | when the name query finds nothing, no entity of the tenant has that name |
| Attributes.NameTakenOnceAdded | sirocco-core/manager/src/main/java/org/ow2/sirocco/cloudmanager/core/impl/VolumeManager.java:219-227 | after an entity with a name is persisted under a new key, its name is taken in its tenant, and names taken before stay taken |
| Attributes.AddingUntakenNameKeepsNamesUnique | sirocco-core/manager/src/main/java/org/ow2/sirocco/cloudmanager/core/impl/VolumeManager.java:218-223 | adding an entity whose name is not taken in its tenant keeps names unique per tenant |
| Volumes.CreateVolumeDecision | sirocco-core/manager/src/main/java/org/ow2/sirocco/cloudmanager/core/impl/VolumeManager.java:113-193 | placement failure, a missing connector, a failed lookup, a connector exception, a CANCELLED or FAILED job and a failing state query each refuse with their message; RUNNING goes ahead in CREATING; SUCCESS goes ahead in the state the connector reports |
| Volumes.DeleteDecision | sirocco-core/manager/src/main/java/org/ow2/sirocco/cloudmanager/core/impl/VolumeManager.java:482-527 | a missing connector is a NullPointerException; a CANCELLED or FAILED job refuses with its message; RUNNING goes to DELETING; SUCCESS goes to DELETED for a volume and to DELETING for an image |
| Volumes.NewVolume | sirocco-core/manager/src/main/java/org/ow2/sirocco/cloudmanager/core/impl/VolumeManager.java:142-155 | the new Volume carries the provider's target id, the placement, the request's name, description, capacity and type, a copy of its properties or an empty map, the caller's tenant, is not bootable and has no snapshot links |
| Volumes.SubmittedJob | sirocco-core/manager/src/main/java/org/ow2/sirocco/cloudmanager/core/impl/VolumeManager.java:164-175 | the Job copies the provider job's state, id, action and status-change time, and records the tenant, the submission time, the description, the target and the affected resources, with no parent |
| Volumes.VolumeCompletionReplay | sirocco-core/manager/src/main/java/org/ow2/sirocco/cloudmanager/core/impl/VolumeManager.java:597-641 | handling the same volume job twice, with the same connector answer and clock, leaves the volumes as after the first time and gives the same result |
| Volumes.ImageCompletionReplay | sirocco-core/manager/src/main/java/org/ow2/sirocco/cloudmanager/core/impl/VolumeManager.java:643-694 | handling the same image job twice leaves images and links as after the first time and gives the same result |
| Volumes.SnapshotCompletionMarksItsLink | sirocco-core/manager/src/main/java/org/ow2/sirocco/cloudmanager/core/impl/VolumeManager.java:656-667 | the link added by a snapshot for its fresh image becomes AVAILABLE on that image's add/SUCCESS completion, and no other link changes |
| Volumes.FirstIndex | sirocco-core/manager/src/main/java/org/ow2/sirocco/cloudmanager/core/impl/VolumeManager.java:972 | the position of the first occurrence: it holds the element and no earlier position does |
| Volumes.RemoveFirst | sirocco-core/manager/src/main/java/org/ow2/sirocco/cloudmanager/core/impl/VolumeManager.java:972 | List.remove(Object) drops exactly one occurrence, the first: one element shorter, the multiset minus that element, order kept; a list without it is unchanged |
| Volumes.VolumeManager.GetVolumeById | sirocco-core/manager/src/main/java/org/ow2/sirocco/cloudmanager/core/impl/VolumeManager.java:251-257 | found exactly when the id parses and names a Volume that is not DELETED; otherwise NumberFormatException or ResourceNotFound |
| Volumes.VolumeManager.GetVolumeImageById | sirocco-core/manager/src/main/java/org/ow2/sirocco/cloudmanager/core/impl/VolumeManager.java:697-703 | found exactly when the id parses and names a VolumeImage that is not DELETED; otherwise NumberFormatException or ResourceNotFound |
| Volumes.VolumeManager.GetVolumeConfigurationById | sirocco-core/manager/src/main/java/org/ow2/sirocco/cloudmanager/core/impl/VolumeManager.java:260-266 | found exactly when the id parses and names a configuration; otherwise NumberFormatException or ResourceNotFound |
| Volumes.VolumeManager.GetVolumeImageFromVolume | sirocco-core/manager/src/main/java/org/ow2/sirocco/cloudmanager/core/impl/VolumeManager.java:915-926 | found exactly when the volume is found and the link exists and is in the volume's images; a missing volume fails first; a missing or unlisted link is ResourceNotFound |
| Volumes.VolumeManager.NewVolumeImageDecision | sirocco-core/manager/src/main/java/org/ow2/sirocco/cloudmanager/core/impl/VolumeManager.java:733-775 | on the snapshot volume's placement, or else the new placement (whose failure is returned): a missing connector, a failed lookup, a snapshot of a volume that is not live, a connector exception and a CANCELLED or FAILED job each refuse with their message; a RUNNING or SUCCESS job goes ahead with that placement, that job and the snapshot volume's key; a snapshot is created from that volume's provider id |
| Volumes.VolumeManager.CreateVolume | sirocco-core/manager/src/main/java/org/ow2/sirocco/cloudmanager/core/impl/VolumeManager.java:109-212 | a refusal persists nothing; otherwise exactly one new Volume in the decided state (created stamped only on SUCCESS) and one new Job copying the provider job, targeting that Volume, with affected resources exactly [that Volume]; a RUNNING job has the tenant and arms its notification |
| Volumes.VolumeManager.DeleteVolume | sirocco-core/manager/src/main/java/org/ow2/sirocco/cloudmanager/core/impl/VolumeManager.java:475-544 | a missing, DELETED or malformed volume, or a refusal, changes nothing; otherwise only that Volume's state changes (DELETING while running, DELETED on SUCCESS) and one Job targeting it is added |
| Volumes.VolumeManager.DeleteVolumeImage | sirocco-core/manager/src/main/java/org/ow2/sirocco/cloudmanager/core/impl/VolumeManager.java:865-912 | a missing image or a refusal changes nothing; otherwise the image is DELETING whatever the job state, one Job with the tenant is added, and the notification is armed |
| Volumes.VolumeManager.NewVolumeImage | sirocco-core/manager/src/main/java/org/ow2/sirocco/cloudmanager/core/impl/VolumeManager.java:733-818 | a refusal persists nothing; otherwise the image is persisted in CREATING whether the job is RUNNING or SUCCESS; a snapshot adds exactly one SNAPSHOTTING link to it and appends that link to the volume's images; one Job targeting the image is added |
| Volumes.VolumeManager.VolumeCompletionHandler | sirocco-core/manager/src/main/java/org/ow2/sirocco/cloudmanager/core/impl/VolumeManager.java:597-641 | no single Volume with the provider id gives false; otherwise that Volume follows the completion table and the result is true; Job records never change |
| Volumes.VolumeManager.VolumeImageCompletionHandler | sirocco-core/manager/src/main/java/org/ow2/sirocco/cloudmanager/core/impl/VolumeManager.java:643-694 | as for volumes, and an add/SUCCESS with the connector's answer also marks the image's single link AVAILABLE |
| Volumes.VolumeManager.JobCompletionHandler | sirocco-core/manager/src/main/java/org/ow2/sirocco/cloudmanager/core/impl/VolumeManager.java:577-595 | an unknown job gives false and changes nothing; a malformed id raises NumberFormatException; a Volume or VolumeImage target is dispatched to its handler; any other target gives false; Jobs never change |
| Volumes.VolumeManager.RemoveVolumeImageFromVolume | sirocco-core/manager/src/main/java/org/ow2/sirocco/cloudmanager/core/impl/VolumeManager.java:958-985 | fails as getVolumeImageFromVolume and changes nothing; otherwise the link's first occurrence leaves the volume's list, the link is removed, the VolumeImage is untouched, and a SUCCESS Job with action "delete" targeting the image is added |
| Volumes.VolumeManager.CreateVolumeConfiguration | sirocco-core/manager/src/main/java/org/ow2/sirocco/cloudmanager/core/impl/VolumeManager.java:215-230 | a name already used in the tenant is refused with nothing persisted; otherwise the configuration is added with tenant and created set; per-tenant name uniqueness is preserved |
| Volumes.VolumeManager.CreateVolumeTemplate | sirocco-core/manager/src/main/java/org/ow2/sirocco/cloudmanager/core/impl/VolumeManager.java:233-248 | the same as for configurations, for templates |
| Volumes.VolumeManager.UpdateVolumeConfigurationAttributes | sirocco-core/manager/src/main/java/org/ow2/sirocco/cloudmanager/core/impl/VolumeManager.java:424-446 | each of the six attributes is set exactly when its key is present and the rest are kept; updated is stamped exactly when some key is present; a wrong-class value or a missing configuration changes nothing |

## Left out

- The listing and paging methods backed by QueryHelper are not modelled (getVolumes, getVolumeConfigurations, getVolumeTemplates, getVolumeImages, getVolumeVolumeImages); QueryHelper is not part of this model.
- Plain getters are not modelled, because they add no rule beyond the lookups above: getVolumeTemplateById, getVolumeAttributes, getVolumeConfigurationAttributes, getVolumeTemplateAttributes, getVolumeImageAttributes and the unpaged getVolumeVolumeImages.
- Operations that are stubs in the source are not modelled: updateVolume, updateVolumeAttributes, updateVolumeConfiguration, updateVolumeTemplate, updateVolumeImage, addVolumeImageToVolume, updateVolumeImageAttributesInVolume, and the JobManager collection and attribute methods.
- updateVolumeTemplateAttributes, updateVolumeImageAttributes, updateVolumeImageInVolume, deleteVolumeConfiguration and deleteVolumeTemplate are not modelled: they are outside the modelled core.
- The connector factory and connector internals are oracles. The Tenant from getTenant, the Placement from placeResource and the Date readings are parameters.
- emitJobListenerMessage is recorded only as the ghost list of armed provider job ids. Its messaging and swallowed errors are not modelled.
- Logging is not modelled, and neither is EntityManager.flush.
- Transactions are assumed: a RuntimeException (ClassCastException in an attribute update) leaves the store as it was before the call.
- Concurrency between submission and completion is not modelled; the model is sequential.
- Model.VolumeCreate: the capacity and type come straight from the request, not through getVolumeTemplate().getVolumeConfig(). The NullPointerException of a request without a template is not modelled.
- Volumes.SnapshotSource: the snapshot volume's id is a non-null int. The NullPointerException of a Volume without an id is not modelled.
- Jobs.JobManager.UpdateJob: merging a Job whose key is absent is modelled as ResourceNotFound with the store unchanged, not as an insert followed by a read-back. The merged Job's Volume or VolumeImage target must be stored, because the store keeps that invariant.
- JavaInt.ParseInt: only ASCII digits are accepted; Integer.valueOf also accepts other Unicode decimal digits.
- IdConverter.FillFromCimi: the parent CommonConverter.fill it calls first, and the context-dependent href and expansion logic of the CIMI-to-service direction, are not part of this model. The service-to-CIMI fill is not modelled.
- Volumes.VolumeManager.UpdateVolumeConfigurationAttributes: a renamed configuration is not re-checked for per-tenant name uniqueness, because the source does not check it either.
- Model.Store: JobManager works in the persistence unit "persistence-unit/main" and VolumeManager in "siroccoPersistenceUnit"; the model takes both to be the same store, so a Job persisted by VolumeManager is the Job that jobCompletionHandler and JobManager find. The persistence.xml mapping that would confirm this is not part of this model.
- The Job record has one status field and separate targetEntity and targetResource fields. Job.java is not part of this model.
