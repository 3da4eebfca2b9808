/**
 * The completion rules of the volume manager: which (action, provider job state) pairs
 * settle a resource, what state they settle it in, and how a completed snapshot marks its
 * link available. Both completion handlers apply these rules.
 */
module Reconciliation {
  import opened Outcomes
  import opened Model

  /** The rows of the completion table; Unmatched covers every other (action, state) pair. */
  datatype Row = AddSucceeded | AddFailed | DeleteSucceeded | DeleteFailed | Unmatched

  /** Selects the row for a Job's action string and its provider-reported state. */
  function TableRow(action: string, state: JobState): (row: Row)
    ensures row == AddSucceeded <==> action == "add" && state == SUCCESS
    ensures row == AddFailed <==> action == "add" && state == FAILED
    ensures row == DeleteSucceeded <==> action == "delete" && state == SUCCESS
    ensures row == DeleteFailed <==> action == "delete" && state == FAILED
  {
    if action == "add" then
      (if state == SUCCESS then AddSucceeded else if state == FAILED then AddFailed else Unmatched)
    else if action == "delete" then
      (if state == SUCCESS then DeleteSucceeded else if state == FAILED then DeleteFailed else Unmatched)
    else Unmatched
  }

  /**
   * The resource after a completion: an add that succeeded takes the state the connector
   * reports now and is stamped created, if the connector answered (`queried`); a failed add
   * or delete goes to ERROR; a delete that succeeded goes to DELETED; anything else is kept.
   */
  function Reconciled(r: Resource, row: Row, queried: Option<ResourceState>, now: nat): (r': Resource)
    ensures r'.providerAssignedId == r.providerAssignedId && r'.placement == r.placement
    ensures r'.entity == r.entity.(created := r'.entity.created)
    ensures !Settles(row, queried) ==> r' == r
    ensures Settles(row, queried) ==>
      r'.state == match row
        case AddSucceeded => queried.value
        case DeleteSucceeded => DELETED
        case _ => ERROR
    ensures r'.entity.created != r.entity.created ==> row == AddSucceeded && queried.Some? && r'.entity.created == Some(now)
    ensures row == AddSucceeded && queried.Some? ==> r'.entity.created == Some(now)
  {
    match row
    case AddSucceeded =>
      if queried.Some? then r.(state := queried.value, entity := r.entity.(created := Some(now))) else r
    case AddFailed => r.(state := ERROR)
    case DeleteSucceeded => r.(state := DELETED)
    case DeleteFailed => r.(state := ERROR)
    case Unmatched => r
  }

  /** Whether a row settles the resource, given the connector's answer. */
  predicate Settles(row: Row, queried: Option<ResourceState>)
  {
    row != Unmatched && (row == AddSucceeded ==> queried.Some?)
  }

  /** The settled state does not depend on the state the resource was in before. */
  lemma {:induction false} ReconciledForgetsPriorState(
    r1: Resource, r2: Resource, row: Row, queried: Option<ResourceState>, now1: nat, now2: nat)
    requires Settles(row, queried)
    ensures Reconciled(r1, row, queried, now1).state == Reconciled(r2, row, queried, now2).state
    ensures Reconciled(r1, row, queried, now1).state ==
      match row
      case AddSucceeded => queried.value
      case DeleteSucceeded => DELETED
      case _ => ERROR
  {
    match row
    case AddSucceeded =>
    case AddFailed =>
    case DeleteSucceeded =>
    case DeleteFailed =>
  }

  /** Replaying a completion with the same connector answer and clock changes nothing more. */
  lemma ReconciledIdempotent(r: Resource, row: Row, queried: Option<ResourceState>, now: nat)
    ensures Reconciled(Reconciled(r, row, queried, now), row, queried, now) == Reconciled(r, row, queried, now)
  {
  }

  /** The keys of the resources whose provider-assigned id is pid. */
  function WithProviderId(resources: map<int, Resource>, pid: string): (ids: set<int>)
    ensures forall id :: id in ids <==> id in resources && resources[id].providerAssignedId == pid
  {
    set id | id in resources && resources[id].providerAssignedId == pid
  }

  /** The keys of the snapshot links whose image is the given VolumeImage. */
  function LinksOf(links: map<int, VolumeVolumeImage>, image: int): (ids: set<int>)
    ensures forall l :: l in ids <==> l in links && links[l].volumeImage == Some(image)
  {
    set l | l in links && links[l].volumeImage == Some(image)
  }

  /**
   * The single-result query for an image's link: when exactly one link points at the image it
   * becomes AVAILABLE and is stamped created; when none or several do, no link changes.
   */
  function MarkSnapshotAvailable(links: map<int, VolumeVolumeImage>, image: int, now: nat)
    : (r: map<int, VolumeVolumeImage>)
    ensures r.Keys == links.Keys
    ensures |LinksOf(links, image)| != 1 ==> r == links
    ensures |LinksOf(links, image)| == 1 ==>
      forall l :: l in LinksOf(links, image) ==>
        r[l] == links[l].(state := LinkState.AVAILABLE, created := Some(now))
    ensures forall l :: l in links && l !in LinksOf(links, image) ==> r[l] == links[l]
  {
    if |LinksOf(links, image)| == 1 then
      map l | l in links ::
        if links[l].volumeImage == Some(image)
        then links[l].(state := LinkState.AVAILABLE, created := Some(now))
        else links[l]
    else links
  }

  /** A non-empty set of keys has a member. */
  lemma NonEmptyHasMember(s: set<int>)
    requires s != {}
    ensures exists x :: x in s
  {
    if forall x :: x !in s {
      assert false;
    }
  }

  /** A set of one key is exactly that key. */
  lemma SingletonSet(s: set<int>, x: int)
    requires |s| == 1 && x in s
    ensures s == {x}
  {
    var rest := s - {x};
    assert |rest| == 0;
  }

  /**
   * A snapshot link just added for a fresh image is the only link of that image, so the
   * image's successful completion makes exactly that link AVAILABLE and no other link changes.
   */
  lemma {:induction false} NewSnapshotLinkBecomesAvailable(
    links: map<int, VolumeVolumeImage>, lid: int, image: int, now: nat)
    requires lid !in links
    requires forall l :: l in links ==> links[l].volumeImage != Some(image)
    ensures var links' := links[lid := VolumeVolumeImage(Some(image), SNAPSHOTTING, None)];
      && LinksOf(links', image) == {lid}
      && MarkSnapshotAvailable(links', image, now)
         == links'[lid := VolumeVolumeImage(Some(image), LinkState.AVAILABLE, Some(now))]
  {
    var links' := links[lid := VolumeVolumeImage(Some(image), SNAPSHOTTING, None)];
    forall l | l in LinksOf(links', image)
      ensures l == lid
    {
    }
    assert lid in LinksOf(links', image);
    assert LinksOf(links', image) == {lid};
    var marked := MarkSnapshotAvailable(links', image, now);
    var expected := links'[lid := VolumeVolumeImage(Some(image), LinkState.AVAILABLE, Some(now))];
    assert marked.Keys == expected.Keys;
    forall l | l in marked
      ensures marked[l] == expected[l]
    {
    }
  }

  /** Marking the same image's link twice with the same stamp is the same as once. */
  lemma MarkSnapshotAvailableIdempotent(links: map<int, VolumeVolumeImage>, image: int, now: nat)
    ensures MarkSnapshotAvailable(MarkSnapshotAvailable(links, image, now), image, now)
      == MarkSnapshotAvailable(links, image, now)
  {
    var once := MarkSnapshotAvailable(links, image, now);
    assert LinksOf(once, image) == LinksOf(links, image);
  }
}
