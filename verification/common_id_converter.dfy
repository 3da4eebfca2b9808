/**
 * The id part of the CIMI <-> service conversion: extracting the service id from a CIMI href
 * (the path segment after the last '/') and copying it into a service resource.
 */
module IdConverter {
  import opened Outcomes
  import opened JavaInt

  /** String.lastIndexOf(c): the position of the last occurrence of c, or -1 when there is none. */
  function LastIndexOf(s: string, c: char): (k: int)
    ensures -1 <= k < |s|
    ensures k >= 0 ==> s[k] == c
    ensures forall i :: k < i < |s| ==> s[i] != c
    decreases |s|
  {
    if |s| == 0 then -1
    else if s[|s| - 1] == c then |s| - 1
    else LastIndexOf(s[..|s| - 1], c)
  }

  /** extractIdString: href.substring(href.lastIndexOf('/') + 1). */
  function ExtractIdString(href: string): (id: string)
    ensures '/' !in id
    ensures |id| <= |href| && id == href[|href| - |id|..]
    ensures |id| < |href| ==> href[|href| - |id| - 1] == '/'
  {
    href[LastIndexOf(href, '/') + 1..]
  }

  /** extractId: Integer.valueOf of the extracted segment; None stands for NumberFormatException. */
  function ExtractId(href: string): (id: Option<int>)
    ensures id.Some? ==> MIN_VALUE <= id.value <= MAX_VALUE
  {
    ParseInt(ExtractIdString(href))
  }

  /** An href without any '/' is its own id (lastIndexOf gives -1, substring(0) follows). */
  lemma NoSlashIsWholeHref(href: string)
    requires '/' !in href
    ensures ExtractIdString(href) == href
  {
  }

  /** An href that ends in '/' has the empty id. */
  lemma TrailingSlashGivesEmpty(href: string)
    requires |href| > 0 && href[|href| - 1] == '/'
    ensures ExtractIdString(href) == ""
  {
  }

  /** Building an href as prefix + "/" + segment and extracting gives the segment back. */
  lemma {:induction false} ExtractAfterBuild(prefix: string, segment: string)
    requires '/' !in segment
    ensures ExtractIdString(prefix + "/" + segment) == segment
  {
    var href := prefix + "/" + segment;
    var k := LastIndexOf(href, '/');
    assert href[|prefix|] == '/';
    forall i | |prefix| < i < |href|
      ensures href[i] != '/'
    {
      assert href[i] == segment[i - |prefix| - 1];
    }
    assert k == |prefix|;
    assert href[k + 1..] == segment;
  }

  /** The numeric id written by Integer.toString after the last '/' is read back by extractId. */
  lemma ExtractIdOfBuiltHref(prefix: string, id: int)
    requires MIN_VALUE <= id <= MAX_VALUE
    ensures ExtractId(prefix + "/" + Show(id)) == Some(id)
  {
    ParseShow(id);
    assert '/' !in Show(id) by {
      ShowNatIsDigits(if id < 0 then -id else id);
      if id < 0 {
        assert Show(id) == "-" + ShowNat(-id);
      }
    }
    ExtractAfterBuild(prefix, Show(id));
  }

  /** A machine image href base + "machineImages/13" converts to the service id 13. */
  lemma MachineImageHrefExample(base: string)
    ensures ExtractId(base + "machineImages/13") == Some(13)
  {
    assert base + "machineImages/13" == (base + "machineImages") + "/" + Show(13);
    ExtractIdOfBuiltHref(base + "machineImages", 13);
  }

  /** The id part of a service-model resource (org.ow2.sirocco.cloudmanager.model.cimi.Resource). */
  class ServiceResource {
    var id: Option<int>

    constructor ()
      ensures id == None
    {
      id := None;
    }
  }

  /**
   * fill(context, dataCimi, dataService): the service id is set from the CIMI id only when the
   * CIMI id is non-null; a CIMI id whose last segment is not a number raises
   * NumberFormatException and the service id is left as it was.
   */
  method FillFromCimi(cimiId: Option<string>, dataService: ServiceResource) returns (r: Result<()>)
    modifies dataService
    ensures cimiId.None? ==> r == Ok(()) && dataService.id == old(dataService.id)
    ensures cimiId.Some? && ExtractId(cimiId.value).Some? ==>
      r == Ok(()) && dataService.id == ExtractId(cimiId.value)
    ensures cimiId.Some? && ExtractId(cimiId.value).None? ==>
      r == Err(NumberFormat(ExtractIdString(cimiId.value))) && dataService.id == old(dataService.id)
  {
    r := Ok(());
    if cimiId.Some? {
      var id := ExtractId(cimiId.value);
      if id.None? {
        return Err(NumberFormat(ExtractIdString(cimiId.value)));
      }
      dataService.id := id;
    }
  }
}
