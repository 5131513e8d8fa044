/** `get_nic_information`: the model of each network adapter, in the order
    of the network interface collection. */
module Network {
  import opened Text
  import opened Results
  import opened Json
  import opened Redfish

  /** `item.replace("Interfaces", "Adapters")`: the adapter resource that
      belongs to a network interface member. */
  function AdapterPath(member: string): string
  {
    ReplaceAll(member, "Interfaces", "Adapters")
  }

  /** No `Interfaces` is left in the rewritten path. */
  lemma AdapterPathHasNoInterfaces(member: string)
    ensures !Contains(AdapterPath(member), "Interfaces")
  {
    var pat := "Interfaces";
    var rep := "Adapters";
    assert pat[0] == 'I' && pat[1..] == "nterfaces";
    forall i: nat ensures !OccursAt(AdapterPath(member), pat, i) {
      ReplaceAllLeavesNoOccurrence(member, pat, rep, i);
    }
    ContainsIffOccurs(AdapterPath(member), pat);
  }

  /** A path that names no interface collection is requested as it is. */
  lemma AdapterPathUnchanged(member: string)
    requires !Contains(member, "Interfaces")
    ensures AdapterPath(member) == member
  {
    ReplaceAllAbsent(member, "Interfaces", "Adapters");
  }

  /** A head without the pattern's first character is copied unchanged. */
  lemma {:induction false} ReplaceAllCopiesHead(x: string, rest: string, pat: string, rep: string)
    requires pat != [] && pat[0] !in x
    ensures ReplaceAll(x + rest, pat, rep) == x + ReplaceAll(rest, pat, rep)
    decreases |x|
  {
    if x != [] {
      assert (x + rest)[0] == x[0];
      assert (x + rest)[1..] == x[1..] + rest;
      ReplaceAllCopiesHead(x[1..], rest, pat, rep);
      assert [x[0]] + (x[1..] + ReplaceAll(rest, pat, rep)) == x + ReplaceAll(rest, pat, rep);
    } else {
      assert x + rest == rest;
    }
  }

  /** The member `…/NetworkInterfaces/<id>` is fetched from
      `…/NetworkAdapters/<id>`. */
  lemma InterfaceMemberBecomesAdapter(head: string, id: string)
    requires 'I' !in head
    requires !Contains(id, "Interfaces")
    ensures AdapterPath(head + "Interfaces" + id) == head + "Adapters" + id
  {
    var pat, rep := "Interfaces", "Adapters";
    ReplaceAllCopiesHead(head, pat + id, pat, rep);
    assert (pat + id)[..|pat|] == pat;
    assert (pat + id)[|pat|..] == id;
    assert ReplaceAll(pat + id, pat, rep) == rep + ReplaceAll(id, pat, rep);
    ReplaceAllAbsent(id, pat, rep);
    assert head + pat + id == head + (pat + id);
    assert head + (rep + id) == head + rep + id;
  }

  /** The network interface collection of the host. */
  function InterfacesUri(ip: string): string
  {
    SystemUri(ip) + "/NetworkInterfaces"
  }

  /** The model a network adapter resource reports: `Model`, else `Id`, else
      `None`. The body must be a dict (`.get`). */
  function AdapterModel(body: Json): (r: Result<Json>)
    ensures r.Ok? <==> body.JObj?
    ensures r.Fail? ==> r.fault == Malformed
    ensures r.Ok? && "Model" in body.fields ==> r.value == body.fields["Model"]
    ensures r.Ok? && "Model" !in body.fields && "Id" in body.fields ==> r.value == body.fields["Id"]
    ensures r.Ok? && "Model" !in body.fields && "Id" !in body.fields ==> r.value == JNull
  {
    if !body.JObj? then Fail(Malformed)
    else Ok(Get(body.fields, "Model", Get(body.fields, "Id", JNull)))
  }

  /** One turn of the loop: rewrite the member's reference, GET the adapter,
      read its model. */
  function NicModel(p: Platform, ip: string, ref: Json): Result<Json>
  {
    var member :- AsStr(ref);
    var body :- MakeRequest(p, HostUri(ip, AdapterPath(member)));
    AdapterModel(body)
  }

  function NicStep(p: Platform, ip: string): Json -> Result<Json>
  {
    ref => NicModel(p, ip, ref)
  }

  /** `get_nic_information(ip)`, as a value: the members' references are all
      read (`network_uri_list`) before the first adapter is requested. */
  function NicInformation(p: Platform, ip: string): Result<seq<Json>>
  {
    var refs :- MemberRefs(p, InterfacesUri(ip));
    MapResult(NicStep(p, ip), refs)
  }

  /** The NIC list holds one model for each interface member, in member
      order, exactly when every adapter request succeeds. */
  lemma NicInformationOk(p: Platform, ip: string, refs: seq<Json>, models: seq<Json>)
    requires MemberRefs(p, InterfacesUri(ip)) == Ok(refs)
    ensures NicInformation(p, ip) == Ok(models) <==>
            |models| == |refs| && forall k :: 0 <= k < |refs| ==> NicModel(p, ip, refs[k]) == Ok(models[k])
  {
    MapResultOk(NicStep(p, ip), refs, models);
  }

  /** The first member whose adapter request fails decides the fault; the
      members after it are never requested. */
  lemma NicInformationFails(p: Platform, ip: string, refs: seq<Json>, k: nat)
    requires MemberRefs(p, InterfacesUri(ip)) == Ok(refs)
    requires FailsFirstAt(NicStep(p, ip), refs, k)
    ensures NicInformation(p, ip) == Fail(NicModel(p, ip, refs[k]).fault)
  {
    MapResultFirstFailure(NicStep(p, ip), refs, k);
  }

  /** `get_nic_information(ip)`: the list comprehension over the members,
      then one adapter request per member, appending its model. */
  method GetNicInformation(p: Platform, ip: string) returns (r: Result<seq<Json>>)
    ensures r == NicInformation(p, ip)
  {
    var networkUriList :- MemberRefs(p, InterfacesUri(ip));
    var allNics: seq<Json> := [];
    for i := 0 to |networkUriList|
      invariant |allNics| == i
      invariant forall k :: 0 <= k < i ==> NicStep(p, ip)(networkUriList[k]) == Ok(allNics[k])
    {
      var model := NicModel(p, ip, networkUriList[i]);
      if model.Fail? {
        MapResultFirstFailure(NicStep(p, ip), networkUriList, i);
        return Fail(model.fault);
      }
      allNics := allNics + [model.value];
    }
    MapResultOk(NicStep(p, ip), networkUriList, allNics);
    r := Ok(allNics);
  }
}
