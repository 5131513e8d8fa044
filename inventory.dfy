/** `get_all`: one host's inventory line, or the text of the error that
    stopped its collection; and `Pool.map` of it over the host list. */
module Inventory {
  import opened Text
  import opened Results
  import opened Json
  import opened Redfish
  import opened General
  import opened Storage
  import opened Network

  /** What `get_all` gives for a host: a line for the CSV file, or an
      exception it does not catch, which ends the whole run. */
  datatype Outcome = Line(text: string) | Crash

  /** The `except` clauses: a connection error and a `RedfishError` become
      the host's line; anything else propagates. */
  function FaultOutcome(ip: string, f: Fault): (r: Outcome)
    ensures r.Crash? <==> f == Malformed
    ensures f == Unreachable ==> r == Line("Could not reach host " + ip)
    ensures IsStatusFault(f) ==> r == Line(Message(f))
  {
    match f
    case Unreachable => Line("Could not reach host " + ip)
    case Malformed => Crash
    case _ => Line(Message(f))
  }

  /** The fields of the record, in the order of the `join`: the address,
      model, CPU, cores, threads, memory, the `" + "`-joined disks, the PCIe
      list, then each NIC model and each other NIC as a field of its own. */
  function RecordFields(ip: string, model: string, cpu: string, disks: seq<string>,
                        nics: seq<string>, g: GeneralInfo): seq<string>
  {
    [ip, model, cpu, g.cores, g.threads, g.ram, Join(" + ", disks), g.pcie] + nics + g.otherNics
  }

  /** The `",".join(...)` of `get_all`: every element must be a string, so
      the model, the CPU model and each NIC model must be JSON strings. */
  function Record(ip: string, disks: seq<string>, nics: seq<Json>, g: GeneralInfo): (r: Result<string>)
    ensures r.Ok? <==> g.model.JStr? && g.cpuModel.JStr? && forall k :: 0 <= k < |nics| ==> nics[k].JStr?
    ensures r.Fail? ==> r.fault == Malformed
  {
    var model :- AsStr(g.model);
    var cpu :- AsStr(g.cpuModel);
    var texts := MapResult(AsStr, nics);
    if texts.Fail? then
      MapResultFailureHasFirst(AsStr, nics);
      Fail(texts.fault)
    else
      MapResultOk(AsStr, nics, texts.value);
      Ok(Join(",", RecordFields(ip, model, cpu, disks, texts.value, g)))
  }

  /** The body of the `try`: storage first, then the NICs, then the general
      information, then the record. */
  function Collect(p: Platform, ip: string): Result<string>
  {
    var disks :- DiskInformation(p, ip);
    var nics :- NicInformation(p, ip);
    var general :- GeneralInformation(p, ip);
    Record(ip, disks, nics, general)
  }

  /** `get_all(ip)`, as a value. */
  function HostOutcome(p: Platform, ip: string): (r: Outcome)
    ensures r.Crash? <==> Collect(p, ip) == Fail(Malformed)
  {
    match Collect(p, ip)
    case Ok(line) => Line(line)
    case Fail(f) => FaultOutcome(ip, f)
  }

  /** `get_all(ip)`: the three collectors in order, then the join. */
  method GetAll(p: Platform, ip: string) returns (o: Outcome)
    ensures o == HostOutcome(p, ip)
  {
    var disks := GetDiskInformation(p, ip);
    if disks.Fail? {
      return FaultOutcome(ip, disks.fault);
    }
    var nics := GetNicInformation(p, ip);
    if nics.Fail? {
      return FaultOutcome(ip, nics.fault);
    }
    var general := GetGeneralInformation(p, ip);
    if general.Fail? {
      return FaultOutcome(ip, general.fault);
    }
    var line := Record(ip, disks.value, nics.value, general.value);
    if line.Fail? {
      return FaultOutcome(ip, line.fault);
    }
    o := Line(line.value);
  }

  /** A storage fault decides the outcome, whatever the NIC and general
      resources would have given. */
  lemma StorageFaultFirst(p: Platform, ip: string)
    requires DiskInformation(p, ip).Fail?
    ensures HostOutcome(p, ip) == FaultOutcome(ip, DiskInformation(p, ip).fault)
  {
  }

  /** With the disks collected, a NIC fault decides the outcome before the
      general information is read. */
  lemma NicFaultSecond(p: Platform, ip: string)
    requires DiskInformation(p, ip).Ok? && NicInformation(p, ip).Fail?
    ensures HostOutcome(p, ip) == FaultOutcome(ip, NicInformation(p, ip).fault)
  {
  }

  lemma GeneralFaultThird(p: Platform, ip: string)
    requires DiskInformation(p, ip).Ok? && NicInformation(p, ip).Ok?
    requires GeneralInformation(p, ip).Fail?
    ensures HostOutcome(p, ip) == FaultOutcome(ip, GeneralInformation(p, ip).fault)
  {
  }

  /** A host that does not answer the first request gives exactly
      "Could not reach host <ip>". */
  lemma UnreachableHost(p: Platform, ip: string)
    requires p.fetch(StorageUri(ip)).ConnErr?
    ensures HostOutcome(p, ip) == Line("Could not reach host " + ip)
  {
  }

  /** A host that refuses the credentials gives the authentication text with
      the storage URI, the first one requested. */
  lemma RejectedCredentials(p: Platform, ip: string)
    requires p.fetch(StorageUri(ip)).Resp? && p.fetch(StorageUri(ip)).status == 401
    ensures HostOutcome(p, ip) ==
            Line("Incorrect username/password. Given URI: https://" + ip +
                 "/redfish/v1/Systems/System.Embedded.1/Storage")
  {
    assert StorageUri(ip) == "https://" + ip + "/redfish/v1/Systems/System.Embedded.1/Storage";
  }

  /** When all three collectors succeed and the values to join are strings,
      the line is the record, and splitting it at the commas gives back the
      fields in order, provided no field holds a comma: the address first,
      eight fields before the NICs, one field per NIC and per other NIC. */
  lemma RecordReadsBack(p: Platform, ip: string, disks: seq<string>, nics: seq<Json>, g: GeneralInfo,
                        model: string, cpu: string, nicTexts: seq<string>)
    requires DiskInformation(p, ip) == Ok(disks)
    requires NicInformation(p, ip) == Ok(nics)
    requires GeneralInformation(p, ip) == Ok(g)
    requires g.model == JStr(model) && g.cpuModel == JStr(cpu)
    requires MapResult(AsStr, nics) == Ok(nicTexts)
    requires forall k :: 0 <= k < |RecordFields(ip, model, cpu, disks, nicTexts, g)| ==>
               ',' !in RecordFields(ip, model, cpu, disks, nicTexts, g)[k]
    ensures HostOutcome(p, ip).Line?
    ensures Split(HostOutcome(p, ip).text, ',') == RecordFields(ip, model, cpu, disks, nicTexts, g)
    ensures |Split(HostOutcome(p, ip).text, ',')| == 8 + |nics| + |g.otherNics|
    ensures Split(HostOutcome(p, ip).text, ',')[0] == ip
  {
    MapResultOk(AsStr, nics, nicTexts);
    SplitJoin(RecordFields(ip, model, cpu, disks, nicTexts, g), ',');
  }

  /** A NIC model that is not a string (a `None` model with no `Id`, say)
      makes the join raise, which `get_all` does not catch. */
  lemma NonStringModelCrashes(p: Platform, ip: string, k: nat)
    requires DiskInformation(p, ip).Ok? && NicInformation(p, ip).Ok?
    requires GeneralInformation(p, ip).Ok?
    requires k < |NicInformation(p, ip).value| && !NicInformation(p, ip).value[k].JStr?
    ensures HostOutcome(p, ip) == Crash
  {
    var nics := NicInformation(p, ip).value;
    MapResultFailsAt(AsStr, nics, k);
    MapResultFailureHasFirst(AsStr, nics);
  }

  /** `Pool.map(get_all, hosts)`: the outcomes in host order; `None` when
      some host's collection raised, since `map` then raises too. */
  function Sweep(p: Platform, hosts: seq<string>): (r: Option<seq<string>>)
    ensures r.Some? <==> forall k :: 0 <= k < |hosts| ==> HostOutcome(p, hosts[k]).Line?
    ensures r.Some? ==> |r.value| == |hosts|
    ensures r.Some? ==> forall k :: 0 <= k < |hosts| ==> r.value[k] == HostOutcome(p, hosts[k]).text
    decreases |hosts|
  {
    if hosts == [] then Some([])
    else
      match HostOutcome(p, hosts[0])
      case Crash => None
      case Line(text) =>
        match Sweep(p, hosts[1..])
        case None => None
        case Some(rest) => Some([text] + rest)
  }
}
