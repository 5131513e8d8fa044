/** `get_general_information`: the system summary and the PCIe devices. */
module General {
  import opened Text
  import opened Results
  import opened Json
  import opened Redfish

  /** Name fragments of chipset, CPU and bridge entries that are not counted
      as PCIe hardware. */
  const Denylist: seq<string> := ["Xeon", "C610/X99", "C600/X79", "G200eR2", "PCI Bridge"]

  /** A PCIe device as the script reads it: manufacturer (else `Id`) and
      name (else `Description`). */
  datatype Device = Device(manufacturer: string, name: string)

  /** `" ".join([manufacturer, name])`. */
  function Descriptor(d: Device): string
  {
    d.manufacturer + " " + d.name
  }

  /** `any(word in name for word in words)`. */
  predicate ContainsAny(name: string, words: seq<string>)
    decreases |words|
  {
    words != [] && (Contains(name, words[0]) || ContainsAny(name, words[1..]))
  }

  lemma {:induction false} ContainsAnyIff(name: string, words: seq<string>)
    ensures ContainsAny(name, words) <==> exists k :: 0 <= k < |words| && Contains(name, words[k])
    decreases |words|
  {
    if words != [] {
      ContainsAnyIff(name, words[1..]);
      if exists k :: 0 <= k < |words| && Contains(name, words[k]) {
        var k :| 0 <= k < |words| && Contains(name, words[k]);
        if k > 0 {
          assert Contains(name, words[1..][k - 1]);
        }
      }
      if exists k :: 0 <= k < |words| - 1 && Contains(name, words[1..][k]) {
        var k :| 0 <= k < |words| - 1 && Contains(name, words[1..][k]);
        assert Contains(name, words[k + 1]);
      }
    }
  }

  /** The device is counted as PCIe hardware: its name holds no denylisted
      fragment. */
  predicate Relevant(d: Device)
  {
    !ContainsAny(d.name, Denylist)
  }

  /** The device is listed among the other NICs. */
  predicate Notable(d: Device)
  {
    Contains(d.manufacturer, "Solarflare") || Contains(d.name, "Ethernet")
  }

  /** A device is denied exactly when one of the five fragments occurs in its
      name; the manufacturer plays no part. */
  lemma RelevantIff(d: Device)
    ensures !Relevant(d) <==> exists k :: 0 <= k < 5 && Contains(d.name, Denylist[k])
  {
    ContainsAnyIff(d.name, Denylist);
  }

  /** The descriptors of the devices that `keep` accepts, in device order:
      the list an `if keep: list.append(...)` loop builds. */
  function Selected(devs: seq<Device>, keep: Device -> bool): (r: seq<string>)
    ensures |r| <= |devs|
    decreases |devs|
  {
    if devs == [] then []
    else
      var init := devs[..|devs| - 1];
      var last := devs[|devs| - 1];
      Selected(init, keep) + (if keep(last) then [Descriptor(last)] else [])
  }

  /** Every entry of the selection is the descriptor of an accepted device,
      and every accepted device's descriptor is in it. */
  lemma {:induction false} SelectedMembers(devs: seq<Device>, keep: Device -> bool)
    ensures forall x :: x in Selected(devs, keep) ==> exists d :: d in devs && keep(d) && x == Descriptor(d)
    ensures forall d :: d in devs && keep(d) ==> Descriptor(d) in Selected(devs, keep)
    decreases |devs|
  {
    if devs != [] {
      var init := devs[..|devs| - 1];
      var last := devs[|devs| - 1];
      SelectedMembers(init, keep);
      assert forall d :: d in init ==> d in devs;
      assert devs == init + [last];
    }
  }

  /** Selection distributes over concatenation, so it keeps the order of the
      devices and treats each one on its own. */
  lemma {:induction false} SelectedConcat(a: seq<Device>, b: seq<Device>, keep: Device -> bool)
    ensures Selected(a + b, keep) == Selected(a, keep) + Selected(b, keep)
    decreases |b|
  {
    if b != [] {
      var b' := b[..|b| - 1];
      assert (a + b)[..|a + b| - 1] == a + b';
      assert (a + b)[|a + b| - 1] == b[|b| - 1];
      SelectedConcat(a, b', keep);
    } else {
      assert a + b == a;
    }
  }

  lemma SelectedSnoc(devs: seq<Device>, d: Device, keep: Device -> bool)
    ensures Selected(devs + [d], keep) ==
            Selected(devs, keep) + (if keep(d) then [Descriptor(d)] else [])
  {
    assert (devs + [d])[..|devs|] == devs;
  }

  lemma SelectedOne(d: Device, keep: Device -> bool)
    ensures Selected([d], keep) == if keep(d) then [Descriptor(d)] else []
  {
    assert [d][..0] == [];
  }

  /** A CPU entry is dropped from the PCIe list. */
  lemma XeonIsDropped()
    ensures Selected([Device("Intel", "Intel Xeon Processor")], Relevant) == []
  {
    var d := Device("Intel", "Intel Xeon Processor");
    assert OccursAt(d.name, "Xeon", 6);
    ContainsIffOccurs(d.name, "Xeon");
    SelectedOne(d, Relevant);
  }

  lemma SolarflareCard(d: Device)
    requires d == Device("Solarflare", "SFN8522")
    ensures Relevant(d) && Notable(d)
  {
    forall k | 0 <= k < |Denylist| ensures !Contains(d.name, Denylist[k]) {
      FirstCharAbsent(d.name, Denylist[k]);
    }
    RelevantIff(d);
    assert OccursAt(d.manufacturer, "Solarflare", 0);
    ContainsIffOccurs(d.manufacturer, "Solarflare");
  }

  lemma SolarflareDescriptor(d: Device)
    requires d == Device("Solarflare", "SFN8522")
    ensures Descriptor(d) == "Solarflare SFN8522"
  {
  }

  /** A device that passes both tests is listed in both lists. */
  lemma KeptByBoth(d: Device)
    requires Relevant(d) && Notable(d)
    ensures Selected([d], Relevant) == [Descriptor(d)]
    ensures Selected([d], Notable) == [Descriptor(d)]
  {
    SelectedOne(d, Relevant);
    SelectedOne(d, Notable);
  }

  /** The denylist and the NIC test are independent: a Solarflare card is in
      the PCIe list and among the other NICs. */
  lemma SolarflareIsInBothLists(d: Device)
    requires d == Device("Solarflare", "SFN8522")
    ensures Selected([d], Relevant) == ["Solarflare SFN8522"]
    ensures Selected([d], Notable) == ["Solarflare SFN8522"]
  {
    SolarflareCard(d);
    KeptByBoth(d);
    SolarflareDescriptor(d);
  }

  /** What the function returns to `get_all`: the fields it reads from the
      system resource, their `str()` forms, the `"+"`-joined PCIe list and
      the other NICs. `model` and `cpuModel` stay JSON values, because only
      the final join requires them to be strings. */
  datatype GeneralInfo = GeneralInfo(
    model: Json,
    cpuModel: Json,
    cores: string,
    threads: string,
    ram: string,
    pcie: string,
    otherNics: seq<string>)

  /** `total_threads / Count`, the core count (assuming two threads a core). */
  function Quotient(p: Platform, threads: Json, count: Json): Result<string>
  {
    match p.divide(threads, count)
    case None => Fail(Malformed)
    case Some(text) => Ok(text)
  }

  /** The device a PCIe resource describes. The body must be a dict (`.get`),
      and the chosen manufacturer and name must be strings (`in`, `join`). */
  function ReadDevice(body: Json): (r: Result<Device>)
    ensures r.Ok? ==> body.JObj?
    ensures r.Ok? && "Manufacturer" in body.fields ==>
              body.fields["Manufacturer"] == JStr(r.value.manufacturer)
    ensures r.Ok? && "Manufacturer" !in body.fields ==>
              "Id" in body.fields && body.fields["Id"] == JStr(r.value.manufacturer)
    ensures r.Ok? && "Name" in body.fields ==>
              body.fields["Name"] == JStr(r.value.name)
    ensures r.Ok? && "Name" !in body.fields ==>
              "Description" in body.fields && body.fields["Description"] == JStr(r.value.name)
    ensures r.Fail? ==> r.fault == Malformed
    ensures r.Ok? <==>
              body.JObj? &&
              Get(body.fields, "Manufacturer", Get(body.fields, "Id", JNull)).JStr? &&
              Get(body.fields, "Name", Get(body.fields, "Description", JNull)).JStr?
  {
    if !body.JObj? then Fail(Malformed)
    else
      var manufacturer := Get(body.fields, "Manufacturer", Get(body.fields, "Id", JNull));
      var name := Get(body.fields, "Name", Get(body.fields, "Description", JNull));
      if manufacturer.JStr? && name.JStr? then Ok(Device(manufacturer.s, name.s))
      else Fail(Malformed)
  }

  /** One turn of the PCIe loop: the member's reference, its GET, its fields. */
  function DeviceAt(p: Platform, ip: string, item: Json): Result<Device>
  {
    var path :- OdataId(item);
    var body :- MakeRequest(p, HostUri(ip, path));
    ReadDevice(body)
  }

  /** A PCIe member whose resource names a Solarflare SFN8522 card is read as
      that device, which then lands in both lists. */
  lemma SolarflareResourceIsRead(p: Platform, ip: string, path: string, item: Json, body: Json)
    requires item == JObj(map["@odata.id" := JStr(path)])
    requires body == JObj(map["Manufacturer" := JStr("Solarflare"), "Name" := JStr("SFN8522")])
    requires p.fetch(HostUri(ip, path)) == Resp(200, body)
    ensures DeviceAt(p, ip, item) == Ok(Device("Solarflare", "SFN8522"))
    ensures Selected([DeviceAt(p, ip, item).value], Relevant) == ["Solarflare SFN8522"]
    ensures Selected([DeviceAt(p, ip, item).value], Notable) == ["Solarflare SFN8522"]
  {
    assert OdataId(item) == Ok(path);
    assert MakeRequest(p, HostUri(ip, path)) == Ok(body);
    SolarflareIsInBothLists(Device("Solarflare", "SFN8522"));
  }

  function DeviceStep(p: Platform, ip: string): Json -> Result<Device>
  {
    item => DeviceAt(p, ip, item)
  }

  /** The fields of the system resource that the script reads before the
      PCIe loop, with `PCIeDevices` as the members the loop visits. */
  datatype SystemInfo = SystemInfo(
    model: Json,
    ram: Json,
    threads: Json,
    cores: string,
    cpuModel: Json,
    devices: seq<Json>)

  /** The straight-line reads of `get_general_information`, in the order the
      script makes them. */
  function ReadSystem(p: Platform, ip: string): (r: Result<SystemInfo>)
    ensures MakeRequest(p, SystemUri(ip)).Fail? ==> r == Fail(MakeRequest(p, SystemUri(ip)).fault)
    ensures MakeRequest(p, SystemUri(ip)).Ok? && r.Fail? ==> r.fault == Malformed
    ensures r.Ok? <==>
              MakeRequest(p, SystemUri(ip)).Ok? &&
              var data := MakeRequest(p, SystemUri(ip)).value;
              data.JObj? && "Model" in data.fields && "MemorySummary" in data.fields &&
              "ProcessorSummary" in data.fields && "PCIeDevices" in data.fields &&
              Field(data.fields["MemorySummary"], "TotalSystemMemoryGiB").Ok? &&
              var processors := data.fields["ProcessorSummary"];
              Field(processors, "LogicalProcessorCount").Ok? && Field(processors, "Count").Ok? &&
              p.divide(Field(processors, "LogicalProcessorCount").value, Field(processors, "Count").value).Some? &&
              Field(processors, "Model").Ok? &&
              Items(data.fields["PCIeDevices"]).Ok?
    ensures r.Ok? ==>
              var data := MakeRequest(p, SystemUri(ip)).value;
              data.JObj? && "Model" in data.fields && "MemorySummary" in data.fields &&
              "ProcessorSummary" in data.fields && "PCIeDevices" in data.fields &&
              r.value.model == data.fields["Model"] &&
              Field(data.fields["MemorySummary"], "TotalSystemMemoryGiB") == Ok(r.value.ram) &&
              var processors := data.fields["ProcessorSummary"];
              Field(processors, "LogicalProcessorCount") == Ok(r.value.threads) &&
              Field(processors, "Count").Ok? &&
              p.divide(r.value.threads, Field(processors, "Count").value) == Some(r.value.cores) &&
              Field(processors, "Model") == Ok(r.value.cpuModel) &&
              Items(data.fields["PCIeDevices"]) == Ok(r.value.devices)
  {
    var data :- MakeRequest(p, SystemUri(ip));
    var model :- Field(data, "Model");
    var memory :- Field(data, "MemorySummary");
    var ram :- Field(memory, "TotalSystemMemoryGiB");
    var processors :- Field(data, "ProcessorSummary");
    var threads :- Field(processors, "LogicalProcessorCount");
    var count :- Field(processors, "Count");
    var cores :- Quotient(p, threads, count);
    var cpuModel :- Field(processors, "Model");
    var devices :- Field(data, "PCIeDevices");
    var items :- Items(devices);
    Ok(SystemInfo(model, ram, threads, cores, cpuModel, items))
  }

  /** `get_general_information(ip)`, as a value. */
  function GeneralInformation(p: Platform, ip: string): Result<GeneralInfo>
  {
    var sys :- ReadSystem(p, ip);
    var seen :- MapResult(DeviceStep(p, ip), sys.devices);
    Ok(GeneralInfo(sys.model, sys.cpuModel, sys.cores, Str(p, sys.threads), Str(p, sys.ram),
                   Join("+", Selected(seen, Relevant)), Selected(seen, Notable)))
  }

  /** The PCIe loop of `get_general_information`: visits the device members
      in order, appending each relevant one to the PCIe list and each notable
      one to the other NICs, or stops at the first fault. `visit` reads one
      member (its GET and its fields). */
  method VisitDevices(visit: Json -> Result<Device>, items: seq<Json>)
    returns (r: Result<(seq<string>, seq<string>)>)
    ensures MapResult(visit, items).Fail? ==>
              r == Fail(MapResult(visit, items).fault)
    ensures MapResult(visit, items).Ok? ==>
              var seen := MapResult(visit, items).value;
              r == Ok((Selected(seen, Relevant), Selected(seen, Notable)))
  {
    var allPcie: seq<string> := [];
    var otherNics: seq<string> := [];
    ghost var seen: seq<Device> := [];
    for i := 0 to |items|
      invariant |seen| == i
      invariant forall k :: 0 <= k < i ==> visit(items[k]) == Ok(seen[k])
      invariant allPcie == Selected(seen, Relevant)
      invariant otherNics == Selected(seen, Notable)
    {
      var step := visit(items[i]);
      if step.Fail? {
        MapResultFirstFailure(visit, items, i);
        return Fail(step.fault);
      }
      var device := step.value;
      SelectedSnoc(seen, device, Relevant);
      SelectedSnoc(seen, device, Notable);
      if Relevant(device) {
        allPcie := allPcie + [Descriptor(device)];
      }
      if Notable(device) {
        otherNics := otherNics + [Descriptor(device)];
      }
      seen := seen + [device];
    }
    MapResultOk(visit, items, seen);
    r := Ok((allPcie, otherNics));
  }

  /** `get_general_information(ip)`: reads the system resource, then runs
      the PCIe loop and joins the PCIe list with `"+"`. */
  method GetGeneralInformation(p: Platform, ip: string) returns (r: Result<GeneralInfo>)
    ensures r == GeneralInformation(p, ip)
  {
    var sys :- ReadSystem(p, ip);
    var lists :- VisitDevices(DeviceStep(p, ip), sys.devices);
    r := Ok(GeneralInfo(sys.model, sys.cpuModel, sys.cores, Str(p, sys.threads), Str(p, sys.ram),
                        Join("+", lists.0), lists.1));
  }
}
