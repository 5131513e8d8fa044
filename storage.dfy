/** `get_disk_information`: one descriptor per drive, over all storage
    controllers in order. */
module Storage {
  import opened Text
  import opened Results
  import opened Json
  import opened Redfish

  /** 2^30 bytes, one gibibyte. */
  const GiB: int := 1073741824

  function Abs(x: int): nat
  {
    if x < 0 then -x else x
  }

  /** Python's `round(bytes / 2**30)` for an exact quotient. */
  function Gibibytes(bytes: int): int
  {
    var q := bytes / GiB;
    var rem := bytes % GiB;
    if 2 * rem < GiB then q
    else if 2 * rem > GiB then q + 1
    else if q % 2 == 0 then q
    else q + 1
  }

  /** The count is the integer nearest to `bytes / 2**30`, and the even one
      of two equally near. */
  lemma GibibytesNearest(bytes: int)
    ensures 2 * Abs(bytes - Gibibytes(bytes) * GiB) <= GiB
    ensures 2 * Abs(bytes - Gibibytes(bytes) * GiB) == GiB ==> Gibibytes(bytes) % 2 == 0
  {
  }

  /** These two properties single the count out. */
  lemma GibibytesUnique(bytes: int, r: int)
    requires 2 * Abs(bytes - r * GiB) <= GiB
    requires 2 * Abs(bytes - r * GiB) == GiB ==> r % 2 == 0
    ensures r == Gibibytes(bytes)
  {
  }

  /** A drive as the script reads it: `CapacityBytes` and `MediaType`. */
  datatype Drive = Drive(capacity: int, media: string)

  /** `str(round(CapacityBytes / 2**30)) + " " + MediaType`. */
  function DriveDescriptor(d: Drive): string
  {
    IntToString(Gibibytes(d.capacity)) + " " + d.media
  }

  lemma OneGibibyteSsd()
    ensures DriveDescriptor(Drive(GiB, "SSD")) == "1 SSD"
    ensures DriveDescriptor(Drive(3 * GiB, "SSD")) == "3 SSD"
  {
    GibibytesUnique(GiB, 1);
    GibibytesUnique(3 * GiB, 3);
  }

  /** A drive of half a gibibyte more than an even count rounds down, one of
      half a gibibyte more than an odd count rounds up. */
  lemma HalfGibibyteTies()
    ensures Gibibytes(2 * GiB + GiB / 2) == 2
    ensures Gibibytes(3 * GiB + GiB / 2) == 4
  {
    GibibytesUnique(2 * GiB + GiB / 2, 2);
    GibibytesUnique(3 * GiB + GiB / 2, 4);
  }

  /** The descriptors of one controller's drives, in drive order. */
  function DriveDescriptors(ds: seq<Drive>): seq<string>
  {
    seq(|ds|, k requires 0 <= k < |ds| => DriveDescriptor(ds[k]))
  }

  lemma DriveDescriptorsSnoc(ds: seq<Drive>, d: Drive)
    ensures DriveDescriptors(ds + [d]) == DriveDescriptors(ds) + [DriveDescriptor(d)]
  {
  }

  /** The descriptor lists of the controllers, in controller order. */
  function PerController(ctls: seq<seq<Drive>>): seq<seq<string>>
  {
    seq(|ctls|, c requires 0 <= c < |ctls| => DriveDescriptors(ctls[c]))
  }

  /** The descriptors of all drives: controller by controller, and within a
      controller drive by drive. */
  function Descriptors(ctls: seq<seq<Drive>>): seq<string>
  {
    Flatten(PerController(ctls))
  }

  /** The drives of all controllers. */
  function TotalDrives(ctls: seq<seq<Drive>>): nat
    decreases |ctls|
  {
    if ctls == [] then 0 else TotalDrives(ctls[..|ctls| - 1]) + |ctls[|ctls| - 1]|
  }

  /** The descriptors of two runs of controllers are those of the first run
      followed by those of the second. */
  lemma DescriptorsConcat(a: seq<seq<Drive>>, b: seq<seq<Drive>>)
    ensures Descriptors(a + b) == Descriptors(a) + Descriptors(b)
  {
    assert PerController(a + b) == PerController(a) + PerController(b);
    FlattenConcat(PerController(a), PerController(b));
  }

  lemma DescriptorsSnoc(ctls: seq<seq<Drive>>, ds: seq<Drive>)
    ensures Descriptors(ctls + [ds]) == Descriptors(ctls) + DriveDescriptors(ds)
  {
    assert PerController(ctls + [ds]) == PerController(ctls) + [DriveDescriptors(ds)];
    FlattenSnoc(PerController(ctls), DriveDescriptors(ds));
  }

  /** One descriptor for each drive of each controller. */
  lemma {:induction false} DescriptorsCount(ctls: seq<seq<Drive>>)
    ensures |Descriptors(ctls)| == TotalDrives(ctls)
    decreases |ctls|
  {
    if ctls != [] {
      var init := ctls[..|ctls| - 1];
      assert ctls == init + [ctls[|ctls| - 1]];
      DescriptorsSnoc(init, ctls[|ctls| - 1]);
      DescriptorsCount(init);
    }
  }

  /** A controller with no drives contributes nothing, wherever it stands. */
  lemma EmptyControllerAddsNothing(a: seq<seq<Drive>>, b: seq<seq<Drive>>)
    ensures Descriptors(a + [[]] + b) == Descriptors(a + b)
  {
    var none: seq<Drive> := [];
    DescriptorsConcat(a + [none], b);
    DescriptorsSnoc(a, none);
    DescriptorsConcat(a, b);
  }

  /** The `k`-th drive of controller `c` gives the descriptor that follows
      those of all drives of the controllers before `c`. */
  lemma DescriptorPosition(ctls: seq<seq<Drive>>, c: nat, k: nat)
    requires c < |ctls| && k < |ctls[c]|
    ensures TotalDrives(ctls[..c]) + k < |Descriptors(ctls)|
    ensures Descriptors(ctls)[TotalDrives(ctls[..c]) + k] == DriveDescriptor(ctls[c][k])
  {
    assert ctls == ctls[..c] + [ctls[c]] + ctls[c + 1..];
    DescriptorsCount(ctls[..c]);
    DescriptorsConcat(ctls[..c] + [ctls[c]], ctls[c + 1..]);
    DescriptorsSnoc(ctls[..c], ctls[c]);
  }

  /** `SystemUri(ip) + "/Storage"`, the storage collection. */
  function StorageUri(ip: string): string
  {
    SystemUri(ip) + "/Storage"
  }

  /** The drive a drive resource describes; `CapacityBytes` must be a JSON
      integer and `MediaType` a string. */
  function ReadDrive(body: Json): Result<Drive>
  {
    var capacity :- Field(body, "CapacityBytes");
    if !capacity.JInt? then Fail(Malformed)
    else
      var media :- Field(body, "MediaType");
      var mediaText :- AsStr(media);
      Ok(Drive(capacity.i, mediaText))
  }

  /** A drive resource is read exactly when it is a dict with an integer
      `CapacityBytes` and a string `MediaType`; otherwise the script raises. */
  lemma ReadDriveFields(body: Json)
    ensures ReadDrive(body).Ok? <==>
              body.JObj? && "CapacityBytes" in body.fields && "MediaType" in body.fields &&
              body.fields["CapacityBytes"].JInt? && body.fields["MediaType"].JStr?
    ensures ReadDrive(body).Ok? ==>
              ReadDrive(body).value == Drive(body.fields["CapacityBytes"].i, body.fields["MediaType"].s)
    ensures ReadDrive(body).Fail? ==> ReadDrive(body).fault == Malformed
  {
  }

  /** One turn of the inner loop: the drive's reference, its GET, its fields. */
  function DriveAt(p: Platform, ip: string, item: Json): Result<Drive>
  {
    var path :- OdataId(item);
    var body :- MakeRequest(p, HostUri(ip, path));
    ReadDrive(body)
  }

  function DriveStep(p: Platform, ip: string): Json -> Result<Drive>
  {
    item => DriveAt(p, ip, item)
  }

  /** The drive members of a controller: its GET and its `Drives` list (an
      empty list is only reported on the console). */
  function ControllerMembers(p: Platform, ip: string, ref: Json): (r: Result<seq<Json>>)
    ensures r.Ok? <==>
              ref.JStr? && MakeRequest(p, HostUri(ip, ref.s)).Ok? &&
              Field(MakeRequest(p, HostUri(ip, ref.s)).value, "Drives").Ok? &&
              Items(Field(MakeRequest(p, HostUri(ip, ref.s)).value, "Drives").value).Ok?
    ensures r.Ok? ==>
              ref.JStr? && MakeRequest(p, HostUri(ip, ref.s)).Ok? &&
              Field(MakeRequest(p, HostUri(ip, ref.s)).value, "Drives").Ok? &&
              Items(Field(MakeRequest(p, HostUri(ip, ref.s)).value, "Drives").value) == Ok(r.value)
    ensures ref.JStr? && MakeRequest(p, HostUri(ip, ref.s)).Fail? ==>
              r == Fail(MakeRequest(p, HostUri(ip, ref.s)).fault)
    ensures r.Fail? && !(ref.JStr? && MakeRequest(p, HostUri(ip, ref.s)).Fail?) ==> r.fault == Malformed
  {
    var path :- AsStr(ref);
    var body :- MakeRequest(p, HostUri(ip, path));
    var drives :- Field(body, "Drives");
    if drives == JArr([]) then Ok([]) else Items(drives)
  }

  /** One turn of the outer loop: a controller and all its drives. */
  function ControllerDrives(p: Platform, ip: string, ref: Json): Result<seq<Drive>>
  {
    var members :- ControllerMembers(p, ip, ref);
    MapResult(DriveStep(p, ip), members)
  }

  /** A controller whose `Drives` list is empty is not an error: it yields
      no drives, and the collection goes on with the next controller. */
  lemma EmptyControllerHasNoDrives(p: Platform, ip: string, path: string, m: map<string, Json>)
    requires p.fetch(HostUri(ip, path)) == Resp(200, JObj(m))
    requires "Drives" in m && m["Drives"] == JArr([])
    ensures ControllerMembers(p, ip, JStr(path)) == Ok([])
    ensures ControllerDrives(p, ip, JStr(path)) == Ok([])
  {
  }

  function ControllerStep(p: Platform, ip: string): Json -> Result<seq<Drive>>
  {
    ref => ControllerDrives(p, ip, ref)
  }

  /** `get_disk_information(ip)`, as a value. */
  function DiskInformation(p: Platform, ip: string): Result<seq<string>>
  {
    var refs :- MemberRefs(p, StorageUri(ip));
    var ctls :- MapResult(ControllerStep(p, ip), refs);
    Ok(Descriptors(ctls))
  }

  /** When every controller yields its drives, the disk list is their
      descriptors in controller order, one for each drive. */
  lemma DiskInformationOk(p: Platform, ip: string, refs: seq<Json>, ctls: seq<seq<Drive>>)
    requires MemberRefs(p, StorageUri(ip)) == Ok(refs)
    requires |ctls| == |refs|
    requires forall k :: 0 <= k < |refs| ==> ControllerDrives(p, ip, refs[k]) == Ok(ctls[k])
    ensures DiskInformation(p, ip) == Ok(Descriptors(ctls))
  {
    MapResultOk(ControllerStep(p, ip), refs, ctls);
  }

  /** The first controller whose drives cannot be collected decides the
      fault; the controllers after it are never requested. */
  lemma DiskInformationFails(p: Platform, ip: string, refs: seq<Json>, c: nat)
    requires MemberRefs(p, StorageUri(ip)) == Ok(refs)
    requires FailsFirstAt(ControllerStep(p, ip), refs, c)
    ensures DiskInformation(p, ip) == Fail(ControllerDrives(p, ip, refs[c]).fault)
  {
    MapResultFirstFailure(ControllerStep(p, ip), refs, c);
  }

  /** The members of the storage collection and the loop that builds
      `controller_list` from their references. */
  method GetControllerRefs(p: Platform, ip: string) returns (r: Result<seq<Json>>)
    ensures r == MemberRefs(p, StorageUri(ip))
  {
    var data :- MakeRequest(p, StorageUri(ip));
    var members :- Field(data, "Members");
    var items :- Items(members);
    var controllerList: seq<Json> := [];
    for i := 0 to |items|
      invariant |controllerList| == i
      invariant forall k :: 0 <= k < i ==> RawOdataId(items[k]) == Ok(controllerList[k])
    {
      var ref := RawOdataId(items[i]);
      if ref.Fail? {
        MapResultFirstFailure(RawOdataId, items, i);
        return Fail(ref.fault);
      }
      controllerList := controllerList + [ref.value];
    }
    MapResultOk(RawOdataId, items, controllerList);
    r := Ok(controllerList);
  }

  /** The inner loop: appends to `allDrives` the descriptor of each drive of
      one controller, in order, or stops at the first fault. */
  method AppendDriveDescriptors(p: Platform, ip: string, drives: seq<Json>, allDrives: seq<string>)
    returns (r: Result<seq<string>>)
    ensures MapResult(DriveStep(p, ip), drives).Fail? ==>
              r == Fail(MapResult(DriveStep(p, ip), drives).fault)
    ensures MapResult(DriveStep(p, ip), drives).Ok? ==>
              r == Ok(allDrives + DriveDescriptors(MapResult(DriveStep(p, ip), drives).value))
  {
    var acc := allDrives;
    ghost var ds: seq<Drive> := [];
    for j := 0 to |drives|
      invariant |ds| == j
      invariant forall k :: 0 <= k < j ==> DriveStep(p, ip)(drives[k]) == Ok(ds[k])
      invariant acc == allDrives + DriveDescriptors(ds)
    {
      var drive := DriveAt(p, ip, drives[j]);
      if drive.Fail? {
        MapResultFirstFailure(DriveStep(p, ip), drives, j);
        return Fail(drive.fault);
      }
      acc := acc + [DriveDescriptor(drive.value)];
      DriveDescriptorsSnoc(ds, drive.value);
      ds := ds + [drive.value];
    }
    MapResultOk(DriveStep(p, ip), drives, ds);
    r := Ok(acc);
  }

  /** One turn of the outer loop: the controller's GET, then the inner loop
      over its drives. */
  method AppendControllerDrives(p: Platform, ip: string, ref: Json, allDrives: seq<string>)
    returns (r: Result<seq<string>>)
    ensures ControllerDrives(p, ip, ref).Fail? ==>
              r == Fail(ControllerDrives(p, ip, ref).fault)
    ensures ControllerDrives(p, ip, ref).Ok? ==>
              r == Ok(allDrives + DriveDescriptors(ControllerDrives(p, ip, ref).value))
  {
    var drives :- ControllerMembers(p, ip, ref);
    r := AppendDriveDescriptors(p, ip, drives, allDrives);
  }

  /** The outer loop: for each controller in order, appends the descriptors
      of its drives, or stops at the first fault. */
  method AppendAllControllers(p: Platform, ip: string, controllerList: seq<Json>)
    returns (r: Result<seq<string>>)
    ensures MapResult(ControllerStep(p, ip), controllerList).Fail? ==>
              r == Fail(MapResult(ControllerStep(p, ip), controllerList).fault)
    ensures MapResult(ControllerStep(p, ip), controllerList).Ok? ==>
              r == Ok(Descriptors(MapResult(ControllerStep(p, ip), controllerList).value))
  {
    var allDrives: seq<string> := [];
    ghost var ctls: seq<seq<Drive>> := [];
    for c := 0 to |controllerList|
      invariant |ctls| == c
      invariant forall k :: 0 <= k < c ==> ControllerStep(p, ip)(controllerList[k]) == Ok(ctls[k])
      invariant allDrives == Descriptors(ctls)
    {
      var next := AppendControllerDrives(p, ip, controllerList[c], allDrives);
      if next.Fail? {
        MapResultFirstFailure(ControllerStep(p, ip), controllerList, c);
        return Fail(next.fault);
      }
      ghost var ds := ControllerDrives(p, ip, controllerList[c]).value;
      DescriptorsSnoc(ctls, ds);
      allDrives := next.value;
      ctls := ctls + [ds];
    }
    MapResultOk(ControllerStep(p, ip), controllerList, ctls);
    r := Ok(allDrives);
  }

  /** `get_disk_information(ip)`: collects the controller references, then
      for each controller appends the descriptor of each of its drives. */
  method GetDiskInformation(p: Platform, ip: string) returns (r: Result<seq<string>>)
    ensures r == DiskInformation(p, ip)
  {
    var controllerList :- GetControllerRefs(p, ip);
    r := AppendAllControllers(p, ip, controllerList);
  }
}
