# Redfish system inventory, modelled in Dafny

`get_system_inventory.py` collects one CSV line per server of a fixed host
list. For each host it asks the management controller's Redfish API for:

- the storage controllers and their drives;
- the network interfaces and their adapters;
- the system summary with its PCIe devices.

It then joins what it read into one comma-separated record. A connection
failure or a refused request becomes a one-line message instead.

This project models that logic over an abstract fetch function. A
`Redfish.Platform` value holds `fetch`, which maps a URI to a connection
failure or to a status code with a decoded JSON body. It also holds the two
Python computations the model does not reproduce: float division and `str()`
of a list or dict. Given a platform, every collector is a deterministic
function. Each collector that the script writes as a loop is also a method
with that loop, proved equal to the function.

Modules, one file each:

- `Results` (`results.dfy`) holds the faults and results. The script
  signals failure with exceptions. `RedfishError`, for an HTTP status, and
  the connection error are caught by `get_all`. Every other exception (a
  missing key, a value of the wrong type) is not caught, and it ends the
  whole run. `Fault.Malformed` stands for that last kind. `MapResult` is the
  shape of every `for … append` loop that stops at the first exception.
- `Json` (`json.dfy`) holds decoded bodies, plus `d[key]`, `d.get`, and
  iteration over a value.
- `Text` (`text.dfy`) holds Python's `in` on strings, `str.replace`,
  `str.join`, `str.split`, and `str()` of an integer.
- `Redfish` (`redfish.dfy`) holds `_make_request` and the URIs.
- `General` (`general.dfy`) holds `get_general_information`.
- `Storage` (`storage.dfy`) holds `get_disk_information`.
- `Network` (`network.dfy`) holds `get_nic_information`.
- `Inventory` (`inventory.dfy`) holds `get_all` and the `Pool.map` over the
  hosts.
- `Hosts` (`hosts.dfy`) holds the host list built in `__main__`.

Two facts about the script that the model keeps:

- Each fallback reads two fields: `Manufacturer` then `Id`, `Name` then
  `Description`, `Model` then `Id`. When both keys are missing, the value
  is `None`.
- The host list has no duplicate address. The appended storage node
  `10.0.23.11` is not among `10.0.23.101`..`116`, and
  `Hosts.AllNodesDistinct` proves that all 238 addresses differ.

## Model

| member | source | states |
|---|---|---|
| Redfish.MakeRequest | get_system_inventory.py:16-30 | The body is returned exactly for status 200 or 202. A connection failure gives `Unreachable`. Any other status gives a `RedfishError` fault naming the URI. |
| Redfish.MakeRequestMessage | get_system_inventory.py:21-28 | A refused request's message is "Incorrect username/password. Given URI: " for 401, "URI not found. Given URI: " for 404, and "Host may not support Redfish API. Given URI: " for any other status, each followed by the URI. |
| Redfish.MemberRefs | get_system_inventory.py:75-81 | A collection's GET, then `item["@odata.id"]` of each of its `Members`. It succeeds exactly when the GET succeeds, the body has an iterable `Members`, and every member holds `@odata.id`. A failed GET's fault is the result's, and any later fault is an uncaught exception. On success there is one reference per member, in member order. `get_nic_information` reads its members the same way, at lines 99-101. |
| Redfish.Str | get_system_inventory.py:131-133 | `str()` covers every JSON value. A string is unchanged. An integer gives its canonical decimal digits, with no leading zero and with a leading `-` when negative, and they read back to the integer. A boolean gives "True" or "False", and a float gives its own text. `None` gives "None", and a list or dict gives its repr. |
| Results.MapResultOk | get_system_inventory.py:103-112 | An append loop finishes exactly when every step succeeds. Its list then holds one value per element, in element order. |
| Results.MapResultFirstFailure | get_system_inventory.py:105-112 | The first step that raises decides the fault. Later elements are never visited. |
| Results.MapResultFailureHasFirst | get_system_inventory.py:105-112 | A loop that raised has a first raising step, and the fault is that step's. |
| Results.MapResultFailsAt | get_system_inventory.py:105-112 | One raising step makes the whole loop raise. |
| Text.ContainsIffOccurs | get_system_inventory.py:56 | `sub in s` holds exactly when `sub` occurs at some index of `s`. |
| Text.ReplaceAllAbsent | get_system_inventory.py:106 | `replace` leaves a string without the pattern unchanged. |
| Text.ReplaceAllLeavesNoOccurrence | get_system_inventory.py:106 | After `replace`, no occurrence of the pattern is left, when the replacement cannot create one. |
| Text.SplitJoin | get_system_inventory.py:128-137 | Splitting a `","`-join at the commas gives back the parts, when no part holds a comma. |
| Text.CommaInFieldSplitsIt | get_system_inventory.py:128-137 | The join does not escape commas: a field `"a,b"` reads back as two fields. |
| Text.DecimalRoundTrip | get_system_inventory.py:152 | `str(n)` of a non-negative integer is digits only, and reading it back gives `n`. |
| Text.DecimalInjective | get_system_inventory.py:152 | Different numbers have different `str()` texts. |
| Text.DecimalNoLeadingZero | get_system_inventory.py:152 | `str(n)` of a positive number does not start with `0`. |
| General.ContainsAnyIff | get_system_inventory.py:56 | `any(word in name for word in words)` holds exactly when some word of the list occurs in the name. |
| General.RelevantIff | get_system_inventory.py:36-56 | A device is left out of the PCIe list exactly when one of "Xeon", "C610/X99", "C600/X79", "G200eR2" or "PCI Bridge" occurs in its name. The manufacturer plays no part. |
| General.Selected | get_system_inventory.py:50-60 | The list built by the loop holds at most one entry per device. |
| General.SelectedMembers | get_system_inventory.py:50-60 | Every entry of the list is the "manufacturer name" of an accepted device, and every accepted device's "manufacturer name" is in it. |
| General.SelectedConcat | get_system_inventory.py:50-60 | The selection keeps device order and treats each device on its own: selecting from `a + b` gives the selection from `a` followed by the selection from `b`. |
| General.SelectedSnoc | get_system_inventory.py:56-60 | One more device appends its descriptor exactly when the test accepts it. |
| General.XeonIsDropped | get_system_inventory.py:56-57 | An "Intel Xeon Processor" entry is not in the PCIe list. |
| General.SolarflareCard | get_system_inventory.py:56-59 | A Solarflare SFN8522 card passes the denylist and is a notable NIC. |
| General.KeptByBoth | get_system_inventory.py:56-60 | A device that passes both tests is listed in both lists. |
| General.SolarflareIsInBothLists | get_system_inventory.py:56-60 | The two tests are independent: "Solarflare SFN8522" is in the PCIe list and among the other NICs. |
| General.ReadDevice | get_system_inventory.py:53-54 | A device is read exactly when the body is a dict and both chosen values are strings. The manufacturer is `Manufacturer` when that key is present and `Id` only when it is missing. The name is likewise `Name`, else `Description`. Any other body raises. |
| General.SolarflareResourceIsRead | get_system_inventory.py:50-60 | A PCIe member whose resource is `{"Manufacturer": "Solarflare", "Name": "SFN8522"}` is read as that device, and it is listed in both the PCIe list and the other NICs. |
| General.ReadSystem | get_system_inventory.py:38-46 | The system GET comes first, and its fault is the function's. After it, any fault is an uncaught exception. The read succeeds exactly when all of these hold: the GET succeeds; the body is a dict with `Model`, `MemorySummary.TotalSystemMemoryGiB`, `ProcessorSummary.LogicalProcessorCount`, `Count` and `Model`; the division gives a value; and `PCIeDevices` is iterable. The read values are those fields, and the cores are `LogicalProcessorCount / Count`. |
| General.VisitDevices | get_system_inventory.py:50-60 | The PCIe loop gives the relevant devices' descriptors and the notable devices' descriptors, each in device order. It stops at the first member that raises, and that member's fault is the result. |
| General.GetGeneralInformation | get_system_inventory.py:33-70 | The loop gives the "+"-joined PCIe list and the other NICs, both in device order, or the first fault in the order the script raises it. |
| Storage.GibibytesNearest | get_system_inventory.py:92 | `round(bytes / 2**30)` is the integer nearest the quotient. Of two equally near, it is the even one. |
| Storage.GibibytesUnique | get_system_inventory.py:92 | Those two properties single out the rounded count. |
| Storage.OneGibibyteSsd | get_system_inventory.py:92 | 2^30 bytes of "SSD" gives "1 SSD", and 3·2^30 bytes gives "3 SSD". |
| Storage.HalfGibibyteTies | get_system_inventory.py:92 | 2.5 GiB rounds to 2, and 3.5 GiB rounds to 4. |
| Storage.ReadDriveFields | get_system_inventory.py:91-92 | A drive is read exactly when its resource holds an integer `CapacityBytes` and a string `MediaType`. |
| Storage.DriveDescriptorsSnoc | get_system_inventory.py:89-93 | One more drive appends its descriptor at the end. |
| Storage.DescriptorsConcat | get_system_inventory.py:83-93 | The descriptors of two runs of controllers are those of the first run followed by those of the second. |
| Storage.DescriptorsSnoc | get_system_inventory.py:83-93 | One more controller appends its drives' descriptors at the end. |
| Storage.DescriptorsCount | get_system_inventory.py:83-93 | There is one descriptor per drive over all controllers. |
| Storage.ControllerMembers | get_system_inventory.py:84-89 | A controller is read exactly when its reference is a string, its GET succeeds, and its `Drives` field is present and iterable (a list, or an empty dict or string). Its drive members are then that field's elements, and the empty-list branch gives the same result. A failed GET's fault is the result's. Any other failure is an uncaught exception: a reference that is not a string, a missing `Drives`, or a `Drives` that cannot be iterated. |
| Storage.EmptyControllerHasNoDrives | get_system_inventory.py:84-87 | A controller whose resource has an empty `Drives` list is not an error: it yields no drives. |
| Storage.EmptyControllerAddsNothing | get_system_inventory.py:86-87 | A controller with an empty `Drives` list adds nothing, wherever it stands. |
| Storage.DescriptorPosition | get_system_inventory.py:83-93 | Drive `k` of controller `c` is described right after all drives of the controllers before `c`: controller order, then drive order. |
| Storage.DiskInformationOk | get_system_inventory.py:73-95 | When every controller yields its drives, the disk list is their descriptors in controller order. |
| Storage.DiskInformationFails | get_system_inventory.py:83-93 | The first controller that raises decides the fault. |
| Storage.GetControllerRefs | get_system_inventory.py:75-81 | The loop that builds `controller_list` gives the members' references in order, or the first fault. |
| Storage.AppendDriveDescriptors | get_system_inventory.py:89-93 | The inner loop appends one descriptor per drive in drive order, or stops at the first fault. |
| Storage.AppendControllerDrives | get_system_inventory.py:84-93 | One controller's GET, then its drives' descriptors appended, or the fault. |
| Storage.AppendAllControllers | get_system_inventory.py:83-93 | The outer loop appends every controller's drive descriptors in controller order, or stops at the first controller that raises, with its fault. |
| Storage.GetDiskInformation | get_system_inventory.py:73-95 | The nested loops give the function `DiskInformation`: all descriptors in controller order, then drive order, or the first fault. |
| Network.AdapterPathHasNoInterfaces | get_system_inventory.py:106 | No "Interfaces" is left in a rewritten member path. |
| Network.AdapterPathUnchanged | get_system_inventory.py:106 | A path without "Interfaces" is requested as it is. |
| Network.ReplaceAllCopiesHead | get_system_inventory.py:106 | `replace` copies a head that cannot start the pattern. |
| Network.InterfaceMemberBecomesAdapter | get_system_inventory.py:106-107 | The member `…NetworkInterfaces/<id>` is fetched from `…NetworkAdapters/<id>`. |
| Network.AdapterModel | get_system_inventory.py:110 | The model is `Model` when present, else `Id` when present, else `None`. A body that is not a dict raises an uncaught exception (`AttributeError` from `.get`). |
| Network.NicInformationOk | get_system_inventory.py:97-114 | The NIC list holds exactly one model per interface member, in member order, exactly when every adapter request succeeds. |
| Network.NicInformationFails | get_system_inventory.py:105-112 | The first adapter request that fails decides the fault. |
| Network.GetNicInformation | get_system_inventory.py:97-114 | The loop gives the function `NicInformation`: all member references first, then one model per member. |
| Inventory.FaultOutcome | get_system_inventory.py:138-141 | A connection error gives "Could not reach host <ip>". A `RedfishError` gives its message. Only an uncaught exception ends the run. |
| Inventory.Record | get_system_inventory.py:128-137 | The `","` join succeeds exactly when the system model, the CPU model and every NIC model are strings. Otherwise it raises an uncaught `TypeError`. |
| Inventory.HostOutcome | get_system_inventory.py:116-143 | `get_all` raises exactly when the collection met an exception it does not catch. |
| Inventory.GetAll | get_system_inventory.py:116-143 | Storage, then NICs, then general information, then the join, each stopping at its fault. This equals `HostOutcome`. |
| Inventory.StorageFaultFirst | get_system_inventory.py:121-127 | A storage fault decides the outcome, whatever the other resources hold. |
| Inventory.NicFaultSecond | get_system_inventory.py:125-127 | With the disks read, a NIC fault decides the outcome. |
| Inventory.GeneralFaultThird | get_system_inventory.py:127 | With disks and NICs read, a general-information fault decides the outcome. |
| Inventory.UnreachableHost | get_system_inventory.py:138-139 | A host that does not answer gives exactly "Could not reach host <ip>". |
| Inventory.RejectedCredentials | get_system_inventory.py:116-141 | A 401 on the first request gives the authentication message naming the storage URI. |
| Inventory.RecordReadsBack | get_system_inventory.py:123-137 | A successful record splits back into its fields when none holds a comma. The fields are the address, model, CPU, cores, threads, memory, the " + "-joined disks, the PCIe list, one field per NIC model and one per other NIC. That is 8 + NICs + other NICs fields, with the address first. |
| Inventory.NonStringModelCrashes | get_system_inventory.py:128-137 | A NIC model that is not a string makes the join raise, which ends the run. |
| Inventory.Sweep | get_system_inventory.py:162-163 | `Pool.map` gives one line per host in host order, exactly when no host raises. |
| Hosts.DottedInjective | get_system_inventory.py:152-155 | Different addresses have different dotted texts. |
| Hosts.HostQuadInjective | get_system_inventory.py:149-157 | Different positions of the list hold different addresses. |
| Hosts.AllNodesDistinct | get_system_inventory.py:149-157 | The list has 238 addresses and no two are alike. |
| Hosts.AllNodesLandmarks | get_system_inventory.py:149-157 | The list starts at "10.0.3.1" and the Kaizen part ends at "10.0.19.41" (position 204). "10.0.23.101" is at position 205 and "10.1.10.1" at 221. The storage node "10.0.23.11" comes last. |
| Hosts.KaizenNode | get_system_inventory.py:150-152 | Unit `u` of the `r`-th rack is "10.0.<rack>.<u>", at position 41·r + u − 1. |
| Hosts.KumoNodes | get_system_inventory.py:154-155 | The two comprehensions and the appended storage node are positions 205 to 237. |
| Hosts.BuildHosts | get_system_inventory.py:149-157 | The nested loops, comprehensions and appends build exactly `AllNodes`. |

## Left out

- HTTP, TLS and authentication are the `fetch` parameter: `requests.get`, `verify=False`, the basic-auth credentials and JSON decoding. A `requests` exception other than a connection error is not modelled. A 200 or 202 body that is not JSON cannot be expressed either, because `Response` always carries a decoded body. In Python, `response.json()` would then raise an exception that ends the run.
- The credentials' environment variables are not modelled. The model has no configuration.
- `print` diagnostics are not modelled, because they are output only. This covers the empty-controller notice, "Getting all info", and the host count.
- The append-mode write of `inventory.csv` is not modelled, because it is file output. `Inventory.Sweep` gives the lines that would be written.
- The process pool has no counterpart. `Inventory.Sweep` is the order-preserving sequential map that `Pool.map` computes, and the pool size does not change the result.
- `total_threads / Count` is float division, and its `str()` text is float formatting. Both are the platform's `divide` function, which reports `None` when the division raises. The platform decides which divisions raise. The model does not require `divide(_, JInt(0))` to be `None`, so the `ZeroDivisionError` of a zero `Count` is the platform's to state.
- `str()` of a JSON list or dict (Python's repr) is the platform's `repr` function. A JSON float keeps only its `str()` text.
- Storage.ReadDriveFields: `CapacityBytes` must be a JSON integer. A float or boolean capacity counts as an uncaught exception in the model, but Python would divide it (`True / 2**30` is valid).
- Storage.Gibibytes: the rounding is exact half-to-even. That equals Python's float `round(n / 2**30)` for capacities below 2^53.
- General.ReadDevice: a manufacturer or name that is not a string counts as an uncaught exception, which ends the run. Python can go on in cases the model stops. A list name the denylist does not reject raises only when it is joined. A denied list name with a manufacturer that does not match is never joined: for example, name `["Xeon"]` with manufacturer `"Intel"`. Python then raises nothing and skips the device.
- Text.ReplaceAll: Python's special case of an empty pattern is not modelled, because the script replaces a fixed non-empty word.
- Json.Items: iterating over a non-empty dict or string yields keys or characters. Those fail at the next `["@odata.id"]` lookup, so the model reports the failure directly.
