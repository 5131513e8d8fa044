/** The request layer: what one HTTPS GET against a management controller
    can give, and the status classification of `_make_request`. */
module Redfish {
  import opened Text
  import opened Results
  import opened Json

  /** What the HTTP client gives for one GET: a connection failure, or a
      status code with the decoded JSON body. */
  datatype Response = ConnErr | Resp(status: int, body: Json)

  /** Everything the collection reads from outside the script, as values:
      `fetch` is the HTTP GET (with the fixed credentials), `divide(a, b)` is
      Python's `str(a / b)` (float division; `None` when it raises), and
      `repr(v)` is Python's `str()` of a JSON list or dict. */
  datatype Platform = Platform(
    fetch: string -> Response,
    divide: (Json, Json) -> Option<string>,
    repr: Json -> string)

  /** `REDFISH_URI.format(ip)`: the system resource of the host. */
  function SystemUri(ip: string): string
  {
    "https://" + ip + "/redfish/v1/Systems/System.Embedded.1"
  }

  /** The URI of a resource the host referred to by `path` (an `@odata.id`). */
  function HostUri(ip: string, path: string): string
  {
    "https://" + ip + path
  }

  /** The faults `_make_request` raises as `RedfishError`. */
  predicate IsStatusFault(f: Fault)
  {
    f.AuthFailed? || f.NotFound? || f.Unsupported?
  }

  /** The text of a `RedfishError`, which `get_all` returns as the host's line. */
  function Message(f: Fault): string
    requires IsStatusFault(f)
  {
    match f
    case AuthFailed(uri) => "Incorrect username/password. Given URI: " + uri
    case NotFound(uri) => "URI not found. Given URI: " + uri
    case Unsupported(uri) => "Host may not support Redfish API. Given URI: " + uri
  }

  /** `_make_request(uri)`: the body for status 200 or 202; otherwise the
      fault for 401, for 404, or for any other status, each naming `uri`. */
  function MakeRequest(p: Platform, uri: string): (r: Result<Json>)
    ensures r.Ok? <==> p.fetch(uri).Resp? && p.fetch(uri).status in {200, 202}
    ensures r.Ok? ==> r.value == p.fetch(uri).body
    ensures r == Fail(Unreachable) <==> p.fetch(uri).ConnErr?
    ensures r.Fail? && p.fetch(uri).Resp? ==> IsStatusFault(r.fault)
  {
    match p.fetch(uri)
    case ConnErr => Fail(Unreachable)
    case Resp(status, body) =>
      if status == 401 then Fail(AuthFailed(uri))
      else if status == 404 then Fail(NotFound(uri))
      else if status !in {200, 202} then Fail(Unsupported(uri))
      else Ok(body)
  }

  /** A refused request names the URI, with the text for its status. */
  lemma MakeRequestMessage(p: Platform, uri: string)
    requires MakeRequest(p, uri).Fail? && p.fetch(uri).Resp?
    ensures IsStatusFault(MakeRequest(p, uri).fault)
    ensures Message(MakeRequest(p, uri).fault) ==
              (if p.fetch(uri).status == 401 then "Incorrect username/password. Given URI: " + uri
               else if p.fetch(uri).status == 404 then "URI not found. Given URI: " + uri
               else "Host may not support Redfish API. Given URI: " + uri)
  {
  }

  /** The references of the members of the collection at `uri`: its GET,
      then `item["@odata.id"]` for each item of its `Members`, in order. */
  function MemberRefs(p: Platform, uri: string): (r: Result<seq<Json>>)
    ensures MakeRequest(p, uri).Fail? ==> r == Fail(MakeRequest(p, uri).fault)
    ensures MakeRequest(p, uri).Ok? && r.Fail? ==> r.fault == Malformed
    ensures r.Ok? <==>
              MakeRequest(p, uri).Ok? &&
              var members := Field(MakeRequest(p, uri).value, "Members");
              members.Ok? && Items(members.value).Ok? &&
              forall k :: 0 <= k < |Items(members.value).value| ==> RawOdataId(Items(members.value).value[k]).Ok?
    ensures r.Ok? ==>
              var members := Field(MakeRequest(p, uri).value, "Members");
              members.Ok? && Items(members.value).Ok? &&
              |r.value| == |Items(members.value).value| &&
              forall k :: 0 <= k < |r.value| ==> RawOdataId(Items(members.value).value[k]) == Ok(r.value[k])
  {
    var data :- MakeRequest(p, uri);
    var members :- Field(data, "Members");
    var items :- Items(members);
    var refs := MapResult(RawOdataId, items);
    if refs.Fail? then
      MapResultFailureHasFirst(RawOdataId, items);
      refs
    else
      MapResultOk(RawOdataId, items, refs.value);
      refs
  }

  /** Python's `str(v)`. */
  function Str(p: Platform, v: Json): (r: string)
    ensures v.JStr? ==> r == v.s
    ensures v.JInt? && v.i >= 0 ==>
              AllDigits(r) && |r| >= 1 && DecimalValue(r) == v.i && (r[0] != '0' || v.i == 0)
    ensures v.JInt? && v.i < 0 ==>
              |r| >= 2 && r[0] == '-' && AllDigits(r[1..]) && DecimalValue(r[1..]) == -v.i && r[1] != '0'
    ensures v.JNull? ==> r == "None"
    ensures v.JBool? ==> r == if v.b then "True" else "False"
    ensures v.JFloat? ==> r == v.text
    ensures v.JArr? || v.JObj? ==> r == p.repr(v)
  {
    match v
    case JNull => "None"
    case JBool(b) => if b then "True" else "False"
    case JInt(i) =>
      if i < 0 then
        DecimalRoundTrip(-i);
        DecimalNoLeadingZero(-i);
        assert ("-" + Decimal(-i))[1..] == Decimal(-i);
        IntToString(i)
      else
        DecimalRoundTrip(i);
        DecimalNoLeadingZero(i);
        IntToString(i)
    case JFloat(text) => text
    case JStr(s) => s
    case _ => p.repr(v)
  }
}
