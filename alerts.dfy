/** The Discord alert callbacks: each validates the required keys of the
    detection message, builds one embed from the message and the container
    found for it, and posts it through the webhook client. Two of them keep
    the client in a module global created on first use. The embed's
    avatar, icon and `datetime.now()` timestamp are left out; the database
    lookup, the time parsing and the post's failure are arguments. */
module Alerts {
  import opened Values
  import Loader

  /** The container row found for a message (`container_data`). */
  datatype ContainerData = ContainerData(name: string, image: Value, hostName: Value)

  /** An embed field; `value` and `inline` are None where the literal omits them. */
  datatype Field = Field(name: string, value: Option<Value>, inline: Option<bool>)

  datatype Embed = Embed(title: string, description: string, fields: seq<Field>, color: int, footer: string)

  /** One `client.post` call: the webhook URL, the user name and the embed. */
  datatype Post = Post(url: string, username: string, embed: Embed)

  const MissingFields := "Missing required fields in data"
  const NoneSubscript := "'NoneType' object is not subscriptable"
  const Red := 0xFF0000
  const Green := 0x00FF00

  // The embeds' fixed texts.
  const ContainerNameField := "\U{1F3E0} Container Name"
  const ContainerIdField := "\U{1F4E6} Container ID"
  const PidField := "\U{1F6A8} PID"
  const CalledAtField := "\U{23F0} Called At"
  const DetectedAtField := "\U{23F0} Detected At"
  const DetectionInfoField := "\U{1F4DC} Detection Info"
  const DetectionTitle := "Suspicious Process Detection"
  const DetectionDescription := "컨테이너에서 이상 로그가 감지되었습니다. Process Monitoring Security Alert System에서 알립니다."
  const DetectionFooter := "Process Monitoring Security Alert System"
  const SvmTitle := "SVM Detection Alert"
  const SvmDescription := "컨테이너에서 이상 로그가 감지되었습니다. SVM Detection Alert System에서 알립니다."
  const SvmFooter := "SVM Detection Alert System"
  const TimeStampField := "\U{23F0} TimeStamp"
  const TotalLogsField := "\U{1F50D} Total logs analyzedrce"
  const AnomaliesField := "\U{1F6A8} Anomalies detected"
  const LsmTitle := "LSM Block Alert"
  const LsmFooter := "LSM Security Alert System"
  const EventIdField := "\U{1F6A8} Event ID"
  const CommandField := "\U{26A1} Command"
  const PathField := "\U{1F4C1} Path"
  const SourceField := "\U{1F50D} Source"
  const ContainerInfoField := "\U{1F4E6} Container Information"
  const ProcessInfoField := "\U{1F464} Process Information"
  const TimestampField := "\U{23F0} Timestamp"

  /** `all(key in data for key in keys)`: a value that is not a container
      raises on the first test. */
  function AllPresent(keys: seq<string>, data: Value): (r: Outcome<bool>)
    ensures data.VDict? ==> r == Done(HasKeys(data.entries, keys))
    ensures keys != [] && (data.VNone? || data.VBool? || data.VInt?) ==> r.Raised? && r.exc.TypeError?
  {
    if keys == [] then Done(true)
    else
      match data
      case VDict(entries) => Done(HasKeys(entries, keys))
      case VList(items) => Done(forall i :: 0 <= i < |keys| ==> VStr(keys[i]) in items)
      case VStr(s) => Done(forall i :: 0 <= i < |keys| ==> Contains(s, keys[i]))
      case _ => Raised(TypeError("argument of type '" + TypeName(data) + "' is not iterable"))
  }

  /** The required-key check of `send_alert`. */
  function Validate(keys: seq<string>, data: Value): (r: Outcome<()>)
    ensures data.VDict? ==> (r.Done? <==> HasKeys(data.entries, keys))
    ensures data.VDict? && r.Raised? ==> r.exc == ValueError(MissingFields)
  {
    var present :- AllPresent(keys, data);
    if present then Done(()) else Raised(ValueError(MissingFields))
  }

  /** `v[key]` with Python's error for each kind of value. */
  function Subscript(v: Value, key: string): (r: Outcome<Value>)
    ensures r.Done? <==> v.VDict? && key in v.entries
    ensures r.Done? ==> r.value == v.entries[key]
    ensures v.VDict? && key !in v.entries ==> r == Raised(KeyError(key))
  {
    match v
    case VDict(entries) => if key in entries then Done(entries[key]) else Raised(KeyError(key))
    case VList(_) => Raised(TypeError("list indices must be integers or slices, not str"))
    case VStr(_) => Raised(TypeError("string indices must be integers, not 'str'"))
    case _ => Raised(TypeError("'" + TypeName(v) + "' object is not subscriptable"))
  }

  /** A text field. */
  function Text(name: string, s: string, inline: Option<bool>): Field
  {
    Field(name, Some(VStr(s)), inline)
  }

  // ------------------------------------------------- detection-result alert

  const DetectionKeys := ["container_name", "pid", "timestamp", "detection_time", "detection_info"]

  /** The six fixed fields of the detection alert. */
  function DetectionHead(data: map<string, Value>, c: ContainerData, show: Value -> string): (r: seq<Field>)
    requires HasKeys(data, DetectionKeys)
    ensures |r| == 6
    ensures r[1].value == Some(data["container_name"]) && r[2].value == Some(data["pid"])
    ensures r[3].value == Some(data["timestamp"]) && r[4].value == Some(data["detection_time"])
    ensures r[1].inline == r[2].inline == Some(true) && r[0].inline == Some(false)
  {
    [ Text(ContainerNameField, "[" + Str(c.hostName, show) + "] " + c.name, Some(false)),
      Field(ContainerIdField, Some(data["container_name"]), Some(true)),
      Field(PidField, Some(data["pid"]), Some(true)),
      Field(CalledAtField, Some(data["timestamp"]), None),
      Field(DetectedAtField, Some(data["detection_time"]), None),
      Text(DetectionInfoField, seq(20, _ => '-'), None) ]
  }

  /** One inline field per `detection_info` item, in order, its value as `str`. */
  function InfoFields(info: map<string, Value>, keys: seq<string>, show: Value -> string): (r: seq<Field>)
    requires forall i :: 0 <= i < |keys| ==> keys[i] in info
    ensures |r| == |keys|
    ensures forall i :: 0 <= i < |keys| ==> r[i] == Text(keys[i], Str(info[keys[i]], show), Some(true))
  {
    if keys == [] then []
    else
      var last := keys[|keys| - 1];
      InfoFields(info, keys[..|keys| - 1], show) + [Text(last, Str(info[last], show), Some(true))]
  }

  /** The detection embed's fields: the six fixed ones, the first reading
      "[host] name" and the second the message's container id, then one
      inline field per `detection_info` item in the dict's order, with the
      item's value as `str`. */
  function DetectionFields(data: map<string, Value>, c: ContainerData, info: map<string, Value>,
                           infoOrder: seq<string>, show: Value -> string): (r: seq<Field>)
    requires HasKeys(data, DetectionKeys)
    requires forall i :: 0 <= i < |infoOrder| ==> infoOrder[i] in info
    ensures |r| == 6 + |infoOrder|
    ensures r[0] == Text(ContainerNameField, "[" + Str(c.hostName, show) + "] " + c.name, Some(false))
    ensures r[1] == Field(ContainerIdField, Some(data["container_name"]), Some(true))
    ensures r[2] == Field(PidField, Some(data["pid"]), Some(true))
    ensures r[3] == Field(CalledAtField, Some(data["timestamp"]), None)
    ensures r[4] == Field(DetectedAtField, Some(data["detection_time"]), None)
    ensures r[5].name == DetectionInfoField && r[5].inline == None && r[5].value == Some(VStr(seq(20, _ => '-')))
    ensures forall i :: 0 <= i < |infoOrder| ==> r[6 + i] == Text(infoOrder[i], Str(info[infoOrder[i]], show), Some(true))
  {
    DetectionHead(data, c, show) + InfoFields(info, infoOrder, show)
  }

  /** `infoOrder` is the iteration order of the message's `detection_info`
      dict, when there is one. */
  predicate InfoOrdered(data: Value, infoOrder: seq<string>)
  {
    data.VDict? && "detection_info" in data.entries && data.entries["detection_info"].VDict? ==>
      IsEnumeration(infoOrder, data.entries["detection_info"].entries)
  }

  /** The detection alert's post around its fields. */
  function DetectionPost(url: string, fields: seq<Field>): (p: Post)
    ensures p.url == url && p.embed.fields == fields && p.embed.color == Red
  {
    Post(url, "Alert", Embed(
      DetectionTitle,
      DetectionDescription,
      fields, Red, DetectionFooter))
  }

  /** `send_alert` of the detection-result callback. It posts only for a
      dict carrying every required key, with a container found and a
      `detection_info` dict; the fields are the six fixed ones, the first
      reading "[host] name", then one per `detection_info` item in order. */
  function DetectionAlert(url: string, data: Value, container: Option<ContainerData>, infoOrder: seq<string>,
                          show: Value -> string, postError: Option<Exc>): (r: Outcome<Post>)
    requires InfoOrdered(data, infoOrder)
    ensures r.Done? <==>
      && data.VDict? && HasKeys(data.entries, DetectionKeys) && container.Some?
      && data.entries["detection_info"].VDict? && postError.None?
    ensures data.VDict? && !HasKeys(data.entries, DetectionKeys) ==> r == Raised(ValueError(MissingFields))
    ensures data.VDict? && HasKeys(data.entries, DetectionKeys) && container.None? ==> r == Raised(TypeError(NoneSubscript))
    ensures r.Done? ==>
      && r.value.url == url && r.value.embed.color == Red
      && var info := data.entries["detection_info"].entries;
      && |infoOrder| == |info|
      && r.value.embed.fields == DetectionFields(data.entries, container.value, info, infoOrder, show)
  {
    var _ :- Validate(DetectionKeys, data);
    if container.None? then Raised(TypeError(NoneSubscript))
    else if !data.VDict? then Raised(Subscript(data, "container_name").exc)
    else
      var info := data.entries["detection_info"];
      if !info.VDict? then Raised(AttributeError("'" + TypeName(info) + "' object has no attribute 'items'"))
      else if postError.Some? then Raised(postError.value)
      else
        EnumerationSize(infoOrder, info.entries);
        Done(DetectionPost(url, DetectionFields(data.entries, container.value, info.entries, infoOrder, show)))
  }

  /** `send_alert` with its loop appending one field per item. */
  method SendDetectionAlert(url: string, data: Value, container: Option<ContainerData>, infoOrder: seq<string>,
                            show: Value -> string, postError: Option<Exc>) returns (r: Outcome<Post>)
    requires InfoOrdered(data, infoOrder)
    ensures r == DetectionAlert(url, data, container, infoOrder, show, postError)
  {
    var valid := Validate(DetectionKeys, data);
    if valid.Raised? {
      return Raised(valid.exc);
    }
    if container.None? {
      return Raised(TypeError(NoneSubscript));
    }
    if !data.VDict? {
      var id := Subscript(data, "container_name");
      return Raised(id.exc);
    }
    var info := data.entries["detection_info"];
    if !info.VDict? {
      return Raised(AttributeError("'" + TypeName(info) + "' object has no attribute 'items'"));
    }
    var fields := AppendInfoFields(DetectionHead(data.entries, container.value, show), info.entries, infoOrder, show);
    if postError.Some? {
      return Raised(postError.value);
    }
    r := Done(DetectionPost(url, fields));
  }

  /** The `for key, value in data['detection_info'].items()` loop. */
  method AppendInfoFields(head: seq<Field>, info: map<string, Value>, infoOrder: seq<string>, show: Value -> string)
    returns (fields: seq<Field>)
    requires forall i :: 0 <= i < |infoOrder| ==> infoOrder[i] in info
    ensures fields == head + InfoFields(info, infoOrder, show)
  {
    fields := head;
    var i := 0;
    while i < |infoOrder|
      invariant 0 <= i <= |infoOrder|
      invariant fields == head + InfoFields(info, infoOrder[..i], show)
    {
      assert infoOrder[..i + 1][..i] == infoOrder[..i];
      fields := fields + [Text(infoOrder[i], Str(info[infoOrder[i]], show), Some(true))];
      i := i + 1;
    }
    assert infoOrder[..i] == infoOrder;
  }

  // ---------------------------------------------------- SVM detection alert

  const SvmKeys := ["timestamp", "container_name", "anomalies_detected", "total_logs_analyzed"]

  /** `send_alert` of the SVM callback: five fields in fixed order, the
      first reading "host-name", the others the message's values as `str`. */
  function SvmAlert(url: string, data: Value, container: Option<ContainerData>, show: Value -> string,
                    postError: Option<Exc>): (r: Outcome<Post>)
    ensures r.Done? <==> data.VDict? && HasKeys(data.entries, SvmKeys) && container.Some? && postError.None?
    ensures data.VDict? && !HasKeys(data.entries, SvmKeys) ==> r == Raised(ValueError(MissingFields))
    ensures data.VDict? && HasKeys(data.entries, SvmKeys) && container.None? ==> r == Raised(TypeError(NoneSubscript))
    ensures r.Done? ==>
      && r.value.url == url && r.value.username == "SVM Alert"
      && r.value.embed.fields == [
           Text(ContainerNameField, Str(container.value.hostName, show) + "-" + container.value.name, Some(false)),
           Text(ContainerIdField, Str(data.entries["container_name"], show), Some(false)),
           Text(TimeStampField, Str(data.entries["timestamp"], show), Some(true)),
           Text(TotalLogsField, Str(data.entries["total_logs_analyzed"], show), Some(true)),
           Text(AnomaliesField, Str(data.entries["anomalies_detected"], show), Some(true))]
  {
    var _ :- Validate(SvmKeys, data);
    if container.None? then Raised(TypeError(NoneSubscript))
    else if !data.VDict? then Raised(Subscript(data, "container_name").exc)
    else
      var c := container.value;
      var id := data.entries["container_name"];
      var at := data.entries["timestamp"];
      var total := data.entries["total_logs_analyzed"];
      var anomalies := data.entries["anomalies_detected"];
      if postError.Some? then Raised(postError.value)
      else
        Done(Post(url, "SVM Alert", Embed(
          SvmTitle,
          SvmDescription,
          [ Text(ContainerNameField, Str(c.hostName, show) + "-" + c.name, Some(false)),
            Text(ContainerIdField, Str(id, show), Some(false)),
            Text(TimeStampField, Str(at, show), Some(true)),
            Text(TotalLogsField, Str(total, show), Some(true)),
            Text(AnomaliesField, Str(anomalies, show), Some(true)) ],
          Red, SvmFooter)))
  }

  // -------------------------------------------------------------- LSM alert

  const LsmKeys := ["data", "command", "process", "event_id", "cgroup_id", "container_id"]

  /** The module's `ALERT_DISABLE = True`. */
  const LsmDisable := VBool(true)

  /** Whether the kernel blocked the access: `return_value == -1`. */
  predicate Blocked(returnValue: Value)
  {
    returnValue == VInt(-1)
  }

  function LsmDescription(blocked: bool): string
  {
    "컨테이너에서 " + (if blocked then "의심스런" else "아래") + " 접근이 " + (if blocked then "차단" else "허용") + " 되었습니다."
  }

  /** The text of the process field; without a container both name and
      image read "None". */
  function ProcessInfo(container: Option<ContainerData>, mnt: Value, pid: Value, cgroup: Value,
                       show: Value -> string): (s: string)
    ensures var name := if container.Some? then container.value.name else "None";
      var image := if container.Some? then Str(container.value.image, show) else "None";
      s == "NAME: " + name + ", Image: " + image
           + "\nMNT_NS: " + Str(mnt, show) + "\nPID_NS: " + Str(pid, show) + "\nCGROUP_ID: " + Str(cgroup, show)
  {
    var name := if container.Some? then container.value.name else "None";
    var image := if container.Some? then Str(container.value.image, show) else "None";
    "NAME: " + name + ", Image: " + image
      + "\nMNT_NS: " + Str(mnt, show) + "\nPID_NS: " + Str(pid, show) + "\nCGROUP_ID: " + Str(cgroup, show)
  }

  /** The process text opens with the container's name (or "None"), then
      its image, so a reader of the alert sees which container ran it. */
  lemma ProcessInfoNamesContainer(container: Option<ContainerData>, mnt: Value, pid: Value, cgroup: Value,
                                  show: Value -> string)
    ensures StartsWith(ProcessInfo(container, mnt, pid, cgroup, show),
                       "NAME: " + (if container.Some? then container.value.name else "None") + ", Image: ")
  {
    var head := "NAME: " + (if container.Some? then container.value.name else "None") + ", Image: ";
    var image := if container.Some? then Str(container.value.image, show) else "None";
    var s1 := head + image;
    PrefixExtends(head, image, head);
    var s2 := s1 + "\nMNT_NS: ";
    PrefixExtends(s1, "\nMNT_NS: ", head);
    var s3 := s2 + Str(mnt, show);
    PrefixExtends(s2, Str(mnt, show), head);
    var s4 := s3 + "\nPID_NS: ";
    PrefixExtends(s3, "\nPID_NS: ", head);
    var s5 := s4 + Str(pid, show);
    PrefixExtends(s4, Str(pid, show), head);
    var s6 := s5 + "\nCGROUP_ID: ";
    PrefixExtends(s5, "\nCGROUP_ID: ", head);
    PrefixExtends(s6, Str(cgroup, show), head);
  }

  /** Appending keeps a prefix. */
  lemma PrefixExtends(s: string, t: string, prefix: string)
    requires prefix == s || StartsWith(s, prefix)
    ensures StartsWith(s + t, prefix)
  {
    assert (s + t)[..|prefix|] == s[..|prefix|];
  }

  /** The LSM embed: red with the blocked wording iff the access was
      blocked, seven fields, the fifth a heading without a value. */
  function LsmEmbed(blocked: bool, event: string, command: string, path: string, source: string,
                    process: string, at: string): (e: Embed)
    ensures e.color == (if blocked then Red else Green) && e.description == LsmDescription(blocked)
    ensures e.title == LsmTitle && e.footer == LsmFooter
    ensures |e.fields| == 7
    ensures e.fields[0] == Text(EventIdField, event, Some(true))
    ensures e.fields[1] == Text(CommandField, command, Some(true))
    ensures e.fields[2] == Text(PathField, path, Some(true))
    ensures e.fields[3] == Text(SourceField, source, Some(true))
    ensures e.fields[4] == Field(ContainerInfoField, None, None)
    ensures e.fields[5] == Text(ProcessInfoField, process, None)
    ensures e.fields[6] == Text(TimestampField, at, None)
  {
    Embed(
      LsmTitle,
      LsmDescription(blocked),
      [ Text(EventIdField, event, Some(true)),
        Text(CommandField, command, Some(true)),
        Text(PathField, path, Some(true)),
        Text(SourceField, source, Some(true)),
        Field(ContainerInfoField, None, None),
        Text(ProcessInfoField, process, None),
        Text(TimestampField, at, None) ],
      if blocked then Red else Green,
      LsmFooter)
  }

  /** Every subscript `send_alert` makes succeeds on the message. */
  predicate LsmReadable(d: map<string, Value>)
  {
    && "return_value" in d && "event_id" in d && "command" in d && "cgroup_id" in d && "timestamp" in d
    && "data" in d && d["data"].VDict? && "path" in d["data"].entries && "source" in d["data"].entries
    && "container_id" in d && d["container_id"].VDict?
    && "mnt_ns" in d["container_id"].entries && "pid_ns" in d["container_id"].entries
  }

  /** `send_alert` of the LSM callback. `return_value` is read though not
      required; the timestamp text comes from `parseTime`, which stands for
      the slicing and `strptime` of `data["timestamp"]`. */
  function LsmAlert(url: string, data: Value, container: Option<ContainerData>, show: Value -> string,
                    parseTime: Value -> Outcome<string>, postError: Option<Exc>): (r: Outcome<Post>)
    ensures data.VDict? && !HasKeys(data.entries, LsmKeys) ==> r == Raised(ValueError(MissingFields))
    ensures data.VDict? && HasKeys(data.entries, LsmKeys) && "return_value" !in data.entries ==> r == Raised(KeyError("return_value"))
    ensures r.Done? ==>
      && data.VDict? && HasKeys(data.entries, LsmKeys) && "return_value" in data.entries && postError.None?
      && var blocked := Blocked(data.entries["return_value"]);
      && r.value.url == url
      && r.value.embed.color == (if blocked then Red else Green)
      && r.value.embed.description == LsmDescription(blocked)
      && |r.value.embed.fields| == 7
      && r.value.embed.fields[4] == Field(ContainerInfoField, None, None)
      && r.value.embed.fields[5].value.Some? && r.value.embed.fields[5].value.value.VStr?
      && StartsWith(r.value.embed.fields[5].value.value.s,
                    "NAME: " + (if container.Some? then container.value.name else "None") + ", Image: ")
    ensures r.Done? <==>
      data.VDict? && HasKeys(data.entries, LsmKeys) && LsmReadable(data.entries)
      && parseTime(data.entries["timestamp"]).Done? && postError.None?
    ensures r.Done? && data.VDict? && LsmReadable(data.entries) ==>
      var d := data.entries;
      r.value == Post(url, "Alert", LsmEmbed(Blocked(d["return_value"]), Str(d["event_id"], show), Str(d["command"], show),
                                             Str(d["data"].entries["path"], show), Str(d["data"].entries["source"], show),
                                             ProcessInfo(container, d["container_id"].entries["mnt_ns"],
                                                         d["container_id"].entries["pid_ns"], d["cgroup_id"], show),
                                             parseTime(d["timestamp"]).value))
  {
    var _ :- Validate(LsmKeys, data);
    var returnValue :- Subscript(data, "return_value");
    var event :- Subscript(data, "event_id");
    var command :- Subscript(data, "command");
    var detail :- Subscript(data, "data");
    var path :- Subscript(detail, "path");
    var source :- Subscript(detail, "source");
    var ids :- Subscript(data, "container_id");
    var mnt :- Subscript(ids, "mnt_ns");
    var pid :- Subscript(ids, "pid_ns");
    var cgroup :- Subscript(data, "cgroup_id");
    var stamp :- Subscript(data, "timestamp");
    var at :- parseTime(stamp);
    if postError.Some? then Raised(postError.value)
    else
      Done(Post(url, "Alert", LsmEmbed(Blocked(returnValue), Str(event, show), Str(command, show), Str(path, show),
                                       Str(source, show), ProcessInfo(container, mnt, pid, cgroup, show), at)))
  }

  /** The LSM `callback`: no webhook means no alert; otherwise a fresh
      client posts, and its errors propagate. */
  function LsmCallback(env: Option<string>, value: Value, show: Value -> string,
                       parseTime: Value -> Outcome<string>, postError: Option<Exc>): (r: Outcome<Option<Post>>)
    ensures env.None? ==> r == Done(None)
    ensures env.Some? ==> r.Done? == LsmAlert(env.value, value, None, show, parseTime, postError).Done?
    ensures env.Some? ==> r == (match LsmAlert(env.value, value, None, show, parseTime, postError)
                                case Done(p) => Done(Some(p))
                                case Raised(e) => Raised(e))
  {
    if env.None? then Done(None)
    else
      var post :- LsmAlert(env.value, value, None, show, parseTime, postError);
      Done(Some(post))
  }

  /** `ALERT_DISABLE = True`: the loader never registers the LSM callback. */
  lemma LsmCallbackNeverLoaded(func: Handler, z: Option<int>)
    ensures !Loader.Enabled(Loader.Module(Some(LsmDisable), z, func))
  {
  }

  // -------------------------------------------------- the cached alert cell

  /** The shared `callback` of the detection-result and SVM modules: the
      container is looked up by the message's `container_name`, the cached
      client is created from the webhook setting on first use (no setting:
      nothing happens), and `send` is that module's `send_alert`. Every
      error is logged and swallowed. The result is the post made, if any,
      and the client's URL afterwards. */
  function CachedCallback(alert: Option<string>, value: Value, lookup: Value -> Option<ContainerData>,
                          env: Option<string>, send: (string, Option<ContainerData>) -> Outcome<Post>)
    : (r: (Option<Post>, Option<string>))
    ensures alert.Some? ==> r.1 == alert
    ensures alert.None? && env.None? ==> r == (None, None)
    ensures r.0.Some? ==>
      (&& value.VDict? && "container_name" in value.entries && r.1.Some?
       && var sent := send(r.1.value, lookup(value.entries["container_name"]));
       && sent.Done? && r.0 == Some(sent.value))
    ensures !(value.VDict? && "container_name" in value.entries) ==> r == (None, alert)
    ensures value.VDict? && "container_name" in value.entries && alert.None? && env.Some? ==> r.1 == env
    ensures value.VDict? && "container_name" in value.entries && (alert.Some? || env.Some?) ==>
      var client := if alert.Some? then alert.value else env.value;
      var sent := send(client, lookup(value.entries["container_name"]));
      r.0 == if sent.Done? then Some(sent.value) else None
  {
    match Subscript(value, "container_name")
    case Raised(_) => (None, alert)
    case Done(id) =>
      var container := lookup(id);
      if alert.None? && env.None? then (None, alert)
      else
        var client := if alert.Some? then alert.value else env.value;
        match send(client, container)
        case Raised(_) => (None, Some(client))
        case Done(post) => (Some(post), Some(client))
  }

  /** The client after a series of messages, each seen with the webhook
      setting of its moment. */
  function ClientAfter(alert: Option<string>, messages: seq<(Value, Option<string>)>,
                       lookup: Value -> Option<ContainerData>,
                       send: (string, Option<ContainerData>) -> Outcome<Post>): Option<string>
  {
    if messages == [] then alert
    else
      var last := messages[|messages| - 1];
      CachedCallback(ClientAfter(alert, messages[..|messages| - 1], lookup, send), last.0, lookup, last.1, send).1
  }

  /** The client is created at most once: after it exists, no later message
      and no change of the webhook setting replaces it, and while the setting
      stays unset none is created. */
  lemma {:induction false} ClientCreatedOnce(alert: Option<string>, messages: seq<(Value, Option<string>)>,
                                             lookup: Value -> Option<ContainerData>,
                                             send: (string, Option<ContainerData>) -> Outcome<Post>)
    ensures alert.Some? ==> ClientAfter(alert, messages, lookup, send) == alert
    ensures alert.None? && (forall i :: 0 <= i < |messages| ==> messages[i].1.None?) ==>
      ClientAfter(alert, messages, lookup, send) == None
    decreases |messages|
  {
    if messages != [] {
      ClientCreatedOnce(alert, messages[..|messages| - 1], lookup, send);
    }
  }

  /** The module global `alert` of the detection-result or SVM module. */
  class AlertCell {
    var alert: Option<string>

    constructor ()
      ensures alert == None
    {
      alert := None;
    }

    /** `callback` */
    method Callback(value: Value, lookup: Value -> Option<ContainerData>, env: Option<string>,
                    send: (string, Option<ContainerData>) -> Outcome<Post>) returns (posted: Option<Post>)
      modifies this
      ensures (posted, alert) == CachedCallback(old(alert), value, lookup, env, send)
    {
      var id := Subscript(value, "container_name");
      if id.Raised? {
        return None;
      }
      var container := lookup(id.value);
      if alert == None {
        if env == None {
          return None;
        }
        alert := env;
      }
      var sent := send(alert.value, container);
      posted := if sent.Done? then Some(sent.value) else None;
    }
  }
}
