/**
 * What each XML-RPC method does, as functions from the observable engine state
 * and the request parameters to the new state and the response. The methods in
 * XmlRpcMethods are proved to compute exactly these.
 */
module XmlRpcSemantics {
  import opened Wrappers
  import opened Bde
  import opened Util
  import opened OptionHandlers
  import opened ReservedQueue

  /** What the method layer observes of one download (a request group). */
  datatype GroupView = GroupView(
    gid: nat,
    uris: seq<string>,              // the first file entry's remaining URIs
    options: map<string, string>,   // the group's own option store
    downloadCap: nat,               // max download speed, bytes/s (0 = unlimited)
    uploadCap: nat)                 // max upload speed, bytes/s (0 = unlimited)

  /** What the method layer observes of the engine. */
  datatype EngineView = EngineView(
    waiting: seq<GroupView>,        // the reserved queue, front first
    nextGid: nat,                   // the GID the next new group receives
    option: map<string, string>,    // the global option store
    overallDownloadCap: nat,
    overallUploadCap: nat,
    version: string,
    features: seq<string>)

  datatype Outcome = Outcome(state: EngineView, response: Response)

  const ADD_URI := "aria2.addUri"
  const CHANGE_OPTION := "aria2.changeOption"
  const CHANGE_GLOBAL_OPTION := "aria2.changeGlobalOption"
  const TELL_STATUS := "aria2.tellStatus"
  const TELL_WAITING := "aria2.tellWaiting"
  const CHANGE_POSITION := "aria2.changePosition"
  const GET_VERSION := "aria2.getVersion"
  const MULTICALL := "system.multicall"

  /** The names with a handler, other than system.multicall itself. */
  const SINGLE_METHODS: set<string> :=
    {ADD_URI, CHANGE_OPTION, CHANGE_GLOBAL_OPTION, TELL_STATUS, TELL_WAITING, CHANGE_POSITION, GET_VERSION}

  /** A new group: its speed caps are read from its option store. */
  function NewGroupView(gid: nat, uris: seq<string>, options: map<string, string>): GroupView {
    GroupView(gid, uris, options, CapOf(options, PREF_MAX_DOWNLOAD_LIMIT), CapOf(options, PREF_MAX_UPLOAD_LIMIT))
  }

  /** A group after changeOption: the overlay is stored and the caps it names take effect. */
  function ApplyChangeable(g: GroupView, overlay: map<string, string>): GroupView {
    g.(options := g.options + overlay,
       downloadCap := if PREF_MAX_DOWNLOAD_LIMIT in overlay then CapOf(overlay, PREF_MAX_DOWNLOAD_LIMIT) else g.downloadCap,
       uploadCap := if PREF_MAX_UPLOAD_LIMIT in overlay then CapOf(overlay, PREF_MAX_UPLOAD_LIMIT) else g.uploadCap)
  }

  /** The engine after changeGlobalOption. */
  function ApplyGlobal(s: EngineView, overlay: map<string, string>): EngineView {
    s.(option := s.option + overlay,
       overallDownloadCap :=
         if PREF_MAX_OVERALL_DOWNLOAD_LIMIT in overlay then CapOf(overlay, PREF_MAX_OVERALL_DOWNLOAD_LIMIT) else s.overallDownloadCap,
       overallUploadCap :=
         if PREF_MAX_OVERALL_UPLOAD_LIMIT in overlay then CapOf(overlay, PREF_MAX_OVERALL_UPLOAD_LIMIT) else s.overallUploadCap)
  }

  function GidsOf(w: seq<GroupView>): (r: seq<nat>)
    ensures |r| == |w| && forall k :: 0 <= k < |w| ==> r[k] == w[k].gid
  {
    if w == [] then [] else [w[0].gid] + GidsOf(w[1..])
  }

  // ---------------------------------------------------------------- addUri

  function HasPrefix(s: string, p: string): bool {
    |s| >= |p| && s[..|p|] == p
  }

  /** A URI the engine can download: a known scheme followed by a non-empty rest. */
  predicate IsUri(s: string) {
    || (HasPrefix(s, "http://") && |s| > 7)
    || (HasPrefix(s, "https://") && |s| > 8)
    || (HasPrefix(s, "ftp://") && |s| > 6)
  }

  /** The string members of a list, in order; other members are skipped. */
  function StringsOf(items: seq<Value>): seq<string> {
    if items == [] then []
    else (if items[0].Str? then [items[0].s] else []) + StringsOf(items[1..])
  }

  /** Exactly the strings of the list survive. */
  lemma {:induction false} StringsOfMembers(items: seq<Value>)
    ensures forall u :: u in StringsOf(items) <==> Str(u) in items
  {
    if items != [] {
      StringsOfMembers(items[1..]);
      assert items == [items[0]] + items[1..];
    }
  }

  /** The URIs among `uris`, in order. */
  function UriFilter(uris: seq<string>): seq<string> {
    if uris == [] then []
    else (if IsUri(uris[0]) then [uris[0]] else []) + UriFilter(uris[1..])
  }

  /** Exactly the valid URIs survive the filter. */
  lemma {:induction false} UriFilterMembers(uris: seq<string>)
    ensures forall u :: u in UriFilter(uris) <==> u in uris && IsUri(u)
  {
    if uris != [] {
      UriFilterMembers(uris[1..]);
      assert uris == [uris[0]] + uris[1..];
    }
  }

  datatype AddUriRequest = AddUriRequest(uris: seq<string>, overlay: map<string, string>, pos: Option<nat>)

  /** The optional option struct at `index`; a missing or non-struct parameter means no options. */
  function GatherParam(params: seq<Value>, index: nat, allowed: set<string>): Result<map<string, string>> {
    if |params| > index && params[index].Dict? then Gathered(params[index].entries, allowed) else Ok(map[])
  }

  /** Decodes addUri's parameters: [uris], options?, position?. */
  function DecodeAddUri(params: seq<Value>): Result<AddUriRequest> {
    if |params| == 0 || !params[0].List? || StringsOf(params[0].items) == [] then Err("URI is not provided.")
    else
      match GatherParam(params, 1, REQUEST_OPTIONS)
      case Err(m) => Err(m)
      case Ok(overlay) =>
        if |params| > 2 && params[2].Int? && params[2].i < 0 then Err("Position must be greater than or equal to 0.")
        else
          var pos: Option<nat> := if |params| > 2 && params[2].Int? then Some(params[2].i) else None;
          var uris := UriFilter(StringsOf(params[0].items));
          if uris == [] then Err("No URI to download.")
          else Ok(AddUriRequest(uris, overlay, pos))
  }

  /** Puts a new group at the tail of the queue, or before `pos` when one is given. */
  function Enqueue(w: seq<GroupView>, pos: Option<nat>, g: GroupView): seq<GroupView> {
    match pos
    case None => w + [g]
    case Some(p) => InsertAt(w, p, g)
  }

  /** A decoded addUri request takes effect: a new group with the next GID joins the queue. */
  function Admit(s: EngineView, req: AddUriRequest): Outcome {
    var g := NewGroupView(s.nextGid, req.uris, s.option + req.overlay);
    Outcome(s.(waiting := Enqueue(s.waiting, req.pos, g), nextGid := s.nextGid + 1),
            Success(Str(Itos(s.nextGid))))
  }

  function AddUri(s: EngineView, params: seq<Value>): Outcome {
    match DecodeAddUri(params)
    case Err(m) => Outcome(s, Failure(m))
    case Ok(req) => Admit(s, req)
  }

  // ----------------------------------------------------------- changeOption

  /** The GID parameter of changeOption and tellStatus: a string of decimal digits. */
  function DecodeGid(params: seq<Value>): Result<nat> {
    if |params| == 0 || !params[0].Str? then Err("GID is not provided.")
    else
      match ParseUInt(params[0].s)
      case None => Err("Bad GID " + params[0].s)
      case Some(gid) => Ok(gid)
  }

  /** The engine after the waiting group at index `i` takes a changeOption overlay. */
  function Retune(s: EngineView, i: nat, overlay: map<string, string>): EngineView
    requires i < |s.waiting|
  {
    s.(waiting := s.waiting[i := ApplyChangeable(s.waiting[i], overlay)])
  }

  function ChangeOption(s: EngineView, params: seq<Value>): Outcome {
    match DecodeGid(params)
    case Err(m) => Outcome(s, Failure(m))
    case Ok(gid) =>
      match IndexOf(GidsOf(s.waiting), gid)
      case None => Outcome(s, Failure("Cannot change option for GID#" + params[0].s))
      case Some(i) =>
        match GatherParam(params, 1, CHANGEABLE_OPTIONS)
        case Err(m) => Outcome(s, Failure(m))
        case Ok(overlay) =>
          Outcome(Retune(s, i, overlay), Success(Null))
  }

  function ChangeGlobalOption(s: EngineView, params: seq<Value>): Outcome {
    match GatherParam(params, 0, GLOBAL_CHANGEABLE_OPTIONS)
    case Err(m) => Outcome(s, Failure(m))
    case Ok(overlay) => Outcome(ApplyGlobal(s, overlay), Success(Null))
  }

  // ------------------------------------------------- tellStatus, tellWaiting

  /** The status struct of a waiting group. */
  function StatusOf(g: GroupView): Value {
    Dict([("gid", Str(Itos(g.gid))), ("status", Str("waiting"))])
  }

  function Statuses(w: seq<GroupView>): (r: seq<Value>)
    ensures |r| == |w| && forall k :: 0 <= k < |w| ==> r[k] == StatusOf(w[k])
  {
    if w == [] then [] else [StatusOf(w[0])] + Statuses(w[1..])
  }

  function TellStatus(s: EngineView, params: seq<Value>): Outcome {
    match DecodeGid(params)
    case Err(m) => Outcome(s, Failure(m))
    case Ok(gid) =>
      match IndexOf(GidsOf(s.waiting), gid)
      case None => Outcome(s, Failure("No such download for GID#" + params[0].s))
      case Some(i) => Outcome(s, Success(StatusOf(s.waiting[i])))
  }

  function TellWaiting(s: EngineView, params: seq<Value>): Outcome {
    if |params| < 2 || !params[0].Int? || !params[1].Int? || params[0].i < 0 || params[1].i < 0 then
      Outcome(s, Failure("Invalid argument(s) were given."))
    else Outcome(s, Success(List(Statuses(Window(s.waiting, params[0].i, params[1].i)))))
  }

  // --------------------------------------------------------- changePosition

  /** A changePosition request: the GID as given and as parsed, the offset and its origin. */
  datatype PositionRequest = PositionRequest(gidText: string, gid: nat, offset: int, how: Origin)

  /** Decodes changePosition's parameters: GID string, integer offset, origin keyword. */
  function DecodeChangePosition(params: seq<Value>): Result<PositionRequest> {
    if |params| < 3 || !params[0].Str? || !params[1].Int? || !params[2].Str? then Err("Illegal argument.")
    else
      match (ParseUInt(params[0].s), ParseOrigin(params[2].s))
      case (None, _) => Err("Bad GID " + params[0].s)
      case (_, None) => Err("Illegal argument.")
      case (Some(gid), Some(how)) => Ok(PositionRequest(params[0].s, gid, params[1].i, how))
  }

  /** Moves the named waiting group; the response is its new index. */
  function Reposition(s: EngineView, req: PositionRequest): Outcome {
    match IndexOf(GidsOf(s.waiting), req.gid)
    case None => Outcome(s, Failure("GID#" + req.gidText + " not found in the waiting queue."))
    case Some(i) =>
      var p := Target(i, |s.waiting|, req.offset, req.how);
      Outcome(s.(waiting := Moved(s.waiting, i, p)), Success(Int(p)))
  }

  function ChangePosition(s: EngineView, params: seq<Value>): Outcome {
    match DecodeChangePosition(params)
    case Err(m) => Outcome(s, Failure(m))
    case Ok(req) => Reposition(s, req)
  }

  // ------------------------------------------------- getVersion, fallback

  function FeatureList(fs: seq<string>): (r: seq<Value>)
    ensures |r| == |fs| && forall k :: 0 <= k < |fs| ==> r[k] == Str(fs[k])
  {
    if fs == [] then [] else [Str(fs[0])] + FeatureList(fs[1..])
  }

  function GetVersion(s: EngineView): Outcome {
    Outcome(s, Success(Dict([("enabledFeatures", List(FeatureList(s.features))), ("version", Str(s.version))])))
  }

  function NoSuchMethod(name: string): Response {
    Failure("No such method: " + name)
  }

  // --------------------------------------------------------------- dispatch

  /** One call to any method but system.multicall; unknown names fall back to the fault. */
  function Execute(s: EngineView, name: string, params: seq<Value>): Outcome {
    if name == ADD_URI then AddUri(s, params)
    else if name == CHANGE_OPTION then ChangeOption(s, params)
    else if name == CHANGE_GLOBAL_OPTION then ChangeGlobalOption(s, params)
    else if name == TELL_STATUS then TellStatus(s, params)
    else if name == TELL_WAITING then TellWaiting(s, params)
    else if name == CHANGE_POSITION then ChangePosition(s, params)
    else if name == GET_VERSION then GetVersion(s)
    else Outcome(s, NoSuchMethod(name))
  }

  // ---------------------------------------------------------- multicall

  const KEY_METHOD_NAME := "methodName"
  const KEY_PARAMS := "params"

  datatype Step = Step(state: EngineView, slot: Value)
  datatype Batch = Batch(state: EngineView, slots: seq<Value>)

  /** The sub-call a descriptor asks for, or the fault message it earns. */
  function DecodeCall(d: Value): Result<(string, seq<Value>)> {
    if !d.Dict? then Err("system.multicall expected struct.")
    else
      match (Lookup(d.entries, KEY_METHOD_NAME), Lookup(d.entries, KEY_PARAMS))
      case (Some(Str(name)), Some(List(ps))) =>
        if name == MULTICALL then Err("Recursive system.multicall forbidden.") else Ok((name, ps))
      case _ => Err("Missing methodName or params.")
  }

  /** Runs one descriptor: a success becomes a one-element list, a failure its fault struct. */
  function RunOne(s: EngineView, d: Value): Step {
    match DecodeCall(d)
    case Err(m) => Step(s, Fault(m))
    case Ok((name, ps)) =>
      var o := Execute(s, name, ps);
      Step(o.state, if o.response.code == 0 then List([o.response.param]) else o.response.param)
  }

  /** Runs the descriptors in order with `run`, threading the state; one slot per descriptor. */
  function Fold(run: (EngineView, Value) -> Step, s: EngineView, ds: seq<Value>): (b: Batch)
    ensures |b.slots| == |ds|
    decreases |ds|
  {
    if ds == [] then Batch(s, [])
    else
      var b := Fold(run, s, ds[..|ds| - 1]);
      var st := run(b.state, ds[|ds| - 1]);
      Batch(st.state, b.slots + [st.slot])
  }

  /** The descriptors of one system.multicall, run in order. */
  function RunAll(s: EngineView, ds: seq<Value>): Batch {
    Fold(RunOne, s, ds)
  }

  function Multicall(s: EngineView, params: seq<Value>): Outcome {
    if |params| == 0 || !params[0].List? then Outcome(s, Failure("Illegal argument. One item list is expected."))
    else
      var b := RunAll(s, params[0].items);
      Outcome(b.state, Success(List(b.slots)))
  }

  /** A request as the server dispatches it. */
  function Dispatch(s: EngineView, name: string, params: seq<Value>): Outcome {
    if name == MULTICALL then Multicall(s, params) else Execute(s, name, params)
  }
}
