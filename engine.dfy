/**
 * The download engine as the XML-RPC methods see it, and the methods
 * themselves: each one decodes its parameters, updates the engine in place,
 * and is proved to do exactly what XmlRpcSemantics says.
 */
module XmlRpcMethods {
  import opened Wrappers
  import opened Bde
  import opened Util
  import opened OptionHandlers
  import opened ReservedQueue
  import opened XmlRpcSemantics
  import opened Registry

  class DownloadEngine {
    var option: map<string, string>
    const man: RequestGroupMan
    const version: string
    const features: seq<string>

    ghost predicate Valid()
      reads this, man
    {
      man.Valid()
    }

    function View(): EngineView
      reads this, man, man.Groups()
    {
      EngineView(man.Waiting(), man.nextGid, option, man.maxOverallDownloadSpeedLimit,
                 man.maxOverallUploadSpeedLimit, version, features)
    }

    /** A fresh engine over the global `option`, with an empty queue and the GID counter at 1. */
    constructor (option: map<string, string>, version: string, features: seq<string>)
      ensures Valid() && fresh(man)
      ensures View() == EngineView([], 1, option, CapOf(option, PREF_MAX_OVERALL_DOWNLOAD_LIMIT),
                                   CapOf(option, PREF_MAX_OVERALL_UPLOAD_LIMIT), version, features)
    {
      this.option := option;
      man := new RequestGroupMan(option);
      this.version := version;
      this.features := features;
    }
  }

  /** The optional option struct at `index`, gathered by GatherOption when present. */
  method GatherParamMethod(params: seq<Value>, index: nat, allowed: set<string>) returns (r: Result<map<string, string>>)
    ensures r == GatherParam(params, index, allowed)
  {
    if |params| > index && params[index].Dict? {
      r := GatherOption(params[index].entries, allowed);
    } else {
      r := Ok(map[]);
    }
  }

  method AddUriMethod(e: DownloadEngine, params: seq<Value>) returns (res: Response)
    requires e.Valid()
    modifies e.man
    ensures e.Valid() && fresh(e.man.Groups() - old(e.man.Groups()))
    ensures Outcome(e.View(), res) == AddUri(old(e.View()), params)
  {
    var req := DecodeAddUri(params);
    if req.Err? {
      return Failure(req.msg);
    }
    res := AdmitMethod(e, req.value);
  }

  /** Creates the group with the next GID and queues it; the response is its GID in decimal. */
  method AdmitMethod(e: DownloadEngine, req: AddUriRequest) returns (res: Response)
    requires e.Valid()
    modifies e.man
    ensures e.Valid() && fresh(e.man.Groups() - old(e.man.Groups()))
    ensures Outcome(e.View(), res) == Admit(old(e.View()), req)
  {
    ghost var s := e.View();
    var g := e.man.NewGroup(req.uris, e.option + req.overlay);
    assert e.man.Waiting() == s.waiting;
    EnqueueGroup(e.man, req.pos, g);
    res := Success(Str(Itos(g.gid)));
  }

  /** Appends the new group, or inserts it before `pos` when addUri was given a position. */
  method EnqueueGroup(man: RequestGroupMan, pos: Option<nat>, g: RequestGroup)
    requires man.Valid() && g !in man.reserved
    modifies man
    ensures man.Valid() && man.Groups() == old(man.Groups()) + {g}
    ensures man.Waiting() == Enqueue(old(man.Waiting()), pos, g.View())
    ensures man.nextGid == old(man.nextGid)
    ensures man.maxOverallDownloadSpeedLimit == old(man.maxOverallDownloadSpeedLimit)
    ensures man.maxOverallUploadSpeedLimit == old(man.maxOverallUploadSpeedLimit)
  {
    ghost var before := man.reserved;
    match pos {
      case None =>
        man.AddReservedGroup(g);
        ViewsAppend(before, g);
      case Some(p) =>
        man.InsertReservedGroup(p, g);
        ViewsInsertAt(before, p, g);
    }
  }

  method ChangeOptionMethod(e: DownloadEngine, params: seq<Value>) returns (res: Response)
    requires e.Valid()
    modifies e.man.Groups()
    ensures e.Valid() && e.man.Groups() == old(e.man.Groups())
    ensures Outcome(e.View(), res) == ChangeOption(old(e.View()), params)
  {
    var gid := DecodeGid(params);
    if gid.Err? {
      return Failure(gid.msg);
    }
    ViewGids(e.man.reserved);
    var found := e.man.FindReservedIndex(gid.value);
    if found.None? {
      return Failure("Cannot change option for GID#" + params[0].s);
    }
    var overlay := GatherParamMethod(params, 1, CHANGEABLE_OPTIONS);
    if overlay.Err? {
      return Failure(overlay.msg);
    }
    ApplyToQueued(e, found.value, overlay.value);
    res := Success(Null);
  }

  /** Applies a changeOption overlay to the group at index `i` of the waiting queue. */
  method ApplyToQueued(e: DownloadEngine, i: nat, overlay: map<string, string>)
    requires e.Valid() && i < |e.man.reserved|
    modifies e.man.reserved[i]
    ensures e.View() == Retune(old(e.View()), i, overlay)
  {
    var man := e.man;
    ghost var w := man.Waiting();
    var g := man.reserved[i];
    g.ApplyChangeableOption(overlay);
    forall k | 0 <= k < |w|
      ensures man.Waiting()[k] == w[i := ApplyChangeable(w[i], overlay)][k]
    {
      if k != i {
        assert man.reserved[k] != g;
      }
    }
  }

  method ChangeGlobalOptionMethod(e: DownloadEngine, params: seq<Value>) returns (res: Response)
    requires e.Valid()
    modifies e, e.man
    ensures e.Valid() && e.man.Groups() == old(e.man.Groups())
    ensures Outcome(e.View(), res) == ChangeGlobalOption(old(e.View()), params)
  {
    var overlay := GatherParamMethod(params, 0, GLOBAL_CHANGEABLE_OPTIONS);
    if overlay.Err? {
      return Failure(overlay.msg);
    }
    ApplyGlobalMethod(e, overlay.value);
    res := Success(Null);
  }

  /** Stores a changeGlobalOption overlay and applies the overall caps it names. */
  method ApplyGlobalMethod(e: DownloadEngine, overlay: map<string, string>)
    requires e.Valid()
    modifies e, e.man
    ensures e.Valid() && e.man.Groups() == old(e.man.Groups())
    ensures e.View() == ApplyGlobal(old(e.View()), overlay)
  {
    ghost var w := e.man.Waiting();
    e.option := e.option + overlay;
    if PREF_MAX_OVERALL_DOWNLOAD_LIMIT in overlay {
      e.man.SetMaxOverallDownloadSpeedLimit(CapOf(overlay, PREF_MAX_OVERALL_DOWNLOAD_LIMIT));
    }
    if PREF_MAX_OVERALL_UPLOAD_LIMIT in overlay {
      e.man.SetMaxOverallUploadSpeedLimit(CapOf(overlay, PREF_MAX_OVERALL_UPLOAD_LIMIT));
    }
    assert e.man.Waiting() == w;
  }

  method TellStatusMethod(e: DownloadEngine, params: seq<Value>) returns (res: Response)
    ensures res == TellStatus(e.View(), params).response
  {
    var gid := DecodeGid(params);
    if gid.Err? {
      return Failure(gid.msg);
    }
    ViewGids(e.man.reserved);
    var g := e.man.FindReservedGroup(gid.value);
    if g == null {
      return Failure("No such download for GID#" + params[0].s);
    }
    res := Success(StatusOf(g.View()));
  }

  /** Collects the status of each group in the window, front to back. */
  method TellWaitingMethod(e: DownloadEngine, params: seq<Value>) returns (res: Response)
    ensures res == TellWaiting(e.View(), params).response
  {
    if |params| < 2 || !params[0].Int? || !params[1].Int? || params[0].i < 0 || params[1].i < 0 {
      return Failure("Invalid argument(s) were given.");
    }
    var offset: nat := params[0].i;
    var num: nat := params[1].i;
    var waiting := e.man.reserved;
    var last := if offset >= |waiting| then offset else offset + Min(num, |waiting| - offset);
    var list: seq<Value> := [];
    var i := offset;
    while i < last
      invariant offset <= i <= last
      invariant |list| == i - offset
      invariant forall k :: 0 <= k < |list| ==> list[k] == StatusOf(waiting[offset + k].View())
    {
      list := list + [StatusOf(waiting[i].View())];
      i := i + 1;
    }
    assert list == Statuses(Window(e.View().waiting, offset, num));
    res := Success(List(list));
  }

  method ChangePositionMethod(e: DownloadEngine, params: seq<Value>) returns (res: Response)
    requires e.Valid()
    modifies e.man
    ensures e.Valid() && e.man.Groups() == old(e.man.Groups())
    ensures Outcome(e.View(), res) == ChangePosition(old(e.View()), params)
  {
    var req := DecodeChangePosition(params);
    if req.Err? {
      return Failure(req.msg);
    }
    res := RepositionMethod(e, req.value);
  }

  /** Moves the named group inside the waiting queue. */
  method RepositionMethod(e: DownloadEngine, req: PositionRequest) returns (res: Response)
    requires e.Valid()
    modifies e.man
    ensures e.Valid() && e.man.Groups() == old(e.man.Groups())
    ensures Outcome(e.View(), res) == Reposition(old(e.View()), req)
  {
    ghost var s := e.View();
    ghost var before := e.man.reserved;
    ViewGids(before);
    var moved := e.man.ChangeReservedGroupPosition(req.gid, req.offset, req.how);
    if moved.Err? {
      return Failure("GID#" + req.gidText + " not found in the waiting queue.");
    }
    ViewsMoved(before, IndexOf(GidsOf(s.waiting), req.gid).value, moved.value);
    res := Success(Int(moved.value));
  }

  /** Lists the enabled features in order. */
  method GetVersionMethod(e: DownloadEngine) returns (res: Response)
    ensures res == GetVersion(e.View()).response
  {
    var list: seq<Value> := [];
    var i := 0;
    while i < |e.features|
      invariant 0 <= i <= |e.features|
      invariant list == FeatureList(e.features[..i])
    {
      list := list + [Str(e.features[i])];
      i := i + 1;
    }
    assert e.features[..i] == e.features;
    res := Success(Dict([("enabledFeatures", List(list)), ("version", Str(e.version))]));
  }

  /** Runs one call to any method but system.multicall; an unknown name gets the fallback fault. */
  method ExecuteMethod(e: DownloadEngine, name: string, params: seq<Value>) returns (res: Response)
    requires e.Valid()
    modifies e, e.man, e.man.Groups()
    ensures e.Valid() && fresh(e.man.Groups() - old(e.man.Groups()))
    ensures Outcome(e.View(), res) == Execute(old(e.View()), name, params)
  {
    if name == ADD_URI {
      res := AddUriMethod(e, params);
    } else if name == CHANGE_OPTION {
      res := ChangeOptionMethod(e, params);
    } else if name == CHANGE_GLOBAL_OPTION {
      res := ChangeGlobalOptionMethod(e, params);
    } else if name == TELL_STATUS {
      res := TellStatusMethod(e, params);
    } else if name == TELL_WAITING {
      res := TellWaitingMethod(e, params);
    } else if name == CHANGE_POSITION {
      res := ChangePositionMethod(e, params);
    } else if name == GET_VERSION {
      res := GetVersionMethod(e);
    } else {
      res := NoSuchMethod(name);
    }
  }

  /**
   * Runs each descriptor in order, appending one slot per descriptor; a failing
   * descriptor only yields a fault slot.
   */
  method MulticallMethod(e: DownloadEngine, params: seq<Value>) returns (res: Response)
    requires e.Valid()
    modifies e, e.man, e.man.Groups()
    ensures e.Valid() && fresh(e.man.Groups() - old(e.man.Groups()))
    ensures Outcome(e.View(), res) == Multicall(old(e.View()), params)
  {
    if |params| == 0 || !params[0].List? {
      return Failure("Illegal argument. One item list is expected.");
    }
    var ds := params[0].items;
    var slots: seq<Value> := [];
    var i := 0;
    while i < |ds|
      invariant 0 <= i <= |ds|
      invariant e.Valid() && fresh(e.man.Groups() - old(e.man.Groups()))
      invariant Batch(e.View(), slots) == RunAll(old(e.View()), ds[..i])
    {
      ghost var done := RunAll(old(e.View()), ds[..i]);
      var slot := RunOneMethod(e, ds[i]);
      assert ds[..i + 1][..i] == ds[..i];
      assert RunAll(old(e.View()), ds[..i + 1])
          == Batch(RunOne(done.state, ds[i]).state, done.slots + [RunOne(done.state, ds[i]).slot]);
      slots := slots + [slot];
      i := i + 1;
    }
    assert ds[..i] == ds;
    res := Success(List(slots));
  }

  /** Runs one multicall descriptor and returns its result slot. */
  method RunOneMethod(e: DownloadEngine, d: Value) returns (slot: Value)
    requires e.Valid()
    modifies e, e.man, e.man.Groups()
    ensures e.Valid() && fresh(e.man.Groups() - old(e.man.Groups()))
    ensures Step(e.View(), slot) == RunOne(old(e.View()), d)
  {
    var call := DecodeCall(d);
    match call {
      case Err(m) =>
        slot := Fault(m);
      case Ok((name, ps)) =>
        var r := ExecuteMethod(e, name, ps);
        slot := if r.code == 0 then List([r.param]) else r.param;
    }
  }

  /** The server's entry point for one request. */
  method DispatchMethod(e: DownloadEngine, name: string, params: seq<Value>) returns (res: Response)
    requires e.Valid()
    modifies e, e.man, e.man.Groups()
    ensures e.Valid() && fresh(e.man.Groups() - old(e.man.Groups()))
    ensures Outcome(e.View(), res) == Dispatch(old(e.View()), name, params)
  {
    if name == MULTICALL {
      res := MulticallMethod(e, params);
    } else {
      res := ExecuteMethod(e, name, params);
    }
  }
}
