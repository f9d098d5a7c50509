/**
 * Properties of the method layer: the engine invariant every request keeps,
 * all-or-nothing failure, what each method promises, and how system.multicall
 * isolates its sub-calls.
 */
module XmlRpcProperties {
  import opened Wrappers
  import opened Bde
  import opened Util
  import opened OptionHandlers
  import opened ReservedQueue
  import opened XmlRpcSemantics

  /** A group's numeric caps agree with the size options in its store. */
  predicate GroupCoherent(g: GroupView) {
    && g.downloadCap == CapOf(g.options, PREF_MAX_DOWNLOAD_LIMIT)
    && g.uploadCap == CapOf(g.options, PREF_MAX_UPLOAD_LIMIT)
  }

  /**
   * The engine invariant: waiting GIDs are distinct and were all handed out by the
   * counter, and every numeric cap agrees with its option text.
   */
  predicate Coherent(s: EngineView) {
    && s.nextGid >= 1
    && (forall i, j :: 0 <= i < |s.waiting| && 0 <= j < |s.waiting| && i != j ==> s.waiting[i].gid != s.waiting[j].gid)
    && (forall k :: 0 <= k < |s.waiting| ==> 1 <= s.waiting[k].gid < s.nextGid && GroupCoherent(s.waiting[k]))
    && s.overallDownloadCap == CapOf(s.option, PREF_MAX_OVERALL_DOWNLOAD_LIMIT)
    && s.overallUploadCap == CapOf(s.option, PREF_MAX_OVERALL_UPLOAD_LIMIT)
  }

  /** The engine as set up: an empty queue, the GID counter reset to 1, caps read from the options. */
  function Initial(option: map<string, string>, version: string, features: seq<string>): (s: EngineView)
    ensures Coherent(s) && s.waiting == [] && s.nextGid == 1
  {
    EngineView([], 1, option, CapOf(option, PREF_MAX_OVERALL_DOWNLOAD_LIMIT),
               CapOf(option, PREF_MAX_OVERALL_UPLOAD_LIMIT), version, features)
  }

  lemma ApplyChangeableCoherent(g: GroupView, overlay: map<string, string>)
    requires GroupCoherent(g)
    ensures GroupCoherent(ApplyChangeable(g, overlay))
    ensures ApplyChangeable(g, overlay).gid == g.gid
  {
  }

  /** Where each element of the queue ends up when a group is enqueued. */
  lemma EnqueueAt(w: seq<GroupView>, pos: Option<nat>, g: GroupView)
    ensures var r := Enqueue(w, pos, g);
      var p := if pos.Some? then Min(pos.value, |w|) else |w|;
      && |r| == |w| + 1 && r[p] == g
      && (forall k :: 0 <= k < p ==> r[k] == w[k])
      && (forall k :: p < k < |r| ==> r[k] == w[k - 1])
  {
  }

  /** Enqueueing a coherent group that takes the counter's GID keeps the invariant. */
  lemma EnqueueCoherent(s: EngineView, pos: Option<nat>, g: GroupView)
    requires Coherent(s) && g.gid == s.nextGid && GroupCoherent(g)
    ensures Coherent(s.(waiting := Enqueue(s.waiting, pos, g), nextGid := s.nextGid + 1))
  {
    EnqueueAt(s.waiting, pos, g);
    var w := Enqueue(s.waiting, pos, g);
    var p := if pos.Some? then Min(pos.value, |s.waiting|) else |s.waiting|;
    forall k | 0 <= k < |w|
      ensures w[k] == (if k == p then g else if k < p then s.waiting[k] else s.waiting[k - 1])
    {
    }
    forall a, b | 0 <= a < |w| && 0 <= b < |w| && a != b
      ensures w[a].gid != w[b].gid
    {
    }
  }

  lemma AddUriCoherent(s: EngineView, params: seq<Value>)
    requires Coherent(s)
    ensures Coherent(AddUri(s, params).state)
  {
    if DecodeAddUri(params).Ok? {
      var req := DecodeAddUri(params).value;
      var g := NewGroupView(s.nextGid, req.uris, s.option + req.overlay);
      EnqueueCoherent(s, req.pos, g);
    }
  }

  lemma ChangeOptionCoherent(s: EngineView, params: seq<Value>)
    requires Coherent(s)
    ensures Coherent(ChangeOption(s, params).state)
  {
    var s' := ChangeOption(s, params).state;
    if s' != s {
      var gid := ParseUInt(params[0].s).value;
      var i := IndexOf(GidsOf(s.waiting), gid).value;
      var overlay := GatherParam(params, 1, CHANGEABLE_OPTIONS).value;
      ApplyChangeableCoherent(s.waiting[i], overlay);
      assert s'.waiting == s.waiting[i := ApplyChangeable(s.waiting[i], overlay)];
    }
  }

  lemma ChangeGlobalOptionCoherent(s: EngineView, params: seq<Value>)
    requires Coherent(s)
    ensures Coherent(ChangeGlobalOption(s, params).state)
  {
  }

  /** Repositioning a waiting group keeps the invariant. */
  lemma MovedCoherent(s: EngineView, i: nat, p: nat)
    requires Coherent(s) && i < |s.waiting| && p < |s.waiting|
    ensures Coherent(s.(waiting := Moved(s.waiting, i, p)))
  {
    var w := Moved(s.waiting, i, p);
    forall k | 0 <= k < |w|
      ensures MovedSource(i, p, k) < |w| && w[k] == s.waiting[MovedSource(i, p, k)]
    {
      MovedAt(s.waiting, i, p, k);
    }
    forall a, b | 0 <= a < |w| && 0 <= b < |w| && a != b
      ensures w[a].gid != w[b].gid
    {
      if MovedSource(i, p, a) == MovedSource(i, p, b) {
        MovedSourceInjective(i, p, a, b);
      }
    }
  }

  lemma ChangePositionCoherent(s: EngineView, params: seq<Value>)
    requires Coherent(s)
    ensures Coherent(ChangePosition(s, params).state)
  {
    var o := ChangePosition(s, params);
    if o.response.code == 0 {
      var gid := ParseUInt(params[0].s).value;
      var how := ParseOrigin(params[2].s).value;
      var i := IndexOf(GidsOf(s.waiting), gid).value;
      var p := Target(i, |s.waiting|, params[1].i, how);
      MovedCoherent(s, i, p);
    }
  }

  lemma ExecuteCoherent(s: EngineView, name: string, params: seq<Value>)
    requires Coherent(s)
    ensures Coherent(Execute(s, name, params).state)
  {
    if name == ADD_URI { AddUriCoherent(s, params); }
    else if name == CHANGE_OPTION { ChangeOptionCoherent(s, params); }
    else if name == CHANGE_GLOBAL_OPTION { ChangeGlobalOptionCoherent(s, params); }
    else if name == CHANGE_POSITION { ChangePositionCoherent(s, params); }
  }

  lemma RunOneCoherent(s: EngineView, d: Value)
    requires Coherent(s)
    ensures Coherent(RunOne(s, d).state)
  {
    if DecodeCall(d).Ok? {
      var (name, ps) := DecodeCall(d).value;
      ExecuteCoherent(s, name, ps);
    }
  }

  /** A batch keeps any invariant that each of its steps keeps. */
  lemma {:induction false} FoldCoherent(run: (EngineView, Value) -> Step, s: EngineView, ds: seq<Value>)
    requires Coherent(s)
    requires forall t, d :: Coherent(t) ==> Coherent(run(t, d).state)
    ensures Coherent(Fold(run, s, ds).state)
    decreases |ds|
  {
    if ds != [] {
      FoldCoherent(run, s, ds[..|ds| - 1]);
    }
  }

  lemma RunAllCoherent(s: EngineView, ds: seq<Value>)
    requires Coherent(s)
    ensures Coherent(RunAll(s, ds).state)
  {
    forall t, d | Coherent(t)
      ensures Coherent(RunOne(t, d).state)
    {
      RunOneCoherent(t, d);
    }
    FoldCoherent(RunOne, s, ds);
  }

  /** Every request, batched or not, keeps the engine invariant. */
  lemma DispatchCoherent(s: EngineView, name: string, params: seq<Value>)
    requires Coherent(s)
    ensures Coherent(Dispatch(s, name, params).state)
  {
    if name == MULTICALL {
      if |params| > 0 && params[0].List? {
        RunAllCoherent(s, params[0].items);
      }
    } else {
      ExecuteCoherent(s, name, params);
    }
  }

  /**
   * Every method answers code 0 or a code-1 fault struct, and a call that fails
   * changes nothing: no group added, no option or position partly applied.
   */
  predicate Atomic(s: EngineView, o: Outcome) {
    && (o.response.code == 0 || o.response.code == 1)
    && (o.response.code == 1 ==> IsFault(o.response.param) && o.state == s)
  }

  lemma ExecuteAtomic(s: EngineView, name: string, params: seq<Value>)
    ensures Atomic(s, Execute(s, name, params))
  {
    forall msg
      ensures IsFault(Fault(msg)) && FaultString(Fault(msg)) == Some(msg)
    {
      FaultShape(msg);
    }
    if name == ADD_URI {
      assert Atomic(s, AddUri(s, params));
    } else if name == CHANGE_OPTION {
      assert Atomic(s, ChangeOption(s, params));
    } else if name == CHANGE_GLOBAL_OPTION {
      assert Atomic(s, ChangeGlobalOption(s, params));
    } else if name == CHANGE_POSITION {
      assert Atomic(s, ChangePosition(s, params));
    }
  }

  /** A descriptor that is not a struct naming a method and a parameter list gets a fault slot. */
  lemma MalformedDescriptorFaults(s: EngineView, d: Value)
    requires DecodeCall(d).Err?
    ensures RunOne(s, d).state == s && IsFault(RunOne(s, d).slot)
    ensures FaultString(RunOne(s, d).slot) == Some(DecodeCall(d).msg)
  {
    FaultShape(DecodeCall(d).msg);
  }

  /**
   * A slot is a one-element list holding the sub-call's result when it succeeded
   * and a fault struct when it failed; a failed sub-call leaves the state alone.
   */
  lemma RunOneSlot(s: EngineView, d: Value)
    ensures var st := RunOne(s, d);
      && (IsFault(st.slot) || (st.slot.List? && |st.slot.items| == 1))
      && (IsFault(st.slot) ==> st.state == s)
    ensures DecodeCall(d).Ok? ==>
      var o := Execute(s, DecodeCall(d).value.0, DecodeCall(d).value.1);
      && RunOne(s, d).state == o.state
      && (o.response.code == 0 <==> RunOne(s, d).slot == List([o.response.param]))
  {
    match DecodeCall(d)
    case Err(m) => FaultShape(m);
    case Ok((name, ps)) => ExecuteAtomic(s, name, ps);
  }

  /** Slot `k` is what descriptor `k` produces in the state left by descriptors 0..k-1. */
  lemma {:induction false} FoldSlot(run: (EngineView, Value) -> Step, s: EngineView, ds: seq<Value>, k: nat)
    requires k < |ds|
    ensures Fold(run, s, ds).slots[k] == run(Fold(run, s, ds[..k]).state, ds[k]).slot
    decreases |ds|
  {
    var init := ds[..|ds| - 1];
    if k < |ds| - 1 {
      FoldSlot(run, s, init, k);
      assert init[..k] == ds[..k];
    } else {
      assert init == ds[..k];
    }
  }

  /** Running a batch in two pieces is running it whole. */
  lemma {:induction false} FoldSplit(run: (EngineView, Value) -> Step, s: EngineView, a: seq<Value>, b: seq<Value>)
    ensures Fold(run, s, a + b) == Batch(Fold(run, Fold(run, s, a).state, b).state,
                                         Fold(run, s, a).slots + Fold(run, Fold(run, s, a).state, b).slots)
    decreases |b|
  {
    if b == [] {
      assert a + b == a;
    } else {
      var b' := b[..|b| - 1];
      FoldSplit(run, s, a, b');
      assert (a + b)[..|a + b| - 1] == a + b';
    }
  }

  /**
   * Failure isolation: a descriptor whose sub-call fails neither rolls back, skips
   * nor alters any other sub-call; the batch without it has the same other slots
   * and the same final state.
   */
  lemma FaultIsolated(s: EngineView, a: seq<Value>, d: Value, b: seq<Value>)
    requires IsFault(RunOne(RunAll(s, a).state, d).slot)
    ensures var whole := RunAll(s, a + [d] + b);
      var without := RunAll(s, a + b);
      && whole.state == without.state
      && whole.slots == without.slots[..|a|] + [RunOne(RunAll(s, a).state, d).slot] + without.slots[|a|..]
  {
    var sa := RunAll(s, a);
    RunOneSlot(sa.state, d);
    FoldSplit(RunOne, s, a + [d], b);
    FoldSplit(RunOne, s, a, [d]);
    FoldSplit(RunOne, s, a, b);
    assert [d][..0] == [];
  }

  /**
   * system.multicall fails as a whole only when its one parameter is missing or
   * not a list; otherwise it answers code 0 with exactly one slot per descriptor.
   */
  lemma MulticallShape(s: EngineView, params: seq<Value>)
    ensures var o := Dispatch(s, MULTICALL, params);
      && (o.response.code == 1 <==> |params| == 0 || !params[0].List?)
      && (o.response.code == 1 ==> o.state == s && IsFault(o.response.param))
      && (o.response.code == 0 ==> o.response.param.List? && |o.response.param.items| == |params[0].items|)
  {
    if |params| == 0 || !params[0].List? {
      FaultShape("Illegal argument. One item list is expected.");
    }
  }

  /** A nested system.multicall descriptor gets a fault slot and runs nothing. */
  lemma NestedMulticallRejected(s: EngineView, d: Value)
    requires d.Dict? && Lookup(d.entries, KEY_METHOD_NAME) == Some(Str(MULTICALL))
    ensures RunOne(s, d).state == s && IsFault(RunOne(s, d).slot)
  {
    match Lookup(d.entries, KEY_PARAMS)
    case Some(List(_)) => FaultShape("Recursive system.multicall forbidden.");
    case _ => FaultShape("Missing methodName or params.");
  }

  /** An unknown name answers the fixed fault that echoes the name, and changes nothing. */
  lemma UnknownMethodFaults(s: EngineView, name: string, params: seq<Value>)
    requires name !in SINGLE_METHODS && name != MULTICALL
    ensures var o := Dispatch(s, name, params);
      && o.state == s && o.response.code == 1 && IsFault(o.response.param)
      && FaultString(o.response.param) == Some("No such method: " + name)
  {
    FaultShape("No such method: " + name);
  }

  /**
   * addUri succeeds exactly when its parameters decode; the new group gets the
   * counter's GID (returned in decimal), its first URI is a valid URI taken from the list
   * given, and it goes to the tail or to the requested position.
   */
  lemma AddUriOutcome(s: EngineView, params: seq<Value>)
    ensures var o := AddUri(s, params);
      && (o.response.code == 0 <==> DecodeAddUri(params).Ok?)
      && (o.response.code == 0 ==>
            var req := DecodeAddUri(params).value;
            var p := if req.pos.Some? then Min(req.pos.value, |s.waiting|) else |s.waiting|;
            && o.response.param == Str(Itos(s.nextGid))
            && ParseUInt(o.response.param.s) == Some(s.nextGid)
            && o.state.nextGid == s.nextGid + 1
            && |o.state.waiting| == |s.waiting| + 1
            && o.state.waiting[p].gid == s.nextGid
            && Str(o.state.waiting[p].uris[0]) in params[0].items
            && IsUri(o.state.waiting[p].uris[0])
            && o.state.waiting[p].options == s.option + req.overlay
            && RemoveAt(o.state.waiting, p) == s.waiting
            && o.state == s.(waiting := o.state.waiting, nextGid := s.nextGid + 1))
  {
    var o := AddUri(s, params);
    if o.response.code == 0 {
      var req := DecodeAddUri(params).value;
      ItosRoundTrip(s.nextGid);
      var g := NewGroupView(s.nextGid, req.uris, s.option + req.overlay);
      EnqueueAt(s.waiting, req.pos, g);
      EnqueueRemove(s.waiting, req.pos, g);
      assert req.uris[0] in req.uris;
      StringsOfMembers(params[0].items);
      UriFilterMembers(StringsOf(params[0].items));
    }
  }

  /** When every member is a valid URI, the filtered URI list is the list itself, in order. */
  lemma {:induction false} UriFilterAllValid(items: seq<Value>)
    requires forall k :: 0 <= k < |items| ==> items[k].Str? && IsUri(items[k].s)
    ensures var us := UriFilter(StringsOf(items));
      |us| == |items| && forall k :: 0 <= k < |items| ==> us[k] == items[k].s
  {
    if items != [] {
      UriFilterAllValid(items[1..]);
      var rest := StringsOf(items[1..]);
      assert StringsOf(items) == [items[0].s] + rest;
      assert ([items[0].s] + rest)[1..] == rest;
      assert UriFilter(StringsOf(items)) == [items[0].s] + UriFilter(rest);
    }
  }

  /**
   * addUri accepts a non-empty list of valid URIs with acceptable options and a
   * non-negative position (if any): the new download takes the counter's GID and
   * holds exactly the given URIs, in the given order, first URI first.
   */
  lemma AddUriAccepts(s: EngineView, params: seq<Value>)
    requires |params| > 0 && params[0].List? && |params[0].items| > 0
    requires forall k :: 0 <= k < |params[0].items| ==> params[0].items[k].Str? && IsUri(params[0].items[k].s)
    requires |params| > 1 && params[1].Dict? ==>
      forall k :: 0 <= k < |params[1].entries| ==> Acceptable(params[1].entries[k], REQUEST_OPTIONS)
    requires |params| > 2 && params[2].Int? ==> params[2].i >= 0
    ensures var o := AddUri(s, params);
      var p := if |params| > 2 && params[2].Int? then Min(params[2].i, |s.waiting|) else |s.waiting|;
      && o.response == Success(Str(Itos(s.nextGid)))
      && p < |o.state.waiting|
      && o.state.waiting[p].gid == s.nextGid
      && |o.state.waiting[p].uris| == |params[0].items|
      && o.state.waiting[p].uris[0] == params[0].items[0].s
      && (forall k :: 0 <= k < |params[0].items| ==> o.state.waiting[p].uris[k] == params[0].items[k].s)
  {
    var items := params[0].items;
    UriFilterAllValid(items);
    StringsOfMembers(items);
    assert Str(items[0].s) in items;
    if |params| > 1 && params[1].Dict? {
      GatheredOkIff(params[1].entries, REQUEST_OPTIONS);
    }
    var req := DecodeAddUri(params).value;
    var g := NewGroupView(s.nextGid, req.uris, s.option + req.overlay);
    EnqueueAt(s.waiting, req.pos, g);
  }

  /** A GID as the server renders it is accepted back as that GID by the handlers that take one. */
  lemma GidAcceptedBack(n: nat, rest: seq<Value>)
    ensures DecodeGid([Str(Itos(n))] + rest) == Ok(n)
  {
    ItosRoundTrip(n);
  }

  lemma EnqueueRemove(w: seq<GroupView>, pos: Option<nat>, g: GroupView)
    ensures RemoveAt(Enqueue(w, pos, g), if pos.Some? then Min(pos.value, |w|) else |w|) == w
  {
    EnqueueAt(w, pos, g);
  }

  /** addUri's refusals: no URI list, no valid URI, a bad option, a negative position. */
  lemma AddUriRejections(s: EngineView, params: seq<Value>)
    requires
      || |params| == 0
      || (params[0].List? && forall u :: Str(u) in params[0].items ==> !IsUri(u))
      || (|params| > 1 && params[1].Dict? && exists k :: 0 <= k < |params[1].entries| && !Acceptable(params[1].entries[k], REQUEST_OPTIONS))
      || (|params| > 2 && params[2].Int? && params[2].i < 0)
    ensures AddUri(s, params).response.code == 1 && AddUri(s, params).state == s
  {
    DecodeAddUriRejects(params);
  }

  lemma DecodeAddUriRejects(params: seq<Value>)
    requires
      || |params| == 0
      || (params[0].List? && forall u :: Str(u) in params[0].items ==> !IsUri(u))
      || (|params| > 1 && params[1].Dict? && exists k :: 0 <= k < |params[1].entries| && !Acceptable(params[1].entries[k], REQUEST_OPTIONS))
      || (|params| > 2 && params[2].Int? && params[2].i < 0)
    ensures DecodeAddUri(params).Err?
  {
    if |params| > 0 && params[0].List? && StringsOf(params[0].items) != [] {
      var us := UriFilter(StringsOf(params[0].items));
      StringsOfMembers(params[0].items);
      UriFilterMembers(StringsOf(params[0].items));
      assert us != [] ==> us[0] in us;
      if |params| > 1 && params[1].Dict? {
        GatheredOkIff(params[1].entries, REQUEST_OPTIONS);
      }
    }
  }

  /**
   * changeOption with an options struct either applies the whole overlay to the
   * named group only, or (on any refused member) changes nothing.
   */
  lemma ChangeOptionOutcome(s: EngineView, params: seq<Value>)
    requires |params| > 1 && params[0].Str? && params[1].Dict?
    ensures var o := ChangeOption(s, params);
      o.response.code == 0 <==>
        && ParseUInt(params[0].s).Some?
        && ParseUInt(params[0].s).value in GidsOf(s.waiting)
        && forall k :: 0 <= k < |params[1].entries| ==> Acceptable(params[1].entries[k], CHANGEABLE_OPTIONS)
    ensures var o := ChangeOption(s, params);
      o.response.code == 0 ==>
        var i := IndexOf(GidsOf(s.waiting), ParseUInt(params[0].s).value).value;
        && |o.state.waiting| == |s.waiting|
        && o.state.waiting[i] == ApplyChangeable(s.waiting[i], Gathered(params[1].entries, CHANGEABLE_OPTIONS).value)
        && (forall k :: 0 <= k < |s.waiting| && k != i ==> o.state.waiting[k] == s.waiting[k])
        && o.state == s.(waiting := o.state.waiting)
    ensures ChangeOption(s, params).response.code == 1 ==> ChangeOption(s, params).state == s
  {
    GatheredOkIff(params[1].entries, CHANGEABLE_OPTIONS);
  }

  /**
   * changeOption without an options struct succeeds exactly for a parseable GID of a
   * waiting group, and changes nothing either way.
   */
  lemma ChangeOptionWithoutStruct(s: EngineView, params: seq<Value>)
    requires |params| > 0 && params[0].Str? && (|params| < 2 || !params[1].Dict?)
    ensures var o := ChangeOption(s, params);
      && (o.response.code == 0 <==> ParseUInt(params[0].s).Some? && ParseUInt(params[0].s).value in GidsOf(s.waiting))
      && o.state == s
  {
    var o := ChangeOption(s, params);
    if o.response.code == 0 {
      var i := IndexOf(GidsOf(s.waiting), ParseUInt(params[0].s).value).value;
      assert ApplyChangeable(s.waiting[i], map[]) == s.waiting[i] by {
        assert s.waiting[i].options + map[] == s.waiting[i].options;
      }
    }
  }

  /** changeGlobalOption without an options struct answers code 0 and changes nothing. */
  lemma ChangeGlobalOptionWithoutStruct(s: EngineView, params: seq<Value>)
    requires |params| == 0 || !params[0].Dict?
    ensures var o := ChangeGlobalOption(s, params);
      o.response.code == 0 && o.state == s
  {
    assert s.option + map[] == s.option;
  }

  /** changeGlobalOption applies the whole overlay to the global store and caps, or nothing. */
  lemma ChangeGlobalOptionOutcome(s: EngineView, params: seq<Value>)
    requires |params| > 0 && params[0].Dict?
    ensures var o := ChangeGlobalOption(s, params);
      o.response.code == 0 <==> forall k :: 0 <= k < |params[0].entries| ==> Acceptable(params[0].entries[k], GLOBAL_CHANGEABLE_OPTIONS)
    ensures var o := ChangeGlobalOption(s, params);
      o.response.code == 0 ==>
        && o.state == ApplyGlobal(s, Gathered(params[0].entries, GLOBAL_CHANGEABLE_OPTIONS).value)
        && o.state.waiting == s.waiting
    ensures ChangeGlobalOption(s, params).response.code == 1 ==> ChangeGlobalOption(s, params).state == s
  {
    GatheredOkIff(params[0].entries, GLOBAL_CHANGEABLE_OPTIONS);
  }

  /**
   * tellWaiting answers the statuses of the queue from `offset`, at most `num` of
   * them, in queue order; an overrun is clamped, not refused.
   */
  lemma TellWaitingOutcome(s: EngineView, offset: nat, num: nat)
    ensures var o := TellWaiting(s, [Int(offset), Int(num)]);
      && o.state == s && o.response.code == 0 && o.response.param.List?
      && |o.response.param.items| == (if offset >= |s.waiting| then 0 else Min(num, |s.waiting| - offset))
      && forall k :: 0 <= k < |o.response.param.items| ==>
           o.response.param.items[k] == StatusOf(s.waiting[offset + k])
  {
  }

  /**
   * changePosition succeeds exactly for a well-typed call naming a waiting GID and
   * a known origin; it answers the final index, which now holds that GID, clamped
   * into the queue, and only reorders the queue.
   */
  lemma ChangePositionOutcome(s: EngineView, gidText: string, offset: int, origin: string)
    ensures var o := ChangePosition(s, [Str(gidText), Int(offset), Str(origin)]);
      && (o.response.code == 0 <==>
            ParseUInt(gidText).Some? && ParseOrigin(origin).Some? && ParseUInt(gidText).value in GidsOf(s.waiting))
      && (o.response.code == 1 ==> o.state == s)
      && (o.response.code == 0 ==>
            var gid := ParseUInt(gidText).value;
            var i := IndexOf(GidsOf(s.waiting), gid).value;
            var raw := RawTarget(i, |s.waiting|, offset, ParseOrigin(origin).value);
            && o.response.param.Int?
            && 0 <= o.response.param.i < |s.waiting|
            && o.state.waiting[o.response.param.i].gid == gid
            && (0 <= raw < |s.waiting| ==> o.response.param.i == raw)
            && (raw < 0 ==> o.response.param.i == 0)
            && (raw >= |s.waiting| ==> o.response.param.i == |s.waiting| - 1)
            && multiset(o.state.waiting) == multiset(s.waiting)
            && RemoveAt(o.state.waiting, o.response.param.i) == RemoveAt(s.waiting, i)
            && o.state == s.(waiting := o.state.waiting))
  {
    var o := ChangePosition(s, [Str(gidText), Int(offset), Str(origin)]);
    if o.response.code == 0 {
      var gid := ParseUInt(gidText).value;
      var i := IndexOf(GidsOf(s.waiting), gid).value;
      var p := Target(i, |s.waiting|, offset, ParseOrigin(origin).value);
      MovedIsReorder(s.waiting, i, p);
    }
  }
}
