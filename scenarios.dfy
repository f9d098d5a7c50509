/**
 * Concrete request sequences against a freshly set-up engine, with the answers
 * and queue contents the method layer gives for them.
 */
module XmlRpcScenarios {
  import opened Wrappers
  import opened Bde
  import opened Util
  import opened OptionHandlers
  import opened ReservedQueue
  import opened XmlRpcSemantics
  import opened XmlRpcProperties

  /** A one-URI addUri call. */
  function AddOne(uri: string): seq<Value> {
    [List([Str(uri)])]
  }

  /** A queued group built directly from the global options, as a test fixture adds it. */
  function Queued(s: EngineView, gid: nat): GroupView {
    NewGroupView(gid, [], s.option)
  }

  /** The first addUri on a fresh engine answers GID "1" and queues the URI. */
  lemma FirstAddUri(option: map<string, string>, version: string, features: seq<string>)
    ensures var o := AddUri(Initial(option, version, features), AddOne("http://localhost/"));
      && o.response == Success(Str("1"))
      && |o.state.waiting| == 1
      && o.state.waiting[0].uris == ["http://localhost/"]
      && o.state.nextGid == 2
  {
    var u := "http://localhost/";
    assert IsUri(u);
    assert StringsOf([Str(u)]) == [u];
    assert UriFilter([u]) == [u];
    assert DecodeAddUri(AddOne(u)) == Ok(AddUriRequest([u], map[], None));
    assert Itos(1) == "1";
  }

  /** addUri at position 0 puts the new download ahead of the one already waiting. */
  lemma AddUriAtFront(option: map<string, string>, version: string, features: seq<string>)
    ensures var s1 := AddUri(Initial(option, version, features), AddOne("http://uri1")).state;
      var o := AddUri(s1, [List([Str("http://uri2")]), Dict([]), Int(0)]);
      && o.response.code == 0
      && |o.state.waiting| == 2
      && o.state.waiting[0].uris[0] == "http://uri2"
      && o.state.waiting[1].uris[0] == "http://uri1"
  {
    var s0 := Initial(option, version, features);
    assert IsUri("http://uri1") && IsUri("http://uri2");
    assert StringsOf([Str("http://uri1")]) == ["http://uri1"];
    assert StringsOf([Str("http://uri2")]) == ["http://uri2"];
    assert DecodeAddUri(AddOne("http://uri1")) == Ok(AddUriRequest(["http://uri1"], map[], None));
    assert DecodeAddUri([List([Str("http://uri2")]), Dict([]), Int(0)]) == Ok(AddUriRequest(["http://uri2"], map[], Some(0)));
  }

  /** addUri refuses a call without URIs, a list holding no URI, a bad option value and a negative position. */
  lemma AddUriRefusals(s: EngineView)
    ensures AddUri(s, []).response.code == 1
    ensures AddUri(s, AddOne("not uri")).response.code == 1
    ensures AddUri(s, [List([Str("http://localhost")]), Dict([(PREF_FILE_ALLOCATION, Str("badvalue"))])]).response.code == 1
    ensures AddUri(s, [List([Str("http://localhost/")]), Dict([]), Int(-1)]).response.code == 1
  {
    AddUriRejections(s, []);
    assert !HasPrefix("not uri", "http://") && !HasPrefix("not uri", "https://") && !HasPrefix("not uri", "ftp://") by {
      assert "not uri"[0] == 'n';
    }
    AddUriRejections(s, AddOne("not uri"));
    assert !Acceptable((PREF_FILE_ALLOCATION, Str("badvalue")), REQUEST_OPTIONS) by {
      assert "badvalue" !in ["none", "prealloc"];
    }
    assert Dict([(PREF_FILE_ALLOCATION, Str("badvalue"))]).entries[0] == (PREF_FILE_ALLOCATION, Str("badvalue"));
    AddUriRejections(s, [List([Str("http://localhost")]), Dict([(PREF_FILE_ALLOCATION, Str("badvalue"))])]);
    AddUriRejections(s, [List([Str("http://localhost/")]), Dict([]), Int(-1)]);
  }

  /** A fresh engine holding the two fixture groups 1 and 2. */
  function TwoQueued(option: map<string, string>, version: string, features: seq<string>): (s: EngineView)
    ensures Coherent(s) && GidsOf(s.waiting) == [1, 2]
  {
    var s0 := Initial(option, version, features);
    s0.(waiting := [Queued(s0, 1), Queued(s0, 2)], nextGid := 3)
  }

  /** "100K" is 102400 bytes, stored back as "102400". */
  lemma HundredKilo()
    ensures GetRealSize("100K") == Some(102400) && Itos(102400) == "102400"
  {
    assert "100" + "K" == "100K";
    SuffixScales("100");
    assert DigitsValue("100") == 100 by {
      assert "100"[..2] == "10" && "10"[..1] == "1" && "1"[..0] == "";
    }
    assert DigitsValue("102400") == 102400 by {
      assert "102400"[..5] == "10240" && "10240"[..4] == "1024" && "1024"[..3] == "102";
      assert "102"[..2] == "10" && "10"[..1] == "1" && "1"[..0] == "";
    }
    ItosCanonical("102400");
  }

  /** "50K" is 51200 bytes, stored back as "51200". */
  lemma FiftyKilo()
    ensures GetRealSize("50K") == Some(51200) && Itos(51200) == "51200"
  {
    assert "50" + "K" == "50K";
    SuffixScales("50");
    assert DigitsValue("50") == 50 by {
      assert "50"[..1] == "5" && "5"[..0] == "";
    }
    assert DigitsValue("51200") == 51200 by {
      assert "51200"[..4] == "5120" && "5120"[..3] == "512" && "512"[..2] == "51";
      assert "51"[..1] == "5" && "5"[..0] == "";
    }
    ItosCanonical("51200");
  }

  /** A plain peer count "100" is stored as given. */
  lemma PeerCountText()
    ensures Normalize(PREF_BT_MAX_PEERS, Str("100")) == Some("100")
  {
    assert DigitsValue("100") == 100 by {
      assert "100"[..2] == "10" && "10"[..1] == "1" && "1"[..0] == "";
    }
    ItosCanonical("100");
    assert HandlerOf(PREF_BT_MAX_PEERS) == Some(Number);
  }

  /** "300K" is 307200 bytes, stored back as "307200". */
  lemma ThreeHundredKilo()
    ensures GetRealSize("300K") == Some(307200) && Itos(307200) == "307200"
  {
    assert "300" + "K" == "300K";
    SuffixScales("300");
    assert DigitsValue("300") == 300 by {
      assert "300"[..2] == "30" && "30"[..1] == "3" && "3"[..0] == "";
    }
    assert DigitsValue("307200") == 307200 by {
      assert "307200"[..5] == "30720" && "30720"[..4] == "3072" && "3072"[..3] == "307";
      assert "307"[..2] == "30" && "30"[..1] == "3" && "3"[..0] == "";
    }
    ItosCanonical("307200");
  }

  /** The peer speed limit "300K" is stored as "307200". */
  lemma PeerSpeedText()
    ensures Normalize(PREF_BT_REQUEST_PEER_SPEED_LIMIT, Str("300K")) == Some("307200")
  {
    ThreeHundredKilo();
    assert HandlerOf(PREF_BT_REQUEST_PEER_SPEED_LIMIT) == Some(UnitNumber);
  }

  /** A fresh engine holding one fixture group, which took GID 1 from the counter. */
  function OneQueued(option: map<string, string>, version: string, features: seq<string>): (s: EngineView)
    ensures Coherent(s) && GidsOf(s.waiting) == [1] && s.nextGid == 2
  {
    var s0 := Initial(option, version, features);
    s0.(waiting := [Queued(s0, 1)], nextGid := 2)
  }

  /** The option struct of the changeOption scenario, in ascending key order. */
  function OptionChange(): seq<(string, Value)> {
    [(PREF_BT_MAX_PEERS, Str("100")), (PREF_BT_REQUEST_PEER_SPEED_LIMIT, Str("300K")),
     (PREF_MAX_DOWNLOAD_LIMIT, Str("100K")), (PREF_MAX_UPLOAD_LIMIT, Str("50K"))]
  }

  /** The overlay the changeOption struct gathers into. */
  function OptionChangeOverlay(): map<string, string> {
    map[PREF_BT_MAX_PEERS := "100", PREF_BT_REQUEST_PEER_SPEED_LIMIT := "307200",
        PREF_MAX_DOWNLOAD_LIMIT := "102400", PREF_MAX_UPLOAD_LIMIT := "51200"]
  }

  /** The two BitTorrent members are accepted as "100" and "307200". */
  lemma OptionChangeHead()
    ensures Gathered(OptionChange()[..2], CHANGEABLE_OPTIONS)
         == Ok(map[PREF_BT_MAX_PEERS := "100", PREF_BT_REQUEST_PEER_SPEED_LIMIT := "307200"])
  {
    var es := OptionChange();
    PeerCountText();
    PeerSpeedText();
    assert es[..2][..1] == es[..1];
    assert es[..1][..0] == [];
  }

  /** The four members are each accepted and stored in their decimal forms. */
  lemma OptionChangeGathered()
    ensures Gathered(OptionChange(), CHANGEABLE_OPTIONS) == Ok(OptionChangeOverlay())
  {
    var es := OptionChange();
    OptionChangeHead();
    HundredKilo();
    FiftyKilo();
    assert Normalize(PREF_MAX_DOWNLOAD_LIMIT, Str("100K")) == Some("102400") by {
      assert HandlerOf(PREF_MAX_DOWNLOAD_LIMIT) == Some(UnitNumber);
    }
    assert Normalize(PREF_MAX_UPLOAD_LIMIT, Str("50K")) == Some("51200") by {
      assert HandlerOf(PREF_MAX_UPLOAD_LIMIT) == Some(UnitNumber);
    }
    assert es[..3][..2] == es[..2];
    assert es[..4] == es;
    assert Gathered(es[..3], CHANGEABLE_OPTIONS)
        == Ok(map[PREF_BT_MAX_PEERS := "100", PREF_BT_REQUEST_PEER_SPEED_LIMIT := "307200",
                  PREF_MAX_DOWNLOAD_LIMIT := "102400"]);
  }

  /** The stored texts of the overlay, one per member. */
  lemma OptionChangeTexts()
    ensures var m := OptionChangeOverlay();
      && m[PREF_BT_MAX_PEERS] == "100"
      && m[PREF_BT_REQUEST_PEER_SPEED_LIMIT] == "307200"
      && m[PREF_MAX_DOWNLOAD_LIMIT] == "102400"
      && m[PREF_MAX_UPLOAD_LIMIT] == "51200"
  {
    assert PREF_BT_MAX_PEERS[3] != PREF_BT_REQUEST_PEER_SPEED_LIMIT[3];
    assert PREF_BT_MAX_PEERS[0] != PREF_MAX_DOWNLOAD_LIMIT[0];
    assert PREF_BT_MAX_PEERS[0] != PREF_MAX_UPLOAD_LIMIT[0];
    assert PREF_BT_REQUEST_PEER_SPEED_LIMIT[0] != PREF_MAX_DOWNLOAD_LIMIT[0];
    assert PREF_BT_REQUEST_PEER_SPEED_LIMIT[0] != PREF_MAX_UPLOAD_LIMIT[0];
    assert PREF_MAX_DOWNLOAD_LIMIT[4] != PREF_MAX_UPLOAD_LIMIT[4];
  }

  /** Any download taking the overlay gets caps of 100 KiB and 50 KiB and the four decimal texts. */
  lemma OptionChangeTakesEffect(g: GroupView)
    ensures var h := ApplyChangeable(g, OptionChangeOverlay());
      && h.downloadCap == 100 * 1024 && h.uploadCap == 50 * 1024
      && PREF_MAX_DOWNLOAD_LIMIT in h.options && h.options[PREF_MAX_DOWNLOAD_LIMIT] == "102400"
      && PREF_BT_REQUEST_PEER_SPEED_LIMIT in h.options && h.options[PREF_BT_REQUEST_PEER_SPEED_LIMIT] == "307200"
      && PREF_BT_MAX_PEERS in h.options && h.options[PREF_BT_MAX_PEERS] == "100"
      && PREF_MAX_UPLOAD_LIMIT in h.options && h.options[PREF_MAX_UPLOAD_LIMIT] == "51200"
  {
    var m := OptionChangeOverlay();
    OptionChangeTexts();
    HundredKilo();
    FiftyKilo();
    StoredSizeRoundTrip(102400);
    StoredSizeRoundTrip(51200);
    assert GetRealSize(m[PREF_MAX_DOWNLOAD_LIMIT]) == Some(102400);
    assert GetRealSize(m[PREF_MAX_UPLOAD_LIMIT]) == Some(51200);
  }

  /** changeOption "1" with the struct applies the whole overlay to the one waiting download. */
  lemma ChangeOptionApplies(option: map<string, string>, version: string, features: seq<string>)
    ensures var s := OneQueued(option, version, features);
      var o := ChangeOption(s, [Str("1"), Dict(OptionChange())]);
      o.response == Success(Null) && o.state.waiting == [ApplyChangeable(s.waiting[0], OptionChangeOverlay())]
  {
    OptionChangeGathered();
    var s := OneQueued(option, version, features);
    assert ParseUInt("1") == Some(1) by {
      assert "1"[..0] == "";
    }
    assert IndexOf(GidsOf(s.waiting), 1) == Some(0);
  }

  /**
   * changeOption on the one waiting download stores "100", "307200", "102400" and
   * "51200", and sets its download cap to 100 KiB and its upload cap to 50 KiB.
   */
  lemma ChangeOptionSizes(option: map<string, string>, version: string, features: seq<string>)
    ensures var o := ChangeOption(OneQueued(option, version, features), [Str("1"), Dict(OptionChange())]);
      && o.response == Success(Null)
      && |o.state.waiting| == 1
      && var g := o.state.waiting[0];
      && g.downloadCap == 100 * 1024
      && PREF_MAX_DOWNLOAD_LIMIT in g.options && g.options[PREF_MAX_DOWNLOAD_LIMIT] == "102400"
      && PREF_BT_REQUEST_PEER_SPEED_LIMIT in g.options && g.options[PREF_BT_REQUEST_PEER_SPEED_LIMIT] == "307200"
      && PREF_BT_MAX_PEERS in g.options && g.options[PREF_BT_MAX_PEERS] == "100"
      && g.uploadCap == 50 * 1024
      && PREF_MAX_UPLOAD_LIMIT in g.options && g.options[PREF_MAX_UPLOAD_LIMIT] == "51200"
  {
    ChangeOptionApplies(option, version, features);
    OptionChangeTakesEffect(OneQueued(option, version, features).waiting[0]);
  }

  /** changeOption refuses the malformed size "badvalue" and changes nothing. */
  lemma ChangeOptionBadValue(option: map<string, string>, version: string, features: seq<string>)
    ensures var s := OneQueued(option, version, features);
      var o := ChangeOption(s, [Str("1"), Dict([(PREF_MAX_DOWNLOAD_LIMIT, Str("badvalue"))])]);
      o.response.code == 1 && o.state == s
  {
    var s := OneQueued(option, version, features);
    RejectsNonDigit("badvalue", 0);
    assert !Acceptable((PREF_MAX_DOWNLOAD_LIMIT, Str("badvalue")), CHANGEABLE_OPTIONS);
    ChangeOptionOutcome(s, [Str("1"), Dict([(PREF_MAX_DOWNLOAD_LIMIT, Str("badvalue"))])]);
  }

  /** changeOption refuses the global-only option max-overall-download-limit and changes nothing. */
  lemma ChangeOptionNotAllowed(option: map<string, string>, version: string, features: seq<string>)
    ensures var s := OneQueued(option, version, features);
      var o := ChangeOption(s, [Str("1"), Dict([(PREF_MAX_OVERALL_DOWNLOAD_LIMIT, Str("100K"))])]);
      o.response.code == 1 && o.state == s
  {
    var s := OneQueued(option, version, features);
    ContextsDisjoint();
    ChangeOptionOutcome(s, [Str("1"), Dict([(PREF_MAX_OVERALL_DOWNLOAD_LIMIT, Str("100K"))])]);
  }


  /** changeGlobalOption "100K"/"50K" sets the overall caps to 100 KiB and 50 KiB and stores the decimal texts. */
  lemma ChangeGlobalOptionSizes(option: map<string, string>, version: string, features: seq<string>)
    ensures var o := ChangeGlobalOption(Initial(option, version, features),
        [Dict([(PREF_MAX_OVERALL_DOWNLOAD_LIMIT, Str("100K")), (PREF_MAX_OVERALL_UPLOAD_LIMIT, Str("50K"))])]);
      && o.response == Success(Null)
      && o.state.overallDownloadCap == 100 * 1024
      && o.state.option[PREF_MAX_OVERALL_DOWNLOAD_LIMIT] == "102400"
      && o.state.overallUploadCap == 50 * 1024
      && o.state.option[PREF_MAX_OVERALL_UPLOAD_LIMIT] == "51200"
  {
    HundredKilo();
    FiftyKilo();
    StoredSizeRoundTrip(102400);
    StoredSizeRoundTrip(51200);
    var entries := [(PREF_MAX_OVERALL_DOWNLOAD_LIMIT, Str("100K")), (PREF_MAX_OVERALL_UPLOAD_LIMIT, Str("50K"))];
    assert PREF_MAX_OVERALL_DOWNLOAD_LIMIT != PREF_MAX_OVERALL_UPLOAD_LIMIT by {
      assert PREF_MAX_OVERALL_DOWNLOAD_LIMIT[12] != PREF_MAX_OVERALL_UPLOAD_LIMIT[12];
    }
    assert entries[..1] == [entries[0]] && entries[..1][..0] == [];
    assert HandlerOf(PREF_MAX_OVERALL_DOWNLOAD_LIMIT) == Some(UnitNumber);
    assert HandlerOf(PREF_MAX_OVERALL_UPLOAD_LIMIT) == Some(UnitNumber);
    assert Normalize(PREF_MAX_OVERALL_DOWNLOAD_LIMIT, Str("100K")) == Some("102400");
    assert Normalize(PREF_MAX_OVERALL_UPLOAD_LIMIT, Str("50K")) == Some("51200");
    assert Gathered(entries[..1], GLOBAL_CHANGEABLE_OPTIONS) == Ok(map[PREF_MAX_OVERALL_DOWNLOAD_LIMIT := "102400"]);
    var overlay := map[PREF_MAX_OVERALL_DOWNLOAD_LIMIT := "102400", PREF_MAX_OVERALL_UPLOAD_LIMIT := "51200"];
    assert Gathered(entries, GLOBAL_CHANGEABLE_OPTIONS) == Ok(overlay);
  }

  /** changeGlobalOption refuses the malformed size "badvalue" and changes nothing. */
  lemma ChangeGlobalOptionBadValue(s: EngineView)
    ensures var o := ChangeGlobalOption(s, [Dict([(PREF_MAX_OVERALL_DOWNLOAD_LIMIT, Str("badvalue"))])]);
      o.response.code == 1 && o.state == s
  {
    RejectsNonDigit("badvalue", 0);
    ChangeGlobalOptionOutcome(s, [Dict([(PREF_MAX_OVERALL_DOWNLOAD_LIMIT, Str("badvalue"))])]);
  }

  /** changeGlobalOption refuses the per-download option max-download-limit and changes nothing. */
  lemma ChangeGlobalOptionNotAllowed(s: EngineView)
    ensures var o := ChangeGlobalOption(s, [Dict([(PREF_MAX_DOWNLOAD_LIMIT, Str("100K"))])]);
      o.response.code == 1 && o.state == s
  {
    ContextsDisjoint();
    ChangeGlobalOptionOutcome(s, [Dict([(PREF_MAX_DOWNLOAD_LIMIT, Str("100K"))])]);
  }


  /** addUri with one valid URI and nothing else admits exactly that URI, at the tail. */
  lemma AddOneAdmits(s: EngineView, uri: string)
    requires IsUri(uri)
    ensures AddUri(s, AddOne(uri)) == Admit(s, AddUriRequest([uri], map[], None))
  {
    assert StringsOf([Str(uri)]) == [uri];
    assert UriFilter([uri]) == [uri];
  }

  /** A fresh engine after addUri of "http://1/", "http://2/" and "http://3/". */
  function ThreeAdded(option: map<string, string>, version: string, features: seq<string>): EngineView {
    var s1 := AddUri(Initial(option, version, features), AddOne("http://1/")).state;
    var s2 := AddUri(s1, AddOne("http://2/")).state;
    AddUri(s2, AddOne("http://3/")).state
  }

  lemma ThreeAddedQueue(option: map<string, string>, version: string, features: seq<string>)
    ensures GidsOf(ThreeAdded(option, version, features).waiting) == [1, 2, 3]
  {
    var s0 := Initial(option, version, features);
    assert IsUri("http://1/") && IsUri("http://2/") && IsUri("http://3/");
    AddOneAdmits(s0, "http://1/");
    var s1 := AddUri(s0, AddOne("http://1/")).state;
    AddOneAdmits(s1, "http://2/");
    var s2 := AddUri(s1, AddOne("http://2/")).state;
    AddOneAdmits(s2, "http://3/");
  }

  /**
   * tellWaiting(1, 2) over three waiting downloads answers GIDs "2" and "3";
   * tellWaiting(1, 4) is clamped to the two downloads after the first.
   */
  lemma TellWaitingWindow(option: map<string, string>, version: string, features: seq<string>)
    ensures var o := TellWaiting(ThreeAdded(option, version, features), [Int(1), Int(2)]);
      && o.response.code == 0 && o.response.param.List? && |o.response.param.items| == 2
      && o.response.param.items[0].Dict? && Lookup(o.response.param.items[0].entries, "gid") == Some(Str("2"))
      && o.response.param.items[1].Dict? && Lookup(o.response.param.items[1].entries, "gid") == Some(Str("3"))
    ensures var o := TellWaiting(ThreeAdded(option, version, features), [Int(1), Int(4)]);
      o.response.code == 0 && o.response.param.List? && |o.response.param.items| == 2
  {
    var s := ThreeAdded(option, version, features);
    ThreeAddedQueue(option, version, features);
    TellWaitingOutcome(s, 1, 2);
    TellWaitingOutcome(s, 1, 4);
    assert s.waiting[1].gid == 2 && s.waiting[2].gid == 3;
    assert Itos(2) == "2" && Itos(3) == "3";
  }

  /** changePosition("1", 1, POS_SET) on the queue [1, 2] answers 1 and leaves GID 1 at index 1. */
  lemma ChangePositionSwaps(option: map<string, string>, version: string, features: seq<string>)
    ensures var o := ChangePosition(TwoQueued(option, version, features), [Str("1"), Int(1), Str("POS_SET")]);
      && o.response == Success(Int(1))
      && GidsOf(o.state.waiting) == [2, 1]
  {
    var s := TwoQueued(option, version, features);
    assert ParseUInt("1") == Some(1) by {
      assert "1"[..0] == "";
    }
    assert ParseOrigin("POS_SET") == Some(PosSet);
    assert DecodeChangePosition([Str("1"), Int(1), Str("POS_SET")]) == Ok(PositionRequest("1", 1, 1, PosSet));
    assert IndexOf(GidsOf(s.waiting), 1) == Some(0);
    assert Target(0, 2, 1, PosSet) == 1;
    var w := Moved(s.waiting, 0, 1);
    MovedAt(s.waiting, 0, 1, 0);
    MovedAt(s.waiting, 0, 1, 1);
    assert GidsOf(w) == [w[0].gid, w[1].gid];
  }

  /** changeOption without a GID is refused and changes nothing. */
  lemma ChangeOptionWithoutGid(s: EngineView)
    ensures ChangeOption(s, []).response.code == 1 && ChangeOption(s, []).state == s
  {
  }

  /** changePosition without parameters, or with an unknown origin keyword, is refused. */
  lemma ChangePositionRefusals(s: EngineView)
    ensures ChangePosition(s, []).response.code == 1
    ensures ChangePosition(s, [Str("1"), Int(2), Str("bad keyword")]).response.code == 1
  {
    assert ParseOrigin("bad keyword") == None by {
      assert "bad keyword"[0] == 'b';
    }
  }

  /** tellStatus without a GID is refused. */
  lemma TellStatusWithoutGid(s: EngineView)
    ensures TellStatus(s, []).response.code == 1
  {
  }

  /** tellWaiting without its offset and count is refused. */
  lemma TellWaitingWithoutParams(s: EngineView)
    ensures TellWaiting(s, []).response.code == 1
  {
  }

  /** system.multicall without its descriptor list fails as a whole. */
  lemma MulticallWithoutParams(s: EngineView)
    ensures Dispatch(s, MULTICALL, []).response.code == 1 && Dispatch(s, MULTICALL, []).state == s
  {
  }

  /** An unknown method name answers the fault "No such method: make.hamburger". */
  lemma HamburgerFault(s: EngineView)
    ensures var o := Dispatch(s, "make.hamburger", []);
      && o.response.code == 1 && o.state == s
      && FaultString(o.response.param) == Some("No such method: make.hamburger")
  {
    assert "make.hamburger" !in SINGLE_METHODS && "make.hamburger" != MULTICALL by {
      assert "make.hamburger"[0] == 'm';
    }
    UnknownMethodFaults(s, "make.hamburger", []);
    assert "No such method: " + "make.hamburger" == "No such method: make.hamburger";
  }

  /** A multicall descriptor: a struct with the method name and, when given, the parameter list. */
  function Call(name: string, params: Option<seq<Value>>): Value {
    match params
    case None => Dict([(KEY_METHOD_NAME, Str(name))])
    case Some(ps) => Dict([(KEY_METHOD_NAME, Str(name)), (KEY_PARAMS, List(ps))])
  }

  /** The seven descriptors of the multicall scenario. */
  function MixedBatch(): seq<Value> {
    [Call(ADD_URI, Some(AddOne("http://localhost/0"))),
     Call(ADD_URI, Some(AddOne("http://localhost/1"))),
     Call("not exists", Some([])),
     Str("not struct"),
     Call(MULTICALL, Some([])),
     Call(GET_VERSION, None),
     Call(GET_VERSION, Some([]))]
  }

  /** A descriptor that names a method and a parameter list runs that method. */
  lemma CallDecodes(name: string, ps: seq<Value>)
    requires name != MULTICALL
    ensures DecodeCall(Call(name, Some(ps))) == Ok((name, ps))
  {
    var entries := [(KEY_METHOD_NAME, Str(name)), (KEY_PARAMS, List(ps))];
    assert KEY_METHOD_NAME != KEY_PARAMS by {
      assert KEY_METHOD_NAME[0] != KEY_PARAMS[0];
    }
    assert entries[1..] == [(KEY_PARAMS, List(ps))];
    assert Lookup(entries, KEY_METHOD_NAME) == Some(Str(name));
    assert Lookup(entries, KEY_PARAMS) == Some(List(ps));
  }

  /** An addUri descriptor in a batch admits its URI and fills its slot with the new GID. */
  lemma AddUriSlot(t: EngineView, uri: string)
    requires IsUri(uri)
    ensures RunOne(t, Call(ADD_URI, Some(AddOne(uri))))
         == Step(Admit(t, AddUriRequest([uri], map[], None)).state, List([Str(Itos(t.nextGid))]))
  {
    assert ADD_URI != MULTICALL;
    CallDecodes(ADD_URI, AddOne(uri));
    AddOneAdmits(t, uri);
  }

  /** Descriptors 2 to 5 of the batch earn a fault whatever the state. */
  lemma MixedBatchFaults(t: EngineView, k: nat)
    requires 2 <= k < 6
    ensures IsFault(RunOne(t, MixedBatch()[k]).slot)
  {
    var ds := MixedBatch();
    if k == 2 {
      assert "not exists" !in SINGLE_METHODS && "not exists" != MULTICALL by {
        assert "not exists"[0] == 'n';
      }
      CallDecodes("not exists", []);
      FaultShape("No such method: not exists");
    } else {
      MalformedDescriptorFaults(t, ds[k]);
    }
  }

  /** The last descriptor of the batch, getVersion with an empty list, succeeds. */
  lemma MixedBatchVersion(t: EngineView)
    ensures RunOne(t, MixedBatch()[6]).slot.List?
  {
    CallDecodes(GET_VERSION, []);
  }

  /** An addUri descriptor's slot in a batch holds the GID the counter had when it ran. */
  lemma AddUriSlotAt(s: EngineView, ds: seq<Value>, k: nat, uri: string)
    requires k < |ds| && ds[k] == Call(ADD_URI, Some(AddOne(uri))) && IsUri(uri)
    ensures RunAll(s, ds).slots[k] == List([Str(Itos(RunAll(s, ds[..k]).state.nextGid))])
  {
    FoldSlot(RunOne, s, ds, k);
    AddUriSlot(RunAll(s, ds[..k]).state, uri);
  }

  /** On an engine whose counter is at 1, the first addUri slot holds GID "1". */
  lemma MixedBatchFirst(s: EngineView)
    requires s.nextGid == 1
    ensures RunAll(s, MixedBatch()).slots[0] == List([Str("1")])
  {
    var ds := MixedBatch();
    assert IsUri("http://localhost/0");
    AddUriSlotAt(s, ds, 0, "http://localhost/0");
    assert ds[..0] == [];
    assert Itos(1) == "1";
  }

  /** The first descriptor of the batch advances the GID counter by one. */
  lemma MixedBatchFirstState(s: EngineView)
    ensures RunAll(s, MixedBatch()[..1]).state.nextGid == s.nextGid + 1
  {
    var ds := MixedBatch();
    assert IsUri("http://localhost/0");
    AddUriSlot(s, "http://localhost/0");
    assert ds[..1] == [ds[0]] && ds[..1][..0] == [];
  }

  /** On an engine whose counter is at 1, the second addUri slot holds GID "2". */
  lemma MixedBatchSecond(s: EngineView)
    requires s.nextGid == 1
    ensures RunAll(s, MixedBatch()).slots[1] == List([Str("2")])
  {
    var ds := MixedBatch();
    assert IsUri("http://localhost/1");
    AddUriSlotAt(s, ds, 1, "http://localhost/1");
    MixedBatchFirstState(s);
    assert Itos(2) == "2";
  }

  /** The other slots: four faults, then getVersion's answer. */
  lemma MixedBatchTail(s: EngineView)
    ensures forall k :: 2 <= k < 6 ==> IsFault(RunAll(s, MixedBatch()).slots[k])
    ensures RunAll(s, MixedBatch()).slots[6].List?
  {
    var ds := MixedBatch();
    forall k | 2 <= k < 6
      ensures IsFault(RunAll(s, ds).slots[k])
    {
      FoldSlot(RunOne, s, ds, k);
      MixedBatchFaults(RunAll(s, ds[..k]).state, k);
    }
    FoldSlot(RunOne, s, ds, 6);
    MixedBatchVersion(RunAll(s, ds[..6]).state);
  }

  /**
   * system.multicall over the mixed batch on a fresh engine: the two addUri calls
   * answer GIDs "1" and "2", the unknown name, the non-struct, the nested
   * multicall and the descriptor without params get faults, and getVersion runs.
   */
  lemma MixedMulticall(option: map<string, string>, version: string, features: seq<string>)
    ensures var o := Dispatch(Initial(option, version, features), MULTICALL, [List(MixedBatch())]);
      && o.response.code == 0 && o.response.param.List? && |o.response.param.items| == 7
      && o.response.param.items[0] == List([Str("1")])
      && o.response.param.items[1] == List([Str("2")])
      && (forall k :: 2 <= k < 6 ==> IsFault(o.response.param.items[k]))
      && o.response.param.items[6].List?
  {
    var s := Initial(option, version, features);
    MixedBatchFirst(s);
    MixedBatchSecond(s);
    MixedBatchTail(s);
  }
}
