/**
 * Option names, their value parsers, the per-context allow-lists, and the
 * gathering of a request's option struct into a validated overlay.
 */
module OptionHandlers {
  import opened Wrappers
  import opened Bde
  import opened Util

  const PREF_DIR := "dir"
  const PREF_FILE_ALLOCATION := "file-allocation"
  const PREF_MAX_DOWNLOAD_LIMIT := "max-download-limit"
  const PREF_MAX_UPLOAD_LIMIT := "max-upload-limit"
  const PREF_BT_MAX_PEERS := "bt-max-peers"
  const PREF_BT_REQUEST_PEER_SPEED_LIMIT := "bt-request-peer-speed-limit"
  const PREF_MAX_OVERALL_DOWNLOAD_LIMIT := "max-overall-download-limit"
  const PREF_MAX_OVERALL_UPLOAD_LIMIT := "max-overall-upload-limit"

  /** How an option's text is parsed and stored. */
  datatype Kind =
    | UnitNumber           // a byte count with optional K/M suffix, stored in decimal
    | Number               // a plain non-negative integer, stored in decimal
    | Parameter(choices: seq<string>)  // one of a fixed set of keywords, stored as given
    | Text                 // free text such as a directory, stored as given

  /** The option parser: the handler registered for a name, for the eight names the test suite uses. */
  function HandlerOf(name: string): Option<Kind> {
    if name == PREF_DIR then Some(Text)
    else if name == PREF_FILE_ALLOCATION then Some(Parameter(["none", "prealloc"]))
    else if name == PREF_BT_MAX_PEERS then Some(Number)
    else if name in {PREF_MAX_DOWNLOAD_LIMIT, PREF_MAX_UPLOAD_LIMIT, PREF_BT_REQUEST_PEER_SPEED_LIMIT,
                     PREF_MAX_OVERALL_DOWNLOAD_LIMIT, PREF_MAX_OVERALL_UPLOAD_LIMIT} then Some(UnitNumber)
    else None
  }

  /**
   * The options an add-download call may carry, restricted to those the test
   * suite names; any other option is refused.
   */
  const REQUEST_OPTIONS: set<string> :=
    {PREF_DIR, PREF_FILE_ALLOCATION, PREF_MAX_DOWNLOAD_LIMIT, PREF_MAX_UPLOAD_LIMIT,
     PREF_BT_MAX_PEERS, PREF_BT_REQUEST_PEER_SPEED_LIMIT}

  /** The options changeOption may change on one download, among those the test suite names. */
  const CHANGEABLE_OPTIONS: set<string> :=
    {PREF_MAX_DOWNLOAD_LIMIT, PREF_MAX_UPLOAD_LIMIT, PREF_BT_MAX_PEERS, PREF_BT_REQUEST_PEER_SPEED_LIMIT}

  /** The options changeGlobalOption may change, among those the test suite names. */
  const GLOBAL_CHANGEABLE_OPTIONS: set<string> :=
    {PREF_MAX_OVERALL_DOWNLOAD_LIMIT, PREF_MAX_OVERALL_UPLOAD_LIMIT}

  /** The text stored for a raw option value, or None when the value is malformed. */
  function ParseOptionValue(kind: Kind, raw: string): Option<string> {
    match kind
    case UnitNumber =>
      (match GetRealSize(raw) case Some(n) => Some(Itos(n)) case None => None)
    case Number =>
      (match ParseUInt(raw) case Some(n) => Some(Itos(n)) case None => None)
    case Parameter(choices) => if raw in choices then Some(raw) else None
    case Text => Some(raw)
  }

  /** The stored text for one struct member; non-string values and unknown names are malformed. */
  function Normalize(name: string, v: Value): Option<string> {
    match HandlerOf(name)
    case None => None
    case Some(kind) => if v.Str? then ParseOptionValue(kind, v.s) else None
  }

  predicate Acceptable(entry: (string, Value), allowed: set<string>) {
    entry.0 in allowed && Normalize(entry.0, entry.1).Some?
  }

  /**
   * The fault text for a member outside the allow-list. The test suite checks only the
   * fault code of such a refusal, so this wording is illustrative.
   */
  function NotAllowedMessage(name: string): string {
    name + " cannot be changed or unknown option."
  }

  /**
   * The fault text for a member whose value is malformed. The test suite checks only the
   * fault code of such a refusal, so this wording is illustrative.
   */
  function BadValueMessage(name: string): string {
    "We encountered a problem while processing the option '" + name + "'."
  }

  /** The complaint about an entry that is not acceptable. */
  function Complaint(entry: (string, Value), allowed: set<string>): string {
    if entry.0 !in allowed then NotAllowedMessage(entry.0) else BadValueMessage(entry.0)
  }

  /**
   * The overlay a struct of options produces in `allowed`'s context: entries are
   * taken in iteration order and the first unacceptable one rejects the whole struct.
   */
  function Gathered(entries: seq<(string, Value)>, allowed: set<string>): Result<map<string, string>>
    decreases |entries|
  {
    if entries == [] then Ok(map[])
    else
      var last := entries[|entries| - 1];
      match Gathered(entries[..|entries| - 1], allowed)
      case Err(m) => Err(m)
      case Ok(overlay) =>
        if !Acceptable(last, allowed) then Err(Complaint(last, allowed))
        else Ok(overlay[last.0 := Normalize(last.0, last.1).value])
  }

  /**
   * A struct is accepted exactly when every entry is allowed and well formed; the
   * overlay then holds exactly the struct's names.
   */
  lemma {:induction false} GatheredOkIff(entries: seq<(string, Value)>, allowed: set<string>)
    ensures Gathered(entries, allowed).Ok? <==> forall k :: 0 <= k < |entries| ==> Acceptable(entries[k], allowed)
    ensures Gathered(entries, allowed).Ok? ==>
      Gathered(entries, allowed).value.Keys == set k | 0 <= k < |entries| :: entries[k].0
    decreases |entries|
  {
    if entries != [] {
      var init := entries[..|entries| - 1];
      GatheredOkIff(init, allowed);
      assert forall k :: 0 <= k < |init| ==> init[k] == entries[k];
      if Gathered(entries, allowed).Ok? {
        var ks := set k | 0 <= k < |entries| :: entries[k].0;
        var ks' := set k | 0 <= k < |init| :: init[k].0;
        assert ks == ks' + {entries[|entries| - 1].0};
      }
    }
  }

  /**
   * Every value in an accepted overlay is the parsed form of the struct member it
   * came from (struct names are distinct).
   */
  lemma {:induction false} GatheredValues(entries: seq<(string, Value)>, allowed: set<string>, k: nat)
    requires k < |entries|
    requires forall i, j :: 0 <= i < j < |entries| ==> entries[i].0 != entries[j].0
    requires Gathered(entries, allowed).Ok?
    ensures entries[k].0 in Gathered(entries, allowed).value
    ensures Some(Gathered(entries, allowed).value[entries[k].0]) == Normalize(entries[k].0, entries[k].1)
    decreases |entries|
  {
    var init := entries[..|entries| - 1];
    if k < |entries| - 1 {
      GatheredValues(init, allowed, k);
    }
  }

  /**
   * A rejected struct is rejected because of its first unacceptable entry, and the
   * fault message names that entry.
   */
  lemma {:induction false} GatheredErrNamesFirst(entries: seq<(string, Value)>, allowed: set<string>)
    requires Gathered(entries, allowed).Err?
    ensures exists j :: && 0 <= j < |entries| && !Acceptable(entries[j], allowed)
                        && (forall k :: 0 <= k < j ==> Acceptable(entries[k], allowed))
                        && Gathered(entries, allowed).msg == Complaint(entries[j], allowed)
    decreases |entries|
  {
    var init := entries[..|entries| - 1];
    assert forall k :: 0 <= k < |init| ==> init[k] == entries[k];
    if Gathered(init, allowed).Err? {
      GatheredErrNamesFirst(init, allowed);
    } else {
      GatheredOkIff(init, allowed);
    }
  }

  /** Once a prefix of the struct is rejected, the whole struct is rejected the same way. */
  lemma {:induction false} RejectionPersists(entries: seq<(string, Value)>, allowed: set<string>, i: nat)
    requires i <= |entries|
    requires Gathered(entries[..i], allowed).Err?
    ensures Gathered(entries, allowed) == Gathered(entries[..i], allowed)
    decreases |entries| - i
  {
    if i < |entries| {
      assert entries[..i + 1][..i] == entries[..i];
      RejectionPersists(entries, allowed, i + 1);
    } else {
      assert entries[..i] == entries;
    }
  }

  /** Walks the struct in order, stopping at the first member that is refused. */
  method GatherOption(entries: seq<(string, Value)>, allowed: set<string>) returns (r: Result<map<string, string>>)
    ensures r == Gathered(entries, allowed)
  {
    var overlay: map<string, string> := map[];
    var i := 0;
    while i < |entries|
      invariant 0 <= i <= |entries|
      invariant Gathered(entries[..i], allowed) == Ok(overlay)
    {
      var (name, v) := entries[i];
      assert entries[..i + 1][..i] == entries[..i];
      if name !in allowed {
        RejectionPersists(entries, allowed, i + 1);
        return Err(NotAllowedMessage(name));
      }
      var stored := Normalize(name, v);
      if stored.None? {
        RejectionPersists(entries, allowed, i + 1);
        return Err(BadValueMessage(name));
      }
      overlay := overlay[name := stored.value];
      i := i + 1;
    }
    assert entries[..i] == entries;
    r := Ok(overlay);
  }

  /** The numeric value of a size-valued option in a store; absent or unreadable reads as 0. */
  function CapOf(store: map<string, string>, name: string): nat {
    if name in store then GetRealSize(store[name]).GetOr(0) else 0
  }

  /** Size-valued options are stored as the decimal byte count their text denotes. */
  lemma SizeOptionStored(name: string, raw: string)
    requires HandlerOf(name) == Some(UnitNumber)
    ensures Normalize(name, Str(raw)).Some? <==> GetRealSize(raw).Some?
    ensures GetRealSize(raw).Some? ==>
      Normalize(name, Str(raw)) == Some(Itos(GetRealSize(raw).value))
      && CapOf(map[name := Normalize(name, Str(raw)).value], name) == GetRealSize(raw).value
  {
    if GetRealSize(raw).Some? {
      StoredSizeRoundTrip(GetRealSize(raw).value);
    }
  }

  /** The contexts' allow-lists: per-download and global limits are disjoint. */
  lemma ContextsDisjoint()
    ensures CHANGEABLE_OPTIONS !! GLOBAL_CHANGEABLE_OPTIONS
    ensures PREF_MAX_OVERALL_DOWNLOAD_LIMIT !in CHANGEABLE_OPTIONS
    ensures PREF_MAX_DOWNLOAD_LIMIT !in GLOBAL_CHANGEABLE_OPTIONS
    ensures forall n :: n in REQUEST_OPTIONS + CHANGEABLE_OPTIONS + GLOBAL_CHANGEABLE_OPTIONS ==> HandlerOf(n).Some?
  {
  }
}
