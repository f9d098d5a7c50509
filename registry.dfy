/**
 * Downloads (request groups) and the request group manager that owns the
 * waiting queue, the GID counter and the overall speed caps. Objects are
 * updated in place; View()/Waiting() give their observable values.
 */
module Registry {
  import opened Wrappers
  import Util
  import opened OptionHandlers
  import opened ReservedQueue
  import opened XmlRpcSemantics

  class RequestGroup {
    const gid: nat
    const uris: seq<string>
    var options: map<string, string>
    var maxDownloadSpeedLimit: nat
    var maxUploadSpeedLimit: nat

    function View(): GroupView
      reads this
    {
      GroupView(gid, uris, options, maxDownloadSpeedLimit, maxUploadSpeedLimit)
    }

    /** A group over `uris` with its own copy of `options`; the caps are read from the options. */
    constructor (gid: nat, uris: seq<string>, options: map<string, string>)
      ensures View() == NewGroupView(gid, uris, options)
    {
      this.gid := gid;
      this.uris := uris;
      this.options := options;
      maxDownloadSpeedLimit := CapOf(options, PREF_MAX_DOWNLOAD_LIMIT);
      maxUploadSpeedLimit := CapOf(options, PREF_MAX_UPLOAD_LIMIT);
    }

    /** Stores a gathered overlay and applies the speed caps it names. */
    method ApplyChangeableOption(overlay: map<string, string>)
      modifies this
      ensures View() == ApplyChangeable(old(View()), overlay)
    {
      options := options + overlay;
      if PREF_MAX_DOWNLOAD_LIMIT in overlay {
        maxDownloadSpeedLimit := CapOf(overlay, PREF_MAX_DOWNLOAD_LIMIT);
      }
      if PREF_MAX_UPLOAD_LIMIT in overlay {
        maxUploadSpeedLimit := CapOf(overlay, PREF_MAX_UPLOAD_LIMIT);
      }
    }
  }

  /** The observable values of a sequence of groups. */
  function Views(gs: seq<RequestGroup>): (r: seq<GroupView>)
    reads set g | g in gs
    ensures |r| == |gs| && forall k :: 0 <= k < |gs| ==> r[k] == gs[k].View()
  {
    if gs == [] then [] else [gs[0].View()] + Views(gs[1..])
  }

  /**
   * The GIDs of a sequence of groups. A GID never changes, so unlike Views this
   * reads no heap; ViewGids ties it to GidsOf.
   */
  function GroupGids(gs: seq<RequestGroup>): (r: seq<nat>)
    ensures |r| == |gs| && forall k :: 0 <= k < |gs| ==> r[k] == gs[k].gid
  {
    if gs == [] then [] else [gs[0].gid] + GroupGids(gs[1..])
  }

  class RequestGroupMan {
    var reserved: seq<RequestGroup>
    var nextGid: nat
    var maxOverallDownloadSpeedLimit: nat
    var maxOverallUploadSpeedLimit: nat

    /** No group is queued twice. */
    ghost predicate Valid()
      reads this
    {
      Distinct(reserved)
    }

    function Groups(): set<RequestGroup>
      reads this
    {
      set g | g in reserved
    }

    function Waiting(): seq<GroupView>
      reads this, Groups()
    {
      Views(reserved)
    }

    /** An empty manager with the GID counter reset; overall caps are read from `option`. */
    constructor (option: map<string, string>)
      ensures Valid() && reserved == [] && nextGid == 1
      ensures maxOverallDownloadSpeedLimit == CapOf(option, PREF_MAX_OVERALL_DOWNLOAD_LIMIT)
      ensures maxOverallUploadSpeedLimit == CapOf(option, PREF_MAX_OVERALL_UPLOAD_LIMIT)
    {
      reserved := [];
      nextGid := 1;
      maxOverallDownloadSpeedLimit := CapOf(option, PREF_MAX_OVERALL_DOWNLOAD_LIMIT);
      maxOverallUploadSpeedLimit := CapOf(option, PREF_MAX_OVERALL_UPLOAD_LIMIT);
    }

    /** Creates a group that takes the next GID from the counter; the queue is untouched. */
    method NewGroup(uris: seq<string>, options: map<string, string>) returns (g: RequestGroup)
      modifies this
      ensures fresh(g) && g.View() == NewGroupView(old(nextGid), uris, options)
      ensures nextGid == old(nextGid) + 1 && reserved == old(reserved)
      ensures maxOverallDownloadSpeedLimit == old(maxOverallDownloadSpeedLimit)
      ensures maxOverallUploadSpeedLimit == old(maxOverallUploadSpeedLimit)
    {
      g := new RequestGroup(nextGid, uris, options);
      nextGid := nextGid + 1;
    }

    /** Appends a group at the tail of the waiting queue. */
    method AddReservedGroup(g: RequestGroup)
      requires Valid() && g !in reserved
      modifies this
      ensures Valid() && reserved == old(reserved) + [g]
      ensures Groups() == old(Groups()) + {g}
      ensures nextGid == old(nextGid)
      ensures maxOverallDownloadSpeedLimit == old(maxOverallDownloadSpeedLimit)
      ensures maxOverallUploadSpeedLimit == old(maxOverallUploadSpeedLimit)
    {
      reserved := reserved + [g];
    }

    /** Inserts a group before index `pos` of the waiting queue; past the end it is appended. */
    method InsertReservedGroup(pos: nat, g: RequestGroup)
      requires Valid() && g !in reserved
      modifies this
      ensures Valid() && reserved == InsertAt(old(reserved), pos, g)
      ensures Groups() == old(Groups()) + {g}
      ensures nextGid == old(nextGid)
      ensures maxOverallDownloadSpeedLimit == old(maxOverallDownloadSpeedLimit)
      ensures maxOverallUploadSpeedLimit == old(maxOverallUploadSpeedLimit)
    {
      var p := Min(pos, |reserved|);
      reserved := reserved[..p] + [g] + reserved[p..];
      assert reserved == InsertAt(old(reserved), pos, g);
      assert forall k :: 0 <= k < |reserved| ==> reserved[k] == g || reserved[k] in old(reserved);
      assert forall k :: 0 <= k < |reserved| && k != p ==> reserved[k] == old(reserved)[if k < p then k else k - 1];
    }

    /** The index of the first waiting group with this GID, scanning from the front. */
    method FindReservedIndex(gid: nat) returns (r: Option<nat>)
      ensures r == IndexOf(GroupGids(reserved), gid)
    {
      var i := 0;
      while i < |reserved|
        invariant 0 <= i <= |reserved|
        invariant forall j :: 0 <= j < i ==> reserved[j].gid != gid
      {
        if reserved[i].gid == gid {
          return Some(i);
        }
        i := i + 1;
      }
      return None;
    }

    /** The waiting group with this GID, or null. */
    method FindReservedGroup(gid: nat) returns (g: RequestGroup?)
      ensures IndexOf(GroupGids(reserved), gid).None? ==> g == null
      ensures IndexOf(GroupGids(reserved), gid).Some? ==> g == reserved[IndexOf(GroupGids(reserved), gid).value]
    {
      var i := FindReservedIndex(gid);
      g := if i.Some? then reserved[i.value] else null;
    }

    /**
     * Moves the group with this GID to the index the offset and origin designate,
     * clamped into the queue, and returns that index; an unknown GID is an error.
     */
    method ChangeReservedGroupPosition(gid: nat, offset: int, how: Origin) returns (r: Result<nat>)
      requires Valid()
      modifies this
      ensures Valid()
      ensures Groups() == old(Groups())
      ensures IndexOf(GroupGids(old(reserved)), gid).None? ==> r.Err? && reserved == old(reserved)
      ensures IndexOf(GroupGids(old(reserved)), gid).Some? ==>
        var i := IndexOf(GroupGids(old(reserved)), gid).value;
        && r == Ok(Target(i, |old(reserved)|, offset, how))
        && reserved == Moved(old(reserved), i, r.value)
      ensures nextGid == old(nextGid)
      ensures maxOverallDownloadSpeedLimit == old(maxOverallDownloadSpeedLimit)
      ensures maxOverallUploadSpeedLimit == old(maxOverallUploadSpeedLimit)
    {
      var found := FindReservedIndex(gid);
      if found.None? {
        return Err("GID#" + Util.Itos(gid) + " not found in the waiting queue.");
      }
      var i := found.value;
      var p := Target(i, |reserved|, offset, how);
      var moved := Moved(reserved, i, p);
      MovedDistinct(reserved, i, p);
      MovedMembers(reserved, i, p);
      reserved := moved;
      r := Ok(p);
    }

    method SetMaxOverallDownloadSpeedLimit(limit: nat)
      modifies this
      ensures maxOverallDownloadSpeedLimit == limit
      ensures reserved == old(reserved) && nextGid == old(nextGid)
      ensures maxOverallUploadSpeedLimit == old(maxOverallUploadSpeedLimit)
    {
      maxOverallDownloadSpeedLimit := limit;
    }

    method SetMaxOverallUploadSpeedLimit(limit: nat)
      modifies this
      ensures maxOverallUploadSpeedLimit == limit
      ensures reserved == old(reserved) && nextGid == old(nextGid)
      ensures maxOverallDownloadSpeedLimit == old(maxOverallDownloadSpeedLimit)
    {
      maxOverallUploadSpeedLimit := limit;
    }
  }

  /** The GIDs of the views are the GIDs of the groups. */
  lemma ViewGids(gs: seq<RequestGroup>)
    ensures GidsOf(Views(gs)) == GroupGids(gs)
  {
  }

  /** Views commute with the queue operations. */
  lemma ViewsAppend(gs: seq<RequestGroup>, g: RequestGroup)
    ensures Views(gs + [g]) == Views(gs) + [g.View()]
  {
  }

  lemma ViewsInsertAt(gs: seq<RequestGroup>, pos: nat, g: RequestGroup)
    ensures Views(InsertAt(gs, pos, g)) == InsertAt(Views(gs), pos, g.View())
  {
  }

  lemma ViewsMoved(gs: seq<RequestGroup>, i: nat, p: nat)
    requires i < |gs| && p < |gs|
    ensures Views(Moved(gs, i, p)) == Moved(Views(gs), i, p)
  {
    var l := Views(Moved(gs, i, p));
    var r := Moved(Views(gs), i, p);
    forall k | 0 <= k < |gs|
      ensures l[k] == r[k]
    {
      MovedAt(gs, i, p, k);
      MovedAt(Views(gs), i, p, k);
    }
  }
}
