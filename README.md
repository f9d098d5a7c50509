# aria2 XML-RPC method layer, modelled in Dafny

This project models the XML-RPC method layer of the aria2 download utility, as its
test suite establishes it. A request names a method and carries loosely typed
parameters (BDE values: integers, strings, lists and structs). The method layer:

- decodes those parameters;
- updates the download engine;
- answers either code 0 with a result, or code 1 with a fault struct
  `{faultCode: 1, faultString: <message>}`.

The model covers these methods:

- `aria2.addUri`
- `aria2.changeOption` and `aria2.changeGlobalOption`
- `aria2.tellStatus` and `aria2.tellWaiting`
- `aria2.changePosition`
- `aria2.getVersion`
- the unknown-method fallback
- `system.multicall`

It also covers the engine state they work on:

- the request group manager's reserved (waiting) queue;
- the GID counter that numbers new downloads 1, 2, 3, …;
- each download's option store and speed caps;
- the global option store and the overall speed caps.

Layout:

- `wrappers.dfy`: `Option` and `Result`.
- `bde.dfy`: the BDE value, struct lookup, the fault struct and the response.
- `util.dfy`: decimal rendering and parsing, and byte-size literals such as `"100K"`.
- `options.dfy`: option handlers and per-context allow-lists for the eight option
  names the test suite uses (see "## Left out"). It also
  gathers a request's option struct into a validated overlay, both as a function and
  as the loop that walks the struct.
- `queue.dfy`: positional insertion, repositioning from an origin (`POS_SET`,
  `POS_CUR`, `POS_END`), the tellWaiting window and lookup by GID.
- `semantics.dfy`: what every method does, as a function from the observable engine
  state and the parameters to the new state and the response. `system.multicall` is a
  left fold over its descriptors.
- `registry.dfy`: `RequestGroup` and `RequestGroupMan` as classes updated in place.
- `engine.dfy`: `DownloadEngine` and the handler methods. Each handler is proved to
  leave the engine in the state the semantics function gives, and to answer the same
  response.
- `properties.dfy`: what the methods promise:
  - every request keeps the engine invariant;
  - a failing call changes nothing;
  - per-method outcomes;
  - slot-by-slot behaviour of `system.multicall` and its fault isolation.
- `scenarios.dfy`: the concrete request sequences of the test suite, each with the
  answers and queue contents it asserts.

Behaviour the model follows where it could be read more than one way:

- **Multicall descriptor without `params`.** It gets a fault slot, as
  test/XmlRpcMethodTest.cc:749-754 and 769 assert. Some descriptions of
  `system.multicall` let a missing `params` default to an empty list; the model
  follows the code's test.
- **changePosition with an unknown origin keyword.** It is refused with code 1. The
  test builds such a call (lines 713-716) but never executes it, so this case follows
  the handler's documented contract.
- **`POS_END` target.** It is the queue length plus the offset, clamped into the queue.
- **tellWaiting.**
  - Fewer than two parameters, a non-integer or a negative value is refused.
  - A window running past the end is clamped.
  - The result has one status struct per waiting download, with its `gid` and
    `status`.
- **Struct member order.** A BDE struct is modelled as an association list, taken in
  the order it is given. The source keeps structs in an ordered map, so a real struct
  has distinct keys in ascending order. The scenarios follow that convention, but the
  `Dict` type itself allows any order and duplicate keys. Under the convention, the
  first refused member of an option struct is the one with the smallest name, and the
  fault names it. Which of several duplicate keys `Lookup` finds matters only inside
  the model.
- **changeOption and changeGlobalOption without a struct.** They change nothing and
  answer code 0.
- **addUri parameters.**
  - Non-string list members are skipped.
  - Strings that are not `http://`, `https://` or `ftp://` URIs are dropped.
  - A non-struct option parameter is ignored.
  - A non-integer position is ignored.

Build configurations: the test has a BitTorrent build and a build without
BitTorrent, and some scenarios assert different things in each.

- **changeOption and changeGlobalOption scenarios** (lines 378-419, 459-482) follow
  the BitTorrent build. That build sends the four-member struct with the upload limit,
  and the overall upload limit. Only the peer count pushed to the BitTorrent runtime
  (lines 393-396, 412) is not modelled.
- **tellWaiting scenario** (lines 567-611) follows the build without BitTorrent. That
  build queues three downloads added by addUri. The BitTorrent build also adds a
  torrent through addTorrent, which is not part of this model.

## Model

| member | source | states |
|---|---|---|
| Util.Itos | test/XmlRpcMethodTest.cc:583-584 | a GID is rendered as a non-empty digit string with no leading zero |
| Util.ItosRoundTrip | test/XmlRpcMethodTest.cc:762-765 | parsing the decimal text a GID is answered as gives back the GID |
| Util.ItosCanonical | test/XmlRpcMethodTest.cc:403-406 | a canonical digit string is exactly the rendering of the number it denotes |
| Util.StoredSizeRoundTrip | test/XmlRpcMethodTest.cc:403-406 | a size stored back in decimal reads as the same byte count, so cap and stored text agree |
| Util.SuffixScales | test/XmlRpcMethodTest.cc:387-391 | a `K` suffix multiplies the decimal part by 1024 and `M` by 1048576; other prefixes are refused |
| Util.RejectsNonDigit | test/XmlRpcMethodTest.cc:427-433 | a size text with a non-digit other than a trailing `K`/`M` (such as "badvalue") is malformed |
| Bde.Lookup | test/XmlRpcMethodTest.cc:766-769 | a struct lookup finds the first member with the key, and finds none exactly when no member has it |
| Bde.FaultShape | test/XmlRpcMethodTest.cc:511-513 | the fault struct carries faultCode 1 and the message as faultString |
| OptionHandlers.GatheredOkIff | test/XmlRpcMethodTest.cc:421-449 | an option struct is accepted exactly when every member is allowed in the context and well formed; the overlay then has exactly the struct's names |
| OptionHandlers.GatheredValues | test/XmlRpcMethodTest.cc:402-418 | each value of an accepted overlay is the parsed, normalised text of its member |
| OptionHandlers.GatheredErrNamesFirst | test/XmlRpcMethodTest.cc:436-449 | a refused struct is refused for its first unacceptable member, and the message names it |
| OptionHandlers.RejectionPersists | test/XmlRpcMethodTest.cc:421-434 | once a prefix of the struct is refused the whole struct is refused the same way |
| OptionHandlers.GatherOption | test/XmlRpcMethodTest.cc:384-400 | the loop over the struct returns exactly the gathered overlay or the first refusal |
| OptionHandlers.SizeOptionStored | test/XmlRpcMethodTest.cc:402-406 | a size option is accepted exactly when its text is a size; it is stored as the decimal byte count and its cap is that count |
| OptionHandlers.ContextsDisjoint | test/XmlRpcMethodTest.cc:436-504 | the per-download and global allow-lists are disjoint; every allowed name has a handler |
| ReservedQueue.InsertAt | test/XmlRpcMethodTest.cc:194-213 | inserting before a position puts the new element there (past the end: at the tail) and shifts the rest by one |
| ReservedQueue.RemoveAt | test/XmlRpcMethodTest.cc:194-213 | removing an index keeps the elements before it and shifts the later ones down |
| ReservedQueue.Target | test/XmlRpcMethodTest.cc:687-703 | the destination is the offset from the origin, clamped to the first or last index |
| ReservedQueue.Moved | test/XmlRpcMethodTest.cc:700-703 | after repositioning, the moved download sits at the destination index |
| ReservedQueue.MovedAt | test/XmlRpcMethodTest.cc:700-703 | each index after a move holds the element from a computed source index |
| ReservedQueue.MovedIsReorder | test/XmlRpcMethodTest.cc:687-703 | repositioning is a permutation that keeps all other downloads in their relative order |
| ReservedQueue.MovedDistinct | test/XmlRpcMethodTest.cc:687-703 | repositioning keeps a queue free of duplicates |
| ReservedQueue.MovedMembers | test/XmlRpcMethodTest.cc:687-703 | repositioning keeps the same members |
| ReservedQueue.Window | test/XmlRpcMethodTest.cc:567-611 | the window holds min(num, len - offset) elements from offset on, in queue order, and is empty past the end |
| ReservedQueue.IndexOf | test/XmlRpcMethodTest.cc:158 | lookup by GID finds the first index holding it, and none exactly when it is absent |
| XmlRpcSemantics.GidsOf | test/XmlRpcMethodTest.cc:703 | the GID list has one entry per waiting download, in queue order |
| XmlRpcSemantics.Statuses | test/XmlRpcMethodTest.cc:581-584 | tellWaiting's list has one status struct per download in the window, in order |
| XmlRpcSemantics.StringsOfMembers | test/XmlRpcMethodTest.cc:138-139 | the URI list's strings are exactly the string members of the parameter |
| XmlRpcSemantics.UriFilterMembers | test/XmlRpcMethodTest.cc:171-178 | exactly the valid URIs survive the filter |
| XmlRpcSemantics.FeatureList | test/XmlRpcMethodTest.cc:628-636 | getVersion lists the enabled features in order, one string each |
| XmlRpcSemantics.Fold | test/XmlRpcMethodTest.cc:762-763 | a batch yields exactly one slot per descriptor |
| XmlRpcProperties.Initial | test/XmlRpcMethodTest.cc:79-90 | the engine as set up has an empty queue, the counter at 1, and satisfies the invariant |
| XmlRpcProperties.ApplyChangeableCoherent | test/XmlRpcMethodTest.cc:402-418 | applying a changeOption overlay keeps a download's caps equal to its stored option texts |
| XmlRpcProperties.EnqueueAt | test/XmlRpcMethodTest.cc:194-213 | enqueueing puts the new download at the position (or the tail) and keeps the others in order around it |
| XmlRpcProperties.EnqueueCoherent | test/XmlRpcMethodTest.cc:135-160 | enqueueing a download that takes the counter's GID keeps GIDs distinct and below the counter |
| XmlRpcProperties.AddUriCoherent | test/XmlRpcMethodTest.cc:135-160 | addUri keeps the engine invariant |
| XmlRpcProperties.ChangeOptionCoherent | test/XmlRpcMethodTest.cc:378-419 | changeOption keeps the engine invariant |
| XmlRpcProperties.ChangeGlobalOptionCoherent | test/XmlRpcMethodTest.cc:459-482 | changeGlobalOption keeps the overall caps equal to the global option texts |
| XmlRpcProperties.MovedCoherent | test/XmlRpcMethodTest.cc:687-703 | repositioning keeps the engine invariant |
| XmlRpcProperties.ChangePositionCoherent | test/XmlRpcMethodTest.cc:687-703 | changePosition keeps the engine invariant |
| XmlRpcProperties.ExecuteCoherent | test/XmlRpcMethodTest.cc:506-513 | every method, including the unknown-method fallback, keeps the engine invariant |
| XmlRpcProperties.RunOneCoherent | test/XmlRpcMethodTest.cc:719-760 | running one multicall descriptor keeps the engine invariant |
| XmlRpcProperties.FoldCoherent | test/XmlRpcMethodTest.cc:761-770 | a batch keeps any invariant each of its steps keeps |
| XmlRpcProperties.RunAllCoherent | test/XmlRpcMethodTest.cc:761-770 | running all descriptors of a multicall keeps the engine invariant |
| XmlRpcProperties.DispatchCoherent | test/XmlRpcMethodTest.cc:719-779 | every request, batched or not, keeps the engine invariant |
| XmlRpcProperties.ExecuteAtomic | test/XmlRpcMethodTest.cc:163-226 | every method answers code 0 or 1, and code 1 comes with a fault struct and no change to the engine |
| XmlRpcProperties.MalformedDescriptorFaults | test/XmlRpcMethodTest.cc:740-754 | a descriptor that is not a struct, lacks methodName or params, or nests multicall gets a fault slot with its message and runs nothing |
| XmlRpcProperties.RunOneSlot | test/XmlRpcMethodTest.cc:762-770 | a slot is a one-element list holding the result when the sub-call succeeds, otherwise its fault struct, and a failed sub-call changes nothing |
| XmlRpcProperties.FoldSlot | test/XmlRpcMethodTest.cc:762-770 | slot k is what descriptor k yields in the state the earlier descriptors left |
| XmlRpcProperties.FoldSplit | test/XmlRpcMethodTest.cc:761-770 | running a batch in two pieces is running it whole |
| XmlRpcProperties.FaultIsolated | test/XmlRpcMethodTest.cc:764-770 | a failing descriptor neither rolls back, skips nor alters any other sub-call |
| XmlRpcProperties.MulticallShape | test/XmlRpcMethodTest.cc:773-779 | multicall fails as a whole exactly when its list parameter is missing or not a list, otherwise answers one slot per descriptor |
| XmlRpcProperties.NestedMulticallRejected | test/XmlRpcMethodTest.cc:743-748 | a nested system.multicall descriptor gets a fault slot and runs nothing |
| XmlRpcProperties.UnknownMethodFaults | test/XmlRpcMethodTest.cc:506-513 | an unknown name answers code 1 with faultString "No such method: " followed by the name, and changes nothing |
| XmlRpcProperties.AddUriOutcome | test/XmlRpcMethodTest.cc:135-160 | addUri succeeds exactly when its parameters decode; the new download gets the counter's GID, returned in decimal, holds a valid URI from the list, carries the global options overridden by the request's, and sits at the tail or the requested position; nothing else but the counter and the queue changes |
| XmlRpcProperties.UriFilterAllValid | test/XmlRpcMethodTest.cc:138-139 | when every member of the URI list is a valid URI, all of them are kept, in order |
| XmlRpcProperties.AddUriAccepts | test/XmlRpcMethodTest.cc:135-160 | a non-empty list of valid URIs with acceptable options and a non-negative position (if any) is accepted with code 0; the new download takes the counter's GID and holds exactly the given URIs in order, the first input URI first |
| XmlRpcProperties.GidAcceptedBack | test/XmlRpcMethodTest.cc:385 | the decimal text of any GID the server answers is accepted back as that GID by the handlers that take one |
| XmlRpcProperties.EnqueueRemove | test/XmlRpcMethodTest.cc:194-213 | removing the newly enqueued download gives back the old queue |
| XmlRpcProperties.AddUriRejections | test/XmlRpcMethodTest.cc:163-226 | no parameters, no valid URI, a refused option or a negative position answer code 1 and change nothing |
| XmlRpcProperties.DecodeAddUriRejects | test/XmlRpcMethodTest.cc:163-226 | the same four conditions make addUri's decoding fail |
| XmlRpcProperties.ChangeOptionOutcome | test/XmlRpcMethodTest.cc:378-449 | changeOption succeeds exactly for a parseable GID of a waiting download and an all-acceptable struct; it then changes that download only, and the counter, global options and overall caps stay as they were; else nothing changes |
| XmlRpcProperties.ChangeOptionWithoutStruct | test/XmlRpcMethodTest.cc:378-457 | changeOption without an options struct succeeds exactly for a parseable GID of a waiting download, and changes nothing either way |
| XmlRpcProperties.ChangeGlobalOptionWithoutStruct | test/XmlRpcMethodTest.cc:459-504 | changeGlobalOption without an options struct answers code 0 and changes nothing |
| XmlRpcProperties.ChangeGlobalOptionOutcome | test/XmlRpcMethodTest.cc:459-504 | changeGlobalOption succeeds exactly for an all-acceptable struct; it then applies the whole overlay to the global store and overall caps, else nothing |
| XmlRpcProperties.TellWaitingOutcome | test/XmlRpcMethodTest.cc:567-611 | tellWaiting answers the statuses of the window in queue order, clamped at the end, and changes nothing |
| XmlRpcProperties.ChangePositionOutcome | test/XmlRpcMethodTest.cc:687-716 | changePosition succeeds exactly for a parseable waiting GID and a known origin; it answers the clamped destination, which then holds that GID, and only reorders the queue: the counter, global options and overall caps stay as they were |
| Registry.RequestGroup.constructor | test/XmlRpcMethodTest.cc:380 | a new download's option store is its own copy, and its caps are read from it |
| Registry.RequestGroup.ApplyChangeableOption | test/XmlRpcMethodTest.cc:402-418 | the overlay is stored and the caps it names take effect |
| Registry.Views | test/XmlRpcMethodTest.cc:145-147 | the observable queue has one view per queued download, in order |
| Registry.GroupGids | test/XmlRpcMethodTest.cc:703 | the GIDs of the queued downloads, in order |
| Registry.RequestGroupMan.constructor | test/XmlRpcMethodTest.cc:81-89 | the manager starts with an empty queue and the GID counter reset to 1 |
| Registry.RequestGroupMan.NewGroup | test/XmlRpcMethodTest.cc:81 | a new download takes the counter's GID and the counter advances by one |
| Registry.RequestGroupMan.AddReservedGroup | test/XmlRpcMethodTest.cc:381 | a download is appended at the tail of the waiting queue |
| Registry.RequestGroupMan.InsertReservedGroup | test/XmlRpcMethodTest.cc:194-213 | a download is inserted before the given position, or appended past the end |
| Registry.RequestGroupMan.FindReservedIndex | test/XmlRpcMethodTest.cc:158 | the scan returns the first index holding the GID, or none |
| Registry.RequestGroupMan.FindReservedGroup | test/XmlRpcMethodTest.cc:158-159 | the waiting download with the GID, or null when none waits |
| Registry.RequestGroupMan.ChangeReservedGroupPosition | test/XmlRpcMethodTest.cc:687-703 | an unknown GID is an error with the queue unchanged; otherwise the download moves to the clamped destination, which is returned |
| Registry.RequestGroupMan.SetMaxOverallDownloadSpeedLimit | test/XmlRpcMethodTest.cc:472-473 | the overall download cap takes the new value; nothing else changes |
| Registry.RequestGroupMan.SetMaxOverallUploadSpeedLimit | test/XmlRpcMethodTest.cc:477-478 | the overall upload cap takes the new value; nothing else changes |
| Registry.ViewGids | test/XmlRpcMethodTest.cc:703 | the GIDs of the views are the GIDs of the downloads |
| Registry.ViewsAppend | test/XmlRpcMethodTest.cc:145-147 | appending a download appends its view |
| Registry.ViewsInsertAt | test/XmlRpcMethodTest.cc:194-213 | inserting a download inserts its view at the same position |
| Registry.ViewsMoved | test/XmlRpcMethodTest.cc:700-703 | moving a download moves its view the same way |
| XmlRpcMethods.DownloadEngine.constructor | test/XmlRpcMethodTest.cc:79-90 | the engine starts with a fresh manager: empty queue, counter 1, overall caps read from the global options |
| XmlRpcMethods.GatherParamMethod | test/XmlRpcMethodTest.cc:384-400 | an optional option struct is gathered in its context; a missing or non-struct parameter means no options |
| XmlRpcMethods.AddUriMethod | test/XmlRpcMethodTest.cc:135-160 | the handler leaves the engine and answers exactly as addUri's semantics says |
| XmlRpcMethods.AdmitMethod | test/XmlRpcMethodTest.cc:135-147 | a decoded request creates a download with the next GID, enqueues it and answers the GID |
| XmlRpcMethods.EnqueueGroup | test/XmlRpcMethodTest.cc:194-213 | the manager's queue becomes the old queue with the download at the tail or the given position |
| XmlRpcMethods.ChangeOptionMethod | test/XmlRpcMethodTest.cc:378-456 | the handler leaves the engine and answers exactly as changeOption's semantics says |
| XmlRpcMethods.ApplyToQueued | test/XmlRpcMethodTest.cc:402-418 | only the chosen waiting download takes the overlay; all others are unchanged |
| XmlRpcMethods.ChangeGlobalOptionMethod | test/XmlRpcMethodTest.cc:459-504 | the handler leaves the engine and answers exactly as changeGlobalOption's semantics says |
| XmlRpcMethods.ApplyGlobalMethod | test/XmlRpcMethodTest.cc:471-481 | the global store takes the overlay and the overall caps it names are pushed to the manager |
| XmlRpcMethods.TellStatusMethod | test/XmlRpcMethodTest.cc:536-542 | the handler answers exactly as tellStatus's semantics says |
| XmlRpcMethods.TellWaitingMethod | test/XmlRpcMethodTest.cc:567-619 | the loop over the window answers exactly as tellWaiting's semantics says |
| XmlRpcMethods.ChangePositionMethod | test/XmlRpcMethodTest.cc:687-716 | the handler leaves the engine and answers exactly as changePosition's semantics says |
| XmlRpcMethods.RepositionMethod | test/XmlRpcMethodTest.cc:687-703 | a decoded request moves the download in the manager's queue and answers its new index |
| XmlRpcMethods.GetVersionMethod | test/XmlRpcMethodTest.cc:621-638 | the answer carries the version and the enabled features in order |
| XmlRpcMethods.ExecuteMethod | test/XmlRpcMethodTest.cc:506-513 | dispatch by name, with unknown names going to the fallback, agrees with the semantics |
| XmlRpcMethods.MulticallMethod | test/XmlRpcMethodTest.cc:719-779 | the loop over the descriptors leaves the engine and answers exactly as the fold over them says |
| XmlRpcMethods.RunOneMethod | test/XmlRpcMethodTest.cc:761-770 | one descriptor is run and its slot built as the semantics says |
| XmlRpcMethods.DispatchMethod | test/XmlRpcMethodTest.cc:719-779 | a request, batched or not, is handled as the semantics says |
| XmlRpcScenarios.FirstAddUri | test/XmlRpcMethodTest.cc:135-149 | the first addUri on a fresh engine answers "1" and queues one download holding the URI |
| XmlRpcScenarios.AddUriAtFront | test/XmlRpcMethodTest.cc:194-214 | addUri with position 0 puts the new download ahead of the waiting one |
| XmlRpcScenarios.AddUriRefusals | test/XmlRpcMethodTest.cc:163-226 | no URI, "not uri", file-allocation "badvalue" and position -1 each answer code 1 |
| XmlRpcScenarios.TwoQueued | test/XmlRpcMethodTest.cc:687-692 | the two-download fixture satisfies the invariant and has GIDs 1 and 2 |
| XmlRpcScenarios.HundredKilo | test/XmlRpcMethodTest.cc:387-406 | "100K" is 102400 bytes, stored as "102400" |
| XmlRpcScenarios.FiftyKilo | test/XmlRpcMethodTest.cc:391-418 | "50K" is 51200 bytes, stored as "51200" |
| XmlRpcScenarios.PeerCountText | test/XmlRpcMethodTest.cc:389-411 | the peer count "100" is stored as "100" |
| XmlRpcScenarios.ThreeHundredKilo | test/XmlRpcMethodTest.cc:390-409 | "300K" is 307200 bytes, stored as "307200" |
| XmlRpcScenarios.PeerSpeedText | test/XmlRpcMethodTest.cc:390-409 | the peer speed limit "300K" is stored as "307200" |
| XmlRpcScenarios.OneQueued | test/XmlRpcMethodTest.cc:380-381 | the one-download fixture satisfies the invariant; its download has GID 1 and the counter is at 2 |
| XmlRpcScenarios.OptionChangeHead | test/XmlRpcMethodTest.cc:389-390 | the struct members bt-max-peers "100" and bt-request-peer-speed-limit "300K" gather to "100" and "307200" |
| XmlRpcScenarios.OptionChangeGathered | test/XmlRpcMethodTest.cc:387-391 | the four-member struct gathers to the overlay "100", "307200", "102400", "51200" |
| XmlRpcScenarios.OptionChangeTexts | test/XmlRpcMethodTest.cc:402-418 | the overlay holds each of the four stored texts under its own name |
| XmlRpcScenarios.OptionChangeTakesEffect | test/XmlRpcMethodTest.cc:402-418 | any download taking the overlay gets a 100 KiB download cap, a 50 KiB upload cap and the four stored texts |
| XmlRpcScenarios.ChangeOptionApplies | test/XmlRpcMethodTest.cc:378-399 | changeOption "1" with the struct answers code 0 and applies the whole overlay to the one waiting download |
| XmlRpcScenarios.ChangeOptionSizes | test/XmlRpcMethodTest.cc:378-419 | on one waiting download, changeOption answers code 0, sets the download cap to 100 KiB and the upload cap to 50 KiB, and stores "102400", "307200", "100" and "51200" |
| XmlRpcScenarios.ChangeOptionBadValue | test/XmlRpcMethodTest.cc:421-434 | on one waiting download, max-download-limit "badvalue" answers code 1 and changes nothing |
| XmlRpcScenarios.ChangeOptionNotAllowed | test/XmlRpcMethodTest.cc:436-449 | on one waiting download, max-overall-download-limit sent to changeOption answers code 1 and changes nothing |
| XmlRpcScenarios.ChangeOptionWithoutGid | test/XmlRpcMethodTest.cc:451-457 | changeOption without parameters answers code 1 |
| XmlRpcScenarios.ChangeGlobalOptionSizes | test/XmlRpcMethodTest.cc:459-482 | in the BitTorrent build, "100K"/"50K" set the overall caps to 100 KiB and 50 KiB and are stored as "102400"/"51200" |
| XmlRpcScenarios.ChangeGlobalOptionBadValue | test/XmlRpcMethodTest.cc:484-493 | max-overall-download-limit "badvalue" answers code 1 and changes nothing |
| XmlRpcScenarios.ChangeGlobalOptionNotAllowed | test/XmlRpcMethodTest.cc:495-504 | max-download-limit sent to changeGlobalOption answers code 1 and changes nothing |
| XmlRpcScenarios.AddOneAdmits | test/XmlRpcMethodTest.cc:544-552 | addUri with a single valid URI admits exactly that URI at the tail |
| XmlRpcScenarios.ThreeAddedQueue | test/XmlRpcMethodTest.cc:567-571 | three addUri calls on a fresh engine queue GIDs 1, 2, 3 |
| XmlRpcScenarios.TellWaitingWindow | test/XmlRpcMethodTest.cc:576-611 | tellWaiting(1, 2) answers GIDs "2" and "3"; tellWaiting(1, 4) is clamped to two entries, as in the build without BitTorrent |
| XmlRpcScenarios.TellWaitingWithoutParams | test/XmlRpcMethodTest.cc:613-619 | tellWaiting without parameters answers code 1 |
| XmlRpcScenarios.TellStatusWithoutGid | test/XmlRpcMethodTest.cc:536-542 | tellStatus without parameters answers code 1 |
| XmlRpcScenarios.ChangePositionSwaps | test/XmlRpcMethodTest.cc:687-704 | changePosition("1", 1, POS_SET) on [1, 2] answers 1 and leaves the queue [2, 1] |
| XmlRpcScenarios.ChangePositionRefusals | test/XmlRpcMethodTest.cc:706-716 | changePosition without parameters, or with "bad keyword", answers code 1 |
| XmlRpcScenarios.HamburgerFault | test/XmlRpcMethodTest.cc:506-513 | "make.hamburger" answers code 1 with faultString "No such method: make.hamburger" |
| XmlRpcScenarios.CallDecodes | test/XmlRpcMethodTest.cc:725-733 | a descriptor with methodName and params decodes to that call |
| XmlRpcScenarios.AddUriSlot | test/XmlRpcMethodTest.cc:725-733 | an addUri descriptor admits its URI and fills its slot with the new GID |
| XmlRpcScenarios.MixedBatchFaults | test/XmlRpcMethodTest.cc:734-754 | the unknown name, the non-struct, the nested multicall and the descriptor without params each get a fault slot |
| XmlRpcScenarios.MixedBatchVersion | test/XmlRpcMethodTest.cc:755-760 | getVersion with an empty params list fills its slot with a list |
| XmlRpcScenarios.AddUriSlotAt | test/XmlRpcMethodTest.cc:761-765 | an addUri descriptor's slot holds the GID the counter had when the descriptor ran |
| XmlRpcScenarios.MixedBatchFirst | test/XmlRpcMethodTest.cc:764 | on a fresh counter the first addUri slot holds "1" |
| XmlRpcScenarios.MixedBatchFirstState | test/XmlRpcMethodTest.cc:725-728 | the first descriptor advances the GID counter by one |
| XmlRpcScenarios.MixedBatchSecond | test/XmlRpcMethodTest.cc:765 | on a fresh counter the second addUri slot holds "2" |
| XmlRpcScenarios.MixedBatchTail | test/XmlRpcMethodTest.cc:766-770 | slots 2 to 5 are faults and slot 6 is a list |
| XmlRpcScenarios.MixedMulticall | test/XmlRpcMethodTest.cc:719-771 | the seven-descriptor multicall answers code 0 with seven slots: "1", "2", four faults, then a list |
| XmlRpcScenarios.MulticallWithoutParams | test/XmlRpcMethodTest.cc:773-779 | system.multicall without its list answers code 1 and changes nothing |

## Left out

- addTorrent and addMetalink (lines 229-376): torrent and metalink decoding and file
  loading are not part of this model.
- The BitTorrent runtime's peer-cap update (lines 393-412). changeOption stores
  `bt-max-peers` in the download's option store, but no BtRuntime object is modelled
  to receive the new value.
- The download directory: `dir` (lines 83, 152-159) is stored as an option text, but
  no download context or file path is derived from it.
- The status gatherers gatherStoppedDownload and gatherProgressCommon (lines 640-685),
  and the active and finished download collections they read. Only the waiting queue
  is modelled.
- XmlRpcSemantics.StatusOf: a status struct carries only `gid` and `status`, not the
  transfer statistics a full status struct has.
- XML serialisation of responses (`toXml`, lines 514-533): only the fault struct's
  content is modelled.
- getVersion's version string and feature list (lines 621-638) come from the build
  configuration; they are parameters of the engine.
- The event poll and the engine's event loop (line 85).
- Integer widths: GIDs, positions and speed caps are unbounded naturals. The source's
  32-bit and 64-bit wrap-around is not modelled.
- Option names: the allow-lists and handler kinds hold only the eight options the
  test suite names (`dir`, `file-allocation`, `max-download-limit`,
  `max-upload-limit`, `bt-max-peers`, `bt-request-peer-speed-limit`,
  `max-overall-download-limit`, `max-overall-upload-limit`). The source's full option
  tables are not part of this model. So any other option, such as `split`, is refused
  by the model, even where the real addUri or changeOption would accept it.
- Option value ranges: each handler's accepted range (for example, minimum or maximum
  speeds) is not modelled. Only the text forms (size, number, keyword, free text) are
  checked.
