/** The permission grid of an existing user group: the screen catalogue is
    merged with the group's saved permission records, flattened into an edit
    map keyed by ScreenId, edited one flag at a time, and saved back as one
    header record and one detail record per entry. */
module UserGroupDetails {
  import opened Js
  import opened Dict
  import opened Screens
  import opened Envelope

  /** A saved permission record, `permissionData.Details[i]`. A field that
      is `Undefined` is a key the record does not have. */
  datatype PermissionRecord = PermissionRecord(
    ScreenId: JsValue,
    UserGroupId: JsValue,
    CompanyId: JsValue,
    ReadPermission: JsValue,
    WritePermission: JsValue,
    DeletePermission: JsValue,
    CreateBy: JsValue,
    CreateDate: JsValue,
    ModifyBy: JsValue,
    ModifyDate: JsValue)

  /** The fields of the group header that the save reads. */
  datatype GroupHeaderData = GroupHeaderData(
    UserGroupId: JsValue,
    CompanyId: JsValue,
    Description: JsValue,
    UsewrGroupType: JsValue,
    CreateBy: JsValue,
    CreateDate: JsValue,
    ModifyBy: JsValue)

  /** `{}`: every key absent. */
  function EmptyHeader(): GroupHeaderData {
    GroupHeaderData(Undefined, Undefined, Undefined, Undefined, Undefined, Undefined, Undefined)
  }

  /** The GetUserGroup response: `Header` and `Details`. */
  datatype UserGroupResponse = UserGroupResponse(
    Header: Listish<GroupHeaderData>,
    Details: Listish<PermissionRecord>)

  /** What the page's query returns once both fetches are done. */
  datatype QueryData = QueryData(
    screenData: Listish<ParentScreen>,
    permissionData: Listish<PermissionRecord>,
    header: GroupHeaderData)

  /** The query function's result: `screenData || []`,
      `permissionData?.Details || []` and `permissionData?.Header?.[0] || {}`.
      A fetched value that is present, even one that is not a list, is passed
      on as it is; a missing one becomes `[]`. The header is the first
      fetched one when `Header` is a non-empty list, and `{}` otherwise. */
  function LoadResult(screens: Listish<ParentScreen>, group: Option<UserGroupResponse>): (d: QueryData)
    ensures !d.screenData.Missing? && !d.permissionData.Missing?
    ensures !screens.Missing? ==> d.screenData == screens
    ensures screens.Missing? ==> d.screenData == List([])
    ensures group.Some? && !group.value.Details.Missing? ==> d.permissionData == group.value.Details
    ensures group.None? || group.value.Details.Missing? ==> d.permissionData == List([])
    ensures group.Some? && group.value.Header.List? && |group.value.Header.items| > 0 ==>
              d.header == group.value.Header.items[0]
    ensures !(group.Some? && group.value.Header.List? && |group.value.Header.items| > 0) ==>
              d.header == EmptyHeader()
  {
    var s := if screens.Missing? then List([]) else screens;
    var p := if group.None? || group.value.Details.Missing? then List([]) else group.value.Details;
    var h := if group.Some? && group.value.Header.List? && |group.value.Header.items| > 0
             then group.value.Header.items[0] else EmptyHeader();
    QueryData(s, p, h)
  }

  // ---------------------------------------------------------------------
  // Merge

  /** Record `j` is the last one in `rs` whose ScreenId is `k`. */
  ghost predicate LastRecord(rs: seq<PermissionRecord>, k: JsValue, j: int) {
    0 <= j < |rs| && rs[j].ScreenId == k &&
    forall j' :: j < j' < |rs| ==> rs[j'].ScreenId != k
  }

  /** `new Map(permissionDetails.map(p => [p.ScreenId, p]))`: a later record
      with the same ScreenId replaces an earlier one. */
  function PermMap(rs: seq<PermissionRecord>): (m: map<JsValue, PermissionRecord>)
    ensures m.Keys == set i | 0 <= i < |rs| :: rs[i].ScreenId
  {
    if rs == [] then map[]
    else
      var pre := rs[..|rs| - 1];
      assert (set i | 0 <= i < |rs| :: rs[i].ScreenId) ==
             (set i | 0 <= i < |pre| :: pre[i].ScreenId) + {rs[|rs| - 1].ScreenId} by {
        assert forall i :: 0 <= i < |pre| ==> pre[i] == rs[i];
      }
      PermMap(pre)[rs[|rs| - 1].ScreenId := rs[|rs| - 1]]
  }

  /** The map holds, for each ScreenId, the last record with it. */
  lemma {:induction false} PermMapLastWins(rs: seq<PermissionRecord>, k: JsValue, j: int)
    requires LastRecord(rs, k, j)
    ensures k in PermMap(rs) && PermMap(rs)[k] == rs[j]
  {
    if j < |rs| - 1 {
      var pre := rs[..|rs| - 1];
      assert LastRecord(pre, k, j);
      PermMapLastWins(pre, k, j);
    }
  }

  /** `{ ...child, ...record }`: each key the record has replaces the child's. */
  function Overlay(c: ChildScreen, r: PermissionRecord): ChildScreen {
    c.(UserGroupId := Spread(c.UserGroupId, r.UserGroupId),
       CompanyId := Spread(c.CompanyId, r.CompanyId),
       ReadPermission := Spread(c.ReadPermission, r.ReadPermission),
       WritePermission := Spread(c.WritePermission, r.WritePermission),
       DeletePermission := Spread(c.DeletePermission, r.DeletePermission),
       CreateBy := Spread(c.CreateBy, r.CreateBy),
       CreateDate := Spread(c.CreateDate, r.CreateDate),
       ModifyBy := Spread(c.ModifyBy, r.ModifyBy),
       ModifyDate := Spread(c.ModifyDate, r.ModifyDate))
  }

  /** `{ ...child, ...(permMap.get(child.ScreenId) || {}) }` */
  function MergeChild(c: ChildScreen, m: map<JsValue, PermissionRecord>): ChildScreen {
    if Text(c.ScreenId) in m then Overlay(c, m[Text(c.ScreenId)]) else c
  }

  function MergeParent(p: ParentScreen, m: map<JsValue, PermissionRecord>): (r: ParentScreen)
    ensures r.ScreenId == p.ScreenId && r.ScreenName == p.ScreenName && r.ParentName == p.ParentName
    ensures |r.ScreenNameData| == |p.ScreenNameData|
    ensures forall j :: 0 <= j < |p.ScreenNameData| ==> r.ScreenNameData[j] == MergeChild(p.ScreenNameData[j], m)
  {
    p.(ScreenNameData := seq(|p.ScreenNameData|, j requires 0 <= j < |p.ScreenNameData| => MergeChild(p.ScreenNameData[j], m)))
  }

  /** `mergeScreenDataWithPermissions(screenData, permissionDetails)` */
  function Merge(screenData: Listish<ParentScreen>, details: Listish<PermissionRecord>): (r: seq<ParentScreen>)
    ensures !screenData.List? || !details.List? ==> r == []
    ensures screenData.List? && details.List? ==> |r| == |screenData.items|
    ensures screenData.List? && details.List? ==> forall i :: 0 <= i < |r| ==>
              r[i] == MergeParent(screenData.items[i], PermMap(details.items))
  {
    if !screenData.List? || !details.List? then []
    else
      var m := PermMap(details.items);
      seq(|screenData.items|, i requires 0 <= i < |screenData.items| => MergeParent(screenData.items[i], m))
  }

  /** The merge keeps the catalogue's shape: the same parents in the same
      order, with the same children in the same order; and each merged child
      is the catalogue child overlaid with the last record carrying its
      ScreenId, or the catalogue child itself when no record carries it. */
  lemma MergeSpec(ps: seq<ParentScreen>, rs: seq<PermissionRecord>, i: int, j: int)
    requires 0 <= i < |ps| && 0 <= j < |ps[i].ScreenNameData|
    ensures var r := Merge(List(ps), List(rs));
      && |r| == |ps|
      && r[i].ScreenId == ps[i].ScreenId && r[i].ScreenName == ps[i].ScreenName
      && |r[i].ScreenNameData| == |ps[i].ScreenNameData|
      && var c, mc := ps[i].ScreenNameData[j], r[i].ScreenNameData[j];
      && mc.ScreenId == c.ScreenId && mc.ScreenName == c.ScreenName && mc.ParentName == c.ParentName
      && ((forall k :: 0 <= k < |rs| ==> rs[k].ScreenId != Text(c.ScreenId)) ==> mc == c)
      && (forall k :: LastRecord(rs, Text(c.ScreenId), k) ==> mc == Overlay(c, rs[k]))
  {
    var c := ps[i].ScreenNameData[j];
    forall k | LastRecord(rs, Text(c.ScreenId), k) ensures MergeChild(c, PermMap(rs)) == Overlay(c, rs[k]) {
      PermMapLastWins(rs, Text(c.ScreenId), k);
    }
  }

  /** A child with no saved record keeps every catalogue flag as it was: the
      merge never resets a flag. */
  lemma MergeKeepsUnsavedFlags(ps: seq<ParentScreen>, rs: seq<PermissionRecord>, i: int, j: int)
    requires 0 <= i < |ps| && 0 <= j < |ps[i].ScreenNameData|
    requires forall k :: 0 <= k < |rs| ==> rs[k].ScreenId != Text(ps[i].ScreenNameData[j].ScreenId)
    ensures Merge(List(ps), List(rs))[i].ScreenNameData[j] == ps[i].ScreenNameData[j]
  {
    MergeSpec(ps, rs, i, j);
  }

  /** The ids of the catalogue's children. */
  ghost predicate IsCatalogueId(ps: seq<ParentScreen>, k: JsValue) {
    exists i, j :: 0 <= i < |ps| && 0 <= j < |ps[i].ScreenNameData| && k == Text(ps[i].ScreenNameData[j].ScreenId)
  }

  /** `PermMap` with record `o` inserted anywhere answers as without it for every other key. */
  lemma {:induction false} PermMapInsert(rs1: seq<PermissionRecord>, o: PermissionRecord, rs2: seq<PermissionRecord>, k: JsValue)
    requires k != o.ScreenId
    ensures k in PermMap(rs1 + [o] + rs2) <==> k in PermMap(rs1 + rs2)
    ensures k in PermMap(rs1 + rs2) ==> PermMap(rs1 + [o] + rs2)[k] == PermMap(rs1 + rs2)[k]
    decreases |rs2|
  {
    if rs2 == [] {
      assert rs1 + [o] + rs2 == rs1 + [o];
      assert (rs1 + [o])[..|rs1|] == rs1;
      assert rs1 + rs2 == rs1;
    } else {
      var last := rs2[|rs2| - 1];
      var pre2 := rs2[..|rs2| - 1];
      PermMapInsert(rs1, o, pre2, k);
      assert (rs1 + [o] + rs2)[..|rs1 + [o] + rs2| - 1] == rs1 + [o] + pre2;
      assert (rs1 + rs2)[..|rs1 + rs2| - 1] == rs1 + pre2;
      assert (rs1 + [o] + rs2)[|rs1 + [o] + rs2| - 1] == last;
      assert (rs1 + rs2)[|rs1 + rs2| - 1] == last;
    }
  }

  /** A saved record whose ScreenId is not a catalogue child's leaves no
      trace: the merge is the same with it and without it. */
  lemma OrphanRecordIgnored(ps: seq<ParentScreen>, rs1: seq<PermissionRecord>, o: PermissionRecord, rs2: seq<PermissionRecord>)
    requires !IsCatalogueId(ps, o.ScreenId)
    ensures Merge(List(ps), List(rs1 + [o] + rs2)) == Merge(List(ps), List(rs1 + rs2))
  {
    var a, b := Merge(List(ps), List(rs1 + [o] + rs2)), Merge(List(ps), List(rs1 + rs2));
    forall i | 0 <= i < |ps| ensures a[i] == b[i] {
      var cs := ps[i].ScreenNameData;
      forall j | 0 <= j < |cs|
        ensures MergeChild(cs[j], PermMap(rs1 + [o] + rs2)) == MergeChild(cs[j], PermMap(rs1 + rs2))
      {
        PermMapInsert(rs1, o, rs2, Text(cs[j].ScreenId));
      }
    }
  }

  /** With no saved records the merge returns the catalogue unchanged. */
  lemma MergeWithoutRecords(ps: seq<ParentScreen>)
    ensures Merge(List(ps), List([])) == ps
  {
    var r := Merge(List(ps), List([]));
    forall i | 0 <= i < |ps| ensures r[i] == ps[i] {
      assert r[i].ScreenNameData == ps[i].ScreenNameData;
    }
  }

  /** Merging the merged catalogue with the same records again changes
      nothing: a record overlaid twice is overlaid once. */
  lemma MergeIdempotent(ps: seq<ParentScreen>, rs: seq<PermissionRecord>)
    ensures Merge(List(Merge(List(ps), List(rs))), List(rs)) == Merge(List(ps), List(rs))
  {
    var once := Merge(List(ps), List(rs));
    var twice := Merge(List(once), List(rs));
    forall i | 0 <= i < |ps| ensures twice[i] == once[i] {
      assert twice[i].ScreenNameData == once[i].ScreenNameData;
    }
  }

  // ---------------------------------------------------------------------
  // Editing

  /** `{ ...child }` */
  function Copy(c: ChildScreen): ChildScreen { c }

  /** The edit map the seeding effect builds from a merged catalogue. */
  function Flatten(merged: seq<ParentScreen>): Dict<ChildScreen> {
    Index(AllChildren(merged), Copy)
  }

  /** After seeding, the edit map has exactly one key per child ScreenId of
      the merged catalogue, each holding the last merged child with that id. */
  lemma FlattenSpec(merged: seq<ParentScreen>, k: string)
    ensures Wf(Flatten(merged))
    ensures k in Keys(Flatten(merged)) <==> k in Ids(AllChildren(merged))
    ensures k in Ids(AllChildren(merged)) ==>
              exists j :: LastWith(AllChildren(merged), k, j) && Get(Flatten(merged), k) == Some(AllChildren(merged)[j])
  {
    IndexKeys(AllChildren(merged), Copy);
    if k in Ids(AllChildren(merged)) {
      IndexEntry(AllChildren(merged), Copy, k);
    }
  }

  /** The entries of a flattened map carry their own key as ScreenId. */
  lemma FlattenKeysAreIds(cs: seq<ChildScreen>)
    ensures forall i :: 0 <= i < |Index(cs, Copy)| ==> Index(cs, Copy)[i].1.ScreenId == Index(cs, Copy)[i].0
  {
    var d := Index(cs, Copy);
    IndexKeys(cs, Copy);
    forall i | 0 <= i < |d| ensures d[i].1.ScreenId == d[i].0 {
      IndexEntry(cs, Copy, d[i].0);
      GetAt(d, i);
    }
  }

  /** `{ [id]: fresh default }` for the parents of the merged catalogue not yet in `prev`. */
  function NewParents(prev: map<string, bool>, ps: seq<ParentScreen>): map<string, bool> {
    map id | id in ParentIds(ps) && id !in prev :: true
  }

  function ParentIds(ps: seq<ParentScreen>): (ids: set<string>)
    ensures forall i :: 0 <= i < |ps| ==> ps[i].ScreenId in ids
    ensures forall id :: id in ids ==> exists i :: 0 <= i < |ps| && ps[i].ScreenId == id
  {
    set i | 0 <= i < |ps| :: ps[i].ScreenId
  }

  lemma NewParentsSnoc(prev: map<string, bool>, ps: seq<ParentScreen>, p: ParentScreen)
    ensures NewParents(prev, ps + [p]) ==
              if p.ScreenId in prev then NewParents(prev, ps) else NewParents(prev, ps)[p.ScreenId := true]
  {
    assert ParentIds(ps + [p]) == ParentIds(ps) + {p.ScreenId} by {
      assert (ps + [p])[|ps|] == p;
      assert forall i :: 0 <= i < |ps| ==> (ps + [p])[i] == ps[i];
    }
  }

  /** One more parent visited by the effect's loop. */
  lemma NewParentsStep(prev: map<string, bool>, ps: seq<ParentScreen>, i: nat)
    requires i < |ps|
    ensures NewParents(prev, ps[..i + 1]) ==
              if ps[i].ScreenId in prev then NewParents(prev, ps[..i]) else NewParents(prev, ps[..i])[ps[i].ScreenId := true]
  {
    assert ps[..i + 1] == ps[..i] + [ps[i]];
    NewParentsSnoc(prev, ps[..i], ps[i]);
  }

  /** No parent is new exactly when every parent id is already in `prev`,
      and then the effect leaves the map as it was. */
  lemma NewParentsNone(prev: map<string, bool>, ps: seq<ParentScreen>)
    ensures |NewParents(prev, ps)| != 0 <==> exists i :: 0 <= i < |ps| && ps[i].ScreenId !in prev
    ensures |NewParents(prev, ps)| == 0 ==> ExpandDefaults(prev, ps) == prev
  {
    var added := NewParents(prev, ps);
    assert forall id :: id in ParentIds(ps) && id !in prev ==> id in added;
    if |added| != 0 {
      var id :| id in added;
      assert id in ParentIds(ps);
    }
    if i :| 0 <= i < |ps| && ps[i].ScreenId !in prev {
      assert ps[i].ScreenId in added;
    }
  }

  /** The expand-default effect: a parent seen for the first time is expanded;
      an entry already there, even one the user collapsed, is kept; with no
      new parent the map is the same. */
  function ExpandDefaults(prev: map<string, bool>, ps: seq<ParentScreen>): (r: map<string, bool>)
    ensures r.Keys == prev.Keys + ParentIds(ps)
    ensures forall k :: k in prev ==> r[k] == prev[k]
    ensures forall k :: k in r && k !in prev ==> r[k]
    ensures ParentIds(ps) <= prev.Keys ==> r == prev
  {
    var added := NewParents(prev, ps);
    assert added.Keys == ParentIds(ps) - prev.Keys;
    prev + added
  }

  /** The save request: one header and one detail per edit-map entry. Missing
      header fields fall back to the page's `formValues`, which the page never
      updates: every fallback is `""` (or absent, for the audit fields). */
  function SaveRequest(h: GroupHeaderData, entries: seq<ChildScreen>, now: string): (req: GroupRequest)
    ensures |req.Header| == 1 && |req.Details| == |entries|
    ensures req.Response == EmptyResponse()
  {
    var modifyDate := Text(now);
    var header := GroupHeader(
      Or(h.UserGroupId, BlankForm.UserGroupId),
      Or(h.CompanyId, BlankForm.CompanyId),
      Or(h.Description, BlankForm.Description),
      Or(h.UsewrGroupType, BlankForm.UserGroupType),
      Or(h.CreateBy, BlankForm.UserGroupId),
      h.CreateDate,
      Or(BlankForm.UserGroupId, h.ModifyBy),
      modifyDate,
      NullSlots());
    GroupRequest([header], seq(|entries|, i requires 0 <= i < |entries| => SaveDetail(h, entries[i], modifyDate)), EmptyResponse())
  }

  function SaveDetail(h: GroupHeaderData, c: ChildScreen, modifyDate: JsValue): GroupDetail {
    GroupDetail(
      Or(h.UserGroupId, BlankForm.UserGroupId),
      Or(h.CompanyId, BlankForm.CompanyId),
      Text(c.ScreenId),
      Bool(Truthy(c.ReadPermission)),
      Bool(Truthy(c.WritePermission)),
      Bool(Truthy(c.DeletePermission)),
      Or(c.CreateBy, Or(h.UserGroupId, BlankForm.UserGroupId)),
      h.CreateDate,
      Or(BlankForm.UserGroupId, h.ModifyBy),
      modifyDate,
      NullSlots())
  }

  /** `formValues`: its initial state, which is never replaced. */
  datatype FormValues = FormValues(UserGroupId: JsValue, CompanyId: JsValue, Description: JsValue, UserGroupType: JsValue)
  const BlankForm := FormValues(Text(""), Text(""), Text(""), Text(""))

  /** `formValues` read through the keys the fetched header has; it has no
      `UsewrGroupType` and no audit keys. */
  function FormValuesAsHeader(): GroupHeaderData {
    GroupHeaderData(BlankForm.UserGroupId, BlankForm.CompanyId, BlankForm.Description, Undefined, Undefined, Undefined, Undefined)
  }

  /** What the save promises about every record it sends: the header keeps
      each truthy fetched field and blanks a falsy one (`formValues` is all
      `""`), keeps the creation date and `ModifyBy`, and stamps `now`; each
      detail keeps its entry's creator when it has one, else the group id. */
  lemma SaveRequestSpec(h: GroupHeaderData, entries: seq<ChildScreen>, now: string)
    ensures var req := SaveRequest(h, entries, now);
      && |req.Header| == 1 && |req.Details| == |entries|
      && req.Header[0].CreateDate == h.CreateDate && req.Header[0].ModifyDate == Text(now)
      && req.Header[0].ModifyBy == h.ModifyBy
      && (Truthy(h.UserGroupId) ==> req.Header[0].UserGroupId == h.UserGroupId)
      && (!Truthy(h.UserGroupId) ==> req.Header[0].UserGroupId == Text(""))
      && req.Header[0].CompanyId == Or(h.CompanyId, Text(""))
      && req.Header[0].Description == Or(h.Description, Text(""))
      && req.Header[0].UsewrGroupType == Or(h.UsewrGroupType, Text(""))
      && req.Header[0].CreateBy == Or(h.CreateBy, Text(""))
      && AllNull(req.Header[0].Intallia)
      && forall i :: 0 <= i < |entries| ==>
           && req.Details[i].ScreenId == Text(entries[i].ScreenId)
           && req.Details[i].ReadPermission == Bool(Truthy(entries[i].ReadPermission))
           && req.Details[i].WritePermission == Bool(Truthy(entries[i].WritePermission))
           && req.Details[i].DeletePermission == Bool(Truthy(entries[i].DeletePermission))
           && req.Details[i].CreateBy == Or(entries[i].CreateBy, req.Header[0].UserGroupId)
           && req.Details[i].CreateDate == h.CreateDate
           && req.Details[i].ModifyDate == Text(now)
           && req.Details[i].ModifyBy == h.ModifyBy
           && req.Details[i].UserGroupId == req.Header[0].UserGroupId
           && req.Details[i].CompanyId == req.Header[0].CompanyId
           && AllNull(req.Details[i].Intallia)
  {
  }

  /** The edit map built from a merged catalogue is well formed, keyed by
      the children's ids, and each entry carries its own key. */
  lemma FlattenValid(merged: seq<ParentScreen>)
    ensures Wf(Flatten(merged))
    ensures forall i :: 0 <= i < |Flatten(merged)| ==> Flatten(merged)[i].1.ScreenId == Flatten(merged)[i].0
    ensures forall k :: k in Keys(Flatten(merged)) <==> k in Ids(AllChildren(merged))
  {
    IndexKeys(AllChildren(merged), Copy);
    FlattenKeysAreIds(AllChildren(merged));
  }

  /** Replacing an entry with a value carrying the same ScreenId keeps the
      map's keys, their order, and the key-is-id property. */
  lemma ReplaceKeepsIds(d: Dict<ChildScreen>, k: string, v: ChildScreen)
    requires Wf(d) && k in Keys(d) && v.ScreenId == k
    requires forall i :: 0 <= i < |d| ==> d[i].1.ScreenId == d[i].0
    ensures Wf(Put(d, k, v)) && Keys(Put(d, k, v)) == Keys(d)
    ensures forall i :: 0 <= i < |Put(d, k, v)| ==> Put(d, k, v)[i].1.ScreenId == Put(d, k, v)[i].0
  {
    PutSpec(d, k, v);
    var r := Put(d, k, v);
    forall i | 0 <= i < |r| ensures r[i].1.ScreenId == r[i].0 {
      if d[i].0 == k {
        assert Keys(r)[i] == k;
        assert i == IndexOf(r, k) by {
          var j := IndexOf(r, k);
          assert Keys(r)[j] == k;
        }
      }
    }
  }

  /** `{ ...prev, [screenId]: { ...prev[screenId], [perm]: !prev[screenId][perm] } }` */
  function ToggleEntry(d: Dict<ChildScreen>, k: string, p: Perm): Dict<ChildScreen>
    requires k in Keys(d)
  {
    var c := Get(d, k).value;
    Put(d, k, WithFlag(c, p, Not(Flag(c, p))))
  }

  /** On a well-formed edit map a flag change keeps the keys, their order
      and the key-is-id property; the entry changed holds the negated flag
      and every other entry reads as before. */
  lemma ToggleEntrySpec(d: Dict<ChildScreen>, k: string, p: Perm)
    requires Wf(d) && k in Keys(d)
    requires forall i :: 0 <= i < |d| ==> d[i].1.ScreenId == d[i].0
    ensures Wf(ToggleEntry(d, k, p)) && Keys(ToggleEntry(d, k, p)) == Keys(d)
    ensures forall i :: 0 <= i < |d| ==> ToggleEntry(d, k, p)[i].1.ScreenId == ToggleEntry(d, k, p)[i].0
    ensures Get(ToggleEntry(d, k, p), k) == Some(WithFlag(Get(d, k).value, p, Not(Flag(Get(d, k).value, p))))
    ensures forall k' :: k' != k ==> Get(ToggleEntry(d, k, p), k') == Get(d, k')
  {
    var c := Get(d, k).value;
    var v := WithFlag(c, p, Not(Flag(c, p)));
    var i :| 0 <= i < |d| && d[i] == (k, c);
    ReplaceKeepsIds(d, k, v);
    PutSpec(d, k, v);
    forall k' | k' != k ensures Get(Put(d, k, v), k') == Get(d, k') {
      PutOther(d, k, v, k');
    }
  }

  /** The page: the loaded data, the edit map, and the group expand map. */
  class Editor {
    var data: Option<QueryData>
    var permissions: Dict<ChildScreen>
    var enabledScreens: map<string, bool>
    /** `mergedScreenData.length` the expand-default effect last ran for. */
    var expandLength: nat

    /** `mergedScreenData`, recomputed on every render. */
    function MergedScreenData(): seq<ParentScreen>
      reads this
    {
      if data.None? then [] else Merge(data.value.screenData, data.value.permissionData)
    }

    /** Between user actions the edit map holds one entry per child of the
        merged catalogue, under its own ScreenId. */
    ghost predicate Valid()
      reads this
    {
      && Wf(permissions)
      && (forall i :: 0 <= i < |permissions| ==> permissions[i].1.ScreenId == permissions[i].0)
      && (forall k :: k in Keys(permissions) <==> k in Ids(AllChildren(MergedScreenData())))
    }

    /** The first render and its effects: nothing is loaded, the merged
        catalogue is empty, so both effects return early. */
    constructor ()
      ensures Valid()
      ensures data == None && permissions == [] && enabledScreens == map[] && expandLength == 0
    {
      data := None;
      permissions := [];
      enabledScreens := map[];
      expandLength := 0;
    }

    /** The seeding effect (`[data]`): the edit map becomes the flattened merge. */
    method Seed()
      requires data.Some?
      modifies this`permissions
      ensures permissions == Flatten(MergedScreenData())
      ensures Valid()
    {
      var flat := BuildIndex(Merge(data.value.screenData, data.value.permissionData), Copy);
      permissions := flat;
      FlattenValid(MergedScreenData());
    }

    /** The expand-default effect body: fills `newEnabled` with the parents
        not yet in the map and merges it in, or keeps the map as it is when
        there are none. */
    method AddNewParents(merged: seq<ParentScreen>) returns (changed: bool)
      modifies this`enabledScreens
      ensures enabledScreens == ExpandDefaults(old(enabledScreens), merged)
      ensures changed <==> exists i :: 0 <= i < |merged| && merged[i].ScreenId !in old(enabledScreens)
    {
      var prev := enabledScreens;
      var newEnabled: map<string, bool> := map[];
      var i := 0;
      assert merged[..0] == [];
      while i < |merged|
        invariant 0 <= i <= |merged|
        invariant newEnabled == NewParents(prev, merged[..i])
        invariant enabledScreens == prev
      {
        NewParentsStep(prev, merged, i);
        if merged[i].ScreenId !in prev {
          newEnabled := newEnabled[merged[i].ScreenId := true];
        }
        i := i + 1;
      }
      assert merged[..i] == merged;
      NewParentsNone(prev, merged);
      changed := |newEnabled| != 0;
      if changed {
        enabledScreens := prev + newEnabled;
      }
    }

    /** The expand-default effect with its dependency `[mergedScreenData.length]`:
        it runs only when that length differs from the last run's. */
    method ExpandEffect()
      modifies this`enabledScreens, this`expandLength
      ensures expandLength == |MergedScreenData()|
      ensures old(expandLength) == |MergedScreenData()| || MergedScreenData() == [] ==>
                enabledScreens == old(enabledScreens)
      ensures old(expandLength) != |MergedScreenData()| ==>
                enabledScreens == ExpandDefaults(old(enabledScreens), MergedScreenData())
    {
      var merged := MergedScreenData();
      if expandLength != |merged| {
        expandLength := |merged|;
        if merged != [] {
          var _ := AddNewParents(merged);
        }
      }
    }

    /** A query result arrives: the page re-renders with it and runs the
        seeding effect, then the expand-default effect. react-query hands back
        the previous `data` object when a refetch returns equal JSON, so the
        `[data]` effect, and with it the reseed, runs only for a new value;
        unsaved toggles survive an equal refetch. */
    method Deliver(d: QueryData)
      requires Valid()
      modifies this
      ensures Valid()
      ensures data == Some(d)
      ensures old(data) == Some(d) ==> permissions == old(permissions)
      ensures old(data) != Some(d) ==> permissions == Flatten(Merge(d.screenData, d.permissionData))
      ensures expandLength == |MergedScreenData()|
      ensures old(expandLength) == |MergedScreenData()| ==> enabledScreens == old(enabledScreens)
      ensures old(expandLength) != |MergedScreenData()| ==>
                enabledScreens == ExpandDefaults(old(enabledScreens), MergedScreenData())
    {
      if data != Some(d) {
        data := Some(d);
        Seed();
      }
      ExpandEffect();
    }

    /** `handlePermissionChange(screenId, perm)`: negates one flag of one entry.
        The id must be in the map; an absent one dereferences `undefined`. */
    method TogglePermission(screenId: string, perm: Perm)
      requires Valid() && screenId in Keys(permissions)
      modifies this`permissions
      ensures Valid()
      ensures permissions == ToggleEntry(old(permissions), screenId, perm)
    {
      ToggleEntrySpec(permissions, screenId, perm);
      var c := Get(permissions, screenId).value;
      permissions := Put(permissions, screenId, WithFlag(c, perm, Not(Flag(c, perm))));
    }

    /** The group header's click handler: `[id]: !prev[id]`. */
    method ToggleGroup(id: string)
      modifies this`enabledScreens
      ensures enabledScreens == ToggleExpanded(old(enabledScreens), id)
    {
      enabledScreens := enabledScreens[id := !Expanded(enabledScreens, id)];
    }

    /** The header the save reads: the fetched one once data is there, else `formValues`. */
    function HeaderData(): GroupHeaderData
      reads this
    {
      if data.Some? then data.value.header else FormValuesAsHeader()
    }

    /** `handleSubmit`: the request sent to UpdateUserGroup. `now` is the
        clock reading `new Date().toISOString()`. Nothing on the page changes;
        a failed save leaves the edit map as it was. */
    method Submit(now: string) returns (req: GroupRequest)
      requires Valid()
      ensures req == SaveRequest(HeaderData(), Values(permissions), now)
      ensures |req.Details| == |permissions|
      ensures forall i :: 0 <= i < |permissions| ==>
                req.Details[i].ScreenId == Text(permissions[i].0) &&
                req.Details[i].ReadPermission == Bool(Truthy(permissions[i].1.ReadPermission)) &&
                req.Details[i].WritePermission == Bool(Truthy(permissions[i].1.WritePermission)) &&
                req.Details[i].DeletePermission == Bool(Truthy(permissions[i].1.DeletePermission)) &&
                req.Details[i].ModifyDate == Text(now)
    {
      req := SaveRequest(HeaderData(), Values(permissions), now);
    }
  }
}
