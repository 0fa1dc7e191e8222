/** The create variant of the permission grid: the catalogue seeds a
    `permissions` form field with each child's flags, the user edits the
    texts and ticks boxes, and the validated form is sent as a new user group. */
module AddRole {
  import opened Js
  import opened Dict
  import opened Screens
  import opened Envelope

  const DefaultUserGroupType := "Admin"
  const DefaultCompanyId := "Intallia24"

  /** One value of the `permissions` field. A flag that is `Undefined` is
      a key the entry does not have. */
  datatype PermEntry = PermEntry(ReadPermission: JsValue, WritePermission: JsValue, DeletePermission: JsValue)

  /** `{}`, which is what a path write starts from when the entry is missing. */
  const NoEntry := PermEntry(Undefined, Undefined, Undefined)

  function EntryFlag(e: PermEntry, p: Perm): JsValue {
    match p
    case ReadPermission => e.ReadPermission
    case WritePermission => e.WritePermission
    case DeletePermission => e.DeletePermission
  }

  function EntryWithFlag(e: PermEntry, p: Perm, v: JsValue): (r: PermEntry)
    ensures EntryFlag(r, p) == v
    ensures forall q :: q != p ==> EntryFlag(r, q) == EntryFlag(e, q)
  {
    match p
    case ReadPermission => e.(ReadPermission := v)
    case WritePermission => e.(WritePermission := v)
    case DeletePermission => e.(DeletePermission := v)
  }

  /** `{ ReadPermission: child.ReadPermission, ... }`: the child's three flags. */
  function DefaultEntry(c: ChildScreen): (e: PermEntry)
    ensures forall p :: EntryFlag(e, p) == Flag(c, p)
  {
    PermEntry(c.ReadPermission, c.WritePermission, c.DeletePermission)
  }

  /** `defaultPermissions`, recomputed on every render from the catalogue. */
  function DefaultPermissions(screens: seq<ParentScreen>): Dict<PermEntry> {
    Index(AllChildren(screens), DefaultEntry)
  }

  /** The seeded map has one entry per child ScreenId, holding the flags of
      the last child with that id; with unique ids, one entry per child in
      catalogue order. */
  lemma DefaultPermissionsSpec(screens: seq<ParentScreen>, k: string)
    ensures Wf(DefaultPermissions(screens))
    ensures k in Keys(DefaultPermissions(screens)) <==> k in Ids(AllChildren(screens))
    ensures k in Ids(AllChildren(screens)) ==>
              exists j :: (LastWith(AllChildren(screens), k, j) &&
                forall p :: EntryFlag(Get(DefaultPermissions(screens), k).value, p) == Flag(AllChildren(screens)[j], p))
    ensures UniqueIds(AllChildren(screens)) ==> |DefaultPermissions(screens)| == |AllChildren(screens)|
  {
    IndexKeys(AllChildren(screens), DefaultEntry);
    if k in Ids(AllChildren(screens)) {
      IndexEntry(AllChildren(screens), DefaultEntry, k);
    }
    if UniqueIds(AllChildren(screens)) {
      IndexInOrder(AllChildren(screens), DefaultEntry);
    }
  }

  /** The fetched catalogue as the page sees it: `select: data => data || []`
      and the destructuring default `screenData = []`. */
  function ScreenList(response: Option<seq<ParentScreen>>): (r: seq<ParentScreen>)
    ensures response.Some? ==> r == response.value
    ensures response.None? ==> r == []
  {
    response.GetOr([])
  }

  /** The form's values. */
  datatype RoleForm = RoleForm(
    userGroupId: string,
    userGroupType: string,
    companyId: string,
    description: string,
    permissions: Dict<PermEntry>)

  /** `defaultValues`, taken at the first render, when nothing is loaded. */
  function DefaultForm(storedUserGroupId: string): RoleForm {
    RoleForm(storedUserGroupId, DefaultUserGroupType, DefaultCompanyId, "", [])
  }

  /** The form's fields, as `roleSchema` names them in its error messages. */
  datatype Field = UserGroupIdField | UserGroupTypeField | CompanyIdField | DescriptionField | PermissionsField

  /** An entry `z.object({ ... z.boolean() ... })` accepts. */
  predicate IsFlags(e: PermEntry) {
    e.ReadPermission.Bool? && e.WritePermission.Bool? && e.DeletePermission.Bool?
  }

  /** What `roleSchema` parses a valid form into. */
  datatype Flags = Flags(ReadPermission: bool, WritePermission: bool, DeletePermission: bool)

  datatype ValidRole = ValidRole(
    userGroupId: string,
    userGroupType: string,
    companyId: string,
    description: string,
    permissions: Dict<Flags>)

  function Check(ok: bool, f: Field): set<Field> {
    if ok then {} else {f}
  }

  /** `zodResolver(roleSchema)`: the four texts must be non-empty and every
      entry's three flags must be booleans. A refused form names each field
      that failed; an accepted one keeps the texts and the entries in order. */
  function Validate(f: RoleForm): (r: Result<ValidRole, set<Field>>)
    ensures r.Success? <==>
              f.userGroupId != "" && f.userGroupType != "" && f.companyId != "" && f.description != "" &&
              forall i :: 0 <= i < |f.permissions| ==> IsFlags(f.permissions[i].1)
    ensures r.Failure? ==>
              && (UserGroupIdField in r.error <==> f.userGroupId == "")
              && (UserGroupTypeField in r.error <==> f.userGroupType == "")
              && (CompanyIdField in r.error <==> f.companyId == "")
              && (DescriptionField in r.error <==> f.description == "")
              && (PermissionsField in r.error <==> exists i :: 0 <= i < |f.permissions| && !IsFlags(f.permissions[i].1))
    ensures r.Success? ==>
              && r.value.userGroupId == f.userGroupId && r.value.userGroupType == f.userGroupType
              && r.value.companyId == f.companyId && r.value.description == f.description
              && |r.value.permissions| == |f.permissions|
              && forall i :: 0 <= i < |f.permissions| ==>
                   && r.value.permissions[i].0 == f.permissions[i].0
                   && Bool(r.value.permissions[i].1.ReadPermission) == f.permissions[i].1.ReadPermission
                   && Bool(r.value.permissions[i].1.WritePermission) == f.permissions[i].1.WritePermission
                   && Bool(r.value.permissions[i].1.DeletePermission) == f.permissions[i].1.DeletePermission
  {
    var permsOk := forall i :: 0 <= i < |f.permissions| ==> IsFlags(f.permissions[i].1);
    var errors := Check(f.userGroupId != "", UserGroupIdField) + Check(f.userGroupType != "", UserGroupTypeField) +
                  Check(f.companyId != "", CompanyIdField) + Check(f.description != "", DescriptionField) +
                  Check(permsOk, PermissionsField);
    if errors != {} then Failure(errors)
    else
      var ps := f.permissions;
      Success(ValidRole(f.userGroupId, f.userGroupType, f.companyId, f.description,
        seq(|ps|, i requires 0 <= i < |ps| =>
          (ps[i].0, Flags(ps[i].1.ReadPermission.b, ps[i].1.WritePermission.b, ps[i].1.DeletePermission.b)))))
  }

  /** The request `onSubmit` builds from a validated form. `clock(n)` is the
      value of the `n`-th `new Date().toISOString()` call: the header reads
      the clock twice, then each detail twice, in order. */
  function CreateRequest(v: ValidRole, clock: nat -> string): (req: GroupRequest) {
    var uid := Text(v.userGroupId);
    var header := GroupHeader(uid, Text(v.companyId), Text(v.description), Text(v.userGroupType),
                              uid, Text(clock(0)), uid, Text(clock(1)), NullSlots());
    var ps := v.permissions;
    GroupRequest([header],
      seq(|ps|, i requires 0 <= i < |ps| =>
        GroupDetail(uid, Text(v.companyId), Text(ps[i].0),
          Bool(ps[i].1.ReadPermission), Bool(ps[i].1.WritePermission), Bool(ps[i].1.DeletePermission),
          uid, Text(clock(2 + 2 * i)), uid, Text(clock(3 + 2 * i)), NullSlots())),
      EmptyResponse())
  }

  /** The new group is created by and last modified by its own id; the
      header carries the form's company, description and type; there is one
      detail per entry, in the map's order, with the entry's flags; the dates
      are the clock's successive readings. */
  lemma CreateRequestSpec(v: ValidRole, clock: nat -> string)
    ensures var req := CreateRequest(v, clock);
      && |req.Header| == 1 && |req.Details| == |v.permissions|
      && req.Header[0].UserGroupId == Text(v.userGroupId)
      && req.Header[0].CompanyId == Text(v.companyId) && req.Header[0].Description == Text(v.description)
      && req.Header[0].CreateBy == Text(v.userGroupId) && req.Header[0].ModifyBy == Text(v.userGroupId)
      && req.Header[0].UsewrGroupType == Text(v.userGroupType)
      && req.Header[0].CreateDate == Text(clock(0)) && req.Header[0].ModifyDate == Text(clock(1))
      && AllNull(req.Header[0].Intallia)
      && req.Response == EmptyResponse()
      && forall i :: 0 <= i < |v.permissions| ==>
           && req.Details[i].ScreenId == Text(v.permissions[i].0)
           && req.Details[i].UserGroupId == Text(v.userGroupId)
           && req.Details[i].CompanyId == Text(v.companyId)
           && req.Details[i].ReadPermission == Bool(v.permissions[i].1.ReadPermission)
           && req.Details[i].WritePermission == Bool(v.permissions[i].1.WritePermission)
           && req.Details[i].DeletePermission == Bool(v.permissions[i].1.DeletePermission)
           && req.Details[i].CreateBy == Text(v.userGroupId) && req.Details[i].ModifyBy == Text(v.userGroupId)
           && req.Details[i].CreateDate == Text(clock(2 + 2 * i))
           && req.Details[i].ModifyDate == Text(clock(3 + 2 * i))
           && AllNull(req.Details[i].Intallia)
  {
  }

  /** Under a clock that does not move, every record carries the same date. */
  lemma SteadyClockOneDate(v: ValidRole, clock: nat -> string, t: string)
    requires forall n :: clock(n) == t
    ensures var req := CreateRequest(v, clock);
      && req.Header[0].CreateDate == Text(t) && req.Header[0].ModifyDate == Text(t)
      && forall i :: 0 <= i < |req.Details| ==> req.Details[i].CreateDate == Text(t) && req.Details[i].ModifyDate == Text(t)
  {
  }

  /** The entry a checkbox reads: the stored one, or `{}`. */
  function EntryOf(d: Dict<PermEntry>, id: string): PermEntry {
    Get(d, id).GetOr(NoEntry)
  }

  /** `checked={field.value || false}` */
  predicate Checked(d: Dict<PermEntry>, id: string, p: Perm) {
    Truthy(Or(EntryFlag(EntryOf(d, id), p), Bool(false)))
  }

  /** `field.onChange(!field.value)` on `permissions.<id>.<perm>`: writes the
      negated flag, creating the entry when it is missing. */
  function ToggleFlag(d: Dict<PermEntry>, id: string, p: Perm): Dict<PermEntry> {
    var e := EntryOf(d, id);
    Put(d, id, EntryWithFlag(e, p, Not(EntryFlag(e, p))))
  }

  /** A click flips exactly the box clicked, which then holds the boolean
      negation of what it held; the entry's other two values and every other
      entry are stored as they were; a missing entry is appended last. */
  lemma ToggleFlagSpec(d: Dict<PermEntry>, id: string, p: Perm, id': string, p': Perm)
    ensures Checked(ToggleFlag(d, id, p), id, p) == !Checked(d, id, p)
    ensures EntryFlag(EntryOf(ToggleFlag(d, id, p), id), p) == Not(EntryFlag(EntryOf(d, id), p))
    ensures (id', p') != (id, p) ==> Checked(ToggleFlag(d, id, p), id', p') == Checked(d, id', p')
    ensures forall q :: q != p ==> EntryFlag(EntryOf(ToggleFlag(d, id, p), id), q) == EntryFlag(EntryOf(d, id), q)
    ensures id' != id ==> Get(ToggleFlag(d, id, p), id') == Get(d, id')
    ensures Keys(ToggleFlag(d, id, p)) == if id in Keys(d) then Keys(d) else Keys(d) + [id]
  {
    var e := EntryOf(d, id);
    var v := EntryWithFlag(e, p, Not(EntryFlag(e, p)));
    PutSpec(d, id, v);
    if id !in Keys(d) {
      assert Keys(d + [(id, v)]) == Keys(d) + [id];
    }
    if id' != id {
      PutOther(d, id, v, id');
    }
  }

  /** The first click on a box of a screen the map has no entry for
      creates a partial entry, and the whole form is then refused. */
  lemma PartialEntryRefused(f: RoleForm, id: string, p: Perm)
    requires id !in Keys(f.permissions)
    ensures Validate(f.(permissions := ToggleFlag(f.permissions, id, p))).Failure?
  {
    var d := ToggleFlag(f.permissions, id, p);
    PutSpec(f.permissions, id, EntryWithFlag(NoEntry, p, Not(EntryFlag(NoEntry, p))));
    assert d == f.permissions + [(id, EntryWithFlag(NoEntry, p, Bool(true)))];
    var q: Perm := if p == ReadPermission then WritePermission else ReadPermission;
    assert EntryFlag(d[|f.permissions|].1, q) == Undefined;
    assert !IsFlags(d[|f.permissions|].1);
  }

  /** A seeded, untouched form is refused until a description is typed in. */
  lemma DefaultsNeedDescription(storedUserGroupId: string, screens: seq<ParentScreen>)
    ensures var r := Validate(DefaultForm(storedUserGroupId).(permissions := DefaultPermissions(screens)));
      r.Failure? && DescriptionField in r.error
  {
  }

  /** The page's form state. */
  class RoleCreator {
    /** `localStorage.getItem("userGroupId") || ""`. The page reads it on
        every render; the stored value is taken not to change while the page is open. */
    const storedUserGroupId: string
    var screenData: seq<ParentScreen>
    var form: RoleForm
    var enabledScreens: map<string, bool>
    /** `screenData.length` the reseeding effect last ran for. */
    var seededLength: nat

    /** The first render: nothing loaded, the form at its defaults, every
        group closed. The reseeding effect's first run writes the empty
        `defaultPermissions` the form already holds. */
    constructor (storedUserGroupId: string)
      ensures this.storedUserGroupId == storedUserGroupId
      ensures screenData == [] && form == DefaultForm(storedUserGroupId)
      ensures enabledScreens == map[] && seededLength == 0
    {
      this.storedUserGroupId := storedUserGroupId;
      screenData := [];
      form := DefaultForm(storedUserGroupId);
      enabledScreens := map[];
      seededLength := 0;
    }

    /** The catalogue query resolves (it is only enabled for a non-empty
        stored id). The reseeding effect depends on `screenData.length` only:
        a catalogue of a new length replaces the permissions with its
        defaults; one of the same length leaves them as they were. */
    method Deliver(response: Option<seq<ParentScreen>>)
      requires storedUserGroupId != ""
      modifies this
      ensures screenData == ScreenList(response) && seededLength == |screenData|
      ensures enabledScreens == old(enabledScreens)
      ensures |screenData| != old(seededLength) ==> form == old(form).(permissions := DefaultPermissions(screenData))
      ensures |screenData| == old(seededLength) ==> form == old(form)
    {
      screenData := ScreenList(response);
      if |screenData| != seededLength {
        seededLength := |screenData|;
        var defaults := BuildIndex(screenData, DefaultEntry);
        form := form.(permissions := defaults);
      }
    }

    /** Typing into one of the inputs, or choosing a group type from the
        select, whose options are "", "Admin" and "B2C". */
    method EditText(field: Field, value: string)
      requires field != PermissionsField
      requires field == UserGroupTypeField ==> value in {"", "Admin", "B2C"}
      modifies this`form
      ensures form.permissions == old(form.permissions)
      ensures form.userGroupId == (if field == UserGroupIdField then value else old(form.userGroupId))
      ensures form.userGroupType == (if field == UserGroupTypeField then value else old(form.userGroupType))
      ensures form.companyId == (if field == CompanyIdField then value else old(form.companyId))
      ensures form.description == (if field == DescriptionField then value else old(form.description))
    {
      match field
      case UserGroupIdField => form := form.(userGroupId := value);
      case UserGroupTypeField => form := form.(userGroupType := value);
      case CompanyIdField => form := form.(companyId := value);
      case DescriptionField => form := form.(description := value);
    }

    /** A click on a permission checkbox. */
    method ToggleCheckbox(id: string, p: Perm)
      modifies this`form
      ensures form == old(form).(permissions := ToggleFlag(old(form.permissions), id, p))
    {
      var e := EntryOf(form.permissions, id);
      form := form.(permissions := Put(form.permissions, id, EntryWithFlag(e, p, Not(EntryFlag(e, p)))));
    }

    /** A click on a group header. */
    method ToggleGroup(id: string)
      modifies this`enabledScreens
      ensures enabledScreens == ToggleExpanded(old(enabledScreens), id)
    {
      enabledScreens := enabledScreens[id := !Expanded(enabledScreens, id)];
    }

    /** `handleSubmit(onSubmit)`: a refused form sends nothing and reports
        the failing fields; an accepted one is sent to CreateUserGroup.
        Nothing on the page changes. */
    method Submit(clock: nat -> string) returns (out: Result<GroupRequest, set<Field>>)
      ensures Validate(form).Failure? ==> out == Failure(Validate(form).error)
      ensures Validate(form).Success? ==> out == Success(CreateRequest(Validate(form).value, clock))
      ensures out.Success? ==>
                (|out.value.Details| == |form.permissions| &&
                 forall i :: 0 <= i < |form.permissions| ==> out.value.Details[i].ScreenId == Text(form.permissions[i].0))
    {
      var v := Validate(form);
      if v.Failure? {
        out := Failure(v.error);
      } else {
        out := Success(CreateRequest(v.value, clock));
      }
    }
  }
}
