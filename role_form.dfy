/** The role form: its defaults, the reset from a fetched role with `??`
    defaults for the access switches, the switches themselves, and the
    create-or-update choice on submit. */
module RoleForm {
  import opened Js

  /** The four access switches. */
  datatype AccessKey = UserManagement | Simulation | Package | Payment

  datatype AccessControls = AccessControls(userManagement: bool, simulation: bool, package: bool, payment: bool)

  function Access(a: AccessControls, k: AccessKey): bool {
    match k
    case UserManagement => a.userManagement
    case Simulation => a.simulation
    case Package => a.package
    case Payment => a.payment
  }

  /** The form's values. A text field is `None` when a reset gave it no value. */
  datatype RoleValues = RoleValues(
    name: Option<string>,
    companyName: Option<string>,
    email: Option<string>,
    phone: Option<string>,
    role: Option<string>,
    description: Option<string>,
    accessControls: AccessControls)

  /** `defaultValues.accessControls` */
  const DefaultAccess := AccessControls(true, true, true, false)

  /** The default of each switch: on, except Payment. */
  lemma DefaultAccessSpec(k: AccessKey)
    ensures Access(DefaultAccess, k) <==> k != Payment
  {
  }

  /** `defaultValues`: every text empty. */
  const DefaultValues := RoleValues(Some(""), Some(""), Some(""), Some(""), Some(""), Some(""), DefaultAccess)

  /** The fetched role's access object; a missing or null switch is `None`. */
  datatype FetchedAccess = FetchedAccess(
    userManagement: Option<bool>, simulation: Option<bool>, package: Option<bool>, payment: Option<bool>)

  function FetchedSwitch(a: FetchedAccess, k: AccessKey): Option<bool> {
    match k
    case UserManagement => a.userManagement
    case Simulation => a.simulation
    case Package => a.package
    case Payment => a.payment
  }

  /** A fetched role; `None` is a field it does not have. */
  datatype FetchedRole = FetchedRole(
    name: Option<string>,
    companyName: Option<string>,
    email: Option<string>,
    phone: Option<string>,
    role: Option<string>,
    description: Option<string>,
    accessControls: Option<FetchedAccess>)

  /** `roleData.accessControls?.<key> ?? <default>` */
  function SwitchOrDefault(a: Option<FetchedAccess>, k: AccessKey): bool {
    if a.Some? && FetchedSwitch(a.value, k).Some? then FetchedSwitch(a.value, k).value
    else Access(DefaultAccess, k)
  }

  /** The argument of `reset`: the fetched role spread in, with its access
      switches defaulted one by one. */
  function ResetValues(roleData: FetchedRole): (v: RoleValues)
    ensures v.name == roleData.name && v.companyName == roleData.companyName
    ensures v.email == roleData.email && v.phone == roleData.phone
    ensures v.role == roleData.role && v.description == roleData.description
  {
    var a := roleData.accessControls;
    RoleValues(roleData.name, roleData.companyName, roleData.email, roleData.phone,
      roleData.role, roleData.description,
      AccessControls(SwitchOrDefault(a, UserManagement), SwitchOrDefault(a, Simulation),
        SwitchOrDefault(a, Package), SwitchOrDefault(a, Payment)))
  }

  /** A switch the fetched role has keeps its value, even `false`; a missing
      one, or all of them when the role has no access object, takes the default. */
  lemma ResetAccessSpec(roleData: FetchedRole, k: AccessKey)
    ensures var got := Access(ResetValues(roleData).accessControls, k);
      && (roleData.accessControls.Some? && FetchedSwitch(roleData.accessControls.value, k).Some? ==>
            got == FetchedSwitch(roleData.accessControls.value, k).value)
      && (roleData.accessControls.None? || FetchedSwitch(roleData.accessControls.value, k).None? ==>
            got == Access(DefaultAccess, k))
  {
    match k
    case UserManagement =>
    case Simulation =>
    case Package =>
    case Payment =>
  }

  /** The fields `roleSchema` refuses. */
  datatype RoleField = NameField | CompanyNameField | EmailField | PhoneField | RoleNameField

  /** `z.string().min(1)` */
  predicate NonEmpty(o: Option<string>) {
    o.Some? && o.value != ""
  }

  function Errors(v: RoleValues, isEmail: string -> bool): (e: set<RoleField>)
    ensures NameField in e <==> !NonEmpty(v.name)
    ensures CompanyNameField in e <==> !NonEmpty(v.companyName)
    ensures EmailField in e <==> !(v.email.Some? && isEmail(v.email.value))
    ensures PhoneField in e <==> !NonEmpty(v.phone)
    ensures RoleNameField in e <==> !NonEmpty(v.role)
  {
    (if NonEmpty(v.name) then {} else {NameField}) +
    (if NonEmpty(v.companyName) then {} else {CompanyNameField}) +
    (if v.email.Some? && isEmail(v.email.value) then {} else {EmailField}) +
    (if NonEmpty(v.phone) then {} else {PhoneField}) +
    (if NonEmpty(v.role) then {} else {RoleNameField})
  }

  /** The mutation a valid submit runs. */
  datatype RoleMutation = UpdateRole(id: string, data: RoleValues) | CreateRole(data: RoleValues)

  /** `handleAddNewRole`: update the role named in the route iff there is a
      truthy id, otherwise create one; either way with the form's data. */
  function HandleAddNewRole(id: Option<string>, data: RoleValues): (m: RoleMutation)
    ensures m.UpdateRole? <==> PresentText(id)
    ensures m.UpdateRole? ==> m.id == id.value
    ensures m.data == data
  {
    if PresentText(id) then UpdateRole(id.value, data) else CreateRole(data)
  }

  /** The form state. The role query is created with `enabled: false` and
      nothing refetches it, so in the page as written `Reset` is never
      reached; it models the effect's body. */
  class RoleFormState {
    var values: RoleValues

    constructor ()
      ensures values == DefaultValues
    {
      values := DefaultValues;
    }

    /** The reset effect: with fetched role data, the form becomes its values. */
    method Reset(roleData: Option<FetchedRole>)
      modifies this
      ensures roleData.None? ==> values == old(values)
      ensures roleData.Some? ==> values == ResetValues(roleData.value)
    {
      if roleData.Some? {
        values := ResetValues(roleData.value);
      }
    }

    /** `setAccessControl(key, value)`: only that switch changes. */
    method SetAccessControl(key: AccessKey, value: bool)
      modifies this
      ensures Access(values.accessControls, key) == value
      ensures forall k :: k != key ==> Access(values.accessControls, k) == Access(old(values.accessControls), k)
      ensures values.(accessControls := old(values.accessControls)) == old(values)
    {
      var a := values.accessControls;
      var a' := match key
        case UserManagement => a.(userManagement := value)
        case Simulation => a.(simulation := value)
        case Package => a.(package := value)
        case Payment => a.(payment := value);
      values := values.(accessControls := a');
    }

    /** `handleSubmit(handleAddNewRole)`: a refused form runs no mutation. */
    method Submit(id: Option<string>, isEmail: string -> bool) returns (out: Result<RoleMutation, set<RoleField>>)
      ensures Errors(values, isEmail) != {} ==> out == Failure(Errors(values, isEmail))
      ensures Errors(values, isEmail) == {} ==> out == Success(HandleAddNewRole(id, values))
    {
      var e := Errors(values, isEmail);
      if e != {} {
        out := Failure(e);
      } else {
        out := Success(HandleAddNewRole(id, values));
      }
    }
  }
}
