/** The company add/edit form: the company lookup request and its guard,
    the mapping of a fetched company onto the form, the load effect that
    writes it field by field, and the add/update request built on submit. */
module CompanyForm {
  import opened Js
  import opened Envelope

  /** The form's thirteen fields, in the order of `defaultValues`. */
  datatype FieldName =
    | CompanyIdField | CompanyNameField | ContactPersonNameField | PhoneNumberField
    | WebsiteField | EmailField | AddressField | CityField | StateField | CountryField
    | StatusField | NumberOfUsersField | NumberOfSimulationsField

  const FieldOrder: seq<FieldName> := [
    CompanyIdField, CompanyNameField, ContactPersonNameField, PhoneNumberField,
    WebsiteField, EmailField, AddressField, CityField, StateField, CountryField,
    StatusField, NumberOfUsersField, NumberOfSimulationsField]

  /** Every field is in `FieldOrder` once. */
  lemma FieldOrderComplete(n: FieldName)
    ensures n in FieldOrder
    ensures forall i, j :: 0 <= i < j < |FieldOrder| ==> FieldOrder[i] != FieldOrder[j]
  {
  }

  /** `CompanyFormValues` */
  datatype CompanyFormValues = CompanyFormValues(
    companyId: string, companyName: string, contactPersonName: string, phoneNumber: string,
    website: string, email: string, address: string, city: string, state: string, country: string,
    status: string, numberOfUsers: string, numberOfSimulations: string)

  function FormField(f: CompanyFormValues, n: FieldName): string {
    match n
    case CompanyIdField => f.companyId
    case CompanyNameField => f.companyName
    case ContactPersonNameField => f.contactPersonName
    case PhoneNumberField => f.phoneNumber
    case WebsiteField => f.website
    case EmailField => f.email
    case AddressField => f.address
    case CityField => f.city
    case StateField => f.state
    case CountryField => f.country
    case StatusField => f.status
    case NumberOfUsersField => f.numberOfUsers
    case NumberOfSimulationsField => f.numberOfSimulations
  }

  /** `defaultValues`: every field empty. */
  const DefaultValues := CompanyFormValues("", "", "", "", "", "", "", "", "", "", "", "", "")

  /** A company record as the backend sends it; `None` is a missing or null field. */
  datatype BackendCompany = BackendCompany(
    CompanyId: Option<string>, CompanyName: Option<string>, ContactPersonName: Option<string>,
    PhoneNumber: Option<string>, Website: Option<string>, Email: Option<string>,
    Address: Option<string>, City: Option<string>, State: Option<string>, Country: Option<string>,
    Status: Option<string>, NumberOfUsers: Option<string>, NumberOfSimulations: Option<string>)

  /** The backend field each form field is read from. */
  function BackendField(b: BackendCompany, n: FieldName): Option<string> {
    match n
    case CompanyIdField => b.CompanyId
    case CompanyNameField => b.CompanyName
    case ContactPersonNameField => b.ContactPersonName
    case PhoneNumberField => b.PhoneNumber
    case WebsiteField => b.Website
    case EmailField => b.Email
    case AddressField => b.Address
    case CityField => b.City
    case StateField => b.State
    case CountryField => b.Country
    case StatusField => b.Status
    case NumberOfUsersField => b.NumberOfUsers
    case NumberOfSimulationsField => b.NumberOfSimulations
  }

  const InvalidCompanyId := "Invalid companyId provided to buildCompanyPayload"

  /** `buildCompanyPayload(companyId)`: throws on a falsy id. */
  function BuildCompanyPayload(companyId: JsValue): (r: Result<CompanyKeyRequest, string>)
    ensures r.Success? <==> Truthy(companyId)
    ensures r.Failure? ==> r.error == InvalidCompanyId
    ensures r.Success? ==> r.value.Header == [CompanyKey(companyId)] && r.value.Response == EmptyResponse()
  {
    if !Truthy(companyId) then Failure(InvalidCompanyId)
    else Success(CompanyKeyRequest([CompanyKey(companyId)], EmptyResponse()))
  }

  /** `mapCompanyDataToForm(data)`: each field `data?.X || ""`. */
  function MapCompanyDataToForm(data: Option<BackendCompany>): (f: CompanyFormValues)
    ensures data.None? ==> f == DefaultValues
  {
    if data.None? then DefaultValues
    else
      var b := data.value;
      CompanyFormValues(
        OrText(b.CompanyId, ""), OrText(b.CompanyName, ""), OrText(b.ContactPersonName, ""),
        OrText(b.PhoneNumber, ""), OrText(b.Website, ""), OrText(b.Email, ""),
        OrText(b.Address, ""), OrText(b.City, ""), OrText(b.State, ""), OrText(b.Country, ""),
        OrText(b.Status, ""), OrText(b.NumberOfUsers, ""), OrText(b.NumberOfSimulations, ""))
  }

  /** Each form field is the backend's field when that is a non-empty
      string, and `""` when it is missing, null or empty, or when there is no
      record at all. */
  lemma MapCompanyDataToFormSpec(data: Option<BackendCompany>, n: FieldName)
    ensures data.Some? && PresentText(BackendField(data.value, n)) ==>
              FormField(MapCompanyDataToForm(data), n) == BackendField(data.value, n).value
    ensures data.None? || !PresentText(BackendField(data.value, n)) ==>
              FormField(MapCompanyDataToForm(data), n) == ""
  {
  }

  /** The backend record the form's values would come from. */
  function AsBackend(f: CompanyFormValues): BackendCompany {
    BackendCompany(Some(f.companyId), Some(f.companyName), Some(f.contactPersonName),
      Some(f.phoneNumber), Some(f.website), Some(f.email), Some(f.address), Some(f.city),
      Some(f.state), Some(f.country), Some(f.status), Some(f.numberOfUsers), Some(f.numberOfSimulations))
  }

  /** Reading a record made from form values gives those values back. */
  lemma MapRoundTrip(f: CompanyFormValues)
    ensures MapCompanyDataToForm(Some(AsBackend(f))) == f
  {
  }

  /** A company lookup result, `{ Header }`. */
  datatype CompanyLookup = CompanyLookup(Header: Listish<BackendCompany>)

  /** The query function's request: none for a falsy id (it returns `null`
      first), otherwise the lookup request, which the guard keeps clear of
      `buildCompanyPayload`'s error. */
  function FetchRequest(companyId: Option<string>): (r: Option<CompanyKeyRequest>)
    ensures r.Some? <==> PresentText(companyId)
    ensures r.Some? ==> Success(r.value) == BuildCompanyPayload(Text(companyId.value))
  {
    if !PresentText(companyId) then None
    else Some(BuildCompanyPayload(Text(companyId.value)).value)
  }

  /** `Array.isArray(header) && header.length > 0 ? header[0] : null` */
  function FirstHeader(response: Option<CompanyLookup>): (r: Option<BackendCompany>)
    ensures r.Some? <==> response.Some? && response.value.Header.List? && |response.value.Header.items| > 0
    ensures r.Some? ==> r.value == response.value.Header.items[0]
  {
    if response.Some? && response.value.Header.List? && |response.value.Header.items| > 0
    then Some(response.value.Header.items[0]) else None
  }

  /** The fields `companySchema` refuses; `.url()` and `.email()` are the
      given predicates. The two counts are optional. */
  function Errors(f: CompanyFormValues, isUrl: string -> bool, isEmail: string -> bool): (e: set<FieldName>)
    ensures NumberOfUsersField !in e && NumberOfSimulationsField !in e
    ensures WebsiteField in e <==> !isUrl(f.website)
    ensures EmailField in e <==> !isEmail(f.email)
    ensures forall n :: n != WebsiteField && n != EmailField && n != NumberOfUsersField && n != NumberOfSimulationsField ==>
              (n in e <==> FormField(f, n) == "")
  {
    (set n | n in FieldOrder && n != WebsiteField && n != EmailField && n != NumberOfUsersField &&
             n != NumberOfSimulationsField && FormField(f, n) == "")
    + (if isUrl(f.website) then {} else {WebsiteField})
    + (if isEmail(f.email) then {} else {EmailField})
  }

  /** The header record of an add or update request: the form's own keys
      (spread in under their form names), the two counts, the audit fields
      and the fifteen spare columns. */
  datatype CompanyHeader = CompanyHeader(
    form: CompanyFormValues,
    NumberOfUsers: string,
    NumberOfSimulations: string,
    CreateBy: string,
    CreateDate: string,
    ModifyBy: string,
    ModifyDate: string,
    Intallia: seq<JsValue>)

  const DefaultCount := "500"
  const Admin := "Admin"

  /** `addNewCompany`'s header. `clock(n)` is the `n`-th clock reading. */
  function AddHeader(formData: CompanyFormValues, clock: nat -> string): CompanyHeader {
    CompanyHeader(formData,
      if formData.numberOfUsers != "" then formData.numberOfUsers else DefaultCount,
      if formData.numberOfSimulations != "" then formData.numberOfSimulations else DefaultCount,
      Admin, clock(0), Admin, clock(1), NullSlots())
  }

  /** `handleUpdateCompany`'s header. */
  function UpdateHeader(formData: CompanyFormValues, clock: nat -> string): CompanyHeader {
    CompanyHeader(formData,
      if formData.numberOfUsers != "" then formData.numberOfUsers else DefaultCount,
      if formData.numberOfSimulations != "" then formData.numberOfSimulations else DefaultCount,
      Admin, clock(0), Admin, clock(1), NullSlots())
  }

  /** Both headers carry the form as it is, an empty count as "500" and a
      given one as typed, "Admin" as creator and modifier, and null spares;
      and the add and update headers are the same record. */
  lemma HeaderSpec(formData: CompanyFormValues, clock: nat -> string)
    ensures var h := AddHeader(formData, clock);
      && h == UpdateHeader(formData, clock)
      && h.form == formData
      && (formData.numberOfUsers == "" ==> h.NumberOfUsers == DefaultCount)
      && (formData.numberOfUsers != "" ==> h.NumberOfUsers == formData.numberOfUsers)
      && (formData.numberOfSimulations == "" ==> h.NumberOfSimulations == DefaultCount)
      && (formData.numberOfSimulations != "" ==> h.NumberOfSimulations == formData.numberOfSimulations)
      && h.CreateBy == Admin && h.ModifyBy == Admin
      && h.CreateDate == clock(0) && h.ModifyDate == clock(1)
      && AllNull(h.Intallia)
  {
  }

  /** The request the form sends: to the update endpoint or the add endpoint. */
  datatype CompanySave = UpdateCompany(header: CompanyHeader) | AddCompany(header: CompanyHeader)

  /** `onSubmit`: update iff the page was opened with a truthy `companyId`. */
  function OnSubmit(companyId: Option<string>, formData: CompanyFormValues, clock: nat -> string): (s: CompanySave)
    ensures s.UpdateCompany? <==> PresentText(companyId)
    ensures s.header == AddHeader(formData, clock)
  {
    if PresentText(companyId) then UpdateCompany(UpdateHeader(formData, clock))
    else AddCompany(AddHeader(formData, clock))
  }

  /** The record of a value per field. */
  function FromValues(values: map<FieldName, string>): (f: CompanyFormValues)
    requires forall n: FieldName :: n in values
    ensures forall n :: FormField(f, n) == values[n]
  {
    CompanyFormValues(values[CompanyIdField], values[CompanyNameField], values[ContactPersonNameField],
      values[PhoneNumberField], values[WebsiteField], values[EmailField], values[AddressField],
      values[CityField], values[StateField], values[CountryField], values[StatusField],
      values[NumberOfUsersField], values[NumberOfSimulationsField])
  }

  /** A record is determined by its thirteen fields. */
  lemma FieldsDetermine(f: CompanyFormValues, g: CompanyFormValues)
    requires forall n :: FormField(f, n) == FormField(g, n)
    ensures f == g
  {
    assert FormField(f, CompanyIdField) == FormField(g, CompanyIdField);
    assert FormField(f, CompanyNameField) == FormField(g, CompanyNameField);
    assert FormField(f, ContactPersonNameField) == FormField(g, ContactPersonNameField);
    assert FormField(f, PhoneNumberField) == FormField(g, PhoneNumberField);
    assert FormField(f, WebsiteField) == FormField(g, WebsiteField);
    assert FormField(f, EmailField) == FormField(g, EmailField);
    assert FormField(f, AddressField) == FormField(g, AddressField);
    assert FormField(f, CityField) == FormField(g, CityField);
    assert FormField(f, StateField) == FormField(g, StateField);
    assert FormField(f, CountryField) == FormField(g, CountryField);
    assert FormField(f, StatusField) == FormField(g, StatusField);
    assert FormField(f, NumberOfUsersField) == FormField(g, NumberOfUsersField);
    assert FormField(f, NumberOfSimulationsField) == FormField(g, NumberOfSimulationsField);
  }

  /** The form's state: a value per field, written by `setValue`. */
  class CompanyFormState {
    var values: map<FieldName, string>

    ghost predicate Valid()
      reads this
    {
      forall n: FieldName :: n in values
    }

    /** The form's values as a record. */
    function Current(): CompanyFormValues
      reads this
      requires Valid()
    {
      FromValues(values)
    }

    /** The form opens at `defaultValues`. */
    constructor ()
      ensures Valid() && Current() == DefaultValues
    {
      var initial := map n: FieldName | n in FieldOrder :: "";
      forall n: FieldName ensures n in initial {
        FieldOrderComplete(n);
      }
      FieldsDetermine(FromValues(initial), DefaultValues);
      values := initial;
    }

    /** `setValue(key, value)`: that field takes the value, the others keep theirs. */
    method SetValue(n: FieldName, value: string)
      requires Valid()
      modifies this
      ensures Valid()
      ensures values == old(values)[n := value]
    {
      values := values[n := value];
    }

    /** The load effect: with a fetched company, writes every entry of
        `mapCompanyDataToForm(companyData)`, in order; without one, nothing. */
    method Load(companyData: Option<BackendCompany>)
      requires Valid()
      modifies this
      ensures Valid()
      ensures companyData.None? ==> values == old(values)
      ensures companyData.Some? ==> Current() == MapCompanyDataToForm(companyData)
    {
      if companyData.Some? {
        var mapped := MapCompanyDataToForm(companyData);
        var i := 0;
        while i < |FieldOrder|
          invariant 0 <= i <= |FieldOrder|
          invariant Valid()
          invariant forall j :: 0 <= j < i ==> values[FieldOrder[j]] == FormField(mapped, FieldOrder[j])
        {
          SetValue(FieldOrder[i], FormField(mapped, FieldOrder[i]));
          i := i + 1;
        }
        forall n: FieldName ensures FormField(Current(), n) == FormField(mapped, n) {
          FieldOrderComplete(n);
          var j :| 0 <= j < |FieldOrder| && FieldOrder[j] == n;
        }
        FieldsDetermine(Current(), mapped);
      }
    }

    /** `handleSubmit(onSubmit)`: a refused form sends nothing and reports
        its failing fields; an accepted one is sent to the endpoint the
        branch picks. Nothing in the form changes. */
    method Submit(companyId: Option<string>, isUrl: string -> bool, isEmail: string -> bool, clock: nat -> string)
      returns (out: Result<CompanySave, set<FieldName>>)
      requires Valid()
      ensures var e := Errors(Current(), isUrl, isEmail);
        && (e != {} ==> out == Failure(e))
        && (e == {} ==> out == Success(OnSubmit(companyId, Current(), clock)))
    {
      var e := Errors(Current(), isUrl, isEmail);
      if e != {} {
        out := Failure(e);
      } else {
        out := Success(OnSubmit(companyId, Current(), clock));
      }
    }
  }
}
