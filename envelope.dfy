/** The logical records the pages send to the backend. Every request is wrapped
    by the caller as `{ JSON: JSON.stringify({ Header, Details?, Response }) }`;
    the string encoding is not modelled, the records inside it are. */
module Envelope {
  import opened Js

  /** `{ ResponseText, ErrorCode }`, sent empty with every request. */
  datatype ResponseSlot = ResponseSlot(ResponseText: string, ErrorCode: string)

  /** `Response: [{ ResponseText: "", ErrorCode: "" }]` */
  function EmptyResponse(): (r: seq<ResponseSlot>)
    ensures |r| == 1 && r[0].ResponseText == "" && r[0].ErrorCode == ""
  {
    [ResponseSlot("", "")]
  }

  /** The spare columns `Intallia1` ... `Intallia15` every saved record carries. */
  const IntalliaSlots: nat := 15

  /** `Intallia1: null, ..., Intallia15: null` */
  function NullSlots(): (r: seq<JsValue>)
    ensures |r| == IntalliaSlots
    ensures forall i :: 0 <= i < |r| ==> r[i] == Null
  {
    seq(IntalliaSlots, _ => Null)
  }

  predicate AllNull(slots: seq<JsValue>) {
    |slots| == IntalliaSlots && forall i :: 0 <= i < |slots| ==> slots[i] == Null
  }

  /** `{ CompanyId: id }`, the header of a company lookup or delete. */
  datatype CompanyKey = CompanyKey(CompanyId: JsValue)

  datatype CompanyKeyRequest = CompanyKeyRequest(Header: seq<CompanyKey>, Response: seq<ResponseSlot>)

  /** The header record of a user group (role) save. `UsewrGroupType` is the
      key as the pages spell it. */
  datatype GroupHeader = GroupHeader(
    UserGroupId: JsValue,
    CompanyId: JsValue,
    Description: JsValue,
    UsewrGroupType: JsValue,
    CreateBy: JsValue,
    CreateDate: JsValue,
    ModifyBy: JsValue,
    ModifyDate: JsValue,
    Intallia: seq<JsValue>)

  /** One permission row of a user group save. */
  datatype GroupDetail = GroupDetail(
    UserGroupId: JsValue,
    CompanyId: JsValue,
    ScreenId: JsValue,
    ReadPermission: JsValue,
    WritePermission: JsValue,
    DeletePermission: JsValue,
    CreateBy: JsValue,
    CreateDate: JsValue,
    ModifyBy: JsValue,
    ModifyDate: JsValue,
    Intallia: seq<JsValue>)

  datatype GroupRequest = GroupRequest(
    Header: seq<GroupHeader>,
    Details: seq<GroupDetail>,
    Response: seq<ResponseSlot>)
}
