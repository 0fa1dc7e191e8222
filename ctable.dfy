/** The company table's cells: the status text and its badge style, the
    per-row action menu, the delete request and the edit link. */
module CTable {
  import opened Js
  import opened Text
  import opened Envelope
  import opened CompanyManagement
  import CompanyForm

  /** `company.Status ? charAt(0).toUpperCase() + slice(1).toLowerCase() : ""` */
  function NormaliseStatus(status: Option<string>): (r: string)
    ensures !PresentText(status) ==> r == ""
    ensures PresentText(status) ==> |r| == |status.value| && r[0] == UpperChar(status.value[0])
    ensures PresentText(status) ==> forall i :: 1 <= i < |r| ==> r[i] == LowerChar(status.value[i])
  {
    if PresentText(status) then [UpperChar(status.value[0])] + Lower(status.value[1..]) else ""
  }

  /** Normalising a normalised status changes nothing. */
  lemma NormaliseIdempotent(status: Option<string>)
    ensures NormaliseStatus(Some(NormaliseStatus(status))) == NormaliseStatus(status)
  {
    if PresentText(status) {
      var s := status.value;
      var r := NormaliseStatus(status);
      UpperCharIdempotent(s[0]);
      LowerIdempotent(s[1..]);
      assert r[1..] == Lower(s[1..]);
    }
  }

  /** A status is shown as the capitalised word `w` exactly when, read
      without regard to case, it is `w`. */
  lemma NormaliseIsWord(status: Option<string>, w: string)
    requires |w| > 0 && IsUpper(w[0]) && Lower(w[1..]) == w[1..]
    ensures NormaliseStatus(status) == w <==> PresentText(status) && Lower(status.value) == Lower(w)
  {
    if PresentText(status) {
      var s := status.value;
      UpperCharIs(s[0], w[0]);
      assert Lower(s) == [LowerChar(s[0])] + Lower(s[1..]);
      assert Lower(w) == [LowerChar(w[0])] + Lower(w[1..]);
      var r := NormaliseStatus(status);
      assert r == [UpperChar(s[0])] + Lower(s[1..]);
      if Lower(s) == Lower(w) {
        assert Lower(s)[1..] == Lower(w)[1..];
        assert r == w;
      }
      if r == w {
        assert r[1..] == w[1..];
      }
    }
  }

  datatype BadgeStyle = ActiveStyle | InactiveStyle | NoStyle

  /** The badge's class name, chosen on the normalised status. */
  function Badge(status: string): (b: BadgeStyle)
    ensures b == ActiveStyle <==> status == "Active"
    ensures b == InactiveStyle <==> status == "Inactive"
    ensures b == NoStyle <==> status != "Active" && status != "Inactive"
  {
    if status == "Active" then ActiveStyle else if status == "Inactive" then InactiveStyle else NoStyle
  }

  /** The badge of a row, in terms of the raw status: green for any casing
      of "active", red for any casing of "inactive", plain otherwise. */
  lemma BadgeOfStatus(status: Option<string>)
    ensures Badge(NormaliseStatus(status)) == ActiveStyle <==> PresentText(status) && Lower(status.value) == "active"
    ensures Badge(NormaliseStatus(status)) == InactiveStyle <==> PresentText(status) && Lower(status.value) == "inactive"
  {
    ActiveIsWord();
    InactiveIsWord();
    NormaliseIsWord(status, "Active");
    NormaliseIsWord(status, "Inactive");
  }

  lemma ActiveIsWord()
    ensures Lower("Active"[1..]) == "Active"[1..] && Lower("Active") == "active"
  {
    assert "Active"[1..] == "ctive";
    assert Lower("ctive") == "ctive";
  }

  lemma InactiveIsWord()
    ensures Lower("Inactive"[1..]) == "Inactive"[1..] && Lower("Inactive") == "inactive"
  {
    assert "Inactive"[1..] == "nactive";
    assert Lower("nactive") == "nactive";
  }

  const EditPrefix := "/add-company?companyId="

  /** The edit menu item's route. */
  function EditTarget(companyId: string): (url: string)
    ensures StartsWith(url, EditPrefix) && url[|EditPrefix|..] == companyId
  {
    EditPrefix + companyId
  }

  /** Two companies never share an edit route. */
  lemma EditTargetInjective(a: string, b: string)
    ensures EditTarget(a) == EditTarget(b) ==> a == b
  {
    if EditTarget(a) == EditTarget(b) {
      assert EditTarget(a)[|EditPrefix|..] == EditTarget(b)[|EditPrefix|..];
    }
  }

  /** The delete mutation's request. */
  function DeleteRequest(companyId: string): (req: CompanyKeyRequest)
    ensures req.Header == [CompanyKey(Text(companyId))] && req.Response == EmptyResponse()
  {
    CompanyKeyRequest([CompanyKey(Text(companyId))], EmptyResponse())
  }

  /** What a row's action menu does: open the edit route, or delete that id. */
  datatype RowActions = RowActions(editTarget: string, deleteRequest: CompanyKeyRequest)

  /** `company && company.CompanyId ? <ActionModal .../> : null` */
  function Actions(row: Option<Company>): (r: Option<RowActions>)
    ensures r.Some? <==> row.Some? && PresentText(row.value.CompanyId)
    ensures r.Some? ==> var id := row.value.CompanyId.value;
              r.value.editTarget == EditTarget(id) && r.value.deleteRequest == DeleteRequest(id)
  {
    if row.Some? && PresentText(row.value.CompanyId) then
      var id := row.value.CompanyId.value;
      Some(RowActions(EditTarget(id), DeleteRequest(id)))
    else None
  }

  /** The delete request a row's menu sends is the lookup request the company
      form builds for the same id: the menu guard keeps it away from the
      form's empty-id error. */
  lemma DeleteMatchesLookup(row: Option<Company>)
    requires Actions(row).Some?
    ensures CompanyForm.BuildCompanyPayload(Text(row.value.CompanyId.value)) ==
              Success(Actions(row).value.deleteRequest)
  {
  }
}
