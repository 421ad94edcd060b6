/** The report dialog: the user picks one of a fixed list of reasons, or
    "other" with a free-text explanation, and submits the reason as a string. */
module ReportDialog {
  import opened Wrappers
  import opened Text

  /** The longest free-text reason handed on. */
  const MaxInfoLength: nat := 500

  /** A choice of the dialog: the value the radio group holds and the label it shows. */
  datatype ReasonChoice = ReasonChoice(value: string, title: string)

  /** `reportReasons`, in display order. */
  const Reasons: seq<ReasonChoice> := [
    ReasonChoice("inappropriate", "Inappropriate content"),
    ReasonChoice("harassment", "Harassment or bullying"),
    ReasonChoice("spam", "Spam or scam"),
    ReasonChoice("underage", "Underage user"),
    ReasonChoice("other", "Other")
  ]

  /** `reasons.find(r => r.value === value)?.label`: the label of the first choice
      with that value. */
  function LabelOf(reasons: seq<ReasonChoice>, value: string): (r: Option<string>)
    ensures r.Some? <==> exists i :: 0 <= i < |reasons| && reasons[i].value == value
    ensures r.Some? ==> exists i :: 0 <= i < |reasons| && reasons[i].value == value &&
                                    r.value == reasons[i].title &&
                                    forall j :: 0 <= j < i ==> reasons[j].value != value
  {
    if reasons == [] then None
    else if reasons[0].value == value then Some(reasons[0].title)
    else
      var r := LabelOf(reasons[1..], value);
      assert forall j :: 1 <= j < |reasons| ==> reasons[j] == reasons[1..][j - 1];
      r
  }

  /** The reason `handleSubmit` hands on: for `other`, the trimmed explanation cut
      to 500 characters, or "Other" when it is blank; for a listed value, its
      label; any other value unchanged. */
  function DeriveReason(selected: string, info: string): (reason: string)
    ensures selected == "other" ==> 1 <= |reason| <= MaxInfoLength
    ensures selected == "other" && !AllWhitespace(info) ==> reason <= Trim(info)
    ensures selected == "other" && !AllWhitespace(info) ==>
              |reason| == if |Trim(info)| <= MaxInfoLength then |Trim(info)| else MaxInfoLength
    ensures selected == "other" && AllWhitespace(info) ==> reason == "Other"
  {
    TrimEmptyIff(info);
    if selected == "other" then
      var text := Take(Trim(info), MaxInfoLength);
      if text != "" then text else "Other"
    else
      match LabelOf(Reasons, selected)
      case Some(title) => if title != "" then title else selected
      case None => selected
  }

  /** The reason is empty exactly when nothing is selected: every label is
      non-empty, and the empty value is not listed. */
  lemma ReasonEmptyIff(selected: string, info: string)
    ensures DeriveReason(selected, info) == "" <==> selected == ""
  {
    if selected == "" {
      assert forall i :: 0 <= i < |Reasons| ==> |Reasons[i].value| > 0;
      assert LabelOf(Reasons, selected).None?;
    }
  }

  /** Each listed value other than `other` is reported as its label, whatever
      explanation is left over from an earlier choice of `other`. */
  lemma ListedReasonsLabelled(info: string)
    ensures DeriveReason("inappropriate", info) == "Inappropriate content"
    ensures DeriveReason("harassment", info) == "Harassment or bullying"
    ensures DeriveReason("spam", info) == "Spam or scam"
    ensures DeriveReason("underage", info) == "Underage user"
  {
    assert Reasons[0].value == "inappropriate";
    assert Reasons[1].value == "harassment" && Reasons[0].value != "harassment";
    assert Reasons[2].value == "spam" && Reasons[1].value != "spam" && Reasons[0].value != "spam";
    assert Reasons[3].value == "underage" && Reasons[2].value != "underage";
  }

  /** A value outside the list, such as nothing selected, is reported as it is. */
  lemma UnlistedReasonUnchanged(selected: string, info: string)
    requires forall i :: 0 <= i < |Reasons| ==> Reasons[i].value != selected
    ensures DeriveReason(selected, info) == selected
  {
    assert Reasons[4].value == "other";
    assert LabelOf(Reasons, selected).None?;
  }

  /** The dialog's state. */
  class Dialog {
    var selectedReason: string
    var additionalInfo: string

    /** Nothing selected, no explanation. */
    constructor ()
      ensures selectedReason == "" && additionalInfo == ""
    {
      selectedReason, additionalInfo := "", "";
    }

    /** The submit button is disabled exactly while no reason is selected, which
        is exactly when submitting would hand on an empty reason. */
    function SubmitDisabled(): (disabled: bool)
      reads this
      ensures disabled <==> DeriveReason(selectedReason, additionalInfo) == ""
    {
      ReasonEmptyIff(selectedReason, additionalInfo);
      selectedReason == ""
    }

    /** `handleSubmit`: hands on the derived reason once, then clears both fields. */
    method HandleSubmit() returns (reason: string)
      modifies this
      ensures reason == DeriveReason(old(selectedReason), old(additionalInfo))
      ensures selectedReason == "" && additionalInfo == ""
    {
      reason := DeriveReason(selectedReason, additionalInfo);
      selectedReason, additionalInfo := "", "";
    }
  }
}
