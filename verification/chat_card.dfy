/** What a history card shows for one entry: a category badge, an icon, a preview
    of the email, and a delete button that does not open the conversation. */
module ChatCard {
  import opened JsSemantics
  import opened Domain

  /** A badge: its text (the component's `label`, a reserved word in Dafny) and its colour classes. */
  datatype Category = Category(labelText: string, color: string)

  datatype Icon = Mail | Briefcase | Users

  const FallbackColor := "bg-gray-100 text-gray-800"

  /** `categoryMap`: the badge for each known purpose. */
  const CategoryMap: map<string, Category> := map[
    SalesLeadGeneration := Category("Sales", "bg-blue-100 text-blue-800"),
    JobApplication := Category("Job", "bg-green-100 text-green-800"),
    Networking := Category("Networking", "bg-purple-100 text-purple-800")]

  /** `categoryMap[purpose] || { label: purpose, color: gray }`. */
  function CategoryOf(purpose: string): (c: Category)
    ensures purpose == SalesLeadGeneration ==> c.labelText == "Sales"
    ensures purpose == JobApplication ==> c.labelText == "Job"
    ensures purpose == Networking ==> c.labelText == "Networking"
    ensures KnownPurpose(purpose) <==> c.color != FallbackColor
    ensures !KnownPurpose(purpose) ==> c == Category(purpose, FallbackColor)
  {
    if purpose in CategoryMap then CategoryMap[purpose] else Category(purpose, FallbackColor)
  }

  /** The card's icon, chosen by a chain of comparisons with `Mail` as the last resort. */
  function CardIcon(purpose: string): (icon: Icon)
    ensures icon == Briefcase <==> purpose == JobApplication
    ensures icon == Users <==> purpose == Networking
    ensures icon == Mail <==> !(purpose == JobApplication || purpose == Networking)
  {
    if purpose == SalesLeadGeneration then Mail
    else if purpose == JobApplication then Briefcase
    else if purpose == Networking then Users
    else Mail
  }

  const Ellipsis := "..."

  /** `generated_email.slice(0, 30)` followed by "...": the email's first (at most) 30 characters. */
  function Preview(email: string): (text: string)
    ensures |text| == Min(30, |email|) + |Ellipsis|
    ensures text[..|text| - |Ellipsis|] == email[..Min(30, |email|)]
    ensures text[|text| - |Ellipsis|..] == Ellipsis
    ensures |email| <= 30 ==> text == email + Ellipsis
  {
    var shown := Slice(email, 30);
    assert (shown + Ellipsis)[..|shown|] == shown;
    shown + Ellipsis
  }

  datatype Glyph = Spinner | TrashCan

  /** The delete button's look: disabled and spinning while the entry is being deleted. */
  datatype DeleteButton = DeleteButton(disabled: bool, glyph: Glyph)

  function DeleteButtonFor(deleting: bool): (b: DeleteButton)
    ensures b.disabled <==> deleting
    ensures b.glyph == Spinner <==> b.disabled
  {
    DeleteButton(deleting, if deleting then Spinner else TrashCan)
  }

  /** Where on the card a click lands, and which of the card's callbacks it reaches. */
  datatype ClickTarget = OnCard | OnDeleteButton
  datatype Callback = Open | Delete

  /** The delete button stops propagation, so it never opens the conversation; a disabled
      button delivers no click at all. */
  function CallbacksFor(target: ClickTarget, deleting: bool): (calls: seq<Callback>)
    ensures target == OnDeleteButton ==> Open !in calls
    ensures target == OnDeleteButton ==> (calls == [Delete] <==> !DeleteButtonFor(deleting).disabled)
    ensures target == OnCard ==> calls == [Open]
    ensures |calls| <= 1
  {
    match target
    case OnCard => [Open]
    case OnDeleteButton => if deleting then [] else [Delete]
  }
}
