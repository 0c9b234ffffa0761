/** The compose form's submit handler: purpose-specific validation in a fixed
    order, then the multipart payload handed to the generation controller. */
module EmailForm {
  import opened JsSemantics
  import opened Domain

  /** A file chosen in the résumé picker. */
  datatype Upload = Upload(name: string)

  /** The form's state when it is submitted; every text input is a string, empty when untouched. */
  datatype Form = Form(
    purpose: string,
    resumeFile: Option<Upload>,
    jobDescText: string,
    jobDescUrl: string,
    recipientName: string,
    senderName: string,
    senderTitle: string,
    senderCompanyName: string,
    callToAction: string,
    recipientCompanyInfo: string,
    productServiceDescription: string,
    painPointsText: string,
    personInfo: string,
    commonGroundText: string)

  datatype FieldValue = Text(text: string) | File(file: Upload)

  /** The payload keys the form may send; `WireName` gives the name on the wire. */
  datatype FieldKey =
    | Purpose | SenderName | SenderTitle | SenderCompanyName | CallToAction | RecipientName
    | ResumeFile | JobDescText | JobDescUrl
    | RecipientCompanyInfo | ProductServiceDescription | PainPointsText
    | PersonInfo | CommonGroundText

  function WireName(key: FieldKey): string {
    match key
    case Purpose => "purpose"
    case SenderName => "sender_name"
    case SenderTitle => "sender_title"
    case SenderCompanyName => "sender_company_name"
    case CallToAction => "call_to_action"
    case RecipientName => "recipient_name"
    case ResumeFile => "resume_file"
    case JobDescText => "job_desc_text"
    case JobDescUrl => "job_desc_url"
    case RecipientCompanyInfo => "recipient_company_info"
    case ProductServiceDescription => "product_service_description"
    case PainPointsText => "pain_points_text"
    case PersonInfo => "person_info"
    case CommonGroundText => "common_ground_text"
  }

  /** Distinct keys go out under distinct names. */
  lemma WireNameInjective(a: FieldKey, b: FieldKey)
    ensures WireName(a) == WireName(b) ==> a == b
  {
  }

  /** The names a payload sends, in order. */
  function WireNames(fields: seq<Field>): (names: seq<string>)
    ensures |names| == |fields|
    ensures forall i :: 0 <= i < |fields| ==> names[i] == WireName(fields[i].key)
  {
    seq(|fields|, i requires 0 <= i < |fields| => WireName(fields[i].key))
  }

  /** A payload without a repeated key sends no name twice. */
  lemma DistinctKeysDistinctNames(fields: seq<Field>)
    requires forall i, j :: 0 <= i < j < |fields| ==> fields[i].key != fields[j].key
    ensures forall i, j :: 0 <= i < j < |fields| ==> WireNames(fields)[i] != WireNames(fields)[j]
  {
    forall i, j | 0 <= i < j < |fields|
      ensures WireNames(fields)[i] != WireNames(fields)[j]
    {
      WireNameInjective(fields[i].key, fields[j].key);
    }
  }

  /** One `FormData.append(WireName(key), value)`. */
  datatype Field = Field(key: FieldKey, value: FieldValue)

  /** Either a single error notification and no request, or the payload passed to `onSubmit`. */
  datatype Submission = Reject(message: string) | Accept(fields: seq<Field>)

  const ResumeRequired := "Please upload a resume for Job Application."
  const JobDescRequired := "Please provide either job description text or a URL for Job Application."
  const JobDescExclusive := "Please provide EITHER job description text OR a URL, not both."
  const SalesRequired := "Recipient company info and product/service description are required for Sales."
  const NetworkingRequired := "Person's info is required for Networking."

  const CommonKeys: set<FieldKey> :=
    {Purpose, SenderName, SenderTitle, SenderCompanyName, CallToAction, RecipientName}

  /** The keys only the branch for `purpose` may add. */
  function BranchKeys(purpose: string): (keys: set<FieldKey>)
    ensures keys !! CommonKeys
  {
    if purpose == JobApplication then {ResumeFile, JobDescText, JobDescUrl}
    else if purpose == SalesLeadGeneration then {RecipientCompanyInfo, ProductServiceDescription, PainPointsText}
    else if purpose == Networking then {PersonInfo, CommonGroundText}
    else {}
  }

  /** The keys a payload carries. */
  function Keys(fields: seq<Field>): set<FieldKey> {
    set i | 0 <= i < |fields| :: fields[i].key
  }

  /** The form value a payload key carries, if the form has one for it. */
  function ValueOf(f: Form, key: FieldKey): Option<FieldValue> {
    match key
    case Purpose => Some(Text(f.purpose))
    case SenderName => Some(Text(f.senderName))
    case SenderTitle => Some(Text(f.senderTitle))
    case SenderCompanyName => Some(Text(f.senderCompanyName))
    case CallToAction => Some(Text(f.callToAction))
    case RecipientName => Some(Text(f.recipientName))
    case ResumeFile => if f.resumeFile.Some? then Some(File(f.resumeFile.value)) else None
    case JobDescText => Some(Text(f.jobDescText))
    case JobDescUrl => Some(Text(f.jobDescUrl))
    case RecipientCompanyInfo => Some(Text(f.recipientCompanyInfo))
    case ProductServiceDescription => Some(Text(f.productServiceDescription))
    case PainPointsText => Some(Text(f.painPointsText))
    case PersonInfo => Some(Text(f.personInfo))
    case CommonGroundText => Some(Text(f.commonGroundText))
  }

  /** Every field carries the form's own value for its key, and no key occurs twice. */
  ghost predicate Faithful(f: Form, fields: seq<Field>) {
    && (forall i :: 0 <= i < |fields| ==> ValueOf(f, fields[i].key) == Some(fields[i].value))
    && (forall i, j :: 0 <= i < j < |fields| ==> fields[i].key != fields[j].key)
  }

  /** The message of the first check the form fails, in the handler's order, if any. */
  function FirstError(f: Form): (err: Option<string>)
    ensures f.purpose == JobApplication && f.resumeFile.None? ==> err == Some(ResumeRequired)
    ensures f.purpose == JobApplication && f.resumeFile.Some? && !Truthy(f.jobDescText) && !Truthy(f.jobDescUrl)
      ==> err == Some(JobDescRequired)
    ensures f.purpose == JobApplication ==>
      (err.None? <==> f.resumeFile.Some? && Truthy(f.jobDescText) != Truthy(f.jobDescUrl))
    ensures f.purpose == JobApplication && f.resumeFile.Some? && Truthy(f.jobDescText) && Truthy(f.jobDescUrl)
      ==> err == Some(JobDescExclusive)
    ensures f.purpose == SalesLeadGeneration ==>
      (err.None? <==> Truthy(f.recipientCompanyInfo) && Truthy(f.productServiceDescription))
    ensures f.purpose == SalesLeadGeneration && err.Some? ==> err == Some(SalesRequired)
    ensures f.purpose == Networking ==> (err.None? <==> Truthy(f.personInfo))
    ensures f.purpose == Networking && err.Some? ==> err == Some(NetworkingRequired)
    ensures !KnownPurpose(f.purpose) ==> err.None?
  {
    if f.purpose == JobApplication then
      if f.resumeFile.None? then Some(ResumeRequired)
      else if !Truthy(f.jobDescText) && !Truthy(f.jobDescUrl) then Some(JobDescRequired)
      else if Truthy(f.jobDescText) && Truthy(f.jobDescUrl) then Some(JobDescExclusive)
      else None
    else if f.purpose == SalesLeadGeneration then
      if !Truthy(f.recipientCompanyInfo) || !Truthy(f.productServiceDescription) then Some(SalesRequired)
      else None
    else if f.purpose == Networking then
      if !Truthy(f.personInfo) then Some(NetworkingRequired) else None
    else None
  }

  /** The fields every submission starts with, in this order; the recipient only when named. */
  function CommonFields(f: Form): (fields: seq<Field>)
    ensures |fields| == 5 || |fields| == 6
    ensures fields[..5] == [Field(Purpose, Text(f.purpose)), Field(SenderName, Text(f.senderName)),
                            Field(SenderTitle, Text(f.senderTitle)),
                            Field(SenderCompanyName, Text(f.senderCompanyName)),
                            Field(CallToAction, Text(f.callToAction))]
    ensures |fields| == 6 <==> Truthy(f.recipientName)
    ensures Keys(fields) <= CommonKeys
    ensures RecipientName in Keys(fields) <==> Truthy(f.recipientName)
    ensures Faithful(f, fields)
  {
    var fields :=
      [Field(Purpose, Text(f.purpose)), Field(SenderName, Text(f.senderName)),
       Field(SenderTitle, Text(f.senderTitle)), Field(SenderCompanyName, Text(f.senderCompanyName)),
       Field(CallToAction, Text(f.callToAction))]
      + (if Truthy(f.recipientName) then [Field(RecipientName, Text(f.recipientName))] else []);
    assert Truthy(f.recipientName) ==> fields[5].key in Keys(fields);
    fields
  }

  /** The Job Application branch: the résumé, then whichever description source is filled in. */
  function JobFields(f: Form): (fields: seq<Field>)
    requires f.resumeFile.Some? && Truthy(f.jobDescText) != Truthy(f.jobDescUrl)
    ensures Keys(fields) <= {ResumeFile, JobDescText, JobDescUrl}
    ensures Faithful(f, fields)
    ensures ResumeFile in Keys(fields)
    ensures JobDescText in Keys(fields) <==> Truthy(f.jobDescText)
    ensures JobDescUrl in Keys(fields) <==> Truthy(f.jobDescUrl)
  {
    var source := if Truthy(f.jobDescText) then Field(JobDescText, Text(f.jobDescText))
                  else Field(JobDescUrl, Text(f.jobDescUrl));
    var fields := [Field(ResumeFile, File(f.resumeFile.value)), source];
    assert fields[0].key in Keys(fields) && fields[1].key in Keys(fields);
    fields
  }

  /** The Sales branch: both required fields, then the pain points when filled in. */
  function SalesFields(f: Form): (fields: seq<Field>)
    ensures Keys(fields) <= {RecipientCompanyInfo, ProductServiceDescription, PainPointsText}
    ensures Faithful(f, fields)
    ensures RecipientCompanyInfo in Keys(fields) && ProductServiceDescription in Keys(fields)
    ensures PainPointsText in Keys(fields) <==> Truthy(f.painPointsText)
  {
    var required := [Field(RecipientCompanyInfo, Text(f.recipientCompanyInfo)),
                     Field(ProductServiceDescription, Text(f.productServiceDescription))];
    var fields := required + (if Truthy(f.painPointsText) then [Field(PainPointsText, Text(f.painPointsText))] else []);
    assert fields[0].key in Keys(fields) && fields[1].key in Keys(fields);
    assert Truthy(f.painPointsText) ==> fields[2].key in Keys(fields);
    fields
  }

  /** The Networking branch: the person's info, then the common ground when filled in. */
  function NetworkingFields(f: Form): (fields: seq<Field>)
    ensures Keys(fields) <= {PersonInfo, CommonGroundText}
    ensures Faithful(f, fields)
    ensures PersonInfo in Keys(fields)
    ensures CommonGroundText in Keys(fields) <==> Truthy(f.commonGroundText)
  {
    var fields := [Field(PersonInfo, Text(f.personInfo))]
      + (if Truthy(f.commonGroundText) then [Field(CommonGroundText, Text(f.commonGroundText))] else []);
    assert fields[0].key in Keys(fields);
    assert Truthy(f.commonGroundText) ==> fields[1].key in Keys(fields);
    fields
  }

  /** The fields a valid form adds for its purpose; optional ones only when filled in. */
  function PurposeFields(f: Form): (fields: seq<Field>)
    requires FirstError(f).None?
    ensures Keys(fields) <= BranchKeys(f.purpose)
    ensures Faithful(f, fields)
    ensures f.purpose == JobApplication ==>
      ResumeFile in Keys(fields) && (JobDescText in Keys(fields) <==> JobDescUrl !in Keys(fields))
    ensures f.purpose == SalesLeadGeneration ==>
      RecipientCompanyInfo in Keys(fields) && ProductServiceDescription in Keys(fields)
      && (PainPointsText in Keys(fields) <==> Truthy(f.painPointsText))
    ensures f.purpose == Networking ==>
      PersonInfo in Keys(fields) && (CommonGroundText in Keys(fields) <==> Truthy(f.commonGroundText))
  {
    if f.purpose == JobApplication then JobFields(f)
    else if f.purpose == SalesLeadGeneration then SalesFields(f)
    else if f.purpose == Networking then NetworkingFields(f)
    else []
  }

  /** What `handleSubmit` does with the form state it is called with: validate first, then
      build the payload. (The browser's own checks on required and URL inputs, which can keep
      the handler from being called at all, are not part of this.) */
  function Submit(f: Form): (r: Submission)
    ensures r.Reject? <==> FirstError(f).Some?
    ensures r.Reject? ==> Some(r.message) == FirstError(f)
    ensures r.Accept? ==> |r.fields| >= 5 && r.fields[..5] == CommonFields(f)[..5]
    ensures r.Accept? ==> |r.fields| >= |CommonFields(f)| && r.fields[..|CommonFields(f)|] == CommonFields(f)
    ensures r.Accept? ==> Faithful(f, r.fields)
    ensures r.Accept? ==> Keys(r.fields) <= CommonKeys + BranchKeys(f.purpose)
    ensures r.Accept? ==> (RecipientName in Keys(r.fields) <==> Truthy(f.recipientName))
    ensures r.Accept? && f.purpose == JobApplication ==>
      ResumeFile in Keys(r.fields) && (JobDescText in Keys(r.fields) <==> JobDescUrl !in Keys(r.fields))
    ensures r.Accept? && f.purpose == SalesLeadGeneration ==>
      RecipientCompanyInfo in Keys(r.fields) && ProductServiceDescription in Keys(r.fields)
      && (PainPointsText in Keys(r.fields) <==> Truthy(f.painPointsText))
    ensures r.Accept? && f.purpose == Networking ==>
      PersonInfo in Keys(r.fields) && (CommonGroundText in Keys(r.fields) <==> Truthy(f.commonGroundText))
    ensures !KnownPurpose(f.purpose) ==> r == Accept(CommonFields(f))
  {
    match FirstError(f)
    case Some(message) => Reject(message)
    case None =>
      var common, specific := CommonFields(f), PurposeFields(f);
      FaithfulAppend(f, common, specific);
      assert (common + specific)[..5] == common[..5];
      assert (common + specific)[..|common|] == common;
      assert !KnownPurpose(f.purpose) ==> specific == [] && common + specific == common;
      Accept(common + specific)
  }

  /** `handleSubmit`: appends the common fields to the form data step by step, then runs
      the purpose's checks and appends its fields. */
  method HandleSubmit(f: Form) returns (r: Submission)
    ensures r == Submit(f)
  {
    var formData: seq<Field> := [];
    formData := formData + [Field(Purpose, Text(f.purpose))];
    formData := formData + [Field(SenderName, Text(f.senderName))];
    formData := formData + [Field(SenderTitle, Text(f.senderTitle))];
    formData := formData + [Field(SenderCompanyName, Text(f.senderCompanyName))];
    formData := formData + [Field(CallToAction, Text(f.callToAction))];
    if Truthy(f.recipientName) {
      formData := formData + [Field(RecipientName, Text(f.recipientName))];
    }
    r := AppendPurposeFields(f, formData);
  }

  /** The purpose-specific part of `handleSubmit`, from the common fields on: returns early
      on the first failed check, exactly as the component does, and otherwise appends the
      purpose's fields. */
  method AppendPurposeFields(f: Form, common: seq<Field>) returns (r: Submission)
    requires common == CommonFields(f)
    ensures r == Submit(f)
  {
    var formData := common;
    if f.purpose == JobApplication {
      if f.resumeFile.None? {
        return Reject(ResumeRequired);
      }
      if !Truthy(f.jobDescText) && !Truthy(f.jobDescUrl) {
        return Reject(JobDescRequired);
      }
      if Truthy(f.jobDescText) && Truthy(f.jobDescUrl) {
        return Reject(JobDescExclusive);
      }
      formData := formData + [Field(ResumeFile, File(f.resumeFile.value))];
      if Truthy(f.jobDescText) {
        formData := formData + [Field(JobDescText, Text(f.jobDescText))];
      }
      if Truthy(f.jobDescUrl) {
        formData := formData + [Field(JobDescUrl, Text(f.jobDescUrl))];
      }
    } else if f.purpose == SalesLeadGeneration {
      if !Truthy(f.recipientCompanyInfo) || !Truthy(f.productServiceDescription) {
        return Reject(SalesRequired);
      }
      formData := formData + [Field(RecipientCompanyInfo, Text(f.recipientCompanyInfo))];
      formData := formData + [Field(ProductServiceDescription, Text(f.productServiceDescription))];
      if Truthy(f.painPointsText) {
        formData := formData + [Field(PainPointsText, Text(f.painPointsText))];
      }
    } else if f.purpose == Networking {
      if !Truthy(f.personInfo) {
        return Reject(NetworkingRequired);
      }
      formData := formData + [Field(PersonInfo, Text(f.personInfo))];
      if Truthy(f.commonGroundText) {
        formData := formData + [Field(CommonGroundText, Text(f.commonGroundText))];
      }
    }
    assert FirstError(f).None? && formData == common + PurposeFields(f);
    r := Accept(formData);
  }

  /** Appending two faithful payloads with disjoint keys gives a faithful payload. */
  lemma FaithfulAppend(f: Form, a: seq<Field>, b: seq<Field>)
    requires Faithful(f, a) && Faithful(f, b) && Keys(a) !! Keys(b)
    ensures Faithful(f, a + b) && Keys(a + b) == Keys(a) + Keys(b)
  {
    var ab := a + b;
    forall i, j | 0 <= i < j < |ab| ensures ab[i].key != ab[j].key {
      if i < |a| && |a| <= j {
        assert ab[i].key in Keys(a) && ab[j].key == b[j - |a|].key && b[j - |a|].key in Keys(b);
      } else if |a| <= i {
        assert ab[i] == b[i - |a|] && ab[j] == b[j - |a|];
      }
    }
    forall k | k in Keys(b) ensures k in Keys(ab) {
      var i :| 0 <= i < |b| && b[i].key == k;
      assert ab[|a| + i] == b[i];
    }
    forall k | k in Keys(a) ensures k in Keys(ab) {
      var i :| 0 <= i < |a| && a[i].key == k;
      assert ab[i] == a[i];
    }
    forall k | k in Keys(ab) ensures k in Keys(a) + Keys(b) {
      var i :| 0 <= i < |ab| && ab[i].key == k;
      if i < |a| { assert ab[i] == a[i]; } else { assert ab[i] == b[i - |a|]; }
    }
    forall i | 0 <= i < |ab| ensures ValueOf(f, ab[i].key) == Some(ab[i].value) {
      if i < |a| { assert ab[i] == a[i]; } else { assert ab[i] == b[i - |a|]; }
    }
  }
}
