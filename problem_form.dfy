/** The create/edit form: its initial values, the tag editor, the contact-info record
    it builds, and what submitting it dispatches. */
module ProblemForm {
  import opened Domain
  import opened Seqs
  import opened Text
  import opened ProblemsSlice
  import opened ProblemCard

  /** The form's editable values (one `useState` each). */
  datatype FormFields = FormFields(
    title: string,
    description: string,
    requirements: string,
    tags: seq<string>,
    contactEmail: string,
    contactWhatsapp: string,
    contactPhone: string,
    contactTelegram: string,
    contactOther: string,
    preferredMethod: string)

  /** `v || fallback` on an optional string. */
  function StringOr(v: Option<string>, fallback: string): string
  {
    if v.Some? && v.value != "" then v.value else fallback
  }

  /** The contact value stored under `key` of the problem's record, if any. */
  function ContactField(problem: Option<Problem>, key: ContactInfo -> Option<string>): Option<string>
  {
    if problem.Some? && problem.value.contactInfo.Some? then key(problem.value.contactInfo.value) else None
  }

  /** The initial values: those of the problem being edited, or empty ones; the
      preferred method falls back to "email". */
  function InitialFields(problem: Option<Problem>): FormFields
  {
    FormFields(
      if problem.Some? then problem.value.title else "",
      if problem.Some? then problem.value.description else "",
      if problem.Some? then StringOr(problem.value.requirements, "") else "",
      if problem.Some? && problem.value.tags.Some? then problem.value.tags.value else [],
      StringOr(ContactField(problem, (c: ContactInfo) => c.email), ""),
      StringOr(ContactField(problem, (c: ContactInfo) => c.whatsapp), ""),
      StringOr(ContactField(problem, (c: ContactInfo) => c.phone), ""),
      StringOr(ContactField(problem, (c: ContactInfo) => c.telegram), ""),
      StringOr(ContactField(problem, (c: ContactInfo) => c.other), ""),
      StringOr(ContactField(problem, (c: ContactInfo) => c.preferredMethod), "email"))
  }

  /** The preferred method starts as the edited problem's non-empty one, otherwise
      as "email"; either way it is never empty. A new form starts blank. */
  lemma InitialPreferredMethod(problem: Option<Problem>)
    ensures InitialFields(problem).preferredMethod != ""
    ensures var stored := ContactField(problem, (c: ContactInfo) => c.preferredMethod);
            InitialFields(problem).preferredMethod ==
              if stored.Some? && stored.value != "" then stored.value else "email"
    ensures InitialFields(None) == FormFields("", "", "", [], "", "", "", "", "", "email")
  {
  }

  // ---------------------------------------------------------------------------
  // Tag editor

  /** `handleAddTag`: the tags and the tag input afterwards. */
  function AddTag(tags: seq<string>, input: string): (seq<string>, string)
  {
    var t := Trim(input);
    if t != "" && t !in tags then (tags + [t], "") else (tags, input)
  }

  /** The trimmed input is appended, and the input cleared, exactly when it is
      non-blank and not yet a tag; otherwise nothing changes. An appended tag has no
      surrounding whitespace, and a list without duplicates keeps none. */
  lemma AddTagSpec(tags: seq<string>, input: string)
    ensures var (tags', input') := AddTag(tags, input);
            if !AllWhitespace(input) && Trim(input) !in tags
            then tags' == tags + [Trim(input)] && input' == ""
            else tags' == tags && input' == input
    ensures var (tags', _) := AddTag(tags, input);
            forall t :: t in tags' && t !in tags ==> t != "" && !IsWhitespace(t[0]) && !IsWhitespace(t[|t| - 1])
    ensures NoDuplicates(tags) ==> NoDuplicates(AddTag(tags, input).0)
  {
    if NoDuplicates(tags) {
      WithTagNoDuplicates(tags, Trim(input));
    }
  }

  /** `handleRemoveTag`. */
  function RemoveTag(tags: seq<string>, tag: string): seq<string>
  {
    RemoveAll(tags, tag)
  }

  /** Removing a tag deletes every occurrence of it and keeps the rest in order;
      removing a tag just added restores the list. */
  lemma RemoveTagSpec(tags: seq<string>, tag: string)
    ensures tag !in RemoveTag(tags, tag)
    ensures forall t :: t != tag ==> multiset(RemoveTag(tags, tag))[t] == multiset(tags)[t]
    ensures IsSubsequence(RemoveTag(tags, tag), tags)
    ensures tag !in tags ==> RemoveTag(tags + [tag], tag) == tags
  {
    RemoveAllRemoves(tags, tag);
    RemoveAllKeepsOrder(tags, tag);
    if tag !in tags {
      AppendThenRemove(tags, tag);
    }
  }

  // ---------------------------------------------------------------------------
  // Contact info

  /** A key is written only for a non-empty input. */
  function IfGiven(v: string): Option<string>
  {
    if v != "" then Some(v) else None
  }

  /** The record `handleSubmit` builds from the contact fields. */
  function ContactFromForm(f: FormFields): ContactInfo
  {
    ContactInfo(IfGiven(f.contactEmail), IfGiven(f.contactWhatsapp), IfGiven(f.contactPhone),
                IfGiven(f.contactTelegram), Some(f.preferredMethod), IfGiven(f.contactOther))
  }

  /** Builds the contact record as the form does: start from the preferred method and
      write each contact key whose input is non-empty. */
  method BuildContactInfo(f: FormFields) returns (c: ContactInfo)
    ensures c == ContactFromForm(f)
    ensures c.preferredMethod == Some(f.preferredMethod)
    ensures c.email.Some? <==> f.contactEmail != ""
    ensures c.whatsapp.Some? <==> f.contactWhatsapp != ""
    ensures c.phone.Some? <==> f.contactPhone != ""
    ensures c.telegram.Some? <==> f.contactTelegram != ""
    ensures c.other.Some? <==> f.contactOther != ""
    ensures forall v :: v in ContactValues(c) && v.Some? ==> v.value != "" || v == Some(f.preferredMethod)
  {
    c := EmptyContact.(preferredMethod := Some(f.preferredMethod));
    if f.contactEmail != "" { c := c.(email := Some(f.contactEmail)); }
    if f.contactWhatsapp != "" { c := c.(whatsapp := Some(f.contactWhatsapp)); }
    if f.contactPhone != "" { c := c.(phone := Some(f.contactPhone)); }
    if f.contactTelegram != "" { c := c.(telegram := Some(f.contactTelegram)); }
    if f.contactOther != "" { c := c.(other := Some(f.contactOther)); }
  }

  /** Opening a problem for editing and saving it unchanged writes back the same
      contact record, provided that record has a non-empty preferred method and no
      key holding an empty string. */
  lemma EditKeepsContact(p: Problem)
    requires p.contactInfo.Some?
    requires var c := p.contactInfo.value;
      Meaningful(c.preferredMethod) &&
      (c.email.Some? ==> c.email.value != "") && (c.whatsapp.Some? ==> c.whatsapp.value != "") &&
      (c.phone.Some? ==> c.phone.value != "") && (c.telegram.Some? ==> c.telegram.value != "") &&
      (c.other.Some? ==> c.other.value != "")
    ensures ContactFromForm(InitialFields(Some(p))) == p.contactInfo.value
  {
  }

  /** Without a contact record, or with one whose preferred method is missing or
      empty, saving the opened problem unchanged writes the preferred method "email". */
  lemma EditDefaultsPreferredMethod(p: Problem)
    requires p.contactInfo.None? || !Meaningful(p.contactInfo.value.preferredMethod)
    ensures ContactFromForm(InitialFields(Some(p))).preferredMethod == Some("email")
  {
  }

  /** Because the form always writes a preferred method, every record it builds with
      a non-empty one makes the card show "Contact available", even when no contact
      channel was filled in. */
  lemma FormContactAlwaysShown(f: FormFields)
    requires f.preferredMethod != ""
    ensures HasContactInfo(Some(ContactFromForm(f)))
  {
    assert Some(f.preferredMethod) in ContactValues(ContactFromForm(f));
  }

  // ---------------------------------------------------------------------------
  // Submitting

  /** What submitting dispatches. */
  datatype Request = UpdateRequest(id: string, patch: ProblemPatch) | CreateRequest(draft: ProblemDraft)

  /** The request built for a signed-in user: an update keyed by the edited problem's
      id, or a create owned by the user. */
  function SubmitRequest(f: FormFields, user: User, problem: Option<Problem>): Request
  {
    var contact := ContactFromForm(f);
    if problem.Some? then
      UpdateRequest(problem.value.id,
        ProblemPatch(Some(f.title), Some(f.description), Some(f.requirements), Some(f.tags), Some(contact)))
    else
      CreateRequest(ProblemDraft(f.title, f.description, Some(f.requirements), Some(f.tags), user.id, Some(contact)))
  }

  /** An edit updates the edited problem's id and carries no owner; a create carries
      the signed-in user as owner, so the create thunk's ownership check passes for
      that same session and the insert is reached. */
  lemma SubmitRequestSpec(f: FormFields, user: User, problem: Option<Problem>, insert: Reply<Option<Problem>>)
    ensures problem.Some? ==> SubmitRequest(f, user, problem).UpdateRequest? &&
                              SubmitRequest(f, user, problem).id == problem.value.id
    ensures problem.None? ==> SubmitRequest(f, user, problem).CreateRequest? &&
                              SubmitRequest(f, user, problem).draft.userId == user.id
    ensures problem.None? ==>
      CreateThunk(SubmitRequest(f, user, problem).draft, Data(Some(user)), insert).inserted ==
        Some(NewRow(f.title, f.description, IfGiven(f.requirements), f.tags, user.id, ContactFromForm(f)))
  {
  }

  /** How the dispatched thunk settled, as the form sees it: fulfilled, or rejected with
      its payload and the message of the serialized error it carries. */
  datatype Settled = Done | Failed(payload: string, errorMessage: string)

  const NotLoggedInFormError := "You must be logged in to create a problem"

  /** The form's own state. */
  class ProblemFormView {
    const problem: Option<Problem>
    var fields: FormFields
    var tagInput: string
    var formError: Option<string>
    var isSubmitting: bool

    /** Mounting the form for `problem` (or for a new one). */
    constructor (problem: Option<Problem>)
      ensures this.problem == problem
      ensures fields == InitialFields(problem) && fields.preferredMethod != ""
      ensures tagInput == "" && formError == None && !isSubmitting
    {
      this.problem := problem;
      fields := InitialFields(problem);
      tagInput := "";
      formError := None;
      isSubmitting := false;
    }

    method HandleAddTag()
      modifies this
      ensures (fields.tags, tagInput) == AddTag(old(fields.tags), old(tagInput))
      ensures fields == old(fields).(tags := fields.tags)
      ensures formError == old(formError) && isSubmitting == old(isSubmitting)
    {
      var (tags', input') := AddTag(fields.tags, tagInput);
      fields := fields.(tags := tags');
      tagInput := input';
    }

    method HandleRemoveTag(tag: string)
      modifies this
      ensures fields == old(fields).(tags := RemoveTag(old(fields.tags), tag))
      ensures tagInput == old(tagInput) && formError == old(formError) && isSubmitting == old(isSubmitting)
    {
      fields := fields.(tags := RemoveTag(fields.tags, tag));
    }

    /** `handleSubmit`: with no user only the error is set and nothing is dispatched;
        otherwise the request is dispatched and, once it settles, the form either
        navigates away or shows the failure. */
    method HandleSubmit(user: Option<User>, settled: Settled) returns (sent: Option<Request>, navigate: bool)
      modifies this
      ensures fields == old(fields) && tagInput == old(tagInput) && !isSubmitting
      ensures user.None? ==> sent == None && !navigate && formError == Some(NotLoggedInFormError)
      ensures user.Some? ==> sent == Some(SubmitRequest(fields, user.value, problem))
      ensures user.Some? && settled.Done? ==> navigate && formError == None
      ensures user.Some? && settled.Failed? ==>
                !navigate &&
                formError == Some(if problem.Some? then OrElse(settled.errorMessage, "Failed to update problem")
                                  else OrElse(settled.payload, "Failed to create problem"))
    {
      formError := None;
      isSubmitting := true;
      navigate := false;
      if user.None? {
        formError := Some(NotLoggedInFormError);
        isSubmitting := false;
        sent := None;
        return;
      }
      var contact := BuildContactInfo(fields);
      if problem.Some? {
        sent := Some(UpdateRequest(problem.value.id,
          ProblemPatch(Some(fields.title), Some(fields.description), Some(fields.requirements),
                       Some(fields.tags), Some(contact))));
        match settled
        case Done => navigate := true;
        case Failed(_, m) => formError := Some(OrElse(m, "Failed to update problem"));
      } else {
        sent := Some(CreateRequest(ProblemDraft(fields.title, fields.description, Some(fields.requirements),
                                                Some(fields.tags), user.value.id, Some(contact))));
        match settled
        case Done => navigate := true;
        case Failed(payload, _) => formError := Some(OrElse(payload, "Failed to create problem"));
      }
      isSubmitting := false;
    }
  }
}
