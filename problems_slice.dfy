/** The problem store: the `problems` slice's state, its reducers, and the decision
    logic of its six async thunks with the backend's replies taken as inputs. */
module ProblemsSlice {
  import opened Domain
  import opened Seqs

  // ---------------------------------------------------------------------------
  // State

  /** The slice's whole state, as one value. */
  datatype ProblemsState = ProblemsState(
    allProblems: seq<Problem>,
    userProblems: seq<Problem>,
    currentProblem: Option<Problem>,
    isLoading: bool,
    error: Option<string>,
    searchTerm: string,
    selectedTags: seq<string>)

  const InitialState := ProblemsState([], [], None, false, None, "", [])

  /** The ids of a list of problems, in list order. */
  function Ids(s: seq<Problem>): (ids: seq<string>)
    ensures |ids| == |s|
    ensures forall i :: 0 <= i < |s| ==> ids[i] == s[i].id
  {
    seq(|s|, i requires 0 <= i < |s| => s[i].id)
  }

  /** No two records of the list share an id. */
  predicate UniqueIds(s: seq<Problem>)
  {
    NoDuplicates(Ids(s))
  }

  // ---------------------------------------------------------------------------
  // The list rewrites of the fulfilled cases

  /** `s.map(q => q.id === p.id ? p : q)`: every record carrying `p`'s id replaced by `p`. */
  function ReplaceById(s: seq<Problem>, p: Problem): (r: seq<Problem>)
    ensures |r| == |s|
    ensures forall i :: 0 <= i < |s| && s[i].id == p.id ==> r[i] == p
    ensures forall i :: 0 <= i < |s| && s[i].id != p.id ==> r[i] == s[i]
  {
    if s == [] then []
    else [if s[0].id == p.id then p else s[0]] + ReplaceById(s[1..], p)
  }

  /** `s.filter(q => q.id !== id)`. */
  function RemoveById(s: seq<Problem>, id: string): (r: seq<Problem>)
  {
    Filter(s, (q: Problem) => q.id != id)
  }

  /** Replacing by id changes no id and no position. */
  lemma ReplaceByIdKeepsIds(s: seq<Problem>, p: Problem)
    ensures Ids(ReplaceById(s, p)) == Ids(s)
    ensures UniqueIds(s) ==> UniqueIds(ReplaceById(s, p))
  {
    var r := ReplaceById(s, p);
    forall i | 0 <= i < |s| ensures Ids(r)[i] == Ids(s)[i] {
      assert r[i] == p || r[i] == s[i];
    }
  }

  /** After an update every record with `p`'s id is `p`, and `p` is in the list
      exactly when its id was. */
  lemma ReplaceByIdInstalls(s: seq<Problem>, p: Problem)
    ensures forall q :: q in ReplaceById(s, p) && q.id == p.id ==> q == p
    ensures p in ReplaceById(s, p) <==> p.id in Ids(s)
  {
    var r := ReplaceById(s, p);
    forall q | q in r && q.id == p.id ensures q == p {
      var i :| 0 <= i < |r| && r[i] == q;
    }
    if p.id in Ids(s) {
      var i :| 0 <= i < |s| && Ids(s)[i] == p.id;
      assert r[i] == p;
    }
    if p in r {
      var i :| 0 <= i < |r| && r[i] == p;
      assert Ids(s)[i] == p.id;
    }
  }

  /** The ids left after a delete are the old ids with the deleted one filtered out. */
  lemma {:induction false} IdsAfterRemove(s: seq<Problem>, id: string)
    ensures Ids(RemoveById(s, id)) == RemoveAll(Ids(s), id)
    decreases |s|
  {
    if s != [] {
      IdsAfterRemove(s[1..], id);
      assert Ids(s) == [s[0].id] + Ids(s[1..]);
      var rest := RemoveById(s[1..], id);
      if s[0].id != id {
        assert Ids([s[0]] + rest) == [s[0].id] + Ids(rest);
      }
    }
  }

  /** The state `deleteProblem.fulfilled` leaves: the id filtered out of both lists,
      the current record cleared if it carried the id, loading over. */
  function AfterDelete(st: ProblemsState, id: string): ProblemsState
  {
    st.(userProblems := RemoveById(st.userProblems, id),
        allProblems := RemoveById(st.allProblems, id),
        currentProblem := if st.currentProblem.Some? && st.currentProblem.value.id == id
                          then None else st.currentProblem,
        isLoading := false)
  }

  /** After a delete no record carries the id, every other record is still there in
      its old order, and uniqueness of ids is kept. */
  lemma RemoveByIdPurges(s: seq<Problem>, id: string)
    ensures id !in Ids(RemoveById(s, id))
    ensures IsSubsequence(RemoveById(s, id), s)
    ensures forall q :: q in s && q.id != id ==> q in RemoveById(s, id)
    ensures UniqueIds(s) ==> UniqueIds(RemoveById(s, id))
  {
    IdsAfterRemove(s, id);
    RemoveAllRemoves(Ids(s), id);
    FilterKeepsOrder(s, (q: Problem) => q.id != id);
  }

  /** Prepending a record whose id is new keeps ids unique. */
  lemma PrependFreshKeepsUnique(s: seq<Problem>, p: Problem)
    requires UniqueIds(s) && p.id !in Ids(s)
    ensures UniqueIds([p] + s)
  {
    var r := [p] + s;
    forall i, j | 0 <= i < j < |r| ensures Ids(r)[i] != Ids(r)[j] {
      assert Ids(r)[j] == Ids(s)[j - 1];
      if i > 0 {
        assert Ids(r)[i] == Ids(s)[i - 1];
      }
    }
  }

  // ---------------------------------------------------------------------------
  // Selected-tag criteria

  /** The `addSelectedTag` rewrite: push the tag unless it is already selected. */
  function WithTag(tags: seq<string>, tag: string): seq<string>
  {
    if tag in tags then tags else tags + [tag]
  }

  /** Adding a tag never creates a duplicate, the tag is selected afterwards, and
      nothing else is added or lost. */
  lemma WithTagNoDuplicates(tags: seq<string>, tag: string)
    requires NoDuplicates(tags)
    ensures NoDuplicates(WithTag(tags, tag))
    ensures forall t :: t in WithTag(tags, tag) <==> t in tags || t == tag
  {
    if tag !in tags {
      var r := tags + [tag];
      forall i, j | 0 <= i < j < |r| ensures r[i] != r[j] {
        if j == |tags| {
          assert r[i] == tags[i];
        }
      }
    }
  }

  /** Adding an absent tag and then removing it restores the criteria exactly. */
  lemma AddThenRemoveTag(tags: seq<string>, tag: string)
    requires tag !in tags
    ensures RemoveAll(WithTag(tags, tag), tag) == tags
  {
    AppendThenRemove(tags, tag);
  }

  // ---------------------------------------------------------------------------
  // Thunk decision logic (the backend's replies are inputs)

  /** The six async operations of the slice. */
  datatype Op = FetchAll | FetchUser | FetchById | Create | Update | Delete

  /** Error code the backend reports for a missing relation. */
  const TableMissingCode := "42P01"
  const TableMissingMessage := "The problems table doesn't exist. Please run the database setup script."

  /** The message each thunk's `catch` falls back to when the exception carries none. */
  function CatchFallback(op: Op): string
  {
    match op
    case FetchAll => "Failed to fetch problems"
    case FetchUser => "Failed to fetch user problems"
    case FetchById => "Failed to fetch problem"
    case Create => "An unexpected error occurred"
    case Update => "Failed to update problem"
    case Delete => "Failed to delete problem"
  }

  /** The message each `rejected` case falls back to when the payload is empty. */
  function RejectedFallback(op: Op): string
  {
    match op
    case FetchAll => "Failed to fetch problems"
    case FetchUser => "Failed to fetch user problems"
    case FetchById => "Failed to fetch problem"
    case Create => "Failed to create problem"
    case Update => "Failed to update problem"
    case Delete => "Failed to delete problem"
  }

  /** The rejection payload for a backend error reply. */
  function ErrorPayload(op: Op, code: string, message: string): string
  {
    if code == TableMissingCode then TableMissingMessage
    else if op == Create then "Failed to create problem: " + message
    else message
  }

  /** The rejection payload for an exception caught by the thunk. */
  function ExceptionPayload(op: Op, message: string): string
  {
    OrElse(message, CatchFallback(op))
  }

  /** The common tail of every thunk: error replies and exceptions become rejections. */
  function Settle<T, U>(op: Op, reply: Reply<T>, onData: T -> Outcome<U, string>): Outcome<U, string>
  {
    match reply
    case Data(v) => onData(v)
    case DbError(code, m) => Rejected(ErrorPayload(op, code, m))
    case Thrown(m) => Rejected(ExceptionPayload(op, m))
  }

  /** `fetchAllProblems` and `fetchUserProblems`: the rows, or `[]` for null data. */
  function FetchListThunk(op: Op, reply: Reply<Option<seq<Problem>>>): Outcome<seq<Problem>, string>
  {
    Settle(op, reply, (rows: Option<seq<Problem>>) =>
      Fulfilled(if rows.Some? then rows.value else []))
  }

  /** `fetchProblemById`: whatever single row (or null) the backend returned. */
  function FetchByIdThunk(reply: Reply<Option<Problem>>): Outcome<Option<Problem>, string>
  {
    Settle(FetchById, reply, (row: Option<Problem>) => Fulfilled(row))
  }

  /** The argument of `createProblem`: a record without its backend-assigned columns. */
  datatype ProblemDraft = ProblemDraft(
    title: string,
    description: string,
    requirements: Option<string>,
    tags: Option<seq<string>>,
    userId: string,
    contactInfo: Option<ContactInfo>)

  /** The row `createProblem` inserts. */
  datatype NewRow = NewRow(
    title: string,
    description: string,
    requirements: Option<string>,
    tags: seq<string>,
    userId: string,
    contactInfo: ContactInfo)

  /** `createProblem`'s `newProblem` literal. */
  function NormaliseDraft(d: ProblemDraft): NewRow
  {
    NewRow(
      d.title,
      d.description,
      if d.requirements.Some? && d.requirements.value != "" then d.requirements else None,
      if d.tags.Some? then d.tags.value else [],
      d.userId,
      if d.contactInfo.Some? then d.contactInfo.value else EmptyContact)
  }

  /** The draft a row came from, had it been passed in already normalised. */
  function DraftOf(row: NewRow): ProblemDraft
  {
    ProblemDraft(row.title, row.description, row.requirements, Some(row.tags), row.userId, Some(row.contactInfo))
  }

  /** What one run of `createProblem` did: the row it inserted (if it got that far)
      and how it settled. */
  datatype CreateRun = CreateRun(inserted: Option<NewRow>, outcome: Outcome<Problem, string>)

  const NotLoggedInMessage := "You must be logged in to create a problem"
  const IdMismatchMessage := "User authentication error: ID mismatch"
  const NoDataCreatedMessage := "Failed to create problem - no data returned"

  /** `createProblem`, given the reply of the session lookup and the reply of the insert. */
  function CreateThunk(d: ProblemDraft, session: Reply<Option<User>>, insert: Reply<Option<Problem>>): CreateRun
  {
    match session
    case Thrown(m) => CreateRun(None, Rejected(ExceptionPayload(Create, m)))
    case DbError(_, m) => CreateRun(None, Rejected("Authentication error: " + m))
    case Data(None) => CreateRun(None, Rejected(NotLoggedInMessage))
    case Data(Some(u)) =>
      if u.id != d.userId then CreateRun(None, Rejected(IdMismatchMessage))
      else
        CreateRun(Some(NormaliseDraft(d)), Settle(Create, insert, (row: Option<Problem>) =>
          if row.Some? then Fulfilled(row.value) else Rejected(NoDataCreatedMessage)))
  }

  /** The argument of `updateProblem`: any subset of the columns. */
  datatype ProblemPatch = ProblemPatch(
    title: Option<string>,
    description: Option<string>,
    requirements: Option<string>,
    tags: Option<seq<string>>,
    contactInfo: Option<ContactInfo>)

  /** The columns `updateProblem` sends; an absent title or description is left out
      of the request. There is no `user_id` column here. */
  datatype UpdateRow = UpdateRow(
    title: Option<string>,
    description: Option<string>,
    requirements: Option<string>,
    tags: seq<string>,
    contactInfo: ContactInfo,
    updatedAt: int)

  /** `updateProblem`'s `updatedFields` literal, stamped with the time `now`. */
  function UpdateFields(patch: ProblemPatch, now: int): UpdateRow
  {
    UpdateRow(
      patch.title,
      patch.description,
      if patch.requirements.Some? && patch.requirements.value != "" then patch.requirements else None,
      if patch.tags.Some? then patch.tags.value else [],
      if patch.contactInfo.Some? then patch.contactInfo.value else EmptyContact,
      now)
  }

  const NoDataUpdatedMessage := "Failed to update problem"

  /** `updateProblem`, given the reply of the update request. */
  function UpdateThunk(reply: Reply<Option<Problem>>): Outcome<Problem, string>
  {
    Settle(Update, reply, (row: Option<Problem>) =>
      if row.Some? then Fulfilled(row.value) else Rejected(NoDataUpdatedMessage))
  }

  /** `deleteProblem`: fulfils with the id it was given. */
  function DeleteThunk(id: string, reply: Reply<()>): Outcome<string, string>
  {
    Settle(Delete, reply, (_: ()) => Fulfilled(id))
  }

  /** A missing table is reported with the same fixed message by every thunk. */
  lemma TableMissingEveryThunk(message: string, d: ProblemDraft, u: User, id: string)
    requires u.id == d.userId
    ensures FetchListThunk(FetchAll, DbError(TableMissingCode, message)) == Rejected(TableMissingMessage)
    ensures FetchListThunk(FetchUser, DbError(TableMissingCode, message)) == Rejected(TableMissingMessage)
    ensures FetchByIdThunk(DbError(TableMissingCode, message)) == Rejected(TableMissingMessage)
    ensures CreateThunk(d, Data(Some(u)), DbError(TableMissingCode, message)).outcome == Rejected(TableMissingMessage)
    ensures UpdateThunk(DbError(TableMissingCode, message)) == Rejected(TableMissingMessage)
    ensures DeleteThunk(id, DbError(TableMissingCode, message)) == Rejected(TableMissingMessage)
  {
  }

  /** Any other backend error is passed through with its own message; `createProblem`
      prefixes it. */
  lemma OtherErrorsPassThrough(code: string, message: string, d: ProblemDraft, u: User, id: string)
    requires code != TableMissingCode && u.id == d.userId
    ensures FetchListThunk(FetchAll, DbError(code, message)) == Rejected(message)
    ensures FetchListThunk(FetchUser, DbError(code, message)) == Rejected(message)
    ensures FetchByIdThunk(DbError(code, message)) == Rejected(message)
    ensures CreateThunk(d, Data(Some(u)), DbError(code, message)).outcome
         == Rejected("Failed to create problem: " + message)
    ensures UpdateThunk(DbError(code, message)) == Rejected(message)
    ensures DeleteThunk(id, DbError(code, message)) == Rejected(message)
  {
  }

  /** `createProblem` checks, in this order and before inserting anything: the session
      lookup failed, then no user is signed in, then the signed-in user is not the
      draft's owner. Only when all three pass is a row inserted, and then it is the
      normalised draft. */
  lemma CreateChecksInOrder(d: ProblemDraft, session: Reply<Option<User>>, insert: Reply<Option<Problem>>)
    ensures session.DbError? ==>
      CreateThunk(d, session, insert) == CreateRun(None, Rejected("Authentication error: " + session.message))
    ensures session == Data(None) ==>
      CreateThunk(d, session, insert) == CreateRun(None, Rejected(NotLoggedInMessage))
    ensures session.Data? && session.value.Some? && session.value.value.id != d.userId ==>
      CreateThunk(d, session, insert) == CreateRun(None, Rejected(IdMismatchMessage))
    ensures CreateThunk(d, session, insert).inserted.Some? <==>
      session.Data? && session.value.Some? && session.value.value.id == d.userId
    ensures CreateThunk(d, session, insert).inserted.Some? ==>
      CreateThunk(d, session, insert).inserted.value == NormaliseDraft(d)
    ensures CreateThunk(d, session, insert).outcome.Fulfilled? ==>
      CreateThunk(d, session, insert).inserted.Some? && insert == Data(Some(CreateThunk(d, session, insert).outcome.value))
  {
  }

  /** A run that stops before the insert does not depend on the insert's reply. */
  lemma CreateRejectsBeforeInsert(d: ProblemDraft, session: Reply<Option<User>>,
                                  insert: Reply<Option<Problem>>, insert': Reply<Option<Problem>>)
    requires CreateThunk(d, session, insert).inserted.None?
    ensures CreateThunk(d, session, insert') == CreateThunk(d, session, insert)
    ensures CreateThunk(d, session, insert).outcome.Rejected?
  {
  }

  /** The normalised insert row: empty or absent requirements become null, absent tags
      become `[]`, absent contact info becomes `{}`, everything else is kept; and
      normalising again changes nothing. */
  lemma NormaliseDraftDefaults(d: ProblemDraft)
    ensures NormaliseDraft(d).requirements.None? <==> d.requirements.None? || d.requirements == Some("")
    ensures NormaliseDraft(d).requirements.Some? ==> NormaliseDraft(d).requirements == d.requirements
    ensures d.tags.None? ==> NormaliseDraft(d).tags == []
    ensures d.tags.Some? ==> NormaliseDraft(d).tags == d.tags.value
    ensures d.contactInfo.None? ==> NormaliseDraft(d).contactInfo == EmptyContact
    ensures d.contactInfo.Some? ==> NormaliseDraft(d).contactInfo == d.contactInfo.value
    ensures NormaliseDraft(d).title == d.title && NormaliseDraft(d).description == d.description
    ensures NormaliseDraft(d).userId == d.userId
    ensures NormaliseDraft(DraftOf(NormaliseDraft(d))) == NormaliseDraft(d)
  {
  }

  /** The update request applies the same defaults as the insert, never carries an
      owner, and is stamped with the current time. */
  lemma UpdateFieldsAgreeWithInsert(patch: ProblemPatch, now: int, userId: string)
    requires patch.title.Some? && patch.description.Some?
    ensures var row := NormaliseDraft(ProblemDraft(patch.title.value, patch.description.value,
                                                   patch.requirements, patch.tags, userId, patch.contactInfo));
            var upd := UpdateFields(patch, now);
            upd.title == Some(row.title) && upd.description == Some(row.description) &&
            upd.requirements == row.requirements && upd.tags == row.tags &&
            upd.contactInfo == row.contactInfo && upd.updatedAt == now
  {
  }

  // ---------------------------------------------------------------------------
  // The store

  /** The slice's state object. Each method is one case of the reducer; the methods
      at the end dispatch a whole thunk (pending, then fulfilled or rejected). */
  class ProblemsStore {
    var allProblems: seq<Problem>
    var userProblems: seq<Problem>
    var currentProblem: Option<Problem>
    var isLoading: bool
    var error: Option<string>
    var searchTerm: string
    var selectedTags: seq<string>

    /** The whole state as one value. */
    function State(): ProblemsState
      reads this
    {
      ProblemsState(allProblems, userProblems, currentProblem, isLoading, error, searchTerm, selectedTags)
    }

    /** Both lists hold each id at most once. */
    predicate IdsUnique()
      reads this
    {
      UniqueIds(allProblems) && UniqueIds(userProblems)
    }

    /** `initialState`. */
    constructor ()
      ensures State() == InitialState
      ensures IdsUnique()
    {
      allProblems, userProblems, currentProblem := [], [], None;
      isLoading, error := false, None;
      searchTerm, selectedTags := "", [];
    }

    method SetSearchTerm(term: string)
      modifies this
      ensures State() == old(State()).(searchTerm := term)
    {
      searchTerm := term;
    }

    method SetSelectedTags(tags: seq<string>)
      modifies this
      ensures State() == old(State()).(selectedTags := tags)
    {
      selectedTags := tags;
    }

    /** Pushes the tag in place unless it is already selected. */
    method AddSelectedTag(tag: string)
      modifies this
      ensures State() == old(State()).(selectedTags := WithTag(old(selectedTags), tag))
      ensures NoDuplicates(old(selectedTags)) ==> NoDuplicates(selectedTags)
    {
      if tag !in selectedTags {
        selectedTags := selectedTags + [tag];
      }
      if NoDuplicates(old(selectedTags)) {
        WithTagNoDuplicates(old(selectedTags), tag);
      }
    }

    method RemoveSelectedTag(tag: string)
      modifies this
      ensures State() == old(State()).(selectedTags := RemoveAll(old(selectedTags), tag))
      ensures tag !in selectedTags
      ensures NoDuplicates(old(selectedTags)) ==> NoDuplicates(selectedTags)
    {
      selectedTags := RemoveAll(selectedTags, tag);
      RemoveAllRemoves(old(selectedTags), tag);
    }

    method ClearFilters()
      modifies this
      ensures State() == old(State()).(searchTerm := "", selectedTags := [])
    {
      searchTerm := "";
      selectedTags := [];
    }

    method ClearError()
      modifies this
      ensures State() == old(State()).(error := None)
    {
      error := None;
    }

    /** Every `pending` case. */
    method Pending(op: Op)
      modifies this
      ensures State() == old(State()).(isLoading := true, error := None)
    {
      isLoading := true;
      error := None;
    }

    /** Every `rejected` case: the payload, or the operation's fallback when it is empty. */
    method Rejected(op: Op, payload: string)
      modifies this
      ensures State() == old(State()).(isLoading := false, error := Some(OrElse(payload, RejectedFallback(op))))
      ensures error.Some? && error.value != ""
    {
      isLoading := false;
      error := Some(OrElse(payload, RejectedFallback(op)));
    }

    method FetchAllFulfilled(rows: seq<Problem>)
      modifies this
      ensures State() == old(State()).(allProblems := rows, isLoading := false)
    {
      allProblems := rows;
      isLoading := false;
    }

    method FetchUserFulfilled(rows: seq<Problem>)
      modifies this
      ensures State() == old(State()).(userProblems := rows, isLoading := false)
    {
      userProblems := rows;
      isLoading := false;
    }

    method FetchByIdFulfilled(row: Option<Problem>)
      modifies this
      ensures State() == old(State()).(currentProblem := row, isLoading := false)
    {
      currentProblem := row;
      isLoading := false;
    }

    /** The created record goes in front of both lists. */
    method CreateFulfilled(p: Problem)
      modifies this
      ensures State() == old(State()).(userProblems := [p] + old(userProblems),
                                       allProblems := [p] + old(allProblems),
                                       isLoading := false, error := None)
      ensures old(IdsUnique()) && p.id !in Ids(old(allProblems)) && p.id !in Ids(old(userProblems)) ==> IdsUnique()
    {
      userProblems := [p] + userProblems;
      allProblems := [p] + allProblems;
      isLoading := false;
      error := None;
      if old(IdsUnique()) && p.id !in Ids(old(allProblems)) && p.id !in Ids(old(userProblems)) {
        PrependFreshKeepsUnique(old(allProblems), p);
        PrependFreshKeepsUnique(old(userProblems), p);
      }
    }

    /** The updated record replaces its id in both lists and becomes the current one. */
    method UpdateFulfilled(p: Problem)
      modifies this
      ensures State() == old(State()).(userProblems := ReplaceById(old(userProblems), p),
                                       allProblems := ReplaceById(old(allProblems), p),
                                       currentProblem := Some(p), isLoading := false)
      ensures old(IdsUnique()) ==> IdsUnique()
    {
      userProblems, allProblems := ReplaceById(userProblems, p), ReplaceById(allProblems, p);
      currentProblem, isLoading := Some(p), false;
      if old(IdsUnique()) {
        assert IdsUnique() by {
          ReplaceByIdKeepsIds(old(userProblems), p);
          ReplaceByIdKeepsIds(old(allProblems), p);
        }
      }
    }

    /** The deleted id leaves both lists; the current record is cleared only if it
        carried that id. */
    method DeleteFulfilled(id: string)
      modifies this
      ensures State() == AfterDelete(old(State()), id)
      ensures id !in Ids(allProblems) && id !in Ids(userProblems)
      ensures currentProblem.Some? ==> currentProblem.value.id != id
      ensures old(IdsUnique()) ==> IdsUnique()
    {
      userProblems := RemoveById(userProblems, id);
      allProblems := RemoveById(allProblems, id);
      if currentProblem.Some? && currentProblem.value.id == id {
        currentProblem := None;
      }
      isLoading := false;
      RemoveByIdPurges(old(userProblems), id);
      RemoveByIdPurges(old(allProblems), id);
    }

    // -------------------------------------------------------------------------
    // Whole dispatches

    /** `dispatch(fetchAllProblems())`: on failure the previous list stays. */
    method FetchAllProblems(reply: Reply<Option<seq<Problem>>>)
      modifies this
      ensures match FetchListThunk(FetchAll, reply)
        case Fulfilled(rows) => State() == old(State()).(allProblems := rows, isLoading := false, error := None)
        case Rejected(m) => State() == old(State()).(isLoading := false, error := Some(OrElse(m, RejectedFallback(FetchAll))))
    {
      Pending(FetchAll);
      match FetchListThunk(FetchAll, reply)
      case Fulfilled(rows) => FetchAllFulfilled(rows);
      case Rejected(m) => Rejected(FetchAll, m);
    }

    /** `dispatch(fetchUserProblems(userId))`: on failure the previous list stays. The
        `user_id` filter itself runs in the backend. */
    method FetchUserProblems(userId: string, reply: Reply<Option<seq<Problem>>>)
      modifies this
      ensures match FetchListThunk(FetchUser, reply)
        case Fulfilled(rows) => State() == old(State()).(userProblems := rows, isLoading := false, error := None)
        case Rejected(m) => State() == old(State()).(isLoading := false, error := Some(OrElse(m, RejectedFallback(FetchUser))))
    {
      Pending(FetchUser);
      match FetchListThunk(FetchUser, reply)
      case Fulfilled(rows) => FetchUserFulfilled(rows);
      case Rejected(m) => Rejected(FetchUser, m);
    }

    /** `dispatch(fetchProblemById(id))`. */
    method FetchProblemById(id: string, reply: Reply<Option<Problem>>)
      modifies this
      ensures match FetchByIdThunk(reply)
        case Fulfilled(row) => State() == old(State()).(currentProblem := row, isLoading := false, error := None)
        case Rejected(m) => State() == old(State()).(isLoading := false, error := Some(OrElse(m, RejectedFallback(FetchById))))
    {
      Pending(FetchById);
      match FetchByIdThunk(reply)
      case Fulfilled(row) => FetchByIdFulfilled(row);
      case Rejected(m) => Rejected(FetchById, m);
    }

    /** `dispatch(createProblem(d))`: a failed check or insert leaves every list and the
        current record as they were. */
    method CreateProblem(d: ProblemDraft, session: Reply<Option<User>>, insert: Reply<Option<Problem>>)
      returns (run: CreateRun)
      modifies this
      ensures run == CreateThunk(d, session, insert)
      ensures run.outcome.Fulfilled? ==>
        State() == old(State()).(userProblems := [run.outcome.value] + old(userProblems),
                                 allProblems := [run.outcome.value] + old(allProblems),
                                 isLoading := false, error := None)
      ensures run.outcome.Rejected? ==>
        State() == old(State()).(isLoading := false, error := Some(OrElse(run.outcome.payload, RejectedFallback(Create))))
    {
      Pending(Create);
      run := CreateThunk(d, session, insert);
      match run.outcome
      case Fulfilled(p) => CreateFulfilled(p);
      case Rejected(m) => Rejected(Create, m);
    }

    /** `dispatch(updateProblem({ id, problem: patch }))` at time `now`; returns the
        columns sent. */
    method UpdateProblem(id: string, patch: ProblemPatch, now: int, reply: Reply<Option<Problem>>)
      returns (sent: UpdateRow)
      modifies this
      ensures sent == UpdateFields(patch, now)
      ensures match UpdateThunk(reply)
        case Fulfilled(p) =>
          State() == old(State()).(userProblems := ReplaceById(old(userProblems), p),
                                   allProblems := ReplaceById(old(allProblems), p),
                                   currentProblem := Some(p), isLoading := false, error := None)
        case Rejected(m) => State() == old(State()).(isLoading := false, error := Some(OrElse(m, RejectedFallback(Update))))
    {
      Pending(Update);
      sent := UpdateFields(patch, now);
      match UpdateThunk(reply)
      case Fulfilled(p) => UpdateFulfilled(p);
      case Rejected(m) => Rejected(Update, m);
    }

    /** `dispatch(deleteProblem(id))`. */
    method DeleteProblem(id: string, reply: Reply<()>)
      modifies this
      ensures match DeleteThunk(id, reply)
        case Fulfilled(_) =>
          State() == AfterDelete(old(State()), id).(error := None)
        case Rejected(m) => State() == old(State()).(isLoading := false, error := Some(OrElse(m, RejectedFallback(Delete))))
    {
      Pending(Delete);
      match DeleteThunk(id, reply)
      case Fulfilled(deleted) => DeleteFulfilled(deleted);
      case Rejected(m) => Rejected(Delete, m);
    }
  }
}
