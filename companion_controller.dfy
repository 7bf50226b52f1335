/** The companion actions (controllers/CompanionController.ts) over the `companions` table. */
module CompanionController {
  import opened Wrappers
  import opened Accounts
  import opened Companions
  import opened SubscriptionController
  import SubscriptionModel
  import opened Time
  import Vapi
  import Seqs
  import Text

  function WithId(id: string): Companion -> bool
  {
    (c: Companion) => c.id == id
  }

  function WithoutId(id: string): Companion -> bool
  {
    (c: Companion) => c.id != id
  }

  function AuthoredBy(authorId: string): Companion -> bool
  {
    (c: Companion) => c.authorId == authorId
  }

  /** A `Partial<Companion>` update: `None` is a field left out; the id is never rewritten. */
  datatype CompanionPatch = CompanionPatch(
    name: Option<string>,
    subject: Option<string>,
    topic: Option<string>,
    voice: Option<string>,
    style: Option<string>,
    duration: Option<int>,
    authorId: Option<string>,
    isPublic: Option<bool>,
    vapiAssistantId: Option<string>,
    instructions: Option<string>)

  /** The row after `{ ...updates }` is written over it; a patch never carries a new id. */
  function ApplyPatch(c: Companion, p: CompanionPatch): (r: Companion)
    ensures r.id == c.id
  {
    c.(name := if p.name.Some? then p.name.value else c.name,
       subject := if p.subject.Some? then p.subject.value else c.subject,
       topic := if p.topic.Some? then p.topic.value else c.topic,
       voice := if p.voice.Some? then p.voice.value else c.voice,
       style := if p.style.Some? then p.style.value else c.style,
       duration := if p.duration.Some? then p.duration.value else c.duration,
       authorId := if p.authorId.Some? then p.authorId.value else c.authorId,
       isPublic := if p.isPublic.Some? then p.isPublic.value else c.isPublic,
       vapiAssistantId := if p.vapiAssistantId.Some? then p.vapiAssistantId else c.vapiAssistantId,
       instructions := if p.instructions.Some? then p.instructions else c.instructions)
  }

  /** The patch that supplies nothing. */
  const EmptyPatch := CompanionPatch(None, None, None, None, None, None, None, None, None, None)

  /**
   * A patch that supplies nothing leaves a companion as it was, and writing the same patch a
   * second time changes nothing more.
   */
  lemma ApplyPatchIdentityAndIdempotent(c: Companion, p: CompanionPatch)
    ensures ApplyPatch(c, EmptyPatch) == c
    ensures ApplyPatch(ApplyPatch(c, p), p) == ApplyPatch(c, p)
  {
  }

  /** A supplied descriptive field takes the supplied value; one the patch leaves out keeps its value. */
  lemma ApplyPatchFields(c: Companion, p: CompanionPatch)
    ensures var r := ApplyPatch(c, p);
            (p.name.Some? ==> r.name == p.name.value) && (p.name.None? ==> r.name == c.name)
            && (p.subject.Some? ==> r.subject == p.subject.value) && (p.subject.None? ==> r.subject == c.subject)
            && (p.topic.Some? ==> r.topic == p.topic.value) && (p.topic.None? ==> r.topic == c.topic)
            && (p.voice.Some? ==> r.voice == p.voice.value) && (p.voice.None? ==> r.voice == c.voice)
            && (p.style.Some? ==> r.style == p.style.value) && (p.style.None? ==> r.style == c.style)
  {
  }

  /** The same for the remaining fields: duration, author, visibility, assistant and instructions. */
  lemma ApplyPatchOtherFields(c: Companion, p: CompanionPatch)
    ensures var r := ApplyPatch(c, p);
            (p.duration.Some? ==> r.duration == p.duration.value) && (p.duration.None? ==> r.duration == c.duration)
            && (p.authorId.Some? ==> r.authorId == p.authorId.value) && (p.authorId.None? ==> r.authorId == c.authorId)
            && (p.isPublic.Some? ==> r.isPublic == p.isPublic.value) && (p.isPublic.None? ==> r.isPublic == c.isPublic)
            && r.vapiAssistantId == (if p.vapiAssistantId.Some? then p.vapiAssistantId else c.vapiAssistantId)
            && r.instructions == (if p.instructions.Some? then p.instructions else c.instructions)
  {
  }

  function Patcher(p: CompanionPatch): Companion -> Companion
  {
    (c: Companion) => ApplyPatch(c, p)
  }

  /** The `companions` table. */
  class CompanionTable {
    var rows: seq<Companion>

    constructor (initial: seq<Companion>)
      ensures rows == initial
    {
      rows := initial;
    }

    /** `getCompanionById`: the row with that id, or null. */
    function GetCompanionById(id: string): (r: Option<Companion>)
      reads this
      ensures r.Some? ==> r.value in rows && r.value.id == id
      ensures r.None? <==> Seqs.Count(rows, WithId(id)) != 1
    {
      Seqs.FindSingle(rows, WithId(id))
    }

    /** `createCompanion`: appends the row, or returns null when its id is taken. */
    method CreateCompanion(c: Companion) returns (r: Option<Companion>)
      modifies this
      ensures Seqs.Count(old(rows), WithId(c.id)) == 0 ==> r == Some(c) && rows == old(rows) + [c]
      ensures Seqs.Count(old(rows), WithId(c.id)) != 0 ==> r.None? && rows == old(rows)
    {
      if Seqs.Count(rows, WithId(c.id)) == 0 {
        rows := rows + [c];
        r := Some(c);
      } else {
        r := None;
      }
    }

    /** `updateCompanion`: rewrites the one row with that id, or returns null and changes nothing. */
    method UpdateCompanion(id: string, p: CompanionPatch) returns (r: Option<Companion>)
      modifies this
      ensures var u := Seqs.UpdateSingle(old(rows), WithId(id), Patcher(p));
              (u.Some? ==> r == Some(u.value.1) && rows == u.value.0)
              && (u.None? ==> r.None? && rows == old(rows))
    {
      var u := Seqs.UpdateSingle(rows, WithId(id), Patcher(p));
      if u.Some? {
        rows := u.value.0;
        r := Some(u.value.1);
      } else {
        r := None;
      }
    }

    /** `deleteCompanion`: removes every row with that id. */
    method DeleteCompanion(id: string) returns (deleted: bool)
      modifies this
      ensures deleted && rows == Seqs.Filter(old(rows), WithoutId(id))
    {
      rows := Seqs.Filter(rows, WithoutId(id));
      deleted := true;
    }
  }

  /** The text stored as instructions: the caller's when truthy, otherwise the generated text. */
  function InstructionsFor(data: CreateCompanionData): (r: string)
    ensures Truthy(data.instructions) ==> r == data.instructions.value
    ensures !Truthy(data.instructions) ==>
              r == Vapi.GenerateInstructions(Vapi.CompanionBrief(data.name, data.subject, data.topic, data.style, data.duration))
  {
    if Truthy(data.instructions) then data.instructions.value
    else Vapi.GenerateInstructions(Vapi.CompanionBrief(data.name, data.subject, data.topic, data.style, data.duration))
  }

  /**
   * `{...companionData, instructions, vapiAssistantId, authorId: dbUser.id}` as stored under
   * `newId`; an absent `isPublic` takes the column default, false. `createCompanion` passes
   * `InstructionsFor(data)` as `instructions`.
   */
  function NewCompanion(data: CreateCompanionData, instructions: string, assistantId: Option<string>, authorId: string, newId: string): (c: Companion)
    ensures c.id == newId && c.authorId == authorId && c.vapiAssistantId == assistantId
    ensures c.instructions == Some(instructions)
    ensures c.name == data.name && c.subject == data.subject && c.topic == data.topic
    ensures c.voice == data.voice && c.style == data.style && c.duration == data.duration
    ensures c.isPublic == (data.isPublic == Some(true))
  {
    Companion(newId, data.name, data.subject, data.topic, data.voice, data.style, data.duration, authorId,
              data.isPublic == Some(true), assistantId, Some(instructions))
  }

  /** The answer to a failed or refused limit check, or `None` when creation may go ahead. */
  function LimitRefusal(limitCheck: ApiResponse<LimitCheck>): (r: Option<string>)
    ensures r.None? <==> limitCheck.Success? && limitCheck.data.allowed
    ensures limitCheck.Failure? ==> r == Some(OrElse(Some(limitCheck.error), "Failed to check companion limit"))
    ensures limitCheck.Success? && !limitCheck.data.allowed ==>
              var prompt := limitCheck.data.upgradePrompt;
              r == Some(if prompt.Some? && prompt.value.message != "" then prompt.value.message
                        else "Companion limit reached. Please upgrade your plan.")
  {
    if limitCheck.Failure? then Some(OrElse(Some(limitCheck.error), "Failed to check companion limit"))
    else if !limitCheck.data.allowed then
      var prompt := limitCheck.data.upgradePrompt;
      Some(OrElse(if prompt.Some? then Some(prompt.value.message) else None,
                  "Companion limit reached. Please upgrade your plan."))
    else None
  }

  /**
   * With the reply `checkCompanionLimit` gives, creation goes ahead exactly when the usage
   * statistics allow another companion, and a failed usage lookup surfaces as its own error.
   */
  lemma CreationFollowsCompanionLimit(current: Option<ClerkUser>, userByClerkId: string -> Option<User>,
                                      subscriptions: seq<SubscriptionModel.Subscription>, now: TimeValue, tierFault: bool,
                                      companions: SubscriptionModel.CountReply, sessions: SubscriptionModel.CountReply)
    ensures var usage := GetUserUsageStats(current, userByClerkId, subscriptions, now, tierFault, companions, sessions);
            var refusal := LimitRefusal(CheckCompanionLimit(current, userByClerkId, subscriptions, now, tierFault, companions, sessions));
            (refusal.None? <==> usage.Success? && usage.data.canCreateCompanion)
            && (usage.Failure? ==> refusal == Some("Failed to check companion limit"))
  {
  }

  /**
   * `createCompanion`. `limitCheck` is what `checkCompanionLimit` returned; `assistantId` is the
   * id of the Vapi assistant when its creation succeeded, `None` when it failed or threw.
   */
  method CreateCompanion(table: CompanionTable, current: Option<ClerkUser>, userByClerkId: string -> Option<User>,
                         limitCheck: ApiResponse<LimitCheck>, data: CreateCompanionData,
                         assistantId: Option<string>, newId: string)
    returns (r: ApiResponse<Companion>)
    modifies table
    ensures var auth := Authenticate(current, userByClerkId);
            auth.Failure? ==> r == Failure(auth.error) && table.rows == old(table.rows)
    ensures Authenticate(current, userByClerkId).Success? && LimitRefusal(limitCheck).Some? ==>
              r == Failure(LimitRefusal(limitCheck).value) && table.rows == old(table.rows)
    ensures var auth := Authenticate(current, userByClerkId);
            auth.Success? && LimitRefusal(limitCheck).None? ==>
              var c := NewCompanion(data, InstructionsFor(data), assistantId, auth.data.id, newId);
              (Seqs.Count(old(table.rows), WithId(newId)) == 0 ==> r == Success(c) && table.rows == old(table.rows) + [c])
              && (Seqs.Count(old(table.rows), WithId(newId)) != 0 ==> r == Failure("Failed to create companion") && table.rows == old(table.rows))
  {
    var auth := Authenticate(current, userByClerkId);
    if auth.Failure? {
      return Failure(auth.error);
    }
    var refusal := LimitRefusal(limitCheck);
    if refusal.Some? {
      return Failure(refusal.value);
    }
    var instructions := InstructionsFor(data);
    var companion := NewCompanion(data, instructions, assistantId, auth.data.id, newId);
    var created := table.CreateCompanion(companion);
    if created.None? {
      return Failure("Failed to create companion");
    }
    r := Success(created.value);
  }

  /**
   * The guard chain of `updateCompanion` and `deleteCompanion`: signed in, known locally, the
   * companion exists, and the caller is its author. `verb` is "update" or "delete".
   */
  function OwnedCompanion(current: Option<ClerkUser>, userByClerkId: string -> Option<User>,
                          rows: seq<Companion>, id: string, verb: string): (r: ApiResponse<Companion>)
    ensures var auth := Authenticate(current, userByClerkId);
            auth.Failure? ==> r == Failure(auth.error)
    ensures var auth := Authenticate(current, userByClerkId);
            auth.Success? && Seqs.FindSingle(rows, WithId(id)).None? ==> r == Failure("Companion not found")
    ensures var auth := Authenticate(current, userByClerkId);
            var found := Seqs.FindSingle(rows, WithId(id));
            auth.Success? && found.Some? && found.value.authorId != auth.data.id ==>
              r == Failure("Unauthorized to " + verb + " this companion")
    ensures r.Success? ==>
              var auth := Authenticate(current, userByClerkId);
              auth.Success? && Seqs.FindSingle(rows, WithId(id)) == Some(r.data) && r.data.authorId == auth.data.id
  {
    var auth := Authenticate(current, userByClerkId);
    if auth.Failure? then Failure(auth.error)
    else
      var companion := Seqs.FindSingle(rows, WithId(id));
      if companion.None? then Failure("Companion not found")
      else if companion.value.authorId != auth.data.id then Failure("Unauthorized to " + verb + " this companion")
      else Success(companion.value)
  }

  /** `updateCompanion`: only the author's update reaches the table. */
  method UpdateCompanion(table: CompanionTable, current: Option<ClerkUser>, userByClerkId: string -> Option<User>,
                         id: string, updates: CompanionPatch)
    returns (r: ApiResponse<Companion>)
    modifies table
    ensures var guard := OwnedCompanion(current, userByClerkId, old(table.rows), id, "update");
            guard.Failure? ==> r == guard && table.rows == old(table.rows)
    ensures var guard := OwnedCompanion(current, userByClerkId, old(table.rows), id, "update");
            guard.Success? ==>
              var u := Seqs.UpdateSingle(old(table.rows), WithId(id), Patcher(updates));
              u.Some? && r == Success(u.value.1) && table.rows == u.value.0
  {
    var guard := OwnedCompanion(current, userByClerkId, table.rows, id, "update");
    if guard.Failure? {
      return guard;
    }
    var updated := table.UpdateCompanion(id, updates);
    if updated.None? {
      return Failure("Failed to update companion");
    }
    r := Success(updated.value);
  }

  /** `deleteCompanion`: only the author's companion is removed. */
  method DeleteCompanion(table: CompanionTable, current: Option<ClerkUser>, userByClerkId: string -> Option<User>,
                         id: string)
    returns (r: ApiResponse<bool>)
    modifies table
    ensures var guard := OwnedCompanion(current, userByClerkId, old(table.rows), id, "delete");
            (guard.Failure? ==> r == Failure(guard.error) && table.rows == old(table.rows))
            && (guard.Success? ==> r == Success(true) && table.rows == Seqs.Filter(old(table.rows), WithoutId(id)))
  {
    var guard := OwnedCompanion(current, userByClerkId, table.rows, id, "delete");
    if guard.Failure? {
      return Failure(guard.error);
    }
    var deleted := table.DeleteCompanion(id);
    if !deleted {
      return Failure("Failed to delete companion");
    }
    r := Success(true);
  }

  /** Deleting an existing companion removes exactly that one row and keeps the others. */
  lemma DeleteRemovesOne(rows: seq<Companion>, id: string)
    requires Seqs.Count(rows, WithId(id)) == 1
    ensures var after := Seqs.Filter(rows, WithoutId(id));
            |after| == |rows| - 1
            && (forall c :: c in after <==> c in rows && c.id != id)
  {
    Seqs.FilterLength(rows, WithoutId(id));
    Seqs.FilterMembers(rows, WithoutId(id));
    CountComplement(rows, id);
  }

  lemma {:induction false} CountComplement(rows: seq<Companion>, id: string)
    ensures Seqs.Count(rows, WithoutId(id)) + Seqs.Count(rows, WithId(id)) == |rows|
  {
    if |rows| > 0 {
      CountComplement(rows[1..], id);
    }
  }

  /** `GetCompanionsQuery`: every field may be left out. */
  datatype CompanionsQuery = CompanionsQuery(
    limit: Option<int>,
    page: Option<int>,
    subject: Option<string>,
    topic: Option<string>,
    authorId: Option<string>)

  /** The query with every field left out. */
  const EmptyQuery := CompanionsQuery(None, None, None, None, None)

  /**
   * The row filters of `getAllCompanions`: each applies only when its field is truthy; the
   * topic matches the companion's topic or name.
   */
  function MatchesQuery(q: CompanionsQuery): Companion -> bool
  {
    (c: Companion) =>
      (!Truthy(q.subject) || c.subject == q.subject.value)
      && (!Truthy(q.topic) || Text.Contains(c.topic, q.topic.value) || Text.Contains(c.name, q.topic.value))
      && (!Truthy(q.authorId) || c.authorId == q.authorId.value)
  }

  /**
   * Newest first: `createdAt` descending, where rows are appended in the order they are
   * created, so the table read backwards.
   */
  function NewestFirst(rows: seq<Companion>): (r: seq<Companion>)
    ensures |r| == |rows|
    ensures forall i :: 0 <= i < |rows| ==> r[i] == rows[|rows| - 1 - i]
  {
    Seqs.Reverse(rows)
  }

  /**
   * `getAllCompanions(query)`: with `limit` defaulting to 10 and `page` to 1, the matching
   * companions, newest first, at positions `(page - 1) * limit` to `page * limit - 1`. A range
   * the database refuses (no positive limit or page) is caught and reads as no rows.
   */
  function AllCompanions(rows: seq<Companion>, q: CompanionsQuery): (r: seq<Companion>)
  {
    var limit := if q.limit.Some? then q.limit.value else 10;
    var page := if q.page.Some? then q.page.value else 1;
    if limit < 1 || page < 1 then []
    else Seqs.Window(Seqs.Filter(NewestFirst(rows), MatchesQuery(q)), PageStart(limit, page), limit)
  }

  /** The position `.range` starts at: `(page - 1) * limit`. */
  function PageStart(limit: int, page: int): (from: nat)
    requires limit >= 1 && page >= 1
  {
    (page - 1) * limit
  }

  /** The next page starts one page size further on. */
  lemma PageStartNext(limit: int, page: int)
    requires limit >= 1 && page >= 1
    ensures PageStart(limit, page + 1) == PageStart(limit, page) + limit
  {
  }

  /** Every listed companion is in the table, matches the query, and a page holds at most `limit`. */
  lemma AllCompanionsMatch(rows: seq<Companion>, q: CompanionsQuery)
    ensures var limit := if q.limit.Some? then q.limit.value else 10;
            |AllCompanions(rows, q)| <= (if limit < 1 then 0 else limit)
    ensures forall c :: c in AllCompanions(rows, q) ==> c in rows && MatchesQuery(q)(c)
  {
    var limit := if q.limit.Some? then q.limit.value else 10;
    var page := if q.page.Some? then q.page.value else 1;
    if limit >= 1 && page >= 1 {
      var matching := Seqs.Filter(NewestFirst(rows), MatchesQuery(q));
      Seqs.WindowMembers(matching, PageStart(limit, page), limit);
      Seqs.FilterMembers(NewestFirst(rows), MatchesQuery(q));
      Seqs.ReverseMembers(rows);
    }
  }

  /** Page `page` of size `limit` is the run of matching companions starting at `(page - 1) * limit`. */
  lemma PageWindow(rows: seq<Companion>, q: CompanionsQuery, limit: int, page: int)
    requires limit >= 1 && page >= 1
    ensures AllCompanions(rows, q.(limit := Some(limit), page := Some(page)))
            == Seqs.Window(Seqs.Filter(NewestFirst(rows), MatchesQuery(q)), PageStart(limit, page), limit)
  {
    var q1 := q.(limit := Some(limit), page := Some(page));
    assert MatchesQuery(q1) == MatchesQuery(q);
  }

  /** Page `p` followed by page `p + 1` is the run of the matching companions twice as long. */
  lemma ConsecutivePages(rows: seq<Companion>, q: CompanionsQuery, limit: int, page: int)
    requires limit >= 1 && page >= 1
    ensures var matching := Seqs.Filter(NewestFirst(rows), MatchesQuery(q));
            AllCompanions(rows, q.(limit := Some(limit), page := Some(page)))
            + AllCompanions(rows, q.(limit := Some(limit), page := Some(page + 1)))
            == Seqs.Window(matching, PageStart(limit, page), 2 * limit)
  {
    var matching := Seqs.Filter(NewestFirst(rows), MatchesQuery(q));
    PageStartNext(limit, page);
    PageWindow(rows, q, limit, page);
    PageWindow(rows, q, limit, page + 1);
    Seqs.WindowsJoin(matching, PageStart(limit, page), limit);
  }

  /** With no filters, the first page of `limit` is the `limit` newest companions. */
  lemma UnfilteredFirstPage(rows: seq<Companion>, limit: int)
    requires limit >= 1
    ensures AllCompanions(rows, EmptyQuery.(limit := Some(limit))) == NewestFirst(rows)[..Seqs.Clamp(limit, |rows|)]
  {
    var q := EmptyQuery.(limit := Some(limit));
    Seqs.FilterAll(NewestFirst(rows), MatchesQuery(q));
    Seqs.WindowFromStart(NewestFirst(rows), limit);
  }

  /**
   * `getUserCompanions(authorId, limit)`: the author's companions, newest first, at most
   * `limit` of them; a negative limit the database refuses reads as no rows.
   */
  function UserCompanions(rows: seq<Companion>, authorId: string, limit: int): (r: seq<Companion>)
    ensures |r| == (if limit < 0 then 0 else Seqs.Clamp(limit, Seqs.Count(rows, AuthoredBy(authorId))))
    ensures forall i :: 0 <= i < |r| ==> r[i].authorId == authorId
  {
    if limit < 0 then []
    else
      var own := Seqs.Filter(NewestFirst(rows), AuthoredBy(authorId));
      Seqs.FilterLength(NewestFirst(rows), AuthoredBy(authorId));
      Seqs.CountReverse(rows, AuthoredBy(authorId));
      Seqs.FilterMembers(NewestFirst(rows), AuthoredBy(authorId));
      assert forall i :: 0 <= i < |own| ==> own[i] in own;
      Seqs.Window(own, 0, limit)
  }

  /** `getAllCompanions`: needs no sign-in. */
  function GetAllCompanions(rows: seq<Companion>, q: CompanionsQuery): (r: ApiResponse<seq<Companion>>)
    ensures r.Success? && r.data == AllCompanions(rows, q)
  {
    Success(AllCompanions(rows, q))
  }

  /** `getCompanionById`: needs no sign-in. */
  function GetCompanionById(rows: seq<Companion>, id: string): (r: ApiResponse<Companion>)
    ensures r.Failure? <==> Seqs.FindSingle(rows, WithId(id)).None?
    ensures r.Failure? ==> r.error == "Companion not found"
    ensures r.Success? ==> r.data in rows && r.data.id == id
  {
    var companion := Seqs.FindSingle(rows, WithId(id));
    if companion.None? then Failure("Companion not found") else Success(companion.value)
  }

  /** `getUserCompanions(limit = 10)`: the signed-in user's own companions. */
  function GetUserCompanions(current: Option<ClerkUser>, userByClerkId: string -> Option<User>,
                             rows: seq<Companion>, limit: Option<int>): (r: ApiResponse<seq<Companion>>)
    ensures var auth := Authenticate(current, userByClerkId);
            (auth.Failure? ==> r == Failure(auth.error))
            && (auth.Success? ==> r.Success? && forall i :: 0 <= i < |r.data| ==> r.data[i].authorId == auth.data.id)
    ensures r.Success? ==> var l := if limit.Some? then limit.value else 10;
                           |r.data| <= (if l < 0 then 0 else l)
  {
    var auth := Authenticate(current, userByClerkId);
    if auth.Failure? then Failure(auth.error)
    else Success(UserCompanions(rows, auth.data.id, if limit.Some? then limit.value else 10))
  }

  /** The page size `getCompanionStats` asks for. */
  const StatsPageSize: nat := 1000

  datatype CompanionStats = CompanionStats(totalCompanions: nat, userCompanions: nat)

  /**
   * `getCompanionStats`: how many companions the first page of 1000 of all companions and of
   * the user's own holds.
   */
  function GetCompanionStats(current: Option<ClerkUser>, userByClerkId: string -> Option<User>,
                             rows: seq<Companion>): (r: ApiResponse<CompanionStats>)
    ensures var auth := Authenticate(current, userByClerkId);
            auth.Failure? ==> r == Failure(auth.error)
    ensures var auth := Authenticate(current, userByClerkId);
            auth.Success? ==>
              r == Success(CompanionStats(Seqs.Clamp(|rows|, StatsPageSize),
                                          Seqs.Clamp(Seqs.Count(rows, AuthoredBy(auth.data.id)), StatsPageSize)))
    ensures r.Success? ==> r.data.userCompanions <= r.data.totalCompanions <= StatsPageSize
  {
    var auth := Authenticate(current, userByClerkId);
    if auth.Failure? then Failure(auth.error)
    else
      var all := AllCompanions(rows, EmptyQuery.(limit := Some(StatsPageSize as int)));
      var own := UserCompanions(rows, auth.data.id, StatsPageSize);
      UnfilteredFirstPage(rows, StatsPageSize);
      Success(CompanionStats(|all|, |own|))
  }
}
