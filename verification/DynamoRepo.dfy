/** The repository on a table service, and the proof that it means the same as
    the in-process map. */
module DynamoRepo {
  import opened Wrappers
  import opened Domain
  import opened Repository
  import opened DynamoService

  // -------------------------------------------------------- stored shape

  function StatusText(s: JobStatus): string {
    match s
    case Pending => "pending"
    case Processing => "processing"
    case Done => "done"
    case Failed => "failed"
    case OtherStatus(text) => text
  }

  function ParseStatus(text: string): JobStatus {
    if text == "pending" then Pending
    else if text == "processing" then Processing
    else if text == "done" then Done
    else if text == "failed" then Failed
    else OtherStatus(text)
  }

  function FormatText(f: Format): string {
    match f
    case JPEG => "jpeg"
    case PNG => "png"
    case WebP => "webp"
    case AVIF => "avif"
    case OtherFormat(text) => text
  }

  function ParseFormat(text: string): Format {
    if text == "jpeg" then JPEG
    else if text == "png" then PNG
    else if text == "webp" then WebP
    else if text == "avif" then AVIF
    else OtherFormat(text)
  }

  function NewItem(job: Job): Item {
    map[
      "id" := S(job.id),
      "original_key" := S(job.originalKey),
      "result_key" := S(job.resultKey),
      "status" := S(StatusText(job.status)),
      "width" := N(job.spec.width),
      "height" := N(job.spec.height),
      "format" := S(FormatText(job.spec.format)),
      "quality" := N(job.spec.quality),
      "watermark" := B(job.spec.watermark),
      "strip_metadata" := B(job.spec.stripMetadata),
      "created_at" := N(job.createdAt),
      "updated_at" := N(job.updatedAt),
      "error" := S(job.error)]
  }

  // An absent attribute leaves its field at the zero value.
  function TextOf(i: Item, name: string): string {
    if name in i && i[name].S? then i[name].text else ""
  }

  function NumberOf(i: Item, name: string): int {
    if name in i && i[name].N? then i[name].num else 0
  }

  function FlagOf(i: Item, name: string): bool {
    name in i && i[name].B? && i[name].flag
  }

  function ToDomain(i: Item): Job {
    Job(TextOf(i, "id"),
        TextOf(i, "original_key"),
        TextOf(i, "result_key"),
        ParseStatus(TextOf(i, "status")),
        Spec(NumberOf(i, "width"), NumberOf(i, "height"), ParseFormat(TextOf(i, "format")),
             NumberOf(i, "quality"), FlagOf(i, "watermark"), FlagOf(i, "strip_metadata")),
        NumberOf(i, "created_at"),
        NumberOf(i, "updated_at"),
        TextOf(i, "error"))
  }

  lemma TextsRoundTrip(s: JobStatus, f: Format)
    ensures ParseStatus(StatusText(s)) == s
    ensures ParseFormat(FormatText(f)) == f
    ensures StatusText(s) == match s
                             case Pending => "pending"
                             case Processing => "processing"
                             case Done => "done"
                             case Failed => "failed"
                             case OtherStatus(text) => text
    ensures FormatText(f) == match f
                             case JPEG => "jpeg"
                             case PNG => "png"
                             case WebP => "webp"
                             case AVIF => "avif"
                             case OtherFormat(text) => text
  {
    assert STATUS_NAMES[0] == "pending" && STATUS_NAMES[1] == "processing" &&
           STATUS_NAMES[2] == "done" && STATUS_NAMES[3] == "failed";
    assert FORMAT_NAMES[0] == "jpeg" && FORMAT_NAMES[1] == "png" &&
           FORMAT_NAMES[2] == "webp" && FORMAT_NAMES[3] == "avif";
  }

  /** The attributes a job is stored under. */
  lemma ItemTexts(job: Job)
    ensures var i := NewItem(job);
            && TextOf(i, "id") == job.id
            && TextOf(i, "original_key") == job.originalKey
            && TextOf(i, "result_key") == job.resultKey
            && TextOf(i, "status") == StatusText(job.status)
            && TextOf(i, "format") == FormatText(job.spec.format)
            && TextOf(i, "error") == job.error
  {
  }

  lemma ItemNumbers(job: Job)
    ensures var i := NewItem(job);
            && NumberOf(i, "width") == job.spec.width
            && NumberOf(i, "height") == job.spec.height
            && NumberOf(i, "quality") == job.spec.quality
            && NumberOf(i, "created_at") == job.createdAt
            && NumberOf(i, "updated_at") == job.updatedAt
            && FlagOf(i, "watermark") == job.spec.watermark
            && FlagOf(i, "strip_metadata") == job.spec.stripMetadata
  {
  }

  /** A stored job reads back as itself. */
  lemma ItemRoundTrip(job: Job)
    ensures ToDomain(NewItem(job)) == job
  {
    ItemTexts(job);
    ItemNumbers(job);
    TextsRoundTrip(job.status, job.spec.format);
  }

  // -------------------------------------------------- the update request

  const SET_STATUS := Clause("#status", ":status")
  const SET_UPDATED := Clause("#updated_at", ":updated_at")
  const SET_ERROR := Clause("#error", ":error")
  const SET_RESULT := Clause("#result_key", ":result_key")

  function Clauses(resultKey: string): seq<Clause> {
    if resultKey != "" then [SET_STATUS, SET_UPDATED, SET_ERROR, SET_RESULT]
    else [SET_STATUS, SET_UPDATED, SET_ERROR]
  }

  function Names(resultKey: string): map<string, string> {
    map["#status" := "status", "#updated_at" := "updated_at", "#error" := "error", "#key" := KEY]
    + if resultKey != "" then map["#result_key" := "result_key"] else map[]
  }

  function Values(status: JobStatus, resultKey: string, failure: Option<string>, now: Instant): map<string, Attr> {
    map[":status" := S(StatusText(status)),
        ":updated_at" := N(now),
        ":error" := S(if failure.Some? then failure.value else "")]
    + if resultKey != "" then map[":result_key" := S(resultKey)] else map[]
  }

  function UpdateRequest(id: string, status: JobStatus, resultKey: string,
                         failure: Option<string>, now: Instant): UpdateInput
  {
    UpdateInput(id,
                "SET " + Join(RenderedAll(Clauses(resultKey)), ", "),
                EXISTS + "#key" + ")",
                Names(resultKey),
                Values(status, resultKey, failure, now))
  }

  // The clauses as the repository writes them.
  lemma ClauseTexts()
    ensures Rendered(SET_STATUS) == "#status = :status"
    ensures Rendered(SET_UPDATED) == "#updated_at = :updated_at"
    ensures Rendered(SET_ERROR) == "#error = :error"
    ensures Rendered(SET_RESULT) == "#result_key = :result_key"
  {
  }

  predicate PlainClause(c: Clause) {
    Plain(c.name) && Plain(c.value)
  }

  lemma PlainStatus()
    ensures PlainClause(SET_STATUS)
  {
  }

  lemma PlainUpdated()
    ensures PlainClause(SET_UPDATED)
  {
  }

  lemma PlainError()
    ensures PlainClause(SET_ERROR)
  {
  }

  lemma PlainResult()
    ensures PlainClause(SET_RESULT)
  {
  }

  // The expressions parse to what they were built from.
  lemma UpdateParses(resultKey: string)
    ensures ParseSet("SET " + Join(RenderedAll(Clauses(resultKey)), ", ")) == Some(Clauses(resultKey))
  {
    var cs := Clauses(resultKey);
    PlainStatus();
    PlainUpdated();
    PlainError();
    PlainResult();
    forall i | 0 <= i < |cs| ensures Plain(cs[i].name) && Plain(cs[i].value) {
      assert PlainClause(cs[i]);
    }
    SetRoundTrip(cs);
  }

  lemma ConditionParses(name: string)
    requires name != ""
    ensures ParseExists(EXISTS + name + ")") == Some(name)
  {
    var condition := EXISTS + name + ")";
    assert condition[|EXISTS|..|condition| - 1] == name;
    assert condition[..|EXISTS|] == EXISTS;
  }

  /** Every placeholder in the expressions is defined and every defined one is
      used, with and without a result key. */
  lemma PlaceholdersMatch(status: JobStatus, resultKey: string, failure: Option<string>, now: Instant)
    ensures NamesUsed(Clauses(resultKey)) + {"#key"} == Names(resultKey).Keys
    ensures ValuesUsed(Clauses(resultKey)) == Values(status, resultKey, failure, now).Keys
  {
    UsedTogether(Clauses(resultKey));
  }

  // No attribute is assigned twice, and the key not at all.
  lemma PathsAllowed(resultKey: string)
    ensures Paths(Clauses(resultKey), Names(resultKey)) ==
            ["status", "updated_at", "error"] + if resultKey != "" then ["result_key"] else []
    ensures AllowedPaths(Paths(Clauses(resultKey), Names(resultKey)))
  {
    AttributesDiffer();
  }

  lemma AttributesDiffer()
    ensures AllowedPaths(["status", "updated_at", "error"])
    ensures AllowedPaths(["status", "updated_at", "error", "result_key"])
  {
  }

  // The placeholders of three or four clauses, one by one.
  lemma UsedTogether(cs: seq<Clause>)
    requires 3 <= |cs| <= 4
    ensures NamesUsed(cs) ==
            {cs[0].name, cs[1].name, cs[2].name} + if |cs| == 4 then {cs[3].name} else {}
    ensures ValuesUsed(cs) ==
            {cs[0].value, cs[1].value, cs[2].value} + if |cs| == 4 then {cs[3].value} else {}
  {
  }

  // ------------------------------------------------------------- meaning

  // The three assignments every update makes.
  lemma AssignedBasics(item: Item, names: map<string, string>, values: map<string, Attr>)
    requires "#status" in names && "#updated_at" in names && "#error" in names
    requires ":status" in values && ":updated_at" in values && ":error" in values
    ensures Assigned(item, [SET_STATUS, SET_UPDATED, SET_ERROR], names, values) ==
            item[names["#status"] := values[":status"]]
                [names["#updated_at"] := values[":updated_at"]]
                [names["#error"] := values[":error"]]
  {
    AssignedAppend(item, [], SET_STATUS, names, values);
    assert [] + [SET_STATUS] == [SET_STATUS];
    AssignedAppend(item, [SET_STATUS], SET_UPDATED, names, values);
    assert [SET_STATUS] + [SET_UPDATED] == [SET_STATUS, SET_UPDATED];
    AssignedAppend(item, [SET_STATUS, SET_UPDATED], SET_ERROR, names, values);
    assert [SET_STATUS, SET_UPDATED] + [SET_ERROR] == [SET_STATUS, SET_UPDATED, SET_ERROR];
  }

  lemma ItemUpdated(job: Job, status: JobStatus, failure: Option<string>, now: Instant)
    ensures NewItem(job)["status" := S(StatusText(status))]["updated_at" := N(now)]
              ["error" := S(if failure.Some? then failure.value else "")] ==
            NewItem(Updated(job, status, "", failure, now))
  {
  }

  lemma ItemResult(job: Job, resultKey: string)
    ensures NewItem(job)["result_key" := S(resultKey)] == NewItem(job.(resultKey := resultKey))
  {
  }

  // The placeholders and values of an update, one by one.
  lemma PlaceholderValues(status: JobStatus, resultKey: string, failure: Option<string>, now: Instant)
    ensures var names := Names(resultKey);
            && "#status" in names && names["#status"] == "status"
            && "#updated_at" in names && names["#updated_at"] == "updated_at"
            && "#error" in names && names["#error"] == "error"
            && (resultKey != "" ==> "#result_key" in names && names["#result_key"] == "result_key")
    ensures var values := Values(status, resultKey, failure, now);
            && ":status" in values && values[":status"] == S(StatusText(status))
            && ":updated_at" in values && values[":updated_at"] == N(now)
            && ":error" in values && values[":error"] == S(if failure.Some? then failure.value else "")
            && (resultKey != "" ==> ":result_key" in values && values[":result_key"] == S(resultKey))
  {
  }

  lemma BasicsAreUpdated(job: Job, status: JobStatus, failure: Option<string>, now: Instant,
                         names: map<string, string>, values: map<string, Attr>)
    requires "#status" in names && names["#status"] == "status"
    requires "#updated_at" in names && names["#updated_at"] == "updated_at"
    requires "#error" in names && names["#error"] == "error"
    requires ":status" in values && values[":status"] == S(StatusText(status))
    requires ":updated_at" in values && values[":updated_at"] == N(now)
    requires ":error" in values && values[":error"] == S(if failure.Some? then failure.value else "")
    ensures Assigned(NewItem(job), [SET_STATUS, SET_UPDATED, SET_ERROR], names, values) ==
            NewItem(Updated(job, status, "", failure, now))
  {
    AssignedBasics(NewItem(job), names, values);
    ItemUpdated(job, status, failure, now);
  }

  /** What the assignments of an update do to a stored job is what the
      in-process repository does to the job. */
  lemma AssignedIsUpdated(job: Job, status: JobStatus, resultKey: string, failure: Option<string>, now: Instant)
    ensures Assigned(NewItem(job), Clauses(resultKey), Names(resultKey), Values(status, resultKey, failure, now)) ==
            NewItem(Updated(job, status, resultKey, failure, now))
  {
    var names, values := Names(resultKey), Values(status, resultKey, failure, now);
    var basics := [SET_STATUS, SET_UPDATED, SET_ERROR];
    PlaceholderValues(status, resultKey, failure, now);
    BasicsAreUpdated(job, status, failure, now, names, values);
    if resultKey != "" {
      assert basics + [SET_RESULT] == Clauses(resultKey);
      AssignedAppend(NewItem(job), basics, SET_RESULT, names, values);
      ItemResult(Updated(job, status, "", failure, now), resultKey);
    }
  }

  // What an update request does to a table.
  lemma UpdateMeaning(t: Table, id: string, status: JobStatus, resultKey: string, failure: Option<string>, now: Instant)
    requires id in t ==> KEY in t[id]
    ensures var r := Update(t, UpdateRequest(id, status, resultKey, failure, now));
            if id in t then
              r == Success(t[id := Assigned(t[id], Clauses(resultKey), Names(resultKey),
                                            Values(status, resultKey, failure, now))])
            else r == Failure(ConditionFailed)
  {
    UpdateParses(resultKey);
    ConditionParses("#key");
    PlaceholdersMatch(status, resultKey, failure, now);
    PathsAllowed(resultKey);
  }

  // ---------------------------------------------------------- repository

  /** One call on the table-backed repository. */
  function OnTable(t: Table, r: Request): (Table, Reply) {
    match r
    case SaveJob(None) => (t, Failure(NilJob))
    case SaveJob(Some(job)) =>
      if job.id == "" then (t, Failure(EmptyId)) else (t[job.id := NewItem(job)], Success(None))
    case GetJob(id) =>
      if id == "" || id !in t || t[id] == map[] then (t, Failure(NotFound))
      else (t, Success(Some(ToDomain(t[id]))))
    case SetStatus(id, status, resultKey, failure, now) =>
      if id == "" then (t, Failure(NotFound))
      else if !KnownStatus(status) then (t, Failure(InvalidStatus))
      else
        match Update(t, UpdateRequest(id, status, resultKey, failure, now))
        case Success(t') => (t', Success(None))
        case Failure(ConditionFailed) => (t, Failure(NotFound))
        // Never for a request built here: see UpdateMeaning.
        case Failure(_) => (t, Failure(ServiceRefused))
  }

  // The request as the repository builds it.
  lemma SetAsWritten(assignments: seq<string>, resultKey: string)
    requires assignments == ["#status = :status", "#updated_at = :updated_at", "#error = :error"]
                     + if resultKey != "" then ["#result_key = :result_key"] else []
    ensures assignments == RenderedAll(Clauses(resultKey))
  {
    ClauseTexts();
  }

  lemma ConditionAsWritten()
    ensures EXISTS + "#key" + ")" == "attribute_exists(#key)"
  {
  }

  lemma NamesAsWritten(names: map<string, string>, resultKey: string)
    requires names ==
             (map["#status" := "status", "#updated_at" := "updated_at", "#error" := "error"]
              + if resultKey != "" then map["#result_key" := "result_key"] else map[])["#key" := KEY]
    ensures names == Names(resultKey)
  {
  }

  class JobRepository {
    var table: Table

    constructor ()
      ensures table == map[]
    {
      table := map[];
    }

    method Save(job: Option<Job>) returns (reply: Reply)
      modifies this
      ensures (table, reply) == OnTable(old(table), SaveJob(job))
    {
      if job.None? {
        return Failure(NilJob);
      }
      if job.value.id == "" {
        return Failure(EmptyId);
      }
      table := table[job.value.id := NewItem(job.value)];
      return Success(None);
    }

    method Get(id: string) returns (reply: Reply)
      ensures (table, reply) == OnTable(table, GetJob(id))
    {
      if id == "" {
        return Failure(NotFound);
      }
      var item := if id in table then table[id] else map[];
      if item == map[] {
        return Failure(NotFound);
      }
      return Success(Some(ToDomain(item)));
    }

    /** Builds the expression, its placeholders and their values side by side. */
    static method BuildUpdate(id: string, status: JobStatus, resultKey: string, failure: Option<string>, now: Instant)
      returns (input: UpdateInput)
      ensures input == UpdateRequest(id, status, resultKey, failure, now)
    {
      var assignments := ["#status = :status", "#updated_at = :updated_at", "#error = :error"];
      var names := map["#status" := "status", "#updated_at" := "updated_at", "#error" := "error"];
      var values := map[
        ":status" := S(StatusText(status)),
        ":updated_at" := N(now),
        ":error" := S(if failure.Some? then failure.value else "")];
      if resultKey != "" {
        assignments := assignments + ["#result_key = :result_key"];
        names := names["#result_key" := "result_key"];
        values := values[":result_key" := S(resultKey)];
      }
      names := names["#key" := KEY];

      SetAsWritten(assignments, resultKey);
      ConditionAsWritten();
      NamesAsWritten(names, resultKey);
      input := UpdateInput(id, "SET " + Join(assignments, ", "), "attribute_exists(#key)", names, values);
    }

    method UpdateStatus(id: string, status: JobStatus, resultKey: string, failure: Option<string>, now: Instant)
      returns (reply: Reply)
      modifies this
      ensures (table, reply) == OnTable(old(table), SetStatus(id, status, resultKey, failure, now))
    {
      if id == "" {
        return Failure(NotFound);
      }
      if !KnownStatus(status) {
        return Failure(InvalidStatus);
      }
      var input := BuildUpdate(id, status, resultKey, failure, now);
      var updated := Update(table, input);
      if updated.Failure? {
        return Failure(if updated.error.ConditionFailed? then NotFound else ServiceRefused);
      }
      table := updated.value;
      return Success(None);
    }
  }

  // ---------------------------------------------------------- simulation

  /** A table and a map that hold the same jobs. */
  predicate Stores(t: Table, jobs: Jobs) {
    && t.Keys == jobs.Keys
    && (forall id :: id in jobs ==> t[id] == NewItem(jobs[id]))
  }

  // The one request the two repositories answer differently: an update of no
  // job at all to a status that does not exist. Each refuses it, the map for
  // the status and the table for the identifier.
  predicate AnsweredDifferently(r: Request) {
    r.SetStatus? && r.id == "" && !KnownStatus(r.status)
  }

  lemma UpdateOnTable(t: Table, id: string, status: JobStatus, resultKey: string,
                      failure: Option<string>, now: Instant)
    requires id != "" && KnownStatus(status) && (id in t ==> KEY in t[id])
    ensures OnTable(t, SetStatus(id, status, resultKey, failure, now)) ==
            if id in t then
              (t[id := Assigned(t[id], Clauses(resultKey), Names(resultKey),
                                Values(status, resultKey, failure, now))], Success(None))
            else (t, Failure(NotFound))
  {
    UpdateMeaning(t, id, status, resultKey, failure, now);
  }

  lemma SimulatesUpdate(t: Table, jobs: Jobs, id: string, status: JobStatus, resultKey: string,
                        failure: Option<string>, now: Instant)
    requires Filed(jobs) && Stores(t, jobs) && id != "" && KnownStatus(status)
    ensures
      var r := SetStatus(id, status, resultKey, failure, now);
      var (t', reply) := OnTable(t, r);
      var (jobs', expected) := Respond(jobs, r);
      Filed(jobs') && Stores(t', jobs') && reply == expected
  {
    if id in jobs {
      assert KEY in NewItem(jobs[id]);
      AssignedIsUpdated(jobs[id], status, resultKey, failure, now);
    }
    UpdateOnTable(t, id, status, resultKey, failure, now);
  }

  lemma SimulatesGet(t: Table, jobs: Jobs, id: string)
    requires Filed(jobs) && Stores(t, jobs)
    ensures OnTable(t, GetJob(id)) == (t, Respond(jobs, GetJob(id)).1)
    ensures Respond(jobs, GetJob(id)).0 == jobs
  {
    if id in jobs {
      ItemRoundTrip(jobs[id]);
      assert KEY in NewItem(jobs[id]);
    }
  }

  /** Each request takes related states to related states, and gets the same
      reply from both repositories exactly when it is not that one request. */
  lemma SimulatesOne(t: Table, jobs: Jobs, r: Request)
    requires Filed(jobs) && Stores(t, jobs)
    ensures
      var (t', reply) := OnTable(t, r);
      var (jobs', expected) := Respond(jobs, r);
      && Filed(jobs') && Stores(t', jobs')
      && (reply == expected <==> !AnsweredDifferently(r))
  {
    match r
    case SaveJob(_) =>
    case GetJob(id) => SimulatesGet(t, jobs, id);
    case SetStatus(id, status, resultKey, failure, now) =>
      if id != "" && KnownStatus(status) {
        SimulatesUpdate(t, jobs, id, status, resultKey, failure, now);
      }
  }

  function AllOnTable(t: Table, rs: seq<Request>): (Table, seq<Reply>)
    decreases |rs|
  {
    if rs == [] then (t, [])
    else
      var (mid, reply) := OnTable(t, rs[0]);
      var (end, replies) := AllOnTable(mid, rs[1..]);
      (end, [reply] + replies)
  }

  /** Over every sequence of requests the table-backed repository keeps the same
      jobs as the map, and gives the same replies exactly when the sequence holds
      no update with both an empty identifier and an unknown status. */
  lemma {:induction false} Simulates(t: Table, jobs: Jobs, rs: seq<Request>)
    requires Filed(jobs) && Stores(t, jobs)
    ensures
      var (t', replies) := AllOnTable(t, rs);
      var (jobs', expected) := RespondAll(jobs, rs);
      && Filed(jobs') && Stores(t', jobs')
      && |replies| == |expected| == |rs|
      && (replies == expected <==> forall i :: 0 <= i < |rs| ==> !AnsweredDifferently(rs[i]))
    decreases |rs|
  {
    if rs != [] {
      SimulatesOne(t, jobs, rs[0]);
      var (mid, reply) := OnTable(t, rs[0]);
      var (jmid, answer) := Respond(jobs, rs[0]);
      Simulates(mid, jmid, rs[1..]);
      var replies, expected := AllOnTable(t, rs).1, RespondAll(jobs, rs).1;
      var more, others := AllOnTable(mid, rs[1..]).1, RespondAll(jmid, rs[1..]).1;
      assert replies == [reply] + more && expected == [answer] + others;
      assert replies == expected <==> reply == answer && more == others by {
        assert replies[0] == reply && expected[0] == answer;
        assert replies[1..] == more && expected[1..] == others;
      }
      assert forall i :: 0 <= i < |rs[1..]| ==> rs[1..][i] == rs[i + 1];
      assert (forall i :: 0 <= i < |rs| ==> !AnsweredDifferently(rs[i])) <==>
        !AnsweredDifferently(rs[0]) && (forall i :: 0 <= i < |rs[1..]| ==> !AnsweredDifferently(rs[1..][i])) by {
        assert forall i :: 1 <= i < |rs| ==> rs[i] == rs[1..][i - 1];
      }
    }
  }
}
