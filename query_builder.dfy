/**
 * Turning a tool's structured parameters into the natural-language query the
 * crew receives: one branch per tool with its own defaults and optional
 * clauses, and a generic JSON rendering for every other tool id.
 */
module QueryBuilder {
  import opened Wrappers
  import opened PyValues
  import ToolMapping

  /** The tool ids that have a branch of their own. */
  const DedicatedTools: set<string> := {
    "google_calendar_create", "google_calendar_list", "google_calendar_get",
    "google_calendar_update", "google_calendar_delete",
    "gmail_send", "gmail_read", "gmail_search", "gmail_reply",
    "google_drive_upload", "google_drive_list", "google_drive_download",
    "google_drive_share", "google_drive_create_folder",
    "google_sheets_read", "google_sheets_write",
    "google_docs_read", "google_docs_create"
  }

  /** The mapped tools that have no branch of their own. */
  const FallbackTools: set<string> := {
    "google_calendar_quick_add", "google_calendar_freebusy", "gmail_draft", "gmail_labels",
    "google_drive_move", "google_drive_delete", "google_sheets_update", "google_sheets_append",
    "google_docs_write"
  }

  /** The tools whose query may raise while it is built. */
  const FallibleTools: set<string> := {"google_calendar_create", "gmail_send", "gmail_reply"}

  /** `str(params.get(key, default))`, as an f-string shows it. */
  function Shown(rt: Runtime, params: map<string, Value>, key: string, default: Value): string {
    ToStr(rt, Get(params, key, default))
  }

  /** An optional clause: the lead text followed by `str(v)`, present only when v is truthy. */
  function Clause(rt: Runtime, lead: string, v: Value): string {
    if Truthy(v) then lead + ToStr(rt, v) else ""
  }

  /** The generic query of a tool without a branch of its own. */
  function FallbackQuery(rt: Runtime, toolId: string, params: map<string, Value>): string {
    "Execute " + toolId + " with parameters: " + rt.dumps(params)
  }

  // ---------------------------------------------------------------- calendar

  /** `start.get('dateTime', '')` when start is a dict, `str(start)` otherwise. */
  function DateTimeOf(rt: Runtime, v: Value): Value {
    if v.Dict? then Get(v.entries, "dateTime", Str("")) else Str(ToStr(rt, v))
  }

  /** The attendees cannot be joined: a list holding something other than a str. */
  predicate AttendeesUnjoinable(params: map<string, Value>) {
    var a := Get(params, "attendees", List([]));
    a.List? && exists k :: 0 <= k < |a.items| && !a.items[k].Str?
  }

  /** The attendees clause: a list is joined with ", " (and raises unless all are str), anything else is shown whole. */
  function AttendeesClause(rt: Runtime, attendees: Value): (r: Result<string, Fault>)
    ensures r.Failure? <==> attendees.List? && exists k :: 0 <= k < |attendees.items| && !attendees.items[k].Str?
    ensures !Truthy(attendees) ==> r == Success("")
  {
    if !Truthy(attendees) then Success("")
    else if attendees.List? then
      match Join(", ", attendees.items)
      case Success(names) => Success(" with attendees: " + names)
      case Failure(f) => Failure(f)
    else Success(" with attendees: " + ToStr(rt, attendees))
  }

  function CalendarCreateQuery(rt: Runtime, params: map<string, Value>): (r: Result<string, Fault>)
    ensures r.Failure? <==> AttendeesUnjoinable(params)
    ensures r.Success? ==> "Create calendar event: " + Shown(rt, params, "summary", Str("event")) <= r.value
  {
    match AttendeesClause(rt, Get(params, "attendees", List([])))
    case Failure(f) => Failure(f)
    case Success(attendees) =>
      Success("Create calendar event: " + Shown(rt, params, "summary", Str("event"))
              + Clause(rt, " from ", DateTimeOf(rt, Get(params, "start", Dict(map[]))))
              + Clause(rt, " to ", DateTimeOf(rt, Get(params, "end", Dict(map[]))))
              + Clause(rt, " with description: ", Get(params, "description", Str("")))
              + attendees)
  }

  /** How an event given as plain text is described; an empty text is a field left out. */
  function DescribeEvent(summary: string, start: string, end: string, description: string, attendees: seq<string>): string {
    "Create calendar event: " + summary
    + (if start != "" then " from " + start else "")
    + (if end != "" then " to " + end else "")
    + (if description != "" then " with description: " + description else "")
    + (if attendees != [] then " with attendees: " + JoinText(", ", attendees) else "")
  }

  /** The params a client sends for an event given as plain text, with Google-style start and end objects. */
  function EventParams(summary: string, start: string, end: string, description: string, attendees: seq<string>): map<string, Value> {
    map[
      "summary" := Str(summary),
      "start" := Dict(map["dateTime" := Str(start)]),
      "end" := Dict(map["dateTime" := Str(end)]),
      "description" := Str(description),
      "attendees" := List(StrList(attendees))
    ]
  }

  // ------------------------------------------------------------------- gmail

  /** The first 100 characters of a body followed by "...", or the whole body when it is no longer. */
  function Excerpt(body: string): (r: string)
    ensures |body| <= 100 ==> r == body
    ensures |body| > 100 ==> |r| == 103 && r[..100] == body[..100] && r[100..] == "..."
  {
    if |body| > 100 then body[..100] + "..." else body
  }

  /** The bodies that make the gmail_send branch raise: len() of a truthy int or bool, or slicing a dict of more than 100 keys. */
  predicate BodyFaults(body: Value) {
    (body.Int? && body.i != 0) || (body.Bool? && body.b) || (body.Dict? && |body.entries| > 100)
  }

  function SendHead(rt: Runtime, params: map<string, Value>): string {
    "Send email to " + Shown(rt, params, "to", Str("")) + " with subject '" + Shown(rt, params, "subject", Str("")) + "'"
  }

  /** The body clause: a body longer than 100 is cut to its first 100 and followed by "...". */
  function BodyClause(rt: Runtime, body: Value): (r: Result<string, Fault>)
    ensures r.Failure? <==> BodyFaults(body)
    ensures !Truthy(body) ==> r == Success("")
    ensures body.Str? && |body.s| > 100 ==> r == Success(" and body: " + body.s[..100] + "...")
    ensures body.Str? && 0 < |body.s| <= 100 ==> r == Success(" and body: " + body.s)
  {
    if !Truthy(body) then Success("")
    else
      match Len(body)
      case Failure(f) => Failure(f)
      case Success(n) =>
        if n > 100 then
          match Prefix(body, 100)
          case Success(cut) => Success(" and body: " + ToStr(rt, cut) + "...")
          case Failure(f) => Failure(f)
        else Success(" and body: " + ToStr(rt, body))
  }

  function GmailSendQuery(rt: Runtime, params: map<string, Value>): (r: Result<string, Fault>)
    ensures r.Failure? <==> BodyFaults(Get(params, "body", Str("")))
    ensures r.Success? ==> SendHead(rt, params) <= r.value
  {
    match BodyClause(rt, Get(params, "body", Str("")))
    case Failure(f) => Failure(f)
    case Success(body) =>
      Success(SendHead(rt, params) + body
              + Clause(rt, ", CC: ", Get(params, "cc", Null))
              + Clause(rt, ", BCC: ", Get(params, "bcc", Null)))
  }

  /** How an email given as plain text is described; an empty text is a field left out. */
  function DescribeEmail(to: string, subject: string, body: string, cc: string, bcc: string): string {
    "Send email to " + to + " with subject '" + subject + "'"
    + (if body != "" then " and body: " + Excerpt(body) else "")
    + (if cc != "" then ", CC: " + cc else "")
    + (if bcc != "" then ", BCC: " + bcc else "")
  }

  function EmailParams(to: string, subject: string, body: string, cc: string, bcc: string): map<string, Value> {
    map["to" := Str(to), "subject" := Str(subject), "body" := Str(body), "cc" := Str(cc), "bcc" := Str(bcc)]
  }

  /** The reply branch: the reply body is cut to 100 characters and "..." is appended whatever its length. */
  function GmailReplyQuery(rt: Runtime, params: map<string, Value>): (r: Result<string, Fault>)
    ensures var reply := Get(params, "reply_body", Str(""));
      r.Failure? <==> !(reply.Str? || reply.List?)
    ensures var reply := Get(params, "reply_body", Str(""));
      reply.Str? ==> r == Success("Reply to email from " + Shown(rt, params, "original_from_email", Str(""))
                                  + " with subject '" + Shown(rt, params, "original_subject", Str(""))
                                  + "' and reply: " + reply.s[..Min(100, |reply.s|)] + "...")
  {
    match Prefix(Get(params, "reply_body", Str("")), 100)
    case Failure(f) => Failure(f)
    case Success(cut) =>
      Success("Reply to email from " + Shown(rt, params, "original_from_email", Str(""))
              + " with subject '" + Shown(rt, params, "original_subject", Str(""))
              + "' and reply: " + ToStr(rt, cut) + "...")
  }

  // ------------------------------------------------------------------- drive

  /** `params.get('fileName') or params.get('name', 'file')` */
  function UploadName(params: map<string, Value>): (v: Value)
    ensures Truthy(Get(params, "fileName", Null)) ==> v == params["fileName"]
    ensures !Truthy(Get(params, "fileName", Null)) && "name" in params ==> v == params["name"]
    ensures !Truthy(Get(params, "fileName", Null)) && "name" !in params ==> v == Str("file")
  {
    var fileName := Get(params, "fileName", Null);
    if Truthy(fileName) then fileName else Get(params, "name", Str("file"))
  }

  function DriveUploadQuery(rt: Runtime, params: map<string, Value>): string {
    var folderId := Get(params, "folderId", Str(""));
    if Truthy(folderId) then "Upload file " + ToStr(rt, UploadName(params)) + " to Google Drive folder " + ToStr(rt, folderId)
    else "Upload file " + ToStr(rt, UploadName(params)) + " to Google Drive"
  }

  /** A truthy search query wins over a truthy folder id, which wins over listing everything. */
  function DriveListQuery(rt: Runtime, params: map<string, Value>): (r: string)
    ensures var query := Get(params, "query", Str(""));
      Truthy(query) ==> r == "List files in Google Drive matching: " + ToStr(rt, query)
    ensures var query, folderId := Get(params, "query", Str("")), Get(params, "folderId", Str(""));
      !Truthy(query) && Truthy(folderId) ==> r == "List files in Google Drive folder " + ToStr(rt, folderId)
    ensures !Truthy(Get(params, "query", Str(""))) && !Truthy(Get(params, "folderId", Str(""))) ==> r == "List files in Google Drive"
  {
    var folderId := Get(params, "folderId", Str(""));
    var query := Get(params, "query", Str(""));
    if Truthy(query) then "List files in Google Drive matching: " + ToStr(rt, query)
    else if Truthy(folderId) then "List files in Google Drive folder " + ToStr(rt, folderId)
    else "List files in Google Drive"
  }

  function CreateFolderQuery(rt: Runtime, params: map<string, Value>): string {
    var folderName := Shown(rt, params, "name", Str("New Folder"));
    var parentId := Get(params, "parentId", Str(""));
    if Truthy(parentId) then "Create folder '" + folderName + "' in Google Drive folder " + ToStr(rt, parentId)
    else "Create folder '" + folderName + "' in Google Drive"
  }

  // ------------------------------------------------------------------ dispatch

  /** `convert_params_to_user_query(tool_id, params)`; a Failure is the exception it raises. */
  function ConvertParamsToUserQuery(rt: Runtime, toolId: string, params: map<string, Value>): (r: Result<string, Fault>)
    ensures toolId !in DedicatedTools ==> r == Success(FallbackQuery(rt, toolId, params))
    ensures r.Failure? ==> toolId in FallibleTools
  {
    if toolId == "google_calendar_create" then CalendarCreateQuery(rt, params)
    else if toolId == "google_calendar_list" then
      Success("List calendar events from " + Shown(rt, params, "timeMin", Str("now"))
              + " to " + Shown(rt, params, "timeMax", Str("future"))
              + ", maximum " + Shown(rt, params, "maxResults", Int(10)) + " results")
    else if toolId == "google_calendar_get" then
      Success("Get calendar event with ID: " + Shown(rt, params, "eventId", Str("")))
    else if toolId == "google_calendar_update" then
      Success("Update calendar event " + Shown(rt, params, "eventId", Str(""))
              + " with title: " + Shown(rt, params, "summary", Str("")))
    else if toolId == "google_calendar_delete" then
      Success("Delete calendar event with ID: " + Shown(rt, params, "eventId", Str("")))
    else if toolId == "gmail_send" then GmailSendQuery(rt, params)
    else if toolId == "gmail_read" then
      Success("Read " + (if Truthy(Get(params, "unread_only", Bool(true))) then "unread" else "recent")
              + " emails from the last " + Shown(rt, params, "hours", Int(24))
              + " hours, maximum " + Shown(rt, params, "maxResults", Int(10)) + " results")
    else if toolId == "gmail_search" then
      Success("Search emails with query: " + Shown(rt, params, "query", Str("")))
    else if toolId == "gmail_reply" then GmailReplyQuery(rt, params)
    else if toolId == "google_drive_upload" then Success(DriveUploadQuery(rt, params))
    else if toolId == "google_drive_list" then Success(DriveListQuery(rt, params))
    else if toolId == "google_drive_download" then
      Success("Download file from Google Drive with ID: " + Shown(rt, params, "fileId", Str("")))
    else if toolId == "google_drive_share" then
      Success("Share Google Drive file " + Shown(rt, params, "fileId", Str(""))
              + " with " + Shown(rt, params, "email", Str("")))
    else if toolId == "google_drive_create_folder" then Success(CreateFolderQuery(rt, params))
    else if toolId == "google_sheets_read" then
      Success("Read data from Google Sheets " + Shown(rt, params, "spreadsheetId", Str(""))
              + " range " + Shown(rt, params, "range", Str("")))
    else if toolId == "google_sheets_write" then
      Success("Write data to Google Sheets " + Shown(rt, params, "spreadsheetId", Str(""))
              + " range " + Shown(rt, params, "range", Str("")))
    else if toolId == "google_docs_read" then
      Success("Read Google Docs document " + Shown(rt, params, "documentId", Str("")))
    else if toolId == "google_docs_create" then
      Success("Create Google Docs document with title: " + Shown(rt, params, "title", Str("New Document")))
    else Success(FallbackQuery(rt, toolId, params))
  }

  // ------------------------------------------------------------------ lemmas

  /** An event given as plain text is described field by field, in a fixed order, leaving out the empty ones. */
  lemma CalendarCreateDescribesEvent(rt: Runtime, summary: string, start: string, end: string, description: string, attendees: seq<string>)
    ensures ConvertParamsToUserQuery(rt, "google_calendar_create", EventParams(summary, start, end, description, attendees))
         == Success(DescribeEvent(summary, start, end, description, attendees))
  {
    JoinOfStrings(", ", attendees);
  }

  /** A start or end time may be sent as a bare string instead of a `{dateTime: ...}` object, with the same query. */
  lemma CalendarTimeMayBeText(rt: Runtime, params: map<string, Value>, key: string, time: string)
    requires key == "start" || key == "end"
    ensures ConvertParamsToUserQuery(rt, "google_calendar_create", params[key := Str(time)])
         == ConvertParamsToUserQuery(rt, "google_calendar_create", params[key := Dict(map["dateTime" := Str(time)])])
  {
  }

  /** An email given as plain text: the body is shown whole up to 100 characters and cut to 100 plus "..." beyond; CC comes before BCC; empty fields are left out. */
  lemma GmailSendDescribesEmail(rt: Runtime, to: string, subject: string, body: string, cc: string, bcc: string)
    ensures ConvertParamsToUserQuery(rt, "gmail_send", EmailParams(to, subject, body, cc, bcc))
         == Success(DescribeEmail(to, subject, body, cc, bcc))
  {
    var params := EmailParams(to, subject, body, cc, bcc);
    var clause := if body != "" then " and body: " + Excerpt(body) else "";
    if |body| > 100 {
      assert " and body: " + body[..100] + "..." == clause;
    }
    assert BodyClause(rt, params["body"]) == Success(clause);
    assert Clause(rt, ", CC: ", params["cc"]) == if cc != "" then ", CC: " + cc else "";
    assert Clause(rt, ", BCC: ", params["bcc"]) == if bcc != "" then ", BCC: " + bcc else "";
  }

  /** A falsy cc or bcc (None, "", [], 0, ...) reads exactly as an absent one. */
  lemma GmailSendFalsyCopyIsAbsent(rt: Runtime, params: map<string, Value>, key: string, v: Value)
    requires key == "cc" || key == "bcc"
    requires !Truthy(v)
    ensures ConvertParamsToUserQuery(rt, "gmail_send", params[key := v])
         == ConvertParamsToUserQuery(rt, "gmail_send", params - {key})
  {
  }

  /** With a truthy search query the folder id plays no part in the drive listing query. */
  lemma DriveListQueryBeatsFolder(rt: Runtime, params: map<string, Value>, folderId: Value)
    requires Truthy(Get(params, "query", Str("")))
    ensures ConvertParamsToUserQuery(rt, "google_drive_list", params["folderId" := folderId])
         == ConvertParamsToUserQuery(rt, "google_drive_list", params - {"folderId"})
  {
  }

  /** A truthy file name is used whatever `name` says; a falsy one reads as absent. */
  lemma DriveUploadFileNameFirst(rt: Runtime, params: map<string, Value>, name: Value)
    ensures Truthy(Get(params, "fileName", Null)) ==>
      ConvertParamsToUserQuery(rt, "google_drive_upload", params["name" := name])
      == ConvertParamsToUserQuery(rt, "google_drive_upload", params - {"name"})
    ensures !Truthy(Get(params, "fileName", Null)) ==>
      ConvertParamsToUserQuery(rt, "google_drive_upload", params)
      == ConvertParamsToUserQuery(rt, "google_drive_upload", params - {"fileName"})
  {
  }

  /** The queries the branches build from an empty parameter dictionary: their defaults. */
  lemma EmptyParamsDefaults(rt: Runtime)
    ensures ConvertParamsToUserQuery(rt, "google_calendar_create", map[]) == Success("Create calendar event: " + "event")
    ensures ConvertParamsToUserQuery(rt, "google_calendar_list", map[])
         == Success("List calendar events from " + "now" + " to " + "future" + ", maximum " + "10" + " results")
    ensures ConvertParamsToUserQuery(rt, "gmail_read", map[])
         == Success("Read " + "unread" + " emails from the last " + "24" + " hours, maximum " + "10" + " results")
    ensures ConvertParamsToUserQuery(rt, "gmail_reply", map[])
         == Success("Reply to email from " + "" + " with subject '" + "" + "' and reply: " + "" + "...")
    ensures ConvertParamsToUserQuery(rt, "google_drive_upload", map[]) == Success("Upload file " + "file" + " to Google Drive")
    ensures ConvertParamsToUserQuery(rt, "google_drive_list", map[]) == Success("List files in Google Drive")
    ensures ConvertParamsToUserQuery(rt, "google_drive_create_folder", map[])
         == Success("Create folder '" + "New Folder" + "' in Google Drive")
    ensures ConvertParamsToUserQuery(rt, "google_docs_create", map[])
         == Success("Create Google Docs document with title: " + "New Document")
  {
    assert Decimal(10) == "10";
    assert Decimal(24) == "24";
    var head := "Create calendar event: " + "event";
    assert head + "" + "" + "" + "" == head;
  }

  /** Every branch serves a mapped tool. */
  lemma BranchesServeMappedTools()
    ensures forall id :: id in DedicatedTools ==> id in ToolMapping.ToolIds()
  {
    ToolMapping.ToolIdsInOrder();
  }

  /** A mapped tool either has a branch of its own or is one of the nine fallback tools, never both. */
  lemma MappedToolsSplit()
    ensures forall id :: id in ToolMapping.ToolIds() ==> (id in DedicatedTools <==> id !in FallbackTools)
  {
    ToolMapping.ToolIdsInOrder();
    forall id | id in ToolMapping.ToolIds() ensures id in DedicatedTools || id in FallbackTools {
    }
    forall id | id in FallbackTools ensures id !in DedicatedTools {
    }
  }

  /**
   * The nine mapped tools without a branch (quick add, free/busy, drafts,
   * labels, move, delete, sheet update and append, docs write) are described
   * by the generic JSON query.
   */
  lemma FallbackToolsUseJson(rt: Runtime, params: map<string, Value>)
    ensures forall id :: id in FallbackTools ==> ConvertParamsToUserQuery(rt, id, params) == Success(FallbackQuery(rt, id, params))
  {
    ToolMapping.ToolIdsInOrder();
    MappedToolsSplit();
    forall id | id in FallbackTools
      ensures ConvertParamsToUserQuery(rt, id, params) == Success(FallbackQuery(rt, id, params))
    {
      assert id in ToolMapping.ToolIds();
    }
  }
}
