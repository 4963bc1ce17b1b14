/**
 * The static table that maps every supported tool id to the crew (flow) that
 * serves it, kept in the order the dictionary literal declares it, and the
 * tool-listing endpoint built from it.
 */
module ToolMapping {
  import opened Wrappers

  /** The tool-to-crew dictionary as (tool id, crew name) pairs in insertion order. */
  const ToolTable: seq<(string, string)> := [
    ("google_calendar_create", "EVENT_MANAGEMENT_FLOW"),
    ("google_calendar_list", "EVENT_MANAGEMENT_FLOW"),
    ("google_calendar_get", "EVENT_MANAGEMENT_FLOW"),
    ("google_calendar_update", "EVENT_MANAGEMENT_FLOW"),
    ("google_calendar_delete", "EVENT_MANAGEMENT_FLOW"),
    ("google_calendar_quick_add", "EVENT_MANAGEMENT_FLOW"),
    ("google_calendar_freebusy", "EVENT_MANAGEMENT_FLOW"),
    ("gmail_send", "EMAIL_MANAGEMENT_FLOW"),
    ("gmail_read", "EMAIL_MANAGEMENT_FLOW"),
    ("gmail_search", "EMAIL_MANAGEMENT_FLOW"),
    ("gmail_draft", "EMAIL_MANAGEMENT_FLOW"),
    ("gmail_labels", "EMAIL_MANAGEMENT_FLOW"),
    ("gmail_reply", "EMAIL_MANAGEMENT_FLOW"),
    ("google_drive_upload", "DRIVE_MANAGEMENT_FLOW"),
    ("google_drive_download", "DRIVE_MANAGEMENT_FLOW"),
    ("google_drive_list", "DRIVE_MANAGEMENT_FLOW"),
    ("google_drive_share", "DRIVE_MANAGEMENT_FLOW"),
    ("google_drive_create_folder", "DRIVE_MANAGEMENT_FLOW"),
    ("google_drive_move", "DRIVE_MANAGEMENT_FLOW"),
    ("google_drive_delete", "DRIVE_MANAGEMENT_FLOW"),
    ("google_sheets_read", "SHEETS_MANAGEMENT_FLOW"),
    ("google_sheets_write", "SHEETS_MANAGEMENT_FLOW"),
    ("google_sheets_update", "SHEETS_MANAGEMENT_FLOW"),
    ("google_sheets_append", "SHEETS_MANAGEMENT_FLOW"),
    ("google_docs_read", "DOCS_MANAGEMENT_FLOW"),
    ("google_docs_write", "DOCS_MANAGEMENT_FLOW"),
    ("google_docs_create", "DOCS_MANAGEMENT_FLOW")
  ]

  /** The keys of a table, in order (`list(d.keys())`). */
  function Keys(table: seq<(string, string)>): (ks: seq<string>)
    ensures |ks| == |table|
    ensures forall k :: 0 <= k < |table| ==> ks[k] == table[k].0
  {
    seq(|table|, k requires 0 <= k < |table| => table[k].0)
  }

  /** `d.get(id)`: the crew of the first entry whose key is id. */
  function Lookup(table: seq<(string, string)>, id: string): Option<string>
  {
    if table == [] then None
    else if table[0].0 == id then Some(table[0].1)
    else Lookup(table[1..], id)
  }

  /** A lookup succeeds exactly for the table's keys, and what it finds is an entry of the table. */
  lemma {:induction false} LookupFindsKeys(table: seq<(string, string)>, id: string)
    ensures Lookup(table, id).Some? <==> id in Keys(table)
    ensures Lookup(table, id).Some? ==> (id, Lookup(table, id).value) in table
  {
    if table != [] && table[0].0 != id {
      LookupFindsKeys(table[1..], id);
      assert Keys(table) == [table[0].0] + Keys(table[1..]);
    }
  }

  /** The tool ids, in declaration order. */
  function ToolIds(): (ids: seq<string>)
    ensures |ids| == 27
  {
    Keys(ToolTable)
  }

  /** `list(TOOL_TO_CREW_MAPPING.keys())`, written out. */
  lemma ToolIdsInOrder()
    ensures ToolIds() == [
      "google_calendar_create", "google_calendar_list", "google_calendar_get", "google_calendar_update",
      "google_calendar_delete", "google_calendar_quick_add", "google_calendar_freebusy",
      "gmail_send", "gmail_read", "gmail_search", "gmail_draft", "gmail_labels", "gmail_reply",
      "google_drive_upload", "google_drive_download", "google_drive_list", "google_drive_share",
      "google_drive_create_folder", "google_drive_move", "google_drive_delete",
      "google_sheets_read", "google_sheets_write", "google_sheets_update", "google_sheets_append",
      "google_docs_read", "google_docs_write", "google_docs_create"]
  {
  }

  /** `TOOL_TO_CREW_MAPPING.get(id)` */
  function CrewOf(id: string): (r: Option<string>)
    ensures r.Some? <==> id in ToolIds()
    ensures r.Some? ==> (id, r.value) in ToolTable
  {
    LookupFindsKeys(ToolTable, id);
    Lookup(ToolTable, id)
  }

  /** The tool-list endpoint: the ids in order, the whole mapping and its size. */
  datatype ToolList = ToolList(tools: seq<string>, mappings: seq<(string, string)>, total: nat)

  function ListAvailableTools(): (r: ToolList)
    ensures r.total == |r.tools| == 27
    ensures forall id :: id in r.tools <==> CrewOf(id).Some?
  {
    ToolList(ToolIds(), ToolTable, |ToolTable|)
  }
}
