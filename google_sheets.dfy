/** The Google Sheets page: the search/status/category view of the sheet list, the category
    list, the status colours, and the add/edit/delete handlers that drive the data provider. */
module GoogleSheets {
  import opened Js
  import opened Lists
  import opened DataContext

  // ---------------------------------------------------------------------------
  // Presentation
  // ---------------------------------------------------------------------------

  /** `getStatusColor`: one colour per known status, gray for anything else. */
  function StatusColor(status: Value): (c: string)
    ensures c == "green" <==> status == Str("active")
    ensures c == "orange" <==> status == Str("pending")
    ensures c == "red" <==> status == Str("inactive")
    ensures c == "gray" <==> status !in {Str("active"), Str("pending"), Str("inactive")}
  {
    if status == Str("active") then "green"
    else if status == Str("pending") then "orange"
    else if status == Str("inactive") then "red"
    else "gray"
  }

  /** The search clause `title.toLowerCase().includes(t) || description?.toLowerCase().includes(t)`
      with `t` the lowercased term: `None` when it throws (a title that is not a string, or a
      description consulted while it is neither a string nor null/undefined). */
  function SearchMatch(sheet: Record, term: string): (r: Option<bool>)
    ensures r == Some(true) <==>
      Get(sheet, "title").Str?
      && (Includes(ToLower(Get(sheet, "title").s), ToLower(term))
          || (Get(sheet, "description").Str?
              && Includes(ToLower(Get(sheet, "description").s), ToLower(term))))
    ensures !Get(sheet, "title").Str? ==> r.None?
  {
    var title := Get(sheet, "title");
    var description := Get(sheet, "description");
    if !title.Str? then None
    else if Includes(ToLower(title.s), ToLower(term)) then Some(true)
    else if description.Undefined? || description.Null? then Some(false)
    else if description.Str? then Some(Includes(ToLower(description.s), ToLower(term)))
    else None
  }

  /** The filter callback: search, status and category clauses all hold. */
  predicate Shown(sheet: Record, term: string, status: string, category: string) {
    && SearchMatch(sheet, term) == Some(true)
    && (status == "all" || Get(sheet, "status") == Str(status))
    && (category == "all" || Get(sheet, "category") == Str(category))
  }

  /** The search clause can be evaluated on every sheet (the page renders). */
  predicate Searchable(sheets: seq<Record>, term: string) {
    forall i :: 0 <= i < |sheets| ==> SearchMatch(sheets[i], term).Some?
  }

  /** `filteredSheets`: `None` when the filter callback throws on some sheet. */
  function FilteredSheets(sheets: seq<Record>, term: string, status: string, category: string)
    : (r: Option<seq<Record>>)
    ensures r.Some? <==> Searchable(sheets, term)
    ensures r.Some? ==> Subseq(r.value, sheets)
    ensures r.Some? ==> forall i :: 0 <= i < |r.value| ==> Shown(r.value[i], term, status, category)
  {
    if Searchable(sheets, term) then
      var keep := (s: Record) => Shown(s, term, status, category);
      FilterIsSubseq(sheets, keep);
      Some(Filter(sheets, keep))
    else
      None
  }

  /** A sheet is in the view exactly when it passes all three clauses. */
  lemma FilteredSheetsIff(sheets: seq<Record>, term: string, status: string, category: string, i: int)
    requires Searchable(sheets, term) && 0 <= i < |sheets|
    ensures var r := FilteredSheets(sheets, term, status, category);
            r.Some? && (sheets[i] in r.value <==> Shown(sheets[i], term, status, category))
  {
    var r := FilteredSheets(sheets, term, status, category).value;
    if sheets[i] in r {
      var k :| 0 <= k < |r| && r[k] == sheets[i];
    }
  }

  /** The empty string occurs in every string. */
  lemma IncludesEmpty(s: string)
    ensures Includes(s, "")
  {
    assert OccursAt(s, "", 0);
  }

  /** With an empty search term and both filters at "all", every sheet is shown. */
  lemma UnfilteredShowsAll(sheets: seq<Record>)
    requires forall i :: 0 <= i < |sheets| ==> Get(sheets[i], "title").Str?
    ensures FilteredSheets(sheets, "", "all", "all") == Some(sheets)
  {
    assert ToLower("") == "";
    forall i | 0 <= i < |sheets|
      ensures Shown(sheets[i], "", "all", "all")
    {
      IncludesEmpty(ToLower(Get(sheets[i], "title").s));
    }
    FilterKeepsAll(sheets, (s: Record) => Shown(s, "", "all", "all"));
  }

  /** `sheets.map(s => s.category)` */
  function CategoryOf(sheets: seq<Record>): (r: seq<Value>)
    ensures |r| == |sheets|
    ensures forall i :: 0 <= i < |sheets| ==> r[i] == Get(sheets[i], "category")
  {
    seq(|sheets|, i requires 0 <= i < |sheets| => Get(sheets[i], "category"))
  }

  /** `[...new Set(sheets.map(s => s.category))].filter(Boolean)`: every truthy category once,
      in the order of first appearance, and nothing that is not some sheet's category. */
  function Categories(sheets: seq<Record>): (r: seq<Value>)
    ensures NoDuplicates(r)
    ensures forall k :: 0 <= k < |r| ==> Truthy(r[k])
    ensures forall k :: 0 <= k < |r| ==> exists i :: 0 <= i < |sheets| && Get(sheets[i], "category") == r[k]
    ensures forall i :: 0 <= i < |sheets| && Truthy(Get(sheets[i], "category")) ==>
              Get(sheets[i], "category") in r
    ensures FirstOccurrenceOrder(r, CategoryOf(sheets))
  {
    var all := CategoryOf(sheets);
    var unique := Dedup(all);
    FilterNoDuplicates(unique, Truthy);
    FilterKeepsFirstOccurrenceOrder(unique, all, Truthy);
    var r := Filter(unique, Truthy);
    assert forall k :: 0 <= k < |r| ==> r[k] in all;
    assert forall i :: 0 <= i < |sheets| ==> all[i] in unique;
    r
  }

  // ---------------------------------------------------------------------------
  // The form
  // ---------------------------------------------------------------------------

  /** The form's initial and reset state. */
  const EmptySheetForm: Record := map["title" := Str(""), "url" := Str(""), "status" := Str("active"),
                                      "category" := Str("General"), "description" := Str("")]

  /** The guard `title.trim() && url.trim()` and the record handed to add/update. */
  function SheetSubmission(form: Record): (s: Submission)
    ensures s.Ready? <==>
      Get(form, "title").Str? && Trim(Get(form, "title").s) != ""
      && Get(form, "url").Str? && Trim(Get(form, "url").s) != ""
      && Get(form, "description").Str?
    ensures s.Ignored? <==>
      Get(form, "title").Str? &&
      (Trim(Get(form, "title").s) == "" || (Get(form, "url").Str? && Trim(Get(form, "url").s) == ""))
    ensures s.Ready? ==>
      s.fields == map["title" := Str(Trim(Get(form, "title").s)), "url" := Str(Trim(Get(form, "url").s)),
                      "status" := Get(form, "status"), "category" := Get(form, "category"),
                      "description" := Str(Trim(Get(form, "description").s))]
  {
    match TrimValue(Get(form, "title"))
    case None => Threw
    case Some(title) =>
      if title == "" then Ignored
      else
        match TrimValue(Get(form, "url"))
        case None => Threw
        case Some(url) =>
          if url == "" then Ignored
          else
            match TrimValue(Get(form, "description"))
            case None => Threw
            case Some(description) =>
              Ready(map["title" := Str(title), "url" := Str(url), "status" := Get(form, "status"),
                        "category" := Get(form, "category"), "description" := Str(description)])
  }

  /** The record the add path builds: the submitted fields stamped "Just now". */
  function AddedSheet(fields: Record): (r: Record)
    ensures r.Keys == fields.Keys + {"lastUpdated"} && r["lastUpdated"] == JustNow
    ensures forall k :: k in fields && k != "lastUpdated" ==> r[k] == fields[k]
  {
    fields["lastUpdated" := JustNow]
  }

  /** `handleEdit`'s form: the sheet's fields, with category defaulting to "General" and
      description to "" when falsy. */
  function EditForm(sheet: Record): (f: Record)
    ensures f.Keys == EmptySheetForm.Keys
    ensures f["title"] == Get(sheet, "title") && f["url"] == Get(sheet, "url")
    ensures f["status"] == Get(sheet, "status")
    ensures Truthy(Get(sheet, "category")) ==> f["category"] == Get(sheet, "category")
    ensures !Truthy(Get(sheet, "category")) ==> f["category"] == Str("General")
    ensures Truthy(Get(sheet, "description")) ==> f["description"] == Get(sheet, "description")
    ensures !Truthy(Get(sheet, "description")) ==> f["description"] == Str("")
  {
    var category := Get(sheet, "category");
    var description := Get(sheet, "description");
    map["title" := Get(sheet, "title"), "url" := Get(sheet, "url"), "status" := Get(sheet, "status"),
        "category" := if Truthy(category) then category else Str("General"),
        "description" := if Truthy(description) then description else Str("")]
  }

  /** Opening a well-formed sheet for editing and submitting it unchanged goes ahead with
      exactly the edit form's fields. */
  lemma EditThenSubmit(sheet: Record)
    requires Get(sheet, "title").Str? && Get(sheet, "url").Str?
    requires Trim(Get(sheet, "title").s) == Get(sheet, "title").s != ""
    requires Trim(Get(sheet, "url").s) == Get(sheet, "url").s != ""
    requires Get(sheet, "description").Str? ==>
               Trim(Get(sheet, "description").s) == Get(sheet, "description").s
    requires Truthy(Get(sheet, "description")) ==> Get(sheet, "description").Str?
    ensures SheetSubmission(EditForm(sheet)) == Ready(EditForm(sheet))
  {
    var f := EditForm(sheet);
    var title, url, status := Get(sheet, "title"), Get(sheet, "url"), Get(sheet, "status");
    var category := if Truthy(Get(sheet, "category")) then Get(sheet, "category") else Str("General");
    var description := if Truthy(Get(sheet, "description")) then Get(sheet, "description") else Str("");
    assert f == map["title" := title, "url" := url, "status" := status,
                    "category" := category, "description" := description];
    assert Get(f, "title") == title && Get(f, "url") == url && Get(f, "description") == description;
    assert Str(Trim(description.s)) == description by {
      if !Truthy(Get(sheet, "description")) {
        assert Trim("") == "";
      }
    }
  }

  /** Updating a sheet with its own edit form changes it in place only where the form
      filled in a default: title, url and status come back as they were, and so does a
      truthy description; the category is the form's. */
  lemma EditedSheetKeepsFields(sheet: Record)
    ensures StampedSheet(sheet, EditForm(sheet))["title"] == Get(sheet, "title")
    ensures StampedSheet(sheet, EditForm(sheet))["url"] == Get(sheet, "url")
    ensures StampedSheet(sheet, EditForm(sheet))["status"] == Get(sheet, "status")
    ensures StampedSheet(sheet, EditForm(sheet))["category"] == EditForm(sheet)["category"]
    ensures Truthy(Get(sheet, "description")) ==>
              StampedSheet(sheet, EditForm(sheet))["description"] == Get(sheet, "description")
  {
    StampKeepsUpdates(sheet, EditForm(sheet));
  }

  /** The stamp keeps each of the five form fields as submitted. */
  lemma StampKeepsUpdates(sheet: Record, fields: Record)
    requires fields.Keys == EmptySheetForm.Keys
    ensures forall k :: k in EmptySheetForm ==> StampedSheet(sheet, fields)[k] == fields[k]
  {
    assert "lastUpdated" !in EmptySheetForm;
  }

  // ---------------------------------------------------------------------------
  // The page
  // ---------------------------------------------------------------------------

  class GoogleSheetsPage {
    const data: DataProvider
    var form: Record
    /** The sheet being edited (`null` when adding). */
    var editingSheet: Option<Record>
    var showAddForm: bool
    var showEditForm: bool
    var showDeleteConfirm: bool
    var deleteSheetId: Value
    var searchTerm: string
    var filterStatus: string
    var filterCategory: string

    constructor (data: DataProvider)
      ensures this.data == data && form == EmptySheetForm && editingSheet == None
      ensures !showAddForm && !showEditForm && !showDeleteConfirm && deleteSheetId == Null
      ensures searchTerm == "" && filterStatus == "all" && filterCategory == "all"
    {
      this.data := data;
      form, editingSheet := EmptySheetForm, None;
      showAddForm, showEditForm, showDeleteConfirm, deleteSheetId := false, false, false, Null;
      searchTerm, filterStatus, filterCategory := "", "all", "all";
    }

    /** The state after a submit that went ahead with `fields`: the sheet being edited was
        updated, or a new one stamped "Just now" was added; the form is reset and the dialog
        that was used is closed. */
    twostate predicate Submitted(fields: Record, now: int)
      reads this, data
    {
      && (old(editingSheet).Some? ==>
            data.Committed(SheetsKind, SheetsUpdated(old(data.sheets), Get(old(editingSheet).value, "id"), fields))
            && !showEditForm && showAddForm == old(showAddForm))
      && (old(editingSheet).None? ==>
            data.Committed(SheetsKind, Appended(old(data.sheets), AddedSheet(fields), now))
            && !showAddForm && showEditForm == old(showEditForm))
      && form == EmptySheetForm && editingSheet == None
    }

    /** `handleSubmit`: the guard, then the update or the add; a failed guard or a throw
        changes nothing. `now` stands for `Date.now()` and `outcome` for the server's answer
        to the push. */
    method HandleSubmit(now: int, outcome: PushOutcome) returns (s: Submission)
      modifies this`form, this`editingSheet, this`showAddForm, this`showEditForm
      modifies data`sheets, data`storage, data`outbox
      ensures s == SheetSubmission(old(form))
      ensures !s.Ready? ==> unchanged(this) && unchanged(data)
      ensures s.Ready? ==> Submitted(s.fields, now)
    {
      s := SheetSubmission(form);
      if s.Ready? {
        Commit(s.fields, now, outcome);
      }
    }

    /** The body of `handleSubmit` once the guard has passed. */
    method Commit(fields: Record, now: int, outcome: PushOutcome)
      modifies this`form, this`editingSheet, this`showAddForm, this`showEditForm
      modifies data`sheets, data`storage, data`outbox
      ensures Submitted(fields, now)
    {
      if editingSheet.Some? {
        data.UpdateSheet(Get(editingSheet.value, "id"), fields, outcome);
        showEditForm := false;
        editingSheet := None;
      } else {
        data.AddSheet(AddedSheet(fields), now, outcome);
        showAddForm := false;
      }
      form := EmptySheetForm;
    }

    /** `handleEdit`: load the sheet into the form and open the edit dialog. */
    method HandleEdit(sheet: Record)
      modifies this`editingSheet, this`form, this`showEditForm
      ensures editingSheet == Some(sheet) && form == EditForm(sheet) && showEditForm
    {
      editingSheet := Some(sheet);
      form := EditForm(sheet);
      showEditForm := true;
    }

    method HandleDeleteClick(id: Value)
      modifies this`deleteSheetId, this`showDeleteConfirm
      ensures deleteSheetId == id && showDeleteConfirm
    {
      deleteSheetId := id;
      showDeleteConfirm := true;
    }

    /** `confirmDelete`: removes only while a (truthy) id is pending, then clears it. */
    method ConfirmDelete(outcome: PushOutcome)
      modifies this`deleteSheetId, this`showDeleteConfirm, data`sheets, data`storage, data`outbox
      ensures Truthy(old(deleteSheetId)) ==>
                data.Committed(SheetsKind, WithoutId(old(data.sheets), old(deleteSheetId)))
                && deleteSheetId == Null && !showDeleteConfirm
      ensures !Truthy(old(deleteSheetId)) ==> unchanged(this) && unchanged(data)
    {
      if Truthy(deleteSheetId) {
        data.RemoveSheet(deleteSheetId, outcome);
        showDeleteConfirm := false;
        deleteSheetId := Null;
      }
    }

    method CancelDelete()
      modifies this`deleteSheetId, this`showDeleteConfirm
      ensures deleteSheetId == Null && !showDeleteConfirm
    {
      showDeleteConfirm := false;
      deleteSheetId := Null;
    }
  }
}
