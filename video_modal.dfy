/** The create/edit modal of the video grid: it assembles the submitted values into form data
    field by field, hands them to the save action, and on success updates the grid's list and
    total and closes itself. */
module VideoModal {
  import opened Wrappers
  import opened Strings
  import opened Http
  import opened Lists
  import opened PromoVideos
  import opened CmsActions
  import opened VideoGrid

  /** The values of the modal form. Dates are opaque strings. */
  datatype ModalValues = ModalValues(
    category: string,
    hidden: bool,
    priority: Option<int>,
    title: Option<string>,
    description: Option<string>,
    startDate: Option<string>,
    endDate: Option<string>)

  /** The message of the exception `values.priority.toString()` throws on an empty priority. */
  const NullPriorityMessage: string := "Cannot read properties of null (reading 'toString')"

  /** The five entries `handleSubmit` always appends, in order. */
  function Fixed(values: ModalValues): seq<FormEntry>
    requires values.priority.Some?
  {
    [FormEntry("category", Text(values.category)),
     FormEntry("hidden", Text(BoolToString(values.hidden))),
     FormEntry("priority", Text(IntToString(values.priority.value))),
     FormEntry("title", Text(OrElse(values.title, ""))),
     FormEntry("description", Text(OrElse(values.description, "")))]
  }

  /** An entry appended only when there is a value for it. */
  function Optional(name: string, v: Option<FormValue>): seq<FormEntry> {
    if v.Some? then [FormEntry(name, v.value)] else []
  }

  function TextOf(s: Option<string>): Option<FormValue> {
    if s.Some? then Some(Text(s.value)) else None
  }

  /** The entries `handleSubmit` appends, in order. */
  function FormFor(values: ModalValues, fileList: seq<UploadFile>, editing: Option<PromoVideo>): seq<FormEntry>
    requires values.priority.Some?
  {
    Fixed(values)
    + Optional("startDate", TextOf(values.startDate))
    + Optional("endDate", TextOf(values.endDate))
    + Optional("video", if fileList != [] then Some(FileValue(fileList[0])) else None)
    + Optional("id", if editing.Some? then Some(Text(editing.value.id)) else None)
  }

  /** `get` on two forms one after the other: the first one's value when it has the name. */
  lemma {:induction false} GetConcat(x: seq<FormEntry>, y: seq<FormEntry>, name: string)
    ensures Get(x + y, name) == if Get(x, name).Some? then Get(x, name) else Get(y, name)
    decreases |x|
  {
    if x == [] {
      assert x + y == y;
    } else {
      assert (x + y)[1..] == x[1..] + y;
      GetConcat(x[1..], y, name);
    }
  }

  lemma GetOptional(n: string, v: Option<FormValue>, name: string)
    ensures Get(Optional(n, v), name) == if n == name then v else None
  {
    if v.Some? {
      assert Optional(n, v)[1..] == [];
    }
  }

  lemma GetCons(e: FormEntry, rest: seq<FormEntry>, name: string)
    ensures Get([e] + rest, name) == if e.name == name then Some(e.value) else Get(rest, name)
  {
    assert ([e] + rest)[1..] == rest;
  }

  /** The names of the fixed entries. */
  const FixedNames: set<string> := {"category", "hidden", "priority", "title", "description"}

  /** What the fixed entries hold. */
  lemma GetFixed(values: ModalValues, name: string)
    requires values.priority.Some?
    ensures name == "category" ==> Get(Fixed(values), name) == Some(Text(values.category))
    ensures name == "hidden" ==> Get(Fixed(values), name) == Some(Text(BoolToString(values.hidden)))
    ensures name == "priority" ==> Get(Fixed(values), name) == Some(Text(IntToString(values.priority.value)))
    ensures name == "title" ==> Get(Fixed(values), name) == Some(Text(OrElse(values.title, "")))
    ensures name == "description" ==> Get(Fixed(values), name) == Some(Text(OrElse(values.description, "")))
    ensures name !in FixedNames ==> Get(Fixed(values), name) == None
  {
    var f := Fixed(values);
    GetCons(f[4], [], name);
    GetCons(f[3], [f[4]], name);
    GetCons(f[2], [f[3], f[4]], name);
    GetCons(f[1], [f[2], f[3], f[4]], name);
    GetCons(f[0], [f[1], f[2], f[3], f[4]], name);
    assert [f[4]] + [] == [f[4]];
    assert [f[3]] + [f[4]] == [f[3], f[4]];
    assert [f[2]] + [f[3], f[4]] == [f[2], f[3], f[4]];
    assert [f[1]] + [f[2], f[3], f[4]] == [f[1], f[2], f[3], f[4]];
    assert [f[0]] + [f[1], f[2], f[3], f[4]] == f;
  }

  /** A fixed field is read from the fixed entries, whatever follows them. */
  lemma FormFixedField(values: ModalValues, fileList: seq<UploadFile>, editing: Option<PromoVideo>, name: string)
    requires values.priority.Some? && name in FixedNames
    ensures Get(FormFor(values, fileList, editing), name) == Get(Fixed(values), name)
  {
    var f := Fixed(values);
    var a := Optional("startDate", TextOf(values.startDate));
    var b := Optional("endDate", TextOf(values.endDate));
    var c := Optional("video", if fileList != [] then Some(FileValue(fileList[0])) else None);
    var d := Optional("id", if editing.Some? then Some(Text(editing.value.id)) else None);
    GetFixed(values, name);
    GetConcat(f, a, name);
    GetConcat(f + a, b, name);
    GetConcat(f + a + b, c, name);
    GetConcat(f + a + b + c, d, name);
  }

  /** Any other field is read from the optional entries: the dates, the file and the id. */
  lemma FormOptionalField(values: ModalValues, fileList: seq<UploadFile>, editing: Option<PromoVideo>, name: string)
    requires values.priority.Some? && name !in FixedNames
    ensures name == "startDate" ==> Get(FormFor(values, fileList, editing), name) == TextOf(values.startDate)
    ensures name == "endDate" ==> Get(FormFor(values, fileList, editing), name) == TextOf(values.endDate)
    ensures name == "video" ==>
      Get(FormFor(values, fileList, editing), name) == if fileList != [] then Some(FileValue(fileList[0])) else None
    ensures name == "id" ==>
      Get(FormFor(values, fileList, editing), name) == if editing.Some? then Some(Text(editing.value.id)) else None
  {
    var f := Fixed(values);
    var a := Optional("startDate", TextOf(values.startDate));
    var b := Optional("endDate", TextOf(values.endDate));
    var c := Optional("video", if fileList != [] then Some(FileValue(fileList[0])) else None);
    var d := Optional("id", if editing.Some? then Some(Text(editing.value.id)) else None);
    GetFixed(values, name);
    GetOptional("startDate", TextOf(values.startDate), name);
    GetOptional("endDate", TextOf(values.endDate), name);
    GetOptional("video", if fileList != [] then Some(FileValue(fileList[0])) else None, name);
    GetOptional("id", if editing.Some? then Some(Text(editing.value.id)) else None, name);
    GetConcat(f, a, name);
    GetConcat(f + a, b, name);
    GetConcat(f + a + b, c, name);
    GetConcat(f + a + b + c, d, name);
  }

  /** The priority the save action parses is the number entered, and the flag it reads is
      "true" exactly when the box was ticked. */
  lemma FormReadsPriorityAndFlag(values: ModalValues, fileList: seq<UploadFile>, editing: Option<PromoVideo>)
    requires values.priority.Some?
    ensures var form := FormFor(values, fileList, editing);
      && (Get(form, "hidden") == Some(Text("true")) <==> values.hidden)
      && PriorityOf(form) == values.priority
  {
    var form := FormFor(values, fileList, editing);
    FormFixedField(values, fileList, editing, "hidden");
    FormFixedField(values, fileList, editing, "priority");
    GetFixed(values, "hidden");
    GetFixed(values, "priority");
    assert AsString(Get(form, "priority")) == IntToString(values.priority.value);
    ParseIntOfToString(values.priority.value);
  }

  /** What the save action reads back from the assembled form: the text fields are present
      (empty when not filled), the dates only when set, the file only when one was picked, and
      the id only when editing. */
  lemma FormReadBack(values: ModalValues, fileList: seq<UploadFile>, editing: Option<PromoVideo>)
    requires values.priority.Some?
    ensures var form := FormFor(values, fileList, editing);
      && TextField(form, "category") == Some(values.category)
      && TextField(form, "title") == Some(OrElse(values.title, ""))
      && TextField(form, "description") == Some(OrElse(values.description, ""))
      && TextField(form, "startDate") == values.startDate
      && TextField(form, "endDate") == values.endDate
      && FileField(form, "video") == (if fileList != [] then Some(fileList[0]) else None)
      && TextField(form, "id") == (if editing.Some? then Some(editing.value.id) else None)
  {
    FormFixedField(values, fileList, editing, "category");
    FormFixedField(values, fileList, editing, "title");
    FormFixedField(values, fileList, editing, "description");
    GetFixed(values, "category");
    GetFixed(values, "title");
    GetFixed(values, "description");
    FormOptionalField(values, fileList, editing, "startDate");
    FormOptionalField(values, fileList, editing, "endDate");
    FormOptionalField(values, fileList, editing, "video");
    FormOptionalField(values, fileList, editing, "id");
  }

  /** A create that comes back with a new id keeps the ids distinct and the total in step
      with the list: both grow by one. */
  lemma CreateKeepsCountInStep(videos: seq<PromoVideo>, total: int, v: PromoVideo)
    requires UniqueKeys(videos, VideoKey) && v.id !in Keys(videos, VideoKey)
    ensures (total + 1) - |videos + [v]| == total - |videos|
    ensures UniqueKeys(videos + [v], VideoKey)
    ensures Keys(videos + [v], VideoKey) == Keys(videos, VideoKey) + [v.id]
  {
    AppendSpec(videos, VideoKey, v);
  }

  /** A form-data object: entries appended one at a time. */
  class FormData {
    var entries: seq<FormEntry>

    constructor()
      ensures entries == []
    {
      entries := [];
    }

    method Append(name: string, value: FormValue)
      modifies this
      ensures entries == old(entries) + [FormEntry(name, value)]
    {
      entries := entries + [FormEntry(name, value)];
    }
  }

  /** The form data `handleSubmit` assembles, one `append` at a time. */
  method BuildForm(values: ModalValues, fileList: seq<UploadFile>, editing: Option<PromoVideo>) returns (fd: FormData)
    requires values.priority.Some?
    ensures fresh(fd) && fd.entries == FormFor(values, fileList, editing)
  {
    fd := new FormData();
    fd.Append("category", Text(values.category));
    fd.Append("hidden", Text(BoolToString(values.hidden)));
    fd.Append("priority", Text(IntToString(values.priority.value)));
    fd.Append("title", Text(OrElse(values.title, "")));
    fd.Append("description", Text(OrElse(values.description, "")));
    assert fd.entries == Fixed(values);
    ghost var before := fd.entries;
    if values.startDate.Some? {
      fd.Append("startDate", Text(values.startDate.value));
    }
    assert fd.entries == before + Optional("startDate", TextOf(values.startDate));
    before := fd.entries;
    if values.endDate.Some? {
      fd.Append("endDate", Text(values.endDate.value));
    }
    assert fd.entries == before + Optional("endDate", TextOf(values.endDate));
    before := fd.entries;
    if fileList != [] {
      fd.Append("video", FileValue(fileList[0]));
    }
    assert fd.entries == before + Optional("video", if fileList != [] then Some(FileValue(fileList[0])) else None);
    before := fd.entries;
    if editing.Some? {
      fd.Append("id", Text(editing.value.id));
    }
    assert fd.entries == before + Optional("id", if editing.Some? then Some(Text(editing.value.id)) else None);
  }

  /** The modal's own state: the picked file and the busy flag. */
  class Modal {
    var fileList: seq<UploadFile>
    var loading: bool

    constructor()
      ensures fileList == [] && !loading
    {
      fileList := [];
      loading := false;
    }

    /** Picking a file replaces any earlier pick. */
    method PickFile(file: UploadFile)
      modifies this
      ensures fileList == [file] && loading == old(loading)
    {
      fileList := [file];
    }

    method RemoveFile()
      modifies this
      ensures fileList == [] && loading == old(loading)
    {
      fileList := [];
    }

    /** What `handleSubmit` does with the save action's outcome. */
    method Settle(grid: Grid, result: SaveResult) returns (toast: Toast)
      modifies this, grid
      ensures result.Saved? && old(grid.editingVideo).Some? ==>
        grid.videos == ReplaceByKey(old(grid.videos), VideoKey, result.data) && grid.total == old(grid.total)
        && toast == SuccessToast("Promotional video updated successfully!")
      ensures result.Saved? && old(grid.editingVideo).None? ==>
        grid.videos == old(grid.videos) + [result.data] && grid.total == old(grid.total) + 1
        && toast == SuccessToast("Promotional video added successfully!")
      ensures result.Saved? ==> !grid.isModalVisible && grid.editingVideo == None && fileList == []
      ensures result.NotSaved? ==>
        && grid.videos == old(grid.videos) && grid.total == old(grid.total)
        && grid.isModalVisible == old(grid.isModalVisible) && grid.editingVideo == old(grid.editingVideo)
        && fileList == old(fileList) && toast == ErrorToast(OrElse(Some(result.error), SaveFallback))
      ensures loading == old(loading)
      ensures grid.currentPage == old(grid.currentPage) && grid.currentPageSize == old(grid.currentPageSize)
      ensures grid.searchParams == old(grid.searchParams) && grid.fetching == old(grid.fetching)
      ensures grid.isPlayerModalVisible == old(grid.isPlayerModalVisible) && grid.selectedVideo == old(grid.selectedVideo)
    {
      match result {
        case Saved(v) =>
          if grid.editingVideo.Some? {
            grid.videos := ReplaceByKey(grid.videos, VideoKey, v);
            toast := SuccessToast("Promotional video updated successfully!");
          } else {
            grid.videos := grid.videos + [v];
            grid.total := grid.total + 1;
            toast := SuccessToast("Promotional video added successfully!");
          }
          grid.CloseModal();
          fileList := [];
        case NotSaved(error) =>
          toast := ErrorToast(OrElse(Some(error), SaveFallback));
      }
    }

    /** `handleSubmit`. The form data are assembled from the values, the picked file and the
        video being edited, and saved. On success an edit puts the saved video in place of
        the one with its id and leaves the total alone, a create appends it and adds one to
        the total, and the modal closes. A failed save, or an empty priority (whose
        `toString` throws before anything is sent), changes neither the list nor the total. */
    method HandleSubmit(grid: Grid, values: ModalValues, signed: Response<SignedUpload>, upload: Response<Json>, saved: Response<PromoVideo>)
      returns (sent: seq<FormEntry>, calls: seq<Request>, toast: Toast)
      modifies this, grid
      ensures values.priority.None? ==>
        && sent == [] && calls == [] && toast == ErrorToast(NullPriorityMessage)
        && fileList == old(fileList)
      ensures values.priority.Some? ==>
        sent == FormFor(values, old(fileList), old(grid.editingVideo)) && calls == SaveCalls(sent, signed, upload)
      ensures var succeeded := values.priority.Some? && SaveOutcome(sent, signed, upload, saved).Saved?;
        && (succeeded && old(grid.editingVideo).Some? ==>
              grid.videos == ReplaceByKey(old(grid.videos), VideoKey, saved.data) && grid.total == old(grid.total)
              && toast == SuccessToast("Promotional video updated successfully!"))
        && (succeeded && old(grid.editingVideo).None? ==>
              grid.videos == old(grid.videos) + [saved.data] && grid.total == old(grid.total) + 1
              && toast == SuccessToast("Promotional video added successfully!"))
        && (succeeded ==> !grid.isModalVisible && grid.editingVideo == None && fileList == [])
        && (!succeeded ==> grid.videos == old(grid.videos) && grid.total == old(grid.total)
                           && grid.isModalVisible == old(grid.isModalVisible) && grid.editingVideo == old(grid.editingVideo)
                           && fileList == old(fileList))
        && (!succeeded ==> toast.ErrorToast?)
      ensures var outcome := SaveOutcome(sent, signed, upload, saved);
        values.priority.Some? && outcome.NotSaved? ==> toast == ErrorToast(OrElse(Some(outcome.error), SaveFallback))
      ensures !loading
      ensures grid.currentPage == old(grid.currentPage) && grid.currentPageSize == old(grid.currentPageSize)
      ensures grid.searchParams == old(grid.searchParams) && grid.fetching == old(grid.fetching)
      ensures grid.isPlayerModalVisible == old(grid.isPlayerModalVisible) && grid.selectedVideo == old(grid.selectedVideo)
    {
      loading := true;
      sent := [];
      calls := [];
      if values.priority.None? {
        toast := ErrorToast(NullPriorityMessage);
        loading := false;
        return;
      }
      var fd := BuildForm(values, fileList, grid.editingVideo);
      sent := fd.entries;
      var result;
      calls, result := AddOrUpdateVideo(sent, signed, upload, saved);
      toast := Settle(grid, result);
      loading := false;
    }
  }
}
