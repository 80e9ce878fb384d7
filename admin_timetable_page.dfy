/** The admin timetable page: fetch, add/edit modal, submit, delete, render. */
module AdminTimetablePage {
  import opened Wrappers
  import opened Types
  import opened Timetable

  /** The two write calls a submit can make. */
  datatype TimetableCall =
    | Create(draft: TimetableDraft)
    | Update(id: int, draft: TimetableDraft)

  datatype View =
    | Spinner
    | Board(message: Option<string>, error: Option<string>, byDay: map<string, seq<TimetableEntry>>)

  class AdminPage {
    var timetable: array<TimetableEntry>
    var courses: seq<Course>
    var loading: bool
    var error: Option<string>
    var message: Option<string>
    var isModalOpen: bool
    var currentEntry: Option<TimetableEntry>

    constructor ()
      ensures timetable.Length == 0 && courses == [] && loading
      ensures error == None && message == None && !isModalOpen && currentEntry == None
    {
      timetable := new TimetableEntry[0];
      courses := [];
      loading := true;
      error := None;
      message := None;
      isModalOpen := false;
      currentEntry := None;
    }

    /**
     * `fetchTimetableAndCourses`: both failures set the error, and when both
     * fail the course message, written second, is the one left standing.
     */
    method Fetch(timetableRes: ApiResponse<seq<TimetableEntry>>, coursesRes: ApiResponse<seq<Course>>)
      modifies this
      ensures HasData(timetableRes) ==> fresh(timetable) && timetable[..] == timetableRes.data.value
      ensures !HasData(timetableRes) ==> timetable == old(timetable) && timetable[..] == old(timetable[..])
      ensures courses == if HasData(coursesRes) then coursesRes.data.value else old(courses)
      ensures error ==
        if !HasData(coursesRes) then
          Some(OrDefault(coursesRes.message, "Failed to fetch courses for timetable mapping."))
        else if !HasData(timetableRes) then
          Some(OrDefault(timetableRes.message, "Failed to fetch timetable."))
        else None
      ensures !loading
      ensures message == old(message) && isModalOpen == old(isModalOpen)
      ensures currentEntry == old(currentEntry)
    {
      loading := true;
      error := None;
      if HasData(timetableRes) {
        var data := timetableRes.data.value;
        timetable := new TimetableEntry[|data|](i requires 0 <= i < |data| => data[i]);
      } else {
        error := Some(OrDefault(timetableRes.message, "Failed to fetch timetable."));
      }
      if HasData(coursesRes) {
        courses := coursesRes.data.value;
      } else {
        error := Some(OrDefault(coursesRes.message, "Failed to fetch courses for timetable mapping."));
      }
      loading := false;
    }

    method OpenAddModal()
      modifies this
      ensures currentEntry == None && isModalOpen
      ensures timetable == old(timetable) && courses == old(courses) && loading == old(loading)
      ensures error == old(error) && message == old(message)
    {
      currentEntry := None;
      isModalOpen := true;
    }

    method OpenEditModal(entry: TimetableEntry)
      modifies this
      ensures currentEntry == Some(entry) && isModalOpen
      ensures timetable == old(timetable) && courses == old(courses) && loading == old(loading)
      ensures error == old(error) && message == old(message)
    {
      currentEntry := Some(entry);
      isModalOpen := true;
    }

    /**
     * `handleFormSubmit`: updates the entry being edited, or creates one when
     * the modal was opened for adding; on success closes the modal and asks
     * for a refetch, on failure keeps it open with an error.
     */
    method HandleFormSubmit(data: TimetableDraft, service: TimetableCall -> ApiResponse<TimetableEntry>)
      returns (call: TimetableCall, refetch: bool)
      modifies this
      ensures call == if old(currentEntry).Some? then Update(old(currentEntry).value.id, data) else Create(data)
      ensures refetch <==> service(call).success
      ensures refetch ==>
        message == Some(OrDefault(service(call).message, SuccessText(call))) &&
        error == None && !isModalOpen
      ensures !refetch ==>
        error == Some(OrDefault(service(call).message, FailureText(call))) &&
        message == None && isModalOpen == old(isModalOpen)
      ensures !loading
      ensures timetable == old(timetable) && courses == old(courses) && currentEntry == old(currentEntry)
    {
      loading := true;
      message := None;
      error := None;
      if currentEntry.Some? {
        call := Update(currentEntry.value.id, data);
      } else {
        call := Create(data);
      }
      var response := service(call);
      if response.success {
        message := Some(OrDefault(response.message, SuccessText(call)));
        isModalOpen := false;
        refetch := true;
      } else {
        error := Some(OrDefault(response.message, FailureText(call)));
        refetch := false;
      }
      loading := false;
    }

    /**
     * `handleDelete`: nothing happens unless the user confirms; otherwise one
     * delete call, then a message and a refetch, or an error.
     */
    method HandleDelete(entryId: int, confirmed: bool, delete: int -> ApiResponse<()>)
      returns (called: bool, refetch: bool)
      modifies this
      ensures called == confirmed
      ensures refetch <==> confirmed && delete(entryId).success
      ensures !confirmed ==>
        loading == old(loading) && error == old(error) && message == old(message)
      ensures confirmed && refetch ==>
        message == Some(OrDefault(delete(entryId).message, "Timetable entry deleted successfully.")) &&
        error == None && !loading
      ensures confirmed && !refetch ==>
        error == Some(OrDefault(delete(entryId).message, "Failed to delete timetable entry.")) &&
        message == None && !loading
      ensures timetable == old(timetable) && courses == old(courses)
      ensures isModalOpen == old(isModalOpen) && currentEntry == old(currentEntry)
    {
      if !confirmed {
        return false, false;
      }
      called := true;
      loading := true;
      message := None;
      error := None;
      var response := delete(entryId);
      if response.success {
        message := Some(OrDefault(response.message, "Timetable entry deleted successfully."));
        refetch := true;
      } else {
        error := Some(OrDefault(response.message, "Failed to delete timetable entry."));
        refetch := false;
      }
      loading := false;
    }

    /**
     * The render pass: the spinner only while loading with no entries or no
     * courses yet; otherwise the state array is sorted in place and bucketed.
     */
    method Render() returns (view: View)
      modifies timetable
      ensures loading && (timetable.Length == 0 || |courses| == 0) ==>
        view == Spinner && timetable[..] == old(timetable[..])
      ensures !(loading && (timetable.Length == 0 || |courses| == 0)) ==>
        Sorted(timetable[..]) && multiset(timetable[..]) == multiset(old(timetable[..])) &&
        view.Board? && view.message == message && view.error == error &&
        (forall d :: d in view.byDay <==> d in DaysOfWeek) &&
        (forall d :: d in view.byDay ==> view.byDay[d] == OfDay(timetable[..], d))
    {
      if loading && (timetable.Length == 0 || |courses| == 0) {
        return Spinner;
      }
      SortEntries(timetable);
      var byDay := GroupByDay(timetable[..]);
      view := Board(message, error, byDay);
    }
  }

  /** The verb the default texts use for a write: `currentEntry ? ... : ...`. */
  function Verb(call: TimetableCall, update: string, add: string): string {
    if call.Update? then update else add
  }

  /** The default success text, filled in from its template by the kind of write. */
  function SuccessText(call: TimetableCall): (text: string)
    ensures call.Update? ==> text == "Timetable entry updated successfully."
    ensures call.Create? ==> text == "Timetable entry added successfully."
  {
    "Timetable entry " + Verb(call, "updated", "added") + " successfully."
  }

  /** The default failure text, filled in from its template by the kind of write. */
  function FailureText(call: TimetableCall): (text: string)
    ensures call.Update? ==> text == "Failed to update timetable entry."
    ensures call.Create? ==> text == "Failed to add timetable entry."
  {
    "Failed to " + Verb(call, "update", "add") + " timetable entry."
  }
}
