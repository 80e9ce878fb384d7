/** The public timetable page: fetch, then either a spinner, an error or the week. */
module TimetablePreviewPage {
  import opened Wrappers
  import opened Types
  import opened Timetable
  import StringOrder

  datatype View =
    | Spinner
    | ErrorAlert(message: string)
    | Schedule(byDay: map<string, seq<TimetableEntry>>)

  class PreviewPage {
    var timetable: array<TimetableEntry>
    var courses: seq<Course>
    var loading: bool
    var error: Option<string>

    /** The initial component state: nothing fetched, spinner on. */
    constructor ()
      ensures timetable.Length == 0 && courses == [] && loading && error == None
    {
      timetable := new TimetableEntry[0];
      courses := [];
      loading := true;
      error := None;
    }

    /**
     * `fetchTimetableAndCourses`, given both responses: a failed timetable
     * fetch is shown as an error, a failed course fetch only costs the titles.
     */
    method Fetch(timetableRes: ApiResponse<seq<TimetableEntry>>, coursesRes: ApiResponse<seq<Course>>)
      modifies this
      ensures HasData(timetableRes) ==>
        fresh(timetable) && timetable[..] == timetableRes.data.value && error == None
      ensures !HasData(timetableRes) ==>
        timetable == old(timetable) && timetable[..] == old(timetable[..]) &&
        error == Some(OrDefault(timetableRes.message, "Failed to fetch timetable."))
      ensures courses == if HasData(coursesRes) then coursesRes.data.value else old(courses)
      ensures !loading
    {
      loading := true;
      error := None;
      if HasData(timetableRes) {
        var data := timetableRes.data.value;
        timetable := new TimetableEntry[|data|](i requires 0 <= i < |data| => data[i]);
      } else {
        error := Some(OrDefault(timetableRes.message, "Failed to fetch timetable."));
      }
      if HasData(coursesRes) {
        courses := coursesRes.data.value;
      }
      loading := false;
    }

    /**
     * The render pass: spinner while loading, the error if there is one,
     * otherwise the timetable is sorted in place and cut into day buckets.
     */
    method Render() returns (view: View)
      modifies timetable
      ensures loading ==> view == Spinner && timetable[..] == old(timetable[..])
      ensures !loading && Truthy(error) ==>
        view == ErrorAlert(error.value) && timetable[..] == old(timetable[..])
      ensures !loading && !Truthy(error) ==>
        Sorted(timetable[..]) && multiset(timetable[..]) == multiset(old(timetable[..])) &&
        view.Schedule? &&
        (forall d :: d in view.byDay <==> d in DaysOfWeek) &&
        (forall d :: d in view.byDay ==> view.byDay[d] == OfDay(timetable[..], d))
    {
      if loading {
        return Spinner;
      }
      if Truthy(error) {
        return ErrorAlert(error.value);
      }
      SortEntries(timetable);
      var byDay := GroupByDay(timetable[..]);
      view := Schedule(byDay);
    }
  }

  /**
   * After a successful fetch and a render, each day card lists exactly that
   * day's fetched entries, earliest start first.
   */
  lemma RenderedSchedule(fetched: seq<TimetableEntry>, sorted: seq<TimetableEntry>,
                         byDay: map<string, seq<TimetableEntry>>)
    requires Sorted(sorted) && multiset(sorted) == multiset(fetched)
    requires forall d :: d in byDay <==> d in DaysOfWeek
    requires forall d :: d in byDay ==> byDay[d] == OfDay(sorted, d)
    ensures forall d :: d in byDay ==>
      multiset(byDay[d]) == multiset(OfDay(fetched, d)) &&
      forall i, j :: 0 <= i < j < |byDay[d]| ==>
        StringOrder.Compare(byDay[d][i].startTime, byDay[d][j].startTime) <= 0
  {
    ScheduleBuckets(fetched, sorted);
  }
}
