/** The venue registry page: the venue list with its five-row pagination and
    capacity total, the add-venue form, the table toggle and the timed
    notification. */
module VenuesPage {
  import opened Wrappers
  import opened Records
  import Pagination

  const VenuesPerPage: nat := 5
  const AddedMessage: string := "Venue added successfully!"

  /** The form object `newVenue`: input name to typed value. */
  type Form = map<string, string>

  function EmptyForm(): (f: Form)
    ensures f.Keys == {"name", "capacity"} && f["name"] == "" && f["capacity"] == ""
  {
    map["name" := "", "capacity" := ""]
  }

  /** `venues.reduce((sum, venue) => sum + venue.capacity, 0)`: the capacities
      added from the first venue to the last. */
  function TotalCapacity(venues: seq<Venue>): int {
    if venues == [] then 0
    else TotalCapacity(venues[..|venues| - 1]) + venues[|venues| - 1].capacity
  }

  /** The total of two lists joined is the sum of their totals. */
  lemma {:induction false} TotalCapacityConcat(a: seq<Venue>, b: seq<Venue>)
    ensures TotalCapacity(a + b) == TotalCapacity(a) + TotalCapacity(b)
  {
    if b == [] {
      assert a + b == a;
    } else {
      var b' := b[..|b| - 1];
      assert (a + b)[..|a + b| - 1] == a + b';
      TotalCapacityConcat(a, b');
    }
  }

  /** Adding a venue adds its capacity to the total; an empty list totals 0. */
  lemma TotalCapacityAppend(venues: seq<Venue>, v: Venue)
    ensures TotalCapacity(venues + [v]) == TotalCapacity(venues) + v.capacity
    ensures TotalCapacity([]) == 0
  {
    assert (venues + [v])[..|venues|] == venues;
  }

  /** The total is the sum of every venue's capacity: with no negative
      capacity, no single venue exceeds it. */
  lemma {:induction false} TotalCapacityBoundsEach(venues: seq<Venue>, i: nat)
    requires i < |venues|
    requires forall j :: 0 <= j < |venues| ==> venues[j].capacity >= 0
    ensures venues[i].capacity <= TotalCapacity(venues)
  {
    var last := |venues| - 1;
    TotalCapacityNonNegative(venues[..last]);
    if i < last {
      TotalCapacityBoundsEach(venues[..last], i);
    }
  }

  lemma {:induction false} TotalCapacityNonNegative(venues: seq<Venue>)
    requires forall j :: 0 <= j < |venues| ==> venues[j].capacity >= 0
    ensures TotalCapacity(venues) >= 0
  {
    if venues != [] {
      TotalCapacityNonNegative(venues[..|venues| - 1]);
    }
  }

  /** The "to" figure as the venue table prints it: `indexOfLastVenue`,
      without the clipping the course table applies. */
  function ShowingToAsWritten(page: int): int {
    page * VenuesPerPage
  }

  /** Seven venues, second page: the table reads "Showing 6 to 10 of 7". */
  lemma ShowingToAsWrittenOverruns()
    ensures ShowingToAsWritten(2) == 10
    ensures ShowingToAsWritten(2) > 7 && Pagination.ShowingTo(2, VenuesPerPage, 7) == 7
  {
  }

  class Page {
    var venues: seq<Venue>
    var newVenue: Form
    var isFormVisible: bool
    /** `null` or the message on screen. */
    var notification: Option<string>
    /** `setTimeout` callbacks scheduled and not yet run. */
    var pendingTimers: nat
    var isTableVisible: bool
    var currentPage: int

    constructor ()
      ensures venues == [] && newVenue == EmptyForm() && !isFormVisible
      ensures notification.None? && pendingTimers == 0
      ensures isTableVisible && currentPage == 1
    {
      venues := [];
      newVenue := EmptyForm();
      isFormVisible := false;
      notification := None;
      pendingTimers := 0;
      isTableVisible := true;
      currentPage := 1;
    }

    /** `Math.ceil(venues.length / venuesPerPage)`. */
    function TotalPages(): nat
      reads this
    {
      Pagination.TotalPages(|venues|, VenuesPerPage)
    }

    /** `currentVenues`: never more than five rows; from page 1 on, the rows
      from position `(currentPage - 1) * 5`; past the last page, none. */
    function CurrentVenues(): (r: seq<Venue>)
      reads this
      ensures currentPage >= 1 ==> |r| <= VenuesPerPage
      ensures currentPage >= 1 ==>
                var first := Pagination.Min((currentPage - 1) * VenuesPerPage, |venues|);
                var last := Pagination.Min(currentPage * VenuesPerPage, |venues|);
                first <= last && r == venues[first..last]
      ensures currentPage >= 1 ==> (r == [] <==> currentPage > TotalPages())
    {
      if currentPage >= 1 then
        Pagination.WindowOfPage(venues, currentPage, VenuesPerPage);
        Pagination.WindowNonEmptyIffPageExists(venues, currentPage, VenuesPerPage);
        Pagination.Window(venues, currentPage, VenuesPerPage)
      else
        Pagination.Window(venues, currentPage, VenuesPerPage)
    }

    /** The capacity total of every registered venue. */
    function Capacity(): int
      reads this
    {
      TotalCapacity(venues)
    }

    /** The "to" figure, clipped to the number of venues as on the course
      table (see ShowingToAsWritten for what the page prints). */
    function ShowingTo(): (r: int)
      reads this
      ensures r <= |venues| && r <= currentPage * VenuesPerPage
      ensures r == |venues| || r == currentPage * VenuesPerPage
    {
      Pagination.ShowingTo(currentPage, VenuesPerPage, |venues|)
    }

    /** The "Previous" buttons' `disabled`. */
    function PreviousDisabled(): bool
      reads this
    {
      currentPage == 1
    }

    /** The "Next" buttons' `disabled` as the page writes it,
        `currentPage === totalPages`. */
    function NextDisabledAsWritten(): bool
      reads this
    {
      currentPage == TotalPages()
    }

    /** With no venues (the initial state, or before the fetch resolves)
        there are 0 pages, so the written test leaves "Next" enabled on page
        1; the unchecked `paginate` moves to page 2, which has no rows, reads
        "Showing 6 to 10 of 0", and still has "Next" enabled. */
    lemma NextAsWrittenLeavesPages()
      requires venues == [] && currentPage == 1
      ensures !NextDisabledAsWritten()
      ensures currentPage + 1 > TotalPages()
      ensures Pagination.Window(venues, currentPage + 1, VenuesPerPage) == []
      ensures ShowingToAsWritten(currentPage + 1) == 10 && |venues| == 0
      ensures currentPage + 1 != TotalPages()
    {
    }

    /** The "Next" buttons' `disabled`, corrected to
        `currentPage >= totalPages`: the written `===` never disables it on an
        empty list (see NextAsWrittenLeavesPages). */
    function NextDisabled(): bool
      reads this
    {
      currentPage >= TotalPages()
    }

    /** `paginate` is unchecked here, yet from page 1 or any numbered page an
        enabled "Previous" or "Next" button only leads to a numbered page, and
        that page has rows. This covers the initial state (page 1, no venues),
        where both buttons are disabled. */
    lemma EnabledButtonsStayOnPages()
      requires currentPage == 1 || 1 <= currentPage <= TotalPages()
      ensures !PreviousDisabled() ==> 1 <= currentPage - 1 <= TotalPages()
      ensures !NextDisabled() ==> 1 <= currentPage + 1 <= TotalPages()
      ensures !PreviousDisabled() ==> Pagination.Window(venues, currentPage - 1, VenuesPerPage) != []
      ensures !NextDisabled() ==> Pagination.Window(venues, currentPage + 1, VenuesPerPage) != []
    {
      if !PreviousDisabled() {
        Pagination.WindowNonEmptyIffPageExists(venues, currentPage - 1, VenuesPerPage);
      }
      if !NextDisabled() {
        Pagination.WindowNonEmptyIffPageExists(venues, currentPage + 1, VenuesPerPage);
      }
    }

    /** The effect that loads the list, when the request succeeds. */
    method VenuesLoaded(response: Option<seq<Venue>>)
      modifies this`venues
      ensures venues == if response.Some? then response.value else old(venues)
    {
      if response.Some? {
        venues := response.value;
      }
    }

    /** `paginate(n)`: no bounds check; a page past the last shows no rows. */
    method Paginate(n: int)
      modifies this`currentPage
      ensures currentPage == n
      ensures n > TotalPages() ==> CurrentVenues() == []
    {
      currentPage := n;
    }

    /** `handleInputChange`: only the named field changes. */
    method HandleInputChange(name: string, value: string)
      modifies this`newVenue
      ensures newVenue == old(newVenue)[name := value]
      ensures forall k | k in old(newVenue) && k != name :: k in newVenue && newVenue[k] == old(newVenue)[k]
    {
      newVenue := newVenue[name := value];
    }

    /** The "Add New Venue" button. */
    method ToggleForm()
      modifies this`isFormVisible
      ensures isFormVisible == !old(isFormVisible)
    {
      isFormVisible := !isFormVisible;
    }

    /** `toggleTableVisibility`. */
    method ToggleTableVisibility()
      modifies this`isTableVisible
      ensures isTableVisible == !old(isTableVisible)
    {
      isTableVisible := !isTableVisible;
    }

    /** `showNotification(message)`: shows it and schedules its removal. */
    method ShowNotification(message: string)
      modifies this`notification, this`pendingTimers
      ensures notification == Some(message)
      ensures pendingTimers == old(pendingTimers) + 1
    {
      notification := Some(message);
      pendingTimers := pendingTimers + 1;
    }

    /** A scheduled `setTimeout` callback runs: it clears whatever message is
      on screen, including one shown after it was scheduled. */
    method NotificationTimerFired()
      requires pendingTimers > 0
      modifies this`notification, this`pendingTimers
      ensures notification.None?
      ensures pendingTimers == old(pendingTimers) - 1
    {
      notification := None;
      pendingTimers := pendingTimers - 1;
    }

    /** `handleSubmit`: posts `newVenue`; `created` is the venue the backend
      returned, `None` when the request failed. On success the venue is
      appended, the form blanked and hidden and the notification shown. */
    method HandleSubmit(created: Option<Venue>) returns (posted: Form)
      modifies this`venues, this`newVenue, this`isFormVisible, this`notification, this`pendingTimers
      ensures posted == old(newVenue)
      ensures created.Some? ==>
                && venues == old(venues) + [created.value]
                && newVenue == EmptyForm() && !isFormVisible
                && notification == Some(AddedMessage)
                && pendingTimers == old(pendingTimers) + 1
                && Capacity() == old(Capacity()) + created.value.capacity
      ensures created.None? ==>
                && venues == old(venues) && newVenue == old(newVenue)
                && isFormVisible == old(isFormVisible)
                && notification == old(notification) && pendingTimers == old(pendingTimers)
    {
      posted := newVenue;
      if created.Some? {
        TotalCapacityAppend(venues, created.value);
        venues := venues + [created.value];
        newVenue := EmptyForm();
        isFormVisible := false;
        ShowNotification(AddedMessage);
      }
    }
  }
}
