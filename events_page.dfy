/**
 * The list view (`src/pages/EventsPage.jsx`): the events and categories it
 * loads, the search and category filter over the loaded events, and the
 * "Add event" dialog with its draft and its create request.
 */
module EventsPage {
  import opened Common
  import opened JsText
  import opened Filtering

  // ------------------------------------------------------------- records

  /** An event as the events resource sends it: `categoryIds` may be missing or null. */
  datatype RawEvent = RawEvent(
    id: int, title: string, description: string, image: string, location: string,
    startTime: string, endTime: string, categoryIds: Option<seq<int>>, createdBy: int)

  /** An event as the list view holds it: `categoryIds` is always a list. */
  datatype Event = Event(
    id: int, title: string, description: string, image: string, location: string,
    startTime: string, endTime: string, categoryIds: seq<int>, createdBy: int)

  datatype Category = Category(id: int, name: string)

  /** The event as a resource record whose `categoryIds` is present. */
  function Lift(e: Event): RawEvent
  {
    RawEvent(e.id, e.title, e.description, e.image, e.location, e.startTime, e.endTime,
             Some(e.categoryIds), e.createdBy)
  }

  // ------------------------------------------------------- normalisation

  /** `{ ...event, categoryIds: event.categoryIds || [] }`. */
  function Normalise(raw: RawEvent): (e: Event)
    ensures Lift(e) == raw.(categoryIds := Some(if raw.categoryIds.Some? then raw.categoryIds.value else []))
  {
    Event(raw.id, raw.title, raw.description, raw.image, raw.location, raw.startTime, raw.endTime,
          match raw.categoryIds case Some(ids) => ids case None => [], raw.createdBy)
  }

  /** The loaded list, each record normalised, in the order the resource sent them. */
  function NormaliseAll(data: seq<RawEvent>): (events: seq<Event>)
    ensures |events| == |data|
    ensures forall i :: 0 <= i < |data| ==> events[i] == Normalise(data[i])
  {
    if data == [] then [] else [Normalise(data[0])] + NormaliseAll(data[1..])
  }

  /**
   * Every field but `categoryIds` is kept; a present `categoryIds` is kept and
   * a missing one becomes the empty list.
   */
  lemma NormaliseAllKeepsFields(data: seq<RawEvent>, i: int)
    requires 0 <= i < |data|
    ensures |NormaliseAll(data)| == |data|
    ensures var e := NormaliseAll(data)[i];
      e.id == data[i].id && e.title == data[i].title && e.description == data[i].description
      && e.image == data[i].image && e.location == data[i].location
      && e.startTime == data[i].startTime && e.endTime == data[i].endTime
      && e.createdBy == data[i].createdBy
      && (data[i].categoryIds.Some? ==> e.categoryIds == data[i].categoryIds.value)
      && (data[i].categoryIds.None? ==> e.categoryIds == [])
  {
    var e := NormaliseAll(data)[i];
    assert Lift(e) == data[i].(categoryIds := Some(e.categoryIds));
  }

  /** Records that already carry `categoryIds` come through normalisation unchanged. */
  lemma {:induction false} NormaliseAllOfLifted(events: seq<Event>)
    ensures NormaliseAll(seq(|events|, i requires 0 <= i < |events| => Lift(events[i]))) == events
  {
    var data := seq(|events|, i requires 0 <= i < |events| => Lift(events[i]));
    var r := NormaliseAll(data);
    forall i | 0 <= i < |events|
      ensures r[i] == events[i]
    {
      assert Lift(r[i]) == Lift(events[i]);
    }
  }

  // ------------------------------------------------------------- filter

  /** The search stage: the lower-cased title contains the lower-cased query. */
  predicate TitleMatches(e: Event, query: string)
  {
    Includes(Lower(e.title), Lower(query))
  }

  /**
   * The category stage: no category selected (the empty string is falsy), or
   * the event lists the selected id, or the event lists no category at all.
   * `parseInt` of a selection that is not a number gives NaN, which no id equals.
   */
  predicate CategoryPasses(e: Event, selected: string)
  {
    selected == []
    || (match ParseInt(selected) case Int(c) => c in e.categoryIds case NaN => false)
    || |e.categoryIds| == 0
  }

  /** Both stages together: the events the list shows. */
  predicate Shown(e: Event, query: string, selected: string)
  {
    TitleMatches(e, query) && CategoryPasses(e, selected)
  }

  /** `filteredEvents`: the title filter, then the category filter. */
  function FilteredEvents(events: seq<Event>, query: string, selected: string): (r: seq<Event>)
    ensures forall e :: e in r <==> e in events && Shown(e, query, selected)
  {
    Filter(e => CategoryPasses(e, selected), Filter(e => TitleMatches(e, query), events))
  }

  /** The two stages are one filter by `Shown`. */
  lemma FilteredEventsIsOneFilter(events: seq<Event>, query: string, selected: string)
    ensures FilteredEvents(events, query, selected) == Filter(e => Shown(e, query, selected), events)
  {
    FilterTwice(e => TitleMatches(e, query), e => CategoryPasses(e, selected),
                e => Shown(e, query, selected), events);
  }

  /**
   * The shown list is obtained from `events` by deleting entries: original
   * order, no sorting, and each shown event appears exactly as often as it
   * was loaded.
   */
  lemma FilteredEventsIsSubsequence(events: seq<Event>, query: string, selected: string, x: Event)
    ensures SubsequenceOf(FilteredEvents(events, query, selected), events)
    ensures multiset(FilteredEvents(events, query, selected))[x]
         == if Shown(x, query, selected) then multiset(events)[x] else 0
  {
    FilteredEventsIsOneFilter(events, query, selected);
    FilterIsSubsequence(e => Shown(e, query, selected), events);
    FilterMultiplicity(e => Shown(e, query, selected), events, x);
  }

  /** An empty query and no selected category show every event, in order. */
  lemma NoFilterShowsAll(events: seq<Event>)
    ensures FilteredEvents(events, "", "") == events
  {
    FilteredEventsIsOneFilter(events, "", "");
    forall i | 0 <= i < |events|
      ensures Shown(events[i], "", "")
    {
      IncludesEmpty(Lower(events[i].title));
    }
    FilterKeepsAll(e => Shown(e, "", ""), events);
  }

  /** An event without categories passes the category stage whatever is selected. */
  lemma UncategorisedAlwaysPasses(events: seq<Event>, query: string, selected: string, e: Event)
    requires e in events && e.categoryIds == [] && TitleMatches(e, query)
    ensures e in FilteredEvents(events, query, selected)
  {
  }

  /**
   * With a category selected, an event that lists categories but not the
   * parsed selection is not shown, whatever its title.
   */
  lemma OtherCategoryExcluded(events: seq<Event>, query: string, selected: string, e: Event)
    requires selected != [] && e.categoryIds != []
    requires ParseInt(selected).NaN? || ParseInt(selected).value !in e.categoryIds
    ensures e !in FilteredEvents(events, query, selected)
  {
  }

  /** The search ignores the case of ASCII letters in the query. */
  lemma {:induction false} QueryCaseIgnored(e: Event, query: string)
    ensures TitleMatches(e, Lower(query)) == TitleMatches(e, query)
  {
    assert Lower(Lower(query)) == Lower(query);
  }

  lemma JazzMatchesJazzNight()
    ensures Includes(Lower("Jazz Night"), Lower("Jazz"))
  {
    var title, query := Lower("Jazz Night"), Lower("Jazz");
    assert forall i :: 0 <= i < 4 ==> "Jazz Night"[i] == "Jazz"[i];
    assert forall i :: 0 <= i < 4 ==> title[i] == query[i];
    assert StartsWith(title, query);
  }

  lemma JazzMissesRockShow()
    ensures !Includes(Lower("Rock Show"), Lower("Jazz"))
  {
    var r := Lower("Rock Show");
    assert r[0] == LowerChar('R') == 'r';
    assert r[1] == 'o' && r[2] == 'c' && r[3] == 'k' && r[4] == ' ';
    assert r[5] == LowerChar('S') == 's';
    assert r[6] == 'h' && r[7] == 'o' && r[8] == 'w';
    assert r == "rock show";
    assert Lower("Jazz") == "jazz";
    IncludesNeedsFirstChar(r, "jazz");
  }

  /** Searching "Jazz" shows "Jazz Night" and hides "Rock Show". */
  lemma SearchScenario(jazz: Event, rock: Event)
    requires jazz.title == "Jazz Night" && jazz.categoryIds == []
    requires rock.title == "Rock Show" && rock.categoryIds == [2]
    ensures jazz in FilteredEvents([jazz, rock], "Jazz", "")
    ensures rock !in FilteredEvents([jazz, rock], "Jazz", "")
  {
    JazzMatchesJazzNight();
    JazzMissesRockShow();
  }

  /** Selecting category 2 shows the event listing 2 and the uncategorised one, and hides the one listing 3. */
  lemma CategoryScenario(a: Event, b: Event, c: Event)
    requires a.categoryIds == [2] && b.categoryIds == [] && c.categoryIds == [3]
    ensures a in FilteredEvents([a, b, c], "", "2") && b in FilteredEvents([a, b, c], "", "2")
    ensures c !in FilteredEvents([a, b, c], "", "2")
  {
    ParseTwo();
    IncludesEmpty(Lower(a.title));
    IncludesEmpty(Lower(b.title));
    assert CategoryPasses(a, "2") && CategoryPasses(b, "2") && !CategoryPasses(c, "2");
  }

  /** Two queries that differ only in the case of their letters find the same titles. */
  lemma TitleMatchesIgnoresQueryCase(e: Event, q1: string, q2: string)
    requires |q1| == |q2|
    requires forall i :: 0 <= i < |q1| ==> LowerChar(q1[i]) == LowerChar(q2[i])
    ensures TitleMatches(e, q1) == TitleMatches(e, q2)
  {
    assert Lower(q1) == Lower(q2);
  }

  lemma ParseTwo()
    ensures ParseInt("2") == Int(2)
  {
    ParseIntNumberToString(Int(2), "");
    assert NumberToString(Int(2)) + "" == "2";
  }

  // -------------------------------------------------------------- draft

  /** The inputs of the "Add event" dialog, by their `name` attribute. */
  datatype Field = Title | Description | Image | Location | StartTime | EndTime | CategoryIds

  /**
   * A draft field holds whatever was last put there: text from an input, or
   * the initial empty list of `categoryIds` (the category `<Select>` replaces
   * it with the selected option's text).
   */
  datatype FormValue = Text(text: string) | IdList(ids: seq<int>)

  /** `newEvent`. */
  datatype Draft = Draft(
    title: FormValue, description: FormValue, image: FormValue, location: FormValue,
    startTime: FormValue, endTime: FormValue, categoryIds: FormValue)
  {
    function Get(f: Field): FormValue
    {
      match f
      case Title => title
      case Description => description
      case Image => image
      case Location => location
      case StartTime => startTime
      case EndTime => endTime
      case CategoryIds => categoryIds
    }
  }

  /** `initialFormValues`: empty texts and no categories. */
  const InitialForm: Draft := Draft(Text(""), Text(""), Text(""), Text(""), Text(""), Text(""), IdList([]))

  /** `{ ...newEvent, [name]: value }`: the named field becomes the input's text and no other field changes. */
  function SetField(d: Draft, name: Field, value: string): (r: Draft)
    ensures forall f :: r.Get(f) == if f == name then Text(value) else d.Get(f)
  {
    match name
    case Title => d.(title := Text(value))
    case Description => d.(description := Text(value))
    case Image => d.(image := Text(value))
    case Location => d.(location := Text(value))
    case StartTime => d.(startTime := Text(value))
    case EndTime => d.(endTime := Text(value))
    case CategoryIds => d.(categoryIds := Text(value))
  }

  /** The body of the create request: the seven draft fields and the creator reference. */
  datatype Payload = Payload(
    title: FormValue, description: FormValue, image: FormValue, location: FormValue,
    startTime: FormValue, endTime: FormValue, categoryIds: FormValue, createdBy: int)
  {
    /** The seven form fields of the payload. */
    function Fields(): Draft
    {
      Draft(title, description, image, location, startTime, endTime, categoryIds)
    }
  }

  /** `eventData`: every draft field copied, `createdBy` the fixed acting user. */
  function PayloadOf(d: Draft): (p: Payload)
    ensures forall f :: p.Fields().Get(f) == d.Get(f)
    ensures p.createdBy == 1
  {
    Payload(d.title, d.description, d.image, d.location, d.startTime, d.endTime, d.categoryIds,
            ActingUserId)
  }

  // --------------------------------------------------------------- view

  /** The state of one mounted list view. */
  class EventsPageView {
    var events: seq<Event>
    var categories: seq<Category>
    var searchQuery: string
    var selectedCategory: string
    /** Whether the "Add event" dialog is open. */
    var isOpen: bool
    var newEvent: Draft
    /** The toasts shown so far, oldest first. */
    var notices: seq<Notice>

    /** The state on mount, before either load has answered. */
    constructor ()
      ensures events == [] && categories == [] && searchQuery == "" && selectedCategory == ""
      ensures !isOpen && newEvent == InitialForm && notices == []
    {
      events, categories := [], [];
      searchQuery, selectedCategory := "", "";
      isOpen, newEvent, notices := false, InitialForm, [];
    }

    /** The events the page lists. */
    function Visible(): seq<Event>
      reads this
    {
      FilteredEvents(events, searchQuery, selectedCategory)
    }

    /** The answer to the events load: normalised on success, only logged on failure. */
    method ReceiveEvents(response: Outcome<seq<RawEvent>>)
      modifies this`events
      ensures events == if response.Success? then NormaliseAll(response.value) else old(events)
    {
      if response.Success? {
        events := NormaliseAll(response.value);
      }
    }

    /** The answer to the categories load: kept as sent on success, only logged on failure. */
    method ReceiveCategories(response: Outcome<seq<Category>>)
      modifies this`categories
      ensures categories == if response.Success? then response.value else old(categories)
    {
      if response.Success? {
        categories := response.value;
      }
    }

    /** `handleInputChange`: the search box. */
    method HandleInputChange(value: string)
      modifies this`searchQuery
      ensures searchQuery == value
    {
      searchQuery := value;
    }

    /** `handleCategoryChange`: the category filter; `""` is the "All" option. */
    method HandleCategoryChange(value: string)
      modifies this`selectedCategory
      ensures selectedCategory == value
    {
      selectedCategory := value;
    }

    /** `onOpen`: the "Add event" button. */
    method Open()
      modifies this`isOpen
      ensures isOpen
    {
      isOpen := true;
    }

    /** `onClose`: Cancel or the close button; the draft is kept for the next opening. */
    method Close()
      modifies this`isOpen
      ensures !isOpen
    {
      isOpen := false;
    }

    /** `handleModalInputChange`: one input of the dialog changed. */
    method HandleModalInputChange(name: Field, value: string)
      modifies this`newEvent
      ensures newEvent == SetField(old(newEvent), name, value)
    {
      newEvent := SetField(newEvent, name, value);
    }

    /**
     * `handleAddEvent`: posts the draft and returns the payload it sent. On
     * success the record the server returned is appended, the dialog closes
     * and the draft resets; on failure only an error toast is added.
     */
    method HandleAddEvent(response: Outcome<Event>) returns (sent: Payload)
      modifies this`events, this`isOpen, this`newEvent, this`notices
      ensures sent == PayloadOf(old(newEvent))
      ensures response.Success? ==>
        events == old(events) + [response.value] && !isOpen && newEvent == InitialForm
        && notices == old(notices) + [SuccessNotice]
      ensures response.Failure? ==>
        events == old(events) && isOpen == old(isOpen) && newEvent == old(newEvent)
        && notices == old(notices) + [ErrorNotice]
    {
      sent := PayloadOf(newEvent);
      match response {
        case Success(created) =>
          events := events + [created];
          isOpen := false;
          newEvent := InitialForm;
          notices := notices + [SuccessNotice];
        case Failure =>
          notices := notices + [ErrorNotice];
      }
    }
  }

  /** Creating an event while nothing is filtered: the new record is listed last. */
  method CreateThenList(created: Event) returns (view: EventsPageView)
    ensures view.Visible() == [created] && !view.isOpen && view.newEvent == InitialForm
  {
    view := new EventsPageView();
    view.Open();
    view.HandleModalInputChange(Title, created.title);
    var sent := view.HandleAddEvent(Success(created));
    assert sent.createdBy == ActingUserId;
    assert view.events == [created];
    NoFilterShowsAll(view.events);
  }
}
