/**
 * The detail view (`src/pages/EventPage.jsx`): the event and its creator,
 * loaded one after the other; the loading gate; the edit dialog, whose inputs
 * change the displayed event directly; and the update and delete requests.
 */
module EventPage {
  import opened Common
  import opened JsText

  // ------------------------------------------------------------- records

  /**
   * An event as the detail view holds it. Its category list holds numbers as
   * the categories input produces them, so an entry may be NaN.
   */
  datatype Event = Event(
    id: int, title: string, description: string, image: string, location: string,
    startTime: string, endTime: string, categoryIds: seq<Num>, createdBy: int)
  {
    /** The value an input of the edit dialog works on. */
    function Get(f: EditField): FieldValue
    {
      match f
      case TitleInput => Text(title)
      case DescriptionInput => Text(description)
      case ImageInput => Text(image)
      case StartTimeInput => Text(startTime)
      case EndTimeInput => Text(endTime)
      case CategoriesInput => Numbers(categoryIds)
    }
  }

  /** The user an event's `createdBy` refers to. */
  datatype Creator = Creator(id: int, name: string, image: string)

  /** The inputs of the edit dialog. */
  datatype EditField = TitleInput | DescriptionInput | ImageInput | StartTimeInput | EndTimeInput | CategoriesInput

  datatype FieldValue = Text(text: string) | Numbers(ids: seq<Num>)

  // ------------------------------------------------------ category text

  function NumberTexts(ids: seq<Num>): (texts: seq<string>)
    ensures |texts| == |ids|
    ensures forall k :: 0 <= k < |ids| ==> texts[k] == NumberToString(ids[k])
  {
    if ids == [] then [] else [NumberToString(ids[0])] + NumberTexts(ids[1..])
  }

  /** `categoryIds.join(", ")`: what the page and the categories input show. */
  function CategoryText(ids: seq<Num>): string
  {
    Join(NumberTexts(ids), ", ")
  }

  /** `parseInt(piece.trim())` for every piece, in order. */
  function ParsePieces(pieces: seq<string>): (ids: seq<Num>)
    ensures |ids| == |pieces|
    ensures forall k :: 0 <= k < |pieces| ==> ids[k] == ParseInt(Trim(pieces[k]))
  {
    if pieces == [] then [] else [ParseInt(Trim(pieces[0]))] + ParsePieces(pieces[1..])
  }

  /**
   * `text.split(",").map(id => parseInt(id.trim()))`: one number per
   * comma-separated piece, so one more than there are commas.
   */
  function ParseCategoryText(text: string): (ids: seq<Num>)
    ensures |ids| == Count(text, ',') + 1
  {
    ParsePieces(Split(text, ','))
  }

  /** The first piece of a text that starts with a space parses as if the space were not there. */
  lemma LeadingSpaceIgnored(j: string)
    ensures ParsePieces(Split([' '] + j, ',')) == ParsePieces(Split(j, ','))
  {
    var rest := Split(j, ',');
    assert ([' '] + j)[1..] == j;
    assert Split([' '] + j, ',') == [[' '] + rest[0]] + rest[1..];
    TrimLeadingSpace(rest[0]);
  }

  /** The text of one number, trimmed and parsed, is that number. */
  lemma NumberTextParses(x: Num)
    ensures ParseInt(Trim(NumberToString(x))) == x
  {
    var w := NumberToString(x);
    ParseIntNumberToString(x, "");
    assert w + "" == w;
    TrimUnpadded(w);
  }

  lemma ParsePiecesCons(w: string, tail: seq<string>)
    ensures ParsePieces([w] + tail) == [ParseInt(Trim(w))] + ParsePieces(tail)
  {
    assert ([w] + tail)[1..] == tail;
  }

  /** The shown text of a list of two or more numbers: the first, a comma, then a space and the rest. */
  lemma CategoryTextCons(ids: seq<Num>)
    requires |ids| >= 2
    ensures CategoryText(ids) == NumberToString(ids[0]) + [','] + ([' '] + CategoryText(ids[1..]))
  {
    assert NumberTexts(ids)[1..] == NumberTexts(ids[1..]);
  }

  lemma HeadThenTail<T>(xs: seq<T>, rest: seq<T>)
    requires xs != []
    ensures [xs[0]] + (xs[1..] + rest) == xs + rest
  {
    assert [xs[0]] + xs[1..] == xs;
  }

  lemma CommaAfterCons(w: string, j: string, more: string)
    ensures (w + [','] + ([' '] + j)) + [','] + more == w + [','] + ([' '] + (j + [','] + more))
  {
  }

  /** The shown text of a non-empty category list parses back to that list, NaN entries included. */
  lemma {:induction false} CategoryTextRoundTrip(ids: seq<Num>)
    requires ids != []
    ensures ParseCategoryText(CategoryText(ids)) == ids
  {
    var w := NumberToString(ids[0]);
    NumberTextParses(ids[0]);
    if |ids| == 1 {
      assert CategoryText(ids) == w;
      SplitWithoutSeparator(w, ',');
    } else {
      var j := CategoryText(ids[1..]);
      CategoryTextCons(ids);
      NumberThenComma(ids[0], [' '] + j);
      LeadingSpaceIgnored(j);
      CategoryTextRoundTrip(ids[1..]);
      assert [ids[0]] + ids[1..] == ids;
    }
  }

  /** A text that starts with the text of a number and a comma: that number, then the pieces after the comma. */
  lemma NumberThenComma(x: Num, after: string)
    ensures ParseCategoryText(NumberToString(x) + [','] + after) == [x] + ParsePieces(Split(after, ','))
  {
    var w := NumberToString(x);
    SplitAtFirst(w, after, ',');
    ParsePiecesCons(w, Split(after, ','));
    NumberTextParses(x);
  }

  /** The base case of `CommaAfterCategoryText`: a list of one number. */
  lemma CommaAfterOneNumber(ids: seq<Num>, more: string)
    requires |ids| == 1
    ensures ParseCategoryText(CategoryText(ids) + [','] + more) == ids + ParseCategoryText(more)
  {
    calc {
      ParseCategoryText(CategoryText(ids) + [','] + more);
    == { assert CategoryText(ids) == NumberToString(ids[0]); }
      ParseCategoryText(NumberToString(ids[0]) + [','] + more);
    == { NumberThenComma(ids[0], more); }
      [ids[0]] + ParseCategoryText(more);
    == { assert [ids[0]] == ids; }
      ids + ParseCategoryText(more);
    }
  }

  /** The inductive step of `CommaAfterCategoryText`: from the list without its head to the whole list. */
  lemma CommaAfterCategoryTextStep(ids: seq<Num>, more: string)
    requires |ids| >= 2
    requires ParseCategoryText(CategoryText(ids[1..]) + [','] + more) == ids[1..] + ParseCategoryText(more)
    ensures ParseCategoryText(CategoryText(ids) + [','] + more) == ids + ParseCategoryText(more)
  {
    var w := NumberToString(ids[0]);
    var j := CategoryText(ids[1..]);
    var after := [' '] + (j + [','] + more);
    var rest := ParseCategoryText(more);
    calc {
      ParseCategoryText(CategoryText(ids) + [','] + more);
    == { CategoryTextCons(ids); CommaAfterCons(w, j, more); }
      ParseCategoryText(w + [','] + after);
    == { NumberThenComma(ids[0], after); }
      [ids[0]] + ParsePieces(Split(after, ','));
    == { LeadingSpaceIgnored(j + [','] + more); }
      [ids[0]] + ParseCategoryText(j + [','] + more);
      [ids[0]] + (ids[1..] + rest);
    == { HeadThenTail(ids, rest); }
      ids + rest;
    }
  }

  /**
   * A comma typed after the shown text ends the list: what follows it is
   * parsed on its own. In particular a trailing comma appends NaN.
   */
  lemma {:induction false} CommaAfterCategoryText(ids: seq<Num>, more: string)
    requires ids != []
    ensures ParseCategoryText(CategoryText(ids) + [','] + more) == ids + ParseCategoryText(more)
  {
    if |ids| == 1 {
      CommaAfterOneNumber(ids, more);
    } else {
      CommaAfterCategoryText(ids[1..], more);
      CommaAfterCategoryTextStep(ids, more);
    }
  }

  /** The empty list is shown as the empty text, which parses to one NaN. */
  lemma EmptyCategoryTextGivesNaN()
    ensures CategoryText([]) == ""
    ensures ParseCategoryText("") == [NaN]
  {
    assert TrimStart("") == "";
  }

  // -------------------------------------------------------------- edits

  /**
   * `setEvent({ ...event, <field>: value })` for the input that changed; the
   * categories input stores the parsed list.
   */
  function ApplyEdit(e: Event, f: EditField, input: string): Event
  {
    match f
    case TitleInput => e.(title := input)
    case DescriptionInput => e.(description := input)
    case ImageInput => e.(image := input)
    case StartTimeInput => e.(startTime := input)
    case EndTimeInput => e.(endTime := input)
    case CategoriesInput => e.(categoryIds := ParseCategoryText(input))
  }

  /**
   * An edit replaces exactly the field of its input: that field takes the
   * typed text (the parsed list for the categories input), and every other
   * field, shown or not, keeps its value.
   */
  lemma ApplyEditChangesOneField(e: Event, f: EditField, input: string, g: EditField)
    ensures var r := ApplyEdit(e, f, input);
      r.Get(g) == (if g != f then e.Get(g)
                   else if f == CategoriesInput then Numbers(ParseCategoryText(input))
                   else Text(input))
      && r.id == e.id && r.location == e.location && r.createdBy == e.createdBy
  {
  }

  /** Entering the categories text the dialog shows leaves a categorised event as it was. */
  lemma ShownCategoriesReenteredUnchanged(e: Event)
    requires e.categoryIds != []
    ensures ApplyEdit(e, CategoriesInput, CategoryText(e.categoryIds)) == e
  {
    CategoryTextRoundTrip(e.categoryIds);
  }

  /** An event without categories shows an empty input; entering that text gives it one NaN category. */
  lemma EmptyCategoriesReenteredAsNaN(e: Event)
    requires e.categoryIds == []
    ensures ApplyEdit(e, CategoriesInput, CategoryText(e.categoryIds)).categoryIds == [NaN]
  {
    EmptyCategoryTextGivesNaN();
  }

  // ------------------------------------------------------------- render

  datatype Screen = Loading | Details(event: Event, creator: Creator)

  /** `if (!event || !creator)` shows the loading text; otherwise the page shows both. */
  function Render(event: Option<Event>, creator: Option<Creator>): (s: Screen)
    ensures s.Details? <==> event.Some? && creator.Some?
    ensures s.Details? ==> s.event == event.value && s.creator == creator.value
  {
    if event.None? || creator.None? then Loading else Details(event.value, creator.value)
  }

  // --------------------------------------------------------------- view

  /** The state of one mounted detail view for the route's `eventId`. */
  class EventPageView {
    const eventId: string
    var event: Option<Event>
    var creator: Option<Creator>
    var isEditModalOpen: bool
    var isDeleteModalOpen: bool
    /** The path `navigate` was called with, if it was. */
    var navigatedTo: Option<string>
    /** The toasts shown so far, oldest first. */
    var notices: seq<Notice>

    /** The state on mount, before the event has loaded. */
    constructor (eventId: string)
      ensures this.eventId == eventId
      ensures event == None && creator == None && !isEditModalOpen && !isDeleteModalOpen
      ensures navigatedTo == None && notices == []
    {
      this.eventId := eventId;
      event, creator := None, None;
      isEditModalOpen, isDeleteModalOpen := false, false;
      navigatedTo, notices := None, [];
    }

    function Screen(): Screen
      reads this
    {
      Render(event, creator)
    }

    /**
     * The load chain: the event is requested, and only when it arrives is its
     * creator requested, by `createdBy`. Returns the user id requested, if any.
     * A failure at either stage is only logged and leaves that state unset.
     */
    method Load(eventResponse: Outcome<Event>, userResponse: int -> Outcome<Creator>)
      returns (userRequested: Option<int>)
      modifies this`event, this`creator
      ensures userRequested == if eventResponse.Success? then Some(eventResponse.value.createdBy) else None
      ensures event == if eventResponse.Success? then Some(eventResponse.value) else old(event)
      ensures creator ==
        if eventResponse.Success? && userResponse(eventResponse.value.createdBy).Success?
        then Some(userResponse(eventResponse.value.createdBy).value)
        else old(creator)
    {
      userRequested := None;
      if eventResponse.Success? {
        var data := eventResponse.value;
        event := Some(data);
        userRequested := Some(data.createdBy);
        var userData := userResponse(data.createdBy);
        if userData.Success? {
          creator := Some(userData.value);
        }
      }
    }

    /** `handleEditModalOpen`. */
    method OpenEditModal()
      modifies this`isEditModalOpen
      ensures isEditModalOpen
    {
      isEditModalOpen := true;
    }

    /** `handleEditModalClose`: Cancel closes the dialog and keeps the edits already applied to `event`. */
    method CloseEditModal()
      modifies this`isEditModalOpen
      ensures !isEditModalOpen
    {
      isEditModalOpen := false;
    }

    /** `onDeleteModalOpen`. */
    method OpenDeleteModal()
      modifies this`isDeleteModalOpen
      ensures isDeleteModalOpen
    {
      isDeleteModalOpen := true;
    }

    /** `onDeleteModalClose`. */
    method CloseDeleteModal()
      modifies this`isDeleteModalOpen
      ensures !isDeleteModalOpen
    {
      isDeleteModalOpen := false;
    }

    /** An input of the edit dialog changed: the displayed event itself is edited. */
    method HandleFieldChange(f: EditField, input: string)
      requires event.Some?
      modifies this`event
      ensures event == Some(ApplyEdit(old(event.value), f, input))
    {
      event := Some(ApplyEdit(event.value, f, input));
    }

    /**
     * `handleUpdateEvent(event)`: sends the whole displayed event to the
     * route's event. Returns the id addressed and the record sent.
     */
    method HandleUpdateEvent(response: Outcome<Event>) returns (target: string, sent: Event)
      requires event.Some?
      modifies this`event, this`isEditModalOpen, this`notices
      ensures target == eventId && sent == old(event.value)
      ensures response.Success? ==>
        event == Some(response.value) && !isEditModalOpen && notices == old(notices) + [SuccessNotice]
      ensures response.Failure? ==>
        event == old(event) && isEditModalOpen == old(isEditModalOpen)
        && notices == old(notices) + [ErrorNotice]
    {
      target, sent := eventId, event.value;
      match response {
        case Success(data) =>
          event := Some(data);
          isEditModalOpen := false;
          notices := notices + [SuccessNotice];
        case Failure =>
          notices := notices + [ErrorNotice];
      }
    }

    /**
     * `handleDeleteEvent`: deletes the route's event. Success (any response,
     * whatever its status) shows a toast and navigates to the root; failure
     * shows an error and stays. Returns the id addressed.
     */
    method HandleDeleteEvent(response: Outcome<()>) returns (target: string)
      modifies this`navigatedTo, this`notices
      ensures target == eventId
      ensures response.Success? ==> navigatedTo == Some("/") && notices == old(notices) + [SuccessNotice]
      ensures response.Failure? ==> navigatedTo == old(navigatedTo) && notices == old(notices) + [ErrorNotice]
    {
      target := eventId;
      if response.Success? {
        notices := notices + [SuccessNotice];
        navigatedTo := Some("/");
      } else {
        notices := notices + [ErrorNotice];
      }
    }
  }

  /** The event arrives but its creator does not: the page stays on "Loading...". */
  method CreatorFailureScenario(eventId: string, e: Event) returns (view: EventPageView)
    ensures view.event == Some(e) && view.creator == None
    ensures view.Screen() == Loading
  {
    view := new EventPageView(eventId);
    var requested := view.Load(Success(e), _ => Failure);
    assert requested == Some(e.createdBy);
  }

  /** A failed delete keeps the page, its event and its creator, and shows an error. */
  method DeleteFailureScenario(eventId: string, e: Event, c: Creator) returns (view: EventPageView)
    ensures view.navigatedTo == None && view.Screen() == Details(e, c)
    ensures view.notices == [ErrorNotice]
  {
    view := new EventPageView(eventId);
    var _ := view.Load(Success(e), _ => Success(c));
    view.OpenDeleteModal();
    var _ := view.HandleDeleteEvent(Failure);
  }

  /** A failed update after an edit keeps the edit on screen and the dialog open. */
  method UpdateFailureScenario(eventId: string, e: Event, c: Creator, title: string)
    returns (view: EventPageView)
    ensures view.Screen() == Details(e.(title := title), c)
    ensures view.isEditModalOpen && view.notices == [ErrorNotice]
  {
    view := new EventPageView(eventId);
    var _ := view.Load(Success(e), _ => Success(c));
    view.OpenEditModal();
    view.HandleFieldChange(TitleInput, title);
    var _, sent := view.HandleUpdateEvent(Failure);
    assert sent.title == title;
  }
}
