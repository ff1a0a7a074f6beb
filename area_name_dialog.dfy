/** The dialog that asks for a custom area's name. The typed name is
    trimmed and checked (not blank, at most 100 characters) before it is
    handed to `onSave`; Enter saves, Escape cancels, and typing clears the
    error. The callbacks the dialog invokes are recorded in `events`. */
module AreaNameDialog {
  import opened Wrappers
  import opened JsStrings

  /** `VALIDATION_MESSAGES.AREA_NAME_REQUIRED` and `AREA_NAME_TOO_LONG` */
  const AreaNameRequired: string := "Please enter a name for your area"
  const AreaNameTooLong: string := "Area name must be less than 100 characters"

  const MaxNameLength: nat := 100

  datatype NameCheck = Accepted(name: string) | Rejected(message: string)

  /** A name `onSave` may receive: non-empty, at most 100 characters, and
      neither starting nor ending with white space. */
  predicate WellFormedName(n: string) {
    0 < |n| <= MaxNameLength && !IsJsSpace(n[0]) && !IsJsSpace(n[|n| - 1])
  }

  /** A well-formed name is already trimmed. */
  lemma WellFormedNameIsTrimmed(n: string)
    requires WellFormedName(n)
    ensures Trim(n) == n
  {
    assert TrimStart(n) == n;
  }

  /** The validation in `handleSave`. */
  function ValidateName(name: string): (r: NameCheck)
    ensures r.Accepted? ==> r.name == Trim(name) && WellFormedName(r.name)
    ensures r == Rejected(AreaNameRequired) <==> AllSpace(name)
    ensures r == Rejected(AreaNameTooLong) <==> |Trim(name)| > MaxNameLength
    ensures r.Accepted? <==> !AllSpace(name) && |Trim(name)| <= MaxNameLength
  {
    TrimEmptyIffAllSpace(name);
    TrimShape(name);
    assert AreaNameRequired[0] != AreaNameTooLong[0];
    var trimmed := Trim(name);
    if trimmed == "" then Rejected(AreaNameRequired)
    else if |trimmed| > MaxNameLength then Rejected(AreaNameTooLong)
    else Accepted(trimmed)
  }

  /** The save button's enabled state (`disabled={!name.trim()}`): enabled
      exactly when saving would not report a missing name. */
  predicate SaveEnabled(name: string) {
    Trim(name) != ""
  }

  lemma SaveEnabledIffNotBlank(name: string)
    ensures SaveEnabled(name) <==> ValidateName(name) != Rejected(AreaNameRequired)
  {
    TrimEmptyIffAllSpace(name);
  }

  /** The input's `maxLength` keeps typed text within 100 characters. */
  function TypedText(value: string): (r: string)
    ensures |r| <= MaxNameLength
    ensures |value| <= MaxNameLength ==> r == value
    ensures r == value[..|r|]
  {
    if |value| <= MaxNameLength then value else value[..MaxNameLength]
  }

  /** Typed text can never be rejected as too long: that message is only
      reachable through a long `defaultName`. */
  lemma TypedNameNeverTooLong(value: string)
    ensures ValidateName(TypedText(value)) != Rejected(AreaNameTooLong)
  {
    var t := TypedText(value);
    assert |Trim(t)| <= |TrimStart(t)| <= |t|;
  }

  /** Exactly 100 characters after trimming is accepted. */
  lemma HundredCharactersAccepted(name: string)
    requires |Trim(name)| == MaxNameLength
    ensures ValidateName(name) == Accepted(Trim(name))
  {
    TrimEmptyIffAllSpace(name);
  }

  datatype DialogEvent = Saved(name: string) | Cancelled

  predicate ValidEvents(events: seq<DialogEvent>) {
    forall i :: 0 <= i < |events| ==> events[i].Saved? ==> WellFormedName(events[i].name)
  }

  lemma ValidEventsAppend(events: seq<DialogEvent>, e: DialogEvent)
    requires ValidEvents(events)
    requires e.Saved? ==> WellFormedName(e.name)
    ensures ValidEvents(events + [e])
  {
    forall i | 0 <= i < |events + [e]|
      ensures (events + [e])[i].Saved? ==> WellFormedName((events + [e])[i].name)
    {
      if i == |events| {
        assert (events + [e])[i] == e;
      } else {
        assert (events + [e])[i] == events[i];
      }
    }
  }

  /** What an open dialog shows. */
  datatype DialogView = DialogView(
    name: string,
    error: string,
    characterCount: nat,
    saveEnabled: bool)

  class Dialog {
    var isOpen: bool
    var name: string
    var error: string
    /** The `onSave` / `onCancel` invocations, oldest first. */
    var events: seq<DialogEvent>

    predicate Valid()
      reads this
    {
      ValidEvents(events)
    }

    constructor(open: bool, defaultName: string)
      ensures Valid()
      ensures isOpen == open && name == defaultName && error == "" && events == []
    {
      isOpen := open;
      name := defaultName;
      error := "";
      events := [];
    }

    /** `if (!isOpen) return null`, otherwise the rendered fields. */
    function View(): (v: Option<DialogView>)
      reads this
      ensures v.None? <==> !isOpen
      ensures v.Some? ==> v.value.name == name && v.value.error == error
      ensures v.Some? ==> v.value.characterCount == |name|
      ensures v.Some? ==> (v.value.saveEnabled <==> !AllSpace(name))
    {
      TrimEmptyIffAllSpace(name);
      if !isOpen then None else Some(DialogView(name, error, |name|, SaveEnabled(name)))
    }

    /** The parent re-renders the dialog with a new `isOpen`; the typed
        name and the error survive. */
    method SetOpen(open: bool)
      requires Valid()
      modifies this
      ensures Valid()
      ensures isOpen == open && name == old(name) && error == old(error) && events == old(events)
    {
      isOpen := open;
    }

    /** `handleSave` */
    method HandleSave()
      requires Valid()
      modifies this`name, this`error, this`events
      ensures Valid()
      ensures ValidateName(old(name)).Accepted? ==>
                events == old(events) + [Saved(Trim(old(name)))] && name == "" && error == ""
      ensures ValidateName(old(name)).Rejected? ==>
                events == old(events) && name == old(name) && error == ValidateName(old(name)).message
    {
      match ValidateName(name)
      case Rejected(message) =>
        error := message;
      case Accepted(trimmed) =>
        ValidEventsAppend(events, Saved(trimmed));
        events := events + [Saved(trimmed)];
        name := "";
        error := "";
    }

    /** `handleCancel` */
    method HandleCancel()
      requires Valid()
      modifies this
      ensures Valid() && isOpen == old(isOpen)
      ensures name == "" && error == "" && events == old(events) + [Cancelled]
    {
      ValidEventsAppend(events, Cancelled);
      name := "";
      error := "";
      events := events + [Cancelled];
    }

    /** `handleKeyPress`: Enter saves, Escape cancels, other keys do nothing. */
    method HandleKeyPress(key: string)
      requires Valid()
      modifies this
      ensures Valid() && isOpen == old(isOpen)
      ensures key == "Enter" && ValidateName(old(name)).Accepted? ==>
                events == old(events) + [Saved(Trim(old(name)))] && name == "" && error == ""
      ensures key == "Enter" && ValidateName(old(name)).Rejected? ==>
                events == old(events) && name == old(name) && error == ValidateName(old(name)).message
      ensures key == "Escape" ==> name == "" && error == "" && events == old(events) + [Cancelled]
      ensures key != "Enter" && key != "Escape" ==>
                name == old(name) && error == old(error) && events == old(events)
    {
      if key == "Enter" {
        HandleSave();
      } else if key == "Escape" {
        HandleCancel();
      }
    }

    /** The input's `onChange`: the (length-limited) text replaces the name
        and any error is cleared. */
    method OnChange(value: string)
      requires Valid()
      modifies this
      ensures Valid() && isOpen == old(isOpen)
      ensures name == TypedText(value) && error == "" && events == old(events)
    {
      name := TypedText(value);
      if error != "" {
        error := "";
      }
    }
  }
}
