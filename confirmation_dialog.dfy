/** The confirmation dialog: rendered only while open, with default button
    labels, destructive styling on request, and Enter / Escape mapped to
    the confirm / cancel callbacks. */
module ConfirmationDialog {
  import opened Wrappers

  /** `UI_STRINGS.BUTTONS.CONFIRM` and `UI_STRINGS.BUTTONS.CANCEL` */
  const ConfirmLabel: string := "Confirm"
  const CancelLabel: string := "Cancel"

  datatype Icon = WarningIcon | InfoIcon
  datatype ButtonColour = Red | Blue

  /** The component's props; omitted optional props are `None`. */
  datatype Props = Props(
    isOpen: bool,
    title: string,
    message: string,
    confirmText: Option<string>,
    cancelText: Option<string>,
    isDestructive: Option<bool>)

  datatype View = View(
    icon: Icon,
    title: string,
    message: string,
    cancelLabel: string,
    confirmLabel: string,
    confirmColour: ButtonColour)

  datatype Callback = OnConfirm | OnCancel

  predicate Destructive(p: Props) {
    p.isDestructive.GetOr(false)
  }

  /** What the dialog renders; a closed dialog renders nothing. */
  function Render(p: Props): (v: Option<View>)
    ensures v.None? <==> !p.isOpen
    ensures v.Some? ==> v.value.title == p.title && v.value.message == p.message
    ensures v.Some? ==> v.value.confirmLabel == (if p.confirmText.Some? then p.confirmText.value else ConfirmLabel)
    ensures v.Some? ==> v.value.cancelLabel == (if p.cancelText.Some? then p.cancelText.value else CancelLabel)
    ensures v.Some? ==> (v.value.icon == WarningIcon <==> Destructive(p))
    ensures v.Some? ==> (v.value.confirmColour == Red <==> Destructive(p))
  {
    if !p.isOpen then None
    else
      var destructive := Destructive(p);
      Some(View(
        if destructive then WarningIcon else InfoIcon,
        p.title,
        p.message,
        p.cancelText.GetOr(CancelLabel),
        p.confirmText.GetOr(ConfirmLabel),
        if destructive then Red else Blue))
  }

  /** `handleKeyPress`: the callback a key press invokes, if any. */
  function HandleKeyPress(key: string): (r: Option<Callback>)
    ensures r == Some(OnConfirm) <==> key == "Enter"
    ensures r == Some(OnCancel) <==> key == "Escape"
    ensures r == None <==> key != "Enter" && key != "Escape"
  {
    if key == "Enter" then Some(OnConfirm)
    else if key == "Escape" then Some(OnCancel)
    else None
  }

  /** A key press reaches the handler only while the dialog is rendered. */
  function KeyPress(p: Props, key: string): (r: Option<Callback>)
    ensures !p.isOpen ==> r == None
    ensures p.isOpen ==> r == HandleKeyPress(key)
  {
    if Render(p).None? then None else HandleKeyPress(key)
  }

  /** Omitting both labels gives the default labels. */
  lemma DefaultLabels(title: string, message: string, isDestructive: Option<bool>)
    ensures var v := Render(Props(true, title, message, None, None, isDestructive));
      v.Some? && v.value.confirmLabel == ConfirmLabel && v.value.cancelLabel == CancelLabel
  {
  }
}
