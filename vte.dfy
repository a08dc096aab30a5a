/** The part of the terminal widget the key handlers observe and change:
    its font scale, its selection, the clipboard it copies to, and the text
    it has pasted into the child. Both handlers in src/ui/terminal.rs and
    src/ui/window.rs act on this state. */
module Vte {
  import opened Wrappers

  /** The modifier state a key event reports (`gdk::ModifierType`): the
      modifier keys and the mouse buttons held at the time. */
  datatype Modifier =
    | Shift | Lock | Control | Alt | Super | Hyper | Meta
    | Button1 | Button2 | Button3 | Button4 | Button5

  /** `glib::Propagation`: `Stop` consumes the event. */
  datatype Propagation = Proceed | Stop

  datatype Snapshot = Snapshot(fontScale: real, selection: Option<string>, clipboard: string, pasted: seq<string>)

  /** What a key handler asks of the terminal. */
  datatype Action =
    | PasteAndUnselect
    | CopyAndUnselect
    | SetFontScale(scale: real)
    | Ignore

  /** The state after the terminal carries out `a`. */
  function Perform(s: Snapshot, a: Action): Snapshot {
    match a
    case PasteAndUnselect => s.(pasted := s.pasted + [s.clipboard], selection := None)
    case CopyAndUnselect => s.(clipboard := s.selection.GetOr(s.clipboard), selection := None)
    case SetFontScale(scale) => s.(fontScale := scale)
    case Ignore => s
  }

  /** Every action but `Ignore` consumes the event. */
  function PropagationOf(a: Action): Propagation {
    if a == Ignore then Proceed else Stop
  }

  /** The name of the pressed key, `key.name().unwrap_or_default()`. */
  function KeyName(key: Option<string>): string {
    key.GetOr("")
  }

  class Terminal {
    var fontScale: real
    var selection: Option<string>
    var clipboard: string
    var pasted: seq<string>

    constructor ()
      ensures Snap() == Snapshot(1.0, None, "", [])
    {
      fontScale := 1.0;
      selection := None;
      clipboard := "";
      pasted := [];
    }

    function Snap(): Snapshot
      reads this
    {
      Snapshot(fontScale, selection, clipboard, pasted)
    }

    predicate HasSelection()
      reads this
    {
      selection.Some?
    }

    /** `emit_paste_clipboard`: the clipboard text goes to the child. */
    method EmitPasteClipboard()
      modifies this
      ensures Snap() == old(Snap()).(pasted := old(pasted) + [old(clipboard)])
    {
      pasted := pasted + [clipboard];
    }

    /** `emit_copy_clipboard`: the selected text, if any, replaces the clipboard. */
    method EmitCopyClipboard()
      modifies this
      ensures Snap() == old(Snap()).(clipboard := old(selection).GetOr(old(clipboard)))
    {
      if selection.Some? {
        clipboard := selection.value;
      }
    }

    method UnselectAll()
      modifies this
      ensures Snap() == old(Snap()).(selection := None)
    {
      selection := None;
    }

    method SetFontScale(scale: real)
      modifies this
      ensures Snap() == old(Snap()).(fontScale := scale)
    {
      fontScale := scale;
    }
  }
}
