/** The copy-and-paste key handler of the main window (src/ui/window.rs):
    it acts only when the modifiers are exactly Control and Shift, and
    matches the lower-cased key name against `v` and `c`. */
module WindowShortcuts {
  import opened Wrappers
  import opened Text
  import opened Vte

  /** `CONTROL_MASK.union(SHIFT_MASK)`. */
  const ShortcutMask: set<Modifier> := {Control, Shift}

  /** The handler's decision. The source tests that the symmetric difference
      of the modifiers and the mask is empty, i.e. that they are equal. */
  function Dispatch(name: string, modifiers: set<Modifier>, hasSelection: bool): Action {
    if modifiers != ShortcutMask then Ignore
    else if Lower(name) == "v" then PasteAndUnselect
    else if Lower(name) == "c" && hasSelection then CopyAndUnselect
    else Ignore
  }

  /** The handler closure as the source runs it on the terminal. */
  method KeyPressed(terminal: Terminal, key: Option<string>, modifiers: set<Modifier>) returns (p: Propagation)
    modifies terminal
    ensures var a := Dispatch(KeyName(key), modifiers, old(terminal.HasSelection()));
      terminal.Snap() == Perform(old(terminal.Snap()), a) && p == PropagationOf(a)
  {
    if (modifiers - ShortcutMask) + (ShortcutMask - modifiers) != {} {
      return Proceed;
    }
    var name := Lower(KeyName(key));
    if name == "v" {
      terminal.EmitPasteClipboard();
      terminal.UnselectAll();
      return Stop;
    } else if name == "c" && terminal.HasSelection() {
      terminal.EmitCopyClipboard();
      terminal.UnselectAll();
      return Stop;
    }
    return Proceed;
  }

  /** Any modifier set other than exactly {Control, Shift} lets the event
      through: Control alone, or Control, Shift and Alt, do nothing. */
  lemma OnlyExactMask(name: string, modifiers: set<Modifier>, hasSelection: bool)
    requires modifiers != ShortcutMask
    ensures Dispatch(name, modifiers, hasSelection) == Ignore
  {
  }

  /** A held mouse button is part of the modifier state too, so
      Control+Shift with the first button held matches no shortcut. */
  lemma HeldMouseButtonBlocksShortcut(s: Snapshot, name: string)
    ensures Dispatch(name, {Control, Shift, Button1}, s.selection.Some?) == Ignore
    ensures Perform(s, Dispatch(name, {Control, Shift, Button1}, s.selection.Some?)) == s
  {
    assert Button1 in {Control, Shift, Button1} && Button1 !in ShortcutMask;
  }

  /** The key name is lower-cased before matching, so its case never matters. */
  lemma CaseInsensitive(name: string, modifiers: set<Modifier>, hasSelection: bool)
    ensures Dispatch(name, modifiers, hasSelection) == Dispatch(Lower(name), modifiers, hasSelection)
  {
    LowerIdempotent(name);
  }

  /** Control+Shift+V pastes, whether the key arrives as `V` or `v`. */
  lemma PasteEitherCase(s: Snapshot)
    ensures Dispatch("V", ShortcutMask, s.selection.Some?) == PasteAndUnselect
    ensures Dispatch("v", ShortcutMask, s.selection.Some?) == PasteAndUnselect
    ensures Perform(s, PasteAndUnselect) == s.(pasted := s.pasted + [s.clipboard], selection := None)
  {
    assert Lower("V") == "v";
    assert Lower("v") == "v";
  }

  /** Control+Shift+C copies only a selection; with none it passes through. */
  lemma CopyNeedsSelection(name: string, hasSelection: bool)
    requires Lower(name) == "c"
    ensures Dispatch(name, ShortcutMask, hasSelection) == (if hasSelection then CopyAndUnselect else Ignore)
  {
  }

  /** Every other key passes through with no effect. */
  lemma OtherKeysIgnored(s: Snapshot, name: string, modifiers: set<Modifier>)
    requires Lower(name) != "v" && Lower(name) != "c"
    ensures Dispatch(name, modifiers, s.selection.Some?) == Ignore
    ensures Perform(s, Dispatch(name, modifiers, s.selection.Some?)) == s
  {
  }
}
