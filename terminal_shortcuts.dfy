/** The key-press handler of the terminal widget (src/ui/terminal.rs):
    with Control held, `V` pastes, `C` copies a selection, `plus`/`equal`
    and `minus`/`underscore` step the font scale by 0.1 within [0.1, 10.0],
    and `0` resets it. The scale is a real number: floating-point rounding
    is not modelled. */
module TerminalShortcuts {
  import opened Wrappers
  import opened Vte

  const MinFontScale: real := 0.1
  const MaxFontScale: real := 10.0
  const FontScaleStep: real := 0.1

  /** `10.0_f64.min(scale + 0.1)`. */
  function ScaleUp(scale: real): (r: real)
    ensures r <= MaxFontScale && r <= scale + FontScaleStep
    ensures r == MaxFontScale || r == scale + FontScaleStep
  {
    if MaxFontScale < scale + FontScaleStep then MaxFontScale else scale + FontScaleStep
  }

  /** `0.1_f64.max(scale - 0.1)`. */
  function ScaleDown(scale: real): (r: real)
    ensures r >= MinFontScale && r >= scale - FontScaleStep
    ensures r == MinFontScale || r == scale - FontScaleStep
  {
    if MinFontScale > scale - FontScaleStep then MinFontScale else scale - FontScaleStep
  }

  /** The handler's decision for a key name, the modifiers held, whether the
      terminal has a selection and its current scale. The modifier test is
      an intersection with Control, so further modifiers do not matter;
      names are compared case-sensitively. */
  function Dispatch(name: string, modifiers: set<Modifier>, hasSelection: bool, scale: real): Action {
    if Control !in modifiers then Ignore
    else if name == "V" then PasteAndUnselect
    else if name == "C" && hasSelection then CopyAndUnselect
    else if name == "plus" || name == "equal" then SetFontScale(ScaleUp(scale))
    else if name == "minus" || name == "underscore" then SetFontScale(ScaleDown(scale))
    else if name == "0" then SetFontScale(1.0)
    else Ignore
  }

  /** One key press on a terminal in state `s`. */
  function Press(s: Snapshot, name: string, modifiers: set<Modifier>): Snapshot {
    Perform(s, Dispatch(name, modifiers, s.selection.Some?, s.fontScale))
  }

  /** The same key pressed `n` times. */
  function PressTimes(s: Snapshot, name: string, modifiers: set<Modifier>, n: nat): Snapshot
    decreases n
  {
    if n == 0 then s else PressTimes(Press(s, name, modifiers), name, modifiers, n - 1)
  }

  /** The handler closure as the source runs it on the terminal. */
  method KeyPressed(terminal: Terminal, key: Option<string>, modifiers: set<Modifier>) returns (p: Propagation)
    modifies terminal
    ensures var a := Dispatch(KeyName(key), modifiers, old(terminal.HasSelection()), old(terminal.fontScale));
      terminal.Snap() == Perform(old(terminal.Snap()), a) && p == PropagationOf(a)
  {
    if Control !in modifiers {
      return Proceed;
    }
    var name := KeyName(key);
    if name == "V" {
      terminal.EmitPasteClipboard();
      terminal.UnselectAll();
      return Stop;
    } else if name == "C" && terminal.HasSelection() {
      terminal.EmitCopyClipboard();
      terminal.UnselectAll();
      return Stop;
    } else if name == "plus" || name == "equal" {
      terminal.SetFontScale(ScaleUp(terminal.fontScale));
      return Stop;
    } else if name == "minus" || name == "underscore" {
      terminal.SetFontScale(ScaleDown(terminal.fontScale));
      return Stop;
    } else if name == "0" {
      terminal.SetFontScale(1.0);
      return Stop;
    }
    return Proceed;
  }

  /** Without Control, an event passes through and changes nothing. */
  lemma WithoutControlNothingHappens(s: Snapshot, name: string, modifiers: set<Modifier>)
    requires Control !in modifiers
    ensures Dispatch(name, modifiers, s.selection.Some?, s.fontScale) == Ignore
    ensures Press(s, name, modifiers) == s
  {
  }

  /** Extra modifiers held alongside Control change nothing. */
  lemma ExtraModifiersIrrelevant(name: string, modifiers: set<Modifier>, extra: set<Modifier>, hasSelection: bool, scale: real)
    requires Control in modifiers
    ensures Dispatch(name, modifiers + extra, hasSelection, scale) == Dispatch(name, modifiers, hasSelection, scale)
  {
  }

  /** Control+V pastes the clipboard, drops the selection and consumes the event. */
  lemma PasteShortcut(s: Snapshot, modifiers: set<Modifier>)
    requires Control in modifiers
    ensures Press(s, "V", modifiers) == s.(pasted := s.pasted + [s.clipboard], selection := None)
    ensures PropagationOf(Dispatch("V", modifiers, s.selection.Some?, s.fontScale)) == Stop
  {
  }

  /** Control+C copies only a selection; with none the event passes through
      unconsumed and nothing changes. */
  lemma CopyShortcut(s: Snapshot, modifiers: set<Modifier>)
    requires Control in modifiers
    ensures s.selection.Some? ==> Press(s, "C", modifiers) == s.(clipboard := s.selection.value, selection := None)
    ensures s.selection.None? ==> Press(s, "C", modifiers) == s
    ensures PropagationOf(Dispatch("C", modifiers, s.selection.Some?, s.fontScale)) == Stop <==> s.selection.Some?
  {
  }

  /** Names are matched as written: lower-case `v` and `c` are not shortcuts here. */
  lemma CaseSensitive(modifiers: set<Modifier>, hasSelection: bool, scale: real)
    ensures Dispatch("v", modifiers, hasSelection, scale) == Ignore
    ensures Dispatch("c", modifiers, hasSelection, scale) == Ignore
  {
  }

  /** Any key that is not one of the shortcuts leaves the terminal as it was. */
  lemma OtherKeysIgnored(s: Snapshot, name: string, modifiers: set<Modifier>)
    requires name !in {"V", "C", "plus", "equal", "minus", "underscore", "0"}
    ensures Press(s, name, modifiers) == s
    ensures Dispatch(name, modifiers, s.selection.Some?, s.fontScale) == Ignore
  {
  }

  /** `0` sets the scale to exactly 1.0 whatever it was, touching nothing else. */
  lemma ResetIsExact(s: Snapshot, modifiers: set<Modifier>)
    requires Control in modifiers
    ensures Press(s, "0", modifiers) == s.(fontScale := 1.0)
  {
  }

  /** A scale within [0.1, 10.0] stays within it, whatever key is pressed. */
  lemma ScaleStaysInRange(s: Snapshot, name: string, modifiers: set<Modifier>)
    requires MinFontScale <= s.fontScale <= MaxFontScale
    ensures MinFontScale <= Press(s, name, modifiers).fontScale <= MaxFontScale
  {
  }

  /** Pressing Control+plus enough times reaches 10.0 and stays there:
      from 9.95 a single press already gives 10.0. */
  lemma {:induction false} RepeatedIncreaseReachesMax(s: Snapshot, modifiers: set<Modifier>, n: nat)
    requires Control in modifiers
    requires n >= 1 && s.fontScale + (n as real) * FontScaleStep >= MaxFontScale
    ensures PressTimes(s, "plus", modifiers, n).fontScale == MaxFontScale
    decreases n
  {
    var next := Press(s, "plus", modifiers);
    assert next.fontScale == ScaleUp(s.fontScale);
    if n > 1 {
      RepeatedIncreaseReachesMax(next, modifiers, n - 1);
    }
  }

  /** Pressing Control+minus enough times reaches 0.1 and stays there:
      from 0.15 a single press already gives 0.1. */
  lemma {:induction false} RepeatedDecreaseReachesMin(s: Snapshot, modifiers: set<Modifier>, n: nat)
    requires Control in modifiers
    requires n >= 1 && s.fontScale - (n as real) * FontScaleStep <= MinFontScale
    ensures PressTimes(s, "minus", modifiers, n).fontScale == MinFontScale
    decreases n
  {
    var next := Press(s, "minus", modifiers);
    assert next.fontScale == ScaleDown(s.fontScale);
    if n > 1 {
      RepeatedDecreaseReachesMin(next, modifiers, n - 1);
    }
  }
}
