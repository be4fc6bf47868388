/** The global key-down handler (`BlurApp.handle_event`): from the event's
    modifier bitmask and characters, pick at most one cleanup to start. */
module Hotkey {
  import opened Wrappers
  import PyText

  /** Which cleanup a request runs: the selected text (written back in place)
      or the clipboard content (copied back to the clipboard). */
  datatype Mode = Selection | Clipboard

  /** AppKit's `NSCommandKeyMask` (bit 20 of the modifier flags). */
  const CommandKeyMask: bv64 := 0x10_0000
  /** AppKit's `NSAlternateKeyMask`, the Option key (bit 19). */
  const AlternateKeyMask: bv64 := 0x8_0000
  /** AppKit's `NSShiftKeyMask` (bit 17), named only to show that the
      Command+Shift+C label of the menu is not bound to a key. */
  const ShiftKeyMask: bv64 := 0x2_0000

  /** Both the Command and the Option bit are set. */
  predicate CommandOption(flags: bv64)
  {
    flags & CommandKeyMask != 0 && flags & AlternateKeyMask != 0
  }

  /** `handle_event`. `characters` is None when the event has no characters;
      then `characters.lower()` raises, and the handler swallows the
      exception, so no action is taken. The `elif` makes at most one branch
      fire. */
  function Dispatch(flags: bv64, characters: Option<string>): (r: Option<Mode>)
    ensures r.Some? ==> CommandOption(flags) && characters.Some? && |characters.value| == 1
  {
    if !CommandOption(flags) then None
    else match characters
      case None => None
      case Some(chars) =>
        if PyText.Lower(chars) == "e" then Some(Selection)
        else if PyText.Lower(chars) == "c" then Some(Clipboard)
        else None
  }

  /** Command+Option+E in either case, and nothing else, starts the cleanup
      of the selection; Command+Option+C in either case, and nothing else,
      that of the clipboard; every other event does nothing. */
  lemma DispatchChords(flags: bv64, characters: Option<string>)
    ensures Dispatch(flags, characters) == Some(Selection)
        <==> CommandOption(flags) && (characters == Some("e") || characters == Some("E"))
    ensures Dispatch(flags, characters) == Some(Clipboard)
        <==> CommandOption(flags) && (characters == Some("c") || characters == Some("C"))
    ensures Dispatch(flags, characters) == None
        <==> !CommandOption(flags) || characters !in {Some("e"), Some("E"), Some("c"), Some("C")}
  {
    if characters.Some? {
      PyText.LowerIsLetter(characters.value, 'e');
      PyText.LowerIsLetter(characters.value, 'c');
    }
  }

  /** Without both the Command and the Option bit no character does
      anything, whatever it is. */
  lemma MissingModifierDoesNothing(flags: bv64, characters: Option<string>)
    requires flags & CommandKeyMask == 0 || flags & AlternateKeyMask == 0
    ensures Dispatch(flags, characters) == None
  {
  }

  /** The menu advertises Command+Shift+C for displaying the clipboard, but
      the handler does not bind it. */
  lemma CommandShiftCUnbound(characters: Option<string>)
    requires characters == Some("c") || characters == Some("C")
    ensures Dispatch(CommandKeyMask | ShiftKeyMask, characters) == None
  {
  }
}
