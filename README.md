# Blur: a verified model of the request pipeline

Blur is a macOS menu-bar utility. It takes the text selected in the focused
UI element, or the clipboard content, and sends it to a remote completion
service. It then writes the improved text back: into the selection through
the Accessibility API, or onto the clipboard. This project models the
decision logic of `blur.py` in Dafny and proves what that logic promises.

- `wrappers.dfy` (module `Wrappers`): `Option`, and `Call<T>` for the
  outcome of a call the model does not contain. Such a call either returns a
  value or raises an exception with a message.
- `pytext.dfy` (module `PyText`): Python's `str.strip()`, `str.isdigit()`
  and `str.lower()`. `Trimmed` is an independent definition of what
  stripping leaves. `Strip`'s own contract says that its result meets it,
  and `StripUnique` proves the converse: every trimmed range equals what
  `Strip` returns, so the definition determines the result.
- `hotkey.dfy` (module `Hotkey`): `handle_event` as the pure function
  `Dispatch` from the modifier bitmask and the event's characters to at most
  one cleanup `Mode`.
- `accessibility.dfy` (module `Accessibility`): `get_selected_text` and
  `replace_text`. The Accessibility lookups are inputs of type `Call`.
- `app.dfy` (module `Blur`): the notification preview, and the single-flight
  gate on `processing`. Each entry point is a pure transition on a `State`
  value. The class `BlurApp` holds the same fields and updates them in
  place, and each of its methods is proved to perform its transition. The
  daemon thread is the pair of methods `Begin` (its first statement, the
  "Processing..." title) and `Complete` (the rest, through the `finally`
  block). It is called after the request that started it. The state records
  the clipboard, the notifications shown (subtitle and message; the title is
  always "Blur"), the texts passed to the Accessibility set call, and the
  outstanding worker. The clipboard is the system's: besides the worker's
  copy, a copy made in another application changes it (`CopiedElsewhere`,
  method `UserCopy`), and `pyperclip.paste()` reads it.

Three behaviours of the code that the model keeps:
- A selection that is only whitespace is refused, because the code strips
  it before testing it.
- A failed in-place replacement is not an exception. The code reports it
  with its own "Could not process text" notice. In the model, only an
  exception from the remote call or from the clipboard copy produces a
  notice with the exception's message; the code's handler also catches
  exceptions the model does not raise (see "## Left out").
- The "Display Clipboard (⌘+⇧+C)" menu label names a chord that
  `handle_event` never binds. `Hotkey.CommandShiftCUnbound` states this.

## Model

| member | source | states |
|---|---|---|
| PyText.LeadingSpaces | blur.py:101 | the number of characters `strip()` removes from the front is within the string, all of them are whitespace, and the character after them is not |
| PyText.TrailingSpaces | blur.py:101 | the number of characters `strip()` removes from the back is within the string, all of them are whitespace, and the character before them is not |
| PyText.Strip | blur.py:101 | `strip()` returns the trimmed part of the input that starts after its leading whitespace: only whitespace lies outside it and it has no whitespace at either end |
| PyText.StripUnique | blur.py:101 | any such trimmed part equals what `strip()` returns, so the characterisation determines the result |
| PyText.StripIdempotent | blur.py:101 | stripping an already stripped string changes nothing |
| PyText.LowerIsLetter | blur.py:65 | a string lowercases to a given lower-case letter exactly when it is that letter in either case |
| Hotkey.Dispatch | blur.py:56-74 | an action is picked only with both the Command and the Option bit and a one-character string; `DispatchChords` states exactly which |
| Hotkey.DispatchChords | blur.py:56-74 | Command+Option with "e" or "E" starts the selection cleanup and nothing else does; with "c" or "C" it starts the clipboard cleanup and nothing else does; every other event, including one without characters, starts nothing |
| Hotkey.MissingModifierDoesNothing | blur.py:63-72 | without the Command bit or without the Option bit, no character starts anything |
| Hotkey.CommandShiftCUnbound | blur.py:44 | the Command+Shift+C chord shown on the menu starts nothing |
| Accessibility.FilterSelection | blur.py:100-105 | a returned selection is non-empty and not made of digits only |
| Accessibility.SelectedText | blur.py:76-112 | a selection is returned only when a focused element was found and its selected text was read and converted, and it is neither empty nor all digits; `SelectedTextSpec` gives the if-and-only-if |
| Accessibility.SelectedTextSpec | blur.py:76-112 | a selection is returned exactly when the focused element is found, its selected text is read and converted, and the stripped text is neither empty nor all digits; it is that stripped text; a missing element, a missing value or any exception yields None |
| Accessibility.SelectedTextShape | blur.py:100-103 | a returned selection is a contiguous part of the raw value, has no whitespace at either end, and contains a character that is not a digit |
| Accessibility.SelectionKept | blur.py:100-105 | a selection with no whitespace at either end and a character other than a digit is returned exactly as it was read |
| Accessibility.ReplaceText | blur.py:114-134 | the replacement succeeds exactly when a focused element is found and the set call returns status 0; a missing element or an exception yields False |
| Blur.Preview | blur.py:168 | text of at most 100 characters is shown unchanged; longer text is shown as its first 100 characters followed by "...", 103 characters in all |
| Blur.CleanedSubtitles | blur.py:167 | the success notice reads "Text cleaned and replaced" in selection mode and "Text cleaned and copied to clipboard" in clipboard mode, with the reply's preview as its message |
| Blur.Initial | blur.py:36-50 | the application starts idle, consistent and with no notification shown |
| Blur.RequestSelection | blur.py:199-227 | a selection request changes neither the menu, the clipboard nor the writes; it either leaves the worker as it was or, when idle, sets the flag and starts a selection worker on the text `get_selected_text` returned; a notice is added exactly when no worker is started; `BusyRequestRejected` and `IdleSelectionRequest` give both cases in full |
| Blur.RequestClipboard | blur.py:230-251 | a clipboard request changes neither the menu, the clipboard nor the writes; it either leaves the worker as it was or, when idle, sets the flag and starts a clipboard worker on the clipboard text; a notice is added exactly when no worker is started; `BusyRequestRejected` and `IdleClipboardRequest` give both cases in full |
| Blur.ShowClipboard | blur.py:254-275 | displaying the clipboard adds exactly one notice and changes nothing else, busy or not |
| Blur.ShowClipboardPreview | blur.py:256-275 | the notice shown is the clipboard's preview (the text itself up to 100 characters, otherwise its first 100 followed by "...", 103 in all) or, for an empty clipboard, "No text found in clipboard!" |
| Blur.CopyThenRequest | blur.py:240-251 | when idle, copying non-empty text elsewhere and pressing Command+Option+C starts one clipboard worker on exactly that text |
| Blur.KeyDownChords | blur.py:56-74 | with Command and Option, "e" or "E" runs exactly the selection cleanup's transition and "c" or "C" exactly the clipboard cleanup's; every other event leaves the state unchanged |
| Blur.KeyDown | blur.py:56-74 | a key press never changes the menu, the clipboard or the writes, and changes nothing at all unless it matches a chord |
| Blur.BeginWork | blur.py:140-141 | starting the worker sets the running cleanup's menu item to "Processing..." and changes nothing else |
| Blur.Deliver | blur.py:155-182 | delivering a reply adds exactly one notice, leaves the flag, menu and worker alone, and changes the clipboard only in clipboard mode (to the reply) and the writes only in selection mode (by the reply) |
| Blur.FinishWork | blur.py:136-196 | a finished worker leaves the flag clear and no worker outstanding, adds exactly one notice, and changes the clipboard or the writes only by delivering the reply in its own mode; the lemmas below give each outcome |
| Blur.BusyRequestRejected | blur.py:199-209 | while busy, both cleanup requests only add the "Please wait" notice; the flag, the worker in flight and everything else are unchanged |
| Blur.IdleSelectionRequest | blur.py:211-227 | when idle, a selection request sets the flag and starts exactly one selection worker on the selected text if there is a selection, and otherwise stays idle with "No text selected!" |
| Blur.IdleClipboardRequest | blur.py:240-251 | when idle, a clipboard request sets the flag and starts exactly one clipboard worker on the clipboard content if it is not empty, and otherwise stays idle with "No text in clipboard!" |
| Blur.FinishRestoresIdle | blur.py:193-196 | however the worker ends, the flag is clear, no worker is outstanding, and every menu item shows its own label |
| Blur.ConsistentPreserved | blur.py:136-275 | every operation keeps the flag set exactly while a worker is outstanding, and keeps every item on its label except the running item's "Processing..." |
| Blur.ClipboardWriteBack | blur.py:158-169 | in clipboard mode, after a reply and a successful copy the clipboard holds exactly the reply and the notice previews it |
| Blur.SelectionWriteBack | blur.py:155-182 | in selection mode with a focused element, the reply goes to the set call, and the success notice follows exactly when that call returns 0, otherwise "Could not process text" |
| Blur.SelectionWithoutElement | blur.py:155-182 | in selection mode without a focused element, nothing is written and "Could not process text" is shown |
| Blur.FailureReported | blur.py:184-189 | an exception from the remote completion is shown with its message and nothing is delivered |
| Blur.CopyFailureReported | blur.py:158-189 | an exception from the clipboard copy is shown with its message and the clipboard keeps its content |
| Blur.CycleReturnsToIdle | blur.py:225-251 | an accepted clipboard request, once run and finished with any outcome, leaves the menu as it was and lets the next non-empty request start a worker |
| Blur.BlurApp.constructor | blur.py:36-50 | the object starts in the initial state |
| Blur.BlurApp.CleanupSelection | blur.py:199-227 | the object's new state is the selection request's transition of its old state |
| Blur.BlurApp.CleanupClipboard | blur.py:230-251 | the object's new state is the clipboard request's transition of its old state |
| Blur.BlurApp.DisplayClipboard | blur.py:254-275 | a preview of the clipboard, or "No text found in clipboard!", is added to the notices, busy or not |
| Blur.BlurApp.UserCopy | blur.py:240 | the object's new state is the outside copy's transition of its old state |
| Blur.BlurApp.HandleEvent | blur.py:56-74 | the object's new state is `KeyDown` of its old state, which `KeyDownChords` proves is the selection cleanup for Command+Option+E, the clipboard cleanup for Command+Option+C, and the old state otherwise |
| Blur.BlurApp.Begin | blur.py:140-141 | the running cleanup's menu item shows "Processing..." |
| Blur.BlurApp.Complete | blur.py:136-196 | the object's new state is the worker's transition; the flag is clear and every item shows its label |
| Blur.HelloWorldScenario | blur.py:136-227 | selecting "helo wrld" with reply "Hello, world." writes "Hello, world." to the element, shows it in the success notice, and leaves the application idle |

## Left out

- The Accessibility calls (`AXUIElementCreateSystemWide`, `AXUIElementCopyAttributeValue`, `AXUIElementSetAttributeValue`) are foreign macOS calls. Their outcomes are inputs of type `Call`. The error codes returned beside the focused element and the selected text are ignored by the code, so they are not inputs.
- The remote completion call, its model name and its prompt are network I/O. The reply is an input: a string, or an exception with a message. A reply whose content is None is not modelled: in selection mode the code would then pass the text "None" to the set call (blur.py:129), and slicing None for the preview (blur.py:168) raises an exception that the handler at blur.py:184 reports.
- Exceptions raised by the notification call or the terminal panels inside the worker's `try` (blur.py:139-176) are caught by its handler at blur.py:184 and reported as an "Error" notice; the model's notification and console steps do not raise.
- `pyperclip.paste` is the `clipboard` field; `pyperclip.copy` is an input outcome, and on success it sets that field. An exception from `paste` is not modelled.
- `rumps` notifications are recorded as a list of notices. Menu construction, `quit_app`, `rumps.quit_application` and the `NSEvent` monitor registration are UI plumbing and are not modelled.
- `threading.Thread` and the non-atomic check-then-set of `processing` are concurrency. The worker is modelled as later sequential calls to `Begin` and `Complete`.
- `handle_event` swallows exceptions raised by the cleanup it calls; in the model those cleanups raise nothing.
- Console output, the debug preview of the selection at blur.py:224, the terminal panels, the `isatty` checks, `load_dotenv` and `main` are terminal and environment plumbing.
- PyText.IsDigitString: only ASCII digits count as digits, while Python's `isdigit()` also accepts other Unicode digits (for example superscripts). A selection made only of digits, at least one of them not ASCII (for example "1²"), is filtered by the program and kept by the model.
- PyText.Lower: only A to Z are lowercased. No other character lowercases to "e" or "c", so `Dispatch` is unaffected.
- PyText.IsSpace: the whitespace set is that of CPython's `str.isspace()`; later Unicode versions may change it.
