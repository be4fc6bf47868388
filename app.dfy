/** The request pipeline of the menu-bar application (`BlurApp`): the
    single-flight `processing` flag guarding `cleanup_selection` and
    `cleanup_clipboard`, the background worker `process_text_async` that
    delivers the improved text and always clears the flag, and the
    notification previews. Notifications, the clipboard and the values passed
    to the Accessibility set call are recorded in the state; the remote
    completion, the Accessibility lookups and the clipboard copy are given as
    the `Call` outcomes they produced. */
module Blur {
  import opened Wrappers
  import opened Hotkey
  import opened Accessibility

  // Menu item labels; the item key is also its normal title.
  const SelectionItem := "Clean Up Selection (\U{2318}+\U{2325}+E)"
  const ClipboardItem := "Clean Up Clipboard (\U{2318}+\U{2325}+C)"
  const DisplayItem := "Display Clipboard (\U{2318}+\U{21E7}+C)"
  const QuitItem := "Quit"
  const MenuItems: set<string> := {SelectionItem, ClipboardItem, DisplayItem, QuitItem}
  /** The title a cleanup item shows while its worker runs. */
  const ProcessingTitle := "Processing..."

  /** Number of characters a notification shows before the ellipsis. */
  const PreviewLength := 100

  /** The notification preview `text[:100] + ("..." if len(text) > 100 else "")`. */
  function Preview(text: string): (r: string)
    ensures |text| <= PreviewLength ==> r == text
    ensures |text| > PreviewLength ==> |r| == PreviewLength + 3 && r[..PreviewLength] == text[..PreviewLength] && r[PreviewLength..] == "..."
  {
    // Python's slice text[:100] stops at the end of a shorter string
    var shown := if |text| < PreviewLength then |text| else PreviewLength;
    text[..shown] + (if |text| > PreviewLength then "..." else "")
  }

  /** A notification; its title is always "Blur". */
  datatype Notice = Notice(subtitle: string, message: string)

  const StillProcessing := Notice("Please wait", "Still processing previous text...")
  const NoTextSelected := Notice("Error", "No text selected!")
  const NoClipboardText := Notice("Error", "No text in clipboard!")
  const NoClipboardToShow := Notice("Error", "No text found in clipboard!")
  const CouldNotProcess := Notice("Error", "Could not process text")

  /** The notification after a successful cleanup. */
  function Cleaned(mode: Mode, improved: string): Notice
  {
    Notice("Text cleaned and " + (if mode == Selection then "replaced" else "copied to clipboard"), Preview(improved))
  }

  /** The two subtitles of the success notice, spelled out. */
  lemma CleanedSubtitles(improved: string)
    ensures Cleaned(Selection, improved) == Notice("Text cleaned and replaced", Preview(improved))
    ensures Cleaned(Clipboard, improved) == Notice("Text cleaned and copied to clipboard", Preview(improved))
  {
    assert "Text cleaned and " + "replaced" == "Text cleaned and replaced";
    assert "Text cleaned and " + "copied to clipboard" == "Text cleaned and copied to clipboard";
  }

  /** A request handed to the background worker: the captured text and
      whether it came from the selection or the clipboard. */
  datatype Job = Job(text: string, mode: Mode)

  /** The menu item whose title the worker for `mode` changes. */
  function ItemFor(mode: Mode): string
  {
    if mode == Selection then SelectionItem else ClipboardItem
  }

  /** The application state: the busy flag, the menu titles by item, the
      clipboard, the notifications shown so far, the texts passed to the
      Accessibility set call so far, and the worker thread started and not
      yet finished, if any. */
  datatype State = State(
    processing: bool,
    menu: map<string, string>,
    clipboard: string,
    notices: seq<Notice>,
    writes: seq<string>,
    worker: Option<Job>)

  /** Every item shows its own label. */
  const InitialMenu: map<string, string> := map k | k in MenuItems :: k

  /** The flag is set exactly while a worker is outstanding, and every item
      shows its label except that the outstanding worker's item may show
      "Processing...". */
  ghost predicate Consistent(s: State)
  {
    && s.menu.Keys == MenuItems
    && (s.processing <==> s.worker.Some?)
    && forall k | k in s.menu ::
         s.menu[k] == k || (s.worker.Some? && k == ItemFor(s.worker.value.mode) && s.menu[k] == ProcessingTitle)
  }

  /** The state after `__init__`, with the clipboard holding `clipboard`. */
  function Initial(clipboard: string): (s: State)
    ensures Consistent(s) && !s.processing && s.notices == []
  {
    State(false, InitialMenu, clipboard, [], [], None)
  }

  /** `cleanup_selection`: refused with a notice while busy; refused with a
      notice when no text is selected; otherwise marks the application busy
      and starts one worker on the selected text. */
  function RequestSelection(s: State, focused: Call<Option<Element>>, selected: Call<Option<RawValue>>): (r: State)
    ensures r.menu == s.menu && r.clipboard == s.clipboard && r.writes == s.writes
    ensures r.worker == s.worker || (&& !s.processing && r.processing && r.worker.Some? && r.worker.value.mode == Selection
                                 && SelectedText(focused, selected) == Some(r.worker.value.text))
    ensures r.processing && !s.processing <==> r.notices == s.notices
  {
    if s.processing then s.(notices := s.notices + [StillProcessing])
    else
      var text := SelectedText(focused, selected);
      if text.None? || text.value == [] then s.(notices := s.notices + [NoTextSelected])
      else s.(processing := true, worker := Some(Job(text.value, Selection)))
  }

  /** `cleanup_clipboard`: the same gate, on the clipboard content. */
  function RequestClipboard(s: State): (r: State)
    ensures r.menu == s.menu && r.clipboard == s.clipboard && r.writes == s.writes
    ensures r.worker == s.worker || (!s.processing && r.processing && r.worker == Some(Job(s.clipboard, Clipboard)))
    ensures r.processing && !s.processing <==> r.notices == s.notices
  {
    if s.processing then s.(notices := s.notices + [StillProcessing])
    else if s.clipboard == [] then s.(notices := s.notices + [NoClipboardText])
    else s.(processing := true, worker := Some(Job(s.clipboard, Clipboard)))
  }

  /** `display_clipboard`: shows a preview of the clipboard, whether or not a
      request is in flight. */
  function ShowClipboard(s: State): (r: State)
    ensures r == s.(notices := r.notices)
    ensures |r.notices| == |s.notices| + 1 && r.notices[..|s.notices|] == s.notices
  {
    s.(notices := s.notices +
      [if s.clipboard != [] then Notice("Current clipboard content:", Preview(s.clipboard)) else NoClipboardToShow])
  }

  /** An event outside the application: the user copies `text` in another
      application, so `pyperclip.paste()` returns it from then on. The
      application itself notices nothing. */
  function CopiedElsewhere(s: State, text: string): (r: State)
    ensures r.clipboard == text
    ensures r.processing == s.processing && r.worker == s.worker && r.menu == s.menu
    ensures r.notices == s.notices && r.writes == s.writes
  {
    s.(clipboard := text)
  }

  /** `handle_event`: the chord's cleanup, or nothing. */
  function KeyDown(s: State, flags: bv64, characters: Option<string>,
                   focused: Call<Option<Element>>, selected: Call<Option<RawValue>>): (r: State)
    ensures r.menu == s.menu && r.clipboard == s.clipboard && r.writes == s.writes
    ensures r != s ==> Dispatch(flags, characters).Some?
  {
    match Dispatch(flags, characters)
    case None => s
    case Some(Selection) => RequestSelection(s, focused, selected)
    case Some(Clipboard) => RequestClipboard(s)
  }

  /** The first step of `process_text_async`: the item of the running
      cleanup shows "Processing...". */
  function BeginWork(s: State): (r: State)
    requires s.worker.Some?
    ensures r == s.(menu := r.menu)
    ensures r.menu.Keys == s.menu.Keys + {ItemFor(s.worker.value.mode)}
    ensures forall k | k in s.menu && k != ItemFor(s.worker.value.mode) :: r.menu[k] == s.menu[k]
    ensures r.menu[ItemFor(s.worker.value.mode)] == ProcessingTitle
  {
    s.(menu := s.menu[ItemFor(s.worker.value.mode) := ProcessingTitle])
  }

  /** The chords at the state level: with Command and Option, "e" or "E"
      runs the selection cleanup and "c" or "C" the clipboard cleanup; any
      other event leaves the state as it was. */
  lemma KeyDownChords(s: State, flags: bv64, characters: Option<string>,
                      focused: Call<Option<Element>>, selected: Call<Option<RawValue>>)
    ensures KeyDown(s, flags, characters, focused, selected)
         == if CommandOption(flags) && (characters == Some("e") || characters == Some("E")) then
              RequestSelection(s, focused, selected)
            else if CommandOption(flags) && (characters == Some("c") || characters == Some("C")) then
              RequestClipboard(s)
            else s
  {
    DispatchChords(flags, characters);
  }

  /** The success path of the worker: the improved text goes to the focused
      element (selection) or to the clipboard (clipboard), followed by a
      notice. */
  function Deliver(s: State, mode: Mode, improved: string,
                   focused: Call<Option<Element>>, status: Call<int>, copy: Call<()>): (r: State)
    ensures r.processing == s.processing && r.menu == s.menu && r.worker == s.worker
    ensures |r.notices| == |s.notices| + 1 && r.notices[..|s.notices|] == s.notices
    ensures r.clipboard == s.clipboard || (mode == Clipboard && r.clipboard == improved)
    ensures r.writes == s.writes || (mode == Selection && r.writes == s.writes + [improved])
  {
    match mode
    case Selection =>
      // the set call is made only when a focused element is found
      var attempted := if focused.Returned? && focused.value.Some? then s.writes + [improved] else s.writes;
      var ok := ReplaceText(focused, status);
      s.(writes := attempted, notices := s.notices + [if ok then Cleaned(Selection, improved) else CouldNotProcess])
    case Clipboard =>
      match copy
      case Raised(m) => s.(notices := s.notices + [Notice("Error", m)])
      case Returned(_) => s.(clipboard := improved, notices := s.notices + [Cleaned(Clipboard, improved)])
  }

  /** The rest of `process_text_async`: `reply` is the outcome of the remote
      completion. Whatever happens, the `finally` block restores the item's
      title and clears the busy flag. */
  function FinishWork(s: State, reply: Call<string>,
                      focused: Call<Option<Element>>, status: Call<int>, copy: Call<()>): (r: State)
    requires s.worker.Some?
    ensures !r.processing && r.worker == None
    ensures |r.notices| == |s.notices| + 1 && r.notices[..|s.notices|] == s.notices
    ensures r.clipboard == s.clipboard
         || (s.worker.value.mode == Clipboard && reply.Returned? && r.clipboard == reply.value)
    ensures r.writes == s.writes
         || (s.worker.value.mode == Selection && reply.Returned? && r.writes == s.writes + [reply.value])
  {
    var mode := s.worker.value.mode;
    var done := match reply
      case Raised(m) => s.(notices := s.notices + [Notice("Error", m)])
      case Returned(improved) => Deliver(s, mode, improved, focused, status, copy);
    done.(menu := done.menu[ItemFor(mode) := ItemFor(mode)], processing := false, worker := None)
  }

  /** While busy, a request only adds the "Please wait" notice: the flag,
      the worker in flight and everything else are untouched. */
  lemma BusyRequestRejected(s: State, focused: Call<Option<Element>>, selected: Call<Option<RawValue>>)
    requires s.processing
    ensures RequestSelection(s, focused, selected) == s.(notices := s.notices + [StillProcessing])
    ensures RequestClipboard(s) == s.(notices := s.notices + [StillProcessing])
  {
  }

  /** When idle, a selection request starts exactly one worker, in selection
      mode on the selected text, when text is selected; otherwise it leaves
      the application idle with the "No text selected!" notice. */
  lemma IdleSelectionRequest(s: State, focused: Call<Option<Element>>, selected: Call<Option<RawValue>>)
    requires Consistent(s) && !s.processing
    ensures var t := RequestSelection(s, focused, selected);
      && (t.processing <==> SelectedText(focused, selected).Some?)
      && t.worker == (if t.processing then Some(Job(SelectedText(focused, selected).value, Selection)) else None)
      && t.notices == s.notices + (if t.processing then [] else [NoTextSelected])
      && t.menu == s.menu && t.clipboard == s.clipboard && t.writes == s.writes
  {
  }

  /** When idle, a clipboard request starts exactly one worker, in clipboard
      mode on the clipboard content, when the clipboard is not empty;
      otherwise it leaves the application idle with the "No text in
      clipboard!" notice. */
  lemma IdleClipboardRequest(s: State)
    requires Consistent(s) && !s.processing
    ensures var t := RequestClipboard(s);
      && (t.processing <==> s.clipboard != [])
      && t.worker == (if t.processing then Some(Job(s.clipboard, Clipboard)) else None)
      && t.notices == s.notices + (if t.processing then [] else [NoClipboardText])
      && t.menu == s.menu && t.clipboard == s.clipboard && t.writes == s.writes
  {
  }

  /** `display_clipboard` shows the clipboard whether or not a request is in
      flight: a non-empty clipboard is announced with its preview, which is
      the clipboard text itself up to 100 characters and otherwise its first
      100 followed by "..."; an empty one with "No text found in
      clipboard!". */
  lemma ShowClipboardPreview(s: State)
    ensures var n := ShowClipboard(s).notices[|s.notices|];
      && (s.clipboard == [] ==> n == NoClipboardToShow)
      && (s.clipboard != [] ==> n.subtitle == "Current clipboard content:")
      && (s.clipboard != [] && |s.clipboard| <= PreviewLength ==> n.message == s.clipboard)
      && (|s.clipboard| > PreviewLength ==>
            && n.message[..PreviewLength] == s.clipboard[..PreviewLength]
            && n.message[PreviewLength..] == "..." && |n.message| == PreviewLength + 3)
  {
    var n := ShowClipboard(s).notices[|s.notices|];
    assert n == (if s.clipboard != [] then Notice("Current clipboard content:", Preview(s.clipboard)) else NoClipboardToShow);
  }

  /** Text the user copies elsewhere is what the next clipboard cleanup
      works on: when idle, copying non-empty text and pressing the chord
      starts one clipboard worker on exactly that text. */
  lemma CopyThenRequest(s: State, text: string, flags: bv64)
    requires Consistent(s) && !s.processing && text != []
    requires CommandOption(flags)
    ensures var t := KeyDown(CopiedElsewhere(s, text), flags, Some("c"), Raised(""), Raised(""));
      && t.processing && t.worker == Some(Job(text, Clipboard)) && t.notices == s.notices
  {
    DispatchChords(flags, Some("c"));
  }

  /** However the worker ends (reply or exception, write-back or not), the
      application is idle again and every item shows its label. */
  lemma {:induction false} FinishRestoresIdle(s: State, reply: Call<string>,
                                              focused: Call<Option<Element>>, status: Call<int>, copy: Call<()>)
    requires Consistent(s) && s.worker.Some?
    ensures var t := FinishWork(s, reply, focused, status, copy);
      !t.processing && t.worker == None && t.menu == InitialMenu
  {
    var t := FinishWork(s, reply, focused, status, copy);
    assert t.menu == s.menu[ItemFor(s.worker.value.mode) := ItemFor(s.worker.value.mode)];
    forall k | k in MenuItems ensures t.menu[k] == k {
    }
  }

  /** Every operation keeps the state consistent. */
  lemma ConsistentPreserved(s: State, flags: bv64, characters: Option<string>,
                            focused: Call<Option<Element>>, selected: Call<Option<RawValue>>,
                            reply: Call<string>, status: Call<int>, copy: Call<()>)
    requires Consistent(s)
    ensures Consistent(RequestSelection(s, focused, selected))
    ensures Consistent(RequestClipboard(s))
    ensures Consistent(ShowClipboard(s))
    ensures Consistent(KeyDown(s, flags, characters, focused, selected))
    ensures s.worker.Some? ==> Consistent(BeginWork(s))
    ensures s.worker.Some? ==> Consistent(FinishWork(s, reply, focused, status, copy))
  {
    if s.worker.Some? {
      FinishRestoresIdle(s, reply, focused, status, copy);
    }
  }

  /** Clipboard mode: after a reply and a successful copy the clipboard holds
      exactly the reply, nothing is written through Accessibility, and the
      notice previews the reply. */
  lemma ClipboardWriteBack(s: State, improved: string, focused: Call<Option<Element>>, status: Call<int>)
    requires s.worker.Some? && s.worker.value.mode == Clipboard
    ensures var t := FinishWork(s, Returned(improved), focused, status, Returned(()));
      && t.clipboard == improved && t.writes == s.writes
      && t.notices == s.notices + [Notice("Text cleaned and copied to clipboard", Preview(improved))]
  {
    CleanedSubtitles(improved);
  }

  /** Selection mode: with a focused element the reply is passed to the set
      call; the success notice follows exactly when that call returns 0, and
      "Could not process text" otherwise. The clipboard is untouched. */
  lemma SelectionWriteBack(s: State, improved: string, element: Element, status: Call<int>, copy: Call<()>)
    requires s.worker.Some? && s.worker.value.mode == Selection
    ensures var t := FinishWork(s, Returned(improved), Returned(Some(element)), status, copy);
      && t.writes == s.writes + [improved] && t.clipboard == s.clipboard
      && t.notices == s.notices +
           [if status == Returned(0) then Notice("Text cleaned and replaced", Preview(improved)) else CouldNotProcess]
  {
    CleanedSubtitles(improved);
  }

  /** Selection mode without a focused element: nothing is written and the
      failure is reported. */
  lemma SelectionWithoutElement(s: State, improved: string, focused: Call<Option<Element>>, status: Call<int>, copy: Call<()>)
    requires s.worker.Some? && s.worker.value.mode == Selection
    requires focused.Raised? || focused.value.None?
    ensures var t := FinishWork(s, Returned(improved), focused, status, copy);
      t.writes == s.writes && t.clipboard == s.clipboard && t.notices == s.notices + [CouldNotProcess]
  {
  }

  /** An exception from the remote completion is reported with its message,
      and nothing is delivered. */
  lemma FailureReported(s: State, message: string, focused: Call<Option<Element>>, status: Call<int>, copy: Call<()>)
    requires s.worker.Some?
    ensures var t := FinishWork(s, Raised(message), focused, status, copy);
      && t.notices == s.notices + [Notice("Error", message)]
      && t.clipboard == s.clipboard && t.writes == s.writes
  {
  }

  /** A failed copy to the clipboard is reported with its message, and the
      clipboard keeps its content. */
  lemma CopyFailureReported(s: State, improved: string, message: string, focused: Call<Option<Element>>, status: Call<int>)
    requires s.worker.Some? && s.worker.value.mode == Clipboard
    ensures var t := FinishWork(s, Returned(improved), focused, status, Raised(message));
      && t.notices == s.notices + [Notice("Error", message)]
      && t.clipboard == s.clipboard && t.writes == s.writes
  {
  }

  /** A completed cycle leaves the application ready: a clipboard request
      that is accepted, run and finished, whatever its outcome, is followed
      by an idle state in which the next non-empty request is accepted. */
  lemma {:induction false} CycleReturnsToIdle(s: State, reply: Call<string>,
                                              focused: Call<Option<Element>>, status: Call<int>, copy: Call<()>)
    requires Consistent(s) && !s.processing && s.clipboard != []
    ensures var t := FinishWork(BeginWork(RequestClipboard(s)), reply, focused, status, copy);
      && !t.processing && t.menu == s.menu
      && (t.clipboard != [] ==> RequestClipboard(t).worker == Some(Job(t.clipboard, Clipboard)))
  {
    assert s.menu == InitialMenu by {
      forall k | k in MenuItems ensures s.menu[k] == k { }
    }
    var r := RequestClipboard(s);
    assert r == s.(processing := true, worker := Some(Job(s.clipboard, Clipboard)));
    assert Consistent(BeginWork(r));
    FinishRestoresIdle(BeginWork(r), reply, focused, status, copy);
  }

  /** The application object. Its fields are those of `State`. The
      transition functions above are the specification: each method updates
      the fields in place and is proved to produce exactly the state its
      transition function gives. */
  class BlurApp {
    var processing: bool
    var menu: map<string, string>
    var clipboard: string
    var notices: seq<Notice>
    var writes: seq<string>
    var worker: Option<Job>

    /** The fields as a `State` value. */
    function Snapshot(): State
      reads this
    {
      State(processing, menu, clipboard, notices, writes, worker)
    }

    ghost predicate Valid()
      reads this
    {
      Consistent(Snapshot())
    }

    /** `__init__`: the menu shows its labels and nothing is in flight. */
    constructor (clipboard: string)
      ensures Valid() && Snapshot() == Initial(clipboard)
    {
      processing := false;
      menu := InitialMenu;
      this.clipboard := clipboard;
      notices := [];
      writes := [];
      worker := None;
    }

    /** `cleanup_selection`. */
    method CleanupSelection(focused: Call<Option<Element>>, selected: Call<Option<RawValue>>)
      requires Valid()
      modifies this
      ensures Valid() && Snapshot() == RequestSelection(old(Snapshot()), focused, selected)
    {
      if processing {
        notices := notices + [StillProcessing];
        return;
      }
      var selectedText := SelectedText(focused, selected);
      if selectedText.None? || selectedText.value == [] {
        notices := notices + [NoTextSelected];
        return;
      }
      processing := true;
      worker := Some(Job(selectedText.value, Selection));
    }

    /** `cleanup_clipboard`. */
    method CleanupClipboard()
      requires Valid()
      modifies this
      ensures Valid() && Snapshot() == RequestClipboard(old(Snapshot()))
    {
      if processing {
        notices := notices + [StillProcessing];
        return;
      }
      var text := clipboard;
      if text == [] {
        notices := notices + [NoClipboardText];
        return;
      }
      processing := true;
      worker := Some(Job(text, Clipboard));
    }

    /** `display_clipboard`. */
    method DisplayClipboard()
      requires Valid()
      modifies this
      ensures Valid() && Snapshot() == ShowClipboard(old(Snapshot()))
    {
      var text := clipboard;
      if text != [] {
        notices := notices + [Notice("Current clipboard content:", Preview(text))];
      } else {
        notices := notices + [NoClipboardToShow];
      }
    }

    /** A copy made in another application, which changes what
        `pyperclip.paste()` returns. */
    method UserCopy(text: string)
      requires Valid()
      modifies this
      ensures Valid() && Snapshot() == CopiedElsewhere(old(Snapshot()), text)
    {
      clipboard := text;
    }

    /** `handle_event`. */
    method HandleEvent(flags: bv64, characters: Option<string>,
                       focused: Call<Option<Element>>, selected: Call<Option<RawValue>>)
      requires Valid()
      modifies this
      ensures Valid() && Snapshot() == KeyDown(old(Snapshot()), flags, characters, focused, selected)
    {
      match Dispatch(flags, characters)
      case None =>
      case Some(Selection) => CleanupSelection(focused, selected);
      case Some(Clipboard) => CleanupClipboard();
    }

    /** The worker thread's first step: the running item shows
        "Processing...". */
    method Begin()
      requires Valid() && worker.Some?
      modifies this
      ensures Valid() && Snapshot() == BeginWork(old(Snapshot()))
    {
      var item := ItemFor(worker.value.mode);
      menu := menu[item := ProcessingTitle];
    }

    /** The rest of the worker thread, up to and including its `finally`
        block. */
    method Complete(reply: Call<string>, focused: Call<Option<Element>>, status: Call<int>, copy: Call<()>)
      requires Valid() && worker.Some?
      modifies this
      ensures Valid() && Snapshot() == FinishWork(old(Snapshot()), reply, focused, status, copy)
      ensures !processing && menu == InitialMenu
    {
      FinishRestoresIdle(Snapshot(), reply, focused, status, copy);
      var mode := worker.value.mode;
      var item := ItemFor(mode);
      match reply {
        case Raised(m) =>
          notices := notices + [Notice("Error", m)];
        case Returned(improved) =>
          if mode == Selection {
            if focused.Returned? && focused.value.Some? {
              writes := writes + [improved];
            }
            var success := ReplaceText(focused, status);
            notices := notices + [if success then Cleaned(Selection, improved) else CouldNotProcess];
          } else {
            match copy {
              case Raised(m) =>
                notices := notices + [Notice("Error", m)];
              case Returned(_) =>
                clipboard := improved;
                notices := notices + [Cleaned(Clipboard, improved)];
            }
          }
      }
      menu := menu[item := item];
      processing := false;
      worker := None;
    }
  }

  /** Selected text "helo wrld", a reply "Hello, world." and a successful set
      call: the reply is written to the focused element, the success notice
      shows it, and the application is idle again. */
  method HelloWorldScenario() returns (busy: bool, written: seq<string>, last: Notice)
    ensures !busy && written == ["Hello, world."]
    ensures last == Notice("Text cleaned and replaced", "Hello, world.")
  {
    var app := new BlurApp("");
    var focused := Returned(Some(Element(1)));
    var raw := "helo wrld";
    assert !PyText.IsSpace(raw[0]) && !PyText.IsSpace(raw[|raw| - 1]) && !PyText.IsDigit(raw[0]);
    SelectionKept(focused.value.value, raw);
    app.CleanupSelection(focused, Returned(Some(Convertible(raw))));
    assert app.worker == Some(Job(raw, Selection)) && app.writes == [];
    app.Begin();
    var reply := "Hello, world.";
    ghost var running := app.Snapshot();
    SelectionWriteBack(running, reply, Element(1), Returned(0), Returned(()));
    assert Preview(reply) == reply;
    assert FinishWork(running, Returned(reply), focused, Returned(0), Returned(())).notices
        == running.notices + [Notice("Text cleaned and replaced", reply)];
    app.Complete(Returned(reply), focused, Returned(0), Returned(()));
    assert app.writes == [reply];
    assert app.notices[|app.notices| - 1] == Notice("Text cleaned and replaced", reply);
    busy, written, last := app.processing, app.writes, app.notices[|app.notices| - 1];
  }
}
