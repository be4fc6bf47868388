/** Reading and replacing the selected text of the focused UI element
    (`BlurApp.get_selected_text` and `BlurApp.replace_text`). The
    Accessibility calls themselves are outside the model: each is given as
    the `Call` outcome it produced. */
module Accessibility {
  import opened Wrappers
  import PyText

  /** A handle on an Accessibility UI element. */
  datatype Element = Element(handle: nat)

  /** The value read from the element's selected-text attribute: something
      `str()` turns into a string, or something whose conversion raises. */
  datatype RawValue = Convertible(text: string) | Unconvertible

  /** The filter at the end of `get_selected_text`: the stripped text when it
      is neither empty nor made of digits only. */
  function FilterSelection(raw: string): (r: Option<string>)
    ensures r.Some? ==> r.value != [] && !PyText.IsDigitString(r.value)
  {
    var text := PyText.Strip(raw);
    if text != [] && !PyText.IsDigitString(text) then Some(text) else None
  }

  /** `get_selected_text`. `focused` is the outcome of looking up the focused
      element and `selected` that of reading its selected-text attribute
      (read only when an element was found). The error codes those lookups
      return beside the value are not consulted. Every failure, raised or
      not, yields None. */
  function SelectedText(focused: Call<Option<Element>>, selected: Call<Option<RawValue>>): (r: Option<string>)
    ensures r.Some? ==> focused.Returned? && focused.value.Some?
    ensures r.Some? ==> selected.Returned? && selected.value.Some? && selected.value.value.Convertible?
    ensures r.Some? ==> r.value != [] && !PyText.IsDigitString(r.value)
  {
    match focused
    case Raised(_) => None
    case Returned(None) => None
    case Returned(Some(_)) =>
      match selected
      case Raised(_) => None
      case Returned(None) => None
      case Returned(Some(Unconvertible)) => None
      case Returned(Some(Convertible(raw))) => FilterSelection(raw)
  }

  /** The selection is returned exactly when a focused element was found,
      its selected text was read and converted, and the stripped text is
      neither empty nor all digits; what is returned is that stripped text. */
  lemma SelectedTextSpec(focused: Call<Option<Element>>, selected: Call<Option<RawValue>>, t: string)
    ensures SelectedText(focused, selected) == Some(t)
        <==> && focused.Returned? && focused.value.Some?
             && selected.Returned? && selected.value.Some? && selected.value.value.Convertible?
             && t == PyText.Strip(selected.value.value.text)
             && t != [] && !PyText.IsDigitString(t)
  {
  }

  /** What is returned never starts or ends with whitespace, is a contiguous
      part of the raw attribute value, and holds a character other than a
      digit. */
  lemma SelectedTextShape(focused: Call<Option<Element>>, raw: string, t: string)
    requires SelectedText(focused, Returned(Some(Convertible(raw)))) == Some(t)
    ensures exists i, j :: 0 <= i <= j <= |raw| && t == raw[i..j]
    ensures !PyText.IsSpace(t[0]) && !PyText.IsSpace(t[|t| - 1])
    ensures exists k :: 0 <= k < |t| && !PyText.IsDigit(t[k])
  {
    assert FilterSelection(raw) == Some(t);
    assert t == PyText.Strip(raw) && t != [] && !PyText.IsDigitString(t);
    var i := PyText.LeadingSpaces(raw);
    assert PyText.Trimmed(raw, i, i + |t|);
    assert t[0] == raw[i] && t[|t| - 1] == raw[i + |t| - 1];
    assert !forall k | 0 <= k < |t| :: PyText.IsDigit(t[k]);
  }

  /** A selection with no whitespace at either end and a character other
      than a digit is returned exactly as it was read. */
  lemma SelectionKept(element: Element, raw: string)
    requires raw != [] && !PyText.IsSpace(raw[0]) && !PyText.IsSpace(raw[|raw| - 1])
    requires exists k :: 0 <= k < |raw| && !PyText.IsDigit(raw[k])
    ensures SelectedText(Returned(Some(element)), Returned(Some(Convertible(raw)))) == Some(raw)
  {
    assert PyText.Strip(raw) == raw by {
      PyText.StripUnique(raw, 0, |raw|);
    }
    assert !PyText.IsDigitString(raw);
  }

  /** `replace_text`: False when no focused element is found or a call
      raises; otherwise True exactly when the call that sets the selected
      text returns status 0. */
  function ReplaceText(focused: Call<Option<Element>>, status: Call<int>): (ok: bool)
    ensures ok <==> focused.Returned? && focused.value.Some? && status == Returned(0)
  {
    match focused
    case Raised(_) => false
    case Returned(None) => false
    case Returned(Some(_)) =>
      match status
      case Raised(_) => false
      case Returned(error) => error == 0
  }
}
