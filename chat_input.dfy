/**
 * The input guards of the chat client (components/Chat.tsx): when a message may be submitted,
 * what Enter does, when the Send button is disabled, and how tall the text area grows.
 */
module ChatInput {

  /**
   * The characters `String.prototype.trim` removes: the ECMAScript white space (tab, vertical tab,
   * form feed, space, no-break space, zero-width no-break space and the other space separators)
   * and the line terminators (line feed, carriage return, line and paragraph separator).
   */
  predicate IsJsWhitespace(c: char) {
    c == '\t' || c == '\n' || c == '\U{000B}' || c == '\U{000C}' || c == '\r' || c == ' '
    || c == '\U{00A0}' || c == '\U{1680}' || ('\U{2000}' <= c <= '\U{200A}')
    || c == '\U{2028}' || c == '\U{2029}' || c == '\U{202F}' || c == '\U{205F}'
    || c == '\U{3000}' || c == '\U{FEFF}'
  }

  /** Every character of `s` is white space (so the empty string is blank). */
  predicate Blank(s: string) {
    forall i :: 0 <= i < |s| ==> IsJsWhitespace(s[i])
  }

  /** `s` without its leading white space: a suffix of `s` that is empty or starts with a non-space. */
  function TrimStart(s: string): (r: string)
    ensures |r| <= |s| && r == s[|s| - |r|..]
    ensures Blank(s[..|s| - |r|])
    ensures r == [] || !IsJsWhitespace(r[0])
  {
    if s != [] && IsJsWhitespace(s[0]) then TrimStart(s[1..]) else s
  }

  /** `s` without its trailing white space: a prefix of `s` that is empty or ends with a non-space. */
  function TrimEnd(s: string): (r: string)
    ensures |r| <= |s| && r == s[..|r|]
    ensures Blank(s[|r|..])
    ensures r == [] || !IsJsWhitespace(r[|r| - 1])
  {
    if s != [] && IsJsWhitespace(s[|s| - 1]) then TrimEnd(s[..|s| - 1]) else s
  }

  /**
   * `s.trim()`: empty exactly when `s` is blank (so `!input.trim()` tests for a blank input), and
   * otherwise starting and ending with a character that is not white space.
   */
  function Trim(s: string): (r: string)
    ensures r == "" <==> Blank(s)
    ensures r == [] || (!IsJsWhitespace(r[0]) && !IsJsWhitespace(r[|r| - 1]))
  {
    TrimEnd(TrimStart(s))
  }

  /** What a handler did to the event: whether it prevented the default action, and whether it submitted. */
  datatype Effect = Effect(defaultPrevented: bool, submitted: bool)

  /** `handleSubmit`: always prevents the form's default, and submits unless loading or the input is blank. */
  function HandleSubmit(isLoading: bool, input: string): (e: Effect)
    ensures e.defaultPrevented
    ensures e.submitted <==> !isLoading && !Blank(input)
  {
    if isLoading || Trim(input) == "" then Effect(true, false) else Effect(true, true)
  }

  /** `handleKeyDown`: Enter without Shift is taken over and submits under the same guard; any other key is left alone. */
  function HandleKeyDown(key: string, shiftKey: bool, isLoading: bool, input: string): (e: Effect)
    ensures e.defaultPrevented <==> key == "Enter" && !shiftKey
    ensures e.submitted <==> key == "Enter" && !shiftKey && !isLoading && !Blank(input)
  {
    if key == "Enter" && !shiftKey then
      if !isLoading && Trim(input) != "" then HandleSubmit(isLoading, input) else Effect(true, false)
    else Effect(false, false)
  }

  /** `disabled={isLoading || !input.trim()}` on the Send button. */
  function SendDisabled(isLoading: bool, input: string): (disabled: bool)
    ensures disabled <==> isLoading || Blank(input)
  {
    isLoading || Trim(input) == ""
  }

  /** The button, the form handler and the Enter key all apply one guard. */
  lemma GuardsAgree(key: string, shiftKey: bool, isLoading: bool, input: string)
    ensures SendDisabled(isLoading, input) <==> !HandleSubmit(isLoading, input).submitted
    ensures HandleKeyDown(key, shiftKey, isLoading, input).submitted <==>
      key == "Enter" && !shiftKey && HandleSubmit(isLoading, input).submitted
  {
  }

  /** The largest height, in pixels, the text area is given. */
  const MaxTextareaHeight: nat := 200

  /** `Math.min(textarea.scrollHeight, 200)`: the content height, capped at 200 pixels. */
  function TextareaHeight(scrollHeight: nat): (height: nat)
    ensures height <= MaxTextareaHeight && height <= scrollHeight
    ensures height == scrollHeight || height == MaxTextareaHeight
  {
    if scrollHeight <= MaxTextareaHeight then scrollHeight else MaxTextareaHeight
  }
}
