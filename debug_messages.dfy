/** The Vulkan debug-messenger callbacks: the src/ revision's
    `FORWARD_TO_WARNING_AND_ERROR_CALLBACKS`, which routes a message by its
    severity, and the gvw/ revision's `PrintDebugMessagesToConsole`, which
    labels a message by severity and type, writes it to the error stream and
    reports error-severity messages. Severity and type values are the bits of
    `VkDebugUtilsMessageSeverityFlagBitsEXT` and `VkDebugUtilsMessageTypeFlagBitsEXT`
    of the Vulkan specification; anything else falls to the `default` branch. */
module DebugMessages {
  import opened Wrappers

  const SeverityVerbose: int := 0x0000_0001
  const SeverityInfo: int := 0x0000_0010
  const SeverityWarning: int := 0x0000_0100
  const SeverityError: int := 0x0000_1000

  const TypeGeneral: int := 0x1
  const TypeValidation: int := 0x2
  const TypePerformance: int := 0x4

  /** VK_FALSE: the call that triggered the message is not aborted. */
  const VkFalse: int := 0

  /* ----- src/ revision ----- */

  datatype Route = ToStandardOutput | ToWarningCallback | ToErrorCallback

  /** Where `FORWARD_TO_WARNING_AND_ERROR_CALLBACKS` sends a message. */
  function ForwardToWarningAndErrorCallbacks(severity: int): (r: Route)
    ensures r == ToWarningCallback <==> severity == SeverityWarning
    ensures r == ToErrorCallback <==> severity == SeverityError
    ensures r == ToStandardOutput <==> severity != SeverityWarning && severity != SeverityError
  {
    if severity == SeverityWarning then ToWarningCallback
    else if severity == SeverityError then ToErrorCallback
    else ToStandardOutput
  }

  /** Verbose and info messages, and unknown severities, are printed and never reach a callback. */
  lemma QuietSeveritiesArePrinted(severity: int)
    requires severity in {SeverityVerbose, SeverityInfo} || severity !in {SeverityVerbose, SeverityInfo, SeverityWarning, SeverityError}
    ensures ForwardToWarningAndErrorCallbacks(severity) == ToStandardOutput
  {
  }

  /* ----- gvw/ revision ----- */

  /** The ANSI style written before the label; the escape bytes themselves are not modelled. */
  datatype Style = BoldCyan | BoldYellow | BoldRed | BoldMagenta

  /** One console line before rendering. */
  datatype ConsoleLine = ConsoleLine(
    style: Option<Style>,
    severityLabel: string,
    typeLabel: string,
    message: string,
    userDataNote: bool)

  /** What one call does: the line written to the error stream, whether the
      gvw error callback is called, and the value returned to Vulkan. */
  datatype DebugOutcome = DebugOutcome(line: ConsoleLine, callsErrorCallback: bool, returned: int)

  const UserDataNote: string := " - Note: User data for this message was NOT null but was ignored."

  function SeverityLabel(severity: int): (name: string)
    ensures name == "[Error - " <==> severity == SeverityError
    ensures name == "[Warning - " <==> severity == SeverityWarning
    ensures name == "[Unknown - " <==> severity !in {SeverityVerbose, SeverityInfo, SeverityWarning, SeverityError}
  {
    if severity == SeverityVerbose then "[Verbose - "
    else if severity == SeverityInfo then "[Info - "
    else if severity == SeverityWarning then "[Warning - "
    else if severity == SeverityError then "[Error - "
    else "[Unknown - "
  }

  function SeverityStyle(severity: int): (style: Option<Style>)
    ensures style.None? <==> severity == SeverityVerbose
    ensures style == Some(BoldRed) <==> severity == SeverityError
  {
    if severity == SeverityVerbose then None
    else if severity == SeverityInfo then Some(BoldCyan)
    else if severity == SeverityWarning then Some(BoldYellow)
    else if severity == SeverityError then Some(BoldRed)
    else Some(BoldMagenta)
  }

  function TypeLabel(messageType: int): (name: string)
    ensures name == "Unknown]: " <==> messageType !in {TypeGeneral, TypeValidation, TypePerformance}
  {
    if messageType == TypeGeneral then "General]: "
    else if messageType == TypeValidation then "Validation]: "
    else if messageType == TypePerformance then "Performance]: "
    else "Unknown]: "
  }

  /** `PrintDebugMessagesToConsole`. */
  function PrintDebugMessagesToConsole(severity: int, messageType: int, message: string, userDataIsNull: bool): (o: DebugOutcome)
    ensures o.returned == VkFalse
    ensures o.callsErrorCallback <==> severity == SeverityError
    ensures o.line.message == message
    ensures o.line.userDataNote <==> !userDataIsNull
    ensures o.line.severityLabel == SeverityLabel(severity) && o.line.typeLabel == TypeLabel(messageType)
    ensures o.line.style == SeverityStyle(severity)
  {
    DebugOutcome(
      ConsoleLine(SeverityStyle(severity), SeverityLabel(severity), TypeLabel(messageType), message, !userDataIsNull),
      severity == SeverityError,
      VkFalse)
  }

  /** The text of a line as written, without the style and reset escapes. */
  function Render(line: ConsoleLine): (text: string)
    ensures |text| > 0 && text[|text| - 1] == '\n'
  {
    line.severityLabel + line.typeLabel + line.message + (if line.userDataNote then UserDataNote else "") + "\n"
  }

  /** The written line starts with the severity label, then the type label, then
      the message, and ends in a newline. */
  lemma RenderedLineLayout(severity: int, messageType: int, message: string, userDataIsNull: bool)
    ensures var text := Render(PrintDebugMessagesToConsole(severity, messageType, message, userDataIsNull).line);
            var l1 := |SeverityLabel(severity)|;
            var l2 := |TypeLabel(messageType)|;
            && |text| >= l1 + l2 + |message| + 1
            && text[..l1] == SeverityLabel(severity)
            && text[l1..l1 + l2] == TypeLabel(messageType)
            && text[l1 + l2..l1 + l2 + |message|] == message
  {
    var text := Render(PrintDebugMessagesToConsole(severity, messageType, message, userDataIsNull).line);
    var l1 := |SeverityLabel(severity)|;
    var l2 := |TypeLabel(messageType)|;
    var rest := (if !userDataIsNull then UserDataNote else "") + "\n";
    assert text == SeverityLabel(severity) + TypeLabel(messageType) + message + rest;
    ConcatenationParts(SeverityLabel(severity), TypeLabel(messageType), message, rest);
  }

  /** The three leading parts of a concatenation can be read back by slicing. */
  lemma ConcatenationParts(a: string, b: string, c: string, rest: string)
    ensures var t := a + b + c + rest;
            && t[..|a|] == a
            && t[|a|..|a| + |b|] == b
            && t[|a| + |b|..|a| + |b| + |c|] == c
  {
    var t := a + b + c + rest;
    assert t == a + (b + (c + rest));
    assert t[|a|..] == b + (c + rest);
    assert t[|a| + |b|..] == c + rest;
  }

  /** The two revisions agree on which messages count as errors: exactly the
      messages the src/ revision forwards to its error callback make the gvw/
      revision call the gvw error callback. */
  lemma RevisionsAgreeOnErrors(severity: int, messageType: int, message: string, userDataIsNull: bool)
    ensures PrintDebugMessagesToConsole(severity, messageType, message, userDataIsNull).callsErrorCallback
            <==> ForwardToWarningAndErrorCallbacks(severity) == ToErrorCallback
  {
  }
}
