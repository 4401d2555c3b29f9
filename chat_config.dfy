/**
 * The chat settings the behaviour depends on, and the two pure helpers of the
 * chat configuration file: `validateMessage`, a total classifier over any
 * JavaScript value, and `truncateMessage`, a cut-and-ellipsis on strings.
 */
module ChatConfig {
  import opened JsRuntime

  /** `chatConfig.chat.maxMessageLength`. */
  const MaxMessageLength: nat := 1000

  /** The default `maxLength` of `truncateMessage`. */
  const DefaultTruncateLength: nat := 100

  /** `chatConfig.messages.joinError`. */
  const JoinError: string := "Failed to join chat"

  /** `chatConfig.messages.messageError`. */
  const MessageError: string := "Failed to send message"

  const NotAStringError: string := "Message must be a string"
  const EmptyMessageError: string := "Message cannot be empty"

  /** The template `Message too long. Maximum ${maxMessageLength} characters allowed.` */
  function TooLongError(): (m: string)
    ensures m == "Message too long. Maximum 1000 characters allowed."
  {
    "Message too long. Maximum " + ToDecimal(MaxMessageLength) + " characters allowed."
  }

  /**
   * The argument of `validateMessage`: a string, or any other JavaScript value
   * (undefined, null, a number, an object, ...), which the function never looks into.
   */
  datatype JsValue = Str(text: string) | NonString

  /** `{ valid: true }` or `{ valid: false, error }`. */
  datatype Validation = Valid | Invalid(error: string)

  /**
   * `validateMessage`. The first guard, `!message || typeof message !== 'string'`,
   * also catches the empty string, which is falsy; the length check uses the
   * untrimmed string.
   */
  function ValidateMessage(message: JsValue): (v: Validation)
    ensures v.Valid? <==>
      message.Str? && !AllWhitespace(message.text) && |message.text| <= MaxMessageLength
    ensures message == NonString || message == Str("") ==> v == Invalid(NotAStringError)
    ensures message.Str? && message.text != "" && AllWhitespace(message.text) ==>
      v == Invalid(EmptyMessageError)
    ensures message.Str? && !AllWhitespace(message.text) && |message.text| > MaxMessageLength ==>
      v == Invalid(TooLongError())
  {
    match message
    case NonString => Invalid(NotAStringError)
    case Str(text) =>
      if text == "" then
        Invalid(NotAStringError)
      else if (TrimEmptyIffAllWhitespace(text); |Trim(text)| == 0) then
        Invalid(EmptyMessageError)
      else if |text| > MaxMessageLength then
        Invalid(TooLongError())
      else
        Valid
  }

  /**
   * `truncateMessage(message, maxLength = 100)`: the message itself when it is
   * short enough, otherwise its first `maxLength` characters and "...".
   * `substring` treats a negative end as 0, so a negative limit leaves only
   * the ellipsis.
   */
  function TruncateMessage(message: string, maxLength: int := DefaultTruncateLength): (r: string)
    ensures |message| <= maxLength ==> r == message
    ensures |message| > maxLength ==>
      var cut := KeptLength(maxLength);
      |r| == cut + 3 && r[..cut] == message[..cut] && r[cut..] == "..."
    ensures maxLength < 0 ==> r == "..."
  {
    if |message| <= maxLength then message else message[..KeptLength(maxLength)] + "..."
  }

  /** How many characters `substring(0, maxLength)` keeps of a longer string. */
  function KeptLength(maxLength: int): nat {
    if maxLength < 0 then 0 else maxLength
  }

  /** A truncated message is never longer than the limit plus the ellipsis. */
  lemma TruncateLengthBound(message: string, maxLength: int)
    ensures |TruncateMessage(message, maxLength)| <= if |message| <= maxLength then |message| else KeptLength(maxLength) + 3
  {
  }

  /**
   * Truncating twice with the same limit gives what truncating once gives: the
   * second cut keeps the same prefix and puts back the same ellipsis.
   */
  lemma TruncateIdempotent(message: string, maxLength: int)
    ensures TruncateMessage(TruncateMessage(message, maxLength), maxLength) == TruncateMessage(message, maxLength)
  {
    var once := TruncateMessage(message, maxLength);
    var cut := KeptLength(maxLength);
    if |message| > maxLength {
      assert once[..cut] + "..." == once;
    }
  }

  /** Concrete boundary cases of `validateMessage`. */
  lemma ValidateMessageBoundaries(s: string)
    requires |s| == MaxMessageLength && s[0] == 'a'
    ensures ValidateMessage(Str(s)).Valid?
    ensures ValidateMessage(Str(s + "a")) == Invalid(TooLongError())
    ensures ValidateMessage(Str(" ")) == Invalid(EmptyMessageError)
    ensures ValidateMessage(Str("")) == Invalid(NotAStringError)
  {
    assert !IsWhitespace(s[0]);
    assert (s + "a")[0] == s[0];
    assert AllWhitespace(" ") by { assert " "[0] == ' '; }
  }
}
