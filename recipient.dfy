/** A notification recipient and the checks its constructor makes. */
module Recipients {
  import opened Wrappers
  import opened Text

  datatype Recipient = Recipient(target: string, name: string, locale: string)

  /** The data class's `toString()`. */
  function RecipientText(r: Recipient): string {
    "Recipient(target=" + r.target + ", name=" + r.name + ", locale=" + r.locale + ")"
  }

  const TargetBlankMessage: string := "Target cannot be blank."

  function NameBlankMessage(target: string): string {
    "Target: " + target + ". Name cannot be blank."
  }

  function InvalidLocaleMessage(target: string, locale: string): string {
    "Target: " + target + ". Invalid locale: " + locale + "."
  }

  /**
   * The constructor's `init` block: target, then name, then locale (`LocaleUtils.isValidLocale`,
   * passed as `isValidLocale`); the first failing `require` throws its message.
   */
  function NewRecipient(target: string, name: string, locale: string, isValidLocale: string -> bool)
    : (r: Result<Recipient, string>)
    ensures r.Ok? <==> !IsBlank(target) && !IsBlank(name) && isValidLocale(locale)
    ensures r.Ok? ==> r.value == Recipient(target, name, locale)
    ensures IsBlank(target) ==> r == Err(TargetBlankMessage)
    ensures !IsBlank(target) && IsBlank(name) ==> r == Err(NameBlankMessage(target))
    ensures !IsBlank(target) && !IsBlank(name) && !isValidLocale(locale) ==> r == Err(InvalidLocaleMessage(target, locale))
  {
    if IsBlank(target) then Err(TargetBlankMessage)
    else if IsBlank(name) then Err(NameBlankMessage(target))
    else if !isValidLocale(locale) then Err(InvalidLocaleMessage(target, locale))
    else Ok(Recipient(target, name, locale))
  }

  /** The three messages are distinct, so the reported message identifies the failed check. */
  lemma RecipientMessagesDistinct(target: string, locale: string)
    ensures TargetBlankMessage != NameBlankMessage(target)
    ensures TargetBlankMessage != InvalidLocaleMessage(target, locale)
    ensures NameBlankMessage(target) != InvalidLocaleMessage(target, locale)
  {
    assert TargetBlankMessage[6] == ' ';
    assert NameBlankMessage(target)[6] == ':';
    assert InvalidLocaleMessage(target, locale)[6] == ':';
    var k := |"Target: " + target + ". "|;
    assert NameBlankMessage(target)[k] == 'N';
    assert InvalidLocaleMessage(target, locale)[k] == 'I';
  }
}
