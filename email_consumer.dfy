/**
 * The email notification consumer: the settings check that runs before any message is built,
 * and the message handed to the mail library when the check passes.
 */
module EmailConsumer {
  import opened Wrappers
  import opened Text
  import opened JobData
  import opened Recipients

  /** `CommunicationSettings.EmailSpec`. */
  datatype EmailSpec = EmailSpec(
    hostName: string, smtpPort: Int32, username: string, password: string, isSSLOnConnect: bool)

  /** What the settings must satisfy for a message to be sent. */
  predicate SettingsUsable(spec: EmailSpec) {
    spec.smtpPort > 0 && !IsBlank(spec.hostName) && !IsBlank(spec.username) && !IsBlank(spec.password)
  }

  function PortMessage(spec: EmailSpec): string {
    "Invalid email SMTP port. Got: '" + IntToString(spec.smtpPort) + "'"
  }

  function HostMessage(spec: EmailSpec): string {
    "Invalid email host name. Got: '" + spec.hostName + "'"
  }

  function UsernameMessage(spec: EmailSpec): string {
    "Invalid email username. Got: '" + spec.username + "'"
  }

  function PasswordMessage(spec: EmailSpec): string {
    "Invalid email password. Got: '" + spec.password + "'"
  }

  /**
   * `verifySettings`: port, host name, user name, password, in that order; the first failing
   * `require` throws its message.
   */
  function VerifySettings(spec: EmailSpec): (error: Option<string>)
    ensures error.None? <==> SettingsUsable(spec)
    ensures spec.smtpPort <= 0 ==> error == Some(PortMessage(spec))
    ensures spec.smtpPort > 0 && IsBlank(spec.hostName) ==> error == Some(HostMessage(spec))
    ensures (spec.smtpPort > 0 && !IsBlank(spec.hostName) && IsBlank(spec.username))
              ==> error == Some(UsernameMessage(spec))
    ensures (spec.smtpPort > 0 && !IsBlank(spec.hostName) && !IsBlank(spec.username) && IsBlank(spec.password))
              ==> error == Some(PasswordMessage(spec))
  {
    if spec.smtpPort <= 0 then Some(PortMessage(spec))
    else if IsBlank(spec.hostName) then Some(HostMessage(spec))
    else if IsBlank(spec.username) then Some(UsernameMessage(spec))
    else if IsBlank(spec.password) then Some(PasswordMessage(spec))
    else None
  }

  /** The four messages start differently, so the reported message names the failed setting. */
  lemma SettingsMessagesDistinct(spec: EmailSpec)
    ensures PortMessage(spec) != HostMessage(spec) && PortMessage(spec) != UsernameMessage(spec)
    ensures PortMessage(spec) != PasswordMessage(spec) && HostMessage(spec) != UsernameMessage(spec)
    ensures HostMessage(spec) != PasswordMessage(spec) && UsernameMessage(spec) != PasswordMessage(spec)
  {
    assert PortMessage(spec)[14] == 'S';
    assert HostMessage(spec)[14] == 'h';
    assert UsernameMessage(spec)[14] == 'u';
    assert PasswordMessage(spec)[14] == 'p';
  }

  /** The consumer payload fields the email consumer reads. */
  datatype NotificationPayload = NotificationPayload(
    groupId: Uuid, taskId: string, recipient: Recipient, additionalParameters: Properties)

  /** The message as configured just before `send()`. */
  datatype OutgoingEmail = OutgoingEmail(
    hostName: string, smtpPort: Int32, username: string, password: string, isSSLOnConnect: bool,
    from: string, to: string, subject: Option<string>)

  /** `additionalParameters["SUBJECT"] as? String`: absent or not a string gives null. */
  function SubjectOf(parameters: Properties): (subject: Option<string>)
    ensures subject.Some? <==> "SUBJECT" in parameters && parameters["SUBJECT"].StrVal?
    ensures subject.Some? ==> parameters["SUBJECT"] == StrVal(subject.value)
  {
    if "SUBJECT" in parameters && parameters["SUBJECT"].StrVal? then Some(parameters["SUBJECT"].s) else None
  }

  /**
   * `consume` up to the `send()` call: the settings are checked first; with usable settings
   * the mail library may still throw while the message is built and addressed (template
   * rendering, `addCc`, `attach`, `setFrom`, `addTo`), which `libraryFailure` stands for.
   * Only a message built from usable settings and accepted by the library reaches `send`.
   */
  function Consume(spec: EmailSpec, payload: NotificationPayload, libraryFailure: Option<string>)
    : (r: Result<OutgoingEmail, string>)
    ensures r.Ok? <==> SettingsUsable(spec) && libraryFailure.None?
    ensures r.Ok? ==> SettingsUsable(spec)
    ensures !SettingsUsable(spec) ==> r.Err? && Some(r.error) == VerifySettings(spec)
    ensures SettingsUsable(spec) && libraryFailure.Some? ==> r == Err(libraryFailure.value)
    ensures r.Ok? ==> r.value.to == payload.recipient.target && r.value.from == spec.username
    ensures r.Ok? ==> r.value.smtpPort > 0 && !IsBlank(r.value.hostName)
    ensures r.Ok? ==> r.value.subject == SubjectOf(payload.additionalParameters)
  {
    var failure := VerifySettings(spec);
    if failure.Some? then Err(failure.value)
    else if libraryFailure.Some? then Err(libraryFailure.value)
    else Ok(OutgoingEmail(spec.hostName, spec.smtpPort, spec.username, spec.password, spec.isSSLOnConnect,
                          spec.username, payload.recipient.target, SubjectOf(payload.additionalParameters)))
  }
}
