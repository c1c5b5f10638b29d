/** Emergency messaging: the email and SMS senders, each of which maps what
    the device and the store answer to exactly one alert, the fan-out to
    both channels, and the confirmation flow that leads to them. */
module EmergencyMessaging {
  import opened Wrappers
  import opened Storage
  import opened Location

  /** Location text of the emergency prompt when no address is known. */
  const AlertFallback := "Location not available"

  /** What the native mail composer reports when it closes. */
  datatype MailStatus = MailSent | MailSaved | MailCancelled | MailUndetermined

  /** What the native SMS composer reports: 'sent', 'cancelled' or anything
      else. */
  datatype SmsStatus = TextSent | TextCancelled | TextUnknown

  /** How each awaited mail call settles on this device. */
  datatype MailDevice = MailDevice(available: Reply<bool>, composed: Reply<MailStatus>)

  /** How each awaited SMS call settles on this device. */
  datatype SmsDevice = SmsDevice(available: Reply<bool>, sent: Reply<SmsStatus>)

  /** The alert the email sender ends with, by title. */
  datatype EmailOutcome =
    | EmailNotAvailable
    | EmailSent(recipient: string)
    | EmailSavedToDrafts(recipient: string)
    | EmailCancelled
    | ConfigurationMissing(userEmailSet: bool, contactEmailSet: bool)
    | EmailError(message: string)

  /** The alert the SMS sender ends with, by title; `SmsFailed` is the
      "SMS Error" for an unrecognised composer result, `SmsError` the one for
      a raised error. */
  datatype SmsOutcome =
    | SmsNotAvailable
    | SmsSent(recipient: string)
    | SmsCancelled
    | SmsFailed
    | PhoneNumberMissing
    | SmsError(message: string)

  /** A native call a sender issues; a composer call records its recipients
      and what its message body embeds. */
  datatype NativeCall =
    | ProbeMail
    | ProbeSms
    | ReadKey(key: string)
    | ComposeMail(recipients: seq<string>, user: string, location: string)
    | ComposeSms(recipients: seq<string>, location: string)

  /** A sender's alert and the native calls it made, in order. */
  datatype Report<+O> = Report(outcome: O, calls: seq<NativeCall>)

  predicate MailComposed(calls: seq<NativeCall>)
  {
    exists c :: c in calls && c.ComposeMail?
  }

  predicate SmsComposed(calls: seq<NativeCall>)
  {
    exists c :: c in calls && c.ComposeSms?
  }

  /** Every message composed carries the given location text. */
  predicate UsesLocation(calls: seq<NativeCall>, location: string)
  {
    forall c :: c in calls && (c.ComposeMail? || c.ComposeSms?) ==> c.location == location
  }

  /** The mail composer is reachable: the device has it and both addresses
      are set. */
  predicate MailReady(stored: Snapshot, mail: MailDevice)
  {
    && mail.available == Ok(true)
    && Present(stored.Get(UserEmailKey))
    && Present(stored.Get(ContactEmailKey))
  }

  /** Some call the email sender reaches raises. */
  predicate MailRaises(stored: Snapshot, mail: MailDevice)
  {
    || mail.available.Raise?
    || (mail.available == Ok(true) && (UserEmailKey in stored.failing || ContactEmailKey in stored.failing))
    || (MailReady(stored, mail) && mail.composed.Raise?)
  }

  /** The SMS composer is reachable: the phone is set and the device can
      send SMS. */
  predicate SmsReady(stored: Snapshot, sms: SmsDevice)
  {
    Present(stored.Get(ContactPhoneKey)) && sms.available == Ok(true)
  }

  /** Some call the SMS sender reaches raises. */
  predicate SmsRaises(stored: Snapshot, sms: SmsDevice)
  {
    || ContactPhoneKey in stored.failing
    || (Present(stored.Get(ContactPhoneKey)) && sms.available.Raise?)
    || (SmsReady(stored, sms) && sms.sent.Raise?)
  }

  /** The email sender: availability first, then both stored addresses, then
      the composer addressed to the contact; every raised error is caught and
      becomes the "Email Error" alert. */
  function SendEmergencyEmail(location: string, stored: Snapshot, mail: MailDevice): (r: Report<EmailOutcome>)
    // availability is probed before anything else, and when it is not
    // confirmed nothing else is called
    ensures |r.calls| > 0 && r.calls[0] == ProbeMail
    ensures mail.available != Ok(true) ==> r.calls == [ProbeMail]
    ensures r.outcome == EmailNotAvailable <==> mail.available == Ok(false)
    // the composer is opened exactly when both addresses are set, for the contact only
    ensures MailComposed(r.calls) <==> MailReady(stored, mail)
    ensures MailReady(stored, mail) ==>
      r.calls == [ProbeMail, ReadKey(UserEmailKey), ReadKey(ContactEmailKey),
                  ComposeMail([stored.items[ContactEmailKey]], stored.items[UserEmailKey], location)]
    ensures UsesLocation(r.calls, location)
    // a missing address is reported field by field
    ensures r.outcome.ConfigurationMissing? <==>
      mail.available == Ok(true) && !MailRaises(stored, mail) && !MailReady(stored, mail)
    ensures r.outcome.ConfigurationMissing? ==>
      && r.outcome.userEmailSet == Present(stored.Get(UserEmailKey))
      && r.outcome.contactEmailSet == Present(stored.Get(ContactEmailKey))
    // the composer's status decides the alert
    ensures r.outcome.EmailSent? <==> MailReady(stored, mail) && mail.composed == Ok(MailSent)
    ensures r.outcome.EmailSavedToDrafts? <==> MailReady(stored, mail) && mail.composed == Ok(MailSaved)
    ensures r.outcome == EmailCancelled <==>
      MailReady(stored, mail) && mail.composed.Ok? && mail.composed.value != MailSent && mail.composed.value != MailSaved
    ensures r.outcome.EmailSent? || r.outcome.EmailSavedToDrafts? ==> r.outcome.recipient == stored.items[ContactEmailKey]
    // raised errors are caught
    ensures r.outcome.EmailError? <==> MailRaises(stored, mail)
  {
    match mail.available
    case Raise(e) => Report(EmailError(e), [ProbeMail])
    case Ok(false) => Report(EmailNotAvailable, [ProbeMail])
    case Ok(true) =>
      var user := stored.Get(UserEmailKey);
      if user.Raise? then Report(EmailError(user.message), [ProbeMail, ReadKey(UserEmailKey)])
      else
        var contact := stored.Get(ContactEmailKey);
        var probed := [ProbeMail, ReadKey(UserEmailKey), ReadKey(ContactEmailKey)];
        if contact.Raise? then Report(EmailError(contact.message), probed)
        else if Truthy(user.value) && Truthy(contact.value) then
          var to := contact.value.value;
          var calls := probed + [ComposeMail([to], user.value.value, location)];
          assert calls[3] in calls && calls[3].ComposeMail?;
          match mail.composed
          case Raise(e) => Report(EmailError(e), calls)
          case Ok(MailSent) => Report(EmailSent(to), calls)
          case Ok(MailSaved) => Report(EmailSavedToDrafts(to), calls)
          case Ok(_) => Report(EmailCancelled, calls)
        else Report(ConfigurationMissing(Truthy(user.value), Truthy(contact.value)), probed)
  }

  /** The SMS sender: the stored phone first, then availability, then the
      composer addressed to that phone; every raised error is caught and
      becomes an "SMS Error" alert. */
  function SendEmergencySMS(location: string, stored: Snapshot, sms: SmsDevice): (r: Report<SmsOutcome>)
    // the phone is read before anything else; without it nothing else is called
    ensures |r.calls| > 0 && r.calls[0] == ReadKey(ContactPhoneKey)
    ensures !Present(stored.Get(ContactPhoneKey)) ==> r.calls == [ReadKey(ContactPhoneKey)]
    ensures r.outcome == PhoneNumberMissing <==>
      stored.Get(ContactPhoneKey).Ok? && !Present(stored.Get(ContactPhoneKey))
    ensures r.outcome == SmsNotAvailable <==> Present(stored.Get(ContactPhoneKey)) && sms.available == Ok(false)
    // the composer is opened exactly when the phone is set and SMS is available, for that phone only
    ensures SmsComposed(r.calls) <==> SmsReady(stored, sms)
    ensures SmsReady(stored, sms) ==>
      r.calls == [ReadKey(ContactPhoneKey), ProbeSms, ComposeSms([stored.items[ContactPhoneKey]], location)]
    ensures UsesLocation(r.calls, location)
    // the composer's result decides the alert
    ensures r.outcome.SmsSent? <==> SmsReady(stored, sms) && sms.sent == Ok(TextSent)
    ensures r.outcome.SmsSent? ==> r.outcome.recipient == stored.items[ContactPhoneKey]
    ensures r.outcome == SmsCancelled <==> SmsReady(stored, sms) && sms.sent == Ok(TextCancelled)
    ensures r.outcome == SmsFailed <==> SmsReady(stored, sms) && sms.sent == Ok(TextUnknown)
    // raised errors are caught
    ensures r.outcome.SmsError? <==> SmsRaises(stored, sms)
  {
    var phone := stored.Get(ContactPhoneKey);
    if phone.Raise? then Report(SmsError(phone.message), [ReadKey(ContactPhoneKey)])
    else if !Truthy(phone.value) then Report(PhoneNumberMissing, [ReadKey(ContactPhoneKey)])
    else
      var to := phone.value.value;
      match sms.available
      case Raise(e) => Report(SmsError(e), [ReadKey(ContactPhoneKey), ProbeSms])
      case Ok(false) => Report(SmsNotAvailable, [ReadKey(ContactPhoneKey), ProbeSms])
      case Ok(true) =>
        var calls := [ReadKey(ContactPhoneKey), ProbeSms, ComposeSms([to], location)];
        assert calls[2] in calls && calls[2].ComposeSms?;
        match sms.sent
        case Raise(e) => Report(SmsError(e), calls)
        case Ok(TextSent) => Report(SmsSent(to), calls)
        case Ok(TextCancelled) => Report(SmsCancelled, calls)
        case Ok(TextUnknown) => Report(SmsFailed, calls)
  }

  datatype Channel = EmailChannel | SmsChannel

  /** One channel's report. */
  datatype ChannelResult = MailResult(mail: Report<EmailOutcome>) | TextResult(text: Report<SmsOutcome>)

  /** Both senders at once. Each sender catches its own errors, so the join
      always settles with one report per channel, and each channel's report
      is the one its sender gives alone. */
  function SendBothEmergencyMessages(location: string, stored: Snapshot, mail: MailDevice, sms: SmsDevice)
    : (r: map<Channel, ChannelResult>)
    ensures r.Keys == {EmailChannel, SmsChannel}
    ensures r[EmailChannel] == MailResult(SendEmergencyEmail(location, stored, mail))
    ensures r[SmsChannel] == TextResult(SendEmergencySMS(location, stored, sms))
  {
    map[EmailChannel := MailResult(SendEmergencyEmail(location, stored, mail)),
        SmsChannel := TextResult(SendEmergencySMS(location, stored, sms))]
  }

  /** With the phone absent, choosing both still reports the email and gives
      "Phone Number Missing" for SMS without touching the SMS device. */
  lemma BothWithoutPhone(location: string, stored: Snapshot, mail: MailDevice, sms: SmsDevice)
    requires ContactPhoneKey !in stored.items && ContactPhoneKey !in stored.failing
    ensures SendBothEmergencyMessages(location, stored, mail, sms)[SmsChannel]
         == TextResult(Report(PhoneNumberMissing, [ReadKey(ContactPhoneKey)]))
    ensures SendBothEmergencyMessages(location, stored, mail, sms)[EmailChannel].MailResult?
  {
  }

  /** The three buttons of the channel prompt. */
  datatype AlertMethod = EmailOnly | SmsOnly | BothEmailAndSms

  function ChannelsOf(m: AlertMethod): (cs: set<Channel>)
    ensures EmailChannel in cs <==> m != SmsOnly
    ensures SmsChannel in cs <==> m != EmailOnly
  {
    match m
    case EmailOnly => {EmailChannel}
    case SmsOnly => {SmsChannel}
    case BothEmailAndSms => {EmailChannel, SmsChannel}
  }

  /** Where an emergency alert stands: the confirmation prompt, the channel
      prompt, after dispatch, or dismissed as a false alarm. */
  datatype Stage = AwaitingConfirmation | AwaitingMethod | Dispatched | Dismissed

  /** Every report composes its message with the given location text. */
  ghost predicate ResultsUseLocation(results: map<Channel, ChannelResult>, location: string)
  {
    forall ch :: ch in results ==>
      match results[ch]
      case MailResult(rep) => UsesLocation(rep.calls, location)
      case TextResult(rep) => UsesLocation(rep.calls, location)
  }

  /** One run of the emergency alert: the location text fixed before the
      first prompt, the stage reached, and the reports of the channels
      dispatched. */
  class EmergencyAlert {
    var stage: Stage
    var userLocation: string
    var results: map<Channel, ChannelResult>

    ghost predicate Valid()
      reads this
    {
      && (stage != Dispatched ==> results == map[])
      && ResultsUseLocation(results, userLocation)
    }

    /** Starting the alert: the best-effort location lookup, after which the
        confirmation prompt shows its text. */
    constructor (w: LocationWorld)
      ensures Valid()
      ensures stage == AwaitingConfirmation
      ensures userLocation == LocationText(w, AlertFallback)
      ensures results == map[]
    {
      var text := LookupLocation(w, AlertFallback);
      userLocation := text;
      stage := AwaitingConfirmation;
      results := map[];
    }

    /** The confirmation prompt's two buttons: "False Alarm" ends the alert
        with no channel contacted; confirming opens the channel prompt. */
    method Respond(needHelp: bool)
      requires Valid() && stage == AwaitingConfirmation
      modifies this`stage
      ensures Valid()
      ensures stage == if needHelp then AwaitingMethod else Dismissed
      ensures results == map[]
    {
      stage := if needHelp then AwaitingMethod else Dismissed;
    }

    /** The channel prompt's three buttons, each running the matching sender
        or senders with the location text the first prompt showed. */
    method Choose(m: AlertMethod, stored: Snapshot, mail: MailDevice, sms: SmsDevice)
      requires Valid() && stage == AwaitingMethod
      modifies this`stage, this`results
      ensures Valid()
      ensures stage == Dispatched
      ensures results.Keys == ChannelsOf(m)
      ensures EmailChannel in results ==> results[EmailChannel] == MailResult(SendEmergencyEmail(userLocation, stored, mail))
      ensures SmsChannel in results ==> results[SmsChannel] == TextResult(SendEmergencySMS(userLocation, stored, sms))
    {
      match m {
        case EmailOnly =>
          results := map[EmailChannel := MailResult(SendEmergencyEmail(userLocation, stored, mail))];
        case SmsOnly =>
          results := map[SmsChannel := TextResult(SendEmergencySMS(userLocation, stored, sms))];
        case BothEmailAndSms =>
          results := SendBothEmergencyMessages(userLocation, stored, mail, sms);
      }
      stage := Dispatched;
    }
  }

  /** Denied location permission, then "YES, I NEED HELP" and "Both Email &
      SMS": the prompt shows the fixed text, both channels are dispatched,
      and every message composed carries that same text. */
  method DeniedLocationFlow(stored: Snapshot, mail: MailDevice, sms: SmsDevice, position: Reply<Coords>,
                            geocode: Reply<seq<Address>>)
    returns (alert: EmergencyAlert)
    ensures alert.stage == Dispatched
    ensures alert.userLocation == AlertFallback
    ensures alert.results.Keys == {EmailChannel, SmsChannel}
    ensures alert.results[EmailChannel] == MailResult(SendEmergencyEmail(AlertFallback, stored, mail))
    ensures alert.results[SmsChannel] == TextResult(SendEmergencySMS(AlertFallback, stored, sms))
    ensures ResultsUseLocation(alert.results, AlertFallback)
  {
    alert := new EmergencyAlert(LocationWorld(Ok(Denied), position, geocode));
    alert.Respond(true);
    alert.Choose(BothEmailAndSms, stored, mail, sms);
  }
}
