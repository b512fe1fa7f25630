/**
  `sendNotification`, `sendEmailNotification` and `sendSmsNotification` from
  src/sendNotifications.ts. The SendGrid and Twilio clients are not called:
  the model returns the one transport request that would be made, or the
  reason none is.
 */
module Notifications {
  import opened Wrappers
  import opened JsText

  const EmailType: string := "email"
  const SmsType: string := "sms"

  /** Contact details of the person to notify; either field may be unset. */
  datatype Recipient = Recipient(email: Option<string>, phone: Option<string>)

  /** The transport settings read from the environment at load time. */
  datatype TransportConfig = TransportConfig(
    sendGridApiKey: Option<string>,
    sendGridFromEmail: Option<string>,
    twilioAccountSid: Option<string>,
    twilioAuthToken: Option<string>,
    twilioPhoneNumber: Option<string>)

  /** The payload handed to SendGrid or to Twilio. */
  datatype TransportCall =
    | EmailSend(to: string, from: string, subject: string, text: string)
    | SmsSend(to: string, from: string, body: string)

  /** Why no payload was handed over. */
  datatype SkipReason =
    | EmailAddressMissing
    | PhoneNumberMissing
    | InvalidNotificationType
    | SendGridConfigMissing
    | TwilioConfigMissing

  /** The result of one dispatch: exactly one transport call, or none with its reason. */
  datatype Dispatch = Sent(call: TransportCall) | NotSent(reason: SkipReason)

  function SendGridConfigured(config: TransportConfig): (b: bool)
    ensures b ==> config.sendGridApiKey.Some? && config.sendGridFromEmail.Some?
    ensures config.sendGridApiKey == Some("") || config.sendGridFromEmail == Some("") ==> !b
  {
    Truthy(config.sendGridApiKey) && Truthy(config.sendGridFromEmail)
  }

  function TwilioConfigured(config: TransportConfig): (b: bool)
    ensures b ==> config.twilioAccountSid.Some? && config.twilioAuthToken.Some? && config.twilioPhoneNumber.Some?
    ensures config.twilioAccountSid == Some("") || config.twilioAuthToken == Some("") || config.twilioPhoneNumber == Some("") ==> !b
  {
    Truthy(config.twilioAccountSid) && Truthy(config.twilioAuthToken) && Truthy(config.twilioPhoneNumber)
  }

  /** `sendEmailNotification(to, subject, message)`. */
  function SendEmailNotification(to: string, subject: string, message: string, config: TransportConfig): (d: Dispatch)
    ensures d.Sent? <==> SendGridConfigured(config)
    ensures d.Sent? ==> d.call == EmailSend(to, config.sendGridFromEmail.value, subject, message)
    ensures d.NotSent? ==> d.reason == SendGridConfigMissing
  {
    if !SendGridConfigured(config) then NotSent(SendGridConfigMissing)
    else Sent(EmailSend(to, config.sendGridFromEmail.value, subject, message))
  }

  /** `sendSmsNotification(to, message)`. */
  function SendSmsNotification(to: string, message: string, config: TransportConfig): (d: Dispatch)
    ensures d.Sent? <==> TwilioConfigured(config)
    ensures d.Sent? ==> d.call == SmsSend(to, config.twilioPhoneNumber.value, message)
    ensures d.NotSent? ==> d.reason == TwilioConfigMissing
  {
    if !TwilioConfigured(config) then NotSent(TwilioConfigMissing)
    else Sent(SmsSend(to, config.twilioPhoneNumber.value, message))
  }

  /** `sendNotification(recipientType, recipient, subject, message)`. */
  function SendNotification(recipientType: string, recipient: Recipient, subject: string, message: string,
                            config: TransportConfig): (d: Dispatch)
    ensures d.Sent? && d.call.EmailSend? <==>
      recipientType == EmailType && Truthy(recipient.email) && SendGridConfigured(config)
    ensures d.Sent? && d.call.SmsSend? <==>
      recipientType == SmsType && Truthy(recipient.phone) && TwilioConfigured(config)
    ensures d.Sent? && d.call.EmailSend? ==>
      d.call == EmailSend(recipient.email.value, config.sendGridFromEmail.value, subject, message)
    ensures d.Sent? && d.call.SmsSend? ==>
      d.call == SmsSend(recipient.phone.value, config.twilioPhoneNumber.value, message)
    ensures recipientType != EmailType && recipientType != SmsType ==> d == NotSent(InvalidNotificationType)
    ensures recipientType == EmailType && !Truthy(recipient.email) ==> d == NotSent(EmailAddressMissing)
    ensures recipientType == SmsType && !Truthy(recipient.phone) ==> d == NotSent(PhoneNumberMissing)
    ensures recipientType == EmailType && Truthy(recipient.email) ==>
      d == SendEmailNotification(recipient.email.value, subject, message, config)
    ensures recipientType == SmsType && Truthy(recipient.phone) ==>
      d == SendSmsNotification(recipient.phone.value, message, config)
  {
    if recipientType == EmailType then
      if Truthy(recipient.email) then SendEmailNotification(recipient.email.value, subject, message, config)
      else NotSent(EmailAddressMissing)
    else if recipientType == SmsType then
      if Truthy(recipient.phone) then SendSmsNotification(recipient.phone.value, message, config)
      else NotSent(PhoneNumberMissing)
    else NotSent(InvalidNotificationType)
  }

  /**
    An SMS request never reaches the email transport and vice versa, whatever
    contact details the recipient carries.
   */
  lemma ChannelExclusive(recipientType: string, recipient: Recipient, subject: string, message: string,
                         config: TransportConfig)
    ensures var d := SendNotification(recipientType, recipient, subject, message, config);
      && (recipientType != EmailType ==> !(d.Sent? && d.call.EmailSend?))
      && (recipientType != SmsType ==> !(d.Sent? && d.call.SmsSend?))
  {
  }

  /** The SMS body is the message alone: the subject never affects what is sent by SMS. */
  lemma SmsIgnoresSubject(recipient: Recipient, subject1: string, subject2: string, message: string,
                          config: TransportConfig)
    ensures SendNotification(SmsType, recipient, subject1, message, config)
         == SendNotification(SmsType, recipient, subject2, message, config)
  {
  }

  /** A recipient with only an email address, asked for SMS, gets nothing: no email is sent in its place. */
  lemma SmsWithOnlyEmailSendsNothing(email: string, subject: string, message: string, config: TransportConfig)
    ensures SendNotification(SmsType, Recipient(Some(email), None), subject, message, config)
         == NotSent(PhoneNumberMissing)
  {
  }
}
