/** The SMS service of backend/services/smsService.js: phone-number
    formatting for Indian numbers, the Twilio configuration test, and the
    choice between the mock, Twilio and the mock fallback when sending. The
    Twilio client is reduced to the reply of its one `messages.create` call. */
module Sms {
  import opened Wrappers
  import opened Strings

  /** `formatPhoneNumber`: Indian numbers get the '+91' country code. */
  function FormatPhoneNumber(phoneNumber: string): (r: string)
  {
    var cleaned := DigitsOnly(phoneNumber);
    if |cleaned| == 10 then "+91" + cleaned
    else if |cleaned| == 12 && StartsWith(cleaned, "91") then "+" + cleaned
    else if !StartsWith(cleaned, "+") then "+" + cleaned
    else cleaned
  }

  /** After stripping, ten digits get '+91', twelve digits starting '91' get
      '+', and every other digit string, the empty one included, gets '+'
      (it can never already start with '+'). */
  lemma FormatPhoneNumberCases(phoneNumber: string)
    ensures var c := DigitsOnly(phoneNumber);
      FormatPhoneNumber(phoneNumber) == (if |c| == 10 then "+91" + c else "+" + c)
  {
    var c := DigitsOnly(phoneNumber);
    if c != [] {
      assert IsDigit(c[0]);
    }
  }

  /** The result is '+' followed by digits only. */
  lemma FormatPhoneNumberShape(phoneNumber: string)
    ensures var r := FormatPhoneNumber(phoneNumber);
      |r| >= 1 && r[0] == '+' && AllDigits(r[1..])
  {
    FormatPhoneNumberCases(phoneNumber);
    var c := DigitsOnly(phoneNumber);
    var r := FormatPhoneNumber(phoneNumber);
    if |c| == 10 {
      assert r[1..] == "91" + c;
    } else {
      assert r[1..] == c;
    }
  }

  /** Formatting a formatted number changes nothing. */
  lemma FormatPhoneNumberIdempotent(phoneNumber: string)
    ensures FormatPhoneNumber(FormatPhoneNumber(phoneNumber)) == FormatPhoneNumber(phoneNumber)
  {
    var c := DigitsOnly(phoneNumber);
    var r := FormatPhoneNumber(phoneNumber);
    FormatPhoneNumberCases(phoneNumber);
    FormatPhoneNumberCases(r);
    FormatPhoneNumberShape(phoneNumber);
    assert DigitsOnly(r) == DigitsOnly(r[1..]);
    DigitsOnlyOfDigits(r[1..]);
    if |c| == 10 {
      assert r[1..] == "91" + c;
      assert StartsWith(r[1..], "91");
    } else {
      assert r[1..] == c;
    }
  }

  /** The WhatsApp address of a number: the channel prefix followed by the
      formatted number. */
  function FormatWhatsAppNumber(phoneNumber: string): (r: string)
    ensures StartsWith(r, "whatsapp:") && r[9..] == FormatPhoneNumber(phoneNumber)
  {
    "whatsapp:" + FormatPhoneNumber(phoneNumber)
  }

  /** The Twilio variables of the environment. */
  datatype TwilioEnv = TwilioEnv(
    accountSid: Option<string>,
    authToken: Option<string>,
    phoneNumber: Option<string>,
    whatsappNumber: Option<string>)

  /** A set, non-empty variable: what `!value` in JavaScript rejects. */
  predicate Truthy(v: Option<string>) { v.Some? && v.value != "" }

  const SidPlaceholder := "your-twilio-account-sid"
  const TokenPlaceholder := "your-twilio-auth-token"

  /** The credential test of `initialize`. */
  predicate CredentialsValid(env: TwilioEnv) {
    Truthy(env.accountSid) && Truthy(env.authToken) && Truthy(env.phoneNumber)
    && env.accountSid.value != SidPlaceholder && env.authToken.value != TokenPlaceholder
    && StartsWith(env.accountSid.value, "AC")
  }

  /** The options handed to Twilio's `messages.create`. */
  datatype MessageOptions = MessageOptions(body: string, from: Option<string>, to: string)

  /** What `messages.create` resolves with, or that it rejected. */
  datatype TwilioReply = Created(sid: string, status: string) | CreateFailed

  datatype SendResult = SendResult(success: bool, messageId: string, status: string, provider: string)

  class SmsService {
    var hasClient: bool
    var isConfigured: bool
    var phoneNumber: Option<string>
    var whatsappNumber: Option<string>

    /** `new SMSService()` sets no client, not configured, and calls
        `initialize`; `twilioLoads` says whether `require('twilio')` and the
        client constructor succeed. */
    constructor (env: TwilioEnv, twilioLoads: bool)
      ensures isConfigured <==> CredentialsValid(env) && twilioLoads
      ensures hasClient == isConfigured
      ensures isConfigured ==> phoneNumber == env.phoneNumber && whatsappNumber == env.whatsappNumber
      ensures !isConfigured ==> phoneNumber == None && whatsappNumber == None
    {
      hasClient := false;
      isConfigured := false;
      phoneNumber := None;
      whatsappNumber := None;
      new;
      Initialize(env, twilioLoads);
    }

    /** Configures Twilio when the credentials pass and the library loads;
        otherwise the fields are left exactly as they were. */
    method Initialize(env: TwilioEnv, twilioLoads: bool)
      modifies this
      ensures CredentialsValid(env) && twilioLoads ==>
        hasClient && isConfigured && phoneNumber == env.phoneNumber && whatsappNumber == env.whatsappNumber
      ensures !(CredentialsValid(env) && twilioLoads) ==>
        hasClient == old(hasClient) && isConfigured == old(isConfigured)
        && phoneNumber == old(phoneNumber) && whatsappNumber == old(whatsappNumber)
    {
      if !CredentialsValid(env) {
        return;
      }
      if !twilioLoads {
        return;
      }
      hasClient := true;
      phoneNumber := env.phoneNumber;
      whatsappNumber := env.whatsappNumber;
      isConfigured := true;
    }

    /** `sendSMS(to, message)` always resolves with success. Unconfigured or in
        development it is the mock; otherwise Twilio is asked to send to the
        formatted number, and a Twilio failure becomes the mock fallback. */
    method SendSms(to: string, message: string, nodeEnv: Option<string>, now: int, twilio: TwilioReply)
      returns (r: SendResult, request: Option<MessageOptions>)
      ensures r.success
      ensures !isConfigured || nodeEnv == Some("development") ==>
        request == None && r == SendResult(true, "mock-sms-" + IntToString(now), "delivered", "mock")
      ensures isConfigured && nodeEnv != Some("development") ==>
        request == Some(MessageOptions(message, phoneNumber, FormatPhoneNumber(to)))
        && r.provider == (if twilio.Created? then "twilio" else "mock-fallback")
      ensures twilio.Created? && r.provider == "twilio" ==> r.messageId == twilio.sid && r.status == twilio.status
    {
      if !isConfigured || nodeEnv == Some("development") {
        return SendResult(true, "mock-sms-" + IntToString(now), "delivered", "mock"), None;
      }
      var formatted := FormatPhoneNumber(to);
      request := Some(MessageOptions(message, phoneNumber, formatted));
      match twilio {
        case Created(sid, status) =>
          r := SendResult(true, sid, status, "twilio");
        case CreateFailed =>
          r := SendResult(true, "fallback-mock-" + IntToString(now), "delivered", "mock-fallback");
      }
    }

    /** `sendWhatsApp(to, message)`: as `sendSMS`, but it also needs a WhatsApp
        sender number and sends to `whatsapp:<formatted>`. */
    method SendWhatsApp(to: string, message: string, nodeEnv: Option<string>, now: int, twilio: TwilioReply)
      returns (r: SendResult, request: Option<MessageOptions>)
      ensures r.success
      ensures !isConfigured || !Truthy(whatsappNumber) || nodeEnv == Some("development") ==>
        request == None && r == SendResult(true, "mock-whatsapp-" + IntToString(now), "delivered", "mock")
      ensures isConfigured && Truthy(whatsappNumber) && nodeEnv != Some("development") ==>
        request == Some(MessageOptions(message, whatsappNumber, FormatWhatsAppNumber(to)))
        && r.provider == (if twilio.Created? then "twilio" else "mock-fallback")
    {
      if !isConfigured || !Truthy(whatsappNumber) || nodeEnv == Some("development") {
        return SendResult(true, "mock-whatsapp-" + IntToString(now), "delivered", "mock"), None;
      }
      request := Some(MessageOptions(message, whatsappNumber, FormatWhatsAppNumber(to)));
      match twilio {
        case Created(sid, status) =>
          r := SendResult(true, sid, status, "twilio");
        case CreateFailed =>
          r := SendResult(true, "fallback-mock-whatsapp-" + IntToString(now), "delivered", "mock-fallback");
      }
    }
  }

  /** What awaiting `sendSMS` gives a caller: its result, or a rejection. */
  datatype SmsOutcome = Sent(result: SendResult) | SmsRejected

  /** The auth code takes `sendSMS` off the service object
      (`const { sendSMS } = require(...)`), so inside it `this` is undefined
      and reading `this.isConfigured` throws: the call rejects. Called on the
      service object it resolves with its result. */
  function CallSendSms(boundToService: bool, result: SendResult): (o: SmsOutcome)
    ensures o.Sent? <==> boundToService
  {
    if boundToService then Sent(result) else SmsRejected
  }
}
