/**
 * Outbound alerts: the SOS message, the deep-link URL of each channel (SMS,
 * voice call, WhatsApp, Telegram), the senders that open those URLs, and the
 * sequential `triggerSOS` that reports the contacts whose SMS could be issued.
 *
 * The platform is a parameter: the operating system, JavaScript's rendering of
 * a number in a template string, `encodeURIComponent`, what `canOpenURL`
 * answers for a URL (or that it rejects), and whether `openURL` rejects it.
 */
module Alerts {
  import opened Wrappers
  import opened Strings
  import opened Storage

  const SOS_TEXT: string := "ALERTA SOS! Preciso de ajuda urgente!"
  const LOCATION_TEXT: string := " Minha localização: https://maps.google.com/?q="

  datatype OS = IOS | Android | Web

  /** What the awaited `canOpenURL(url)` does: resolves with an answer, or rejects. */
  datatype Answer = Answers(canOpen: bool) | Rejects

  datatype Device = Device(
    os: OS,
    numberText: real -> string,
    encode: string -> string,
    canOpenURL: string -> Answer,
    openURLRejects: string -> bool)

  /** A message over one channel to one recipient. */
  datatype Intent =
    | SmsIntent(phone: string, message: string)
    | CallIntent(phone: string)
    | WhatsAppIntent(phone: string, message: string)
    | TelegramIntent(username: string, message: string)

  /** The channel an intent goes over. */
  datatype Channel = SmsChannel | CallChannel | WhatsAppChannel | TelegramChannel

  function ChannelOf(i: Intent): Channel
  {
    match i
    case SmsIntent(_, _) => SmsChannel
    case CallIntent(_) => CallChannel
    case WhatsAppIntent(_, _) => WhatsAppChannel
    case TelegramIntent(_, _) => TelegramChannel
  }

  /** The intents over one channel among `xs`, in order. */
  function OnChannel(xs: seq<Intent>, ch: Channel): (r: seq<Intent>)
    ensures |r| <= |xs|
  {
    if xs == [] then []
    else OnChannel(xs[..|xs| - 1], ch) + (if ChannelOf(xs[|xs| - 1]) == ch then [xs[|xs| - 1]] else [])
  }

  /** An intent survives the filter exactly when it is in the list and on that channel. */
  lemma {:induction false} OnChannelMembers(xs: seq<Intent>, ch: Channel, x: Intent)
    ensures x in OnChannel(xs, ch) <==> x in xs && ChannelOf(x) == ch
    decreases |xs|
  {
    if xs != [] {
      var init, last := xs[..|xs| - 1], xs[|xs| - 1];
      OnChannelMembers(init, ch, x);
      assert xs == init + [last];
    }
  }

  lemma {:induction false} OnChannelAppend(a: seq<Intent>, b: seq<Intent>, ch: Channel)
    ensures OnChannel(a + b, ch) == OnChannel(a, ch) + OnChannel(b, ch)
    decreases |b|
  {
    if b == [] {
      assert a + b == a;
    } else {
      var ab := a + b;
      assert ab[..|ab| - 1] == a + b[..|b| - 1];
      assert ab[|ab| - 1] == b[|b| - 1];
      OnChannelAppend(a, b[..|b| - 1], ch);
    }
  }

  lemma OnChannelSingle(x: Intent, ch: Channel)
    ensures OnChannel([x], ch) == if ChannelOf(x) == ch then [x] else []
  {
    assert [x][..0] == [];
  }

  /** JavaScript truthiness of an optional string: present and not empty. */
  predicate Truthy(s: Option<string>)
    ensures Truthy(s) <==> s.GetOr("") != ""
  {
    s.Some? && s.value != ""
  }

  /**
   * `buildSOSMessage(lat, lng)`: the fixed SOS text, followed by a maps link when
   * both coordinates are defined.
   */
  function BuildSOSMessage(lat: Option<real>, lng: Option<real>, numberText: real -> string): (msg: string)
    ensures IsPrefix(SOS_TEXT, msg)
    ensures |msg| > |SOS_TEXT| <==> lat.Some? && lng.Some?
  {
    if lat.Some? && lng.Some? then
      SOS_TEXT + LOCATION_TEXT + numberText(lat.value) + "," + numberText(lng.value)
    else SOS_TEXT
  }

  /**
   * The message always starts with the SOS text, and it carries the maps link
   * exactly when both coordinates are known: the coordinates in order, comma
   * separated, after the link prefix.
   */
  lemma MessageHasLinkIffLocated(lat: Option<real>, lng: Option<real>, numberText: real -> string)
    ensures IsPrefix(SOS_TEXT, BuildSOSMessage(lat, lng, numberText))
    ensures BuildSOSMessage(lat, lng, numberText) != SOS_TEXT <==> lat.Some? && lng.Some?
    ensures lat.Some? && lng.Some? ==> IsPrefix(SOS_TEXT + LOCATION_TEXT, BuildSOSMessage(lat, lng, numberText))
    ensures lat.Some? && lng.Some? ==>
              BuildSOSMessage(lat, lng, numberText)[|SOS_TEXT + LOCATION_TEXT|..]
              == numberText(lat.value) + "," + numberText(lng.value)
  {
    var msg := BuildSOSMessage(lat, lng, numberText);
    if lat.Some? && lng.Some? {
      var tail := numberText(lat.value) + "," + numberText(lng.value);
      assert msg == (SOS_TEXT + LOCATION_TEXT) + tail;
      assert |msg| > |SOS_TEXT|;
    }
  }

  /** The query separator of an `sms:` URL: `&` on iOS, `?` elsewhere. */
  function SmsSeparator(os: OS): (sep: char)
  {
    if os == IOS then '&' else '?'
  }

  /** `sendSMS`'s URL: the recipient after `sms:`, then `&` or `?`, then the encoded body. */
  function SmsUrl(phone: string, message: string, dev: Device): (url: string)
    ensures IsPrefix("sms:" + phone, url) && |url| > 4 + |phone| && url[4 + |phone|] in {'&', '?'}
    ensures url[5 + |phone|..] == "body=" + dev.encode(message)
  {
    "sms:" + phone + [SmsSeparator(dev.os)] + "body=" + dev.encode(message)
  }

  /** `makeCall`'s URL: `tel:` followed by exactly the number. */
  function CallUrl(phone: string): (url: string)
    ensures IsPrefix("tel:", url) && url[4..] == phone
  {
    "tel:" + phone
  }

  /** `sendWhatsApp`'s URL: the cleaned number after `wa.me/`, then the encoded text. */
  function WhatsAppUrl(phone: string, message: string, dev: Device): (url: string)
    ensures IsPrefix("https://wa.me/" + DigitsOnly(phone) + "?text=", url)
    ensures url[|DigitsOnly(phone)| + 20..] == dev.encode(message)
  {
    "https://wa.me/" + DigitsOnly(phone) + "?text=" + dev.encode(message)
  }

  /** `sendTelegram`'s URL: the user name after `t.me/`, then the encoded text. */
  function TelegramUrl(username: string, message: string, dev: Device): (url: string)
    ensures IsPrefix("https://t.me/" + username + "?text=", url)
    ensures url[|username| + 19..] == dev.encode(message)
  {
    "https://t.me/" + username + "?text=" + dev.encode(message)
  }

  /** The URL each sender opens; its scheme and host name the channel. */
  function IntentUrl(i: Intent, dev: Device): (url: string)
    ensures i.SmsIntent? <==> IsPrefix("sms:", url)
    ensures i.CallIntent? <==> IsPrefix("tel:", url)
    ensures i.WhatsAppIntent? <==> IsPrefix("https://wa.me/", url)
    ensures i.TelegramIntent? <==> IsPrefix("https://t.me/", url)
  {
    match i
    case SmsIntent(p, m) =>
      var url := SmsUrl(p, m, dev);
      assert url[..4] == "sms:" && url[0] == 's';
      url
    case CallIntent(p) =>
      var url := CallUrl(p);
      assert url[..4] == "tel:" && url[0] == 't';
      url
    case WhatsAppIntent(p, m) =>
      var url := WhatsAppUrl(p, m, dev);
      assert url[..14] == "https://wa.me/" && url[0] == 'h' && url[8] == 'w';
      url
    case TelegramIntent(u, m) =>
      var url := TelegramUrl(u, m, dev);
      assert url[..13] == "https://t.me/" && url[0] == 'h' && url[8] == 't';
      url
  }

  /**
   * The SMS URL names the recipient right after `sms:` and then the platform's
   * separator; the iOS and the Android URL differ in that one character only.
   */
  lemma SmsUrlShape(phone: string, message: string, dev: Device)
    ensures var url := SmsUrl(phone, message, dev);
            IsPrefix("sms:" + phone, url) && url[4 + |phone|] == SmsSeparator(dev.os)
            && url[5 + |phone|..] == "body=" + dev.encode(message)
    ensures dev.os == IOS <==> SmsUrl(phone, message, dev)[4 + |phone|] == '&'
    ensures forall i :: 0 <= i < |SmsUrl(phone, message, dev)| && i != 4 + |phone| ==>
              SmsUrl(phone, message, dev)[i] == SmsUrl(phone, message, dev.(os := Android))[i]
  {
    var url := SmsUrl(phone, message, dev);
    assert url == ("sms:" + phone) + [SmsSeparator(dev.os)] + ("body=" + dev.encode(message));
    var url' := SmsUrl(phone, message, dev.(os := Android));
    assert url' == ("sms:" + phone) + [SmsSeparator(Android)] + ("body=" + dev.encode(message));
  }

  /**
   * The WhatsApp link carries only the digits of the number, so numbers written
   * with spaces, `+` or dashes reach the same chat as their bare digits.
   */
  lemma WhatsAppUrlNormalises(phone: string, message: string, dev: Device)
    ensures var url := WhatsAppUrl(phone, message, dev);
            IsPrefix("https://wa.me/" + DigitsOnly(phone), url)
            && forall i :: 14 <= i < 14 + |DigitsOnly(phone)| ==> IsDigit(url[i])
    ensures WhatsAppUrl(DigitsOnly(phone), message, dev) == WhatsAppUrl(phone, message, dev)
  {
    DigitsOnlyIdempotent(phone);
    var url := WhatsAppUrl(phone, message, dev);
    assert url == ("https://wa.me/" + DigitsOnly(phone)) + ("?text=" + dev.encode(message));
    forall i | 14 <= i < 14 + |DigitsOnly(phone)| ensures IsDigit(url[i]) {
      assert url[i] == DigitsOnly(phone)[i - 14];
    }
  }

  /**
   * Every sender (`sendSMS`, `makeCall`, `sendWhatsApp`, `sendTelegram`): awaits
   * `canOpenURL`; only on a true answer awaits `openURL` and answers true; a false
   * answer gives false, and the `catch` turns either rejection into false.
   */
  function Send(i: Intent, dev: Device): (sent: bool)
    ensures sent <==> dev.canOpenURL(IntentUrl(i, dev)) == Answers(true) && !dev.openURLRejects(IntentUrl(i, dev))
    ensures dev.canOpenURL(IntentUrl(i, dev)).Rejects? ==> !sent
  {
    var url := IntentUrl(i, dev);
    match dev.canOpenURL(url)
    case Rejects => false
    case Answers(canOpen) =>
      if canOpen then
        if dev.openURLRejects(url) then false else true
      else false
  }

  /** `openURL` is attempted exactly when `canOpenURL` resolved with true. */
  predicate OpenAttempted(i: Intent, dev: Device)
  {
    match dev.canOpenURL(IntentUrl(i, dev))
    case Rejects => false
    case Answers(canOpen) => canOpen
  }

  /**
   * A sender reports success only after attempting `openURL`, and an attempt that
   * does not reject is a success: the answer is never true for a URL the platform
   * declined or could not be asked about.
   */
  lemma SentOnlyAfterOpen(i: Intent, dev: Device)
    ensures Send(i, dev) <==> OpenAttempted(i, dev) && !dev.openURLRejects(IntentUrl(i, dev))
    ensures dev.canOpenURL(IntentUrl(i, dev)) == Answers(false) ==> !Send(i, dev) && !OpenAttempted(i, dev)
  {
  }

  /** The intents `triggerSOS` issues for one contact: SMS, then WhatsApp if a handle is set. */
  function SequentialIntents(c: EmergencyContact, message: string): seq<Intent>
  {
    [SmsIntent(c.phone, message)] + (if Truthy(c.whatsapp) then [WhatsAppIntent(c.whatsapp.value, message)] else [])
  }

  /** The intents `triggerSOS` issues for a list of contacts, in order. */
  function SequentialAttempts(cs: seq<EmergencyContact>, message: string): seq<Intent>
  {
    if cs == [] then []
    else SequentialAttempts(cs[..|cs| - 1], message) + SequentialIntents(cs[|cs| - 1], message)
  }

  /** The ids of the contacts whose SMS could be issued, in contact order. */
  function SmsNotified(cs: seq<EmergencyContact>, message: string, dev: Device): seq<string>
  {
    if cs == [] then []
    else SmsNotified(cs[..|cs| - 1], message, dev)
         + (if Send(SmsIntent(cs[|cs| - 1].phone, message), dev) then [cs[|cs| - 1].id] else [])
  }

  /**
   * `triggerSOS(contacts, latitude, longitude)`: for each contact in turn, sends the
   * SMS and records the contact's id if it was issued, then sends WhatsApp if the
   * contact has a handle (its result is ignored). `attempts` lists the intents
   * issued, in order.
   */
  method TriggerSOS(contacts: seq<EmergencyContact>, lat: Option<real>, lng: Option<real>, dev: Device)
    returns (notified: seq<string>, attempts: seq<Intent>)
    ensures notified == SmsNotified(contacts, BuildSOSMessage(lat, lng, dev.numberText), dev)
    ensures attempts == SequentialAttempts(contacts, BuildSOSMessage(lat, lng, dev.numberText))
  {
    var message := BuildSOSMessage(lat, lng, dev.numberText);
    notified, attempts := [], [];
    var i := 0;
    while i < |contacts|
      invariant 0 <= i <= |contacts|
      invariant notified == SmsNotified(contacts[..i], message, dev)
      invariant attempts == SequentialAttempts(contacts[..i], message)
    {
      var contact := contacts[i];
      var smsSent := Send(SmsIntent(contact.phone, message), dev);
      attempts := attempts + [SmsIntent(contact.phone, message)];
      if smsSent {
        notified := notified + [contact.id];
      }
      if Truthy(contact.whatsapp) {
        attempts := attempts + [WhatsAppIntent(contact.whatsapp.value, message)];
      }
      assert contacts[..i + 1][..i] == contacts[..i];
      i := i + 1;
    }
    assert contacts[..i] == contacts;
  }

  /**
   * An id is reported exactly when some contact with that id had its SMS issued;
   * the report is never longer than the contact list.
   */
  lemma {:induction false} SmsNotifiedExactly(cs: seq<EmergencyContact>, message: string, dev: Device)
    ensures |SmsNotified(cs, message, dev)| <= |cs|
    ensures forall id :: id in SmsNotified(cs, message, dev) <==>
              exists k :: 0 <= k < |cs| && cs[k].id == id && Send(SmsIntent(cs[k].phone, message), dev)
    decreases |cs|
  {
    if cs != [] {
      var init := cs[..|cs| - 1];
      SmsNotifiedExactly(init, message, dev);
      forall id ensures id in SmsNotified(cs, message, dev) <==>
          exists k :: 0 <= k < |cs| && cs[k].id == id && Send(SmsIntent(cs[k].phone, message), dev)
      {
        if k :| 0 <= k < |cs| && cs[k].id == id && Send(SmsIntent(cs[k].phone, message), dev) {
          if k < |cs| - 1 {
            assert init[k] == cs[k];
          }
        }
        if id in SmsNotified(init, message, dev) {
          var k :| 0 <= k < |init| && init[k].id == id && Send(SmsIntent(init[k].phone, message), dev);
          assert cs[k] == init[k];
        }
      }
    }
  }

  /**
   * Only SMS outcomes matter: two platforms that agree on every SMS URL give the
   * same report, whatever WhatsApp (or any other channel) does.
   */
  lemma {:induction false} SmsNotifiedIgnoresOtherChannels(cs: seq<EmergencyContact>, message: string,
                                                           dev1: Device, dev2: Device)
    requires dev1.os == dev2.os && dev1.encode == dev2.encode
    requires forall c :: c in cs ==>
               dev1.canOpenURL(SmsUrl(c.phone, message, dev1)) == dev2.canOpenURL(SmsUrl(c.phone, message, dev2))
               && dev1.openURLRejects(SmsUrl(c.phone, message, dev1)) == dev2.openURLRejects(SmsUrl(c.phone, message, dev2))
    ensures SmsNotified(cs, message, dev1) == SmsNotified(cs, message, dev2)
    decreases |cs|
  {
    if cs != [] {
      assert cs[|cs| - 1] in cs;
      SmsNotifiedIgnoresOtherChannels(cs[..|cs| - 1], message, dev1, dev2);
    }
  }

  /** The SMS intent each contact receives, in list order. */
  function SmsPerContact(cs: seq<EmergencyContact>, message: string): (r: seq<Intent>)
    ensures |r| == |cs| && forall i :: 0 <= i < |cs| ==> r[i] == SmsIntent(cs[i].phone, message)
  {
    seq(|cs|, i requires 0 <= i < |cs| => SmsIntent(cs[i].phone, message))
  }

  lemma SmsPerContactSnoc(cs: seq<EmergencyContact>, message: string)
    requires cs != []
    ensures SmsPerContact(cs, message)
            == SmsPerContact(cs[..|cs| - 1], message) + [SmsIntent(cs[|cs| - 1].phone, message)]
  {
    var l := SmsPerContact(cs, message);
    var r := SmsPerContact(cs[..|cs| - 1], message) + [SmsIntent(cs[|cs| - 1].phone, message)];
    assert |l| == |r|;
    forall i | 0 <= i < |l| ensures l[i] == r[i] {
    }
  }

  /** The WhatsApp intent to each contact that has a handle, to that handle, in list order. */
  function WhatsAppPerContact(cs: seq<EmergencyContact>, message: string): (r: seq<Intent>)
    ensures |r| == CountWhatsApp(cs)
  {
    if cs == [] then []
    else WhatsAppPerContact(cs[..|cs| - 1], message)
         + (if Truthy(cs[|cs| - 1].whatsapp) then [WhatsAppIntent(cs[|cs| - 1].whatsapp.value, message)] else [])
  }

  /** The Telegram intent to each contact that has a username, to that username, in list order. */
  function TelegramPerContact(cs: seq<EmergencyContact>, message: string): (r: seq<Intent>)
    ensures |r| == CountTelegram(cs)
  {
    if cs == [] then []
    else TelegramPerContact(cs[..|cs| - 1], message)
         + (if Truthy(cs[|cs| - 1].telegram) then [TelegramIntent(cs[|cs| - 1].telegram.value, message)] else [])
  }

  /** How many contacts have a WhatsApp handle. */
  function CountWhatsApp(cs: seq<EmergencyContact>): nat
  {
    if cs == [] then 0
    else CountWhatsApp(cs[..|cs| - 1]) + (if Truthy(cs[|cs| - 1].whatsapp) then 1 else 0)
  }

  /** How many contacts have a Telegram username. */
  function CountTelegram(cs: seq<EmergencyContact>): nat
  {
    if cs == [] then 0
    else CountTelegram(cs[..|cs| - 1]) + (if Truthy(cs[|cs| - 1].telegram) then 1 else 0)
  }

  /** One contact's attempts, channel by channel: its SMS, and WhatsApp to its handle when set. */
  lemma SequentialIntentsChannels(c: EmergencyContact, message: string)
    ensures OnChannel(SequentialIntents(c, message), SmsChannel) == [SmsIntent(c.phone, message)]
    ensures OnChannel(SequentialIntents(c, message), WhatsAppChannel)
            == if Truthy(c.whatsapp) then [WhatsAppIntent(c.whatsapp.value, message)] else []
    ensures OnChannel(SequentialIntents(c, message), TelegramChannel) == []
    ensures OnChannel(SequentialIntents(c, message), CallChannel) == []
  {
    var sms := SmsIntent(c.phone, message);
    var w := if Truthy(c.whatsapp) then [WhatsAppIntent(c.whatsapp.value, message)] else [];
    forall ch ensures OnChannel(SequentialIntents(c, message), ch) == OnChannel([sms], ch) + OnChannel(w, ch) {
      OnChannelAppend([sms], w, ch);
    }
    forall ch ensures OnChannel([sms], ch) == if ch == SmsChannel then [sms] else [] {
      OnChannelSingle(sms, ch);
    }
    if Truthy(c.whatsapp) {
      forall ch ensures OnChannel(w, ch) == if ch == WhatsAppChannel then w else [] {
        OnChannelSingle(w[0], ch);
      }
    }
  }

  /**
   * `triggerSOS` issues one SMS to every contact's phone and one WhatsApp message
   * to every contact's handle, each channel in contact order, and never a Telegram
   * message or a call.
   */
  lemma {:induction false} SequentialAttemptsChannels(cs: seq<EmergencyContact>, message: string)
    ensures OnChannel(SequentialAttempts(cs, message), SmsChannel) == SmsPerContact(cs, message)
    ensures OnChannel(SequentialAttempts(cs, message), WhatsAppChannel) == WhatsAppPerContact(cs, message)
    ensures OnChannel(SequentialAttempts(cs, message), TelegramChannel) == []
    ensures OnChannel(SequentialAttempts(cs, message), CallChannel) == []
    ensures |SequentialAttempts(cs, message)| == |cs| + CountWhatsApp(cs)
    decreases |cs|
  {
    if cs != [] {
      var init, last := cs[..|cs| - 1], cs[|cs| - 1];
      SequentialAttemptsChannels(init, message);
      SequentialIntentsChannels(last, message);
      SmsPerContactSnoc(cs, message);
      forall ch ensures OnChannel(SequentialAttempts(cs, message), ch)
                        == OnChannel(SequentialAttempts(init, message), ch) + OnChannel(SequentialIntents(last, message), ch)
      {
        OnChannelAppend(SequentialAttempts(init, message), SequentialIntents(last, message), ch);
      }
    }
  }
}
