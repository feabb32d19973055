/**
 * The SOS dashboard: pressing SOS starts a ten-second countdown that can be
 * cancelled; when it runs out, every contact is sent the SOS message over each of
 * their channels and one record is added to the SOS history.
 *
 * The one-second interval is the `Tick` event. The position obtained at mount is
 * the `LocationResolved` event. The record's id and timestamp are inputs.
 */
module SOSDashboard {
  import opened Wrappers
  import opened Strings
  import opened Storage
  import opened Alerts

  const COUNTDOWN_START: nat := 10

  /** A position fix. */
  datatype Fix = Fix(lat: real, lng: real)

  /**
   * The message captured by `triggerSOS`: the SOS text, with the maps link when a
   * position is known.
   */
  function DashboardMessage(location: Option<Fix>, numberText: real -> string): (msg: string)
    ensures IsPrefix(SOS_TEXT, msg)
    ensures msg == SOS_TEXT <==> location.None?
  {
    if location.Some? then
      SOS_TEXT + LOCATION_TEXT + numberText(location.value.lat) + "," + numberText(location.value.lng)
    else SOS_TEXT
  }

  function Latitude(location: Option<Fix>): Option<real>
  {
    if location.Some? then Some(location.value.lat) else None
  }

  function Longitude(location: Option<Fix>): Option<real>
  {
    if location.Some? then Some(location.value.lng) else None
  }

  /**
   * The dashboard writes its own message, and it is the one `buildSOSMessage`
   * produces for the same position; it has the link exactly when a position is known.
   */
  lemma DashboardMessageIsSOSMessage(location: Option<Fix>, numberText: real -> string)
    ensures DashboardMessage(location, numberText)
            == BuildSOSMessage(Latitude(location), Longitude(location), numberText)
    ensures DashboardMessage(location, numberText) != SOS_TEXT <==> location.Some?
  {
    MessageHasLinkIffLocated(Latitude(location), Longitude(location), numberText);
  }

  /** The intents sent to one contact: SMS, WhatsApp if a handle is set, Telegram if a username is set. */
  function FanOut(c: EmergencyContact, message: string): (r: seq<Intent>)
    ensures 1 <= |r| <= 3 && r[0] == SmsIntent(c.phone, message)
    ensures forall i :: 1 <= i < |r| ==> !r[i].SmsIntent? && !r[i].CallIntent? && r[i].message == message
    ensures |r| == 1 + (if Truthy(c.whatsapp) then 1 else 0) + (if Truthy(c.telegram) then 1 else 0)
  {
    [SmsIntent(c.phone, message)]
    + (if Truthy(c.whatsapp) then [WhatsAppIntent(c.whatsapp.value, message)] else [])
    + (if Truthy(c.telegram) then [TelegramIntent(c.telegram.value, message)] else [])
  }

  /** The intents sent to a list of contacts, contact by contact. */
  function Dispatch(cs: seq<EmergencyContact>, message: string): (r: seq<Intent>)
    ensures |cs| <= |r| <= 3 * |cs|
  {
    if cs == [] then [] else Dispatch(cs[..|cs| - 1], message) + FanOut(cs[|cs| - 1], message)
  }

  /**
   * A contact gets a WhatsApp message exactly when it has a WhatsApp handle, and
   * then only to that handle; likewise for Telegram and its username.
   */
  lemma FanOutHandles(c: EmergencyContact, message: string)
    ensures Truthy(c.whatsapp) <==> WhatsAppIntent(c.whatsapp.GetOr(""), message) in FanOut(c, message)
    ensures forall x :: x in FanOut(c, message) && x.WhatsAppIntent?
                       ==> x == WhatsAppIntent(c.whatsapp.GetOr(""), message)
    ensures Truthy(c.telegram) <==> TelegramIntent(c.telegram.GetOr(""), message) in FanOut(c, message)
    ensures forall x :: x in FanOut(c, message) && x.TelegramIntent?
                       ==> x == TelegramIntent(c.telegram.GetOr(""), message)
  {
    var sms := SmsIntent(c.phone, message);
    var w := if Truthy(c.whatsapp) then [WhatsAppIntent(c.whatsapp.value, message)] else [];
    var t := if Truthy(c.telegram) then [TelegramIntent(c.telegram.value, message)] else [];
    var r := FanOut(c, message);
    assert r == [sms] + w + t;
    forall x | x in r ensures x == sms || x in w || x in t {
    }
  }

  /** One contact's fan-out, channel by channel: its SMS, WhatsApp to its handle, Telegram to its username. */
  lemma FanOutChannels(c: EmergencyContact, message: string)
    ensures OnChannel(FanOut(c, message), SmsChannel) == [SmsIntent(c.phone, message)]
    ensures OnChannel(FanOut(c, message), WhatsAppChannel)
            == if Truthy(c.whatsapp) then [WhatsAppIntent(c.whatsapp.value, message)] else []
    ensures OnChannel(FanOut(c, message), TelegramChannel)
            == if Truthy(c.telegram) then [TelegramIntent(c.telegram.value, message)] else []
    ensures OnChannel(FanOut(c, message), CallChannel) == []
  {
    FanOutOn(c, message, SmsChannel);
    FanOutOn(c, message, WhatsAppChannel);
    FanOutOn(c, message, TelegramChannel);
    FanOutOn(c, message, CallChannel);
  }

  /** The fan-out filtered to one channel is the SMS part, then the WhatsApp part, then the Telegram part of that filter. */
  lemma FanOutOn(c: EmergencyContact, message: string, ch: Channel)
    ensures OnChannel(FanOut(c, message), ch)
            == (if ch == SmsChannel then [SmsIntent(c.phone, message)] else [])
               + (if ch == WhatsAppChannel && Truthy(c.whatsapp) then [WhatsAppIntent(c.whatsapp.value, message)] else [])
               + (if ch == TelegramChannel && Truthy(c.telegram) then [TelegramIntent(c.telegram.value, message)] else [])
  {
    var sms := SmsIntent(c.phone, message);
    var w := if Truthy(c.whatsapp) then [WhatsAppIntent(c.whatsapp.value, message)] else [];
    var t := if Truthy(c.telegram) then [TelegramIntent(c.telegram.value, message)] else [];
    assert FanOut(c, message) == [sms] + w + t;
    OnChannelAppend([sms] + w, t, ch);
    OnChannelAppend([sms], w, ch);
    OnChannelSingle(sms, ch);
    if Truthy(c.whatsapp) {
      OnChannelSingle(w[0], ch);
    }
    if Truthy(c.telegram) {
      OnChannelSingle(t[0], ch);
    }
  }

  /** The ids of the contacts, in list order. */
  function Ids(cs: seq<EmergencyContact>): (ids: seq<string>)
    ensures |ids| == |cs| && forall i :: 0 <= i < |cs| ==> ids[i] == cs[i].id
  {
    seq(|cs|, i requires 0 <= i < |cs| => cs[i].id)
  }

  /** Every contact receives exactly one SMS, and the SMS go out in list order. */
  lemma {:induction false} DispatchSmsToEveryContact(cs: seq<EmergencyContact>, message: string)
    ensures OnChannel(Dispatch(cs, message), SmsChannel) == SmsPerContact(cs, message)
    decreases |cs|
  {
    if cs != [] {
      var init, last := cs[..|cs| - 1], cs[|cs| - 1];
      calc {
        OnChannel(Dispatch(cs, message), SmsChannel);
        OnChannel(Dispatch(init, message) + FanOut(last, message), SmsChannel);
        { OnChannelAppend(Dispatch(init, message), FanOut(last, message), SmsChannel); }
        OnChannel(Dispatch(init, message), SmsChannel) + OnChannel(FanOut(last, message), SmsChannel);
        { DispatchSmsToEveryContact(init, message); FanOutChannels(last, message); }
        SmsPerContact(init, message) + [SmsIntent(last.phone, message)];
        { SmsPerContactSnoc(cs, message); }
        SmsPerContact(cs, message);
      }
    }
  }

  /**
   * Besides the SMS, one WhatsApp message per WhatsApp handle and one Telegram
   * message per username are sent, and never a call.
   */
  lemma {:induction false} DispatchChannels(cs: seq<EmergencyContact>, message: string)
    ensures |Dispatch(cs, message)| == |cs| + CountWhatsApp(cs) + CountTelegram(cs)
    ensures forall i :: i in Dispatch(cs, message) ==> !i.CallIntent?
    decreases |cs|
  {
    if cs != [] {
      DispatchChannels(cs[..|cs| - 1], message);
    }
  }

  /**
   * The WhatsApp messages go to every contact's WhatsApp handle and the Telegram
   * messages to every contact's Telegram username, each in contact order; no call
   * is placed.
   */
  lemma DispatchToHandles(cs: seq<EmergencyContact>, message: string)
    ensures OnChannel(Dispatch(cs, message), WhatsAppChannel) == WhatsAppPerContact(cs, message)
    ensures OnChannel(Dispatch(cs, message), TelegramChannel) == TelegramPerContact(cs, message)
    ensures OnChannel(Dispatch(cs, message), CallChannel) == []
  {
    DispatchOnChannel(cs, message, WhatsAppChannel);
    DispatchOnChannel(cs, message, TelegramChannel);
    DispatchOnChannel(cs, message, CallChannel);
  }

  /** `Dispatch` filtered to one non-SMS channel is that channel's per-contact intents. */
  lemma {:induction false} DispatchOnChannel(cs: seq<EmergencyContact>, message: string, ch: Channel)
    requires ch != SmsChannel
    ensures OnChannel(Dispatch(cs, message), ch)
            == if ch == WhatsAppChannel then WhatsAppPerContact(cs, message)
               else if ch == TelegramChannel then TelegramPerContact(cs, message)
               else []
    decreases |cs|
  {
    if cs != [] {
      var init, last := cs[..|cs| - 1], cs[|cs| - 1];
      var d := Dispatch(init, message);
      assert Dispatch(cs, message) == d + FanOut(last, message);
      DispatchOnChannel(init, message, ch);
      FanOutOn(last, message, ch);
      OnChannelAppend(d, FanOut(last, message), ch);
      if ch == WhatsAppChannel {
        assert OnChannel(FanOut(last, message), ch)
               == if Truthy(last.whatsapp) then [WhatsAppIntent(last.whatsapp.value, message)] else [];
      } else if ch == TelegramChannel {
        assert OnChannel(FanOut(last, message), ch)
               == if Truthy(last.telegram) then [TelegramIntent(last.telegram.value, message)] else [];
      } else {
        assert OnChannel(FanOut(last, message), ch) == [];
      }
    }
  }


  /**
   * Without Telegram usernames the dashboard sends what the sequential
   * `triggerSOS` of the alerts module would attempt.
   */
  lemma {:induction false} DispatchWithoutTelegramIsSequential(cs: seq<EmergencyContact>, message: string)
    requires forall c :: c in cs ==> !Truthy(c.telegram)
    ensures Dispatch(cs, message) == SequentialAttempts(cs, message)
    decreases |cs|
  {
    if cs != [] {
      assert cs[|cs| - 1] in cs;
      DispatchWithoutTelegramIsSequential(cs[..|cs| - 1], message);
    }
  }

  /**
   * The `for` loop over the captured contacts: per contact the SMS, then WhatsApp
   * when a handle is set, then Telegram when a username is set.
   */
  method SendToAll(cs: seq<EmergencyContact>, msg: string) returns (sent: seq<Intent>)
    ensures sent == Dispatch(cs, msg)
  {
    sent := [];
    for i := 0 to |cs|
      invariant sent == Dispatch(cs[..i], msg)
    {
      var c := cs[i];
      ghost var before := sent;
      sent := sent + [SmsIntent(c.phone, msg)];
      if Truthy(c.whatsapp) {
        sent := sent + [WhatsAppIntent(c.whatsapp.value, msg)];
      }
      if Truthy(c.telegram) {
        sent := sent + [TelegramIntent(c.telegram.value, msg)];
      }
      assert sent == before + FanOut(c, msg);
      assert cs[..i + 1][..i] == cs[..i];
      assert Dispatch(cs[..i + 1], msg) == Dispatch(cs[..i], msg) + FanOut(c, msg);
    }
    assert cs[..|cs|] == cs;
  }

  /** The record appended when the countdown runs out. */
  function DispatchRecord(id: string, now: int, cs: seq<EmergencyContact>, location: Option<Fix>): (r: SOSRecord)
    ensures r.contactsNotified == Ids(cs) && !r.cancelled
    ensures r.id == id && r.timestamp == now
    ensures r.latitude == Latitude(location) && r.longitude == Longitude(location)
    ensures r.latitude.Some? <==> location.Some?
    ensures location.Some? ==> r.latitude == Some(location.value.lat) && r.longitude == Some(location.value.lng)
  {
    SOSRecord(id, now, Latitude(location), Longitude(location), Ids(cs), false)
  }

  class Dashboard {
    const store: Store
    /** The contacts as the app holds them. */
    var contacts: seq<EmergencyContact>
    var sosActive: bool
    var countdown: nat
    var location: Option<Fix>
    /** Whether the countdown interval is set. */
    var intervalArmed: bool
    /** What `triggerSOS` captured for its interval: the contacts, the position and the message. */
    var sentContacts: seq<EmergencyContact>
    var sentLocation: Option<Fix>
    var message: string
    /** Every intent issued so far, in order. */
    var outbox: seq<Intent>

    /** The countdown is running exactly while the overlay is shown, and it is never below 1 then. */
    predicate Valid()
      reads this
    {
      intervalArmed == sosActive && countdown <= COUNTDOWN_START && (sosActive ==> countdown >= 1)
    }

    constructor (store: Store, contacts: seq<EmergencyContact>)
      ensures this.store == store && this.contacts == contacts && Valid()
      ensures !sosActive && countdown == COUNTDOWN_START && location.None? && outbox == []
    {
      this.store := store;
      this.contacts := contacts;
      sosActive, countdown, location, intervalArmed := false, COUNTDOWN_START, None, false;
      sentContacts, sentLocation, message, outbox := [], None, "", [];
    }

    /**
     * The mount-time location effect: a fix obtained with permission granted is
     * stored; `None` (permission refused, or any failure) leaves the location as it is.
     */
    method LocationResolved(fix: Option<Fix>)
      modifies this
      ensures location == if fix.Some? then fix else old(location)
      ensures sosActive == old(sosActive) && countdown == old(countdown) && intervalArmed == old(intervalArmed)
      ensures outbox == old(outbox) && message == old(message) && sentContacts == old(sentContacts)
      ensures sentLocation == old(sentLocation) && contacts == old(contacts)
    {
      if fix.Some? {
        location := fix;
      }
    }

    /**
     * `handleSOSPress`: does nothing while a countdown is running; otherwise
     * `triggerSOS` shows the overlay at 10, captures the message for the current
     * position and the current contacts, and sets the interval.
     */
    method HandleSOSPress(numberText: real -> string)
      requires Valid()
      modifies this
      ensures Valid()
      ensures old(sosActive) ==>
        countdown == old(countdown) && message == old(message)
        && sentContacts == old(sentContacts) && sentLocation == old(sentLocation)
      ensures !old(sosActive) ==>
        countdown == COUNTDOWN_START && message == DashboardMessage(location, numberText)
        && sentContacts == contacts && sentLocation == location
      ensures sosActive && intervalArmed
      ensures outbox == old(outbox) && location == old(location) && contacts == old(contacts)
    {
      if sosActive {
        return;
      }
      sosActive := true;
      countdown := COUNTDOWN_START;
      message := DashboardMessage(location, numberText);
      sentContacts, sentLocation := contacts, location;
      intervalArmed := true;
    }

    /**
     * One interval tick. Above 1 the countdown decreases and nothing is sent. At 1
     * the interval is cleared, every captured contact is sent the message over each
     * of its channels, one record listing every contact id is added to the history,
     * the overlay closes and the countdown is left at 0.
     */
    method Tick(id: string, now: int, readFails: bool, writeFails: bool)
      requires Valid() && intervalArmed
      modifies this, store
      ensures Valid()
      ensures old(countdown) > 1 ==>
        countdown == old(countdown) - 1 && sosActive && outbox == old(outbox)
        && store.data == old(store.data) && store.log == old(store.log)
      ensures old(countdown) <= 1 ==>
        countdown == 0 && !sosActive && !intervalArmed
        && outbox == old(outbox) + Dispatch(sentContacts, message)
        && store.data == SetItem(old(store.data), SOS_HISTORY_KEY,
             HistoryV(Prepend(GetSOSHistory(old(store.data), readFails),
                              DispatchRecord(id, now, sentContacts, sentLocation))), writeFails)
        && store.log == old(store.log) + [SOS_HISTORY_KEY]
      ensures message == old(message) && sentContacts == old(sentContacts) && sentLocation == old(sentLocation)
      ensures location == old(location) && contacts == old(contacts)
    {
      if countdown <= 1 {
        Fire(id, now, readFails, writeFails);
      } else {
        countdown := countdown - 1;
      }
    }

    /**
     * The last tick's work: clears the interval, sends the captured message to
     * every captured contact, records the dispatch and closes the overlay.
     */
    method Fire(id: string, now: int, readFails: bool, writeFails: bool)
      modifies this, store
      ensures Valid() && countdown == 0 && !sosActive && !intervalArmed
      ensures outbox == old(outbox) + Dispatch(sentContacts, message)
      ensures store.data == SetItem(old(store.data), SOS_HISTORY_KEY,
                HistoryV(Prepend(GetSOSHistory(old(store.data), readFails),
                                 DispatchRecord(id, now, sentContacts, sentLocation))), writeFails)
      ensures store.log == old(store.log) + [SOS_HISTORY_KEY]
      ensures message == old(message) && sentContacts == old(sentContacts) && sentLocation == old(sentLocation)
      ensures location == old(location) && contacts == old(contacts)
    {
      var sent := SendToAll(sentContacts, message);
      store.AddSOSRecord(DispatchRecord(id, now, sentContacts, sentLocation), readFails, writeFails);
      intervalArmed, sosActive, countdown := false, false, 0;
      outbox := outbox + sent;
    }

    /** `cancelSOS`: clears the interval, closes the overlay and resets the countdown; nothing is sent. */
    method Cancel()
      requires Valid()
      modifies this
      ensures Valid()
      ensures !sosActive && !intervalArmed && countdown == COUNTDOWN_START
      ensures outbox == old(outbox) && message == old(message) && sentContacts == old(sentContacts)
      ensures sentLocation == old(sentLocation) && location == old(location) && contacts == old(contacts)
    {
      intervalArmed := false;
      sosActive := false;
      countdown := COUNTDOWN_START;
    }
  }

  /**
   * After SOS is pressed, nine ticks only count down, from 10 to 1, sending
   * nothing; the tenth sends to every contact and adds exactly one record.
   */
  method DispatchOnTenthTick(contacts: seq<EmergencyContact>, fix: Option<Fix>, numberText: real -> string)
    returns (activeAfterNine: bool, sentAfterNine: seq<Intent>, sent: seq<Intent>, writes: seq<string>, active: bool)
    ensures activeAfterNine && sentAfterNine == []
    ensures sent == Dispatch(contacts, DashboardMessage(fix, numberText))
    ensures writes == [SOS_HISTORY_KEY] && !active
  {
    var store := new Store(map[]);
    var d := new Dashboard(store, contacts);
    d.LocationResolved(fix);
    d.HandleSOSPress(numberText);
    var k := 0;
    while k < 9
      invariant 0 <= k <= 9 && d.Valid() && d.intervalArmed
      invariant d.countdown == COUNTDOWN_START - k && d.outbox == [] && store.log == []
      invariant d.sentContacts == contacts && d.message == DashboardMessage(fix, numberText)
    {
      d.Tick("", 0, false, false);
      k := k + 1;
    }
    activeAfterNine, sentAfterNine := d.sosActive, d.outbox;
    d.Tick("", 0, false, false);
    sent, writes, active := d.outbox, store.log, d.sosActive;
  }

  /**
   * Cancelling a running countdown, at any time up to and including the second
   * shown as 1, sends nothing and adds no record; the next press starts again at 10.
   */
  method CancelSendsNothing(contacts: seq<EmergencyContact>, ticks: nat, numberText: real -> string)
    returns (sent: seq<Intent>, writes: seq<string>, restart: nat)
    requires ticks <= 9
    ensures sent == [] && writes == [] && restart == COUNTDOWN_START
  {
    var store := new Store(map[]);
    var d := new Dashboard(store, contacts);
    d.HandleSOSPress(numberText);
    var k := 0;
    while k < ticks
      invariant 0 <= k <= ticks && d.Valid() && d.intervalArmed
      invariant d.countdown == COUNTDOWN_START - k && d.outbox == [] && store.log == []
    {
      d.Tick("", 0, false, false);
      k := k + 1;
    }
    d.Cancel();
    sent, writes := d.outbox, store.log;
    d.HandleSOSPress(numberText);
    restart := d.countdown;
  }
}
