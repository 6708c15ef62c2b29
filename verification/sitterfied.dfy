/**
 * skills/sitterfied.py: the sitter-booking skill, with the request handling
 * it inherits from AlexaSkill in skills/alexa.py (on_intent and execute).
 * Each handler method works on the turn's Session object, which the
 * Response it answers with shares, and is proved to store and say what the
 * definitions in module Dialog prescribe.
 */
module Sitterfied {
  import opened Wrappers
  import opened Utils
  import opened Alexa
  import opened Dialog

  const APP_ID := "amzn1.echo-sdk-ams.app.b9944c3a-185d-4669-a202-3702c9b8fd4b"

  /** The intent handlers the skill registers. */
  datatype IntentHandler = CancelIntent | HelpIntent | StopIntent | DialogRequestSitter | RequestSitter

  /** The skill's intent table, by intent name. */
  function SitterfiedIntents(): (t: map<string, IntentHandler>)
    ensures |t.Keys| == 5
    ensures "DialogRequestSitterIntent" in t && t["DialogRequestSitterIntent"] == DialogRequestSitter
    ensures "RequestSitterIntent" in t && t["RequestSitterIntent"] == RequestSitter
  {
    map[
      "AMAZON.CancelIntent" := CancelIntent,
      "AMAZON.HelpIntent" := HelpIntent,
      "AMAZON.StopIntent" := StopIntent,
      "DialogRequestSitterIntent" := DialogRequestSitter,
      "RequestSitterIntent" := RequestSitter]
  }

  /** What a registered intent handler stores and says. */
  function IntentTurn(fmt: Formatters, handler: IntentHandler, intent: Intent, attributes: Attributes): (t: Turn)
    ensures t.reply.Telling? <==> handler == CancelIntent || handler == StopIntent
    ensures handler != DialogRequestSitter && handler != RequestSitter ==> t.attributes == attributes
  {
    match handler
    case CancelIntent => Turn(attributes, Telling(Text(SESSION_ENDED_MESSAGE)))
    case StopIntent => Turn(attributes, Telling(Text(SESSION_ENDED_MESSAGE)))
    case HelpIntent => HelpTurn(attributes)
    case DialogRequestSitter => DialogTurn(fmt, intent, attributes)
    case RequestSitter => DialogTurn(fmt, intent, attributes)
  }

  /** on_launch: a greeting that asks when a sitter is needed. */
  function LaunchTurn(attributes: Attributes): (t: Turn)
    ensures t.attributes == attributes
    ensures t.reply == Asking(Text(LAUNCH_SPEECH), Text(LAUNCH_REPROMPT))
  {
    Turn(attributes, Asking(Text(LAUNCH_SPEECH), Text(LAUNCH_REPROMPT)))
  }

  /**
   * execute, as a function of the event: None where execute's exception
   * handler swallows an error (a foreign application id, a session without
   * attributes, which execute tries to give an empty dictionary with setattr
   * on an immutable namedtuple, a request type with no handler, a missing
   * intent, an unsupported intent, the session-ended handler called with one
   * argument too many), otherwise the envelope.
   */
  function Respond(appId: string, fmt: Formatters, intents: map<string, IntentHandler>, event: Event): (r: Option<Envelope>)
    ensures r.Some? ==> (appId == "" || event.applicationId == appId) && event.attributes.Some?
    ensures r.Some? ==>
      Route(event.request.requestType) == Some(ProcessLaunchRequest)
      || Route(event.request.requestType) == Some(ProcessIntentRequest)
    ensures r.Some? && Route(event.request.requestType) == Some(ProcessLaunchRequest) ==>
      !r.value.response.shouldEndSession
  {
    if appId != "" && event.applicationId != appId then None
    else if event.attributes.None? then None
    else
      var attributes := event.attributes.value;
      match Route(event.request.requestType)
      case None => None
      case Some(ProcessSessionEndedRequest) => None
      case Some(ProcessLaunchRequest) =>
        var t := LaunchTurn(attributes);
        Some(Render(t.attributes, t.reply))
      case Some(ProcessIntentRequest) =>
        if event.request.intent.None? then None
        else
          match LookupIntent(intents, event.request.intent.value.name)
          case Err(_) => None
          case Ok(handler) =>
            var t := IntentTurn(fmt, handler, event.request.intent.value, attributes);
            Some(Render(t.attributes, t.reply))
  }

  /** A session of another application gets no answer. */
  lemma ForeignApplicationGetsNoReply(fmt: Formatters, event: Event)
    requires event.applicationId != APP_ID
    ensures Respond(APP_ID, fmt, SitterfiedIntents(), event) == None
  {
    assert APP_ID != "";
  }

  /** A session without an attribute dictionary gets no answer. */
  lemma SessionWithoutAttributesGetsNoReply(fmt: Formatters, event: Event)
    requires event.attributes.None?
    ensures Respond(APP_ID, fmt, SitterfiedIntents(), event) == None
  {
  }

  /** The end of a session gets no answer. */
  lemma SessionEndedGetsNoReply(fmt: Formatters, event: Event)
    requires event.request.requestType == "SessionEndedRequest"
    ensures Respond(APP_ID, fmt, SitterfiedIntents(), event) == None
  {
    RouteSessionEndedRequest(event.request.requestType);
  }

  /** A launch is greeted with a question, and the session stays open. */
  lemma LaunchGreets(fmt: Formatters, event: Event)
    requires event.applicationId == APP_ID && event.attributes.Some?
    requires event.request.requestType == "LaunchRequest"
    ensures var r := Respond(APP_ID, fmt, SitterfiedIntents(), event);
      && r.Some?
      && !r.value.response.shouldEndSession
      && r.value.response.outputSpeech == OutputSpeech(PLAIN_TEXT, Text(LAUNCH_SPEECH))
      && r.value.response.reprompt == Some(Reprompt(OutputSpeech(PLAIN_TEXT, Text(LAUNCH_REPROMPT))))
  {
    RouteLaunchRequest(event.request.requestType);
  }

  /** An intent the skill does not register gets no answer. */
  lemma UnsupportedIntentGetsNoReply(fmt: Formatters, event: Event)
    requires event.request.requestType == "IntentRequest"
    requires event.request.intent.Some? && event.request.intent.value.name !in SitterfiedIntents()
    ensures Respond(APP_ID, fmt, SitterfiedIntents(), event) == None
  {
    RouteIntentRequest(event.request.requestType);
  }

  /** A registered intent is answered with its handler's turn, on the event's attributes. */
  lemma IntentIsAnswered(fmt: Formatters, event: Event)
    requires event.applicationId == APP_ID && event.attributes.Some?
    requires event.request.requestType == "IntentRequest"
    requires event.request.intent.Some? && event.request.intent.value.name in SitterfiedIntents()
    ensures var intent := event.request.intent.value;
      var t := IntentTurn(fmt, SitterfiedIntents()[intent.name], intent, event.attributes.value);
      Respond(APP_ID, fmt, SitterfiedIntents(), event) == Some(Render(t.attributes, t.reply))
  {
    RouteIntentRequest(event.request.requestType);
  }

  /** Cancel and stop say goodbye and end the session. */
  lemma CancelAndStopEndTheSession(fmt: Formatters, handler: IntentHandler, intent: Intent, attributes: Attributes)
    requires handler == CancelIntent || handler == StopIntent
    ensures var t := IntentTurn(fmt, handler, intent, attributes);
      t.attributes == attributes
      && Render(t.attributes, t.reply).response.shouldEndSession
      && Render(t.attributes, t.reply).response.outputSpeech == OutputSpeech(PLAIN_TEXT, Text(SESSION_ENDED_MESSAGE))
  {
  }

  // ---------------------------------------------------------------------
  // A booking dialog, turn by turn
  // ---------------------------------------------------------------------

  /** Nothing said and nothing stored: the dialog asks for the date and stores nothing. */
  lemma DialogOpensWithDateQuestion(fmt: Formatters, intent: Intent)
    requires forall f :: !Truthy(GetSlotData(intent).Get(f))
    ensures var t := DialogTurn(fmt, intent, map[]);
      && t.attributes == map[]
      && t.reply == Asking(Text(DATE_PROMPT), Text(DATE_PROMPT))
      && Render(t.attributes, t.reply).sessionAttributes.None?
  {
    MergeWithoutSpokenValues(intent, map[]);
  }

  /** A date alone: the date is stored and the start time is asked for. */
  lemma DialogStoresSpokenDate(fmt: Formatters, intent: Intent, date: string)
    requires GetSlotData(intent).date == Some(date) && date != ""
    requires !Truthy(GetSlotData(intent).start)
    ensures var t := DialogTurn(fmt, intent, map[]);
      && t.attributes == map["date" := Some(date)]
      && t.reply == Asking(Text(START_PROMPT), Text(START_REPROMPT))
      && Render(t.attributes, t.reply).sessionAttributes == Some(map["date" := Some(date)])
  {
    var m := MergeData(intent, map[]);
    assert m.date == Some(date) && !Truthy(m.start);
  }

  /** Then a start: date and start are both stored and duration or end is asked for. */
  lemma DialogStoresSpokenStart(fmt: Formatters, intent: Intent, date: string, start: string)
    requires GetSlotData(intent).date == Some(date) && GetSlotData(intent).start == Some(start)
    requires date != "" && start != ""
    requires !Truthy(GetSlotData(intent).end) && !Truthy(GetSlotData(intent).duration)
    ensures var t := DialogTurn(fmt, intent, map["date" := Some(date)]);
      && t.attributes == map["date" := Some(date), "start" := Some(start)]
      && t.reply == Asking(Text(FINISH_PROMPT), Text(FINISH_REPROMPT))
  {
    var a := map["date" := Some(date)];
    var m := MergeData(intent, a);
    assert GetSessionData(a).end == None && GetSessionData(a).duration == None;
    assert m.start == Some(start) && !HasFinish(m);
  }

  /**
   * Then a duration: the booking is complete, the stored date and start
   * stay, and the confirmation asks about a sitter "for" the duration.
   */
  lemma DialogConfirmsDuration(fmt: Formatters, intent: Intent, date: string, start: string, duration: string)
    requires GetSlotData(intent).date == Some(date) && GetSlotData(intent).start == Some(start)
    requires GetSlotData(intent).duration == Some(duration)
    requires date != "" && start != "" && duration != "" && fmt.naturalDelta(duration) != ""
    ensures var a := map["date" := Some(date), "start" := Some(start)];
      var t := DialogTurn(fmt, intent, a);
      && GetSessionData(t.attributes).date == Some(date)
      && GetSessionData(t.attributes).start == Some(start)
      && t.reply.Asking? && t.reply.speech.Text?
      && Mentions(t.reply.speech.text, SITTER_REQUEST)
      && Mentions(t.reply.speech.text, "for " + fmt.naturalDelta(duration))
      && Mentions(t.reply.speech.text, " at " + Show(FormatTime(fmt, Some(start))) + " ")
      && Mentions(t.reply.speech.text, CONFIRMATION_QUESTION)
  {
    var a := map["date" := Some(date), "start" := Some(start)];
    var m := MergeData(intent, a);
    assert m.date == Some(date) && m.start == Some(start) && m.duration == Some(duration);
    PerformNeverForgets(fmt, intent, a, Confirm, Date);
    PerformNeverForgets(fmt, intent, a, Confirm, Start);
    ConfirmationAsksAboutSitter(fmt, m);
    ConfirmationNamesStart(fmt, m);
    ConfirmationNamesLength(fmt, m);
  }

  /**
   * A request with date, start and end but no duration is confirmed with
   * "until" the end time.
   */
  lemma RequestSitterConfirmsEndTime(fmt: Formatters, intent: Intent, attributes: Attributes)
    requires Truthy(GetSlotData(intent).date) && Truthy(GetSlotData(intent).start)
    requires Truthy(GetSlotData(intent).end)
    requires !Truthy(GetSlotData(intent).duration) && !Truthy(GetSessionData(attributes).duration)
    ensures var t := IntentTurn(fmt, RequestSitter, intent, attributes);
      var m := MergeData(intent, attributes);
      && t.reply.Asking? && t.reply.speech.Text?
      && Mentions(t.reply.speech.text, SITTER_REQUEST)
      && Mentions(t.reply.speech.text, " at " + Show(FormatTime(fmt, m.start)) + " ")
      && Mentions(t.reply.speech.text, "until " + Show(FormatTime(fmt, m.end)))
      && Mentions(t.reply.speech.text, CONFIRMATION_QUESTION)
  {
    var m := MergeData(intent, attributes);
    assert DialogStep(m) == Confirm;
    ConfirmationAsksAboutSitter(fmt, m);
    ConfirmationNamesStart(fmt, m);
    ConfirmationNamesLength(fmt, m);
  }

  /**
   * SitterfiedSkill. The date, duration and time formatters are supplied
   * from outside; the application id and the intent table are fixed at
   * construction.
   */
  class SitterfiedSkill {
    const appId: string
    const fmt: Formatters
    const intents: map<string, IntentHandler>

    constructor (fmt: Formatters)
      ensures appId == APP_ID && this.fmt == fmt && intents == SitterfiedIntents()
    {
      appId := APP_ID;
      this.fmt := fmt;
      intents := SitterfiedIntents();
    }

    method OnLaunch(session: Session, response: Response) returns (r: Envelope)
      requires response.session == session
      ensures var t := LaunchTurn(session.attributes); r == Render(t.attributes, t.reply)
    {
      r := response.Ask(Text(LAUNCH_SPEECH), Text(LAUNCH_REPROMPT));
    }

    method CancelIntentHandler(intent: Intent, session: Session, response: Response) returns (r: Envelope)
      requires response.session == session
      ensures var t := IntentTurn(fmt, CancelIntent, intent, session.attributes); r == Render(t.attributes, t.reply)
    {
      r := response.Tell(Text(SESSION_ENDED_MESSAGE));
    }

    method HelpIntentHandler(intent: Intent, session: Session, response: Response) returns (r: Envelope)
      requires response.session == session
      ensures var t := HelpTurn(session.attributes); r == Render(t.attributes, t.reply)
    {
      r := response.Ask(SpeechDict(HELP_SPEECH, PLAIN_TEXT), SpeechDict(HELP_REPROMPT, PLAIN_TEXT));
    }

    method StopIntentHandler(intent: Intent, session: Session, response: Response) returns (r: Envelope)
      requires response.session == session
      ensures var t := IntentTurn(fmt, StopIntent, intent, session.attributes); r == Render(t.attributes, t.reply)
    {
      r := response.Tell(Text(SESSION_ENDED_MESSAGE));
    }

    method DialogRequestSitterHandler(intent: Intent, session: Session, response: Response) returns (r: Envelope)
      requires response.session == session
      modifies session
      ensures var t := DialogTurn(fmt, intent, old(session.attributes));
        session.attributes == t.attributes && r == Render(t.attributes, t.reply)
    {
      var m := MergeData(intent, session.attributes);
      if !Truthy(m.date) {
        r := ProcessNoSlotsDialogRequest(intent, session, response);
        return;
      }
      if !Truthy(m.start) {
        r := ProcessDateSlotDialogRequest(intent, session, response);
        return;
      }
      if !Truthy(m.end) && !Truthy(m.duration) {
        r := ProcessStartSlotDialogRequest(intent, session, response);
        return;
      }
      r := ConfirmBookingDetails(intent, session, response);
    }

    method RequestSitterHandler(intent: Intent, session: Session, response: Response) returns (r: Envelope)
      requires response.session == session
      modifies session
      ensures var t := DialogTurn(fmt, intent, old(session.attributes));
        session.attributes == t.attributes && r == Render(t.attributes, t.reply)
    {
      r := DialogRequestSitterHandler(intent, session, response);
    }

    method ProcessDateSlotDialogRequest(intent: Intent, session: Session, response: Response) returns (r: Envelope)
      requires response.session == session
      modifies session
      ensures var t := DateSlotTurn(fmt, intent, old(session.attributes));
        session.attributes == t.attributes && r == Render(t.attributes, t.reply)
    {
      var m := MergeData(intent, session.attributes);
      if !Truthy(m.start) {
        SetSessionData(session, "date", m.date);
        r := response.Ask(Text(START_PROMPT), Text(START_REPROMPT));
        return;
      }
      if !Truthy(m.duration) && !Truthy(m.end) {
        r := ProcessStartSlotDialogRequest(intent, session, response);
        return;
      }
      r := ConfirmBookingDetails(intent, session, response);
    }

    method ProcessStartSlotDialogRequest(intent: Intent, session: Session, response: Response) returns (r: Envelope)
      requires response.session == session
      modifies session
      ensures var t := StartSlotTurn(fmt, intent, old(session.attributes));
        session.attributes == t.attributes && r == Render(t.attributes, t.reply)
    {
      var m := MergeData(intent, session.attributes);
      if !Truthy(m.end) && !Truthy(m.duration) {
        SetSessionData(session, "start", m.start);
        r := response.Ask(Text(FINISH_PROMPT), Text(FINISH_REPROMPT));
        return;
      }
      r := ConfirmBookingDetails(intent, session, response);
    }

    method ProcessEndDurationSlotDialogRequest(intent: Intent, session: Session, response: Response) returns (r: Envelope)
      requires response.session == session
      modifies session
      ensures var t := EndDurationTurn(fmt, intent, old(session.attributes));
        session.attributes == t.attributes && r == Render(t.attributes, t.reply)
    {
      var m := MergeData(intent, session.attributes);
      SetSessionData(session, "end", m.end);
      SetSessionData(session, "duration", m.duration);
      EndDurationStoredKeepsMerge(intent, old(session.attributes));
      if Truthy(m.date) && Truthy(m.start) && (Truthy(m.end) || Truthy(m.duration)) {
        r := ConfirmBookingDetails(intent, session, response);
        return;
      }
      if !Truthy(m.start) {
        r := ProcessDateSlotDialogRequest(intent, session, response);
        return;
      }
      r := ProcessNoSlotsDialogRequest(intent, session, response);
    }

    method ProcessNoSlotsDialogRequest(intent: Intent, session: Session, response: Response) returns (r: Envelope)
      requires response.session == session
      modifies session
      ensures var t := NoSlotsTurn(fmt, intent, old(session.attributes));
        session.attributes == t.attributes && r == Render(t.attributes, t.reply)
    {
      var m := MergeData(intent, session.attributes);
      if !Truthy(m.date) {
        r := response.Ask(Text(DATE_PROMPT), Text(DATE_PROMPT));
      } else if !Truthy(m.start) {
        r := ProcessDateSlotDialogRequest(intent, session, response);
      } else if !Truthy(m.end) && !Truthy(m.duration) {
        r := ProcessStartSlotDialogRequest(intent, session, response);
      } else {
        r := HelpIntentHandler(intent, session, response);
      }
    }

    method ConfirmBookingDetails(intent: Intent, session: Session, response: Response) returns (r: Envelope)
      requires response.session == session
      modifies session
      ensures var t := ConfirmTurn(fmt, intent, old(session.attributes));
        session.attributes == t.attributes && r == Render(t.attributes, t.reply)
    {
      var m := MergeData(intent, session.attributes);
      SetSessionData(session, "End", m.end);
      SetSessionData(session, "Duration", m.duration);
      var speech := ConfirmationText(fmt, m);
      r := response.Ask(Text(speech), Text(speech));
    }

    /** on_intent: dispatch to the registered handler, or fail for an unsupported intent. */
    method OnIntent(intent: Intent, session: Session, response: Response) returns (r: Result<Envelope, Failure>)
      requires response.session == session
      modifies session
      ensures LookupIntent(intents, intent.name).Err? ==>
        r == Err(LookupIntent(intents, intent.name).error) && session.attributes == old(session.attributes)
      ensures LookupIntent(intents, intent.name).Ok? ==>
        var t := IntentTurn(fmt, LookupIntent(intents, intent.name).value, intent, old(session.attributes));
        session.attributes == t.attributes && r == Ok(Render(t.attributes, t.reply))
    {
      var found := LookupIntent(intents, intent.name);
      if found.Err? {
        return Err(found.error);
      }
      var e: Envelope;
      match found.value {
        case CancelIntent => e := CancelIntentHandler(intent, session, response);
        case HelpIntent => e := HelpIntentHandler(intent, session, response);
        case StopIntent => e := StopIntentHandler(intent, session, response);
        case DialogRequestSitter => e := DialogRequestSitterHandler(intent, session, response);
        case RequestSitter => e := RequestSitterHandler(intent, session, response);
      }
      r := Ok(e);
    }

    /**
     * execute: check the application id and that the session has its
     * attributes, route by request type and answer; every error ends in None.
     */
    method Execute(event: Event) returns (r: Option<Envelope>)
      ensures r == Respond(appId, fmt, intents, event)
    {
      if appId != "" && event.applicationId != appId {
        return None;
      }
      if event.attributes.None? {
        return None;
      }
      var session := new Session(event.attributes.value);
      var handler := Route(event.request.requestType);
      if handler.None? {
        return None;
      }
      var response := new Response(session);
      match handler.value
      case ProcessSessionEndedRequest =>
        r := None;
      case ProcessLaunchRequest =>
        var e := OnLaunch(session, response);
        r := Some(e);
      case ProcessIntentRequest =>
        if event.request.intent.None? {
          return None;
        }
        var outcome := OnIntent(event.request.intent.value, session, response);
        r := if outcome.Ok? then Some(outcome.value) else None;
    }
  }
}
