/**
 * skills/alexa.py: the response envelope, the Response helper that builds
 * it for one session, the binding of create_speechlet_object's keyword
 * arguments, intent lookup and request-type routing.
 */
module Alexa {
  import opened Wrappers
  import opened Utils

  const PLAIN_TEXT := "PlainText"
  const SIMPLE_CARD := "Simple"
  const VERSION := "1.0"

  /**
   * What a handler passes as speech: a plain string, or (as help_intent
   * does) a dictionary with a 'speech' and a 'type' entry.
   */
  datatype Speech = Text(text: string) | SpeechDict(speech: string, kind: string)

  /** Python truthiness: a non-empty string, or the (always non-empty) dictionary. */
  predicate SpeechTruthy(s: Speech) {
    s.Text? ==> s.text != ""
  }

  /** {'type': kind, 'text': text} */
  datatype OutputSpeech = OutputSpeech(kind: string, text: Speech)

  /** {'outputSpeech': ...} */
  datatype Reprompt = Reprompt(outputSpeech: OutputSpeech)

  /** {'content': ..., 'title': ..., 'type': ...} */
  datatype Card = Card(content: string, title: string, kind: string)

  /** The 'response' dictionary; reprompt and card are keys that may be absent. */
  datatype SpeechletResponse = SpeechletResponse(
    outputSpeech: OutputSpeech,
    shouldEndSession: bool,
    reprompt: Option<Reprompt>,
    card: Option<Card>)

  /** The dictionary returned to the platform; sessionAttributes may be absent. */
  datatype Envelope = Envelope(
    response: SpeechletResponse,
    version: string,
    sessionAttributes: Option<Attributes>)

  /** create_speech_object: the speech as plain text, whatever its shape. */
  function CreateSpeechObject(text: Speech): (r: OutputSpeech)
    ensures r.kind == PLAIN_TEXT && r.text == text
  {
    OutputSpeech(PLAIN_TEXT, text)
  }

  /**
   * create_speechlet_object. The session is None or its attribute
   * dictionary; reprompt, title and content default to None.
   */
  function CreateSpeechletObject(
    session: Option<Attributes>,
    speech: Speech,
    endSession: bool,
    reprompt: Option<Speech>,
    title: Value,
    content: Value
  ): (r: Envelope)
    ensures r.version == "1.0"
    ensures r.response.outputSpeech == OutputSpeech("PlainText", speech)
    ensures r.response.shouldEndSession == endSession
    ensures r.response.reprompt.Some? <==> reprompt.Some? && SpeechTruthy(reprompt.value)
    ensures r.response.reprompt.Some? ==>
      r.response.reprompt.value == Reprompt(OutputSpeech("PlainText", reprompt.value))
    ensures r.response.card.Some? <==> Truthy(title) && Truthy(content)
    ensures r.response.card.Some? ==> r.response.card.value == Card(content.value, title.value, "Simple")
    ensures r.sessionAttributes.Some? <==> session.Some? && |session.value| > 0
    ensures r.sessionAttributes.Some? ==> r.sessionAttributes == session
  {
    var repromptEntry :=
      if reprompt.Some? && SpeechTruthy(reprompt.value) then Some(Reprompt(CreateSpeechObject(reprompt.value)))
      else None;
    var cardEntry :=
      if Truthy(title) && Truthy(content) then Some(Card(content.value, title.value, SIMPLE_CARD))
      else None;
    var response := SpeechletResponse(CreateSpeechObject(speech), endSession, repromptEntry, cardEntry);
    Envelope(response, VERSION, if session.Some? && |session.value| > 0 then session else None)
  }

  // ---------------------------------------------------------------------
  // Keyword arguments of create_speechlet_object
  // ---------------------------------------------------------------------

  /** A keyword argument's value, by the kind of parameter it is meant for. */
  datatype Arg = Flag(b: bool) | Utterance(speech: Speech) | Str(v: Value)

  datatype Keyword = Keyword(name: string, arg: Arg)

  /** The four keyword parameters of create_speechlet_object. */
  datatype Params = Params(endSession: bool, reprompt: Option<Speech>, title: Value, content: Value)

  /** end_session=False, reprompt=None, title=None, content=None */
  const DEFAULTS := Params(false, None, None, None)

  /** The TypeError Python raises for a keyword the function does not declare. */
  datatype CallError = UnexpectedKeyword(name: string)

  /**
   * Whether a keyword names one of the four parameters, with a value of its
   * kind. Python binds any value to a declared keyword; here a value of
   * another kind is refused as if the keyword were undeclared, so a call
   * like `end_session=None` fails in the model where Python would accept it.
   * No caller in the skill passes such a value.
   */
  predicate Binds(k: Keyword) {
    || (k.name == "end_session" && k.arg.Flag?)
    || (k.name == "reprompt" && k.arg.Utterance?)
    || (k.name == "title" && k.arg.Str?)
    || (k.name == "content" && k.arg.Str?)
  }

  function Bind(p: Params, k: Keyword): Params
    requires Binds(k)
  {
    match k.arg
    case Flag(b) => p.(endSession := b)
    case Utterance(s) => p.(reprompt := Some(s))
    case Str(v) => if k.name == "title" then p.(title := v) else p.(content := v)
  }

  /** Binds keyword arguments left to right; the first unknown keyword raises. */
  function BindKeywords(p: Params, kwargs: seq<Keyword>): (r: Result<Params, CallError>)
    ensures r.Ok? <==> forall i :: 0 <= i < |kwargs| ==> Binds(kwargs[i])
    ensures r.Err? ==> exists i :: 0 <= i < |kwargs| && !Binds(kwargs[i]) && r.error == UnexpectedKeyword(kwargs[i].name)
    decreases |kwargs|
  {
    if kwargs == [] then Ok(p)
    else if !Binds(kwargs[0]) then Err(UnexpectedKeyword(kwargs[0].name))
    else
      var r := BindKeywords(Bind(p, kwargs[0]), kwargs[1..]);
      assert forall i :: 1 <= i < |kwargs| ==> kwargs[i] == kwargs[1..][i - 1];
      r
  }

  /** A call `create_speechlet_object(session, speech, **kwargs)`. */
  function CallSpeechletObject(session: Option<Attributes>, speech: Speech, kwargs: seq<Keyword>): (r: Result<Envelope, CallError>)
    ensures r.Ok? <==> forall i :: 0 <= i < |kwargs| ==> Binds(kwargs[i])
    ensures r.Err? ==> exists i :: 0 <= i < |kwargs| && r.error == UnexpectedKeyword(kwargs[i].name)
    ensures r.Ok? ==> r.value.version == VERSION && r.value.response.outputSpeech == OutputSpeech(PLAIN_TEXT, speech)
  {
    match BindKeywords(DEFAULTS, kwargs)
    case Ok(p) => Ok(CreateSpeechletObject(session, speech, p.endSession, p.reprompt, p.title, p.content))
    case Err(e) => Err(e)
  }

  // ---------------------------------------------------------------------
  // Response
  // ---------------------------------------------------------------------

  /**
   * Response: builds envelopes for one session. The envelope carries the
   * session's attribute dictionary as it is when the envelope is built.
   */
  class Response {
    const session: Session

    constructor (session: Session)
      ensures this.session == session
    {
      this.session := session;
    }

    /** tell: speak once and end the session. */
    function Tell(speech: Speech): (r: Envelope)
      reads session
      ensures r.response.shouldEndSession
      ensures r.response.outputSpeech == OutputSpeech(PLAIN_TEXT, speech)
      ensures r.response.reprompt.None? && r.response.card.None?
      ensures r.sessionAttributes.Some? <==> |session.attributes| > 0
    {
      CreateSpeechletObject(Some(session.attributes), speech, true, None, None, None)
    }

    /** tell_with_card: speak, show a Simple card when title and content are truthy, end the session. */
    function TellWithCard(speech: Speech, title: Value, content: Value): (r: Envelope)
      reads session
      ensures r.response.shouldEndSession
      ensures r.response.outputSpeech == OutputSpeech(PLAIN_TEXT, speech)
      ensures r.response.reprompt.None?
      ensures r.response.card.Some? <==> Truthy(title) && Truthy(content)
    {
      CreateSpeechletObject(Some(session.attributes), speech, true, None, title, content)
    }

    /**
     * ask as written: the call passes the keyword `end_essopm`, which
     * create_speechlet_object does not declare, so it always raises.
     */
    function AskAsWritten(speech: Speech, reprompt: Speech): (r: Result<Envelope, CallError>)
      reads session
      ensures r == Err(UnexpectedKeyword("end_essopm"))
    {
      var kwargs := [Keyword("reprompt", Utterance(reprompt)), Keyword("end_essopm", Flag(false))];
      assert Binds(kwargs[0]) && !Binds(kwargs[1]);
      CallSpeechletObject(Some(session.attributes), speech, kwargs)
    }

    /** ask as intended: speak, reprompt when the reprompt is truthy, keep the session open. */
    function Ask(speech: Speech, reprompt: Speech): (r: Envelope)
      reads session
      ensures !r.response.shouldEndSession
      ensures r.response.outputSpeech == OutputSpeech(PLAIN_TEXT, speech)
      ensures r.response.reprompt.Some? <==> SpeechTruthy(reprompt)
      ensures r.response.card.None?
      ensures r.sessionAttributes.Some? <==> |session.attributes| > 0
    {
      CreateSpeechletObject(Some(session.attributes), speech, false, Some(reprompt), None, None)
    }

    /** ask_with_card: as Ask, plus a Simple card when title and content are truthy. */
    function AskWithCard(speech: Speech, reprompt: Speech, title: Value, content: Value): (r: Envelope)
      reads session
      ensures !r.response.shouldEndSession
      ensures r.response.reprompt.Some? <==> SpeechTruthy(reprompt)
      ensures r.response.card.Some? <==> Truthy(title) && Truthy(content)
    {
      CreateSpeechletObject(Some(session.attributes), speech, false, Some(reprompt), title, content)
    }
  }

  /**
   * tell, tell_with_card, ask_with_card and the corrected ask (end_session
   * in place of end_essopm) pass keywords that all bind, and the envelope
   * they produce is the one the Response functions build.
   */
  lemma ResponseKeywordsBind(resp: Response, speech: Speech, reprompt: Speech, title: Value, content: Value)
    ensures CallSpeechletObject(Some(resp.session.attributes), speech,
              [Keyword("end_session", Flag(true))]) == Ok(resp.Tell(speech))
    ensures CallSpeechletObject(Some(resp.session.attributes), speech,
              [Keyword("end_session", Flag(true)), Keyword("title", Str(title)), Keyword("content", Str(content))])
            == Ok(resp.TellWithCard(speech, title, content))
    ensures CallSpeechletObject(Some(resp.session.attributes), speech,
              [Keyword("reprompt", Utterance(reprompt)), Keyword("end_session", Flag(false))])
            == Ok(resp.Ask(speech, reprompt))
    ensures CallSpeechletObject(Some(resp.session.attributes), speech,
              [Keyword("reprompt", Utterance(reprompt)), Keyword("end_session", Flag(false)),
               Keyword("title", Str(title)), Keyword("content", Str(content))])
            == Ok(resp.AskWithCard(speech, reprompt, title, content))
  {
    var endTrue, endFalse := Keyword("end_session", Flag(true)), Keyword("end_session", Flag(false));
    var rep := Keyword("reprompt", Utterance(reprompt));
    var tit, con := Keyword("title", Str(title)), Keyword("content", Str(content));
    var told := DEFAULTS.(endSession := true);
    var asked := DEFAULTS.(reprompt := Some(reprompt));
    BindKeywordsStep(DEFAULTS, [endTrue], told, []);
    BindKeywordsStep(DEFAULTS, [endTrue, tit, con], told, [tit, con]);
    BindKeywordsStep(told, [tit, con], told.(title := title), [con]);
    BindKeywordsStep(told.(title := title), [con], told.(title := title, content := content), []);
    BindKeywordsStep(DEFAULTS, [rep, endFalse], asked, [endFalse]);
    BindKeywordsStep(asked, [endFalse], asked, []);
    BindKeywordsStep(DEFAULTS, [rep, endFalse, tit, con], asked, [endFalse, tit, con]);
    BindKeywordsStep(asked, [endFalse, tit, con], asked, [tit, con]);
    BindKeywordsStep(asked, [tit, con], asked.(title := title), [con]);
    BindKeywordsStep(asked.(title := title), [con], asked.(title := title, content := content), []);
  }

  /** Binding a first keyword that the function declares, then the rest. */
  lemma BindKeywordsStep(p: Params, kwargs: seq<Keyword>, bound: Params, rest: seq<Keyword>)
    requires kwargs != [] && Binds(kwargs[0]) && bound == Bind(p, kwargs[0]) && rest == kwargs[1..]
    ensures BindKeywords(p, kwargs) == BindKeywords(bound, rest)
  {
  }

  // ---------------------------------------------------------------------
  // Intent lookup and request routing
  // ---------------------------------------------------------------------

  /** The NotImplementedError that on_intent raises for an unregistered intent. */
  datatype Failure = UnsupportedIntent(message: string)

  /** on_intent's table lookup: the registered handler, or the unsupported-intent error. */
  function LookupIntent<H>(intents: map<string, H>, name: string): (r: Result<H, Failure>)
    ensures r.Err? <==> name !in intents
    ensures r.Ok? ==> r.value == intents[name]
    ensures r.Err? ==> r.error == UnsupportedIntent("Unsupported intent: " + name)
  {
    if name !in intents then Err(UnsupportedIntent("Unsupported intent: " + name))
    else Ok(intents[name])
  }

  /** The request handlers a skill defines, by the attribute name execute looks up. */
  datatype RequestHandler = ProcessIntentRequest | ProcessLaunchRequest | ProcessSessionEndedRequest

  function HandlerName(h: RequestHandler): string {
    match h
    case ProcessIntentRequest => "process_intent_request"
    case ProcessLaunchRequest => "process_launch_request"
    case ProcessSessionEndedRequest => "process_session_ended_request"
  }

  /** The handler whose attribute name is exactly name, if any. */
  function HandlerNamed(name: string): (r: Option<RequestHandler>)
    ensures r.Some? ==> HandlerName(r.value) == name
    ensures r.None? ==> forall h :: HandlerName(h) != name
  {
    if name == HandlerName(ProcessIntentRequest) then Some(ProcessIntentRequest)
    else if name == HandlerName(ProcessLaunchRequest) then Some(ProcessLaunchRequest)
    else if name == HandlerName(ProcessSessionEndedRequest) then Some(ProcessSessionEndedRequest)
    else None
  }

  /** Each handler is found by its own name. */
  lemma HandlerNamedByName(h: RequestHandler)
    ensures HandlerNamed(HandlerName(h)) == Some(h)
  {
    assert HandlerName(ProcessIntentRequest)[8] == 'i' && HandlerName(ProcessLaunchRequest)[8] == 'l';
    assert |HandlerName(ProcessSessionEndedRequest)| == 29 && |HandlerName(ProcessLaunchRequest)| == 22;
  }

  /** execute's routing: the handler named 'process_' + camel_to_snake(type), if any. */
  function Route(requestType: string): (r: Option<RequestHandler>)
    ensures r.Some? ==> HandlerName(r.value) == "process_" + CamelToSnake(requestType)
    ensures r.None? ==> forall h :: HandlerName(h) != "process_" + CamelToSnake(requestType)
  {
    HandlerNamed("process_" + CamelToSnake(requestType))
  }

  // The lemmas below take the request type as a parameter fixed by their
  // precondition rather than writing the literal into the conclusion: a
  // caller hands over its own request-type term, and the solver then never
  // has to unfold camel_to_snake on the literal again at the call site.

  /** camel_to_snake("IntentRequest") is "intent_request". */
  lemma SnakeOfIntentRequest(requestType: string)
    requires requestType == "IntentRequest"
    ensures CamelToSnake(requestType) == "intent_request"
  {
    var a, b := "Intent", "Request";
    assert requestType == a + b;
    CamelToSnakeOfTwoWords(a, b);
    assert Lower(a) == "intent";
    assert Lower(b) == "request";
  }

  /** camel_to_snake("LaunchRequest") is "launch_request". */
  lemma SnakeOfLaunchRequest(requestType: string)
    requires requestType == "LaunchRequest"
    ensures CamelToSnake(requestType) == "launch_request"
  {
    var a, b := "Launch", "Request";
    assert requestType == a + b;
    CamelToSnakeOfTwoWords(a, b);
    assert Lower(a) == "launch";
    assert Lower(b) == "request";
  }

  /** camel_to_snake("SessionEndedRequest") is "session_ended_request". */
  lemma SnakeOfSessionEndedRequest(requestType: string)
    requires requestType == "SessionEndedRequest"
    ensures CamelToSnake(requestType) == "session_ended_request"
  {
    var a, b, c := "Session", "Ended", "Request";
    assert requestType == a + b + c;
    CamelToSnakeOfThreeWords(a, b, c);
    assert Lower(a) == "session";
    assert Lower(b) == "ended";
    assert Lower(c) == "request";
  }

  /** An IntentRequest reaches process_intent_request. */
  lemma RouteIntentRequest(requestType: string)
    requires requestType == "IntentRequest"
    ensures Route(requestType) == Some(ProcessIntentRequest)
  {
    SnakeOfIntentRequest(requestType);
    assert "process_" + CamelToSnake(requestType) == HandlerName(ProcessIntentRequest);
    HandlerNamedByName(ProcessIntentRequest);
  }

  /** A LaunchRequest reaches process_launch_request. */
  lemma RouteLaunchRequest(requestType: string)
    requires requestType == "LaunchRequest"
    ensures Route(requestType) == Some(ProcessLaunchRequest)
  {
    SnakeOfLaunchRequest(requestType);
    assert "process_" + CamelToSnake(requestType) == HandlerName(ProcessLaunchRequest);
    HandlerNamedByName(ProcessLaunchRequest);
  }

  /** A SessionEndedRequest reaches process_session_ended_request. */
  lemma RouteSessionEndedRequest(requestType: string)
    requires requestType == "SessionEndedRequest"
    ensures Route(requestType) == Some(ProcessSessionEndedRequest)
  {
    SnakeOfSessionEndedRequest(requestType);
    assert "process_" + CamelToSnake(requestType) == HandlerName(ProcessSessionEndedRequest);
    HandlerNamedByName(ProcessSessionEndedRequest);
  }

  /** The `request` part of a platform event. */
  datatype Request = Request(requestType: string, intent: Option<Intent>)

  /**
   * A platform event: the session's application id, its attributes (None
   * when the session carries no 'attributes' entry) and the request.
   */
  datatype Event = Event(applicationId: string, attributes: Option<Attributes>, request: Request)
}
