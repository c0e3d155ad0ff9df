// The AI assistant page: a state machine IDLE -> LISTENING -> PROCESSING ->
// SPEAKING -> IDLE driven by the buttons, a simulated speech recogniser
// that picks one of four phrases from the microphone level, keyword-based
// intent classification and canned replies, and a microphone level
// scaled into 0..100. Microphone readings and millis() are parameters; the
// blocking delays between the transient states take no time here.

module AIAssistantPage {
  import opened Text
  import opened Clock
  import PageBase

  datatype AIState = Idle | Listening | Processing | Speaking | Error
  datatype AIMode = VoiceMode | TextMode | CommandMode

  datatype AIResponse = AIResponse(text: string, action: string, isValid: bool, timestamp: Millis)

  const MicThreshold: int := 150
  const MaxSoundLevel: int := 1024
  const MicUpdateInterval: nat := 50
  const SilenceTimeout: nat := 2000
  const ListeningTimeout: nat := 10000
  const IdleTimeout: nat := 30000

  /** The UTF-8 encoding of the degree sign. */
  const Degree: string := "\U{c2}\U{b0}"

  const WelcomeText: string := "Hi! I'm your AI assistant with voice recognition. Press A to talk!"
  const WeatherReplyText: string := "Today is sunny with 25" + Degree + "C. Perfect weather for outdoor activities!"
  const TimerReplyText: string := "Timer set for 5 minutes. I'll remind you when it's done!"
  const GreetingText: string := "Hello! I'm your AI assistant. How can I help you today?"
  const WeatherCommandText: string := "Today: Sunny, 25" + Degree + "C. Perfect weather for outdoor activities!"

  // ---------------------------------------------------------------------
  // Keyword matching

  /** The index of the first keyword of `keys` that occurs in `s`: the
    * if-chain of `indexOf(..) >= 0` tests, in order. */
  function FirstKeyword(s: string, keys: seq<string>): (r: Option<nat>)
    ensures r.Some? ==> r.value < |keys| && Contains(s, keys[r.value])
    ensures r.Some? ==> forall k :: 0 <= k < r.value ==> !Contains(s, keys[k])
    ensures r.None? ==> forall k :: 0 <= k < |keys| ==> !Contains(s, keys[k])
  {
    if keys == [] then None
    else if Contains(s, keys[0]) then Some(0)
    else
      match FirstKeyword(s, keys[1..])
      case None =>
        assert forall k :: 1 <= k < |keys| ==> keys[k] == keys[1..][k - 1];
        None
      case Some(k) =>
        assert forall j :: 1 <= j <= k ==> keys[j] == keys[1..][j - 1];
        Some(k + 1)
  }

  /** A keyword that extends an earlier one is never the first match: every
    * text containing it contains the earlier one too. */
  lemma {:induction false} ShadowedKeyword(s: string, keys: seq<string>, i: nat, j: nat)
    requires i < j < |keys|
    requires |keys[i]| <= |keys[j]| && keys[j][..|keys[i]|] == keys[i]
    ensures FirstKeyword(s, keys) != Some(j)
  {
    var rest := keys[j][|keys[i]|..];
    assert keys[i] + rest == keys[j];
    if Contains(s, keys[j]) {
      ContainsPrefix(s, keys[i], rest);
    }
  }

  /** Every text asking for a "timer" mentions the "time". */
  lemma {:induction false} TimerImpliesTime(l: string)
    ensures Contains(l, "timer") ==> Contains(l, "time")
  {
    if Contains(l, "timer") {
      assert "time" + "r" == "timer";
      ContainsPrefix(l, "time", "r");
    }
  }

  // ---------------------------------------------------------------------
  // Intent classification

  /** classifyIntent's keyword order as the firmware has it. */
  const IntentOrderAsWritten: seq<string> := ["weather", "time", "timer", "alarm"]
  /** The order that lets "timer" be recognised: the longer keyword first. */
  const IntentOrder: seq<string> := ["weather", "timer", "time", "alarm"]

  /** classifyIntent as written: "time" is tested before "timer", and every
    * text containing "timer" contains "time", so "timer" never comes out. */
  function ClassifyIntentAsWritten(input: string): (r: string)
    ensures Contains(Lower(input), "weather") ==> r == "weather"
    ensures !Contains(Lower(input), "weather") && Contains(Lower(input), "time") ==> r == "time"
    ensures !Contains(Lower(input), "weather") && !Contains(Lower(input), "time") && Contains(Lower(input), "alarm") ==>
      r == "alarm"
    ensures !Contains(Lower(input), "weather") && !Contains(Lower(input), "time") && !Contains(Lower(input), "alarm") ==>
      r == "chat"
  {
    var l := Lower(input);
    ShadowedKeyword(l, IntentOrderAsWritten, 1, 2);
    assert IntentOrderAsWritten[0] == "weather" && IntentOrderAsWritten[1] == "time";
    assert IntentOrderAsWritten[2] == "timer" && IntentOrderAsWritten[3] == "alarm";
    match FirstKeyword(l, IntentOrderAsWritten)
    case Some(k) => IntentOrderAsWritten[k]
    case None => "chat"
  }

  /** No input is classified as a timer request by the code as written. */
  lemma {:induction false} TimerNeverClassified(input: string)
    ensures ClassifyIntentAsWritten(input) != "timer"
  {
    assert "alarm"[0] != "timer"[0];
  }

  /** classifyIntent with "timer" tested before "time": the first of
    * weather, timer, time, alarm found in the lowercased input, else "chat". */
  function ClassifyIntent(input: string): (r: string)
    ensures Contains(Lower(input), "weather") ==> r == "weather"
    ensures !Contains(Lower(input), "weather") && Contains(Lower(input), "timer") ==> r == "timer"
    ensures !Contains(Lower(input), "weather") && !Contains(Lower(input), "timer") && Contains(Lower(input), "time") ==>
      r == "time"
    ensures !Contains(Lower(input), "weather") && !Contains(Lower(input), "time") && Contains(Lower(input), "alarm") ==>
      r == "alarm"
    ensures !Contains(Lower(input), "weather") && !Contains(Lower(input), "time") && !Contains(Lower(input), "alarm") ==>
      r == "chat"
  {
    var l := Lower(input);
    TimerImpliesTime(l);
    assert IntentOrder[0] == "weather" && IntentOrder[1] == "timer";
    assert IntentOrder[2] == "time" && IntentOrder[3] == "alarm";
    match FirstKeyword(l, IntentOrder)
    case Some(k) => IntentOrder[k]
    case None => "chat"
  }

  // ---------------------------------------------------------------------
  // Replies

  /** Which canned reply processWithAI gives. */
  datatype Reply = WeatherReply | TimeReply | TimerReply | GreetingReply | EchoReply

  const ReplyOrderAsWritten: seq<string> := ["weather", "time", "timer"]
  const ReplyOrder: seq<string> := ["weather", "timer", "time"]

  /** A greeting: "hello" or "hi" anywhere in the lowercased text. */
  predicate Greets(l: string)
  {
    Contains(l, "hello") || Contains(l, "hi")
  }

  /** processWithAI's branch as written: weather, time, timer, then a
    * greeting, else an echo; the timer reply is unreachable. */
  function ReplyOfAsWritten(input: string): (r: Reply)
    ensures r != TimerReply
    ensures Contains(Lower(input), "weather") ==> r == WeatherReply
    ensures !Contains(Lower(input), "weather") && Contains(Lower(input), "time") ==> r == TimeReply
    ensures !Contains(Lower(input), "weather") && !Contains(Lower(input), "time") ==>
      r == if Greets(Lower(input)) then GreetingReply else EchoReply
  {
    var l := Lower(input);
    ShadowedKeyword(l, ReplyOrderAsWritten, 1, 2);
    assert ReplyOrderAsWritten[0] == "weather" && ReplyOrderAsWritten[1] == "time" && ReplyOrderAsWritten[2] == "timer";
    match FirstKeyword(l, ReplyOrderAsWritten)
    case Some(k) => if k == 0 then WeatherReply else if k == 1 then TimeReply else TimerReply
    case None => if Greets(l) then GreetingReply else EchoReply
  }

  /** processWithAI's branch with "timer" tested before "time". */
  function ReplyOf(input: string): (r: Reply)
    ensures Contains(Lower(input), "weather") ==> r == WeatherReply
    ensures !Contains(Lower(input), "weather") && Contains(Lower(input), "timer") ==> r == TimerReply
    ensures !Contains(Lower(input), "weather") && !Contains(Lower(input), "timer") && Contains(Lower(input), "time") ==>
      r == TimeReply
    ensures !Contains(Lower(input), "weather") && !Contains(Lower(input), "time") ==>
      r == if Greets(Lower(input)) then GreetingReply else EchoReply
  {
    var l := Lower(input);
    TimerImpliesTime(l);
    assert ReplyOrder[0] == "weather" && ReplyOrder[1] == "timer" && ReplyOrder[2] == "time";
    match FirstKeyword(l, ReplyOrder)
    case Some(k) => if k == 0 then WeatherReply else if k == 1 then TimerReply else TimeReply
    case None => if Greets(l) then GreetingReply else EchoReply
  }

  /** The reply's text; the time reply reads the simulated clock `now`, the
    * echo quotes the input and the microphone level. */
  function ReplyText(r: Reply, input: string, now: Millis, level: nat): string
  {
    match r
    case WeatherReply => WeatherReplyText
    case TimeReply => "Current time is " + HourMinute(now)
    case TimerReply => TimerReplyText
    case GreetingReply => GreetingText
    case EchoReply => "I heard: \"" + input + "\". Sound level was " + Dec(level) + "%. How can I assist you?"
  }

  /** processWithAI and classifyIntent agree on the three shared topics: the
    * reply is about the weather, a timer or the time exactly when the
    * action is. */
  lemma {:induction false} ReplyMatchesIntent(input: string)
    ensures ClassifyIntent(input) == "weather" <==> ReplyOf(input) == WeatherReply
    ensures ClassifyIntent(input) == "timer" <==> ReplyOf(input) == TimerReply
    ensures ClassifyIntent(input) == "time" <==> ReplyOf(input) == TimeReply
  {
    var l := Lower(input);
    TimerImpliesTime(l);
    assert "alarm"[0] != "timer"[0];
    assert "chat"[0] != "time"[0];
  }

  // ---------------------------------------------------------------------
  // Command validation

  const CommandWords: seq<string> := ["weather", "time", "timer", "alarm", "hello", "help"]

  /** isValidCommand: a non-empty command naming one of the known words. */
  function IsValidCommand(command: string): (b: bool)
    ensures b <==> exists k :: 0 <= k < |CommandWords| && Contains(Lower(command), CommandWords[k])
  {
    if |command| == 0 then
      assert forall k :: 0 <= k < |CommandWords| ==> |CommandWords[k]| > 0;
      false
    else
      var l := Lower(command);
      assert Contains(l, "weather") ==> Contains(l, CommandWords[0]);
      assert Contains(l, "time") ==> Contains(l, CommandWords[1]);
      assert Contains(l, "timer") ==> Contains(l, CommandWords[2]);
      assert Contains(l, "alarm") ==> Contains(l, CommandWords[3]);
      assert Contains(l, "hello") ==> Contains(l, CommandWords[4]);
      assert Contains(l, "help") ==> Contains(l, CommandWords[5]);
      Contains(l, "weather") || Contains(l, "time") || Contains(l, "timer")
      || Contains(l, "alarm") || Contains(l, "hello") || Contains(l, "help")
  }

  /** Every input classified as a command passes isValidCommand. */
  lemma {:induction false} ClassifiedIsValid(input: string)
    requires ClassifyIntent(input) != "chat"
    ensures IsValidCommand(input)
  {
    var l := Lower(input);
    if Contains(l, "weather") {
      assert Contains(l, CommandWords[0]);
    } else if Contains(l, "time") {
      assert Contains(l, CommandWords[1]);
    } else {
      assert Contains(l, CommandWords[3]);
    }
  }

  // ---------------------------------------------------------------------
  // The simulated recogniser and the microphone level

  const AsrPhrases: seq<string> :=
    ["What's the weather like today?", "What time is it now?", "Set a timer for 5 minutes", "Hello, how are you?"]

  /** simulateASR: the louder the level, the earlier the phrase. */
  function SimulateASR(level: int): (r: string)
    ensures level > 80 ==> r == AsrPhrases[0]
    ensures 60 < level <= 80 ==> r == AsrPhrases[1]
    ensures 40 < level <= 60 ==> r == AsrPhrases[2]
    ensures level <= 40 ==> r == AsrPhrases[3]
  {
    if level > 80 then "What's the weather like today?"
    else if level > 60 then "What time is it now?"
    else if level > 40 then "Set a timer for 5 minutes"
    else "Hello, how are you?"
  }

  /** Where the command words sit in the phrases. */
  lemma PhraseWords()
    ensures AsrPhrases[0][11..18] == "weather"
    ensures AsrPhrases[1][5..9] == "time"
    ensures AsrPhrases[2][6..11] == "timer"
  {
  }

  /** The loudest phrase asks about the weather. */
  lemma {:induction false} WeatherPhraseIntent()
    ensures ClassifyIntent(AsrPhrases[0]) == "weather"
  {
    PhraseWords();
    LoweredAt(AsrPhrases[0], "weather", 11);
  }

  /** The second phrase has no 'r', so neither "weather" nor "timer". */
  lemma {:induction false} TimePhraseNoR()
    ensures !Contains(Lower(AsrPhrases[1]), "weather") && !Contains(Lower(AsrPhrases[1]), "timer")
  {
    LacksLetter(AsrPhrases[1], "weather", 6);
    LacksLetter(AsrPhrases[1], "timer", 4);
  }

  /** The second phrase says "time" at position 5. */
  lemma {:induction false} TimePhraseHasTime()
    ensures Contains(Lower(AsrPhrases[1]), "time")
  {
    PhraseWords();
    LoweredAt(AsrPhrases[1], "time", 5);
  }

  /** The second phrase asks for the time and mentions no timer. */
  lemma {:induction false} TimePhraseIntent()
    ensures ClassifyIntent(AsrPhrases[1]) == "time"
  {
    TimePhraseNoR();
    TimePhraseHasTime();
  }

  /** The third phrase says "timer" at position 6. */
  lemma {:induction false} TimerPhraseHasTimer()
    ensures Contains(Lower(AsrPhrases[2]), "timer")
  {
    PhraseWords();
    LoweredAt(AsrPhrases[2], "timer", 6);
  }

  /** The third phrase asks for a timer; it contains "time" as well. */
  lemma {:induction false} TimerPhraseContents()
    ensures !Contains(Lower(AsrPhrases[2]), "weather")
    ensures Contains(Lower(AsrPhrases[2]), "timer") && Contains(Lower(AsrPhrases[2]), "time")
  {
    LacksLetter(AsrPhrases[2], "weather", 0);
    TimerPhraseHasTimer();
    assert "time" + "r" == "timer";
    ContainsPrefix(Lower(AsrPhrases[2]), "time", "r");
  }

  /** The quietest phrase has no 't' and no 'm'. */
  lemma {:induction false} ChatPhraseNoWords()
    ensures !Contains(Lower(AsrPhrases[3]), "weather")
    ensures !Contains(Lower(AsrPhrases[3]), "time")
    ensures !Contains(Lower(AsrPhrases[3]), "alarm")
  {
    LacksLetter(AsrPhrases[3], "weather", 3);
    LacksLetter(AsrPhrases[3], "time", 0);
    LacksLetter(AsrPhrases[3], "alarm", 4);
  }

  /** The quietest phrase names no command. */
  lemma {:induction false} ChatPhraseIntent()
    ensures ClassifyIntent(AsrPhrases[3]) == "chat"
  {
    ChatPhraseNoWords();
  }

  /** The intents of the four phrases: above 80 the weather, above 60 the
    * time, above 40 a timer, otherwise chat. */
  lemma {:induction false} AsrIntents(level: int)
    ensures ClassifyIntent(SimulateASR(level)) ==
      if level > 80 then "weather" else if level > 60 then "time" else if level > 40 then "timer" else "chat"
  {
    if level > 80 {
      WeatherPhraseIntent();
    } else if level > 60 {
      TimePhraseIntent();
    } else if level > 40 {
      TimerPhraseContents();
    } else {
      ChatPhraseIntent();
    }
  }

  /** The phrase a level of 41..60 produces asks for a timer, yet the code
    * as written classifies it as a request for the time. */
  lemma {:induction false} TimerRequestMisread(level: int)
    requires 40 < level <= 60
    ensures ClassifyIntentAsWritten(SimulateASR(level)) == "time"
    ensures ReplyOfAsWritten(SimulateASR(level)) == TimeReply
    ensures ClassifyIntent(SimulateASR(level)) == "timer"
    ensures ReplyOf(SimulateASR(level)) == TimerReply
  {
    TimerPhraseContents();
  }

  /** updateMicrophone's level: the reading mapped from 0..1024 onto 0..100
    * and clamped there. It never exceeds the threshold of 150, so voice
    * activity is never detected. */
  function SoundLevel(reading: nat): (l: int)
    ensures 0 <= l <= 100
    ensures l == 100 <==> reading >= MaxSoundLevel
    ensures l < MicThreshold
  {
    DivAtLeast(reading * 100, 1024, 100);
    var mapped := (reading - 0) * (100 - 0) / (1024 - 0) + 0;
    Constrain(mapped, 0, 100)
  }

  /** A louder reading never gives a lower level. */
  lemma {:induction false} SoundLevelMonotone(r1: nat, r2: nat)
    requires r1 <= r2
    ensures SoundLevel(r1) <= SoundLevel(r2)
  {
    var q := r1 * 100 / 1024;
    DivAtLeast(r1 * 100, 1024, q);
    DivAtLeast(r2 * 100, 1024, q);
  }

  /** speakResponse's speaking time: 50 ms per character, kept within 1 to
    * 5 seconds. */
  function SpeakDuration(length: nat): (d: int)
    ensures 1000 <= d <= 5000
    ensures d == 1000 <==> length <= 20
    ensures d == 5000 <==> length >= 100
    ensures 20 <= length <= 100 ==> d == length * 50
  {
    Constrain(length * 50, 1000, 5000)
  }

  /** getStateText. */
  function StateText(s: AIState): (t: string)
    ensures |t| >= 5
  {
    match s
    case Idle => "Ready"
    case Listening => "Listening"
    case Processing => "Processing"
    case Speaking => "Speaking"
    case Error => "Error"
  }

  /** Different states show different labels. */
  lemma {:induction false} StateTextInjective(s: AIState, t: AIState)
    requires s != t
    ensures StateText(s) != StateText(t)
  {
    assert "Ready"[0] != "Error"[0];
  }

  // ---------------------------------------------------------------------
  // What the response label ends up showing

  /** The handleTimeCommand text. */
  function TimeCommandText(now: Millis): string
  {
    "Current time is " + HourMinute(now)
  }

  /** What executeCommand leaves on the response label. */
  function CommandText(command: string, params: string, now: Millis): string
  {
    if command == "weather" then WeatherCommandText
    else if command == "time" then TimeCommandText(now)
    else if command == "timer" then "Timer command: " + params
    else if command == "alarm" then "Alarm command: " + params
    else if command == "system" then "System command: " + params
    else "Unknown command: " + command
  }

  /** What executeSmartCommand leaves on the response label. */
  function SmartCommandText(command: string, now: Millis): string
  {
    if command == "weather" then WeatherCommandText
    else if command == "time" then TimeCommandText(now)
    else "Command: " + command + " executed!"
  }

  /** What handleAIResponse leaves on the response label. */
  function ResponseText(response: AIResponse, now: Millis): string
  {
    if !response.isValid then "Sorry, I didn't understand that."
    else if response.action != "none" && response.action != "chat" then CommandText(response.action, "", now)
    else response.text
  }

  /** The response stopListening builds from the microphone level, with
    * processWithAI's and classifyIntent's keyword order as written. */
  function Heard(level: nat, now: Millis): AIResponse
  {
    var said := SimulateASR(level);
    AIResponse(ReplyText(ReplyOfAsWritten(said), said, now, level), ClassifyIntentAsWritten(said), true, now)
  }

  /** The same response with "timer" tested before "time". */
  function HeardCorrected(level: nat, now: Millis): AIResponse
  {
    var said := SimulateASR(level);
    AIResponse(ReplyText(ReplyOf(said), said, now, level), ClassifyIntent(said), true, now)
  }

  /** As written, asking for a timer gets the time: the reply tells the
    * time, the action is "time", and the label ends up showing the time. */
  lemma {:induction false} HeardTimerRequestAsWritten(level: nat, now: Millis)
    requires 40 < level <= 60
    ensures Heard(level, now).text == TimeCommandText(now)
    ensures Heard(level, now).action == "time"
    ensures ResponseText(Heard(level, now), now) == TimeCommandText(now)
  {
    TimerRequestMisread(level);
    assert "time"[0] != "chat"[0] && "time"[0] != "none"[0];
    assert "time"[0] != "weather"[0];
  }

  /** With the corrected order the spoken answer to a timer request is a
    * timer reply, and its action starts the timer command. */
  lemma {:induction false} HeardTimerRequest(level: nat, now: Millis)
    requires 40 < level <= 60
    ensures HeardCorrected(level, now).text == TimerReplyText
    ensures HeardCorrected(level, now).action == "timer"
    ensures ResponseText(HeardCorrected(level, now), now) == "Timer command: "
  {
    TimerRequestMisread(level);
    assert "timer"[0] != "chat"[0] && "timer"[0] != "none"[0];
    assert "timer"[0] != "weather"[0] && "timer" != "time";
  }

  class Assistant {
    var currentState: AIState
    var currentMode: AIMode
    var lastResponse: AIResponse
    var isConnected: bool
    var stateStartTime: Millis
    var lastActivityTime: Millis
    var aiServiceURL: string
    var aiAPIKey: string
    var voiceEnabled: bool
    var voiceVolume: int
    var micValue: int
    var micThreshold: int
    var isRecording: bool
    var recordingStartTime: Millis
    var lastMicUpdate: Millis
    var soundLevel: int
    var micInitialized: bool
    /** Whether createAIUI has run (titleLabel and responseText are set). */
    var uiCreated: bool
    /** The text of the response label. */
    var shown: string
    /** The static locals of processVoiceInput. */
    var silenceStart: Millis
    var wasSpeaking: bool

    /** The level stays in 0..100 under a threshold of 150, and between two
      * events the machine rests in IDLE or LISTENING: the other states only
      * last through a blocking delay. */
    ghost predicate Valid()
      reads this
    {
      && 0 <= soundLevel <= 100
      && micThreshold == MicThreshold
      && !isConnected
      && (currentState == Idle || currentState == Listening)
    }

    /** processVoiceInput has never heard speech. */
    ghost predicate Quiet()
      reads this
    {
      !wasSpeaking && silenceStart == 0
    }

    /** The fields the state machine does not touch. */
    ghost function Rest(): (AIMode, bool, string, string, bool, int, int, int, Millis, int, bool, bool, Millis, bool)
      reads this
    {
      (currentMode, isConnected, aiServiceURL, aiAPIKey, voiceEnabled, voiceVolume, micValue, micThreshold,
       lastMicUpdate, soundLevel, micInitialized, uiCreated, silenceStart, wasSpeaking)
    }

    constructor ()
      ensures Valid() && Quiet()
      ensures currentState == Idle && currentMode == VoiceMode && !isConnected
      ensures stateStartTime == 0 && lastActivityTime == 0
      ensures micThreshold == MicThreshold && !isRecording && soundLevel == 0 && micValue == 0
      ensures !micInitialized && voiceEnabled && voiceVolume == 80 && !uiCreated
      ensures lastResponse == AIResponse("", "none", false, 0)
    {
      currentState := Idle;
      currentMode := VoiceMode;
      stateStartTime := 0;
      lastActivityTime := 0;
      isConnected := false;
      micValue := 0;
      micThreshold := MicThreshold;
      isRecording := false;
      recordingStartTime := 0;
      lastMicUpdate := 0;
      soundLevel := 0;
      micInitialized := false;
      voiceEnabled := true;
      voiceVolume := 80;
      lastResponse := AIResponse("", "none", false, 0);
      aiServiceURL := "";
      aiAPIKey := "";
      uiCreated := false;
      shown := "";
      silenceStart := 0;
      wasSpeaking := false;
    }

    /** setState: the new state, with its start and the last activity at now. */
    method SetState(s: AIState, now: Millis)
      modifies this
      ensures currentState == s && stateStartTime == now && lastActivityTime == now
      ensures Rest() == old(Rest()) && isRecording == old(isRecording) && recordingStartTime == old(recordingStartTime)
      ensures lastResponse == old(lastResponse) && shown == old(shown)
    {
      currentState := s;
      stateStartTime := now;
      lastActivityTime := now;
    }

    /** displayResponse: the response label shows `text` once it exists. */
    method Display(text: string)
      modifies this
      ensures shown == if uiCreated then text else old(shown)
      ensures Rest() == old(Rest()) && isRecording == old(isRecording) && recordingStartTime == old(recordingStartTime)
      ensures currentState == old(currentState) && stateStartTime == old(stateStartTime)
      ensures lastActivityTime == old(lastActivityTime) && lastResponse == old(lastResponse)
    {
      if uiCreated {
        shown := text;
      }
    }

    /** onViewWillAppear: the first time, the configuration is loaded; the UI
      * is built once, showing the welcome text, and the state set to IDLE. */
    method OnViewWillAppear(now: Millis)
      requires Valid()
      modifies this
      ensures Valid() && uiCreated && micInitialized && !isConnected
      ensures !old(micInitialized) ==>
        aiServiceURL == "ws://localhost:8080" && aiAPIKey == "demo_key" && voiceEnabled && voiceVolume == 80
      ensures old(micInitialized) ==>
        aiServiceURL == old(aiServiceURL) && aiAPIKey == old(aiAPIKey)
        && voiceEnabled == old(voiceEnabled) && voiceVolume == old(voiceVolume) && isConnected == old(isConnected)
      ensures !old(uiCreated) ==> shown == WelcomeText && currentState == Idle && stateStartTime == now
      ensures old(uiCreated) ==>
        shown == old(shown) && currentState == old(currentState) && stateStartTime == old(stateStartTime)
      ensures isRecording == old(isRecording) && soundLevel == old(soundLevel) && lastResponse == old(lastResponse)
      ensures silenceStart == old(silenceStart) && wasSpeaking == old(wasSpeaking)
    {
      if !micInitialized {
        aiServiceURL := "ws://localhost:8080";
        aiAPIKey := "demo_key";
        voiceEnabled := true;
        voiceVolume := 80;
        isConnected := false;
        micInitialized := true;
      }
      if !uiCreated {
        uiCreated := true;
        shown := WelcomeText;
        SetState(Idle, now);
      }
    }

    /** onViewDidAppear: activity restarts at now. */
    method OnViewDidAppear(now: Millis)
      requires Valid()
      modifies this
      ensures Valid() && lastActivityTime == now
      ensures Rest() == old(Rest()) && currentState == old(currentState) && stateStartTime == old(stateStartTime)
      ensures isRecording == old(isRecording) && shown == old(shown) && lastResponse == old(lastResponse)
    {
      lastActivityTime := now;
    }

    /** startListening: only from IDLE; the machine listens and records. */
    method StartListening(now: Millis)
      requires Valid()
      modifies this
      ensures Valid() && Rest() == old(Rest()) && lastResponse == old(lastResponse)
      ensures old(currentState) == Idle ==>
        && currentState == Listening && isRecording && recordingStartTime == now && stateStartTime == now
        && shown == (if uiCreated then "Listening... Speak now!" else old(shown))
      ensures old(currentState) != Idle ==>
        currentState == old(currentState) && isRecording == old(isRecording) && shown == old(shown)
        && stateStartTime == old(stateStartTime)
    {
      if currentState != Idle {
        return;
      }
      SetState(Listening, now);
      isRecording := true;
      recordingStartTime := now;
      Display("Listening... Speak now!");
    }

    /** stopListening: only from LISTENING; recording stops, the level picks
      * a phrase, the phrase's reply and intent form the response, and
      * handling it brings the machine back to IDLE. */
    method StopListening(now: Millis)
      requires Valid()
      modifies this
      ensures Valid() && Rest() == old(Rest())
      ensures old(currentState) == Listening ==>
        && currentState == Idle && !isRecording && stateStartTime == now
        && lastResponse == Heard(soundLevel, now)
        && shown == (if uiCreated then ResponseText(Heard(soundLevel, now), now) else old(shown))
      ensures old(currentState) != Listening ==>
        currentState == old(currentState) && isRecording == old(isRecording) && shown == old(shown)
        && lastResponse == old(lastResponse) && stateStartTime == old(stateStartTime)
    {
      if currentState != Listening {
        return;
      }
      SetState(Processing, now);
      isRecording := false;
      Display("Processing your request...");
      var recognized := SimulateASR(soundLevel);
      var reply := ReplyText(ReplyOfAsWritten(recognized), recognized, now, soundLevel);
      var response := AIResponse(reply, ClassifyIntentAsWritten(recognized), true, now);
      HandleAIResponse(response, now);
    }

    /** handleAIResponse: an invalid response shows an apology; a valid one
      * is kept, spoken, and its action run unless it is "none" or "chat";
      * either way the machine ends in IDLE. */
    method HandleAIResponse(response: AIResponse, now: Millis)
      modifies this
      ensures currentState == Idle && stateStartTime == now && lastActivityTime == now
      ensures lastResponse == if response.isValid then response else old(lastResponse)
      ensures shown == if uiCreated then ResponseText(response, now) else old(shown)
      ensures Rest() == old(Rest()) && isRecording == old(isRecording)
    {
      if !response.isValid {
        SetState(Error, now);
        Display("Sorry, I didn't understand that.");
        SetState(Idle, now);
        return;
      }
      lastResponse := response;
      SetState(Speaking, now);
      Display(response.text);
      if response.action != "none" && response.action != "chat" {
        ExecuteCommand(response.action, "", now);
      } else {
        SetState(Idle, now);
      }
    }

    /** executeCommand: each known command shows its text; an unknown one is
      * reported; all end in IDLE. */
    method ExecuteCommand(command: string, params: string, now: Millis)
      modifies this
      ensures currentState == Idle && stateStartTime == now && lastActivityTime == now
      ensures shown == if uiCreated then CommandText(command, params, now) else old(shown)
      ensures Rest() == old(Rest()) && isRecording == old(isRecording) && lastResponse == old(lastResponse)
    {
      if command == "weather" {
        HandleWeatherCommand(now);
      } else if command == "time" {
        HandleTimeCommand(now);
      } else if command == "timer" {
        Speak("Timer command: " + params, now);
      } else if command == "alarm" {
        Speak("Alarm command: " + params, now);
      } else if command == "system" {
        Speak("System command: " + params, now);
      } else {
        Speak("Unknown command: " + command, now);
      }
    }

    /** executeSmartCommand: PROCESSING, then the weather or time answer, or
      * an acknowledgement for any other command; all end in IDLE. */
    method ExecuteSmartCommand(command: string, now: Millis)
      modifies this
      ensures currentState == Idle && stateStartTime == now && lastActivityTime == now
      ensures shown == if uiCreated then SmartCommandText(command, now) else old(shown)
      ensures Rest() == old(Rest()) && isRecording == old(isRecording) && lastResponse == old(lastResponse)
    {
      SetState(Processing, now);
      Display("Processing " + command + " command...");
      if command == "weather" {
        HandleWeatherCommand(now);
      } else if command == "time" {
        HandleTimeCommand(now);
      } else {
        Speak("Command: " + command + " executed!", now);
      }
    }

    /** The shape of every handle*Command: SPEAKING with `text` shown, then
      * IDLE. */
    method Speak(text: string, now: Millis)
      modifies this
      ensures currentState == Idle && stateStartTime == now && lastActivityTime == now
      ensures shown == if uiCreated then text else old(shown)
      ensures Rest() == old(Rest()) && isRecording == old(isRecording) && lastResponse == old(lastResponse)
    {
      SetState(Speaking, now);
      Display(text);
      SetState(Idle, now);
    }

    /** handleWeatherCommand: the fixed forecast. */
    method HandleWeatherCommand(now: Millis)
      modifies this
      ensures currentState == Idle && stateStartTime == now && lastActivityTime == now
      ensures shown == if uiCreated then WeatherCommandText else old(shown)
      ensures Rest() == old(Rest()) && isRecording == old(isRecording) && lastResponse == old(lastResponse)
    {
      Speak(WeatherCommandText, now);
    }

    /** handleTimeCommand: the simulated clock, hours of the day and
      * zero-padded minutes. */
    method HandleTimeCommand(now: Millis)
      modifies this
      ensures currentState == Idle && stateStartTime == now && lastActivityTime == now
      ensures shown == if uiCreated then TimeCommandText(now) else old(shown)
      ensures Rest() == old(Rest()) && isRecording == old(isRecording) && lastResponse == old(lastResponse)
    {
      Speak("Current time is " + HourMinute(now), now);
    }

    /** speakResponse: with voice disabled nothing happens; otherwise the
      * text is shown while SPEAKING for SpeakDuration of its length, then
      * IDLE. The duration is returned instead of waited for. */
    method SpeakResponse(text: string, now: Millis) returns (duration: int)
      requires Valid()
      modifies this
      ensures Valid() && Rest() == old(Rest()) && isRecording == old(isRecording) && lastResponse == old(lastResponse)
      ensures !voiceEnabled ==> duration == 0 && currentState == old(currentState) && shown == old(shown)
      ensures voiceEnabled ==>
        && duration == SpeakDuration(|text|) && currentState == Idle && stateStartTime == now
        && shown == (if uiCreated then text else old(shown))
    {
      if !voiceEnabled {
        return 0;
      }
      Display(text);
      SetState(Speaking, now);
      duration := Constrain(|text| * 50, 1000, 5000);
      SetState(Idle, now);
    }

    /** onButton: releases are ignored; a press starts listening from IDLE
      * and stops it from LISTENING. */
    method OnButton(pressed: bool, now: Millis)
      requires Valid()
      modifies this
      ensures Valid() && Rest() == old(Rest())
      ensures !pressed ==>
        currentState == old(currentState) && isRecording == old(isRecording) && shown == old(shown)
        && lastResponse == old(lastResponse)
      ensures pressed && old(currentState) == Idle ==> currentState == Listening && isRecording
      ensures pressed && old(currentState) == Listening ==>
        currentState == Idle && !isRecording && lastResponse == Heard(soundLevel, now)
    {
      if !pressed {
        return;
      }
      if currentState == Idle {
        StartListening(now);
      } else if currentState == Listening {
        StopListening(now);
      }
    }

    /** onKey: TOP acts like a button press; LEFT asks for the weather and
      * RIGHT for the time, both only from IDLE. */
    method OnKey(dir: PageBase.Dir, now: Millis)
      requires Valid()
      modifies this
      ensures Valid() && Rest() == old(Rest())
      ensures dir.Top? && old(currentState) == Idle ==> currentState == Listening && isRecording
      ensures dir.Top? && old(currentState) == Listening ==>
        currentState == Idle && !isRecording && lastResponse == Heard(soundLevel, now)
      ensures dir.Left? && old(currentState) == Idle ==>
        currentState == Idle && shown == (if uiCreated then WeatherCommandText else old(shown))
      ensures dir.Right? && old(currentState) == Idle ==>
        currentState == Idle && shown == (if uiCreated then TimeCommandText(now) else old(shown))
      ensures !dir.Top? ==> isRecording == old(isRecording) && lastResponse == old(lastResponse)
      ensures (dir.Left? || dir.Right?) && old(currentState) != Idle ==>
        currentState == old(currentState) && shown == old(shown)
      ensures dir.Bottom? || dir.DirNone? ==> currentState == old(currentState) && shown == old(shown)
    {
      match dir
      case Top =>
        if currentState == Idle {
          StartListening(now);
        } else if currentState == Listening {
          StopListening(now);
        }
      case Left =>
        if currentState == Idle {
          ExecuteSmartCommand("weather", now);
        }
      case Right =>
        if currentState == Idle {
          ExecuteSmartCommand("time", now);
        }
      case Bottom =>
      case DirNone =>
    }

    /** onViewWillDisappear: leaving while listening stops listening. */
    method OnViewWillDisappear(now: Millis)
      requires Valid()
      modifies this
      ensures Valid() && Rest() == old(Rest()) && !(currentState == Listening)
      ensures old(currentState) == Idle ==>
        currentState == Idle && isRecording == old(isRecording) && shown == old(shown)
    {
      if currentState == Listening {
        StopListening(now);
      }
    }

    /** isVoiceDetected: never, since the level is at most 100. */
    function VoiceDetected(): (b: bool)
      reads this
      requires Valid()
      ensures !b
    {
      soundLevel > micThreshold
    }

    /** processVoiceInput: a level under the threshold starts the silence
      * clock once speech was heard, and after two seconds of silence stops
      * listening; a level at or over it marks speech and resets the clock. */
    method ProcessVoiceInput(level: int, now: Millis)
      requires Valid()
      modifies this
      ensures Valid()
      ensures level >= micThreshold || old(Quiet()) ==>
        && currentState == old(currentState) && isRecording == old(isRecording) && shown == old(shown)
        && lastResponse == old(lastResponse)
        && stateStartTime == old(stateStartTime) && lastActivityTime == old(lastActivityTime)
      ensures level >= micThreshold ==> wasSpeaking && silenceStart == 0
      ensures level < micThreshold && old(Quiet()) ==> Quiet()
      ensures level < micThreshold ==>
        var start := if old(wasSpeaking) && old(silenceStart) == 0 then now else old(silenceStart);
        if start > 0 && Elapsed(now, start) > SilenceTimeout then
          silenceStart == 0 && !wasSpeaking && (old(currentState) == Listening ==> currentState == Idle && !isRecording)
        else
          silenceStart == start && wasSpeaking == old(wasSpeaking) && currentState == old(currentState)
      ensures soundLevel == old(soundLevel) && micValue == old(micValue)
      ensures lastMicUpdate == old(lastMicUpdate) && uiCreated == old(uiCreated)
    {
      if level < micThreshold {
        if wasSpeaking && silenceStart == 0 {
          silenceStart := now;
        }
        if silenceStart > 0 && Elapsed(now, silenceStart) > SilenceTimeout {
          StopListening(now);
          silenceStart := 0;
          wasSpeaking := false;
        }
      } else {
        silenceStart := 0;
        wasSpeaking := true;
      }
    }

    /** updateMicrophone: every 50 ms the reading is scaled into the level;
      * while listening the level goes to processVoiceInput, which, with the
      * level under the threshold and no speech heard before, does nothing. */
    method UpdateMicrophone(now: Millis, reading: nat)
      requires Valid()
      modifies this
      ensures Valid()
      ensures Elapsed(now, old(lastMicUpdate)) >= MicUpdateInterval ==>
        lastMicUpdate == now && micValue == reading && soundLevel == SoundLevel(reading)
      ensures Elapsed(now, old(lastMicUpdate)) < MicUpdateInterval ==>
        lastMicUpdate == old(lastMicUpdate) && micValue == old(micValue) && soundLevel == old(soundLevel)
      ensures old(Quiet()) ==>
        && Quiet() && currentState == old(currentState) && isRecording == old(isRecording)
        && shown == old(shown) && lastResponse == old(lastResponse)
        && stateStartTime == old(stateStartTime) && lastActivityTime == old(lastActivityTime)
      ensures uiCreated == old(uiCreated)
    {
      if Elapsed(now, lastMicUpdate) >= MicUpdateInterval {
        lastMicUpdate := now;
        micValue := reading;
        soundLevel := SoundLevel(reading);
        if currentState == Listening {
          ProcessVoiceInput(soundLevel, now);
        }
      }
    }

    /** update: the microphone first; then a LISTENING machine that has
      * waited more than 10 s falls back to IDLE (still recording), and an
      * IDLE one idle for more than 30 s restarts its activity clock. */
    method Update(now: Millis, reading: nat)
      requires Valid()
      modifies this
      ensures Valid()
      ensures old(Quiet()) ==> Quiet() && lastResponse == old(lastResponse) && isRecording == old(isRecording)
      ensures old(Quiet()) && old(currentState) == Listening ==>
        if Elapsed(now, old(stateStartTime)) > ListeningTimeout then currentState == Idle && stateStartTime == now
        else currentState == Listening && stateStartTime == old(stateStartTime)
      ensures old(Quiet()) && old(currentState) == Idle ==>
        && currentState == Idle && stateStartTime == old(stateStartTime)
        && lastActivityTime == if Elapsed(now, old(lastActivityTime)) > IdleTimeout then now else old(lastActivityTime)
      ensures Elapsed(now, old(lastMicUpdate)) >= MicUpdateInterval ==> soundLevel == SoundLevel(reading)
    {
      UpdateMicrophone(now, reading);
      match currentState
      case Listening =>
        if Elapsed(now, stateStartTime) > ListeningTimeout {
          SetState(Idle, now);
        }
      case Idle =>
        if Elapsed(now, lastActivityTime) > IdleTimeout {
          lastActivityTime := now;
        }
      case _ =>
    }
  }
}
