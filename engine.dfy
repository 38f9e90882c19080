/** The observable state of the app as one value, and each operation as a function on it.
    Deferred `asyncAfter` callbacks are kept as pending events; `Deliver` runs one of them.
    Deadlines are not modelled: any pending event may be delivered next. */
module Engine {
  import opened Models
  import opened Mentor

  /** A callback scheduled with `DispatchQueue.main.asyncAfter`. */
  datatype Event =
    | RadarFire   // the radar's simulated detection: sets `nearbySparks` to 1
    | PromptFire  // the mentor's delayed pick of a topic
    | ReplyFire   // the peer's scripted reply

  datatype State = State(
    // ContentView
    isSparkActive: bool,
    detectedPeer: Option<PeerProfile>,
    // RadarManager
    nearbySparks: int,
    // CommunityMentor
    currentPrompt: string,
    // AnonymousProfileView
    messages: seq<ChatMessage>,
    messageText: string,
    isChatting: bool,
    // the main queue's callbacks that have not run yet
    pending: seq<Event>)

  const Initial := State(false, None, 0, "", [], "", false, [])

  /** The discovery side (dashboard, radar, mentor) is left as it was. */
  predicate DiscoveryUnchanged(s: State, r: State) {
    r.isSparkActive == s.isSparkActive && r.detectedPeer == s.detectedPeer &&
    r.nearbySparks == s.nearbySparks && r.currentPrompt == s.currentPrompt
  }

  /** The chat side (log, text field, mode) is left as it was. */
  predicate ChatUnchanged(s: State, r: State) {
    r.messages == s.messages && r.messageText == s.messageText && r.isChatting == s.isChatting
  }

  // ---------------------------------------------------------------- RadarManager

  /** `startScanning`: schedules one detection and changes nothing else now. */
  function StartScanning(s: State): (r: State)
    ensures r.pending == s.pending + [RadarFire]
    ensures DiscoveryUnchanged(s, r) && ChatUnchanged(s, r)
  {
    s.(pending := s.pending + [RadarFire])
  }

  /** `stopScanning`: no spark nearby; detections already scheduled stay scheduled. */
  function StopScanning(s: State): (r: State)
    ensures r.nearbySparks == 0 && r.pending == s.pending
    ensures r.isSparkActive == s.isSparkActive && r.detectedPeer == s.detectedPeer
    ensures r.currentPrompt == s.currentPrompt && ChatUnchanged(s, r)
  {
    s.(nearbySparks := 0)
  }

  // ---------------------------------------------------------------- CommunityMentor

  /** `generateSafePrompt`: schedules one prompt pick; the prompt itself changes only when it fires. */
  function GenerateSafePrompt(s: State): (r: State)
    ensures r.pending == s.pending + [PromptFire]
    ensures DiscoveryUnchanged(s, r) && ChatUnchanged(s, r)
  {
    s.(pending := s.pending + [PromptFire])
  }

  // ---------------------------------------------------------------- ContentView

  /** `toggleSpark`: flips the beacon; switching on schedules a prompt pick and then a detection,
      switching off clears the spark count and schedules nothing. */
  function ToggleSpark(s: State): (r: State)
    ensures r.isSparkActive == !s.isSparkActive
    ensures r.isSparkActive ==> r.pending == s.pending + [PromptFire, RadarFire] && r.nearbySparks == s.nearbySparks
    ensures !r.isSparkActive ==> r.pending == s.pending && r.nearbySparks == 0
    ensures r.detectedPeer == s.detectedPeer && r.currentPrompt == s.currentPrompt && ChatUnchanged(s, r)
  {
    var t := s.(isSparkActive := !s.isSparkActive);
    if t.isSparkActive then StartScanning(GenerateSafePrompt(t)) else StopScanning(t)
  }

  /** The spark button's action: opens the NeonWalker profile when a spark is nearby, else does nothing. */
  function TapSpark(s: State): (r: State)
    ensures s.nearbySparks > 0 ==> r.detectedPeer == Some(NeonWalker)
    ensures s.nearbySparks <= 0 ==> r == s
    ensures r == s.(detectedPeer := r.detectedPeer)
  {
    if s.nearbySparks > 0 then s.(detectedPeer := Some(NeonWalker)) else s
  }

  // ---------------------------------------------------------------- AnonymousProfileView

  /** The text field's binding: the user edits the draft. */
  function EditText(s: State, text: string): (r: State)
    ensures r.messageText == text
    ensures r == s.(messageText := text)
  {
    s.(messageText := text)
  }

  /** "Message Anonymously" (`true`) and the back chevron (`false`). */
  function SetChatting(s: State, chatting: bool): (r: State)
    ensures r.isChatting == chatting
    ensures r == s.(isChatting := chatting)
  {
    s.(isChatting := chatting)
  }

  /** `sendMessage`: an empty draft is ignored; otherwise the draft is appended as the user's
      message, the field is cleared and one reply is scheduled. */
  function SendMessage(s: State): (r: State)
    ensures s.messageText == [] ==> r == s
    ensures s.messageText != [] ==>
      && |r.messages| == |s.messages| + 1
      && r.messages[..|s.messages|] == s.messages
      && r.messages[|s.messages|] == ChatMessage(s.messageText, true)
      && r.messageText == []
      && r.pending == s.pending + [ReplyFire]
    ensures r.isChatting == s.isChatting && DiscoveryUnchanged(s, r)
  {
    if s.messageText == [] then s
    else s.(messages := s.messages + [Mine(s.messageText)], messageText := [], pending := s.pending + [ReplyFire])
  }

  // ---------------------------------------------------------------- the main queue

  /** The queue without its `i`-th callback, the others kept in order. */
  function RemoveAt(q: seq<Event>, i: nat): (r: seq<Event>)
    requires i < |q|
    ensures |r| + 1 == |q|
    ensures r[..i] == q[..i] && r[i..] == q[i + 1..]
    ensures multiset(r) + multiset{q[i]} == multiset(q)
  {
    assert q == q[..i] + [q[i]] + q[i + 1..];
    q[..i] + q[i + 1..]
  }

  /** Runs the `i`-th pending callback; `pick` is the random draw a prompt pick uses.
      No callback checks whether the beacon is still on or the chat still open. */
  function Deliver(s: State, i: nat, pick: nat): (r: State)
    requires i < |s.pending|
    ensures r.pending == RemoveAt(s.pending, i)
    ensures multiset(r.pending) + multiset{s.pending[i]} == multiset(s.pending)
    ensures s.pending[i] == RadarFire ==>
      && r.nearbySparks == 1
      && r.isSparkActive == s.isSparkActive && r.detectedPeer == s.detectedPeer
      && r.currentPrompt == s.currentPrompt && ChatUnchanged(s, r)
    ensures s.pending[i] == PromptFire ==>
      && r.currentPrompt in SafeTopics
      && r.isSparkActive == s.isSparkActive && r.detectedPeer == s.detectedPeer
      && r.nearbySparks == s.nearbySparks && ChatUnchanged(s, r)
    ensures s.pending[i] == ReplyFire ==>
      && r.messages == s.messages + [ChatMessage(ReplyText, false)]
      && r.messageText == s.messageText && r.isChatting == s.isChatting
      && DiscoveryUnchanged(s, r)
  {
    var rest := RemoveAt(s.pending, i);
    match s.pending[i]
    case RadarFire => s.(nearbySparks := 1, pending := rest)
    case PromptFire =>
      SafePromptIsTopic(pick);
      s.(currentPrompt := PromptFor(SafeTopics, pick), pending := rest)
    case ReplyFire => s.(messages := s.messages + [Reply()], pending := rest)
  }
}
