# SparkLink discovery and chat state machine, in Dafny

SparkLink is a SwiftUI prototype of an anonymous, proximity-based meeting app. The user
"illuminates" a spark, and after a delay a simulated peer is found. The user can then open that
peer's anonymised profile and chat with it; the peer always answers with a canned reply. This
project models the app's only logic, a small sequential state machine that `ContentView`,
`RadarManager`, `CommunityMentor` and `AnonymousProfileView` share in `ContentView.swift`,
and proves properties of it.

- `models.dfy`, module `Models`: the `PeerProfile` and `ChatMessage` values, the fixed
  NeonWalker profile and the canned reply text.
- `mentor.dfy`, module `Mentor`: the three-topic prompt pool and `randomElement() ?? "Say Hello!"`.
  The random draw is an explicit parameter `pick`.
- `dashboard.dfy`, module `Dashboard`: the pure parts of the views, which are the status line
  (Dormant / Scanning / Found) and the enable rules of the spark button and the send button.
- `engine.dfy`, module `Engine`: the whole observable state as one value `State`, with one
  function per operation. Each `DispatchQueue.main.asyncAfter` callback (radar detection, prompt
  pick, peer reply) is a pending `Event`. `Deliver` runs any one pending event, because deadlines
  are not modelled.
- `traces.dfy`, module `Traces`: whole sessions as sequences of button presses, edits and event
  deliveries, with an invariant that every session keeps and lemmas about the log and the
  spark count.
- `app.dfy`, module `App`: class `SparkLink`, whose fields are the app's state and whose methods
  update them in place as the source does. Each method's contract ties the new state to the
  engine function of the old state, and every method keeps `Valid()`, the session invariant.

The model follows the code. It has no activation token and no stale-callback check: a detection
scheduled before "Go Stealth" still sets `nearbySparks` to 1 when it fires. The card then reads
"Spark Dormant", but the spark button is enabled and opens the profile
(`Traces.StaleDetectionStillFires`). It has no reply supersession either: every accepted send
schedules its own reply, and all of them arrive (`Traces.EverySendGetsItsReply`). Only an empty
draft is refused, so a whitespace-only message is sent. No operation reports an invalid-state
error. A switch-on while active cannot happen, because the toggle always flips.

## Model

| member | source | states |
|---|---|---|
| Mentor.RandomElement | ContentView.swift:390 | the draw is empty exactly for an empty pool, and otherwise a member of the pool |
| Mentor.PromptFor | ContentView.swift:390 | a non-empty pool yields one of its topics; an empty pool yields "Say Hello!" |
| Mentor.EveryTopicReachable | ContentView.swift:383-390 | every topic of the pool can be drawn by some random choice |
| Mentor.FallbackOnlyWhenEmpty | ContentView.swift:390 | when "Say Hello!" is not a topic, it is shown if and only if the pool is empty |
| Mentor.SafePromptIsTopic | ContentView.swift:383-390 | with the three safe topics, the prompt is always one of them and never the fallback |
| Dashboard.StatusOf | ContentView.swift:121-135 | the status is Dormant iff the spark is off, Found iff on with a spark nearby, Scanning iff on with none, so exactly one holds |
| Dashboard.StatusText | ContentView.swift:121-135 | each of the three status lines is shown for exactly one status: "Spark Found! Tap to Connect" iff Found, "Scanning Safe Zone..." iff Scanning, "Spark Dormant" iff Dormant |
| Dashboard.StatusTextInjective | ContentView.swift:121-135 | the three status texts are pairwise different |
| Dashboard.SparkTapEnabled | ContentView.swift:73-118 | the spark button is disabled exactly when the count is zero, so for a count that is not negative the `.disabled` rule lets a press through exactly when the action's `nearbySparks > 0` guard would act |
| Dashboard.SendEnabled | ContentView.swift:350 | the send button's `.disabled(messageText.isEmpty)` rule; what it means for a send is stated by Traces.SendEnabledIffActs (enabled exactly when sending changes the state) and Traces.BlankDraftIsSent |
| Dashboard.WhitespaceCanBeSent | ContentView.swift:350 | every non-empty draft made only of spaces, tabs and line breaks enables the send button |
| Dashboard.TapEnabledMeansFound | ContentView.swift:112-135 | with a count of 0 or 1, the button is enabled iff an active card reads Found |
| Engine.StartScanning | ContentView.swift:399-408 | schedules exactly one detection and changes nothing else |
| Engine.StopScanning | ContentView.swift:410-412 | sets the count to 0, keeps every scheduled callback, and changes nothing else |
| Engine.GenerateSafePrompt | ContentView.swift:382-392 | schedules exactly one prompt pick and leaves the current prompt as it is |
| Engine.ToggleSpark | ContentView.swift:193-204 | flips the spark; on, it schedules a prompt pick and then a detection; off, it zeroes the count and schedules nothing; the profile, prompt and chat are untouched |
| Engine.TapSpark | ContentView.swift:72-84 | with a spark nearby, the NeonWalker profile is opened; otherwise the state is unchanged; nothing but the profile changes |
| Engine.EditText | ContentView.swift:338 | the draft becomes the typed text, and nothing else changes |
| Engine.SetChatting | ContentView.swift:284-300 | only the chat/profile mode changes |
| Engine.SendMessage | ContentView.swift:361-373 | an empty draft changes nothing; otherwise the log grows by exactly one user message with the draft's text, its earlier prefix kept; the draft is cleared, one reply is scheduled, and no discovery state changes |
| Engine.Deliver | ContentView.swift:369-407 | delivering a callback removes exactly that one from the queue and keeps the others in order; a detection sets the count to 1 whatever the spark state; a prompt pick sets a safe topic; a reply appends exactly one peer message with the canned text |
| Traces.SendKeepsInv | ContentView.swift:361-373 | sending keeps the session invariant |
| Traces.DeliverKeepsInv | ContentView.swift:369-412 | delivering any pending callback keeps the session invariant |
| Traces.StartScanningKeepsInv | ContentView.swift:399-408 | scheduling a detection keeps the session invariant |
| Traces.StopScanningKeepsInv | ContentView.swift:410-412 | zeroing the count keeps the session invariant |
| Traces.GenerateSafePromptKeepsInv | ContentView.swift:382-392 | scheduling a prompt pick keeps the session invariant |
| Traces.ToggleKeepsInv | ContentView.swift:193-204 | toggling keeps the session invariant |
| Traces.Step | ContentView.swift:72-372 | a press of the spark button with no spark, a send with an empty draft, and a firing with no such pending callback all change nothing; the two mode buttons change only the chat/profile mode |
| Traces.StepInv | ContentView.swift:72-412 | every button press, edit or callback keeps the invariant: count 0 or 1, prompt empty or a safe topic, profile none or NeonWalker, replies plus pending replies equal sends, no log prefix with more replies than sends, non-empty user texts and canned peer texts |
| Traces.RunInv | ContentView.swift:72-412 | every session from a valid state ends in a valid state |
| Traces.Reachable | ContentView.swift:397-412 | from app start, the spark count is always 0 or 1, the prompt is empty or a safe topic, and the only profile ever opened is NeonWalker |
| Traces.AllRepliesDelivered | ContentView.swift:363-372 | once no reply is pending, the log holds as many peer messages as user messages |
| Traces.LogGrowsBySends | ContentView.swift:361-372 | the log is append-only, and its user messages grow by exactly the number of accepted sends |
| Traces.RepliesMatchSends | ContentView.swift:362-372 | from app start, once all replies have fired, the peer messages equal the accepted sends |
| Traces.SparksChangeOnlyByRadar | ContentView.swift:397-412 | the count changes only when the spark is switched off (to 0) or a detection fires (to 1) |
| Traces.TapEnabledIffActs | ContentView.swift:72-118 | in every session the spark button is enabled exactly when the count is positive; an enabled press opens NeonWalker and a disabled one changes nothing |
| Traces.SendEnabledIffActs | ContentView.swift:345-362 | the send button is enabled exactly when pressing it changes the state, so the disable rule agrees with the `isEmpty` guard of `sendMessage` |
| Traces.BlankDraftIsSent | ContentView.swift:350-369 | a non-empty blank draft enables the button and is appended as the user's message, with one reply scheduled |
| Traces.StaleDetectionStillFires | ContentView.swift:403-412 | on, off, then the first detection fires: the spark is off with a count of 1, the card reads Dormant, and a tap opens the profile |
| Traces.ReachChat | ContentView.swift:193-300 | from app start, switching on, letting the prompt pick and then the detection fire (the order their 0.5 s and 2.0 s delays give), tapping the spark and opening the chat reaches the NeonWalker chat with a safe prompt shown and nothing pending |
| Traces.EverySendGetsItsReply | ContentView.swift:361-372 | in the chat ReachChat reaches, two sends before any reply and then two firings give user, user, peer, peer: no reply is superseded |
| App.SparkLink.constructor | ContentView.swift:24-30 | the app starts dormant with no profile, as at lines 28-30, and with the other initial values the source gives: a count of 0 (line 397), an empty prompt (line 380), an empty chat, an empty draft and profile mode (lines 210-212), and nothing scheduled |
| App.SparkLink.StartScanning | ContentView.swift:399-408 | the object's state becomes Engine.StartScanning of the old state; the invariant is kept |
| App.SparkLink.StopScanning | ContentView.swift:410-412 | the object's state becomes Engine.StopScanning of the old state; the invariant is kept |
| App.SparkLink.GenerateSafePrompt | ContentView.swift:382-392 | the object's state becomes Engine.GenerateSafePrompt of the old state; the invariant is kept |
| App.SparkLink.ToggleSpark | ContentView.swift:193-204 | the spark is flipped in place, with the two callbacks scheduled when it turns on and the count zeroed when it turns off; the invariant is kept |
| App.SparkLink.TapSpark | ContentView.swift:72-118 | the profile is set to NeonWalker when the count is positive and is otherwise kept; the invariant is kept |
| App.SparkLink.EditText | ContentView.swift:338 | the object's state becomes Engine.EditText of the old state; the invariant is kept |
| App.SparkLink.SetChatting | ContentView.swift:284-300 | the object's state becomes Engine.SetChatting of the old state; the invariant is kept |
| App.SparkLink.SendMessage | ContentView.swift:361-373 | an empty draft leaves log and queue alone; otherwise one user message is appended in place, the draft is cleared and one reply is scheduled; the invariant is kept |
| App.SparkLink.Fire | ContentView.swift:369-412 | the object's state becomes Engine.Deliver of the old state; the invariant is kept |

## Left out

- Layout, gradients, blur, sheets, the auto-scroll of the chat and the focus state (`isFocused`)
  are presentation, not logic.
- `pulseSize` and every animation value are floating-point presentation values; they carry no logic beyond the reset to 1.0.
- Timing: the 0.5 s, 1.5 s and 2.0 s delays of `asyncAfter` are not modelled. Any pending
  callback may be delivered next (`Deliver`, `Fire`), so the lemmas hold for every delivery order.
- `UUID()` ids and `Date()` timestamps are foreign values; messages and profiles carry neither.
- `randomElement()` is modelled as a choice given by the parameter `pick`.
- Dismissing the profile sheet is left out. Its binding resets `detectedPeer` to nil, and SwiftUI
  discards the sheet's chat state; that is view lifecycle, not code in the core. The model keeps
  one chat log for the whole run. Because sheets are left out, the text field, the send
  button and the mode buttons can be used before any profile has been opened, though in the app
  they exist only inside the profile sheet. The lemmas about sessions are facts about every
  sequence of operations, so they also hold of the sequences the app can produce.
- `MyApp.swift` only starts `ContentView` and is not part of this model.
- Activation tokens, reply supersession, invalid-state errors and multi-peer counts are not modelled, because the code has none of them.
