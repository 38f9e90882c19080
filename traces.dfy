/** Whole sessions: any sequence of user actions and callback deliveries, and what stays true along it. */
module Traces {
  import opened Models
  import opened Mentor
  import opened Dashboard
  import opened Engine

  /** One thing that can happen on the main queue: a button press, an edit, or a callback firing. */
  datatype Op =
    | PressToggle               // "Illuminate Spark" / "Go Stealth"
    | PressSpark                // the spark button
    | Edit(text: string)        // typing in the message field
    | PressSend                 // the paper-plane button
    | PressMessage              // "Message Anonymously"
    | PressBack                 // the chevron back to the profile
    | Fire(index: nat, pick: nat)  // the `index`-th pending callback runs

  /** The effect of one op. A disabled button does not run its action, and firing an index with no
      pending callback delivers nothing. */
  function Step(s: State, op: Op): (r: State)
    ensures op == PressSpark && s.nearbySparks == 0 ==> r == s
    ensures op == PressSend && s.messageText == [] ==> r == s
    ensures op.Fire? && op.index >= |s.pending| ==> r == s
    ensures op == PressMessage ==> r.isChatting && r == s.(isChatting := true)
    ensures op == PressBack ==> !r.isChatting && r == s.(isChatting := false)
  {
    match op
    case PressToggle => ToggleSpark(s)
    case PressSpark => if SparkTapEnabled(s.nearbySparks) then TapSpark(s) else s
    case Edit(text) => EditText(s, text)
    case PressSend => if SendEnabled(s.messageText) then SendMessage(s) else s
    case PressMessage => SetChatting(s, true)
    case PressBack => SetChatting(s, false)
    case Fire(i, pick) => if i < |s.pending| then Deliver(s, i, pick) else s
  }

  function Run(s: State, ops: seq<Op>): State
    decreases |ops|
  {
    if ops == [] then s else Run(Step(s, ops[0]), ops[1..])
  }

  /** The number of messages in `ms` sent by the user (`mine`) or by the peer (`!mine`). */
  function Tally(ms: seq<ChatMessage>, mine: bool): nat
    decreases |ms|
  {
    if ms == [] then 0
    else Tally(ms[..|ms| - 1], mine) + (if ms[|ms| - 1].isMe == mine then 1 else 0)
  }

  lemma TallyAppend(ms: seq<ChatMessage>, m: ChatMessage, mine: bool)
    ensures Tally(ms + [m], mine) == Tally(ms, mine) + (if m.isMe == mine then 1 else 0)
  {
  }

  /** No prefix of the log holds more replies than user messages: a reply never precedes
      the message that caused it. */
  ghost predicate RepliesFollowSends(ms: seq<ChatMessage>) {
    forall k | 0 <= k <= |ms| :: Tally(ms[..k], false) <= Tally(ms[..k], true)
  }

  /** The user's messages are non-empty, the peer's carry the canned text. */
  ghost predicate WellFormedLog(ms: seq<ChatMessage>) {
    forall i | 0 <= i < |ms| :: if ms[i].isMe then ms[i].text != [] else ms[i].text == ReplyText
  }

  /** How many replies are still scheduled. */
  function PendingReplies(s: State): nat {
    multiset(s.pending)[ReplyFire]
  }

  /** What every reachable state satisfies. */
  ghost predicate Inv(s: State) {
    && (s.nearbySparks == 0 || s.nearbySparks == 1)
    && (s.currentPrompt == "" || s.currentPrompt in SafeTopics)
    && (s.detectedPeer == None || s.detectedPeer == Some(NeonWalker))
    && Tally(s.messages, false) + PendingReplies(s) == Tally(s.messages, true)
    && RepliesFollowSends(s.messages)
    && WellFormedLog(s.messages)
  }

  lemma InitialInv()
    ensures Inv(Initial)
  {
  }

  /** Appending a message keeps the log ordered and well formed, provided a reply is only
      appended while the user is ahead. */
  lemma AppendMessage(ms: seq<ChatMessage>, m: ChatMessage)
    requires RepliesFollowSends(ms) && WellFormedLog(ms)
    requires if m.isMe then m.text != [] else m.text == ReplyText && Tally(ms, false) < Tally(ms, true)
    ensures RepliesFollowSends(ms + [m]) && WellFormedLog(ms + [m])
    ensures Tally(ms + [m], true) == Tally(ms, true) + (if m.isMe then 1 else 0)
    ensures Tally(ms + [m], false) == Tally(ms, false) + (if m.isMe then 0 else 1)
  {
    var ms' := ms + [m];
    TallyAppend(ms, m, true);
    TallyAppend(ms, m, false);
    forall k | 0 <= k <= |ms'| ensures Tally(ms'[..k], false) <= Tally(ms'[..k], true) {
      if k <= |ms| {
        assert ms'[..k] == ms[..k];
      } else {
        assert ms'[..k] == ms';
      }
    }
    forall i | 0 <= i < |ms'|
      ensures if ms'[i].isMe then ms'[i].text != [] else ms'[i].text == ReplyText
    {
      if i < |ms| { assert ms'[i] == ms[i]; }
    }
  }

  lemma SendKeepsInv(s: State)
    requires Inv(s)
    ensures Inv(SendMessage(s))
  {
    if s.messageText != [] {
      AppendMessage(s.messages, Mine(s.messageText));
      assert SendMessage(s).messages == s.messages + [Mine(s.messageText)];
    }
  }

  lemma DeliverKeepsInv(s: State, i: nat, pick: nat)
    requires Inv(s) && i < |s.pending|
    ensures Inv(Deliver(s, i, pick))
  {
    var r := Deliver(s, i, pick);
    if s.pending[i] == ReplyFire {
      assert PendingReplies(r) + 1 == PendingReplies(s);
      AppendMessage(s.messages, Reply());
      assert r.messages == s.messages + [Reply()];
    } else {
      assert PendingReplies(r) == PendingReplies(s);
    }
  }

  lemma StartScanningKeepsInv(s: State)
    requires Inv(s)
    ensures Inv(StartScanning(s))
  {
    assert PendingReplies(StartScanning(s)) == PendingReplies(s);
  }

  lemma StopScanningKeepsInv(s: State)
    requires Inv(s)
    ensures Inv(StopScanning(s))
  {
  }

  lemma GenerateSafePromptKeepsInv(s: State)
    requires Inv(s)
    ensures Inv(GenerateSafePrompt(s))
  {
    assert PendingReplies(GenerateSafePrompt(s)) == PendingReplies(s);
  }

  lemma ToggleKeepsInv(s: State)
    requires Inv(s)
    ensures Inv(ToggleSpark(s))
  {
  }

  /** Every op keeps the invariant. */
  lemma StepInv(s: State, op: Op)
    requires Inv(s)
    ensures Inv(Step(s, op))
  {
    match op
    case PressToggle => ToggleKeepsInv(s);
    case PressSend => SendKeepsInv(s);
    case Fire(i, pick) => if i < |s.pending| { DeliverKeepsInv(s, i, pick); }
    case _ =>
  }

  /** Every session keeps the invariant. */
  lemma {:induction false} RunInv(s: State, ops: seq<Op>)
    requires Inv(s)
    ensures Inv(Run(s, ops))
    decreases |ops|
  {
    if ops != [] {
      StepInv(s, ops[0]);
      RunInv(Step(s, ops[0]), ops[1..]);
    }
  }

  /** In every session the spark count is 0 or 1, the prompt is empty or a safe topic, and the
      only profile ever opened is NeonWalker. */
  lemma Reachable(ops: seq<Op>)
    ensures Run(Initial, ops).nearbySparks == 0 || Run(Initial, ops).nearbySparks == 1
    ensures Run(Initial, ops).currentPrompt == "" || Run(Initial, ops).currentPrompt in SafeTopics
    ensures Run(Initial, ops).detectedPeer == None || Run(Initial, ops).detectedPeer == Some(NeonWalker)
  {
    InitialInv();
    RunInv(Initial, ops);
  }

  /** Once no reply is pending, the peer has answered every message the user sent. */
  lemma AllRepliesDelivered(ops: seq<Op>)
    requires ReplyFire !in Run(Initial, ops).pending
    ensures Tally(Run(Initial, ops).messages, false) == Tally(Run(Initial, ops).messages, true)
  {
    InitialInv();
    RunInv(Initial, ops);
  }

  /** The number of sends in `ops` that the empty check lets through, starting from `s`. */
  function AcceptedSends(s: State, ops: seq<Op>): nat
    decreases |ops|
  {
    if ops == [] then 0
    else (if ops[0] == PressSend && s.messageText != [] then 1 else 0) + AcceptedSends(Step(s, ops[0]), ops[1..])
  }

  /** One op appends at most one message, and a user message exactly on an accepted send. */
  lemma StepLog(s: State, op: Op)
    ensures var t := Step(s, op);
      && (t.messages == s.messages || exists m :: t.messages == s.messages + [m])
      && Tally(t.messages, true) == Tally(s.messages, true) + (if op == PressSend && s.messageText != [] then 1 else 0)
  {
  }

  /** The log is append-only, and the user's messages in it are exactly the accepted sends. */
  lemma {:induction false} LogGrowsBySends(s: State, ops: seq<Op>)
    ensures |s.messages| <= |Run(s, ops).messages|
    ensures Run(s, ops).messages[..|s.messages|] == s.messages
    ensures Tally(Run(s, ops).messages, true) == Tally(s.messages, true) + AcceptedSends(s, ops)
    decreases |ops|
  {
    if ops != [] {
      var t := Step(s, ops[0]);
      StepLog(s, ops[0]);
      LogGrowsBySends(t, ops[1..]);
      var fin := Run(t, ops[1..]);
      assert fin == Run(s, ops);
      assert |s.messages| <= |t.messages| && t.messages[..|s.messages|] == s.messages;
      assert fin.messages[..|s.messages|] == fin.messages[..|t.messages|][..|s.messages|];
    }
  }

  /** From the start, once all replies have fired, peer messages equal accepted sends. */
  lemma RepliesMatchSends(ops: seq<Op>)
    requires ReplyFire !in Run(Initial, ops).pending
    ensures Tally(Run(Initial, ops).messages, false) == AcceptedSends(Initial, ops)
  {
    AllRepliesDelivered(ops);
    LogGrowsBySends(Initial, ops);
  }

  /** The spark count changes only when the beacon is switched off (to 0) or a detection fires (to 1). */
  lemma SparksChangeOnlyByRadar(s: State, op: Op)
    requires Step(s, op).nearbySparks != s.nearbySparks
    ensures
      || (op == PressToggle && s.isSparkActive && Step(s, op).nearbySparks == 0)
      || (op.Fire? && op.index < |s.pending| && s.pending[op.index] == RadarFire && Step(s, op).nearbySparks == 1)
  {
  }

  /** No stale check: switching the beacon off before the detection fires does not stop it.
      The card then reads "Spark Dormant", yet the spark button is enabled and opens the profile. */
  lemma StaleDetectionStillFires()
    ensures var s := Run(Initial, [PressToggle, PressToggle, Fire(1, 0)]);
      && !s.isSparkActive
      && s.nearbySparks == 1
      && StatusOf(s.isSparkActive, s.nearbySparks) == Dormant
      && Step(s, PressSpark).detectedPeer == Some(NeonWalker)
  {
  }

  /** In every session the spark button's disable rule agrees with its action's guard:
      pressing it opens the profile exactly when it is enabled. */
  lemma TapEnabledIffActs(s: State)
    requires Inv(s)
    ensures SparkTapEnabled(s.nearbySparks) <==> s.nearbySparks > 0
    ensures SparkTapEnabled(s.nearbySparks) ==> Step(s, PressSpark).detectedPeer == Some(NeonWalker)
    ensures !SparkTapEnabled(s.nearbySparks) ==> Step(s, PressSpark) == s
  {
  }

  /** The send button's disable rule agrees with the guard of `sendMessage`: the send does
      something exactly when the button is enabled. */
  lemma SendEnabledIffActs(s: State)
    ensures SendEnabled(s.messageText) <==> SendMessage(s) != s
  {
    if s.messageText != [] {
      assert |SendMessage(s).messages| != |s.messages|;
    }
  }

  /** A blank draft is sent like any other: it is appended as the user's message and a reply is
      scheduled. */
  lemma BlankDraftIsSent(s: State)
    requires s.messageText != [] && IsBlank(s.messageText)
    ensures SendEnabled(s.messageText)
    ensures Step(s, PressSend).messages == s.messages + [Mine(s.messageText)]
    ensures Step(s, PressSend).pending == s.pending + [ReplyFire]
  {
    WhitespaceCanBeSent(s.messageText);
  }

  /** Switch on, let the prompt pick and then the detection fire (the order their delays give),
      tap the spark, and open the chat. */
  const ToChat := [PressToggle, Fire(0, 0), Fire(0, 0), PressSpark, PressMessage]

  /** The chat that opening the NeonWalker profile reaches: a safe prompt shown, nothing pending. */
  const ChatOpen := State(true, Some(NeonWalker), 1, SafeTopics[0], [], "", true, [])

  /** The spark switched on, and then the prompt pick delivered. */
  const Toggled := Initial.(isSparkActive := true, pending := [PromptFire, RadarFire])
  const Prompted := Toggled.(currentPrompt := SafeTopics[0], pending := [RadarFire])

  lemma ReachPrompt()
    ensures Run(Initial, [PressToggle, Fire(0, 0)]) == Prompted
  {
    assert ToggleSpark(Initial) == Toggled;
    assert Deliver(Toggled, 0, 0) == Prompted by {
      assert PromptFor(SafeTopics, 0) == SafeTopics[0];
    }
    RunStep(Initial, [PressToggle, Fire(0, 0)]);
    RunStep(Toggled, [Fire(0, 0)]);
  }

  lemma ReachFound()
    ensures Run(Prompted, [Fire(0, 0), PressSpark, PressMessage]) == ChatOpen
  {
    var s3 := Deliver(Prompted, 0, 0);
    assert s3.pending == [] && s3.nearbySparks == 1;
    var s4 := TapSpark(s3);
    assert SetChatting(s4, true) == ChatOpen;
    RunStep(Prompted, [Fire(0, 0), PressSpark, PressMessage]);
    RunStep(s3, [PressSpark, PressMessage]);
    RunStep(s4, [PressMessage]);
  }

  lemma ReachChat()
    ensures Run(Initial, ToChat) == ChatOpen
    ensures ChatOpen.currentPrompt in SafeTopics
  {
    ReachPrompt();
    ReachFound();
    assert ToChat == [PressToggle, Fire(0, 0)] + [Fire(0, 0), PressSpark, PressMessage];
    RunAppend(Initial, [PressToggle, Fire(0, 0)], [Fire(0, 0), PressSpark, PressMessage]);
  }

  lemma RunStep(s: State, ops: seq<Op>)
    requires ops != []
    ensures Run(s, ops) == Run(Step(s, ops[0]), ops[1..])
  {
  }

  /** The states of the two-send scenario, one per step. */
  const Sent1 := ChatOpen.(messages := [Mine("hi")], pending := [ReplyFire])
  const Sent2 := Sent1.(messages := [Mine("hi"), Mine("there")], pending := [ReplyFire, ReplyFire])
  const Replied1 := Sent2.(messages := Sent2.messages + [Reply()], pending := [ReplyFire])
  const Replied2 := Replied1.(messages := Replied1.messages + [Reply()], pending := [])

  lemma SendsStep()
    ensures Run(ChatOpen, [Edit("hi"), PressSend]) == Sent1
    ensures Run(Sent1, [Edit("there"), PressSend]) == Sent2
  {
    RunStep(ChatOpen, [Edit("hi"), PressSend]);
    RunStep(EditText(ChatOpen, "hi"), [PressSend]);
    assert SendMessage(EditText(ChatOpen, "hi")) == Sent1;
    RunStep(Sent1, [Edit("there"), PressSend]);
    RunStep(EditText(Sent1, "there"), [PressSend]);
    assert SendMessage(EditText(Sent1, "there")) == Sent2;
  }

  lemma RepliesStep()
    ensures Run(Sent2, [Fire(0, 0), Fire(0, 0)]) == Replied2
  {
    assert Deliver(Sent2, 0, 0) == Replied1;
    assert Deliver(Replied1, 0, 0) == Replied2;
    RunStep(Sent2, [Fire(0, 0), Fire(0, 0)]);
    RunStep(Replied1, [Fire(0, 0)]);
  }

  lemma RunAppend(s: State, a: seq<Op>, b: seq<Op>)
    ensures Run(s, a + b) == Run(Run(s, a), b)
    decreases |a|
  {
    if a == [] {
      assert a + b == b;
    } else {
      assert (a + b)[0] == a[0] && (a + b)[1..] == a[1..] + b;
      RunAppend(Step(s, a[0]), a[1..], b);
    }
  }

  /** Two drafts sent, then both replies delivered. */
  const TwoSends := [Edit("hi"), PressSend, Edit("there"), PressSend] + [Fire(0, 0), Fire(0, 0)]

  lemma TwoSendsFromChat()
    ensures Run(ChatOpen, TwoSends) == Replied2
  {
    var first, second, replies := [Edit("hi"), PressSend], [Edit("there"), PressSend], [Fire(0, 0), Fire(0, 0)];
    assert TwoSends == first + (second + replies);
    SendsStep();
    RunAppend(ChatOpen, first, second + replies);
    RepliesStep();
    RunAppend(Sent1, second, replies);
  }

  /** No supersession: in the NeonWalker chat (which `ReachChat` reaches from app start), two
      sends before any reply get two replies, after both messages. */
  lemma EverySendGetsItsReply()
    ensures ChatOpen.detectedPeer == Some(NeonWalker) && ChatOpen.isChatting
    ensures Run(ChatOpen, TwoSends).messages == [Mine("hi"), Mine("there"), Reply(), Reply()]
  {
    TwoSendsFromChat();
    assert Replied2.messages == [Mine("hi"), Mine("there"), Reply(), Reply()];
  }
}
