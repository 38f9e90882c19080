/** The app's mutable state as one object: the dashboard's own state, the radar's and the mentor's
    published values, the profile sheet's chat state, and the callbacks the main queue still owes.
    Each method updates the fields in place as the source does; its contract ties the new state
    to the engine's function of the old one, and `Valid()` is the invariant every session keeps. */
module App {
  import opened Models
  import opened Mentor
  import opened Engine
  import opened Traces

  class SparkLink {
    var isSparkActive: bool
    var detectedPeer: Option<PeerProfile>
    var nearbySparks: int
    var currentPrompt: string
    var messages: seq<ChatMessage>
    var messageText: string
    var isChatting: bool
    var pending: seq<Event>

    /** The fields as one engine state. */
    function View(): State
      reads this
    {
      State(isSparkActive, detectedPeer, nearbySparks, currentPrompt, messages, messageText, isChatting, pending)
    }

    ghost predicate Valid()
      reads this
    {
      Inv(View())
    }

    constructor ()
      ensures Valid() && View() == Initial
    {
      isSparkActive, detectedPeer, nearbySparks, currentPrompt := false, None, 0, "";
      messages, messageText, isChatting, pending := [], "", false, [];
      InitialInv();
    }

    /** `RadarManager.startScanning`. */
    method StartScanning()
      requires Valid()
      modifies this
      ensures Valid()
      ensures View() == Engine.StartScanning(old(View()))
    {
      StartScanningKeepsInv(View());
      pending := pending + [RadarFire];
    }

    /** `RadarManager.stopScanning`. */
    method StopScanning()
      requires Valid()
      modifies this
      ensures Valid()
      ensures View() == Engine.StopScanning(old(View()))
    {
      StopScanningKeepsInv(View());
      nearbySparks := 0;
    }

    /** `CommunityMentor.generateSafePrompt`. */
    method GenerateSafePrompt()
      requires Valid()
      modifies this
      ensures Valid()
      ensures View() == Engine.GenerateSafePrompt(old(View()))
    {
      GenerateSafePromptKeepsInv(View());
      pending := pending + [PromptFire];
    }

    /** `ContentView.toggleSpark`. */
    method ToggleSpark()
      requires Valid()
      modifies this
      ensures Valid()
      ensures View() == Engine.ToggleSpark(old(View()))
      ensures isSparkActive == !old(isSparkActive)
      ensures isSparkActive ==> pending == old(pending) + [PromptFire, RadarFire]
      ensures !isSparkActive ==> nearbySparks == 0 && pending == old(pending)
    {
      ghost var before := View();
      isSparkActive := !isSparkActive;
      if isSparkActive {
        GenerateSafePrompt();
        StartScanning();
      } else {
        StopScanning();
      }
      StepInv(before, PressToggle);
    }

    /** The spark button: nothing when disabled or when no spark is nearby, else the profile opens. */
    method TapSpark()
      requires Valid()
      modifies this
      ensures Valid()
      ensures View() == Step(old(View()), PressSpark)
      ensures detectedPeer == (if old(nearbySparks) > 0 then Some(NeonWalker) else old(detectedPeer))
    {
      ghost var before := View();
      if nearbySparks != 0 {
        if nearbySparks > 0 {
          detectedPeer := Some(NeonWalker);
        }
      }
      StepInv(before, PressSpark);
    }

    /** The message field's binding. */
    method EditText(text: string)
      requires Valid()
      modifies this
      ensures Valid()
      ensures View() == Engine.EditText(old(View()), text)
    {
      ghost var before := View();
      messageText := text;
      StepInv(before, Edit(text));
    }

    /** "Message Anonymously" (`true`) and the back chevron (`false`). */
    method SetChatting(chatting: bool)
      requires Valid()
      modifies this
      ensures Valid()
      ensures View() == Engine.SetChatting(old(View()), chatting)
    {
      ghost var before := View();
      isChatting := chatting;
      StepInv(before, if chatting then PressMessage else PressBack);
    }

    /** `AnonymousProfileView.sendMessage`. */
    method SendMessage()
      requires Valid()
      modifies this
      ensures Valid()
      ensures View() == Engine.SendMessage(old(View()))
      ensures old(messageText) == [] ==> messages == old(messages) && pending == old(pending)
      ensures old(messageText) != [] ==>
        && messages == old(messages) + [ChatMessage(old(messageText), true)]
        && messageText == [] && pending == old(pending) + [ReplyFire]
    {
      ghost var before := View();
      if messageText == [] {
        return;
      }
      var newMsg := ChatMessage(messageText, true);
      messages := messages + [newMsg];
      messageText := [];
      pending := pending + [ReplyFire];
      SendKeepsInv(before);
    }

    /** The main queue runs its `i`-th pending callback; `pick` is the random draw of a prompt pick. */
    method Fire(i: nat, pick: nat)
      requires Valid() && i < |pending|
      modifies this
      ensures Valid()
      ensures View() == Deliver(old(View()), i, pick)
    {
      ghost var before := View();
      var e := pending[i];
      pending := RemoveAt(pending, i);
      match e {
        case RadarFire =>
          nearbySparks := 1;
        case PromptFire =>
          currentPrompt := PromptFor(SafeTopics, pick);
        case ReplyFire =>
          var reply := ChatMessage(ReplyText, false);
          messages := messages + [reply];
      }
      DeliverKeepsInv(before, i, pick);
    }
  }
}
