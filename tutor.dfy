/** The floating "Luna" tutor widget: an append-only chat history, an input
    buffer, a typing indicator and a mood, plus the open / close / minimise
    toggles of its window. The delayed AI reply is its own transition. */
module Tutor {
  import opened Text

  datatype Mood = Happy | Excited | Thinking

  /** A chat message; the numeric id and the timestamp are not modelled */
  datatype Message = Message(text: string, isUser: bool)

  const Greeting := "Hi! I'm Luna, your AI learning companion. I'm here to help you navigate your educational journey. What would you like to explore today? \U{1F31F}"

  const AiResponses: seq<string> := [
    "That's a fantastic question! Let me help you understand this concept better. \U{1F9E0}",
    "I love your curiosity! Here's what I think about that topic... \U{2728}",
    "Great thinking! This reminds me of an important principle in learning... \U{1F4DA}",
    "You're on the right track! Let me share some insights that might help... \U{1F4A1}",
    "Excellent question! This is actually a common challenge many learners face... \U{1F3AF}",
    "I'm excited to explore this with you! Here's my perspective... \U{1F680}",
    "That's a deep question! Let me break it down into simpler parts... \U{1F50D}",
    "You're asking all the right questions! This shows real understanding... \U{1F31F}"
  ]

  /** `getMoodAnimation`: the animation class of the tutor character; each
      mood has its own class */
  function MoodAnimation(mood: Mood): (cls: string)
    ensures cls == "animate-bounce" <==> mood == Excited
    ensures cls == "animate-pulse" <==> mood == Thinking
    ensures cls == "" <==> mood == Happy
  {
    match mood
    case Excited => "animate-bounce"
    case Thinking => "animate-pulse"
    case Happy => ""
  }

  /** The guard of `handleSendMessage` and the send button's enabled state:
      the trimmed input is non-empty */
  predicate CanSend(input: string)
    ensures CanSend(input) <==> exists i :: 0 <= i < |input| && !IsWhitespace(input[i])
  {
    Trim(input) != ""
  }

  /** A message the widget can hold: the user's are never blank, the
      tutor's are the greeting or one of the canned replies */
  ghost predicate WellFormed(m: Message)
  {
    if m.isUser then CanSend(m.text) else m.text == Greeting || m.text in AiResponses
  }

  /** What the window shows */
  datatype View = Hidden | HeaderOnly | Full

  class TutorWidget {
    var isOpen: bool
    var isMinimized: bool
    var messages: seq<Message>
    var inputMessage: string
    var isTyping: bool
    var mood: Mood
    /** Reply timers started by a send and not yet fired */
    var pendingReplies: nat

    ghost predicate Valid()
      reads this
    {
      && |messages| >= 1 && messages[0] == Message(Greeting, false)
      && (forall i :: 0 <= i < |messages| ==> WellFormed(messages[i]))
      && (isTyping ==> pendingReplies > 0)
      && mood == (if isTyping then Thinking else Happy)
    }

    constructor ()
      ensures Valid()
      ensures messages == [Message(Greeting, false)]
      ensures !isOpen && !isMinimized && inputMessage == ""
      ensures !isTyping && mood == Happy && pendingReplies == 0
    {
      isOpen, isMinimized := false, false;
      messages := [Message(Greeting, false)];
      inputMessage := "";
      isTyping := false;
      mood := Happy;
      pendingReplies := 0;
    }

    function CurrentView(): (v: View)
      reads this
      ensures v == Hidden <==> !isOpen
      ensures v == HeaderOnly <==> isOpen && isMinimized
    {
      if !isOpen then Hidden else if isMinimized then HeaderOnly else Full
    }

    /** The effect of `handleSendMessage` between the old and the new state */
    twostate predicate SendEffect()
      reads this
    {
      if CanSend(old(inputMessage)) then
        && messages == old(messages) + [Message(old(inputMessage), true)]
        && inputMessage == "" && isTyping && mood == Thinking
        && pendingReplies == old(pendingReplies) + 1
      else
        && messages == old(messages) && inputMessage == old(inputMessage)
        && isTyping == old(isTyping) && mood == old(mood)
        && pendingReplies == old(pendingReplies)
    }

    /** The input's `onChange`; the input is rendered only in the full view */
    method SetInput(value: string)
      requires Valid() && CurrentView() == Full
      modifies this`inputMessage
      ensures Valid()
      ensures inputMessage == value
    {
      inputMessage := value;
    }

    /** `handleSendMessage` up to starting the reply timer; the send button
        is rendered only in the full view */
    method SendMessage()
      requires Valid() && CurrentView() == Full
      modifies this`messages, this`inputMessage, this`isTyping, this`mood, this`pendingReplies
      ensures Valid() && SendEffect()
      ensures old(messages) <= messages
    {
      if !CanSend(inputMessage) {
        return;
      }
      messages := messages + [Message(inputMessage, true)];
      inputMessage := "";
      isTyping := true;
      mood := Thinking;
      pendingReplies := pendingReplies + 1;
    }

    /** A reply timer fires; `k` is the randomly drawn index into the
        canned replies */
    method ReceiveReply(k: nat)
      requires Valid() && pendingReplies > 0 && k < |AiResponses|
      modifies this`messages, this`isTyping, this`mood, this`pendingReplies
      ensures Valid()
      ensures messages == old(messages) + [Message(AiResponses[k], false)]
      ensures !isTyping && mood == Happy && pendingReplies == old(pendingReplies) - 1
    {
      messages := messages + [Message(AiResponses[k], false)];
      isTyping := false;
      mood := Happy;
      pendingReplies := pendingReplies - 1;
    }

    /** `handleKeyPress` on the input: Enter without Shift sends */
    method KeyPress(key: string, shiftKey: bool)
      requires Valid() && CurrentView() == Full
      modifies this`messages, this`inputMessage, this`isTyping, this`mood, this`pendingReplies
      ensures Valid()
      ensures key == "Enter" && !shiftKey ==> SendEffect()
      ensures !(key == "Enter" && !shiftKey) ==>
        && messages == old(messages) && inputMessage == old(inputMessage)
        && isTyping == old(isTyping) && mood == old(mood) && pendingReplies == old(pendingReplies)
    {
      if key == "Enter" && !shiftKey {
        SendMessage();
      }
    }

    /** A click on the tutor character */
    method ToggleOpen()
      requires Valid()
      modifies this`isOpen
      ensures Valid()
      ensures isOpen == !old(isOpen)
    {
      isOpen := !isOpen;
    }

    /** The window's close button, in the header of the open window */
    method Close()
      requires Valid() && isOpen
      modifies this`isOpen
      ensures Valid()
      ensures !isOpen
    {
      isOpen := false;
    }

    /** The window's minimise / maximise button, in the header of the open
        window */
    method ToggleMinimized()
      requires Valid() && isOpen
      modifies this`isMinimized
      ensures Valid()
      ensures isMinimized == !old(isMinimized)
    {
      isMinimized := !isMinimized;
    }
  }

  /** No transition sets the excited mood, so the bouncing animation is
      never shown */
  lemma NeverBounces(w: TutorWidget)
    requires w.Valid()
    ensures MoodAnimation(w.mood) != "animate-bounce"
  {
  }

  /** What a caller can conclude from the contracts alone: a blank input
      is not sent, Enter without Shift sends, a reply follows */
  method ChatScenario()
  {
    var w := new TutorWidget();
    w.ToggleOpen();
    w.SendMessage();
    assert w.messages == [Message(Greeting, false)];
    w.SetInput(" hi ");
    assert !IsWhitespace(" hi "[1]);
    w.KeyPress("Enter", true);
    assert w.inputMessage == " hi ";
    w.KeyPress("Enter", false);
    assert w.messages == [Message(Greeting, false), Message(" hi ", true)];
    assert w.isTyping && MoodAnimation(w.mood) == "animate-pulse";
    w.ReceiveReply(3);
    assert w.messages[2] == Message(AiResponses[3], false) && w.mood == Happy;
  }

  /** Closing keeps the minimised state: reopening shows the header only */
  method WindowScenario()
  {
    var w := new TutorWidget();
    w.ToggleOpen();
    assert w.CurrentView() == Full;
    w.ToggleMinimized();
    w.Close();
    assert w.CurrentView() == Hidden;
    w.ToggleOpen();
    assert w.CurrentView() == HeaderOnly;
  }
}
