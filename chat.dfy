/** The chat assistant: the keyword-driven choice of a canned reply and the
    conversation state updated by sending a message. */
module Chat {

  import opened Text

  datatype Role = User | Assistant

  /** What a message says: text that was typed (or the greeting), or the
      canned reply for a topic, whose wording is `ReplyText(topic)`. */
  datatype Content = Plain(text: string) | Reply(topic: Topic)

  /** A chat message (its timestamp is display-only and not modelled). */
  datatype Message = Message(role: Role, content: Content)

  const Greeting: string := "Hello! I'm your AI financial assistant. How can I help you today?"

  /** The subjects the assistant recognises, and the fallback. */
  datatype Topic = Stocks | Market | Forecast | Holdings | Risk | Crypto | General

  /** The subject of a message: the first keyword group, in a fixed order,
      that occurs in the lower-cased text. */
  function TopicOf(input: string): (r: Topic)
    ensures r != General ==> Mentions(Lower(input), r)
  {
    var userMessage := Lower(input);
    if Contains(userMessage, "stock") || Contains(userMessage, "invest") then Stocks
    else if Contains(userMessage, "market") || Contains(userMessage, "trend") then Market
    else if Contains(userMessage, "predict") || Contains(userMessage, "forecast") then Forecast
    else if Contains(userMessage, "portfolio") || Contains(userMessage, "my holdings") then Holdings
    else if Contains(userMessage, "risk") || Contains(userMessage, "volatility") then Risk
    else if Contains(userMessage, "bitcoin") || Contains(userMessage, "crypto") then Crypto
    else General
  }

  /** The order in which keyword groups are tried. */
  const Priority: seq<Topic> := [Stocks, Market, Forecast, Holdings, Risk, Crypto]

  /** The two keywords of each group. */
  function Keywords(t: Topic): (string, string)
    requires t != General
  {
    match t
    case Stocks => ("stock", "invest")
    case Market => ("market", "trend")
    case Forecast => ("predict", "forecast")
    case Holdings => ("portfolio", "my holdings")
    case Risk => ("risk", "volatility")
    case Crypto => ("bitcoin", "crypto")
  }

  predicate Mentions(text: string, t: Topic)
    requires t != General
  {
    Contains(text, Keywords(t).0) || Contains(text, Keywords(t).1)
  }

  /** A message is about the `i`-th group exactly when it mentions that group
      and none tried before it. */
  lemma TopicIsFirstMention(input: string, i: nat)
    requires i < |Priority|
    ensures TopicOf(input) == Priority[i] <==>
      Mentions(Lower(input), Priority[i]) &&
      forall j :: 0 <= j < i ==> !Mentions(Lower(input), Priority[j])
  {
    var text := Lower(input);
    assert Priority[0] == Stocks && Priority[1] == Market && Priority[2] == Forecast;
    assert Priority[3] == Holdings && Priority[4] == Risk && Priority[5] == Crypto;
  }

  /** The general answer is given exactly when no group is mentioned. */
  lemma GeneralIffNoMention(input: string)
    ensures TopicOf(input) == General <==>
      forall j :: 0 <= j < |Priority| ==> !Mentions(Lower(input), Priority[j])
  {
    if TopicOf(input) != General {
      var t := TopicOf(input);
      var j := if t == Stocks then 0 else if t == Market then 1 else if t == Forecast then 2
               else if t == Holdings then 3 else if t == Risk then 4 else 5;
      assert Mentions(Lower(input), Priority[j]);
    }
  }

  /** Matching ignores case: lower-casing the message first changes nothing. */
  lemma TopicIgnoresCase(input: string)
    ensures TopicOf(Lower(input)) == TopicOf(input)
  {
    LowerIdempotent(input);
  }

  /** The canned reply for each subject. */
  function ReplyText(t: Topic): string
  {
    match t
    case Stocks => "Based on current market trends and our AI analysis, technology and renewable energy sectors show strong growth potential. Companies with solid fundamentals in AI, cloud computing, and sustainable energy are particularly promising. Would you like specific stock recommendations?"
    case Market => "The market is showing mixed signals today. NASDAQ is up 0.8%, while the S&P 500 is down 0.2%. The volatility index (VIX) is relatively stable at 15.3, indicating moderate market uncertainty. Tech stocks are outperforming other sectors, particularly semiconductor and AI-related companies."
    case Forecast => "Our AI models predict moderate growth in the next quarter, with potential volatility due to upcoming economic reports and Fed decisions. The tech sector is expected to outperform the broader market, with a projected 5-7% growth compared to 2-3% for the S&P 500. However, be aware that inflation concerns could impact these projections."
    case Holdings => "Your portfolio is currently weighted 45% in technology, 20% in finance, 15% in healthcare, and 20% in consumer and energy sectors. Based on our analysis, this allocation is well-positioned for current market conditions, though you might consider increasing exposure to renewable energy and AI-focused companies for long-term growth."
    case Risk => "Current market volatility is moderate with a VIX of 15.3. Your portfolio has a beta of 1.2, indicating slightly higher volatility than the overall market. To reduce risk, consider adding more defensive stocks or increasing your allocation to dividend-paying companies with stable cash flows."
    case Crypto => "Bitcoin is currently showing strong momentum with increased institutional adoption. Our analysis indicates a potential upside of 15-20% in the next quarter, though with significant volatility. The broader crypto market tends to follow Bitcoin's movements, but with even higher volatility."
    case General => "I can provide financial insights, market analysis, and investment recommendations based on real-time data and AI predictions. I can help with portfolio analysis, risk assessment, market trends, and specific stock information. What specific financial information are you looking for today?"
  }

  /** The send guard: the input is not blank after trimming and no reply is
      pending. */
  function CanSend(input: string, isLoading: bool): (r: bool)
    ensures r <==> !AllSpace(input) && !isLoading
  {
    TrimEmptyIffBlank(input);
    !(Trim(input) == "" || isLoading)
  }

  /** The chat's state: the conversation, the text box and the pending flag. */
  class ChatSession {
    var messages: seq<Message>
    var input: string
    var isLoading: bool

    /** The conversation is the greeting followed by user/assistant turns,
        with one user message unanswered exactly while a reply is pending. */
    ghost predicate Valid()
      reads this
    {
      |messages| >= 1 && messages[0] == Message(Assistant, Plain(Greeting)) &&
      (forall k :: 1 <= k < |messages| ==> messages[k].role == (if k % 2 == 1 then User else Assistant)) &&
      (isLoading <==> |messages| % 2 == 0)
    }

    constructor()
      ensures Valid()
      ensures messages == [Message(Assistant, Plain(Greeting))] && input == "" && !isLoading
    {
      messages := [Message(Assistant, Plain(Greeting))];
      input := "";
      isLoading := false;
    }

    /** Typing in the text box. */
    method SetInput(text: string)
      modifies this
      ensures input == text && messages == old(messages) && isLoading == old(isLoading)
    {
      input := text;
    }

    /** The first half of `handleSend`: unless the guard refuses, append the
        untrimmed input as a user message, set the pending flag and clear the
        box. Returns the text the reply will be chosen from. */
    method Submit() returns (accepted: bool, userText: string)
      requires Valid()
      modifies this
      ensures Valid()
      ensures accepted <==> CanSend(old(input), old(isLoading))
      ensures !accepted ==> messages == old(messages) && input == old(input) && isLoading == old(isLoading)
      ensures accepted ==> messages == old(messages) + [Message(User, Plain(old(input)))] &&
                           input == "" && isLoading && userText == old(input)
    {
      userText := input;
      if !CanSend(input, isLoading) {
        accepted := false;
        return;
      }
      messages := messages + [Message(User, Plain(input))];
      isLoading := true;
      input := "";
      accepted := true;
    }

    /** The second half of `handleSend`: append the reply for the sent text
        and clear the pending flag. Whatever was typed meanwhile stays. */
    method Respond(userText: string)
      requires Valid() && isLoading
      modifies this
      ensures Valid() && !isLoading
      ensures messages == old(messages) + [Message(Assistant, Reply(TopicOf(userText)))]
      ensures input == old(input)
    {
      var response := Reply(TopicOf(userText));
      messages := messages + [Message(Assistant, response)];
      isLoading := false;
    }

    /** `handleSend` run to completion: a refused send changes nothing; an
        accepted one adds the user's message and exactly one reply. */
    method HandleSend() returns (sent: bool)
      requires Valid()
      modifies this
      ensures Valid()
      ensures sent <==> !AllSpace(old(input)) && !old(isLoading)
      ensures !sent ==> messages == old(messages) && input == old(input) && isLoading == old(isLoading)
      ensures sent ==> (!isLoading && input == "" &&
        messages == old(messages) + [Message(User, Plain(old(input))),
                                     Message(Assistant, Reply(TopicOf(old(input))))])
    {
      var userText;
      sent, userText := Submit();
      if sent {
        Respond(userText);
      }
    }

    /** Enter without Shift sends; any other key leaves everything as it is. */
    method HandleKeyDown(key: string, shiftKey: bool) returns (sent: bool)
      requires Valid()
      modifies this
      ensures Valid()
      ensures sent ==> key == "Enter" && !shiftKey
      ensures key == "Enter" && !shiftKey ==> (sent <==> !AllSpace(old(input)) && !old(isLoading))
      ensures !sent ==> messages == old(messages) && input == old(input) && isLoading == old(isLoading)
      ensures sent ==> (!isLoading && input == "" &&
        messages == old(messages) + [Message(User, Plain(old(input))),
                                     Message(Assistant, Reply(TopicOf(old(input))))])
    {
      sent := false;
      if key == "Enter" && !shiftKey {
        sent := HandleSend();
      }
    }
  }
}
