/**
 * The support chat of project/src/components/Support/ChatSupport.tsx: the
 * keyword-driven bot reply and the conversation log that sending a message
 * and the delayed bot answer append to.
 */
module ChatSupport {
  import opened Types
  import opened JsText

  datatype Sender = User | Bot

  datatype Message = Message(id: string, text: string, sender: Sender, timestamp: Date)

  const Greeting: string := "こんにちは！eBay輸出入サポートです。どのようなことでお困りですか？"

  // The five answers of `getBotResponse`; a keyword answer is written with its keyword as a separate piece.
  const ListingReply: string := "出品" + "の基本手順をご説明します：\n1. 商品写真を複数枚撮影\n2. 商品タイトルを英語で作成\n3. 商品説明を詳細に記載\n4. 価格と発送方法を設定\n5. 出品完了\n\n詳細なガイドが必要でしたら「詳細ガイド」とお伝えください。"
  const ShippingReply: string := "国際" + "発送" + "の主な方法：\n• EMS（国際スピード郵便）- 最も一般的\n• DHL Express - 最速配送\n• FedEx - 信頼性が高い\n\n発送方法の詳細比較は「発送比較」とお伝えください。"
  const CurrencyReply: string := "為替" + "リスク対策：\n• 定期的な価格見直し\n• 為替アラート設定\n• 利益率に余裕を持った価格設定\n• 複数通貨での取引検討\n\n具体的な設定方法は「為替設定」とお伝えください。"
  const ReturnsReply: string := "返品" + "対応のポイント：\n• 迅速な対応（24時間以内）\n• 丁寧なコミュニケーション\n• 問題の原因究明\n• 適切な解決策の提示\n\n返品ポリシーの設定は「返品ポリシー」とお伝えください。"
  const DefaultReply: string := "ご質問ありがとうございます。より具体的にお聞かせいただけますか？下記のクイック返信もご利用ください。専門スタッフへの転送も可能です。"

  /** The four quick-reply buttons, in display order. */
  const QuickReplies: seq<string> := ["出品方法を教えて", "発送方法について", "為替リスクについて", "返品対応について"]

  /** The branch of `getBotResponse` a text falls into. */
  datatype Topic = Listing | Shipping | Currency | Returns | Other

  /**
   * The if-chain of `getBotResponse`: the first keyword found in the
   * lower-cased text, tried in the order 出品, 発送, 為替, 返品, picks the
   * branch; no keyword gives the default branch.
   */
  function ReplyTopic(userText: string): (topic: Topic)
    ensures Includes(Lower(userText), "出品") <==> topic == Listing
    ensures topic == Shipping <==> !Includes(Lower(userText), "出品") && Includes(Lower(userText), "発送")
    ensures topic == Currency <==>
      !Includes(Lower(userText), "出品") && !Includes(Lower(userText), "発送") && Includes(Lower(userText), "為替")
    ensures topic == Returns <==>
      && !Includes(Lower(userText), "出品") && !Includes(Lower(userText), "発送") && !Includes(Lower(userText), "為替")
      && Includes(Lower(userText), "返品")
    ensures topic == Other <==>
      && !Includes(Lower(userText), "出品") && !Includes(Lower(userText), "発送")
      && !Includes(Lower(userText), "為替") && !Includes(Lower(userText), "返品")
  {
    var lowerText := Lower(userText);
    if Includes(lowerText, "出品") then Listing
    else if Includes(lowerText, "発送") then Shipping
    else if Includes(lowerText, "為替") then Currency
    else if Includes(lowerText, "返品") then Returns
    else Other
  }

  /** The answer of each branch; each keyword answer mentions its keyword, and only the default branch gives the default answer. */
  function ReplyText(topic: Topic): (text: string)
    ensures topic == Listing ==> Includes(text, "出品")
    ensures topic == Shipping ==> Includes(text, "発送")
    ensures topic == Currency ==> Includes(text, "為替")
    ensures topic == Returns ==> Includes(text, "返品")
    ensures text == DefaultReply <==> topic == Other
  {
    match topic
    case Listing => assert OccursAt(ListingReply, "出品", 0); ListingReply
    case Shipping => assert OccursAt(ShippingReply, "発送", 2); ShippingReply
    case Currency => assert OccursAt(CurrencyReply, "為替", 0); CurrencyReply
    case Returns => assert OccursAt(ReturnsReply, "返品", 0); ReturnsReply
    case Other => DefaultReply
  }

  /** `getBotResponse(userText)`. */
  function BotResponse(userText: string): (reply: string)
    ensures Includes(Lower(userText), "出品") ==> reply == ListingReply
    ensures !Includes(Lower(userText), "出品") && Includes(Lower(userText), "発送") ==> reply == ShippingReply
    ensures !Includes(Lower(userText), "出品") && !Includes(Lower(userText), "発送") && Includes(Lower(userText), "為替")
      ==> reply == CurrencyReply
    ensures
      && !Includes(Lower(userText), "出品") && !Includes(Lower(userText), "発送") && !Includes(Lower(userText), "為替")
      && Includes(Lower(userText), "返品")
      ==> reply == ReturnsReply
    ensures reply == DefaultReply <==>
      && !Includes(Lower(userText), "出品") && !Includes(Lower(userText), "発送")
      && !Includes(Lower(userText), "為替") && !Includes(Lower(userText), "返品")
  {
    ReplyText(ReplyTopic(userText))
  }

  /** Each quick reply lands in its own keyword branch. */
  lemma QuickRepliesAnswered()
    ensures ReplyTopic(QuickReplies[0]) == Listing
    ensures ReplyTopic(QuickReplies[1]) == Shipping
    ensures ReplyTopic(QuickReplies[2]) == Currency
    ensures ReplyTopic(QuickReplies[3]) == Returns
  {
    var q0, q1, q2, q3 := QuickReplies[0], QuickReplies[1], QuickReplies[2], QuickReplies[3];
    LowerNoUpper(q0);
    LowerNoUpper(q1);
    LowerNoUpper(q2);
    LowerNoUpper(q3);
    assert OccursAt(q0, "出品", 0);
    NotIncludes(q1, "出品");
    assert OccursAt(q1, "発送", 0);
    NotIncludes(q2, "出品");
    NotIncludes(q2, "発送");
    assert OccursAt(q2, "為替", 0);
    NotIncludes(q3, "出品");
    NotIncludes(q3, "発送");
    NotIncludes(q3, "為替");
    assert OccursAt(q3, "返品", 0);
  }

  /**
   * The chat panel's state. `pending` holds, oldest first, the texts whose
   * 1500 ms reply timer has not fired yet; timers of equal delay fire in the
   * order they were set, so replies arrive in that order.
   */
  class ChatSession {
    var messages: seq<Message>
    var inputText: string
    var isTyping: bool
    var pending: seq<string>

    /** The conversation opens with exactly one message, the bot's greeting. */
    constructor (now: nat)
      ensures messages == [Message("1", Greeting, Bot, At(now))]
      ensures inputText == "" && !isTyping && pending == []
    {
      messages := [Message("1", Greeting, Bot, At(now))];
      inputText := "";
      isTyping := false;
      pending := [];
    }

    /** Typing into the input box. */
    method SetInputText(text: string)
      modifies this
      ensures inputText == text
      ensures messages == old(messages) && isTyping == old(isTyping) && pending == old(pending)
    {
      inputText := text;
    }

    /**
     * `handleSendMessage(text)` at clock reading `now`: blank text is ignored;
     * otherwise one user message is appended, the input is cleared, typing is
     * shown and the reply is scheduled.
     */
    method SendMessage(text: string, now: nat)
      modifies this
      ensures Trim(text) == [] ==>
        messages == old(messages) && inputText == old(inputText) && isTyping == old(isTyping) && pending == old(pending)
      ensures Trim(text) != [] ==>
        && messages == old(messages) + [Message(DecimalString(now), text, User, At(now))]
        && inputText == "" && isTyping
        && pending == old(pending) + [text]
      ensures old(messages) <= messages
    {
      if Trim(text) == [] {
        return;
      }
      var userMessage := Message(DecimalString(now), text, User, At(now));
      messages := messages + [userMessage];
      inputText := "";
      isTyping := true;
      pending := pending + [text];
    }

    /**
     * The oldest pending timer fires at clock reading `now`: one bot message
     * carrying the reply to that text is appended and the typing indicator goes off.
     */
    method DeliverReply(now: nat)
      requires pending != []
      modifies this
      ensures messages == old(messages) + [Message(DecimalString(now + 1), BotResponse(old(pending)[0]), Bot, At(now))]
      ensures !isTyping && inputText == old(inputText)
      ensures pending == old(pending)[1..]
      ensures old(messages) <= messages
    {
      var botResponse := BotResponse(pending[0]);
      var botMessage := Message(DecimalString(now + 1), botResponse, Bot, At(now));
      messages := messages + [botMessage];
      isTyping := false;
      pending := pending[1..];
    }
  }
}
