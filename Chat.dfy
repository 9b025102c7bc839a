/** The floating chat widget (src/components/chat/ChatBot.tsx): an
    append-only message log seeded with a welcome message, a blank-input
    guard, a canned reply chosen by language only, and the voice and
    open/close flags. */
module Chat {
  import opened Common

  datatype Sender = User | Bot

  /** A chat message; the `Date` timestamp is not modelled. */
  datatype Message = Message(id: string, text: string, sender: Sender)

  const WelcomeEn: string :=
    "Hi! I'm your Legal Assistant. I can help explain legal clauses, summarize documents, and answer questions about contracts and policies. How can I assist you today?"
  const WelcomeHi: string :=
    "नमस्ते! मैं आपका कानूनी सहायक हूं। मैं कानूनी खंडों की व्याख्या, दस्तावेजों का सारांश, और अनुबंध और नीतियों के बारे में प्रश्नों के उत्तर देने में मदद कर सकता हूं। आज मैं आपकी कैसे सहायता कर सकता हूं?"
  const ReplyEn: string :=
    "I understand your question. Please wait a moment while I prepare the best response for you."
  const ReplyHi: string :=
    "मैं आपके प्रश्न को समझ रहा हूं। कृपया एक क्षण प्रतीक्षा करें जबकि मैं आपके लिए सबसे अच्छा उत्तर तैयार करता हूं।"

  /** `content[currentLanguage].initialMessage`. */
  function WelcomeText(l: Lang): (r: string)
    ensures r == WelcomeHi <==> l == Hi
  {
    match l
    case En => WelcomeEn
    case Hi => WelcomeHi
  }

  /** The canned reply: Hindi exactly when the language is "hi", English
      otherwise; nothing else about the conversation is consulted. */
  function ReplyText(l: Lang): (r: string)
    ensures r == ReplyHi <==> l == Hi
  {
    if l == Hi then ReplyHi else ReplyEn
  }

  /** The characters `String.prototype.trim` strips: ECMAScript white space
      and line terminators. */
  predicate IsJsWhitespace(c: char)
  {
    || c == '\t' || c == '\n' || c == '\U{000B}' || c == '\U{000C}' || c == '\r' || c == ' '
    || c == '\U{00A0}' || c == '\U{1680}' || ('\U{2000}' <= c <= '\U{200A}')
    || c == '\U{2028}' || c == '\U{2029}' || c == '\U{202F}' || c == '\U{205F}'
    || c == '\U{3000}' || c == '\U{FEFF}'
  }

  predicate Blank(s: string)
  {
    forall i :: 0 <= i < |s| ==> IsJsWhitespace(s[i])
  }

  /** Strips the leading white space: what is removed is all white space,
      and what is left does not start with any. */
  function TrimStart(s: string): (r: string)
    ensures |r| <= |s| && r == s[|s| - |r|..]
    ensures Blank(s[..|s| - |r|])
    ensures r == [] || !IsJsWhitespace(r[0])
  {
    if s != [] && IsJsWhitespace(s[0]) then TrimStart(s[1..]) else s
  }

  /** Strips the trailing white space. */
  function TrimEnd(s: string): (r: string)
    ensures |r| <= |s| && r == s[..|r|]
    ensures Blank(s[|r|..])
    ensures r == [] || !IsJsWhitespace(r[|r| - 1])
  {
    if s != [] && IsJsWhitespace(s[|s| - 1]) then TrimEnd(s[..|s| - 1]) else s
  }

  /** `s.trim()`: the leading white space is stripped, then the trailing;
      what is left is empty exactly for a string of white space only. */
  function Trim(s: string): (r: string)
    ensures |r| <= |TrimStart(s)| && r == TrimStart(s)[..|r|] && Blank(TrimStart(s)[|r|..])
    ensures r == [] || (!IsJsWhitespace(r[0]) && !IsJsWhitespace(r[|r| - 1]))
    ensures r == [] <==> Blank(s)
  {
    TrimEmptyIffBlank(s);
    TrimEnd(TrimStart(s))
  }

  /** Stripping both ends gives the empty string exactly for the strings
      made of white space only. */
  lemma TrimEmptyIffBlank(s: string)
    ensures TrimEnd(TrimStart(s)) == "" <==> Blank(s)
  {
    var t := TrimStart(s);
    var k := |s| - |t|;
    if TrimEnd(t) == "" {
      var e := TrimEnd(t);
      assert e == [];
      assert t[|e|..] == t;
      assert Blank(t);
      assert t == [];
      assert s[..k] == s;
    }
  }

  class ChatBot {
    var isOpen: bool
    var messages: seq<Message>
    var inputValue: string
    var isVoiceActive: bool
    /** The language prop as the widget last received it. */
    var currentLanguage: Lang
    /** The language captured by each scheduled reply, oldest first. */
    var pendingReplies: seq<Lang>
    /** The voice reverts scheduled and not yet run. */
    var pendingVoiceReverts: nat

    /** Mounting: closed, with the welcome message of the mount-time
        language as the only message. */
    constructor (lang: Lang)
      ensures messages == [Message("welcome", WelcomeText(lang), Bot)]
      ensures !isOpen && inputValue == "" && !isVoiceActive && currentLanguage == lang
      ensures pendingReplies == [] && pendingVoiceReverts == 0
    {
      isOpen := false;
      messages := [Message("welcome", WelcomeText(lang), Bot)];
      inputValue := "";
      isVoiceActive := false;
      currentLanguage := lang;
      pendingReplies := [];
      pendingVoiceReverts := 0;
    }

    /** A new `currentLanguage` prop; the log keeps its welcome message. */
    method ReceiveLanguage(lang: Lang)
      modifies this`currentLanguage
      ensures currentLanguage == lang
    {
      currentLanguage := lang;
    }

    /** The launcher button. */
    method Open()
      modifies this`isOpen
      ensures isOpen
    {
      isOpen := true;
    }

    /** The close button; the messages persist. */
    method Close()
      modifies this`isOpen
      ensures !isOpen
    {
      isOpen := false;
    }

    /** The input's `onChange`. */
    method SetInput(value: string)
      modifies this`inputValue
      ensures inputValue == value
    {
      inputValue := value;
    }

    /** `handleSendMessage`: blank input changes nothing; otherwise the raw,
        untrimmed input is appended as a user message, the input is cleared
        and a reply in the current language is scheduled. */
    method HandleSendMessage(id: string) returns (sent: bool)
      modifies this`messages, this`inputValue, this`pendingReplies
      ensures sent <==> !Blank(old(inputValue))
      ensures !sent ==> messages == old(messages) && inputValue == old(inputValue)
                        && pendingReplies == old(pendingReplies)
      ensures sent ==> messages == old(messages) + [Message(id, old(inputValue), User)]
                       && inputValue == "" && pendingReplies == old(pendingReplies) + [currentLanguage]
    {
      if Trim(inputValue) == "" {
        return false;
      }
      messages := messages + [Message(id, inputValue, User)];
      inputValue := "";
      pendingReplies := pendingReplies + [currentLanguage];
      sent := true;
    }

    /** The oldest scheduled reply fires: exactly one bot message, whose text
        depends only on the language captured when it was scheduled. */
    method DeliverReply(id: string)
      requires pendingReplies != []
      modifies this`messages, this`pendingReplies
      ensures messages == old(messages) + [Message(id, ReplyText(old(pendingReplies[0])), Bot)]
      ensures pendingReplies == old(pendingReplies[1..])
    {
      messages := messages + [Message(id, ReplyText(pendingReplies[0]), Bot)];
      pendingReplies := pendingReplies[1..];
    }

    /** `handleVoiceToggle`: flip the flag and schedule its revert. */
    method HandleVoiceToggle()
      modifies this`isVoiceActive, this`pendingVoiceReverts
      ensures isVoiceActive == !old(isVoiceActive)
      ensures pendingVoiceReverts == old(pendingVoiceReverts) + 1
    {
      isVoiceActive := !isVoiceActive;
      pendingVoiceReverts := pendingVoiceReverts + 1;
    }

    /** A scheduled revert fires: the flag becomes false whatever it was. */
    method RevertVoice()
      requires pendingVoiceReverts > 0
      modifies this`isVoiceActive, this`pendingVoiceReverts
      ensures !isVoiceActive && pendingVoiceReverts == old(pendingVoiceReverts) - 1
    {
      isVoiceActive := false;
      pendingVoiceReverts := pendingVoiceReverts - 1;
    }
  }
}
