/**
 * The Soul Guide chat widget (SoulGuide.tsx): the blank-input guard, the canned reply chosen
 * by ordered keyword rules, and the message / emotion state that a send and its two timers
 * update.
 */
module SoulGuide {
  import opened Basics
  import opened Emotions

  // ---------------------------------------------------------------------------------------
  // Text helpers: String.prototype.trim, toLowerCase and includes.

  /** The characters `trim` removes: ECMAScript white space and line terminators. */
  predicate IsWhitespace(c: char) {
    c == ' ' || c == '\t' || c == '\n' || c == '\r' || c == '\U{B}' || c == '\U{C}'
    || c == '\U{A0}' || c == '\U{1680}' || ('\U{2000}' <= c <= '\U{200A}')
    || c == '\U{2028}' || c == '\U{2029}' || c == '\U{202F}' || c == '\U{205F}'
    || c == '\U{3000}' || c == '\U{FEFF}'
  }

  predicate AllWhitespace(s: string) {
    forall k :: 0 <= k < |s| ==> IsWhitespace(s[k])
  }

  function TrimStart(s: string): string {
    if |s| > 0 && IsWhitespace(s[0]) then TrimStart(s[1..]) else s
  }

  function TrimEnd(s: string): string {
    if |s| > 0 && IsWhitespace(s[|s| - 1]) then TrimEnd(s[..|s| - 1]) else s
  }

  /**
   * `s.trim()`: the slice of `s` left once its leading and trailing white space is removed;
   * a non-empty result starts and ends with a visible character.
   */
  function Trim(s: string): (r: string)
    ensures exists a, b :: 0 <= a <= b <= |s| && r == s[a..b] && AllWhitespace(s[..a]) && AllWhitespace(s[b..])
    ensures r != "" ==> !IsWhitespace(r[0]) && !IsWhitespace(r[|r| - 1])
  {
    var t := TrimStart(s);
    TrimStartShape(s);
    TrimEndShape(t);
    assert t != "" ==> TrimEnd(t)[0] == t[0] by {
      if t != "" {
        TrimEndKeepsFirst(t);
      }
    }
    var a, b := |s| - |t|, |s| - |t| + |TrimEnd(t)|;
    assert TrimEnd(t) == s[a..b] && s[b..] == t[|TrimEnd(t)|..];
    TrimEnd(t)
  }

  /**
   * `!s.trim()`: the input the send guard rejects, which is exactly the input made only of
   * white space, the empty input included.
   */
  predicate IsBlank(s: string)
    ensures IsBlank(s) <==> AllWhitespace(s)
  {
    assert Trim(s) == "" <==> AllWhitespace(s) by {
      TrimStartShape(s);
      if TrimStart(s) != "" {
        TrimEndKeepsFirst(TrimStart(s));
      }
    }
    Trim(s) == ""
  }

  lemma {:induction false} TrimStartShape(s: string)
    ensures |TrimStart(s)| <= |s|
    ensures TrimStart(s) == s[|s| - |TrimStart(s)|..] && AllWhitespace(s[..|s| - |TrimStart(s)|])
    ensures TrimStart(s) == "" <==> AllWhitespace(s)
    ensures TrimStart(s) != "" ==> !IsWhitespace(TrimStart(s)[0])
  {
    if |s| > 0 && IsWhitespace(s[0]) {
      TrimStartShape(s[1..]);
      var n := |s| - |TrimStart(s)|;
      assert s[1..][n - 1..] == s[n..];
      forall k | 0 <= k < n ensures IsWhitespace(s[..n][k]) {
        if k > 0 { assert s[..n][k] == s[1..][..n - 1][k - 1]; }
      }
      assert AllWhitespace(s[1..]) ==> AllWhitespace(s) by {
        if AllWhitespace(s[1..]) {
          forall k | 0 <= k < |s| ensures IsWhitespace(s[k]) {
            if k > 0 { assert s[k] == s[1..][k - 1]; }
          }
        }
      }
    }
  }

  lemma {:induction false} TrimEndKeepsFirst(s: string)
    requires |s| > 0 && !IsWhitespace(s[0])
    ensures TrimEnd(s) != "" && TrimEnd(s)[0] == s[0]
  {
    if IsWhitespace(s[|s| - 1]) {
      TrimEndKeepsFirst(s[..|s| - 1]);
    }
  }

  lemma {:induction false} TrimEndShape(s: string)
    ensures |TrimEnd(s)| <= |s|
    ensures TrimEnd(s) == s[..|TrimEnd(s)|] && AllWhitespace(s[|TrimEnd(s)|..])
    ensures TrimEnd(s) != "" ==> !IsWhitespace(TrimEnd(s)[|TrimEnd(s)| - 1])
  {
    if |s| > 0 && IsWhitespace(s[|s| - 1]) {
      var front := s[..|s| - 1];
      TrimEndShape(front);
      var n := |TrimEnd(s)|;
      assert front[..n] == s[..n];
      forall k | 0 <= k < |s| - n ensures IsWhitespace(s[n..][k]) {
        if k < |s| - 1 - n { assert s[n..][k] == front[n..][k]; }
      }
    }
  }

  /** Lower-cases the ASCII letters A-Z and leaves every other character as it is. */
  function LowerChar(c: char): (l: char)
    ensures ('A' <= c <= 'Z') ==> 'a' <= l <= 'z' && l as int - c as int == 32
    ensures !('A' <= c <= 'Z') ==> l == c
  {
    if 'A' <= c <= 'Z' then (c as int + 32) as char else c
  }

  function ToLower(s: string): (r: string)
    ensures |r| == |s|
    ensures forall k :: 0 <= k < |s| ==> r[k] == LowerChar(s[k])
  {
    if s == [] then [] else [LowerChar(s[0])] + ToLower(s[1..])
  }

  /** No character of `s` from position `i` on is an upper-case ASCII letter. */
  predicate NoCapitalsFrom(s: string, i: nat)
    decreases |s| - i
  {
    i >= |s| || (!('A' <= s[i] <= 'Z') && NoCapitalsFrom(s, i + 1))
  }

  lemma {:induction false} NoCapitalAt(s: string, i: nat, k: nat)
    requires NoCapitalsFrom(s, i) && i <= k < |s|
    ensures !('A' <= s[k] <= 'Z')
    decreases k - i
  {
    if i < k {
      NoCapitalAt(s, i + 1, k);
    }
  }

  /** A text without upper-case ASCII letters is its own lower-case form. */
  lemma ToLowerKeeps(s: string)
    requires NoCapitalsFrom(s, 0)
    ensures ToLower(s) == s
  {
    forall k | 0 <= k < |s|
      ensures ToLower(s)[k] == s[k]
    {
      NoCapitalAt(s, 0, k);
    }
  }

  /** `word` occurs in `text` starting at position `k`. */
  predicate OccursAt(text: string, word: string, k: nat) {
    k + |word| <= |text| && text[k..k + |word|] == word
  }

  /** The characters of `word` from position `m` on match those of `text` from `k + m` on. */
  predicate MatchesFrom(text: string, word: string, k: nat, m: nat)
    requires k + |word| <= |text| && m <= |word|
    decreases |word| - m
  {
    m == |word| || (text[k + m] == word[m] && MatchesFrom(text, word, k, m + 1))
  }

  /** Whether `word` starts at one of the positions `k, k+1, ...` of `text`, tried in order. */
  function IncludesFrom(text: string, word: string, k: nat): bool
    decreases |text| - k
  {
    if k + |word| > |text| then false
    else MatchesFrom(text, word, k, 0) || IncludesFrom(text, word, k + 1)
  }

  /** `text.includes(word)`: the empty word is in every text, and no word longer than the text is. */
  function Includes(text: string, word: string): (b: bool)
    ensures word == [] ==> b
    ensures b ==> |word| <= |text|
  {
    IncludesFrom(text, word, 0)
  }

  lemma {:induction false} MatchesFromIff(text: string, word: string, k: nat, m: nat)
    requires k + |word| <= |text| && m <= |word|
    ensures MatchesFrom(text, word, k, m) <==> text[k + m..k + |word|] == word[m..]
    decreases |word| - m
  {
    if m < |word| {
      MatchesFromIff(text, word, k, m + 1);
      assert text[k + m..k + |word|] == [text[k + m]] + text[k + m + 1..k + |word|];
      assert word[m..] == [word[m]] + word[m + 1..];
    }
  }

  lemma {:induction false} IncludesFromIff(text: string, word: string, k: nat)
    ensures IncludesFrom(text, word, k) <==> exists j: nat :: k <= j && OccursAt(text, word, j)
    decreases |text| - k
  {
    if k + |word| <= |text| {
      MatchesFromIff(text, word, k, 0);
      assert word[0..] == word;
      IncludesFromIff(text, word, k + 1);
      if MatchesFrom(text, word, k, 0) {
        assert OccursAt(text, word, k);
      }
      if exists j: nat :: k <= j && OccursAt(text, word, j) {
        var j: nat :| k <= j && OccursAt(text, word, j);
        if j > k {
          assert k + 1 <= j && OccursAt(text, word, j);
        }
      }
    }
  }

  /** `includes` holds exactly when the word occurs at some position of the text. */
  lemma IncludesIff(text: string, word: string)
    ensures Includes(text, word) <==> exists k: nat :: OccursAt(text, word, k)
  {
    IncludesFromIff(text, word, 0);
  }

  // ---------------------------------------------------------------------------------------
  // The canned reply.

  /** The six canned answers. */
  datatype Answer = Greeting | Guidance | Comfort | GameInvite | StepByStep | FollowUp

  /** A reply rule: when the lower-cased text includes one of the keywords, give the answer. */
  datatype Rule = Rule(keywords: seq<string>, answer: Answer, emotion: Emotion)

  /** The text of each answer. */
  function AnswerText(a: Answer): string {
    match a
    case Greeting => "Hello there! It's wonderful to connect with you. How are you feeling today?"
    case Guidance => "I'm here to guide you through your journey. What specific area would you like assistance with?"
    case Comfort => "I'm sorry to hear you're feeling down. Remember that emotions are temporary visitors. Would you like to explore some techniques to lift your spirits?"
    case GameInvite => "Games are a wonderful way to engage the mind! Would you like to try a cognitive exercise together?"
    case StepByStep => "Challenges help us grow. Let's break this down into manageable steps and tackle it together."
    case FollowUp => "That's an interesting perspective. Would you like to explore this topic further together?"
  }

  /** The rules in the order they are tried; the first that matches wins. */
  const ReplyRules: seq<Rule> := [
    Rule(["hello", "hi"], Greeting, Happy),
    Rule(["help", "guide"], Guidance, Empathetic),
    Rule(["sad", "depress", "unhappy"], Comfort, Empathetic),
    Rule(["game", "play"], GameInvite, Playful),
    Rule(["challenge", "difficult"], StepByStep, FocusedProblemSolving)
  ]

  /** The answer when no rule matches. */
  const Fallback := Rule([], FollowUp, Curious)

  /** Whether the text includes one of the keywords, tested left to right. */
  function AnyIncluded(keywords: seq<string>, text: string): bool {
    if keywords == [] then false
    else if Includes(text, keywords[0]) then true
    else AnyIncluded(keywords[1..], text)
  }

  /** A rule fires exactly when the text includes at least one of its keywords. */
  lemma {:induction false} AnyIncludedIff(keywords: seq<string>, text: string)
    ensures AnyIncluded(keywords, text) <==> exists w :: w in keywords && Includes(text, w)
  {
    if keywords != [] {
      AnyIncludedIff(keywords[1..], text);
      assert forall w :: w in keywords <==> w == keywords[0] || w in keywords[1..];
    }
  }

  /** The index of the first rule whose keywords the text includes, or `|rules|` when none does. */
  function FirstMatch(rules: seq<Rule>, text: string): (k: nat)
    ensures k <= |rules|
  {
    if rules == [] then 0
    else if AnyIncluded(rules[0].keywords, text) then 0
    else 1 + FirstMatch(rules[1..], text)
  }

  /** `FirstMatch` finds a rule that fires, and no rule before it fires. */
  lemma {:induction false} FirstMatchIsFirst(rules: seq<Rule>, text: string)
    ensures var k := FirstMatch(rules, text);
            && (k < |rules| ==> AnyIncluded(rules[k].keywords, text))
            && forall m :: 0 <= m < k ==> !AnyIncluded(rules[m].keywords, text)
  {
    if rules != [] && !AnyIncluded(rules[0].keywords, text) {
      FirstMatchIsFirst(rules[1..], text);
      var k := FirstMatch(rules, text);
      forall m | 0 <= m < k
        ensures !AnyIncluded(rules[m].keywords, text)
      {
        if m > 0 {
          assert rules[m] == rules[1..][m - 1];
        }
      }
    }
  }

  /** The reply and reply emotion for a sent text, matched case-insensitively. */
  function ChooseReply(userText: string): (r: Rule)
    ensures r == Fallback || r in ReplyRules
  {
    var k := FirstMatch(ReplyRules, ToLower(userText));
    if k < |ReplyRules| then ReplyRules[k] else Fallback
  }

  /**
   * The reply comes from the first rule one of whose keywords the lower-cased text includes,
   * and is the curious fallback exactly when no rule matches.
   */
  lemma ChooseReplyFirstMatch(userText: string)
    ensures var r := ChooseReply(userText);
            var text := ToLower(userText);
            && (r == Fallback <==> forall m :: 0 <= m < |ReplyRules| ==> !AnyIncluded(ReplyRules[m].keywords, text))
            && (r != Fallback ==>
                  exists k :: (0 <= k < |ReplyRules| && r == ReplyRules[k]
                    && AnyIncluded(ReplyRules[k].keywords, text)
                    && forall m :: 0 <= m < k ==> !AnyIncluded(ReplyRules[m].keywords, text)))
  {
    var k := FirstMatch(ReplyRules, ToLower(userText));
    FirstMatchIsFirst(ReplyRules, ToLower(userText));
    if k < |ReplyRules| {
      assert ReplyRules[k] != Fallback;
    }
  }

  /** "hi" inside "this" fires the greeting rule before the challenge rule is reached. */
  lemma ChallengeTextGetsGreeting(text: string)
    requires text == "this is a challenge"
    ensures FirstMatch(ReplyRules, text) == 0
    ensures AnyIncluded(ReplyRules[4].keywords, text)
  {
    assert Includes(text, "hi") by {
      assert OccursAt(text, "hi", 1);
      IncludesIff(text, "hi");
    }
    assert Includes(text, "challenge") by {
      assert OccursAt(text, "challenge", 10);
      IncludesIff(text, "challenge");
    }
    assert AnyIncluded(ReplyRules[0].keywords, text) by {
      assert ReplyRules[0].keywords[1..] == ["hi"];
      assert AnyIncluded(["hi"], text);
    }
    assert ReplyRules[4].keywords[0] == "challenge";
  }

  /** A text lacking character `c` from position `i` on. */
  predicate LacksFrom(text: string, c: char, i: nat)
    decreases |text| - i
  {
    i >= |text| || (text[i] != c && LacksFrom(text, c, i + 1))
  }

  lemma {:induction false} LacksAt(text: string, c: char, i: nat, k: nat)
    requires LacksFrom(text, c, i) && i <= k < |text|
    ensures text[k] != c
    decreases k - i
  {
    if i < k {
      LacksAt(text, c, i + 1, k);
    }
  }

  /** A word holding a character the text lacks is not included in the text. */
  lemma ExcludedByLetter(text: string, word: string, c: char)
    requires LacksFrom(text, c, 0) && c in word
    ensures !Includes(text, word)
  {
    IncludesIff(text, word);
    if k: nat :| OccursAt(text, word, k) {
      var j :| 0 <= j < |word| && word[j] == c;
      assert text[k..k + |word|][j] == text[k + j];
      LacksAt(text, c, 0, k + j);
    }
  }

  /** A word longer than the text is not included in it. */
  lemma ExcludedByLength(text: string, word: string)
    requires |word| > |text|
    ensures !Includes(text, word)
  {
    IncludesIff(text, word);
  }

  /** "help me play" matches the help rule, which comes before the game rule. */
  lemma HelpBeforePlay(text: string)
    requires text == "help me play"
    ensures FirstMatch(ReplyRules, text) == 1
    ensures AnyIncluded(ReplyRules[3].keywords, text)
  {
    assert LacksFrom(text, 'i', 0) by {
      assert LacksFrom("help me play", 'i', 6);
    }
    assert LacksFrom(text, 'o', 0) by {
      assert LacksFrom("help me play", 'o', 6);
    }
    ExcludedByLetter(text, "hi", 'i');
    ExcludedByLetter(text, "hello", 'o');
    assert Includes(text, "help") by {
      assert OccursAt(text, "help", 0);
      IncludesIff(text, "help");
    }
    assert Includes(text, "play") by {
      assert OccursAt(text, "play", 8);
      IncludesIff(text, "play");
    }
    assert ReplyRules[0].keywords == ["hello", "hi"];
    assert ReplyRules[1].keywords[0] == "help";
    assert ReplyRules[3].keywords[1] == "play";
  }

  /** For a text already in lower case, the reply is the rule `FirstMatch` picks, or the fallback. */
  lemma ReplyOfLowerCase(text: string)
    requires NoCapitalsFrom(text, 0)
    ensures var k := FirstMatch(ReplyRules, text);
            ChooseReply(text) == if k < |ReplyRules| then ReplyRules[k] else Fallback
  {
    ToLowerKeeps(text);
  }

  /** Rule order decides overlapping texts: "this is a challenge" is answered as a greeting. */
  lemma ChallengeExample(text: string)
    requires text == "this is a challenge"
    ensures ChooseReply(text).emotion == Happy
  {
    assert NoCapitalsFrom(text, 0) by {
      assert NoCapitalsFrom("this is a challenge", 10);
    }
    ToLowerKeeps(text);
    ChallengeTextGetsGreeting(text);
  }

  /** "help me play" is answered by the help rule, not the game rule. */
  lemma HelpPlayExample(text: string)
    requires text == "help me play"
    ensures ChooseReply(text).emotion == Empathetic
  {
    assert NoCapitalsFrom(text, 0) by {
      assert NoCapitalsFrom("help me play", 6);
    }
    ToLowerKeeps(text);
    HelpBeforePlay(text);
  }

  /** Letter case does not matter: "HELLO" gets the greeting. */
  lemma CaseExample(text: string)
    requires text == "HELLO"
    ensures ChooseReply(text) == ReplyRules[0]
  {
    assert ToLower(text) == "hello";
    assert Includes("hello", "hello");
  }

  /** A text no rule matches gets the curious fallback. */
  lemma FallbackExample(text: string)
    requires text == "ok"
    ensures ChooseReply(text) == Fallback && Fallback.emotion == Curious
  {
    assert NoCapitalsFrom(text, 0) by {
      assert NoCapitalsFrom("ok", 0);
    }
    ToLowerKeeps(text);
    assert LacksFrom(text, 'h', 0) by {
      assert LacksFrom("ok", 'h', 0);
    }
    forall m | 0 <= m < |ReplyRules|
      ensures !AnyIncluded(ReplyRules[m].keywords, text)
    {
      AnyIncludedIff(ReplyRules[m].keywords, text);
      forall w | w in ReplyRules[m].keywords
        ensures !Includes(text, w)
      {
        if w == "hi" {
          ExcludedByLetter(text, w, 'h');
        } else {
          ExcludedByLength(text, w);
        }
      }
    }
    FirstMatchIsFirst(ReplyRules, text);
  }

  // ---------------------------------------------------------------------------------------
  // The chat state and its transitions.

  datatype Sender = User | Guide

  /** A message's text: typed or given by the caller, or one of the canned answers. */
  datatype Text = Plain(s: string) | Canned(answer: Answer)

  /** The characters a message shows. */
  function Display(t: Text): string {
    match t
    case Plain(s) => s
    case Canned(a) => AnswerText(a)
  }

  /** A chat message; ids and timestamps are not modelled. */
  datatype Message = Message(text: Text, sender: Sender, emotion: Option<Emotion>)

  /**
   * The widget's state. `pending` lists, oldest first, the sent texts whose reply timer has not
   * fired yet; the first `thinking` of them have already passed their "thinking" timer.
   */
  datatype ChatState = ChatState(
    messages: seq<Message>,
    input: string,
    isTyping: bool,
    emotion: Emotion,
    pending: seq<string>,
    thinking: nat)

  /** The "thinking" timer of a send always fires before its reply timer. */
  predicate TimersConsistent(s: ChatState) {
    s.thinking <= |s.pending|
  }

  const InitialState := ChatState([], "", false, Idle, [], 0)

  /** The welcome effect: an empty conversation starts with a happy greeting from the guide. */
  function Welcome(s: ChatState, initialMessage: string): (r: ChatState)
    ensures |s.messages| == 0 ==> r.messages == [Message(Plain(initialMessage), Guide, Some(Happy))] && r.emotion == Happy
    ensures |s.messages| > 0 ==> r == s
    ensures r.input == s.input && r.isTyping == s.isTyping && r.pending == s.pending && r.thinking == s.thinking
  {
    if |s.messages| == 0 then
      s.(messages := [Message(Plain(initialMessage), Guide, Some(Happy))], emotion := Happy)
    else s
  }

  /** The input field's change handler: only the input changes, and to exactly what was typed. */
  function TypeInput(s: ChatState, text: string): (r: ChatState)
    ensures r.input == text
    ensures r.messages == s.messages && r.isTyping == s.isTyping && r.emotion == s.emotion
    ensures r.pending == s.pending && r.thinking == s.thinking
  {
    s.(input := text)
  }

  /**
   * `handleSendMessage`: a blank input is ignored; otherwise the raw input becomes a user
   * message, the input is cleared, the avatar listens, and a reply is scheduled.
   */
  function Send(s: ChatState): (r: ChatState)
    ensures r == s <==> IsBlank(s.input)
    ensures r != s ==> r.messages == s.messages + [Message(Plain(s.input), User, None)]
    ensures r != s ==> r.input == "" && r.emotion == Listening && r.isTyping && r.pending == s.pending + [s.input]
    ensures r.thinking == s.thinking && (TimersConsistent(s) ==> TimersConsistent(r))
  {
    if IsBlank(s.input) then s
    else
      s.(messages := s.messages + [Message(Plain(s.input), User, None)],
         input := "",
         emotion := Listening,
         isTyping := true,
         pending := s.pending + [s.input])
  }

  /** The first timer of the oldest send still waiting for it: the avatar starts thinking. */
  function StartThinking(s: ChatState): (r: ChatState)
    requires s.thinking < |s.pending|
    ensures TimersConsistent(r) && r.thinking == s.thinking + 1 && r.emotion == Thinking
    ensures r.messages == s.messages && r.pending == s.pending && r.isTyping == s.isTyping && r.input == s.input
  {
    s.(emotion := Thinking, thinking := s.thinking + 1)
  }

  /** The second timer of the oldest send: the guide's reply is appended and shown. */
  function DeliverReply(s: ChatState): (r: ChatState)
    requires 0 < s.thinking <= |s.pending|
    ensures TimersConsistent(r) && r.thinking == s.thinking - 1 && r.pending == s.pending[1..]
    ensures |r.messages| == |s.messages| + 1 && r.messages[..|s.messages|] == s.messages
    ensures r.messages[|s.messages|].sender == Guide && r.messages[|s.messages|].emotion == Some(r.emotion)
    ensures !r.isTyping && r.input == s.input
  {
    var r := ChooseReply(s.pending[0]);
    s.(messages := s.messages + [Message(Canned(r.answer), Guide, Some(r.emotion))],
       emotion := r.emotion,
       isTyping := false,
       pending := s.pending[1..],
       thinking := s.thinking - 1)
  }

  /** `handleKeyPress`: Enter sends, any other key does nothing. */
  function KeyPress(s: ChatState, key: string): (r: ChatState)
    ensures key != "Enter" ==> r == s
    ensures key == "Enter" ==> r == Send(s)
    ensures r != s ==> r.messages == s.messages + [Message(Plain(s.input), User, None)] && r.input == ""
  {
    if key == "Enter" then Send(s) else s
  }

  /** The send button is enabled only for a non-blank input while no reply is pending. */
  function SendEnabled(s: ChatState): (enabled: bool)
    ensures enabled <==> !AllWhitespace(s.input) && !s.isTyping
    ensures enabled ==> Send(s) != s && Send(s).isTyping
  {
    !IsBlank(s.input) && !s.isTyping
  }

  /**
   * The input field is disabled while a reply is pending; under the single-reply invariant,
   * that is exactly while a sent text waits for its answer.
   */
  function InputEnabled(s: ChatState): (enabled: bool)
    ensures SingleReply(s) ==> (enabled <==> s.pending == [])
  {
    !s.isTyping
  }

  /** What can happen to the widget. A disabled control and an unscheduled timer do nothing. */
  datatype Event =
    | Mounted(initialMessage: string)
    | Typed(text: string)
    | Pressed(key: string)
    | Clicked
    | ThinkingTimer
    | ReplyTimer

  /** One event; it keeps the timers consistent, and only the four events that can post a message change the messages. */
  function Apply(s: ChatState, e: Event): (r: ChatState)
    ensures TimersConsistent(s) ==> TimersConsistent(r)
    ensures r.messages != s.messages ==> e.Mounted? || e.Pressed? || e.Clicked? || e.ReplyTimer?
    ensures (e.ThinkingTimer? || e.ReplyTimer?) && s.pending == [] ==> r == s
  {
    match e
    case Mounted(m) => Welcome(s, m)
    case Typed(text) => if InputEnabled(s) then TypeInput(s, text) else s
    case Pressed(key) => if InputEnabled(s) then KeyPress(s, key) else s
    case Clicked => if SendEnabled(s) then Send(s) else s
    case ThinkingTimer => if s.thinking < |s.pending| then StartThinking(s) else s
    case ReplyTimer => if 0 < s.thinking <= |s.pending| then DeliverReply(s) else s
  }

  /** A sequence of events, in order; the timers stay consistent throughout. */
  function Run(s: ChatState, events: seq<Event>): (r: ChatState)
    ensures TimersConsistent(s) ==> TimersConsistent(r)
    decreases |events|
  {
    if events == [] then s else Run(Apply(s, events[0]), events[1..])
  }

  /** A blank send changes nothing at all. */
  lemma BlankSendIsNoOp(s: ChatState)
    requires AllWhitespace(s.input)
    ensures Send(s) == s
  {
  }

  /** A send with some visible character appends exactly the raw input as a user message. */
  lemma SendAppendsRawInput(s: ChatState)
    requires !AllWhitespace(s.input)
    ensures Send(s).messages == s.messages + [Message(Plain(s.input), User, None)]
    ensures Send(s).input == "" && Send(s).emotion == Listening && Send(s).isTyping
    ensures Send(s).pending == s.pending + [s.input]
  {
  }

  /** Enter in the input field does the same as the send button. */
  lemma EnterMatchesButton(s: ChatState)
    ensures Apply(s, Pressed("Enter")) == Apply(s, Clicked)
  {
  }

  /** The welcome effect fires at most once: a second run leaves the state alone. */
  lemma WelcomeOnce(s: ChatState, m1: string, m2: string)
    ensures Welcome(Welcome(s, m1), m2) == Welcome(s, m1)
    ensures |s.messages| == 0 ==> Welcome(s, m1).messages == [Message(Plain(m1), Guide, Some(Happy))]
  {
  }

  /** `a` is a prefix of `b`. */
  predicate IsPrefix(a: seq<Message>, b: seq<Message>) {
    |a| <= |b| && b[..|a|] == a
  }

  /** One event keeps every earlier message and adds at most one. */
  lemma ApplyAppends(s: ChatState, e: Event)
    ensures IsPrefix(s.messages, Apply(s, e).messages)
    ensures |Apply(s, e).messages| <= |s.messages| + 1
  {
  }

  /** Messages are only ever appended: earlier ones are never changed or removed. */
  lemma {:induction false} RunAppends(s: ChatState, events: seq<Event>)
    ensures IsPrefix(s.messages, Run(s, events).messages)
    ensures |Run(s, events).messages| <= |s.messages| + |events|
    decreases |events|
  {
    if events != [] {
      ApplyAppends(s, events[0]);
      RunAppends(Apply(s, events[0]), events[1..]);
    }
  }

  /**
   * The invariant the disabled controls keep: at most one reply is pending, and it is pending
   * exactly while the guide is typing.
   */
  predicate SingleReply(s: ChatState) {
    TimersConsistent(s) && |s.pending| <= 1 && (s.isTyping <==> |s.pending| == 1)
  }

  /** The initial state, and the state right after the welcome effect, satisfy the invariant. */
  lemma InitialSingleReply(m: string)
    ensures SingleReply(InitialState)
    ensures SingleReply(Welcome(InitialState, m))
  {
  }

  lemma ApplyKeepsSingleReply(s: ChatState, e: Event)
    requires SingleReply(s)
    ensures SingleReply(Apply(s, e))
  {
  }

  lemma {:induction false} RunKeepsSingleReply(s: ChatState, events: seq<Event>)
    requires SingleReply(s)
    ensures SingleReply(Run(s, events))
    decreases |events|
  {
    if events != [] {
      ApplyKeepsSingleReply(s, events[0]);
      RunKeepsSingleReply(Apply(s, events[0]), events[1..]);
    }
  }

  /** A send followed by its two timers, spelled out as the three states it passes through. */
  lemma SendThenTimers(s: ChatState)
    requires SingleReply(s) && SendEnabled(s)
    ensures var s1 := Apply(s, Clicked);
            var s2 := Apply(s1, ThinkingTimer);
            var r := ChooseReply(s.input);
            && s1 == s.(messages := s.messages + [Message(Plain(s.input), User, None)], input := "",
                        emotion := Listening, isTyping := true, pending := [s.input])
            && s2 == s1.(emotion := Thinking, thinking := 1)
            && Apply(s2, ReplyTimer)
                 == s2.(messages := s1.messages + [Message(Canned(r.answer), Guide, Some(r.emotion))],
                        emotion := r.emotion, isTyping := false, pending := [], thinking := 0)
  {
    var s1 := Apply(s, Clicked);
    assert s.pending == [] && s.thinking == 0;
    assert s1 == Send(s);
    var s2 := Apply(s1, ThinkingTimer);
    assert s2 == StartThinking(s1);
    assert Apply(s2, ReplyTimer) == DeliverReply(s2);
  }

  /**
   * A send followed by its two timers: the conversation gains the user's message and the
   * guide's reply, and nothing is left waiting.
   */
  lemma SendThenReply(s: ChatState)
    requires SingleReply(s) && SendEnabled(s)
    ensures var s3 := Apply(Apply(Apply(s, Clicked), ThinkingTimer), ReplyTimer);
            var r := ChooseReply(s.input);
            && s3.messages == s.messages + [Message(Plain(s.input), User, None), Message(Canned(r.answer), Guide, Some(r.emotion))]
            && s3.pending == [] && s3.input == ""
  {
    SendThenTimers(s);
  }

  /** Along the same run the avatar goes listening, then thinking, then shows the reply's emotion. */
  lemma SendThenReplyMood(s: ChatState)
    requires SingleReply(s) && SendEnabled(s)
    ensures var s1 := Apply(s, Clicked);
            var s2 := Apply(s1, ThinkingTimer);
            var s3 := Apply(s2, ReplyTimer);
            && s1.emotion == Listening && s1.isTyping
            && s2.emotion == Thinking && s2.isTyping
            && s3.emotion == ChooseReply(s.input).emotion && !s3.isTyping
  {
    SendThenTimers(s);
  }

  /**
   * The reply a timer posts shows the wording of the rule the oldest pending text selects, and
   * the guide takes on that rule's emotion.
   */
  lemma ReplyShowsAnswer(s: ChatState)
    requires 0 < s.thinking <= |s.pending|
    ensures Display(DeliverReply(s).messages[|s.messages|].text) == AnswerText(ChooseReply(s.pending[0]).answer)
    ensures DeliverReply(s).emotion == ChooseReply(s.pending[0]).emotion
  {
  }

  /** The widget's state object; each handler and timer updates its fields in place. */
  class Chat {
    var messages: seq<Message>
    var input: string
    var isTyping: bool
    var currentEmotion: Emotion
    var pending: seq<string>
    var thinking: nat

    function State(): ChatState
      reads this
    {
      ChatState(messages, input, isTyping, currentEmotion, pending, thinking)
    }

    constructor ()
      ensures State() == InitialState
    {
      messages, input, isTyping, currentEmotion := [], "", false, Idle;
      pending, thinking := [], 0;
    }

    method WelcomeEffect(initialMessage: string)
      modifies this
      ensures State() == Welcome(old(State()), initialMessage)
    {
      if |messages| == 0 {
        messages := [Message(Plain(initialMessage), Guide, Some(Happy))];
        currentEmotion := Happy;
      }
    }

    method SetInput(text: string)
      modifies this
      ensures State() == TypeInput(old(State()), text)
    {
      input := text;
    }

    method SendMessage()
      modifies this
      ensures State() == Send(old(State()))
    {
      if Trim(input) == "" {
        return;
      }
      messages := messages + [Message(Plain(input), User, None)];
      pending := pending + [input];
      input := "";
      currentEmotion := Listening;
      isTyping := true;
    }

    method HandleKeyPress(key: string)
      modifies this
      ensures State() == KeyPress(old(State()), key)
    {
      if key == "Enter" {
        SendMessage();
      }
    }

    method ThinkingTimerFired()
      requires thinking < |pending|
      modifies this
      ensures State() == StartThinking(old(State()))
    {
      currentEmotion := Thinking;
      thinking := thinking + 1;
    }

    /** The reply timer: the answer for the oldest pending text is computed and appended. */
    method ReplyTimerFired()
      requires 0 < thinking <= |pending|
      modifies this
      ensures State() == DeliverReply(old(State()))
    {
      var r := ChooseReply(pending[0]);
      messages, currentEmotion, isTyping, pending, thinking :=
        messages + [Message(Canned(r.answer), Guide, Some(r.emotion))], r.emotion, false, pending[1..], thinking - 1;
    }
  }
}
