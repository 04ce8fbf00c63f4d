/**
 * The voice-command classifier of the speech service: a final transcript is
 * lower-cased and trimmed, then tested against an ordered list of Chinese
 * keyword rules; the first rule that matches decides the command, and a
 * transcript that matches none is free text (`TextInput`).
 */
module VoiceCommands {
  import opened Text

  /** The service's `VoiceCommand` enum, in declaration order. */
  datatype VoiceCommand =
    | PlayAudio | PauseAudio | NextChapter | PreviousChapter
    | SpeedUp | SpeedDown | VolumeUp | VolumeDown
    | AddBookmark | OpenSettings | Search | TextInput

  /** What the listener's `onVoiceCommand` receives: the command and the normalised text. */
  datatype CommandEvent = CommandEvent(command: VoiceCommand, text: string)

  /**
   * `text.lowercase().trim()`: a run of the lower-cased text with no ASCII
   * capital and no whitespace at either end; empty exactly when the text is blank.
   */
  function Normalize(text: string): (r: string)
    ensures forall c :: c in r ==> !('A' <= c <= 'Z')
    ensures r != [] ==> !IsWhitespace(r[0]) && !IsWhitespace(r[|r| - 1])
    ensures r == [] <==> IsBlank(text)
  {
    LowercaseBlank(text);
    NoCapitalsAfterTrim(Lowercase(text));
    Trim(Lowercase(text))
  }

  /** Trimming only drops characters, so a text without ASCII capitals keeps none. */
  lemma NoCapitalsAfterTrim(s: string)
    requires forall k :: 0 <= k < |s| ==> !('A' <= s[k] <= 'Z')
    ensures forall c :: c in Trim(s) ==> !('A' <= c <= 'Z')
  {
    var r := Trim(s);
    var i :| SliceWithin(s, r, i);
    forall c | c in r
      ensures !('A' <= c <= 'Z')
    {
      var k :| 0 <= k < |r| && r[k] == c;
      assert r[k] == s[i + k];
    }
  }

  /** Lower-casing keeps a text blank or non-blank. */
  lemma LowercaseBlank(text: string)
    ensures IsBlank(Lowercase(text)) <==> IsBlank(text)
  {
    forall k | 0 <= k < |text|
      ensures IsWhitespace(Lowercase(text)[k]) <==> IsWhitespace(text[k])
    {
      LowerKeepsWhitespace(text[k]);
    }
  }

  /** The `when` expression of the classifier, over an already normalised command. */
  function Classify(command: string): (c: VoiceCommand)
    ensures RuleHolds(command, c)
    ensures forall d :: Rank(d) < Rank(c) ==> !RuleHolds(command, d)
  {
    if Contains(command, "播放") || Contains(command, "开始") then PlayAudio
    else if Contains(command, "暂停") || Contains(command, "停止") then PauseAudio
    else if Contains(command, "下一章") || Contains(command, "下一节") then NextChapter
    else if Contains(command, "上一章") || Contains(command, "上一节") then PreviousChapter
    else if Contains(command, "加速") || Contains(command, "快一点") then SpeedUp
    else if Contains(command, "减速") || Contains(command, "慢一点") then SpeedDown
    else if Contains(command, "音量") && Contains(command, "大") then VolumeUp
    else if Contains(command, "音量") && Contains(command, "小") then VolumeDown
    else if Contains(command, "书签") then AddBookmark
    else if Contains(command, "设置") then OpenSettings
    else if Contains(command, "搜索") then Search
    else TextInput
  }

  /** `parseAndDispatchVoiceCommand`: what is handed to the listener for a final transcript. */
  function ParseAndDispatch(text: string): (e: CommandEvent)
    ensures e.text == Normalize(text)
    ensures RuleHolds(e.text, e.command)
    ensures forall d :: Rank(d) < Rank(e.command) ==> !RuleHolds(e.text, d)
  {
    var command := Normalize(text);
    CommandEvent(Classify(command), command)
  }

  // ---------------------------------------------------------------------------
  // The rule table, stated independently of the `when` expression: each command
  // has its own keyword rule (free text's rule always holds) and a rank; the
  // classifier picks the lowest-ranked command whose rule holds.
  // ---------------------------------------------------------------------------

  function Rank(c: VoiceCommand): nat {
    match c
    case PlayAudio => 0 case PauseAudio => 1 case NextChapter => 2 case PreviousChapter => 3
    case SpeedUp => 4 case SpeedDown => 5 case VolumeUp => 6 case VolumeDown => 7
    case AddBookmark => 8 case OpenSettings => 9 case Search => 10 case TextInput => 11
  }

  predicate RuleHolds(command: string, c: VoiceCommand) {
    match c
    case PlayAudio => Contains(command, "播放") || Contains(command, "开始")
    case PauseAudio => Contains(command, "暂停") || Contains(command, "停止")
    case NextChapter => Contains(command, "下一章") || Contains(command, "下一节")
    case PreviousChapter => Contains(command, "上一章") || Contains(command, "上一节")
    case SpeedUp => Contains(command, "加速") || Contains(command, "快一点")
    case SpeedDown => Contains(command, "减速") || Contains(command, "慢一点")
    case VolumeUp => Contains(command, "音量") && Contains(command, "大")
    case VolumeDown => Contains(command, "音量") && Contains(command, "小")
    case AddBookmark => Contains(command, "书签")
    case OpenSettings => Contains(command, "设置")
    case Search => Contains(command, "搜索")
    case TextInput => true
  }

  /** Ranks are a strict order: no two commands share one. */
  lemma RankInjective(c: VoiceCommand, d: VoiceCommand)
    ensures Rank(c) == Rank(d) <==> c == d
  {
  }

  /**
   * First match wins: the classifier returns `c` exactly when `c`'s rule holds
   * and no rule ranked before it holds.
   */
  lemma ClassifyFirstMatch(command: string, c: VoiceCommand)
    ensures Classify(command) == c <==>
              RuleHolds(command, c) && forall d :: Rank(d) < Rank(c) ==> !RuleHolds(command, d)
  {
    var r := Classify(command);
    assert RuleHolds(command, r);
    assert forall d :: Rank(d) < Rank(r) ==> !RuleHolds(command, d);
    RankInjective(r, c);
  }

  /** Free text is the fall-through: it is returned exactly when no keyword rule holds. */
  lemma TextInputIsFallThrough(command: string)
    ensures Classify(command) == TextInput <==> forall d :: d != TextInput ==> !RuleHolds(command, d)
  {
    ClassifyFirstMatch(command, TextInput);
    forall d | d != TextInput
      ensures Rank(d) < Rank(TextInput)
    {
    }
  }

  /** The volume commands need both keywords: "音量" together with "大" or "小". */
  lemma VolumeNeedsBothKeywords(command: string)
    ensures Classify(command) == VolumeUp ==> Contains(command, "音量") && Contains(command, "大")
    ensures Classify(command) == VolumeDown ==> Contains(command, "音量") && Contains(command, "小")
    ensures !Contains(command, "音量") ==> Classify(command) != VolumeUp && Classify(command) != VolumeDown
  {
    ClassifyFirstMatch(command, VolumeUp);
    ClassifyFirstMatch(command, VolumeDown);
  }

  /** Normalising twice is normalising once. */
  lemma NormalizeIdempotent(text: string)
    ensures Normalize(Normalize(text)) == Normalize(text)
  {
    var l := Lowercase(text);
    LowercaseTrim(l);
    LowercaseIdempotent(text);
    TrimIdempotent(l);
  }

  /**
   * The text handed to the listener is itself a fixed point of dispatch: feeding
   * it back in yields the same command and the same text.
   */
  lemma DispatchStable(text: string)
    ensures ParseAndDispatch(ParseAndDispatch(text).text) == ParseAndDispatch(text)
  {
    NormalizeIdempotent(text);
  }

  /** A string with no ASCII capitals and no surrounding whitespace is already normalised. */
  lemma NormalizeFixed(s: string)
    requires forall c :: c in s ==> !('A' <= c <= 'Z')
    requires s != [] ==> !IsWhitespace(s[0]) && !IsWhitespace(s[|s| - 1])
    ensures Normalize(s) == s
  {
    assert forall k :: 0 <= k < |s| ==> s[k] in s;
    assert Lowercase(s) == s;
    TrimmedIsFixed(s);
  }

  /** A keyword whose first character does not occur in `s` is not contained in `s`. */
  lemma AbsentLead(s: string, k: string)
    requires k != [] && k[0] !in s
    ensures !Contains(s, k)
  {
    ContainsAt(s, k);
    forall i | 0 <= i <= |s| - |k|
      ensures !OccursAt(s, k, i)
    {
      assert s[i..i + |k|][0] == s[i];
    }
  }

  /** The first characters of the keywords of `c`'s rule (for the volume rules, of "音量"). */
  function Leads(c: VoiceCommand): string {
    match c
    case PlayAudio => "播开" case PauseAudio => "暂停" case NextChapter => "下" case PreviousChapter => "上"
    case SpeedUp => "加快" case SpeedDown => "减慢" case VolumeUp => "音" case VolumeDown => "音"
    case AddBookmark => "书" case OpenSettings => "设" case Search => "搜" case TextInput => ""
  }

  /** A keyword rule cannot hold when none of its keywords' first characters occurs. */
  lemma RuleNeedsLead(s: string, c: VoiceCommand)
    requires c != TextInput && forall ch :: ch in Leads(c) ==> ch !in s
    ensures !RuleHolds(s, c)
  {
    match c
    case PlayAudio => AbsentLead(s, "播放"); AbsentLead(s, "开始");
    case PauseAudio => AbsentLead(s, "暂停"); AbsentLead(s, "停止");
    case NextChapter => AbsentLead(s, "下一章"); AbsentLead(s, "下一节");
    case PreviousChapter => AbsentLead(s, "上一章"); AbsentLead(s, "上一节");
    case SpeedUp => AbsentLead(s, "加速"); AbsentLead(s, "快一点");
    case SpeedDown => AbsentLead(s, "减速"); AbsentLead(s, "慢一点");
    case VolumeUp => AbsentLead(s, "音量");
    case VolumeDown => AbsentLead(s, "音量");
    case AddBookmark => AbsentLead(s, "书签");
    case OpenSettings => AbsentLead(s, "设置");
    case Search => AbsentLead(s, "搜索");
  }

  /**
   * Dispatch of an already normalised text whose rule for `c` holds and in which
   * no earlier rule can hold.
   */
  lemma DispatchFirst(s: string, c: VoiceCommand)
    requires forall ch :: ch in s ==> !('A' <= ch <= 'Z')
    requires s != [] ==> !IsWhitespace(s[0]) && !IsWhitespace(s[|s| - 1])
    requires RuleHolds(s, c)
    requires forall d, ch :: Rank(d) < Rank(c) && ch in Leads(d) ==> ch !in s
    ensures ParseAndDispatch(s) == CommandEvent(c, s)
  {
    NormalizeFixed(s);
    forall d | Rank(d) < Rank(c)
      ensures !RuleHolds(s, d)
    {
      RuleNeedsLead(s, d);
    }
    ClassifyFirstMatch(s, c);
  }

  /** Rules overlap and order decides: "停止播放" holds both a play and a pause keyword. */
  lemma PlayBeforePause()
    ensures ParseAndDispatch("停止播放").command == PlayAudio
  {
    ContainsWitness("停止播放", "播放", 2);
    DispatchFirst("停止播放", PlayAudio);
  }

  lemma PlayExample()
    ensures ParseAndDispatch("请播放").command == PlayAudio
  {
    ContainsWitness("请播放", "播放", 1);
    DispatchFirst("请播放", PlayAudio);
  }

  /** "设置书签" holds both a bookmark and a settings keyword; the bookmark rule is ranked first. */
  lemma BookmarkBeforeSettings()
    ensures ParseAndDispatch("设置书签").command == AddBookmark
  {
    ContainsWitness("设置书签", "书签", 2);
    DispatchFirst("设置书签", AddBookmark);
  }

  lemma NextChapterExample()
    ensures ParseAndDispatch("下一章").command == NextChapter
  {
    ContainsWitness("下一章", "下一章", 0);
    DispatchFirst("下一章", NextChapter);
  }

  lemma VolumeUpExample()
    ensures ParseAndDispatch("音量大一点").command == VolumeUp
  {
    ContainsWitness("音量大一点", "音量", 0);
    ContainsWitness("音量大一点", "大", 2);
    DispatchFirst("音量大一点", VolumeUp);
  }

  /** Text without any keyword falls through to free text, unchanged. */
  lemma FreeTextExample()
    ensures ParseAndDispatch("随便说点什么") == CommandEvent(TextInput, "随便说点什么")
  {
    DispatchFirst("随便说点什么", TextInput);
  }
}
