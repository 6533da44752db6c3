/**
 * The chat panel of `src/components/LiveChat.tsx`: its input and
 * locally sent messages, the merge of the feed with them, and the
 * per-message flag, style and time label.
 */
module LiveChatView {
  import opened Text
  import opened Seqs
  import opened Types
  import opened RelativeTime
  import CricketApi

  /** The panel's own state: the text being typed and the messages sent from this page, newest first. */
  datatype ChatState = ChatState(input: string, local: seq<ChatMessage>)

  const MaxLength: nat := 200

  const OwnUser: string := "You"

  /**
   * Typing: the input field holds at most 200 UTF-16 code units, the
   * longest prefix of what was typed that fits.
   */
  function Type(s: ChatState, value: string): (r: ChatState)
    ensures Utf16Length(r.input) <= MaxLength && StartsWith(value, r.input)
    ensures Utf16Length(value) <= MaxLength ==> r.input == value
    ensures |r.input| < |value| ==> Utf16Length(r.input) + CodeUnits(value[|r.input|]) > MaxLength
    ensures r.local == s.local
  {
    s.(input := PrefixUnits(value, MaxLength))
  }

  /** Characters outside the Basic Multilingual Plane (emoji, say) count twice: at most 100 of them fit. */
  lemma TypeAstral(s: ChatState, value: string)
    requires forall i :: 0 <= i < |value| ==> CodeUnits(value[i]) == 2
    ensures |Type(s, value).input| == if |value| < 100 then |value| else 100
  {
    var r := Type(s, value).input;
    assert r == value[..|r|];
    Utf16LengthAstral(r);
    Utf16LengthAstral(value);
  }

  /**
   * `handleSendMessage` at time `nowMs` (milliseconds): an input that is
   * empty or white space only is ignored; otherwise its trimmed text is
   * prepended as the user's own message and the input is cleared.
   */
  function HandleSend(s: ChatState, nowMs: int): (r: ChatState)
    ensures Trim(s.input) == "" ==> r == s
    ensures Trim(s.input) != "" ==>
              && r.input == ""
              && |r.local| == |s.local| + 1 && r.local[1..] == s.local
              && r.local[0].message == Trim(s.input)
              && r.local[0].user == OwnUser && r.local[0].country == Other
              && r.local[0].id == "local-" + IntToString(nowMs)
              && r.local[0].timestamp == nowMs / 1000
  {
    var text := Trim(s.input);
    if text == "" then s
    else
      var m := ChatMessage("local-" + IntToString(nowMs), OwnUser, text, nowMs / 1000, Other);
      assert ([m] + s.local)[1..] == s.local;
      s.(input := "", local := [m] + s.local)
  }

  /** Sending is refused exactly when the input is white space only (or empty). */
  lemma SendRefusedIffBlank(s: ChatState, nowMs: int)
    ensures HandleSend(s, nowMs) == s <==> forall i :: 0 <= i < |s.input| ==> IsSpace(s.input[i])
  {
    TrimEmptyIff(s.input);
    if Trim(s.input) != "" {
      assert |HandleSend(s, nowMs).local| != |s.local|;
    }
  }

  /** What the panel keeps true: a short input, and only the user's own, non-blank, short messages in the local list. */
  predicate ChatInv(s: ChatState)
  {
    && Utf16Length(s.input) <= MaxLength
    && forall i :: 0 <= i < |s.local| ==>
         && s.local[i].user == OwnUser && s.local[i].country == Other
         && 0 < |s.local[i].message| && Utf16Length(s.local[i].message) <= MaxLength
  }

  lemma TypePreservesInv(s: ChatState, value: string)
    requires ChatInv(s)
    ensures ChatInv(Type(s, value))
  {
  }

  lemma SendPreservesInv(s: ChatState, nowMs: int)
    requires ChatInv(s)
    ensures ChatInv(HandleSend(s, nowMs))
  {
    var text := Trim(s.input);
    if text != "" {
      var r := HandleSend(s, nowMs);
      var a, b :| 0 <= a <= b <= |s.input| && text == s.input[a..b];
      Utf16LengthInfix(s.input, a, b);
      forall i | 0 <= i < |r.local|
        ensures r.local[i].user == OwnUser && r.local[i].country == Other
        ensures 0 < |r.local[i].message| && Utf16Length(r.local[i].message) <= MaxLength
      {
        if i > 0 {
          assert r.local[i] == s.local[i - 1];
        }
      }
    }
  }

  // ------------------------------------------------------------- merge

  /** `[...messages, ...localMessages].sort(...)`: newest first. */
  function Merge(feed: seq<ChatMessage>, local: seq<ChatMessage>): (r: seq<ChatMessage>)
    ensures multiset(r) == multiset(feed) + multiset(local)
    ensures |r| == |feed| + |local|
    ensures SortedDesc(r, CricketApi.ChatTimestamp)
  {
    SortDesc(feed + local, CricketApi.ChatTimestamp)
  }

  /** Every message of either list is shown, and nothing else is. */
  lemma MergeShowsAll(feed: seq<ChatMessage>, local: seq<ChatMessage>, m: ChatMessage)
    ensures m in Merge(feed, local) <==> m in feed || m in local
  {
    var r := Merge(feed, local);
    assert m in r <==> m in multiset(r);
    assert m in feed <==> m in multiset(feed);
    assert m in local <==> m in multiset(local);
  }

  /** A message just sent is the newest: it heads the panel when no message is newer. */
  lemma SentMessageOnTop(feed: seq<ChatMessage>, s: ChatState, nowMs: int)
    requires Trim(s.input) != ""
    requires forall m :: m in feed ==> m.timestamp < nowMs / 1000
    requires forall m :: m in s.local ==> m.timestamp < nowMs / 1000
    ensures var r := HandleSend(s, nowMs);
            Merge(feed, r.local)[0] == r.local[0]
  {
    var r := HandleSend(s, nowMs);
    var out := Merge(feed, r.local);
    var sent := r.local[0];
    assert sent in multiset(out) by {
      assert sent in multiset(r.local);
    }
    var k :| 0 <= k < |out| && out[k] == sent;
    var top := out[0];
    assert CricketApi.ChatTimestamp(top) >= CricketApi.ChatTimestamp(out[k]);
    assert top in multiset(out);
    assert top in feed || top in r.local;
    assert top in r.local ==> top == sent || top in s.local by {
      assert r.local == [sent] + s.local;
    }
  }

  // ----------------------------------------------------------- per message

  /** `formatTime` for chat: "now" under a minute (future timestamps included), whole minutes under an hour, then the clock time. */
  function ChatTime(now: int, at: int): (r: TimeLabel)
    ensures now - at < 60 <==> r == Words("now")
    ensures 60 <= now - at < 3600 ==> r.Words? && r.text == MinutesAgo(now - at)
    ensures now - at >= 3600 <==> r == ClockTime(at)
  {
    var diff := now - at;
    if diff < 60 then Words("now")
    else if diff < 3600 then
      var t := MinutesAgo(diff);
      assert t != "now" by {
        var m: nat :| 1 <= m < 60 && t == NatToString(m) + "m ago";
        assert IsDigit(t[0]);
      }
      Words(t)
    else ClockTime(at)
  }

  /** `getCountryFlag`: India's and Pakistan's flags, and a globe for anyone else. */
  function CountryFlag(c: Country): (r: string)
    ensures c == In <==> r == "\U{1F1EE}\U{1F1F3}"
    ensures c == Pk <==> r == "\U{1F1F5}\U{1F1F0}"
    ensures c == Other <==> r == "\U{1F30D}"
  {
    match c
    case In => "\U{1F1EE}\U{1F1F3}"
    case Pk => "\U{1F1F5}\U{1F1F0}"
    case Other => "\U{1F30D}"
  }

  const UserStyle: string := "bg-blue-500/20 border-blue-500/30"
  const IndiaStyle: string := "bg-orange-500/20 border-orange-500/30"
  const PakistanStyle: string := "bg-green-500/20 border-green-500/30"
  const OtherStyle: string := "bg-white/5 border-white/10"

  /** `getMessageStyle`: the user's own style wins over the country; otherwise one style per country. */
  function MessageStyle(country: Country, isUser: bool): (r: string)
    ensures isUser <==> r == UserStyle
    ensures !isUser ==> (r == IndiaStyle <==> country == In) && (r == PakistanStyle <==> country == Pk)
                        && (r == OtherStyle <==> country == Other)
  {
    if isUser then UserStyle
    else match country
      case In => IndiaStyle
      case Pk => PakistanStyle
      case Other => OtherStyle
  }

  /** A displayed message's style: any message whose user is "You" counts as the user's own, whatever its country. */
  function StyleOf(m: ChatMessage): (r: string)
    ensures m.user == OwnUser <==> r == UserStyle
  {
    MessageStyle(m.country, m.user == OwnUser)
  }

  /** Every message sent from the page is shown in the user's style. */
  lemma SentMessagesStyledAsOwn(s: ChatState, i: nat)
    requires ChatInv(s) && i < |s.local|
    ensures StyleOf(s.local[i]) == UserStyle
  {
  }
}
