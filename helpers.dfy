/** Small helpers of the browser client: the age label of a session, the
    theme cycle, the connectivity test of a status reply, the send button,
    the file name of an exported chat, and the title derived from a
    session's first message. */
module UiHelpers {
  import opened Text

  // ---------------------------------------------------------------------
  // `formatSessionTime`

  const MinuteMs: int := 60000
  const HourMs: int := 3600000
  const DayMs: int := 86400000

  /** The label buckets of a session's age. */
  datatype Age = JustNow | Minutes(n: nat) | Hours(n: nat) | Days(n: nat)

  /** The bucket of an age of `diff` milliseconds, the count being the
      whole number of units elapsed. A date in the future counts as now. */
  function SessionAge(diff: int): (a: Age)
    ensures a == JustNow <==> diff < MinuteMs
    ensures a.Minutes? ==> MinuteMs <= diff < HourMs && a.n * MinuteMs <= diff < (a.n + 1) * MinuteMs && 1 <= a.n < 60
    ensures a.Hours? ==> HourMs <= diff < DayMs && a.n * HourMs <= diff < (a.n + 1) * HourMs && 1 <= a.n < 24
    ensures a.Days? ==> DayMs <= diff && a.n * DayMs <= diff < (a.n + 1) * DayMs && 1 <= a.n
  {
    if diff < MinuteMs then JustNow
    else if diff < HourMs then Minutes(diff / MinuteMs)
    else if diff < DayMs then Hours(diff / HourMs)
    else Days(diff / DayMs)
  }

  function AgeLabel(a: Age): string
  {
    match a
    case JustNow => "now"
    case Minutes(n) => NatToString(n) + "m"
    case Hours(n) => NatToString(n) + "h"
    case Days(n) => NatToString(n) + "d"
  }

  /** `formatSessionTime(date)`, given `now - date` in milliseconds. */
  function FormatSessionTime(diff: int): string
  {
    AgeLabel(SessionAge(diff))
  }

  /** Reads a label back into its bucket. */
  function ReadAge(shown: string): Option<Age>
  {
    if shown == "now" then Some(JustNow)
    else if |shown| < 2 || !AllDigits(shown[..|shown| - 1]) then None
    else
      var n := ParseNat(shown[..|shown| - 1]);
      match shown[|shown| - 1]
      case 'm' => Some(Minutes(n))
      case 'h' => Some(Hours(n))
      case 'd' => Some(Days(n))
      case _ => None
  }

  lemma UnitLabel(n: nat, u: char)
    requires u != 'w'
    ensures var shown := NatToString(n) + [u];
            shown != "now" && |shown| >= 2 && shown[..|shown| - 1] == NatToString(n)
            && shown[|shown| - 1] == u
  {
    var shown := NatToString(n) + [u];
    assert shown[|shown| - 1] == u;
    assert shown[..|shown| - 1] == NatToString(n);
  }

  /** A count followed by a unit letter reads back as that count of units. */
  lemma ReadUnit(n: nat, u: char)
    requires u == 'm' || u == 'h' || u == 'd'
    ensures ReadAge(NatToString(n) + [u])
            == Some(if u == 'm' then Minutes(n) else if u == 'h' then Hours(n) else Days(n))
  {
    UnitLabel(n, u);
    ParseNatToString(n);
  }

  /** Labels lose nothing: each one reads back to the bucket it shows. */
  lemma ReadAgeLabel(a: Age)
    ensures ReadAge(AgeLabel(a)) == Some(a)
  {
    match a
    case JustNow =>
    case Minutes(n) => ReadUnit(n, 'm');
    case Hours(n) => ReadUnit(n, 'h');
    case Days(n) => ReadUnit(n, 'd');
  }

  /** The label of an age names its bucket. */
  lemma FormatSessionTimeReadBack(diff: int)
    ensures ReadAge(FormatSessionTime(diff)) == Some(SessionAge(diff))
  {
    ReadAgeLabel(SessionAge(diff));
  }

  // ---------------------------------------------------------------------
  // `toggleTheme`

  const Themes: seq<string> := ["dark", "light", "auto"]

  /** JavaScript `indexOf`: the first position of `x`, or -1. */
  function IndexOf(xs: seq<string>, x: string, from: nat := 0): (r: int)
    requires from <= |xs|
    ensures -1 <= r < |xs|
    ensures r == -1 <==> forall j :: from <= j < |xs| ==> xs[j] != x
    ensures r >= 0 ==> from <= r && xs[r] == x && forall j :: from <= j < r ==> xs[j] != x
    decreases |xs| - from
  {
    if from == |xs| then -1 else if xs[from] == x then from else IndexOf(xs, x, from + 1)
  }

  /** The theme after a click on the theme button. */
  function NextTheme(theme: string): (r: string)
    ensures r in Themes
  {
    Themes[(IndexOf(Themes, theme) + 1) % |Themes|]
  }

  /** The cycle `dark`, `light`, `auto`. */
  lemma ThemeTable()
    ensures NextTheme("dark") == "light" && NextTheme("light") == "auto" && NextTheme("auto") == "dark"
  {
    assert IndexOf(Themes, "dark") == 0;
    assert IndexOf(Themes, "light") == 1 by {
      assert Themes[0] != "light";
    }
    assert IndexOf(Themes, "auto") == 2 by {
      assert Themes[0] != "auto" && Themes[1] != "auto";
    }
  }

  /** An unknown theme moves to `dark`; a known one moves to the next in
      the list, and three clicks come back to it. */
  lemma ThemeCycle(theme: string)
    ensures theme !in Themes ==> NextTheme(theme) == "dark"
    ensures theme in Themes ==> NextTheme(theme) != theme && NextTheme(NextTheme(NextTheme(theme))) == theme
  {
    if theme !in Themes {
      assert forall j :: 0 <= j < |Themes| ==> Themes[j] != theme;
    } else {
      ThemeTable();
    }
  }

  // ---------------------------------------------------------------------
  // Connectivity and the send button

  /** The outcome of the status request: no usable answer (the request or
      its JSON body failed), or the answer's `ok`, `status` and
      `connected`, absent fields being `None`. */
  datatype StatusProbe = Unreachable | Reply(ok: bool, status: Option<string>, connected: Option<bool>)

  /** Whether the client counts itself connected after a probe. */
  predicate ProbeConnected(p: StatusProbe)
  {
    p.Reply? && p.ok && p.status != Some("error") && p.connected != Some(false)
  }

  /** The early-return test of the send handler, negated: there is text
      once trimmed, and no reply is being awaited. */
  predicate SendGuard(input: string, isTyping: bool)
  {
    Trim(input) != [] && !isTyping
  }

  /** The send button is disabled without text, while typing, or while
      disconnected. An enabled button implies the send handler goes ahead;
      the handler itself does not look at the connection. */
  function SendButtonDisabled(input: string, isTyping: bool, isConnected: bool): (r: bool)
    ensures !r ==> SendGuard(input, isTyping)
    ensures r <==> !SendGuard(input, isTyping) || !isConnected
  {
    Trim(input) == [] || isTyping || !isConnected
  }

  // ---------------------------------------------------------------------
  // The file name of an exported chat

  predicate IsAsciiAlnum(c: char)
  {
    'a' <= c <= 'z' || 'A' <= c <= 'Z' || '0' <= c <= '9'
  }

  predicate IsFileChar(c: char)
  {
    'a' <= c <= 'z' || '0' <= c <= '9' || c == '_'
  }

  const ExportSuffix: string := "_chat.json"

  /** `title.replace(/[^a-z0-9]/gi, '_')`. */
  function Sanitize(title: string): (r: string)
    ensures |r| == |title|
  {
    seq(|title|, i requires 0 <= i < |title| => if IsAsciiAlnum(title[i]) then title[i] else '_')
  }

  function ExportStem(title: string): string
  {
    Lower(Sanitize(title))
  }

  /** The download name of an exported chat: one character per character
      of the title, ASCII letters lowered, digits kept, anything else an
      underscore, then `_chat.json`. */
  function ExportFilename(title: string): (r: string)
    ensures |r| == |title| + |ExportSuffix|
    ensures r[|title|..] == ExportSuffix
    ensures forall i :: 0 <= i < |title| ==> IsFileChar(r[i])
    ensures forall i :: 0 <= i < |title| ==> r[i] == if IsAsciiAlnum(title[i]) then LowerChar(title[i]) else '_'
  {
    var stem := ExportStem(title);
    assert forall i :: 0 <= i < |title| ==> stem[i] == LowerChar(Sanitize(title)[i]);
    stem + ExportSuffix
  }

  /** A name already made of file characters is its own stem, so the stem
      of a stem is the stem. */
  lemma ExportStemIdempotent(title: string)
    ensures ExportStem(ExportStem(title)) == ExportStem(title)
  {
    var s := ExportStem(title);
    var t := ExportStem(s);
    forall i | 0 <= i < |s| ensures t[i] == s[i] {
      assert s[i] == LowerChar(Sanitize(title)[i]);
      assert t[i] == LowerChar(Sanitize(s)[i]);
    }
  }

  // ---------------------------------------------------------------------
  // `generateSessionTitle`

  const NewChatTitle: string := "New Chat"

  /** The message itself when it splits at spaces into at most four
      pieces; otherwise the first four pieces joined by spaces, then `...`. */
  function GenerateSessionTitle(message: string): string
  {
    var words := SplitOn(message, " ");
    if |words| <= 4 then message else Join(words[..4], " ") + "..."
  }

  /** A long message's title is the message cut just before its fourth
      space, then `...`; the part kept splits into exactly the first four
      pieces of the message. */
  lemma TitleShape(message: string)
    ensures |SplitOn(message, " ")| <= 4 ==> GenerateSessionTitle(message) == message
    ensures |SplitOn(message, " ")| > 4 ==>
              exists k :: 0 <= k < |message| && message[k] == ' '
                && GenerateSessionTitle(message) == message[..k] + "..."
                && SplitOn(message[..k], " ") == SplitOn(message, " ")[..4]
  {
    var words := SplitOn(message, " ");
    if |words| > 4 {
      var head := words[..4];
      JoinSplit(message, " ");
      JoinSplitAt(words, " ", 4);
      var k := |Join(head, " ")|;
      assert message[..k] == Join(head, " ");
      assert message[k] == ' ';
      SplitPartsFree(message, " ");
      forall j | 0 <= j < |head| ensures ' ' !in head[j] {
        ContainsChar(head[j], ' ');
      }
      SplitJoinChar(head, ' ');
    }
  }
}
