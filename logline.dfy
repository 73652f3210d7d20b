/**
  The per-line work of the logcat tailer (utils/AndroidEmulatorObserverThread.py):
  finding the application's bundle id in a line of `adb logcat` output, matching
  a line against the log pattern built from that bundle id, and rendering a
  matched line for the debugger's console.

  The two regular expressions of the source are written out as backtracking
  searches. Each search is specified by a predicate saying what a match is and
  by the order in which Python's engine tries the candidates.

  A line is what `readline` returns, so it usually ends with a line feed.
 */
module LogLine {
  import opened Wrappers
  import opened Text

  // ---------------------------------------------------------------------------
  // Icons and rendering
  // ---------------------------------------------------------------------------

  /** The marker in front of every forwarded line. */
  const Robot: char := '\U{1F916}'

  /** The icon table, with "log" for any letter it does not list. */
  function Icon(level: char): string {
    match level
    case 'E' => "\U{203C}\U{FE0F}"
    case 'W' => "\U{26A0}\U{FE0F}"
    case 'I' => "  "
    case 'D' => "\U{1F41E}"
    case 'V' => "\U{1F440}"
    case _ => "log"
  }

  /** Reads a severity letter back from an icon; "log" stands for every other letter. */
  function LevelOf(icon: string): (r: Option<char>)
    ensures r.Some? ==> Icon(r.value) == icon
  {
    if icon == Icon('E') then Some('E')
    else if icon == Icon('W') then Some('W')
    else if icon == Icon('I') then Some('I')
    else if icon == Icon('D') then Some('D')
    else if icon == Icon('V') then Some('V')
    else None
  }

  /**
    The table gives each of E, W, I, D and V an icon of its own, and every
    other letter the text "log", which is none of those five.
   */
  lemma IconTable(level: char)
    ensures LevelOf(Icon(level)) == if level in "EWIDV" then Some(level) else None
    ensures level !in "EWIDV" <==> Icon(level) == "log"
  {
  }

  /** A matched line: the severity letter, the tag if the line has one, and the message. */
  datatype Record = Record(level: char, tag: Option<string>, message: string)

  /** The console line for a matched log line; the tag is shown only when it is non-empty. */
  function Render(rec: Record): string {
    if rec.tag.Some? && rec.tag.value != "" then
      [Robot] + Icon(rec.level) + "[" + rec.tag.value + "]\t" + Strip(rec.message)
    else
      [Robot] + "\t" + Icon(rec.level) + "\t" + Strip(rec.message)
  }

  /** What a console line shows: the icon, the tag and the message text. */
  datatype Shown = Shown(icon: string, tag: Option<string>, text: string)

  /** The position of the first `c` in `s`, or `|s|` when there is none. */
  function IndexOf(s: string, c: char): (r: nat)
    ensures r <= |s| && (r < |s| ==> s[r] == c)
    ensures forall j :: 0 <= j < r ==> s[j] != c
  {
    if s == [] || s[0] == c then 0 else 1 + IndexOf(s[1..], c)
  }

  /** Splits a console line written by Render back into its parts. */
  function Unrender(line: string): Option<Shown> {
    if |line| < 2 || line[0] != Robot then None
    else if line[1] == '\t' then
      var body := line[2..];
      var k := IndexOf(body, '\t');
      if k == |body| then None else Some(Shown(body[..k], None, body[k + 1..]))
    else UnrenderTagged(line[1..])
  }

  /** A tagged line after the robot: the icon up to `[`, the tag up to `]\t`, then the text. */
  function UnrenderTagged(rest: string): Option<Shown> {
    var k := IndexOf(rest, '[');
    if k == |rest| then None
    else
      var after := rest[k + 1..];
      var m := IndexOf(after, '\t');
      if m == |after| || m == 0 || after[m - 1] != ']' then None
      else Some(Shown(rest[..k], Some(after[..m - 1]), after[m + 1..]))
  }

  lemma IndexOfAppend(x: string, c: char, y: string)
    requires c !in x
    ensures IndexOf(x + [c] + y, c) == |x|
  {
    var s := x + [c] + y;
    assert s[|x|] == c;
    assert forall j :: 0 <= j < |x| ==> s[j] == x[j];
  }

  /** No icon holds a tab or a bracket, and none is empty. */
  lemma IconShape(level: char)
    ensures Icon(level) != [] && Icon(level)[0] != '\t'
    ensures '\t' !in Icon(level) && '[' !in Icon(level)
  {
  }

  lemma SplitTag(tag: string, text: string)
    requires '\t' !in tag
    ensures var after := tag + "]\t" + text;
      var m := IndexOf(after, '\t');
      m == |tag| + 1 && after[m - 1] == ']' && after[..m - 1] == tag && after[m + 1..] == text
  {
    var after := tag + "]\t" + text;
    assert after == (tag + "]") + ['\t'] + text;
    IndexOfAppend(tag + "]", '\t', text);
    assert after[..|tag|] == tag;
    assert after[|tag| + 2..] == text;
  }

  lemma UnrenderTag(icon: string, tag: string, text: string)
    requires icon != [] && icon[0] != '\t' && '[' !in icon && '\t' !in tag
    ensures Unrender([Robot] + icon + "[" + tag + "]\t" + text) == Some(Shown(icon, Some(tag), text))
  {
    var after := tag + "]\t" + text;
    var rest := icon + ['['] + after;
    var line := [Robot] + icon + "[" + tag + "]\t" + text;
    assert line == [Robot] + rest;
    assert line[1..] == rest;
    assert line[0] == Robot && line[1] == icon[0];
    TaggedRest(icon, after);
    SplitTag(tag, text);
  }

  lemma TaggedRest(icon: string, after: string)
    requires '[' !in icon
    ensures var rest := icon + ['['] + after;
      IndexOf(rest, '[') == |icon| && rest[..|icon|] == icon && rest[|icon| + 1..] == after
  {
    IndexOfAppend(icon, '[', after);
    var rest := icon + ['['] + after;
    assert rest[..|icon|] == icon && rest[|icon| + 1..] == after;
  }

  lemma UnrenderPlain(icon: string, text: string)
    requires '\t' !in icon
    ensures Unrender([Robot] + "\t" + icon + "\t" + text) == Some(Shown(icon, None, text))
  {
    var line := [Robot] + "\t" + icon + "\t" + text;
    var body := line[2..];
    assert body == icon + ['\t'] + text;
    IndexOfAppend(icon, '\t', text);
    assert body[..|icon|] == icon && body[|icon| + 1..] == text;
    assert line[0] == Robot && line[1] == '\t';
  }

  /**
    Rendering loses nothing but the whitespace around the message: the icon,
    the tag (when it is non-empty) and the stripped message can be read back
    from the console line, provided the tag holds no tab, as no matched tag
    does.
   */
  lemma RenderRoundTrip(rec: Record)
    requires rec.tag.Some? ==> '\t' !in rec.tag.value
    ensures Unrender(Render(rec)) ==
      Some(Shown(Icon(rec.level),
                 if rec.tag.Some? && rec.tag.value != "" then rec.tag else None,
                 Strip(rec.message)))
  {
    IconShape(rec.level);
    if rec.tag.Some? && rec.tag.value != "" {
      UnrenderTag(Icon(rec.level), rec.tag.value, Strip(rec.message));
    } else {
      UnrenderPlain(Icon(rec.level), Strip(rec.message));
    }
  }

  // ---------------------------------------------------------------------------
  // Runs of characters
  // ---------------------------------------------------------------------------

  /** The length of the run of `[a-zA-Z0-9_.]` characters starting at `i`. */
  function IdRun(line: string, i: nat): (n: nat)
    requires i <= |line|
    ensures i + n <= |line|
    ensures forall j :: i <= j < i + n ==> IsIdChar(line[j])
    ensures i + n == |line| || !IsIdChar(line[i + n])
    decreases |line| - i
  {
    if i < |line| && IsIdChar(line[i]) then 1 + IdRun(line, i + 1) else 0
  }

  /** The length of the run starting at `i` of whitespace (`space`) or of non-whitespace. */
  function Run(line: string, i: nat, space: bool): (n: nat)
    requires i <= |line|
    ensures i + n <= |line|
    ensures forall j :: i <= j < i + n ==> IsSpace(line[j]) == space
    ensures i + n == |line| || IsSpace(line[i + n]) != space
    decreases |line| - i
  {
    if i < |line| && IsSpace(line[i]) == space then 1 + Run(line, i + 1, space) else 0
  }

  // ---------------------------------------------------------------------------
  // Discovery: ([a-zA-Z0-9_.]*\.NAME) searched anywhere in the line
  // ---------------------------------------------------------------------------

  /** `\.NAME` matches at `at`. */
  predicate DotNameAt(line: string, name: string, at: nat) {
    at < |line| && line[at] == '.' && MatchesAt(name, line, at + 1)
  }

  /**
    The discovery pattern matches at `start`, its character class taking
    `k` characters.
   */
  predicate DiscoveryAt(line: string, name: string, start: nat, k: nat) {
    start + k <= |line| &&
    (forall j :: start <= j < start + k ==> IsIdChar(line[j])) &&
    DotNameAt(line, name, start + k)
  }

  /** The greedy class gives back characters one at a time, from `k` down to none. */
  function GiveBack(line: string, name: string, start: nat, k: nat): (r: Option<nat>)
    ensures r.Some? ==> r.value <= k && DotNameAt(line, name, start + r.value)
    ensures r.Some? ==> forall at :: start + r.value < at <= start + k ==> !DotNameAt(line, name, at)
    ensures r.None? ==> forall at :: start <= at <= start + k ==> !DotNameAt(line, name, at)
  {
    if DotNameAt(line, name, start + k) then Some(k)
    else if k == 0 then None
    else GiveBack(line, name, start, k - 1)
  }

  /** A discovery match: where it starts and how much the class takes. */
  datatype Found = Found(start: nat, k: nat)

  /**
    `re.search` from `start` on: the leftmost start at which the pattern
    matches and, there, the longest class run (the greedy choice).
   */
  function SearchFrom(line: string, name: string, start: nat): (r: Option<Found>)
    ensures r.Some? ==> start <= r.value.start && DiscoveryAt(line, name, r.value.start, r.value.k)
    ensures r.Some? ==> forall s': nat, k': nat :: start <= s' < r.value.start ==> !DiscoveryAt(line, name, s', k')
    ensures r.Some? ==> forall k': nat :: DiscoveryAt(line, name, r.value.start, k') ==> k' <= r.value.k
    ensures r.None? ==> forall s': nat, k': nat :: start <= s' ==> !DiscoveryAt(line, name, s', k')
    decreases |line| - start
  {
    if start >= |line| then None
    else
      var run := IdRun(line, start);
      var g := GiveBack(line, name, start, run);
      ClassBound(line, name, start, run);
      if g.Some? then Some(Found(start, g.value))
      else SearchFrom(line, name, start + 1)
  }

  /** A class run cannot extend past the first character outside the class. */
  lemma ClassBound(line: string, name: string, start: nat, run: nat)
    requires start + run <= |line|
    requires start + run == |line| || !IsIdChar(line[start + run])
    ensures forall k': nat :: DiscoveryAt(line, name, start, k') ==> k' <= run && DotNameAt(line, name, start + k')
  {
    forall k': nat | DiscoveryAt(line, name, start, k')
      ensures k' <= run
    {
      assert start + run < |line| ==> !IsIdChar(line[start + run]);
    }
  }

  /** The text of the first discovery match in `line`: the bundle id. */
  function FindBundleId(line: string, name: string): Option<string> {
    match SearchFrom(line, name, 0)
    case None => None
    case Some(f) => Some(line[f.start..f.start + f.k + 1 + |name|])
  }

  /** The match `re.search` picks: at the leftmost start, the class takes as much as it can. */
  ghost predicate FirstMatch(line: string, name: string, s: nat, k: nat) {
    DiscoveryAt(line, name, s, k) &&
    (forall s': nat, k': nat :: s' < s ==> !DiscoveryAt(line, name, s', k')) &&
    (forall k': nat :: DiscoveryAt(line, name, s, k') ==> k' <= k)
  }

  /**
    The search finds a match exactly when the pattern occurs in the line,
    and then returns the text of the match `re.search` picks.
   */
  lemma FindBundleIdSpec(line: string, name: string)
    ensures var r := FindBundleId(line, name);
      (r.None? <==> forall s: nat, k: nat :: !DiscoveryAt(line, name, s, k)) &&
      (r.Some? ==> exists s: nat, k: nat :: FirstMatch(line, name, s, k) && r.value == line[s..s + k + 1 + |name|])
  {
    match SearchFrom(line, name, 0)
    case None =>
    case Some(f) =>
      assert FirstMatch(line, name, f.start, f.k);
  }

  // ---------------------------------------------------------------------------
  // The log pattern: .+([A-Z])\s+BUNDLE(\.([^\s]+)?)?:\s(.+)$ matched at the start
  // ---------------------------------------------------------------------------

  /** Where `$` can stand: the end of the line, or before a line feed that ends it. */
  function LineEnd(line: string): (e: nat)
    ensures e <= |line| && |line| - 1 <= e
    ensures e < |line| <==> (|line| > 0 && line[|line| - 1] == '\n')
  {
    if |line| > 0 && line[|line| - 1] == '\n' then |line| - 1 else |line|
  }

  /** `.` never matches a line feed. */
  predicate NoNewline(line: string, from: nat, to: nat)
    requires to <= |line|
  {
    forall j :: from <= j < to ==> line[j] != '\n'
  }

  /** `:\s(.+)$` matches with its colon at `d`. */
  predicate TailAt(line: string, d: nat) {
    d + 2 < LineEnd(line) && line[d] == ':' && IsSpace(line[d + 1]) &&
    NoNewline(line, d + 2, LineEnd(line))
  }

  /**
    `(\.([^\s]+)?)?` runs from `c` to `d`: nothing (`d == c`), or a dot
    followed by a possibly empty run of non-whitespace.
   */
  predicate SuffixSpan(line: string, c: nat, d: nat) {
    d == c ||
    (c < d <= |line| && line[c] == '.' && forall j :: c + 1 <= j < d ==> !IsSpace(line[j]))
  }

  /** The part of the pattern from the bundle id at `b` on, with the colon at `d`. */
  predicate ColonOk(line: string, bundle: string, b: nat, d: nat) {
    MatchesAt(bundle, line, b) && SuffixSpan(line, b + |bundle|, d) && TailAt(line, d)
  }

  /** The part of the pattern after `.+([A-Z])`, with the whitespace after the letter `a` ending at `b`. */
  predicate GapParse(line: string, bundle: string, a: nat, b: nat, d: nat) {
    a + 2 <= b && (forall j :: a + 1 <= j < b && j < |line| ==> IsSpace(line[j])) &&
    ColonOk(line, bundle, b, d)
  }

  /**
    One way the whole pattern can match: the severity letter at `lead`, the
    bundle id at `gap`, and the colon before the message at `colon`.
   */
  datatype Parse = Parse(lead: nat, gap: nat, colon: nat)

  predicate ValidParse(line: string, bundle: string, p: Parse) {
    LeadOk(line, p.lead) && GapParse(line, bundle, p.lead, p.gap, p.colon)
  }

  /**
    The order in which the engine tries the candidates: the longest `.+`
    first, then the longest `\s+`, then the latest colon (longest tag, then
    an empty tag, then no suffix at all). The first that matches is taken.
   */
  predicate Before(p: Parse, q: Parse) {
    p.lead > q.lead ||
    (p.lead == q.lead && p.gap > q.gap) ||
    (p.lead == q.lead && p.gap == q.gap && p.colon >= q.colon)
  }

  /** The latest colon position: after the longest tag, or at `c` when no dot follows the bundle id. */
  function ColonTop(line: string, c: nat): (d: nat)
    requires c <= |line|
    ensures c <= d <= |line|
    ensures forall d': nat :: SuffixSpan(line, c, d') ==> c <= d' <= d
    ensures forall d': nat :: c <= d' <= d ==> SuffixSpan(line, c, d')
  {
    if c < |line| && line[c] == '.' then
      var n := Run(line, c + 1, false);
      forall d': nat | SuffixSpan(line, c, d') ensures d' <= c + 1 + n {
        assert c + 1 + n < |line| ==> IsSpace(line[c + 1 + n]);
      }
      c + 1 + n
    else c
  }

  /** Colon positions tried from `d` down to `c`. */
  function SearchColon(line: string, c: nat, d: nat): (r: Option<nat>)
    requires c <= d
    ensures r.Some? ==> c <= r.value <= d && TailAt(line, r.value)
    ensures r.Some? ==> forall d' :: r.value < d' <= d ==> !TailAt(line, d')
    ensures r.None? ==> forall d' :: c <= d' <= d ==> !TailAt(line, d')
    decreases d - c
  {
    if TailAt(line, d) then Some(d)
    else if d == c then None
    else SearchColon(line, c, d - 1)
  }

  /** With the bundle id at `b`: the preferred colon position, if any. */
  function ColonFor(line: string, bundle: string, b: nat): (r: Option<nat>)
    ensures r.Some? ==> ColonOk(line, bundle, b, r.value)
    ensures r.Some? ==> forall d': nat :: ColonOk(line, bundle, b, d') ==> d' <= r.value
    ensures r.None? ==> forall d': nat :: !ColonOk(line, bundle, b, d')
  {
    if !MatchesAt(bundle, line, b) then None
    else
      var c := b + |bundle|;
      SearchColon(line, c, ColonTop(line, c))
  }

  /** Ends of the whitespace run after the letter at `a`, tried from `b` down to `a + 2`. */
  function SearchGap(line: string, bundle: string, a: nat, b: nat): (r: Option<(nat, nat)>)
    requires b <= |line|
    requires forall j :: a + 1 <= j < b ==> IsSpace(line[j])
    ensures r.Some? ==> r.value.0 <= b && GapParse(line, bundle, a, r.value.0, r.value.1)
    ensures r.Some? ==> forall b': nat, d': nat :: r.value.0 < b' <= b ==> !GapParse(line, bundle, a, b', d')
    ensures r.Some? ==> forall d': nat :: GapParse(line, bundle, a, r.value.0, d') ==> d' <= r.value.1
    ensures r.None? ==> forall b': nat, d': nat :: b' <= b ==> !GapParse(line, bundle, a, b', d')
    decreases b
  {
    if b < a + 2 then None
    else
      var d := ColonFor(line, bundle, b);
      if d.Some? then Some((b, d.value))
      else SearchGap(line, bundle, a, b - 1)
  }

  /** The whitespace run after a letter cannot extend past its first non-whitespace character. */
  lemma GapBound(line: string, bundle: string, a: nat)
    requires a < |line|
    ensures forall b': nat, d': nat :: GapParse(line, bundle, a, b', d') ==> b' <= a + 1 + Run(line, a + 1, true)
  {
    var top := a + 1 + Run(line, a + 1, true);
    forall b': nat, d': nat | GapParse(line, bundle, a, b', d')
      ensures b' <= top
    {
      assert top < |line| ==> !IsSpace(line[top]);
    }
  }

  /** With the letter at `a`: the preferred end of the whitespace run and colon position, if any. */
  function BestGap(line: string, bundle: string, a: nat): (r: Option<(nat, nat)>)
    requires a < |line|
    ensures r.Some? ==> GapParse(line, bundle, a, r.value.0, r.value.1)
    ensures r.Some? ==> forall b': nat, d': nat :: GapParse(line, bundle, a, b', d') ==>
                          b' < r.value.0 || (b' == r.value.0 && d' <= r.value.1)
    ensures r.None? ==> forall b': nat, d': nat :: !GapParse(line, bundle, a, b', d')
  {
    GapBound(line, bundle, a);
    SearchGap(line, bundle, a, a + 1 + Run(line, a + 1, true))
  }

  /** `.+([A-Z])` with the letter at `a`. */
  predicate LeadOk(line: string, a: nat) {
    1 <= a < |line| && NoNewline(line, 0, a) && IsUpper(line[a])
  }

  /** The letter positions tried from `a` down to 1: the longest `.+` first. */
  function SearchLead(line: string, bundle: string, a: nat): (r: Option<Parse>)
    requires a < |line| && NoNewline(line, 0, a)
    ensures r.Some? ==> r.value.lead <= a && ValidParse(line, bundle, r.value)
    ensures r.Some? ==> forall p: Parse :: p.lead <= a && ValidParse(line, bundle, p) ==> Before(r.value, p)
    ensures r.None? ==> forall p: Parse :: p.lead <= a ==> !ValidParse(line, bundle, p)
    decreases a
  {
    if a == 0 then None
    else
      var g := if IsUpper(line[a]) then BestGap(line, bundle, a) else None;
      LeadChoice(line, bundle, a, g);
      if g.Some? then Some(Parse(a, g.value.0, g.value.1))
      else SearchLead(line, bundle, a - 1)
  }

  /** What the choice of the gap at letter `a` says about every parse with its letter there. */
  lemma LeadChoice(line: string, bundle: string, a: nat, g: Option<(nat, nat)>)
    requires 1 <= a < |line| && NoNewline(line, 0, a)
    requires g == if IsUpper(line[a]) then BestGap(line, bundle, a) else None
    ensures g.Some? ==> ValidParse(line, bundle, Parse(a, g.value.0, g.value.1))
    ensures g.Some? ==> forall p: Parse :: p.lead == a && ValidParse(line, bundle, p) ==>
                          Before(Parse(a, g.value.0, g.value.1), p)
    ensures g.None? ==> forall p: Parse :: p.lead == a ==> !ValidParse(line, bundle, p)
  {
  }

  /** The first line feed in `line`, or its length. */
  function FirstNewline(line: string): (n: nat)
    ensures n <= |line| && NoNewline(line, 0, n) && (n < |line| ==> line[n] == '\n')
  {
    IndexOf(line, '\n')
  }

  /**
    `log_pattern.match(line)`: the candidate the engine settles on, which is
    a match of the pattern that comes before every other one in the order
    the engine tries them; none exactly when the pattern cannot match.
   */
  function MatchLog(line: string, bundle: string): (r: Option<Parse>)
    ensures r.Some? ==> ValidParse(line, bundle, r.value)
    ensures r.Some? ==> forall p :: ValidParse(line, bundle, p) ==> Before(r.value, p)
    ensures r.None? <==> forall p :: !ValidParse(line, bundle, p)
  {
    if |line| == 0 then None
    else
      var top := if FirstNewline(line) < |line| - 1 then FirstNewline(line) else |line| - 1;
      forall p | ValidParse(line, bundle, p) ensures p.lead <= top {
        assert NoNewline(line, 0, p.lead);
      }
      SearchLead(line, bundle, top)
  }

  /** The groups of a match: the letter, the tag (group 3) and the message (group 4). */
  function RecordOf(line: string, bundle: string, p: Parse): (r: Record)
    requires ValidParse(line, bundle, p)
    ensures r.level == line[p.lead] && IsUpper(r.level)
    ensures r.tag.Some? ==> r.tag.value != [] && forall j :: 0 <= j < |r.tag.value| ==> !IsSpace(r.tag.value[j])
    ensures r.message != [] && '\n' !in r.message
  {
    var c := p.gap + |bundle|;
    var tag := if p.colon >= c + 2 then Some(line[c + 1..p.colon]) else None;
    var message := line[p.colon + 2..LineEnd(line)];
    assert forall j :: 0 <= j < |message| ==> message[j] == line[p.colon + 2 + j];
    Record(line[p.lead], tag, message)
  }

  /** Matches a line against the log pattern built from `bundle` and extracts its groups. */
  function ParseLine(line: string, bundle: string): Option<Record> {
    match MatchLog(line, bundle)
    case None => None
    case Some(p) => Some(RecordOf(line, bundle, p))
  }

  /**
    A line is forwarded exactly when the pattern matches it, and the groups
    come from the match Python's backtracking picks.
   */
  lemma ParseLineSpec(line: string, bundle: string)
    ensures var r := ParseLine(line, bundle);
      (r.None? <==> forall p :: !ValidParse(line, bundle, p)) &&
      (r.Some? ==> exists p :: ValidParse(line, bundle, p) && r.value == RecordOf(line, bundle, p)
                               && forall q :: ValidParse(line, bundle, q) ==> Before(p, q))
  {
    match MatchLog(line, bundle)
    case None =>
    case Some(p) =>
      assert ValidParse(line, bundle, p);
  }
}
